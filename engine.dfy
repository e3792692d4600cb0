/** One protocol engine (`Server` in the source): the handler list, the request
    log and the connection set it owns, the request pipeline, and the start/stop
    life cycle that waits for every connection to close before releasing state.
    Sockets and the listener are not modelled; what they do to the engine comes
    in as event methods (`OnListening`, `OnConnection`, `OnConnectionClose`,
    `OnServerClose`, `HandleRequest`). */
module Engine {
  import opened Values
  import opened Handlers
  import opened Replies
  import opened RequestLog

  /** Connections are opaque socket handles. */
  type ConnId = nat

  /** A callback handed to `start` or `stop`: the caller's own (`User`), or one
      of the two closures by which the facade chains the HTTPS engine after
      the HTTP one. */
  datatype Callback = User(id: nat) | StartHttpsThen(id: nat) | StopHttpsThen(id: nat)

  /** The life-cycle part of an engine's state: everything but the handler
      list and the request log. */
  datatype Life = Life(
    server: bool,
    address: Option<nat>,
    onListening: Option<Callback>,
    connections: seq<ConnId>,
    closeWaiters: seq<Callback>,
    drainWaiters: seq<Callback>,
    stopCalls: seq<Callback>,
    stopFired: seq<Callback>)

  /** The ledger of `stop` callbacks: each one handed in is waiting for the
      close event, waiting for the drain, or has been called. */
  predicate Ledger(s: Life) {
    multiset(s.stopFired) + multiset(s.closeWaiters) + multiset(s.drainWaiters) == multiset(s.stopCalls)
  }

  /** `start(cb)` on a stopped engine: a listener exists and `cb` waits for it
      to listen. */
  function Started(s: Life, cb: Callback): (t: Life)
    ensures t.server && t.onListening == Some(cb)
    ensures t.(server := s.server, onListening := s.onListening) == s
  {
    s.(server := true, onListening := Some(cb))
  }

  /** `stop(cb)`: without a listener `cb` is called at once, otherwise it waits
      for the close event; either way it joins the ledger of `stop` callbacks.
      The second component lists the callbacks called. */
  function Stopped(s: Life, cb: Callback): (r: (Life, seq<Callback>))
    ensures r.0.stopCalls == s.stopCalls + [cb]
    ensures Ledger(s) ==> Ledger(r.0)
    ensures !s.server ==> r.1 == [cb] && r.0.stopFired == s.stopFired + [cb] && r.0.closeWaiters == s.closeWaiters
    ensures s.server ==> r.1 == [] && r.0.stopFired == s.stopFired && r.0.closeWaiters == s.closeWaiters + [cb]
    ensures r.0.(stopCalls := s.stopCalls, stopFired := s.stopFired, closeWaiters := s.closeWaiters) == s
  {
    var t := s.(stopCalls := s.stopCalls + [cb]);
    if s.server then (t.(closeWaiters := s.closeWaiters + [cb]), [])
    else (t.(stopFired := s.stopFired + [cb]), [cb])
  }

  /** The listening event on `osPort`: the address is bound and the start
      callback is called. */
  function Listening(s: Life, osPort: nat): (r: (Life, seq<Callback>))
    requires s.onListening.Some?
    ensures r.1 == [s.onListening.value]
    ensures r.0.address == Some(osPort) && r.0.onListening.None?
    ensures r.0.(address := s.address, onListening := s.onListening) == s
    ensures Ledger(s) ==> Ledger(r.0)
  {
    (s.(address := Some(osPort), onListening := None), [s.onListening.value])
  }

  /** Connection `c` closes; if it was the last one while a stop drains, the
      callbacks waiting for the drain are called. */
  function Disconnected(s: Life, c: ConnId): (r: (Life, seq<Callback>))
    ensures r.0.connections == Without(s.connections, c)
    ensures r.0.stopFired == s.stopFired + r.1
    ensures r.1 != [] <==> s.drainWaiters != [] && r.0.connections == []
    ensures r.1 != [] ==> r.1 == s.drainWaiters && r.0.drainWaiters == []
    ensures r.1 == [] ==> r.0.drainWaiters == s.drainWaiters
    ensures r.0.(connections := s.connections, drainWaiters := s.drainWaiters, stopFired := s.stopFired) == s
    ensures Ledger(s) ==> Ledger(r.0)
  {
    var t := s.(connections := Without(s.connections, c));
    if s.drainWaiters != [] && t.connections == [] then
      (t.(drainWaiters := [], stopFired := s.stopFired + s.drainWaiters), s.drainWaiters)
    else (t, [])
  }

  /** The listener's close event: the listener and address are released, and
      the `stop` callbacks are called at once with no connection left, or
      wait for the drain otherwise. */
  function Closed(s: Life): (r: (Life, seq<Callback>))
    ensures !r.0.server && r.0.address.None? && r.0.onListening.None? && r.0.closeWaiters == []
    ensures r.0.stopFired == s.stopFired + r.1
    ensures r.0.connections == s.connections
    ensures s.connections == [] ==> r.1 == s.closeWaiters && r.0.drainWaiters == s.drainWaiters
    ensures s.connections != [] ==> r.1 == [] && r.0.drainWaiters == s.closeWaiters
    ensures r.0.stopCalls == s.stopCalls
    ensures Ledger(s) && s.drainWaiters == [] ==> Ledger(r.0)
  {
    var t := s.(server := false, address := None, onListening := None, closeWaiters := []);
    if s.connections == [] then (t.(stopFired := s.stopFired + s.closeWaiters), s.closeWaiters)
    else (t.(drainWaiters := s.closeWaiters), [])
  }

  class Server {
    const host: string
    const port: nat
    /** Both key and certificate were given: the listener would be HTTPS. */
    const tls: bool

    /** Registered handlers, most recent first. */
    var handlers: seq<Handler>
    /** Received requests, in arrival order. */
    var requests: seq<Request>
    /** Live connections, in the order the set yields them (insertion order). */
    var connections: seq<ConnId>
    /** A listener object exists (`server !== null`). */
    var server: bool
    /** The bound port, once the listener is listening. */
    var address: Option<nat>
    /** The callback of `start`, waiting for the listening event. */
    var onListening: Option<Callback>
    /** Callbacks of `stop` calls, waiting for the listener's close event. */
    var closeWaiters: seq<Callback>
    /** Callbacks waiting, once the listener has closed, for the last connection to close. */
    var drainWaiters: seq<Callback>

    /** Every callback handed to `stop`, and every one called so far. */
    ghost var stopCalls: seq<Callback>
    ghost var stopFired: seq<Callback>

    /** The engine's invariant. Its last line says that each callback handed to
        `stop` is either waiting or has been called, and has been called at most
        once. */
    ghost predicate Valid()
      reads this
    {
      && NoDuplicates(connections)
      && (address.Some? ==> server && address.value != 0 && (port != 0 ==> address.value == port))
      && (onListening.Some? ==> server && address.None?)
      && (closeWaiters != [] ==> server)
      && (drainWaiters != [] ==> !server && connections != [])
      && Ledger(LifeCycle())
    }

    /** No `stop` callback has been called more often than `stop` was given it. */
    lemma StopCallbacksAtMostOnce(cb: Callback)
      requires Valid()
      ensures multiset(stopFired)[cb] <= multiset(stopCalls)[cb]
    {
    }

    /** Once nothing waits for the listener or the connections, every callback
        handed to `stop` has been called, as often as it was handed in. */
    lemma StopCallbacksAllFired()
      requires Valid() && closeWaiters == [] && drainWaiters == []
      ensures multiset(stopFired) == multiset(stopCalls)
    {
    }

    ghost function LifeCycle(): Life
      reads this
    {
      Life(server, address, onListening, connections, closeWaiters, drainWaiters, stopCalls, stopFired)
    }

    /** Stopped with nothing left to drain: `start` may be called. */
    predicate Idle()
      reads this
    {
      !server && drainWaiters == []
    }

    constructor (host: string, port: nat, key: Option<string>, cert: Option<string>)
      ensures Valid() && Idle()
      ensures this.host == host && this.port == port
      ensures tls <==> key.Some? && key.value != "" && cert.Some? && cert.value != ""
      ensures handlers == [] && requests == [] && connections == []
      ensures address.None? && onListening.None? && closeWaiters == []
      ensures stopCalls == [] && stopFired == []
    {
      this.host := host;
      this.port := port;
      tls := key.Some? && key.value != "" && cert.Some? && cert.value != "";
      handlers, requests, connections := [], [], [];
      server, address, onListening := false, None, None;
      closeWaiters, drainWaiters := [], [];
      stopCalls, stopFired := [], [];
    }

    /** Registers a handler in front of the others; returns the engine for chaining. */
    method On(o: HandlerOptions) returns (self: Server)
      requires Valid()
      modifies this`handlers
      ensures Valid() && self == this
      ensures handlers == [ApplyDefaults(o)] + old(handlers)
    {
      handlers := [ApplyDefaults(o)] + handlers;
      self := this;
    }

    method ResetHandlers()
      requires Valid()
      modifies this`handlers
      ensures Valid() && handlers == [] && requests == old(requests)
    {
      handlers := [];
    }

    method ResetRequests()
      requires Valid()
      modifies this`requests
      ensures Valid() && requests == [] && handlers == old(handlers)
    {
      requests := [];
    }

    method Reset()
      requires Valid()
      modifies this`handlers, this`requests
      ensures Valid() && handlers == [] && requests == []
    {
      ResetHandlers();
      ResetRequests();
    }

    /** `requests(filter)`. */
    function Requests(f: Option<RequestFilter>): (r: seq<Request>)
      reads this
      ensures |r| <= |requests|
      ensures forall x :: x in r <==> x in requests && Keeps(f, x)
    {
      Select(requests, f)
    }

    /** `connections()`. */
    function Connections(): (r: seq<ConnId>)
      reads this
      requires Valid()
      ensures NoDuplicates(r)
      ensures forall c :: c in r <==> c in connections
    {
      connections
    }

    /** `getPort()`: `null` exactly while no address is bound, and otherwise
        never `0`: the configured port, or the one the system picked for `0`. */
    function GetPort(): (p: Option<nat>)
      reads this
      requires Valid()
      ensures p.None? <==> address.None?
      ensures p.Some? ==> p.value != 0 && (port != 0 ==> p.value == port)
    {
      address
    }

    /** The matching stage: scans every handler in list order with a `handled`
        flag, so that the first match wins. `consulted` holds the indices whose
        filter got called: those before the winner (or all, with no winner)
        whose method and path matched. */
    method MatchHandler(req: Request) returns (found: Option<nat>, ghost consulted: set<nat>)
      ensures found == FirstMatch(handlers, req)
      ensures forall k :: k in consulted <==>
                0 <= k < |handlers| && FilterConsulted(handlers[k], req) && (found.None? || k <= found.value)
    {
      var handled := false;
      found, consulted := None, {};
      var i := 0;
      while i < |handlers|
        invariant 0 <= i <= |handlers|
        invariant handled <==> found.Some?
        invariant found.None? ==> forall j :: 0 <= j < i ==> !Matches(handlers[j], req)
        invariant found.Some? ==> found.value < i && Matches(handlers[found.value], req)
        invariant found.Some? ==> forall j :: 0 <= j < found.value ==> !Matches(handlers[j], req)
        invariant forall k :: k in consulted <==>
                    0 <= k < i && FilterConsulted(handlers[k], req) && (found.None? || k <= found.value)
      {
        var h := handlers[i];
        var skip := handled;
        if !skip {
          skip := h.verb != Wildcard && req.verb != ToUpperAscii(h.verb);
        }
        if !skip {
          skip := h.path != Wildcard && req.pathname != h.path;
        }
        if !skip && h.filter.Some? {
          consulted := consulted + {i};
          skip := h.filter.value(req) != Bool(true);
        }
        if !skip {
          handled := true;
          found := Some(i);
        }
        i := i + 1;
      }
    }

    /** The request pipeline: record the request, then the matching stage, then
        the fallback. */
    method HandleRequest(req: Request) returns (d: Dispatch)
      requires Valid()
      modifies this`requests
      ensures Valid()
      ensures requests == old(requests) + [req]
      ensures d == Serve(handlers, req)
    {
      requests := requests + [req];
      ghost var consulted;
      var found;
      found, consulted := MatchHandler(req);
      match found
      case None =>
        d := Fallback(NotFound);
      case Some(i) =>
        d := Mocked(i, Synthesize(handlers[i], req));
    }

    /** `start`: creates the listener and waits for it to listen. Restarting
        is only modelled once the previous stop has completed. */
    method Start(cb: Callback)
      requires Valid() && Idle()
      modifies this`server, this`onListening
      ensures Valid()
      ensures server && address.None? && onListening == Some(cb)
      ensures LifeCycle() == Started(old(LifeCycle()), cb)
    {
      server := true;
      onListening := Some(cb);
    }

    /** The listener is listening on `osPort`: the system's choice when the
        configured port is `0`, the configured port otherwise. */
    method OnListening(osPort: nat) returns (fired: seq<Callback>)
      requires Valid() && onListening.Some? && closeWaiters == []
      requires osPort != 0 && (port != 0 ==> osPort == port)
      modifies this`address, this`onListening
      ensures Valid()
      ensures address == Some(osPort) && GetPort() == Some(osPort)
      ensures fired == [old(onListening).value] && onListening.None?
      ensures (LifeCycle(), fired) == Listening(old(LifeCycle()), osPort)
    {
      address := Some(osPort);
      fired := [onListening.value];
      onListening := None;
    }

    /** The listener accepted connection `c`. */
    method OnConnection(c: ConnId)
      requires Valid() && address.Some? && closeWaiters == [] && c !in connections
      modifies this`connections
      ensures Valid()
      ensures connections == old(connections) + [c]
    {
      connections := connections + [c];
    }

    /** Connection `c` closed. If the listener has already closed and `c` was
        the last connection, the requests are cleared and the waiting `stop`
        callbacks are called. */
    method OnConnectionClose(c: ConnId) returns (fired: seq<Callback>)
      requires Valid() && c in connections
      modifies this`connections, this`requests, this`drainWaiters, this`stopFired
      ensures Valid()
      ensures connections == Without(old(connections), c) && |connections| == |old(connections)| - 1
      ensures old(drainWaiters) != [] && connections == [] ==>
                requests == [] && fired == old(drainWaiters) && drainWaiters == [] &&
                stopFired == old(stopFired) + fired
      ensures old(drainWaiters) == [] || connections != [] ==>
                requests == old(requests) && fired == [] && drainWaiters == old(drainWaiters) &&
                stopFired == old(stopFired)
      ensures (LifeCycle(), fired) == Disconnected(old(LifeCycle()), c)
    {
      ghost var before := LifeCycle();
      var rest := Without(connections, c);
      if drainWaiters != [] && rest == [] {
        fired := drainWaiters;
        connections, requests := rest, [];
        drainWaiters, stopFired := [], stopFired + drainWaiters;
      } else {
        fired := [];
        connections := rest;
      }
      assert (LifeCycle(), fired) == Disconnected(before, c);
    }

    /** `stop`: calls back at once when there is no listener; otherwise asks the
        listener to close and waits for its close event. */
    method Stop(cb: Callback) returns (fired: seq<Callback>)
      requires Valid()
      modifies this`closeWaiters, this`stopCalls, this`stopFired
      ensures Valid()
      ensures stopCalls == old(stopCalls) + [cb]
      ensures !server ==> fired == [cb] && closeWaiters == old(closeWaiters) && stopFired == old(stopFired) + [cb]
      ensures server ==> fired == [] && closeWaiters == old(closeWaiters) + [cb] && stopFired == old(stopFired)
      ensures (LifeCycle(), fired) == Stopped(old(LifeCycle()), cb)
    {
      ghost var before := LifeCycle();
      stopCalls := stopCalls + [cb];
      if !server {
        fired := [cb];
        stopFired := stopFired + [cb];
      } else {
        fired := [];
        closeWaiters := closeWaiters + [cb];
      }
      assert (LifeCycle(), fired) == Stopped(before, cb);
    }

    /** The listener closed after `stop`: handlers and address are released at
        once; the requests are cleared and the callbacks called only when no
        connection is left, otherwise when the last one closes. */
    method OnServerClose() returns (fired: seq<Callback>)
      requires Valid() && closeWaiters != []
      modifies this
      ensures Valid() && Idle() == (connections == [])
      ensures !server && address.None? && GetPort().None? && handlers == [] && onListening.None?
      ensures closeWaiters == [] && connections == old(connections) && stopCalls == old(stopCalls)
      ensures old(connections) == [] ==>
                requests == [] && fired == old(closeWaiters) && drainWaiters == [] &&
                stopFired == old(stopFired) + fired
      ensures old(connections) != [] ==>
                requests == old(requests) && fired == [] && drainWaiters == old(closeWaiters) &&
                stopFired == old(stopFired)
      ensures (LifeCycle(), fired) == Closed(old(LifeCycle()))
    {
      ghost var before := LifeCycle();
      assert server && drainWaiters == [];
      if connections == [] {
        fired := closeWaiters;
        server, address, onListening, handlers, requests := false, None, None, [], [];
        closeWaiters, stopFired := [], stopFired + closeWaiters;
      } else {
        fired := [];
        server, address, onListening, handlers := false, None, None, [];
        closeWaiters, drainWaiters := [], closeWaiters;
      }
      assert (LifeCycle(), fired) == Closed(before);
    }
  }
}
