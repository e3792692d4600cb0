/** The facade (`ServerMock` in the source): an HTTP engine and an HTTPS engine
    behind one surface. A protocol without configuration gets `ServerVoid`, a
    stand-in whose `start` and `stop` call back at once, whose `on` and resets
    do nothing, whose lists are empty and whose port is `null`; here that
    stand-in is a `null` engine slot. */
module Facade {
  import opened Values
  import opened Handlers
  import opened Replies
  import opened RequestLog
  import opened Engine

  datatype HttpConfig = HttpConfig(host: string, port: nat)
  datatype HttpsConfig = HttpsConfig(host: string, port: nat, key: string, cert: string)
  datatype Protocol = Http | Https

  predicate AllUser(cbs: seq<Callback>) {
    forall k :: 0 <= k < |cbs| ==> cbs[k].User?
  }

  /** The callers' callbacks that a run of engine callbacks stands for. */
  function Ids(cbs: seq<Callback>): (r: seq<nat>)
    ensures |r| == |cbs|
    ensures forall k :: 0 <= k < |cbs| ==> r[k] == cbs[k].id
  {
    seq(|cbs|, k requires 0 <= k < |cbs| => cbs[k].id)
  }

  /** The requests of engine `e` that `f` keeps; none for the stand-in. */
  function PartOf(e: Server?, f: Option<RequestFilter>): seq<Request>
    reads e
  {
    if e == null then [] else e.Requests(f)
  }

  /** The whole request log of engine `e`; empty for the stand-in. */
  function LogOf(e: Server?): seq<Request>
    reads e
  {
    if e == null then [] else e.requests
  }

  function ConnectionsOf(e: Server?): seq<ConnId>
    reads e
  {
    if e == null then [] else e.connections
  }

  /** The life-cycle state of engine `e`; `None` for the stand-in. */
  ghost function LifeOf(e: Server?): Option<Life>
    reads e
  {
    if e == null then None else Some(e.LifeCycle())
  }

  /** What one callback fired by the HTTP engine does, given the HTTPS engine's
      life-cycle state (`None` for the stand-in): the new state, and the
      callers' callbacks called. A caller's own callback is just called. The
      start closure starts the HTTPS engine with the caller's callback, which
      the stand-in calls at once. The stop closure stops the HTTPS engine with
      it. */
  function Step(s: Option<Life>, cb: Callback): (r: (Option<Life>, seq<nat>))
    ensures |r.1| <= 1
    ensures s.None? ==> r == (None, [cb.id])
    ensures cb.User? ==> r == (s, [cb.id])
    ensures cb.StartHttpsThen? && s.Some? ==>
              r.1 == [] && r.0.Some? &&
              (!s.value.server && s.value.drainWaiters == [] ==>
                 r.0.value.server && r.0.value.onListening == Some(User(cb.id))) &&
              (s.value.server || s.value.drainWaiters != [] ==> r.0 == s)
    ensures cb.StopHttpsThen? && s.Some? ==>
              r.0.Some? && r.0.value.stopCalls == s.value.stopCalls + [User(cb.id)] &&
              r.1 == (if s.value.server then [] else [cb.id])
  {
    match cb
    case User(id) => (s, [id])
    case StartHttpsThen(id) =>
      if s.None? then (None, [id])
      else if !s.value.server && s.value.drainWaiters == [] then (Some(Started(s.value, User(id))), [])
      else (s, [])
    case StopHttpsThen(id) =>
      if s.None? then (None, [id])
      else
        var (t, fired) := Stopped(s.value, User(id));
        (Some(t), Ids(fired))
  }

  /** The callbacks `fired`, run in order from the HTTPS state `s`. */
  function Run(s: Option<Life>, fired: seq<Callback>): (r: (Option<Life>, seq<nat>))
    ensures |r.1| <= |fired|
    ensures s.None? ==> r == (None, Ids(fired))
    ensures AllUser(fired) ==> r == (s, Ids(fired))
    ensures |fired| == 1 ==> r == Step(s, fired[0])
  {
    if fired == [] then (s, [])
    else
      var last := fired[|fired| - 1];
      var (t, done) := Run(s, fired[..|fired| - 1]);
      var (u, more) := Step(t, last);
      assert Ids(fired) == Ids(fired[..|fired| - 1]) + [last.id];
      assert |fired| == 1 ==> done == [] && done + more == more && (u, more) == Step(s, last);
      (u, done + more)
  }

  /** Running one more callback is one more step after the run so far. */
  lemma RunSnoc(s: Option<Life>, fired: seq<Callback>, cb: Callback)
    ensures var r := Run(s, fired); var q := Step(r.0, cb);
      Run(s, fired + [cb]) == (q.0, r.1 + q.1)
  {
    assert (fired + [cb])[..|fired|] == fired;
  }

  class ServerMock {
    /** The HTTP and the HTTPS engine; `null` stands for `ServerVoid`. */
    const http: Server?
    const https: Server?

    /** Both engines are valid and distinct, and the HTTPS engine only ever
        holds callers' callbacks (the facade chains nothing after it). */
    ghost predicate Valid()
      reads this, http, https
    {
      && (http != null ==> http.Valid())
      && (https != null ==> https.Valid() && HoldsOnlyUser(https))
      && (http != null && https != null ==> http != https)
    }

    ghost predicate HoldsOnlyUser(e: Server)
      reads e
    {
      && (e.onListening.Some? ==> e.onListening.value.User?)
      && AllUser(e.closeWaiters)
      && AllUser(e.drainWaiters)
    }

    constructor (httpConfig: Option<HttpConfig>, httpsConfig: Option<HttpsConfig>)
      ensures Valid()
      ensures http == null <==> httpConfig.None?
      ensures https == null <==> httpsConfig.None?
      ensures http != null ==> fresh(http) && http.Idle() && http.handlers == [] && http.requests == []
      ensures http != null ==> http.port == httpConfig.value.port && !http.tls
      ensures https != null ==> fresh(https) && https.Idle() && https.handlers == [] && https.requests == []
      ensures https != null ==> https.port == httpsConfig.value.port
      ensures GetHttpPort().None? && GetHttpsPort().None?
      ensures Connections() == [] && Requests(None) == []
      ensures http != null ==> http.connections == [] && http.stopCalls == [] && http.stopFired == []
      ensures https != null ==> https.connections == [] && https.stopCalls == [] && https.stopFired == []
    {
      if httpConfig.Some? {
        http := new Server(httpConfig.value.host, httpConfig.value.port, None, None);
      } else {
        http := null;
      }
      if httpsConfig.Some? {
        var c := httpsConfig.value;
        https := new Server(c.host, c.port, Some(c.key), Some(c.cert));
      } else {
        https := null;
      }
    }

    function EngineOf(p: Protocol): Server?
      reads this
    {
      if p == Http then http else https
    }

    /** `requests(filter)`: the HTTP engine's answer followed by the HTTPS one's. */
    function Requests(f: Option<RequestFilter>): (r: seq<Request>)
      reads this, http, https
      ensures |r| == |PartOf(http, f)| + |PartOf(https, f)|
      ensures forall x :: x in r <==> Keeps(f, x) && (x in LogOf(http) || x in LogOf(https))
      ensures r == Select(LogOf(http) + LogOf(https), f)
    {
      SelectAppend(LogOf(http), LogOf(https), f);
      PartOf(http, f) + PartOf(https, f)
    }

    /** Unfiltered, the facade lists the whole HTTP log, then the whole HTTPS
        log, each in arrival order. */
    lemma RequestsUnfiltered()
      ensures Requests(None) == LogOf(http) + LogOf(https)
    {
      if http != null {
        SelectUnfiltered(http.requests, None);
      }
      if https != null {
        SelectUnfiltered(https.requests, None);
      }
    }

    /** `connections()`: the HTTP engine's live connections, then the HTTPS one's. */
    function Connections(): (r: seq<ConnId>)
      reads this, http, https
      ensures |r| == |ConnectionsOf(http)| + |ConnectionsOf(https)|
      ensures http == null ==> r == ConnectionsOf(https)
      ensures https == null ==> r == ConnectionsOf(http)
      ensures r[..|ConnectionsOf(http)|] == ConnectionsOf(http) && r[|ConnectionsOf(http)|..] == ConnectionsOf(https)
    {
      ConnectionsOf(http) + ConnectionsOf(https)
    }

    function GetHttpPort(): (p: Option<nat>)
      reads this, http, https
      requires Valid()
      ensures http == null ==> p.None?
      ensures http != null ==> (p.None? <==> http.address.None?)
      ensures p.Some? ==> p.value != 0
    {
      if http == null then None else http.GetPort()
    }

    function GetHttpsPort(): (p: Option<nat>)
      reads this, http, https
      requires Valid()
      ensures https == null ==> p.None?
      ensures https != null ==> (p.None? <==> https.address.None?)
      ensures p.Some? ==> p.value != 0
    {
      if https == null then None else https.GetPort()
    }

    /** `on`: registers the handler on both engines and returns the facade.
        The HTTP engine's `on` writes the defaulted reply back into the
        caller's object, so the HTTPS engine receives the rewritten object;
        both still store the same handler. */
    method On(o: HandlerOptions) returns (self: ServerMock)
      requires Valid()
      modifies http, https
      ensures Valid() && self == this
      ensures http != null ==> http.handlers == [ApplyDefaults(o)] + old(http.handlers)
      ensures https != null ==> https.handlers == [ApplyDefaults(o)] + old(https.handlers)
      ensures LogOf(http) == old(LogOf(http)) && LogOf(https) == old(LogOf(https))
      ensures LifeOf(http) == old(LifeOf(http)) && LifeOf(https) == old(LifeOf(https))
    {
      var passed := o;
      if http != null {
        var e := http.On(o);
        passed := Rewritten(o);
      }
      if https != null {
        DefaultsIdempotent(o);
        var e := https.On(passed);
      }
      self := this;
    }

    method Reset()
      requires Valid()
      modifies http, https
      ensures Valid()
      ensures http != null ==> http.handlers == [] && http.requests == []
      ensures https != null ==> https.handlers == [] && https.requests == []
      ensures Requests(None) == []
      ensures LifeOf(http) == old(LifeOf(http)) && LifeOf(https) == old(LifeOf(https))
    {
      if http != null {
        http.Reset();
      }
      if https != null {
        https.Reset();
      }
    }

    method ResetHandlers()
      requires Valid()
      modifies http, https
      ensures Valid()
      ensures http != null ==> http.handlers == []
      ensures https != null ==> https.handlers == []
      ensures LogOf(http) == old(LogOf(http)) && LogOf(https) == old(LogOf(https))
      ensures LifeOf(http) == old(LifeOf(http)) && LifeOf(https) == old(LifeOf(https))
    {
      if http != null {
        http.ResetHandlers();
      }
      if https != null {
        https.ResetHandlers();
      }
    }

    method ResetRequests()
      requires Valid()
      modifies http, https
      ensures Valid()
      ensures http != null ==> http.requests == [] && http.handlers == old(http.handlers)
      ensures https != null ==> https.requests == [] && https.handlers == old(https.handlers)
      ensures Requests(None) == []
      ensures LifeOf(http) == old(LifeOf(http)) && LifeOf(https) == old(LifeOf(https))
    {
      if http != null {
        http.ResetRequests();
      }
      if https != null {
        https.ResetRequests();
      }
    }

    /** The closure the HTTP engine's `start` calls back: start the HTTPS
        engine, which then calls the caller back. */
    method StartHttps(id: nat) returns (done: seq<nat>)
      requires Valid()
      modifies https
      ensures Valid()
      ensures (LifeOf(https), done) == Step(old(LifeOf(https)), StartHttpsThen(id))
      ensures https != null ==> https.handlers == old(https.handlers) && https.requests == old(https.requests)
    {
      if https == null {
        done := [id];
      } else if https.Idle() {
        https.Start(User(id));
        done := [];
      } else {
        done := [];
      }
    }

    /** The closure the HTTP engine's `stop` calls back: stop the HTTPS engine
        with the caller's callback. */
    method StopHttps(id: nat) returns (done: seq<nat>)
      requires Valid()
      modifies https
      ensures Valid()
      ensures (LifeOf(https), done) == Step(old(LifeOf(https)), StopHttpsThen(id))
      ensures https != null ==> https.handlers == old(https.handlers) && https.requests == old(https.requests)
    {
      if https == null {
        done := [id];
      } else {
        var fired := https.Stop(User(id));
        done := Ids(fired);
      }
    }

    /** Runs one callback the HTTP engine called. */
    method ResumeOne(cb: Callback) returns (more: seq<nat>)
      requires Valid()
      modifies https
      ensures Valid()
      ensures (LifeOf(https), more) == Step(old(LifeOf(https)), cb)
      ensures https != null ==> https.handlers == old(https.handlers) && https.requests == old(https.requests)
    {
      match cb {
        case User(id) =>
          more := [id];
        case StartHttpsThen(id) =>
          more := StartHttps(id);
        case StopHttpsThen(id) =>
          more := StopHttps(id);
      }
    }

    /** Runs the callbacks the HTTP engine called, in order: a caller's
        callback is reported in `done`, a chaining closure goes on to the
        HTTPS engine. */
    method Resume(fired: seq<Callback>) returns (done: seq<nat>)
      requires Valid()
      modifies https
      ensures Valid()
      ensures (LifeOf(https), done) == Run(old(LifeOf(https)), fired)
      ensures https != null ==> https.handlers == old(https.handlers) && https.requests == old(https.requests)
      decreases |fired|
    {
      if fired == [] {
        done := [];
      } else {
        done := Resume(fired[..|fired| - 1]);
        var more := ResumeOne(fired[|fired| - 1]);
        done := done + more;
      }
    }

    /** `start`: starts the HTTP engine with the closure that starts the HTTPS
        engine; the stand-in calls that closure at once. */
    method Start(id: nat) returns (done: seq<nat>)
      requires Valid()
      requires http != null ==> http.Idle()
      modifies http, https
      ensures Valid()
      ensures LogOf(http) == old(LogOf(http)) && LogOf(https) == old(LogOf(https))
      ensures http != null ==> http.handlers == old(http.handlers)
      ensures https != null ==> https.handlers == old(https.handlers)
      ensures http != null ==>
                done == [] && http.LifeCycle() == Started(old(http.LifeCycle()), StartHttpsThen(id)) &&
                LifeOf(https) == old(LifeOf(https))
      ensures http == null ==> (LifeOf(https), done) == Step(old(LifeOf(https)), StartHttpsThen(id))
    {
      if http != null {
        http.Start(StartHttpsThen(id));
        done := [];
      } else {
        done := StartHttps(id);
      }
    }

    /** `stop`: stops the HTTP engine with the closure that stops the HTTPS
        engine; the stand-in, or an engine without a listener, calls that
        closure at once. */
    method Stop(id: nat) returns (done: seq<nat>)
      requires Valid()
      modifies http, https
      ensures Valid()
      ensures http != null ==> http.handlers == old(http.handlers) && http.requests == old(http.requests)
      ensures https != null ==> https.handlers == old(https.handlers) && https.requests == old(https.requests)
      ensures http != null ==>
                (http.LifeCycle(), if old(http.server) then [] else [StopHttpsThen(id)]) ==
                Stopped(old(http.LifeCycle()), StopHttpsThen(id))
      ensures http != null && old(http.server) ==> done == [] && LifeOf(https) == old(LifeOf(https))
      ensures http == null || !old(http.server) ==>
                (LifeOf(https), done) == Step(old(LifeOf(https)), StopHttpsThen(id))
      ensures (http == null || !old(http.server)) && (https == null || !old(https.server)) ==> done == [id]
    {
      if http == null {
        done := StopHttps(id);
      } else if http.server {
        var fired := http.Stop(StopHttpsThen(id));
        done := [];
      } else {
        var fired := http.Stop(StopHttpsThen(id));
        done := StopHttps(id);
      }
    }

    /** A request reached engine `p`. */
    method HandleRequest(p: Protocol, req: Request) returns (d: Dispatch)
      requires Valid() && EngineOf(p) != null
      modifies EngineOf(p)
      ensures Valid()
      ensures EngineOf(p).requests == old(EngineOf(p).requests) + [req]
      ensures EngineOf(p).handlers == old(EngineOf(p).handlers)
      ensures d == Serve(EngineOf(p).handlers, req)
      ensures LifeOf(http) == old(LifeOf(http)) && LifeOf(https) == old(LifeOf(https))
    {
      d := EngineOf(p).HandleRequest(req);
    }

    /** Engine `p` is listening on `osPort`, and its start callback runs: for
        the HTTP engine, the closure that starts the HTTPS engine. */
    method OnListening(p: Protocol, osPort: nat) returns (done: seq<nat>)
      requires Valid() && EngineOf(p) != null
      requires EngineOf(p).onListening.Some? && EngineOf(p).closeWaiters == []
      requires osPort != 0 && (EngineOf(p).port != 0 ==> osPort == EngineOf(p).port)
      modifies http, https
      ensures Valid()
      ensures LogOf(http) == old(LogOf(http)) && LogOf(https) == old(LogOf(https))
      ensures EngineOf(p).GetPort() == Some(osPort) && EngineOf(p).onListening.None?
      ensures EngineOf(p).handlers == old(EngineOf(p).handlers)
      ensures p == Http ==>
                var (t, fired) := Listening(old(http.LifeCycle()), osPort);
                http.LifeCycle() == t && (LifeOf(https), done) == Run(old(LifeOf(https)), fired)
      ensures p == Https ==>
                var (t, fired) := Listening(old(https.LifeCycle()), osPort);
                https.LifeCycle() == t && done == Ids(fired) && (http != null ==> unchanged(http))
      ensures p == Http ==> https != null ==> https.handlers == old(https.handlers) && https.requests == old(https.requests)
    {
      var fired;
      if p == Http {
        fired := http.OnListening(osPort);
      } else {
        fired := https.OnListening(osPort);
      }
      done := Resume(fired);
    }

    /** Engine `p` accepted connection `c`. */
    method OnConnection(p: Protocol, c: ConnId)
      requires Valid() && EngineOf(p) != null
      requires EngineOf(p).address.Some? && EngineOf(p).closeWaiters == [] && c !in EngineOf(p).connections
      modifies EngineOf(p)
      ensures Valid()
      ensures EngineOf(p).requests == old(EngineOf(p).requests) && EngineOf(p).handlers == old(EngineOf(p).handlers)
      ensures EngineOf(p).LifeCycle() ==
                old(EngineOf(p).LifeCycle()).(connections := old(EngineOf(p).connections) + [c])
    {
      EngineOf(p).OnConnection(c);
    }

    /** Connection `c` of engine `p` closed. If that completes a stop of the
        HTTP engine, its waiting closures go on to stop the HTTPS engine. */
    method OnConnectionClose(p: Protocol, c: ConnId) returns (done: seq<nat>)
      requires Valid() && EngineOf(p) != null && c in EngineOf(p).connections
      modifies http, https
      ensures Valid()
      ensures EngineOf(p).connections == Without(old(EngineOf(p).connections), c)
      ensures EngineOf(p).handlers == old(EngineOf(p).handlers)
      ensures old(EngineOf(p).drainWaiters) != [] && EngineOf(p).connections == [] ==>
                EngineOf(p).requests == [] && EngineOf(p).drainWaiters == []
      ensures old(EngineOf(p).drainWaiters) == [] || EngineOf(p).connections != [] ==>
                EngineOf(p).requests == old(EngineOf(p).requests) && done == []
      ensures p == Http ==>
                var (t, fired) := Disconnected(old(http.LifeCycle()), c);
                http.LifeCycle() == t && (LifeOf(https), done) == Run(old(LifeOf(https)), fired)
      ensures p == Https ==>
                var (t, fired) := Disconnected(old(https.LifeCycle()), c);
                https.LifeCycle() == t && done == Ids(fired) && (http != null ==> unchanged(http))
      ensures p == Http ==> https != null ==> https.handlers == old(https.handlers) && https.requests == old(https.requests)
    {
      var fired;
      if p == Http {
        fired := http.OnConnectionClose(c);
      } else {
        fired := https.OnConnectionClose(c);
      }
      done := Resume(fired);
    }

    /** The listener of engine `p` closed after `stop`. If no connection is
        left, its waiting callbacks run: for the HTTP engine, the closures
        that stop the HTTPS engine. */
    method OnServerClose(p: Protocol) returns (done: seq<nat>)
      requires Valid() && EngineOf(p) != null && EngineOf(p).closeWaiters != []
      modifies http, https
      ensures Valid()
      ensures !EngineOf(p).server && EngineOf(p).handlers == [] && EngineOf(p).GetPort().None?
      ensures EngineOf(p).connections == old(EngineOf(p).connections)
      ensures old(EngineOf(p).connections) == [] ==> EngineOf(p).requests == []
      ensures old(EngineOf(p).connections) != [] ==> EngineOf(p).requests == old(EngineOf(p).requests) && done == []
      ensures p == Http ==>
                var (t, fired) := Closed(old(http.LifeCycle()));
                http.LifeCycle() == t && (LifeOf(https), done) == Run(old(LifeOf(https)), fired)
      ensures p == Https ==>
                var (t, fired) := Closed(old(https.LifeCycle()));
                https.LifeCycle() == t && done == Ids(fired) && (http != null ==> unchanged(http))
      ensures p == Http ==> https != null ==> https.handlers == old(https.handlers) && https.requests == old(https.requests)
    {
      var fired;
      if p == Http {
        fired := http.OnServerClose();
      } else {
        fired := https.OnServerClose();
      }
      done := Resume(fired);
    }
  }

  /** The start of the repository's `reset()` test, on an HTTP-only facade
      with port `0`: after `start` and the listening event, the facade reports
      the port the system chose. */
  method ListenScenario()
  {
    var mock := new ServerMock(Some(HttpConfig("localhost", 0)), None);
    assert mock.GetHttpPort().None?;
    var done := mock.Start(1);
    done := mock.OnListening(Http, 21256);
    assert done == [1] && mock.GetHttpPort() == Some(21256);
  }

  /** The middle of the repository's `reset()` test: a registered route
      answers 200. */
  method RouteScenario(mock: ServerMock)
    requires mock.Valid() && mock.http != null && mock.https == null
    modifies mock.http
  {
    var reply := ReplyOptions(Some(StaticStatus(Num(200))), Some(StaticBody(Scalar(Str("{}")))), None, None, None);
    var self := mock.On(HandlerOptions(Some("GET"), "/resource", None, Some(reply), None));
    var req := Request("GET", "/resource", Undefined);
    assert !HasLowerAscii("GET");
    assert ToUpperAscii("GET") == "GET";
    assert Matches(mock.http.handlers[0], req);
    var d := mock.HandleRequest(Http, req);
    assert d.Mocked? && d.index == 0;
    assert d.reply.Some? && d.reply.value.status == Num(200);
  }

  /** The end of the repository's `reset()` test: after `reset` the log is
      empty and every request gets the 404 fallback. */
  method ResetScenario(mock: ServerMock, req: Request)
    requires mock.Valid() && mock.http != null && mock.https == null
    modifies mock.http
  {
    mock.Reset();
    assert mock.Requests(None) == [];
    var d := mock.HandleRequest(Http, req);
    assert d == Fallback(NotFound);
  }

  /** Both protocols configured: `start` starts HTTP, whose listening event
      starts HTTPS, whose listening event calls back. */
  method StartChainScenario(mock: ServerMock)
    requires mock.Valid() && mock.http != null && mock.https != null
    requires mock.http.Idle() && mock.http.port == 0 && mock.http.closeWaiters == []
    requires mock.https.Idle() && mock.https.port == 0 && mock.https.closeWaiters == []
    modifies mock.http, mock.https
  {
    var done := mock.Start(7);
    assert done == [] && !mock.https.server;
    done := mock.OnListening(Http, 30001);
    assert done == [] && mock.https.server && mock.https.onListening == Some(User(7));
    done := mock.OnListening(Https, 30002);
    assert done == [7] && mock.GetHttpPort() == Some(30001) && mock.GetHttpsPort() == Some(30002);
  }

  /** Both engines listening, without connections on HTTP: `stop` closes HTTP,
      whose close event stops HTTPS with the caller's callback. */
  method StopChainScenario(mock: ServerMock)
    requires mock.Valid() && mock.http != null && mock.https != null
    requires mock.http.server && mock.http.closeWaiters == [] && mock.http.connections == []
    requires mock.https.server && mock.https.closeWaiters == []
    modifies mock.http, mock.https
  {
    var done := mock.Stop(8);
    assert done == [] && mock.http.closeWaiters == [StopHttpsThen(8)] && mock.https.server;
    done := mock.OnServerClose(Http);
    assert done == [] && mock.https.closeWaiters == [User(8)];
    assert mock.http.requests == [] && mock.GetHttpPort().None?;
  }

  /** The HTTPS engine closing with connection `c` still open: the callback
      of `stop` waits for `c` to close, which also clears the log. */
  method DrainScenario(mock: ServerMock, c: ConnId)
    requires mock.Valid() && mock.https != null
    requires mock.https.closeWaiters == [User(8)] && mock.https.connections == [c]
    modifies mock.http, mock.https
  {
    var done := mock.OnServerClose(Https);
    assert done == [] && mock.GetHttpsPort().None? && mock.https.drainWaiters == [User(8)];
    done := mock.OnConnectionClose(Https, c);
    assert done == [8] && mock.https.requests == [] && mock.https.connections == [];
  }
}
