/** Handler registration and matching: the options a caller passes to `on`,
    the defaults `on` fills in, and the rule that picks the handler serving a
    request. */
module Handlers {
  import opened Values

  /** A reply status: a value, or a function of the request. */
  datatype StatusSpec = StaticStatus(value: Js) | SyncStatus(compute: Request -> Js)

  /** A reply body: a value, a function of the request, or an asynchronous
      function of the request; `emit` gives the value it passes to its callback. */
  datatype BodySpec =
    | StaticBody(value: BodyValue)
    | SyncBody(compute: Request -> BodyValue)
    | AsyncBody(emit: Request -> BodyValue)

  /** Header names are exact, case-sensitive object keys. */
  type Headers = map<string, Js>

  /** The `reply` object a caller passes to `on`; `None` is a missing key. */
  datatype ReplyOptions = ReplyOptions(
    status: Option<StatusSpec>,
    body: Option<BodySpec>,
    headers: Option<Headers>,
    headersOverrides: Option<Headers>,
    end: Option<Js>)

  /** The handler object a caller passes to `on`. */
  datatype HandlerOptions = HandlerOptions(
    verb: Option<string>,
    path: string,
    filter: Option<Request -> Js>,
    reply: Option<ReplyOptions>,
    delay: Option<int>)

  /** A reply once `on` has filled in its defaults. */
  datatype Reply = Reply(
    status: StatusSpec,
    body: BodySpec,
    headers: Headers,
    headersOverrides: Option<Headers>,
    end: Option<Js>)

  /** A registered handler. */
  datatype Handler = Handler(
    verb: string,
    path: string,
    filter: Option<Request -> Js>,
    reply: Reply,
    delay: Option<int>)

  /** Method or path that matches anything. */
  const Wildcard := "*"
  const DefaultVerb := "GET"
  const DefaultStatus := 200
  const ContentType := "content-type"
  const JsonType := "application/json"

  const NoReply := ReplyOptions(None, None, None, None, None)

  /** The headers the caller gave, `{}` when it gave none. */
  function CallerHeaders(o: HandlerOptions): Headers {
    o.reply.GetOr(NoReply).headers.GetOr(map[])
  }

  /** What `on` stores: the caller's handler with `method`, `reply.status`,
      `reply.body` and the `content-type` header defaulted where absent. */
  function ApplyDefaults(o: HandlerOptions): (h: Handler)
    ensures o.verb.None? ==> h.verb == DefaultVerb
    ensures o.verb.Some? ==> h.verb == o.verb.value
    ensures h.path == o.path && h.filter == o.filter && h.delay == o.delay
    ensures o.reply.None? || o.reply.value.status.None? ==> h.reply.status == StaticStatus(Num(DefaultStatus))
    ensures o.reply.Some? && o.reply.value.status.Some? ==> h.reply.status == o.reply.value.status.value
    ensures o.reply.None? || o.reply.value.body.None? ==> h.reply.body == StaticBody(Scalar(Str("")))
    ensures o.reply.Some? && o.reply.value.body.Some? ==> h.reply.body == o.reply.value.body.value
    ensures h.reply.headers.Keys == CallerHeaders(o).Keys + {ContentType}
    ensures forall k :: k in CallerHeaders(o) ==> h.reply.headers[k] == CallerHeaders(o)[k]
    ensures ContentType !in CallerHeaders(o) ==> h.reply.headers[ContentType] == Str(JsonType)
    ensures o.reply.None? ==> h.reply.headersOverrides.None? && h.reply.end.None?
    ensures o.reply.Some? ==> h.reply.headersOverrides == o.reply.value.headersOverrides
    ensures o.reply.Some? ==> h.reply.end == o.reply.value.end
  {
    var r := o.reply.GetOr(NoReply);
    Handler(
      o.verb.GetOr(DefaultVerb),
      o.path,
      o.filter,
      Reply(
        r.status.GetOr(StaticStatus(Num(DefaultStatus))),
        r.body.GetOr(StaticBody(Scalar(Str("")))),
        map[ContentType := Str(JsonType)] + r.headers.GetOr(map[]),
        r.headersOverrides,
        r.end),
      o.delay)
  }

  /** The caller's object after `on` returned: `on` assigns the defaulted reply
      back into the object it was given, while `method` stays as it was. */
  function Rewritten(o: HandlerOptions): HandlerOptions {
    var r := ApplyDefaults(o).reply;
    o.(reply := Some(ReplyOptions(Some(r.status), Some(r.body), Some(r.headers), r.headersOverrides, r.end)))
  }

  /** Registering the rewritten object stores the same handler, so passing one
      object to two engines in turn registers equal handlers on both. */
  lemma DefaultsIdempotent(o: HandlerOptions)
    ensures ApplyDefaults(Rewritten(o)) == ApplyDefaults(o)
  {
  }

  predicate VerbMatches(h: Handler, req: Request) {
    h.verb == Wildcard || req.verb == ToUpperAscii(h.verb)
  }

  predicate PathMatches(h: Handler, req: Request) {
    h.path == Wildcard || req.pathname == h.path
  }

  /** An absent filter accepts; a present one must return exactly `true`. */
  predicate FilterAccepts(h: Handler, req: Request) {
    h.filter.None? || h.filter.value(req) == Bool(true)
  }

  predicate Matches(h: Handler, req: Request) {
    VerbMatches(h, req) && PathMatches(h, req) && FilterAccepts(h, req)
  }

  /** The filter of `h` gets called for `req` while scanning: method and path
      are checked first and short-circuit the call. */
  predicate FilterConsulted(h: Handler, req: Request) {
    h.filter.Some? && VerbMatches(h, req) && PathMatches(h, req)
  }

  /** The index of the handler that serves `req`: the first in list order that
      matches, or `None` when no handler matches. */
  function FirstMatch(hs: seq<Handler>, req: Request): (r: Option<nat>)
    ensures r.Some? ==> r.value < |hs| && Matches(hs[r.value], req)
    ensures r.Some? ==> forall j :: 0 <= j < r.value ==> !Matches(hs[j], req)
    ensures r.None? <==> forall j :: 0 <= j < |hs| ==> !Matches(hs[j], req)
  {
    if hs == [] then None
    else if Matches(hs[0], req) then Some(0)
    else
      match FirstMatch(hs[1..], req)
      case None => None
      case Some(i) => Some(i + 1)
  }

  /** A request whose method has a lower-case ASCII letter is matched only by
      wildcard-method handlers, since the handler's method is upper-cased. */
  lemma LowerCaseVerbNeedsWildcard(h: Handler, req: Request)
    requires HasLowerAscii(req.verb)
    ensures h.verb != Wildcard ==> !VerbMatches(h, req)
  {
  }

  /** Two methods that agree once upper-cased. */
  predicate SameUpToAsciiCase(a: string, b: string) {
    |a| == |b| && forall i :: 0 <= i < |a| ==> UpperChar(a[i]) == UpperChar(b[i])
  }

  /** Method matching ignores the case of the handler's method: a handler
      whose method is not `*` matches exactly the requests whose method has no
      lower-case letter and agrees with it up to ASCII case, so `get` serves
      a `GET` request. */
  lemma VerbMatchesIgnoringCase(h: Handler, req: Request)
    requires h.verb != Wildcard
    ensures VerbMatches(h, req) <==> !HasLowerAscii(req.verb) && SameUpToAsciiCase(h.verb, req.verb)
  {
    var u := ToUpperAscii(h.verb);
    if VerbMatches(h, req) {
      assert req.verb == u;
      forall i | 0 <= i < |h.verb|
        ensures UpperChar(h.verb[i]) == UpperChar(req.verb[i])
      {
        assert req.verb[i] == UpperChar(h.verb[i]);
      }
    }
    if !HasLowerAscii(req.verb) && SameUpToAsciiCase(h.verb, req.verb) {
      forall i | 0 <= i < |u|
        ensures u[i] == req.verb[i]
      {
        assert !IsLowerAscii(req.verb[i]);
      }
    }
  }

  /** The most recently registered matching handler wins: a handler put in
      front of the list serves every request it matches, and otherwise the
      old list's choice stands, one place further back. */
  lemma NewestShadows(h: Handler, hs: seq<Handler>, req: Request)
    ensures Matches(h, req) ==> FirstMatch([h] + hs, req) == Some(0)
    ensures !Matches(h, req) && FirstMatch(hs, req).None? ==> FirstMatch([h] + hs, req).None?
    ensures !Matches(h, req) && FirstMatch(hs, req).Some? ==>
              FirstMatch([h] + hs, req) == Some(FirstMatch(hs, req).value + 1)
  {
  }
}
