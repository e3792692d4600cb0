/** Reply synthesis: how a matched handler's status and body are resolved, how
    the outgoing headers are merged, what gets written, and the fixed 404 sent
    when no handler matches. */
module Replies {
  import opened Values
  import opened Handlers
  import Utf8

  const ContentLength := "content-length"

  /** The status value before `|| 0`: the literal, or what the function returns. */
  function RawStatus(s: StatusSpec, req: Request): Js {
    match s
    case StaticStatus(v) => v
    case SyncStatus(f) => f(req)
  }

  /** `status || 0`: a falsy status becomes `0`, any other is kept as it is. */
  function ResolveStatus(s: StatusSpec, req: Request): (r: Js)
    ensures Falsy(RawStatus(s, req)) <==> r == Num(0)
    ensures !Falsy(RawStatus(s, req)) ==> r == RawStatus(s, req)
  {
    var v := RawStatus(s, req);
    if Falsy(v) then Num(0) else v
  }

  /** The body value the handler yields, before any normalisation. */
  function RawBody(b: BodySpec, req: Request): BodyValue {
    match b
    case StaticBody(v) => v
    case SyncBody(f) => f(req)
    case AsyncBody(emit) => emit(req)
  }

  /** A literal or synchronous body goes through `|| ""`; the value an
      asynchronous body passes to its callback is used as it comes. */
  function ResolveBody(b: BodySpec, req: Request): (r: BodyValue)
    ensures b.AsyncBody? ==> r == RawBody(b, req)
    ensures !b.AsyncBody? && FalsyBody(RawBody(b, req)) ==> r == Scalar(Str(""))
    ensures !b.AsyncBody? && !FalsyBody(RawBody(b, req)) ==> r == RawBody(b, req)
  {
    match b
    case AsyncBody(emit) => emit(req)
    case _ => if FalsyBody(RawBody(b, req)) then Scalar(Str("")) else RawBody(b, req)
  }

  /** `Buffer.byteLength`: the byte count of a buffer, the UTF-8 length of a
      string, and `None` for any other value, on which Node throws. */
  function ByteLength(b: BodyValue): (n: Option<nat>)
    ensures b.Buffer? ==> n == Some(|b.bytes|)
    ensures b.Scalar? && b.v.Str? ==> n == Some(|Utf8.Encode(b.v.s)|)
    ensures b.Scalar? && !b.v.Str? ==> n.None?
  {
    match b
    case Buffer(bytes) => Some(|bytes|)
    case Scalar(Str(s)) => Utf8.LengthIsEncodedLength(s); Some(Utf8.Length(s))
    case Scalar(_) => None
  }

  /** A literal or synchronous body always has a byte length unless it is a
      truthy scalar other than a string (a number, `true`). */
  lemma ResolvedBodyLength(b: BodySpec, req: Request)
    requires !b.AsyncBody?
    ensures ByteLength(ResolveBody(b, req)).None? <==>
              (RawBody(b, req).Scalar? && !Falsy(RawBody(b, req).v) && !RawBody(b, req).v.Str?)
  {
  }

  /** Header values that are left out of the response. */
  predicate Dropped(v: Js) {
    v == Undefined || v == Null
  }

  /** `m` without the keys whose value is `v`. */
  function DropValue(m: Headers, v: Js): (r: Headers)
    ensures forall k :: k in r <==> k in m && m[k] != v
    ensures forall k :: k in r ==> r[k] == m[k]
  {
    map k | k in m && m[k] != v :: m[k]
  }

  /** The outgoing headers: `headers`, then `content-length: length`, then the
      overrides, each layer replacing the one before on equal keys; keys whose
      final value is `undefined` are removed, then those whose value is `null`. */
  function MergeHeaders(headers: Headers, length: nat, overrides: Option<Headers>): (r: Headers)
    ensures var ov := overrides.GetOr(map[]);
      forall k :: k in ov ==> (k in r <==> !Dropped(ov[k])) && (k in r ==> r[k] == ov[k])
    ensures ContentLength !in overrides.GetOr(map[]) ==>
              ContentLength in r && r[ContentLength] == Num(length)
    ensures var ov := overrides.GetOr(map[]);
      forall k :: k !in ov && k != ContentLength ==>
        (k in r <==> k in headers && !Dropped(headers[k])) && (k in r ==> r[k] == headers[k])
  {
    var layered := headers + map[ContentLength := Num(length)] + overrides.GetOr(map[]);
    DropValue(DropValue(layered, Undefined), Null)
  }

  /** What the engine does with a response: the status and headers passed to
      `writeHead`, the body handed to `write` or `end` (`None` when none is),
      whether `end` is called, and the delay in milliseconds before all this. */
  datatype Response = Response(
    status: Js,
    headers: Headers,
    body: Option<BodyValue>,
    ended: bool,
    delay: int)

  /** `handler.delay || 0`. */
  function DelayOf(h: Handler): int {
    if h.delay.None? then 0 else h.delay.value
  }

  /** The response a matched handler produces for `req`, or `None` when the
      resolved body has no byte length and computing it throws. */
  function Synthesize(h: Handler, req: Request): (r: Option<Response>)
    ensures r.None? <==> ByteLength(ResolveBody(h.reply.body, req)).None?
    ensures r.Some? ==> r.value.status == ResolveStatus(h.reply.status, req)
    ensures r.Some? ==>
              r.value.headers == MergeHeaders(h.reply.headers, ByteLength(ResolveBody(h.reply.body, req)).value,
                                              h.reply.headersOverrides)
    ensures r.Some? && ContentLength !in h.reply.headersOverrides.GetOr(map[]) ==>
              r.value.headers[ContentLength] == Num(ByteLength(ResolveBody(h.reply.body, req)).value)
    ensures r.Some? ==> (r.value.body.Some? <==> req.verb != "HEAD")
    ensures r.Some? && r.value.body.Some? ==> r.value.body.value == ResolveBody(h.reply.body, req)
    ensures r.Some? ==> (r.value.ended <==> h.reply.end != Some(Bool(false)))
    ensures r.Some? ==> r.value.delay == DelayOf(h)
  {
    var content := ResolveBody(h.reply.body, req);
    match ByteLength(content)
    case None => None
    case Some(length) =>
      Some(Response(
        ResolveStatus(h.reply.status, req),
        MergeHeaders(h.reply.headers, length, h.reply.headersOverrides),
        if req.verb != "HEAD" then Some(content) else None,
        h.reply.end != Some(Bool(false)),
        DelayOf(h)))
  }

  const NotFoundText := "Not Found"

  /** The fixed reply of the last pipeline stage. Its body is passed to `end`
      even for `HEAD`. */
  const NotFound := Response(
    Num(404),
    map[ContentType := Str("plain/text"), ContentLength := Num(9)],
    Some(Scalar(Str(NotFoundText))),
    true,
    0)

  /** The fixed reply is a complete `404` whose hard-coded `content-length: 9`
      is the byte length of its body, passed to `end` even for `HEAD`. */
  lemma NotFoundLengthAgrees()
    ensures NotFound.status == Num(404) && NotFound.ended && NotFound.delay == 0
    ensures NotFound.headers.Keys == {ContentType, ContentLength}
    ensures NotFound.headers[ContentType] == Str("plain/text")
    ensures NotFound.body.Some? && ByteLength(NotFound.body.value) == Some(9)
    ensures NotFound.headers[ContentLength] == Num(ByteLength(NotFound.body.value).value)
  {
    assert Utf8.Length(NotFoundText) == 9;
    assert ByteLength(NotFound.body.value) == Some(Utf8.Length(NotFoundText));
  }

  /** How one request ends: served by the handler at `index` (whose reply may
      throw, `reply == None`), or by the fallback. */
  datatype Dispatch = Mocked(index: nat, reply: Option<Response>) | Fallback(response: Response)

  /** The matching and fallback stages for `req` against the handler list `hs`. */
  function Serve(hs: seq<Handler>, req: Request): (d: Dispatch)
    ensures d.Fallback? <==> forall j :: 0 <= j < |hs| ==> !Matches(hs[j], req)
    ensures d.Fallback? ==> d.response == NotFound
    ensures d.Mocked? ==> d.index < |hs| && Matches(hs[d.index], req)
    ensures d.Mocked? ==> forall j :: 0 <= j < d.index ==> !Matches(hs[j], req)
    ensures d.Mocked? ==> d.reply == Synthesize(hs[d.index], req)
  {
    match FirstMatch(hs, req)
    case None => Fallback(NotFound)
    case Some(i) => Mocked(i, Synthesize(hs[i], req))
  }
}
