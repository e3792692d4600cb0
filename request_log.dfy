/** The request log's query: `requests(filter)` keeps, in arrival order, the
    recorded requests that agree with the filter's method and path. */
module RequestLog {
  import opened Values

  /** The filter object of `requests`; `None` is a missing key. */
  datatype RequestFilter = RequestFilter(verb: Option<string>, path: Option<string>)

  /** A criterion that is missing or falsy (the empty string) constrains nothing. */
  predicate Unconstrained(c: Option<string>) {
    c.None? || c.value == ""
  }

  /** Whether `requests(f)` keeps `r`: exact, case-sensitive comparison of the
      method and of the pathname, each only when the filter gives it. */
  predicate Keeps(f: Option<RequestFilter>, r: Request) {
    && (f.None? || Unconstrained(f.value.verb) || f.value.verb.value == r.verb)
    && (f.None? || Unconstrained(f.value.path) || f.value.path.value == r.pathname)
  }

  /** The requests of `log` that `f` keeps, in the order of `log`. */
  function Select(log: seq<Request>, f: Option<RequestFilter>): (r: seq<Request>)
    ensures |r| <= |log|
    ensures forall x :: x in r <==> x in log && Keeps(f, x)
  {
    if log == [] then []
    else if Keeps(f, log[0]) then [log[0]] + Select(log[1..], f)
    else Select(log[1..], f)
  }

  /** Selection keeps arrival order: selecting from two consecutive stretches
      of the log is selecting from each and concatenating. */
  lemma {:induction false} SelectAppend(a: seq<Request>, b: seq<Request>, f: Option<RequestFilter>)
    ensures Select(a + b, f) == Select(a, f) + Select(b, f)
  {
    if a == [] {
      assert a + b == b;
    } else {
      assert (a + b)[1..] == a[1..] + b;
      SelectAppend(a[1..], b, f);
    }
  }

  /** Without a filter, or with one that gives neither method nor path, the
      whole log comes back. */
  lemma {:induction false} SelectUnfiltered(log: seq<Request>, f: Option<RequestFilter>)
    requires f.None? || (Unconstrained(f.value.verb) && Unconstrained(f.value.path))
    ensures Select(log, f) == log
  {
    if log != [] {
      SelectUnfiltered(log[1..], f);
    }
  }

  /** Recording one more request extends every query by that request exactly
      when the filter keeps it. */
  lemma SelectRecord(log: seq<Request>, req: Request, f: Option<RequestFilter>)
    ensures Select(log + [req], f) == Select(log, f) + (if Keeps(f, req) then [req] else [])
  {
    SelectAppend(log, [req], f);
    assert [req][1..] == [];
  }
}
