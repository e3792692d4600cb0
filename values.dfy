/** The values the mock server handles: the JavaScript scalars that replies,
    filters and headers produce, reply bodies, the inbound request, and the
    ASCII upper-casing that method matching relies on. */
module Values {

  datatype Option<+T> = None | Some(value: T) {
    /** The carried value, or `default` when there is none. */
    function GetOr(default: T): T {
      match this
      case Some(v) => v
      case None => default
    }
  }

  newtype byte = x: int | 0 <= x < 256

  /** A JavaScript scalar. Numbers are integers: NaN and fractions are not modelled. */
  datatype Js = Undefined | Null | Bool(b: bool) | Num(n: int) | Str(s: string)

  /** JavaScript's falsy scalars: `undefined`, `null`, `false`, `0` and `""`. */
  predicate Falsy(v: Js) {
    match v
    case Undefined => true
    case Null => true
    case Bool(b) => !b
    case Num(n) => n == 0
    case Str(s) => s == ""
  }

  /** A reply body: a scalar (a string in the intended use) or a Node `Buffer`. */
  datatype BodyValue = Scalar(v: Js) | Buffer(bytes: seq<byte>)

  /** A `Buffer` is an object, so it is truthy even when empty. */
  predicate FalsyBody(b: BodyValue) {
    b.Scalar? && Falsy(b.v)
  }

  /** An inbound request as the matching stage sees it: `verb` is its HTTP
      method, `pathname` the path component of its URL, `body` whatever the
      body decoders left (opaque here). */
  datatype Request = Request(verb: string, pathname: string, body: Js)

  predicate IsLowerAscii(c: char) {
    'a' <= c <= 'z'
  }

  function UpperChar(c: char): (u: char)
    ensures !IsLowerAscii(u)
    ensures IsLowerAscii(c) ==> 'A' <= u <= 'Z' && u as int == c as int - 32
    ensures !IsLowerAscii(c) ==> u == c
  {
    if IsLowerAscii(c) then (c as int - 32) as char else c
  }

  predicate HasLowerAscii(s: string) {
    exists i :: 0 <= i < |s| && IsLowerAscii(s[i])
  }

  /** `String.prototype.toUpperCase` restricted to ASCII letters. */
  function ToUpperAscii(s: string): (r: string)
    ensures |r| == |s|
    ensures !HasLowerAscii(r)
    ensures !HasLowerAscii(s) ==> r == s
    ensures forall i :: 0 <= i < |s| ==> r[i] == UpperChar(s[i])
  {
    if s == [] then [] else [UpperChar(s[0])] + ToUpperAscii(s[1..])
  }

  /** Upper-casing twice is upper-casing once. */
  lemma ToUpperIdempotent(s: string)
    ensures ToUpperAscii(ToUpperAscii(s)) == ToUpperAscii(s)
  {
  }

  /** True when `s` holds no element twice. */
  predicate NoDuplicates<T(==)>(s: seq<T>) {
    forall i, j :: 0 <= i < j < |s| ==> s[i] != s[j]
  }

  /** `s` without every occurrence of `x`, order kept: what `Set.delete`
      leaves of an insertion-ordered set. */
  function Without(s: seq<nat>, x: nat): (r: seq<nat>)
    ensures |r| <= |s|
    ensures forall y :: y in r <==> y in s && y != x
    ensures NoDuplicates(s) ==> NoDuplicates(r)
    ensures NoDuplicates(s) && x in s ==> |r| == |s| - 1
    ensures x !in s ==> r == s
  {
    if s == [] then []
    else
      assert NoDuplicates(s) ==> NoDuplicates(s[1..]) && s[0] !in s[1..];
      if s[0] == x then Without(s[1..], x)
      else [s[0]] + Without(s[1..], x)
  }
}
