/** Small shared vocabulary: optional values, JavaScript numbers produced by
    parsing request parameters, and the integer arithmetic the handlers use. */
module Common {

  datatype Option<+T> = None | Some(value: T) {
    function GetOr(default: T): T {
      if Some? then value else default
    }
  }

  datatype Result<+T, +E> = Success(value: T) | Failure(error: E)

  /** Which behaviour a model follows where the code contradicts itself: the
      code as it stands, or what its authors evidently meant. */
  datatype Reading = AsWritten | Intended

  /** A number obtained from `parseInt`/`Number` on a request string: an
      integer or NaN (fractions and exponents are not modelled). */
  datatype JsNum = Num(n: int) | NaN {
    /** JavaScript truthiness of a number: NaN and 0 are falsy. */
    predicate Truthy() {
      Num? && n != 0
    }
  }

  /** `x || d` for a parsed number. */
  function OrDefault(x: JsNum, d: int): int {
    if x.Truthy() then x.n else d
  }

  /** `Math.max(x, y)`: NaN is contagious. */
  function JsMax(x: JsNum, y: int): JsNum {
    match x
    case NaN => NaN
    case Num(v) => Num(if v < y then y else v)
  }

  /** `Math.min(x, y)` on an integer. */
  function Min(x: int, y: int): int {
    if x < y then x else y
  }

  /** `Math.ceil(a / b)` for integers, `b != 0`. */
  function CeilDiv(a: int, b: int): (r: int)
    requires b != 0
    ensures b > 0 ==> (r - 1) * b < a <= r * b
    ensures b < 0 ==> r * b <= a < (r - 1) * b
  {
    if b > 0 then
      var q := (-a) / b;
      assert q * b <= -a < q * b + b;
      -q
    else
      var q := a / (-b);
      assert q * (-b) <= a < q * (-b) + (-b);
      -q
  }

  /** Milliseconds in a second, an hour and a day. */
  const MsPerSecond: int := 1000
  const MsPerHour: int := 60 * 60 * 1000
  const MsPerDay: int := 24 * 60 * 60 * 1000

  /** Number of elements of `s` satisfying `p`, as `countDocuments` reports it. */
  function Count<T>(s: seq<T>, p: T -> bool): (n: nat)
    ensures n <= |s|
  {
    if s == [] then 0 else (if p(s[0]) then 1 else 0) + Count(s[1..], p)
  }

  /** The elements of `s` satisfying `p`, in their original order: what a
      `find(filter)` query or an array `filter` yields. */
  function Filter<T>(s: seq<T>, p: T -> bool): (r: seq<T>)
    ensures |r| == Count(s, p)
    ensures forall k :: 0 <= k < |r| ==> p(r[k]) && r[k] in s
    ensures multiset(r) <= multiset(s)
  {
    if s == [] then []
    else
      var rest := Filter(s[1..], p);
      assert s == [s[0]] + s[1..];
      assert multiset(s) == multiset{s[0]} + multiset(s[1..]);
      if p(s[0]) then [s[0]] + rest else rest
  }

  /** Index of the first element of `s` satisfying `p`: the document `findOne`
      returns when the collection is scanned in natural order. */
  function FindFirst<T>(s: seq<T>, p: T -> bool): (r: Option<nat>)
    ensures r.Some? ==> r.value < |s| && p(s[r.value])
    ensures r.Some? ==> forall j :: 0 <= j < r.value ==> !p(s[j])
    ensures r.None? ==> forall j :: 0 <= j < |s| ==> !p(s[j])
  {
    if s == [] then None
    else if p(s[0]) then Some(0)
    else
      match FindFirst(s[1..], p)
      case None => None
      case Some(i) => Some(i + 1)
  }

  /** What survives a filter is in the input and satisfies the condition. */
  lemma FilterMembers<T>(s: seq<T>, p: T -> bool)
    ensures forall x :: x in Filter(s, p) ==> x in s && p(x)
  {
    var r := Filter(s, p);
    forall x | x in r
      ensures x in s && p(x)
    {
      var k :| 0 <= k < |r| && r[k] == x;
    }
  }

  /** Every element of `s` satisfying `p` survives the filter. */
  lemma {:induction false} FilterKeeps<T>(s: seq<T>, p: T -> bool, x: T)
    requires x in s && p(x)
    ensures x in Filter(s, p)
  {
    if s[0] != x {
      FilterKeeps(s[1..], p, x);
    }
  }

  /** `t` is `s` with some elements left out, the rest in their order. */
  predicate Subsequence<T(==)>(t: seq<T>, s: seq<T>) {
    if t == [] then true
    else if s == [] then false
    else if t[0] == s[0] then Subsequence(t[1..], s[1..])
    else Subsequence(t, s[1..])
  }

  /** A filter keeps the surviving elements in their original order. */
  lemma {:induction false} FilterIsSubsequence<T>(s: seq<T>, p: T -> bool)
    ensures Subsequence(Filter(s, p), s)
  {
    if s != [] {
      FilterIsSubsequence(s[1..], p);
      var rest := Filter(s[1..], p);
      if !p(s[0]) && rest != [] {
        assert p(rest[0]);
      }
    }
  }

  /** Counting with a weaker condition counts at least as many. */
  lemma {:induction false} CountMonotone<T>(s: seq<T>, p: T -> bool, q: T -> bool)
    requires forall x :: p(x) ==> q(x)
    ensures Count(s, p) <= Count(s, q)
  {
    if s != [] {
      CountMonotone(s[1..], p, q);
    }
  }
}
