/** Sequence utilities shared by the two storage services: `Array.prototype.filter`,
    a sum and a maximum, with the facts the services rely on. */
module Seqs {

  /** The elements of `s` that satisfy `keep`, in their original order. */
  function Filter<T>(keep: T -> bool, s: seq<T>): (r: seq<T>)
    ensures |r| <= |s|
    ensures forall i :: 0 <= i < |r| ==> r[i] in s && keep(r[i])
    ensures forall i :: 0 <= i < |s| && keep(s[i]) ==> s[i] in r
  {
    if |s| == 0 then []
    else if keep(s[0]) then [s[0]] + Filter(keep, s[1..])
    else Filter(keep, s[1..])
  }

  /** Filtering distributes over concatenation: the relative order of the kept elements is that of `a + b`. */
  lemma {:induction false} FilterAppend<T>(keep: T -> bool, a: seq<T>, b: seq<T>)
    ensures Filter(keep, a + b) == Filter(keep, a) + Filter(keep, b)
  {
    if |a| == 0 {
      assert a + b == b;
    } else {
      var ab := a + b;
      assert ab[0] == a[0];
      assert ab[1..] == a[1..] + b;
      FilterAppend(keep, a[1..], b);
      if keep(a[0]) {
        calc {
          Filter(keep, ab);
          [a[0]] + Filter(keep, a[1..] + b);
          [a[0]] + (Filter(keep, a[1..]) + Filter(keep, b));
          ([a[0]] + Filter(keep, a[1..])) + Filter(keep, b);
        }
      }
    }
  }

  /** Every element is kept as often as it occurs, or dropped entirely. */
  lemma {:induction false} FilterMultiplicity<T>(keep: T -> bool, s: seq<T>, x: T)
    ensures multiset(Filter(keep, s))[x] == if keep(x) then multiset(s)[x] else 0
  {
    if |s| > 0 {
      FilterMultiplicity(keep, s[1..], x);
      assert s == [s[0]] + s[1..];
    }
  }

  /** Filtering twice with the same test is filtering once. */
  lemma {:induction false} FilterIdempotent<T>(keep: T -> bool, s: seq<T>)
    ensures Filter(keep, Filter(keep, s)) == Filter(keep, s)
  {
    if |s| > 0 {
      FilterIdempotent(keep, s[1..]);
      if keep(s[0]) {
        assert ([s[0]] + Filter(keep, s[1..]))[1..] == Filter(keep, s[1..]);
      }
    }
  }

  function Sum(s: seq<int>): int
  {
    if |s| == 0 then 0 else s[0] + Sum(s[1..])
  }

  /** A sum of values each in [lo, hi] lies in [|s| * lo, |s| * hi]. */
  lemma {:induction false} SumBounds(s: seq<int>, lo: int, hi: int)
    requires forall i :: 0 <= i < |s| ==> lo <= s[i] <= hi
    ensures |s| * lo <= Sum(s) <= |s| * hi
  {
    if |s| > 0 {
      SumBounds(s[1..], lo, hi);
      assert |s| * lo == lo + (|s| - 1) * lo;
      assert |s| * hi == hi + (|s| - 1) * hi;
    }
  }

  /** `Math.max(...s)` on a non-empty list: an upper bound that is itself an element. */
  function Max(s: seq<int>): (m: int)
    requires |s| > 0
    ensures forall i :: 0 <= i < |s| ==> s[i] <= m
    ensures m in s
  {
    if |s| == 1 then s[0]
    else
      var rest := Max(s[1..]);
      if s[0] >= rest then s[0] else rest
  }
}
