/** Values and sequence helpers shared by every part of the model: optional
    values, JavaScript numbers that may be NaN, order-preserving filters and
    sums, and JavaScript's rounding. */
module Basics {

  datatype Option<+T> = None | Some(value: T)

  /** A JavaScript number as the model needs it: a finite value or NaN
      (what `0 / 0` yields). Every comparison with NaN is false. */
  datatype Number = Num(value: real) | NaN

  predicate Above(x: Number, bound: real) {
    x.Num? && x.value > bound
  }

  predicate AtLeast(x: Number, bound: real) {
    x.Num? && x.value >= bound
  }

  function Abs(x: real): (r: real)
    ensures r >= 0.0 && (r == x || r == -x)
  {
    if x < 0.0 then -x else x
  }

  function Min(x: real, y: real): real { if x <= y then x else y }

  function Max(x: real, y: real): real { if x >= y then x else y }

  /** `Math.max(0, Math.min(100, x))` for a finite x. */
  function Clamp(x: real): (r: real)
    ensures 0.0 <= r <= 100.0
    ensures 0.0 <= x <= 100.0 ==> r == x
    ensures x < 0.0 ==> r == 0.0
    ensures x > 100.0 ==> r == 100.0
  {
    Max(0.0, Min(100.0, x))
  }

  /** `Math.round`: the nearest integer, halves rounded up. */
  function Round(x: real): (r: int)
    ensures x - 0.5 < r as real <= x + 0.5
  {
    (x + 0.5).Floor
  }

  lemma RoundMonotone(x: real, y: real)
    requires x <= y
    ensures Round(x) <= Round(y)
  {
  }

  lemma RoundOfInt(n: int)
    ensures Round(n as real) == n
  {
  }

  /** The elements of `xs` that satisfy `p`, in their original order
      (JavaScript's `Array.prototype.filter`). */
  function Keep<T>(xs: seq<T>, p: T -> bool): (r: seq<T>)
    ensures |r| <= |xs|
    ensures forall x :: x in r ==> x in xs && p(x)
  {
    if xs == [] then [] else (if p(xs[0]) then [xs[0]] else []) + Keep(xs[1..], p)
  }

  /** Filtering a concatenation filters each part: the filter keeps the
      relative order of the elements it keeps. */
  lemma {:induction false} KeepAppend<T>(xs: seq<T>, ys: seq<T>, p: T -> bool)
    ensures Keep(xs + ys, p) == Keep(xs, p) + Keep(ys, p)
  {
    if xs == [] {
      assert xs + ys == ys;
    } else {
      assert (xs + ys)[1..] == xs[1..] + ys;
      KeepAppend(xs[1..], ys, p);
    }
  }

  /** Every element of `xs` that satisfies `p` is kept. */
  lemma {:induction false} KeepComplete<T>(xs: seq<T>, p: T -> bool, x: T)
    requires x in xs && p(x)
    ensures x in Keep(xs, p)
  {
    if xs[0] != x {
      KeepComplete(xs[1..], p, x);
    }
  }

  /** The filter keeps exactly the elements that satisfy `p`. */
  lemma KeepMembers<T>(xs: seq<T>, p: T -> bool)
    ensures forall x :: x in Keep(xs, p) <==> x in xs && p(x)
  {
    forall x | x in xs && p(x) ensures x in Keep(xs, p) {
      KeepComplete(xs, p, x);
    }
  }

  lemma {:induction false} KeepAll<T>(xs: seq<T>, p: T -> bool)
    requires forall x :: x in xs ==> p(x)
    ensures Keep(xs, p) == xs
  {
    if xs != [] {
      KeepAll(xs[1..], p);
    }
  }

  lemma {:induction false} KeepNone<T>(xs: seq<T>, p: T -> bool)
    requires forall x :: x in xs ==> !p(x)
    ensures Keep(xs, p) == []
  {
    if xs != [] {
      KeepNone(xs[1..], p);
    }
  }

  /** A weaker test keeps at least as many elements. */
  lemma {:induction false} KeepWeaker<T>(xs: seq<T>, p: T -> bool, q: T -> bool)
    requires forall x :: x in xs && p(x) ==> q(x)
    ensures |Keep(xs, p)| <= |Keep(xs, q)|
  {
    if xs != [] {
      KeepWeaker(xs[1..], p, q);
    }
  }

  /** A filter that rejects some element drops it. */
  lemma {:induction false} KeepShorter<T>(xs: seq<T>, p: T -> bool, x: T)
    requires x in xs && !p(x)
    ensures |Keep(xs, p)| < |xs|
  {
    if xs[0] != x {
      KeepShorter(xs[1..], p, x);
    }
  }

  /** `rank` strictly increases along `xs`. */
  ghost predicate Increasing<T>(xs: seq<T>, rank: T -> int) {
    forall i, j :: 0 <= i < j < |xs| ==> rank(xs[i]) < rank(xs[j])
  }

  /** Filtering keeps the relative order: what was increasing stays so. */
  lemma {:induction false} KeepIncreasing<T>(xs: seq<T>, p: T -> bool, rank: T -> int)
    requires Increasing(xs, rank)
    ensures Increasing(Keep(xs, p), rank)
  {
    if xs != [] {
      var rest := Keep(xs[1..], p);
      assert Increasing(xs[1..], rank) by {
        forall i, j | 0 <= i < j < |xs[1..]| ensures rank(xs[1..][i]) < rank(xs[1..][j]) {
          assert xs[1..][i] == xs[i + 1] && xs[1..][j] == xs[j + 1];
        }
      }
      KeepIncreasing(xs[1..], p, rank);
      if p(xs[0]) {
        var r := [xs[0]] + rest;
        forall i, j | 0 <= i < j < |r| ensures rank(r[i]) < rank(r[j]) {
          if i == 0 {
            assert r[j] in xs[1..];
            var k :| 0 <= k < |xs[1..]| && xs[1..][k] == r[j];
            assert xs[k + 1] == r[j];
          } else {
            assert r[i] == rest[i - 1] && r[j] == rest[j - 1];
          }
        }
      }
    }
  }

  lemma KeepOne<T>(x: T, p: T -> bool)
    ensures Keep([x], p) == if p(x) then [x] else []
  {
    assert [x][1..] == [];
  }

  /** `xs.reduce((sum, x) => sum + w(x), 0)`. */
  function SumOf<T>(xs: seq<T>, w: T -> real): real
  {
    if xs == [] then 0.0 else w(xs[0]) + SumOf(xs[1..], w)
  }

  lemma {:induction false} SumAppend<T>(xs: seq<T>, ys: seq<T>, w: T -> real)
    ensures SumOf(xs + ys, w) == SumOf(xs, w) + SumOf(ys, w)
  {
    if xs == [] {
      assert xs + ys == ys;
    } else {
      assert (xs + ys)[1..] == xs[1..] + ys;
      SumAppend(xs[1..], ys, w);
    }
  }

  lemma SumOne<T>(x: T, w: T -> real)
    ensures SumOf([x], w) == w(x)
  {
    assert [x][1..] == [];
  }

  /** Summing over a filter, one element at a time. */
  lemma SumKeepStep<T>(xs: seq<T>, p: T -> bool, w: T -> real)
    requires xs != []
    ensures SumOf(Keep(xs, p), w) == (if p(xs[0]) then w(xs[0]) else 0.0) + SumOf(Keep(xs[1..], p), w)
  {
    var head := if p(xs[0]) then [xs[0]] else [];
    SumAppend(head, Keep(xs[1..], p), w);
    if p(xs[0]) {
      SumOne(xs[0], w);
    }
  }

  /** A sum of terms that are never negative is never negative; it is zero
      only when every term is. */
  lemma {:induction false} SumNonNegative<T>(xs: seq<T>, w: T -> real)
    requires forall x :: x in xs ==> w(x) >= 0.0
    ensures SumOf(xs, w) >= 0.0
    ensures SumOf(xs, w) == 0.0 <==> forall x :: x in xs ==> w(x) == 0.0
  {
    if xs != [] {
      SumNonNegative(xs[1..], w);
      assert forall x :: x in xs ==> x == xs[0] || x in xs[1..];
    }
  }

  /** No element occurs twice. */
  ghost predicate Distinct<T>(s: seq<T>) {
    forall i, j :: 0 <= i < j < |s| ==> s[i] != s[j]
  }

  function Elements<T>(s: seq<T>): set<T> {
    set x | x in s
  }

  lemma {:induction false} DistinctElements<T>(s: seq<T>)
    requires Distinct(s)
    ensures |Elements(s)| == |s|
  {
    if s != [] {
      var rest := s[1..];
      assert Distinct(rest) by {
        forall i, j | 0 <= i < j < |rest| ensures rest[i] != rest[j] {
          assert rest[i] == s[i + 1] && rest[j] == s[j + 1];
        }
      }
      DistinctElements(rest);
      assert Elements(s) == {s[0]} + Elements(rest);
      assert s[0] !in Elements(rest);
    }
  }

  /** A subset is no larger than its superset. */
  lemma {:induction false} SubsetSize<T>(a: set<T>, b: set<T>)
    requires a <= b
    ensures |a| <= |b|
    decreases |b|
  {
    if a != {} {
      var x :| x in a;
      SubsetSize(a - {x}, b - {x});
    }
  }

  /** Appending a new element keeps a sequence free of repeats. */
  lemma DistinctAppend<T>(s: seq<T>, x: T)
    requires Distinct(s) && x !in s
    ensures Distinct(s + [x]) && Elements(s + [x]) == Elements(s) + {x}
  {
  }

  /** A score that counts distinct credited entries of a record without
      repeats never exceeds the length of the record. */
  lemma CreditedWithin<T>(record: seq<T>, credited: set<T>)
    requires Distinct(record) && credited <= Elements(record)
    ensures |credited| <= |record|
  {
    SubsetSize(credited, Elements(record));
    DistinctElements(record);
  }
}
