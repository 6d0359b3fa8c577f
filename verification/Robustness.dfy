/** Properties of the reducers that every arrival order and every minority of arbitrary rows keeps. */
module Robustness {
  import opened Sequences
  import opened Tensors
  import opened Reducers

  // ---- a list and its permutations ----

  /** Removes from `b` one occurrence of the last element of a permutation `a` of it. */
  lemma MatchLast<T>(a: seq<T>, b: seq<T>) returns (k: nat)
    requires multiset(a) == multiset(b) && a != []
    ensures k < |b| && b[k] == a[|a| - 1]
    ensures multiset(a[..|a| - 1]) == multiset(Without(b, k))
  {
    var x := a[|a| - 1];
    assert a == a[..|a| - 1] + [x];
    assert x in multiset(b);
    k :| 0 <= k < |b| && b[k] == x;
    WithoutMembers(b, k);
  }

  lemma SameLength<T>(a: seq<T>, b: seq<T>)
    requires multiset(a) == multiset(b)
    ensures |a| == |b|
  {
    assert |multiset(a)| == |multiset(b)|;
  }

  lemma {:induction false} TotalWithout(s: seq<real>, k: nat)
    requires k < |s|
    ensures Total(s) == Total(Without(s, k)) + s[k]
  {
    var n := |s| - 1;
    if k < n {
      TotalWithout(s[..n], k);
      assert Without(s, k)[..n - 1] == Without(s[..n], k);
    } else {
      assert Without(s, k) == s[..n];
    }
  }

  lemma {:induction false} TotalPermuted(a: seq<real>, b: seq<real>)
    requires multiset(a) == multiset(b)
    ensures Total(a) == Total(b)
  {
    SameLength(a, b);
    if a != [] {
      var k := MatchLast(a, b);
      TotalPermuted(a[..|a| - 1], Without(b, k));
      TotalWithout(b, k);
    }
  }

  lemma SortedTail(a: seq<real>)
    requires Sorted(a) && a != []
    ensures a == [a[0]] + a[1..] && Sorted(a[1..])
    ensures multiset(a[1..]) == multiset(a) - multiset{a[0]}
  {
    assert a == [a[0]] + a[1..];
  }

  lemma HeadIsLeast(a: seq<real>, x: real)
    requires Sorted(a) && x in multiset(a)
    ensures a[0] <= x
  {
    var k :| 0 <= k < |a| && a[k] == x;
  }

  lemma SameHead(a: seq<real>, b: seq<real>)
    requires Sorted(a) && Sorted(b) && multiset(a) == multiset(b) && a != [] && b != []
    ensures a[0] == b[0]
  {
    assert a[0] in multiset(a) && b[0] in multiset(b);
    HeadIsLeast(a, b[0]);
    HeadIsLeast(b, a[0]);
  }

  lemma {:induction false} SortedUnique(a: seq<real>, b: seq<real>)
    requires Sorted(a) && Sorted(b) && multiset(a) == multiset(b)
    ensures a == b
  {
    SameLength(a, b);
    if a != [] {
      SameHead(a, b);
      SortedTail(a);
      SortedTail(b);
      SortedUnique(a[1..], b[1..]);
    }
  }

  lemma {:induction false} ColumnPermuted(a: seq<Vec>, b: seq<Vec>, len: nat, i: nat)
    requires multiset(a) == multiset(b) && Uniform(a, len) && Uniform(b, len) && i < len
    ensures multiset(Column(a, i)) == multiset(Column(b, i))
  {
    SameLength(a, b);
    if a != [] {
      var k := MatchLast(a, b);
      ColumnPermuted(a[..|a| - 1], Without(b, k), len, i);
      assert Column(a, i) == Column(a[..|a| - 1], i) + [a[|a| - 1][i]];
      assert Column(Without(b, k), i) == Without(Column(b, i), k);
      WithoutMembers(Column(b, i), k);
      assert Column(b, i)[k] in multiset(Column(b, i));
    }
  }

  lemma ReduceColumnPermuted(mode: Mode, a: seq<real>, b: seq<real>)
    requires multiset(a) == multiset(b) && a != []
    ensures b != [] && ReduceColumn(mode, a) == ReduceColumn(mode, b)
  {
    SameLength(a, b);
    TotalPermuted(a, b);
    SortedUnique(Sort(a), Sort(b));
  }

  /** Every reducer depends only on the multiset of rows, not on the order in which they arrived. */
  lemma OrderIndependent(mode: Mode, a: seq<Vec>, b: seq<Vec>, len: nat)
    requires multiset(a) == multiset(b) && a != [] && Uniform(a, len) && Uniform(b, len)
    ensures b != [] && Reduce(mode, a, len) == Reduce(mode, b, len)
  {
    SameLength(a, b);
    forall i | 0 <= i < len ensures ReduceColumn(mode, Column(a, i)) == ReduceColumn(mode, Column(b, i)) {
      ColumnPermuted(a, b, len, i);
      ReduceColumnPermuted(mode, Column(a, i), Column(b, i));
    }
  }

  // ---- counting ----

  function CountIf(s: seq<real>, p: real -> bool): nat {
    if s == [] then 0
    else CountIf(s[..|s| - 1], p) + (if p(s[|s| - 1]) then 1 else 0)
  }

  lemma {:induction false} CountWithout(s: seq<real>, p: real -> bool, k: nat)
    requires k < |s|
    ensures CountIf(s, p) == CountIf(Without(s, k), p) + (if p(s[k]) then 1 else 0)
  {
    var n := |s| - 1;
    if k < n {
      CountWithout(s[..n], p, k);
      assert Without(s, k)[..n - 1] == Without(s[..n], k);
    } else {
      assert Without(s, k) == s[..n];
    }
  }

  lemma {:induction false} CountPermuted(a: seq<real>, b: seq<real>, p: real -> bool)
    requires multiset(a) == multiset(b)
    ensures CountIf(a, p) == CountIf(b, p)
  {
    SameLength(a, b);
    if a != [] {
      var k := MatchLast(a, b);
      CountPermuted(a[..|a| - 1], Without(b, k), p);
      CountWithout(b, p, k);
    }
  }

  lemma {:induction false} CountAtLeast(s: seq<real>, p: real -> bool, from: nat, to: nat)
    requires from <= to <= |s| && forall i :: from <= i < to ==> p(s[i])
    ensures CountIf(s, p) >= to - from
  {
    if from < to {
      var n := |s| - 1;
      CountAtLeast(s[..n], p, from, if to == |s| then n else to);
    }
  }

  lemma {:induction false} CountAtMost(s: seq<real>, p: real -> bool, where: set<nat>)
    requires forall i: nat :: i < |s| && p(s[i]) ==> i in where
    ensures CountIf(s, p) <= |where|
  {
    if s != [] {
      var n: nat := |s| - 1;
      if p(s[n]) {
        assert |where - {n}| == |where| - 1;
        CountAtMost(s[..n], p, where - {n});
      } else {
        CountAtMost(s[..n], p, where);
      }
    }
  }

  // ---- robustness of the median ----

  /** All rows outside `bad` have their value in `[lo, hi]`. */
  ghost predicate Honest(c: seq<real>, bad: set<nat>, lo: real, hi: real) {
    forall i: nat :: i < |c| && i !in bad ==> lo <= c[i] <= hi
  }

  lemma RankNotBelow(c: seq<real>, bad: set<nat>, lo: real, hi: real, m: nat)
    requires Honest(c, bad, lo, hi) && |bad| <= m < |c|
    ensures lo <= Sort(c)[m]
  {
    var d, below := Sort(c), (x: real) => x < lo;
    if d[m] < lo {
      CountAtLeast(d, below, 0, m + 1);
      CountAtMost(c, below, bad);
      CountPermuted(c, d, below);
      assert false;
    }
  }

  lemma RankNotAbove(c: seq<real>, bad: set<nat>, lo: real, hi: real, m: nat)
    requires Honest(c, bad, lo, hi) && m < |c| && |bad| < |c| - m
    ensures Sort(c)[m] <= hi
  {
    var d, above := Sort(c), (x: real) => x > hi;
    if d[m] > hi {
      CountAtLeast(d, above, m, |c|);
      CountAtMost(c, above, bad);
      CountPermuted(c, d, above);
      assert false;
    }
  }

  /** A rank with more than `|bad|` elements on each side of it lies in the honest range. */
  lemma RankWithin(c: seq<real>, bad: set<nat>, lo: real, hi: real, m: nat)
    requires Honest(c, bad, lo, hi) && |bad| <= m < |c| && |bad| < |c| - m
    ensures lo <= Sort(c)[m] <= hi
  {
    RankNotBelow(c, bad, lo, hi, m);
    RankNotAbove(c, bad, lo, hi, m);
  }

  lemma ScaleMonotone(n: nat, x: real, y: real)
    requires x <= y
    ensures Scale(n, x) <= Scale(n, y)
  {
    assert n as real * (y - x) >= 0.0;
  }

  /** For odd and even lengths: the mean of the two middle values, which may be the same one. */
  lemma MiddleIs(d: seq<real>, a: real, b: real)
    requires d != [] && a == d[(|d| - 1) / 2] && b == d[|d| / 2]
    ensures Middle(d) == (a + b) / 2.0
  {
  }

  lemma MiddleBetween(d: seq<real>, lo: real, hi: real)
    requires d != [] && lo <= d[(|d| - 1) / 2] <= hi && lo <= d[|d| / 2] <= hi
    ensures lo <= Middle(d) <= hi
  {
    MiddleIs(d, d[(|d| - 1) / 2], d[|d| / 2]);
  }

  lemma MiddleWithin(c: seq<real>, bad: set<nat>, lo: real, hi: real, l: nat, h: nat)
    requires Honest(c, bad, lo, hi)
    requires |bad| <= l <= h < |c| && |bad| < |c| - h && l == (|c| - 1) / 2 && h == |c| / 2
    ensures lo <= Middle(Sort(c)) <= hi
  {
    RankWithin(c, bad, lo, hi, l);
    RankWithin(c, bad, lo, hi, h);
    MiddleBetween(Sort(c), lo, hi);
  }

  lemma MedianWithin(c: seq<real>, bad: set<nat>, lo: real, hi: real)
    requires Honest(c, bad, lo, hi)
    requires 2 * |bad| < |c|
    ensures Scale(|c|, lo) <= ScaledMedian(c) <= Scale(|c|, hi)
  {
    MiddleWithin(c, bad, lo, hi, (|c| - 1) / 2, |c| / 2);
    ScaleMonotone(|c|, lo, Middle(Sort(c)));
    ScaleMonotone(|c|, Middle(Sort(c)), hi);
  }

  /** Fewer than half of the workers cannot move any element of the median outside the range
      spanned by the other workers. */
  lemma MedianRobust(rows: seq<Vec>, len: nat, bad: set<nat>, i: nat, lo: real, hi: real)
    requires Uniform(rows, len) && i < len && 2 * |bad| < |rows|
    requires forall j: nat :: j < |rows| && j !in bad ==> lo <= rows[j][i] <= hi
    ensures Scale(|rows|, lo) <= Reduce(Median, rows, len)[i] <= Scale(|rows|, hi)
  {
    MedianWithin(Column(rows, i), bad, lo, hi);
  }

  /** All positions of a list, and those outside a set. */
  ghost function From(k: nat, n: nat): (s: set<nat>)
    requires k <= n
    ensures |s| == n - k
    ensures forall i: nat :: i in s <==> k <= i < n
    decreases n - k
  {
    if k == n then {} else {k} + From(k + 1, n)
  }

  ghost function Outside(n: nat, bad: set<nat>): (s: set<nat>)
    requires forall i :: i in bad ==> i < n
    ensures |s| == n - |bad| && forall i: nat :: i in s <==> i < n && i !in bad
  {
    assert From(0, n) * bad == bad;
    From(0, n) - bad
  }

  /** The list with one value in place of the arbitrary ones. */
  function Replaced(c: seq<real>, bad: set<nat>, x: real): (r: seq<real>)
    ensures |r| == |c| && forall i :: 0 <= i < |c| ==> r[i] == if i in bad then x else c[i]
  {
    seq(|c|, i requires 0 <= i < |c| => if i in bad then x else c[i])
  }

  /** A bound on the size of all values. */
  function Size(c: seq<real>): (m: real)
    ensures m >= 0.0 && forall i :: 0 <= i < |c| ==> -m <= c[i] <= m
  {
    if c == [] then 0.0
    else
      var m, x := Size(c[..|c| - 1]), c[|c| - 1];
      if x > m then x else if -x > m then -x else m
  }

  /** No value is larger than `m`. */
  ghost predicate Bounded(c: seq<real>, m: real) {
    forall i :: 0 <= i < |c| ==> -m <= c[i] <= m
  }

  lemma ReplacedHonest(c: seq<real>, bad: set<nat>, x: real, m: real)
    requires (forall i :: i in bad ==> i < |c|) && Bounded(c, m)
    ensures Honest(Replaced(c, bad, x), Outside(|c|, bad), x, x)
    ensures -m <= x ==> Honest(Replaced(c, bad, x), {}, -m, if x > m then x else m)
    ensures x <= m ==> Honest(Replaced(c, bad, x), {}, if x < -m then x else -m, m)
  {
  }

  lemma HighMiddle(c: seq<real>, bad: set<nat>, x: real, m: real)
    requires c != [] && 2 * |bad| >= |c| && (forall i :: i in bad ==> i < |c|) && Bounded(c, m) && x >= m >= 0.0
    ensures Middle(Sort(Replaced(c, bad, x))) >= (x - m) / 2.0
  {
    var d := Sort(Replaced(c, bad, x));
    ReplacedHonest(c, bad, x, m);
    RankNotBelow(Replaced(c, bad, x), Outside(|c|, bad), x, x, |c| / 2);
    RankNotBelow(Replaced(c, bad, x), {}, -m, if x > m then x else m, (|c| - 1) / 2);
    MiddleIs(d, d[(|c| - 1) / 2], d[|c| / 2]);
  }

  lemma LowMiddle(c: seq<real>, bad: set<nat>, x: real, m: real)
    requires c != [] && 2 * |bad| >= |c| && (forall i :: i in bad ==> i < |c|) && Bounded(c, m) && x >= m >= 0.0
    ensures Middle(Sort(Replaced(c, bad, -x))) <= (m - x) / 2.0
  {
    var d := Sort(Replaced(c, bad, -x));
    ReplacedHonest(c, bad, -x, m);
    RankNotAbove(Replaced(c, bad, -x), Outside(|c|, bad), -x, -x, (|c| - 1) / 2);
    RankNotAbove(Replaced(c, bad, -x), {}, if -x < -m then -x else -m, m, |c| / 2);
    MiddleIs(d, d[(|c| - 1) / 2], d[|c| / 2]);
  }

  lemma ScaleAtLeast(n: nat, x: real)
    requires n > 0 && x >= 0.0
    ensures Scale(n, x) >= x && Scale(n, -x) <= -x
  {
    assert (n - 1) as real * x >= 0.0;
  }

  lemma PushedUp(c: seq<real>, bad: set<nat>, b: real, x: real, m: real)
    requires c != [] && 2 * |bad| >= |c| && (forall i :: i in bad ==> i < |c|)
    requires Bounded(c, m) && m >= 0.0 && b >= 0.0 && x == 2.0 * b + m + 2.0
    ensures ScaledMedian(Replaced(c, bad, x)) > b
  {
    HighMiddle(c, bad, x, m);
    ScaleMonotone(|c|, b + 1.0, Middle(Sort(Replaced(c, bad, x))));
    ScaleAtLeast(|c|, b + 1.0);
  }

  lemma PushedDown(c: seq<real>, bad: set<nat>, b: real, x: real, m: real)
    requires c != [] && 2 * |bad| >= |c| && (forall i :: i in bad ==> i < |c|)
    requires Bounded(c, m) && m >= 0.0 && b >= 0.0 && x == 2.0 * b + m + 2.0
    ensures ScaledMedian(Replaced(c, bad, -x)) < -b
  {
    LowMiddle(c, bad, x, m);
    ScaleMonotone(|c|, Middle(Sort(Replaced(c, bad, -x))), -(b + 1.0));
    ScaleAtLeast(|c|, b + 1.0);
  }

  /** The bound is sharp: whatever the other workers send, half of the workers or more can push the
      result above and below any bound. */
  lemma MedianBreaks(c: seq<real>, bad: set<nat>, bound: real) returns (up: seq<real>, down: seq<real>)
    requires c != [] && 2 * |bad| >= |c| && forall i :: i in bad ==> i < |c|
    ensures |up| == |down| == |c| && forall i :: 0 <= i < |c| && i !in bad ==> up[i] == down[i] == c[i]
    ensures ScaledMedian(up) > bound && ScaledMedian(down) < -bound
  {
    var b := if bound < 0.0 then -bound else bound;
    var x := 2.0 * b + Size(c) + 2.0;
    up, down := Replaced(c, bad, x), Replaced(c, bad, -x);
    PushedUp(c, bad, b, x, Size(c));
    PushedDown(c, bad, b, x, Size(c));
  }

  // ---- the hybrid reducer ----

  lemma HybridEnds(c: seq<real>)
    requires c != []
    ensures ReduceColumn(Hybrid(0.0), c) == Total(c)
    ensures ReduceColumn(Hybrid(1.0), c) == ScaledMedian(c)
  {
    TotalPermuted(c, Sort(c));
  }

  /** For a weight in [0, 1] the hybrid lies between the sum and the scaled median. */
  lemma HybridBetween(alpha: real, c: seq<real>)
    requires c != [] && 0.0 <= alpha <= 1.0
    ensures Total(c) <= ScaledMedian(c) ==>
              Total(c) <= ReduceColumn(Hybrid(alpha), c) <= ScaledMedian(c)
    ensures ScaledMedian(c) <= Total(c) ==>
              ScaledMedian(c) <= ReduceColumn(Hybrid(alpha), c) <= Total(c)
  {
    TotalPermuted(c, Sort(c));
    if Total(c) <= ScaledMedian(c) {
      MixRises(alpha, Total(c), ScaledMedian(c));
    } else {
      MixRises(alpha, ScaledMedian(c), Total(c));
    }
  }

  lemma ProductNonNegative(x: real, y: real)
    requires x >= 0.0 && y >= 0.0
    ensures x * y >= 0.0
  {
  }

  lemma MixRises(alpha: real, a: real, b: real)
    requires 0.0 <= alpha <= 1.0 && a <= b
    ensures a <= Mix(alpha, a, b) <= b && a <= Mix(alpha, b, a) <= b
  {
    ProductNonNegative(alpha, b - a);
    ProductNonNegative(1.0 - alpha, b - a);
    assert Mix(alpha, a, b) == a + alpha * (b - a) == b - (1.0 - alpha) * (b - a);
    assert Mix(alpha, b, a) == a + (1.0 - alpha) * (b - a) == b - alpha * (b - a);
  }

  /** With full weight on the median, one noisy worker among three or more is harmless, whatever
      value it is given. */
  lemma NoisyHybridRobust(c: seq<real>, b: nat, sample: real, lo: real, hi: real)
    requires |c| >= 3 && b < |c|
    requires forall j: nat :: j < |c| && j != b ==> lo <= c[j] <= hi
    ensures Scale(|c|, lo) <= Blend(1.0, NoisyColumn(c, true, b, sample)) <= Scale(|c|, hi)
  {
    MedianWithin(NoisyColumn(c, true, b, sample), {b}, lo, hi);
  }
}
