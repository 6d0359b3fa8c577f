/** The server's reducers: the streaming sum, and the batch reducers that run over the replica
    buffer once every worker's gradient has arrived. */
module Reducers {
  import opened Tensors

  ghost predicate Sorted(s: seq<real>) {
    forall i, j :: 0 <= i < j < |s| ==> s[i] <= s[j]
  }

  function Insert(x: real, s: seq<real>): (r: seq<real>)
    ensures |r| == |s| + 1
    ensures r[0] == x || (s != [] && r[0] == s[0])
    ensures multiset(r) == multiset(s) + multiset{x}
  {
    if s == [] then [x]
    else if x <= s[0] then [x] + s
    else
      assert s == [s[0]] + s[1..];
      [s[0]] + Insert(x, s[1..])
  }

  lemma {:induction false} InsertSorted(x: real, s: seq<real>)
    requires Sorted(s)
    ensures Sorted(Insert(x, s))
  {
    if s != [] && x > s[0] {
      InsertSorted(x, s[1..]);
    }
  }

  /** Stands for the library sort: the sorted arrangement of the same elements. */
  function Sort(s: seq<real>): (r: seq<real>)
    ensures Sorted(r) && multiset(r) == multiset(s) && |r| == |s|
  {
    if s == [] then []
    else
      assert s == [s[0]] + s[1..];
      InsertSorted(s[0], Sort(s[1..]));
      Insert(s[0], Sort(s[1..]))
  }

  /** The middle element of a sorted list, or the mean of the two middle ones. */
  function Middle(d: seq<real>): real
    requires d != []
  {
    if |d| % 2 == 0 then (d[|d| / 2 - 1] + d[|d| / 2]) / 2.0 else d[|d| / 2]
  }

  function Scale(n: nat, x: real): real {
    n as real * x
  }

  /** The worker count times the median. */
  function ScaledMedian(c: seq<real>): real
    requires c != []
  {
    Scale(|c|, Middle(Sort(c)))
  }

  function Mix(alpha: real, a: real, b: real): real {
    (1.0 - alpha) * a + alpha * b
  }

  function Blend(alpha: real, c: seq<real>): real
    requires c != []
  {
    Mix(alpha, Total(Sort(c)), ScaledMedian(c))
  }

  datatype Mode = Sum | SumSerial | Median | Hybrid(alpha: real)

  function ReduceColumn(mode: Mode, c: seq<real>): real
    requires c != []
  {
    match mode
    case Sum => Total(c)
    case SumSerial => Total(c)
    case Median => ScaledMedian(c)
    case Hybrid(alpha) => Blend(alpha, c)
  }

  /** The reference result of a round: each element reduced over the workers' rows. */
  function Reduce(mode: Mode, rows: seq<Vec>, len: nat): (r: Vec)
    requires rows != [] && Uniform(rows, len)
    ensures |r| == len
  {
    seq(len, i requires 0 <= i < len => ReduceColumn(mode, Column(rows, i)))
  }

  /** What the reduction step of a finished round leaves in the store. In `Sum` mode nothing is
      computed: the store already holds the streaming sum. */
  function ReduceStore(mode: Mode, store: Vec, replica: Vec, n: nat): (r: Vec)
    requires n > 0 && |replica| == n * |store|
    ensures |r| == |store|
  {
    if mode == Sum then store
    else
      var len := |store|;
      seq(len, i requires 0 <= i < len => ReduceColumn(mode, FlatColumn(replica, n, len, i)))
  }

  /** Replica refinement: with the streaming sum in the store and worker rows in the slots, every
      mode produces the reference reduction of those rows. */
  lemma ReduceStoreRefines(mode: Mode, store: Vec, replica: Vec, rows: seq<Vec>, len: nat)
    requires rows != [] && Uniform(rows, len) && |replica| == |rows| * len
    requires store == SumRows(rows, len)
    requires SlotsHold(replica, |rows|, len, rows)
    ensures ReduceStore(mode, store, replica, |rows|) == Reduce(mode, rows, len)
    ensures ReduceStore(SumSerial, store, replica, |rows|) == store
  {
    forall i | 0 <= i < len
      ensures store[i] == Total(Column(rows, i))
      ensures FlatColumn(replica, |rows|, len, i) == Column(rows, i)
    {
      SumRowsAt(rows, len, i);
      FlatColumnIsColumn(replica, |rows|, len, rows, i);
    }
  }

  lemma ReduceStoreAt(mode: Mode, store: Vec, replica: Vec, n: nat, i: nat)
    requires n > 0 && |replica| == n * |store| && i < |store| && mode != Sum
    ensures ReduceStore(mode, store, replica, n)[i] == ReduceColumn(mode, FlatColumn(replica, n, |store|, i))
  {
  }

  // ---- the reducers as they run, in place on buffers ----

  method SumInto(dst: array<real>, src: array<real>)
    requires dst.Length == src.Length
    modifies dst
    ensures dst[..] == Add(old(dst[..]), old(src[..]))
  {
    for i := 0 to dst.Length
      invariant forall k :: 0 <= k < i ==> dst[k] == old(dst[k]) + old(src[k])
      invariant forall k :: i <= k < dst.Length ==> dst[k] == old(dst[k])
      invariant forall k :: i <= k < dst.Length ==> src[k] == old(src[k])
    {
      dst[i] := dst[i] + src[i];
    }
  }

  method SerialTotal(src: array<real>, n: nat, len: nat, i: nat) returns (sum: real)
    requires src.Length == n * len && i < len
    ensures sum == Total(FlatColumn(src[..], n, len, i))
  {
    ghost var column := FlatColumn(src[..], n, len, i);
    sum := 0.0;
    for j := 0 to n
      invariant sum == Total(column[..j])
    {
      SlotBounds(n, len, j);
      assert column[..j + 1][..j] == column[..j];
      sum := sum + src[i + j * len];
    }
    assert column[..n] == column;
  }

  method SumSerially(dst: array<real>, src: array<real>, n: nat)
    requires n > 0 && dst != src && src.Length == n * dst.Length
    modifies dst
    ensures dst[..] == ReduceStore(SumSerial, old(dst[..]), src[..], n)
  {
    ghost var want := ReduceStore(SumSerial, dst[..], src[..], n);
    for i := 0 to dst.Length
      invariant src[..] == old(src[..])
      invariant forall k :: 0 <= k < i ==> dst[k] == want[k]
    {
      ReduceStoreAt(SumSerial, old(dst[..]), src[..], n, i);
      dst[i] := SerialTotal(src, n, dst.Length, i);
    }
  }

  /** Collects element `i` of every worker. */
  method Gather(src: array<real>, n: nat, len: nat, i: nat) returns (data: seq<real>)
    requires src.Length == n * len && i < len
    ensures data == FlatColumn(src[..], n, len, i)
  {
    ghost var column := FlatColumn(src[..], n, len, i);
    data := [];
    for j := 0 to n
      invariant data == column[..j]
    {
      SlotBounds(n, len, j);
      data := data + [src[j * len + i]];
    }
  }

  method MedianElement(src: array<real>, n: nat, len: nat, i: nat) returns (r: real)
    requires n > 0 && src.Length == n * len && i < len
    ensures r == ReduceColumn(Median, FlatColumn(src[..], n, len, i))
  {
    var data := Gather(src, n, len, i);
    var sorted := Sort(data);
    if |sorted| % 2 == 0 {
      r := Scale(n, (sorted[|sorted| / 2 - 1] + sorted[|sorted| / 2]) / 2.0);
    } else {
      r := Scale(n, sorted[|sorted| / 2]);
    }
  }

  method MedianOf(dst: array<real>, src: array<real>, n: nat)
    requires n > 0 && dst != src && src.Length == n * dst.Length
    modifies dst
    ensures dst[..] == ReduceStore(Median, old(dst[..]), src[..], n)
  {
    ghost var want := ReduceStore(Median, dst[..], src[..], n);
    for i := 0 to dst.Length
      invariant src[..] == old(src[..])
      invariant forall k :: 0 <= k < i ==> dst[k] == want[k]
    {
      ReduceStoreAt(Median, old(dst[..]), src[..], n, i);
      dst[i] := MedianElement(src, n, dst.Length, i);
    }
  }

  /** The column the hybrid reducer works on: with the noise switch on, the value of one worker
      is replaced by a random sample. */
  function NoisyColumn(c: seq<real>, noisy: bool, b: nat, sample: real): (r: seq<real>)
    ensures |r| == |c|
    ensures forall j :: 0 <= j < |c| && !(noisy && j == b) ==> r[j] == c[j]
    ensures noisy && b < |c| ==> r[b] == sample
  {
    if noisy && b < |c| then c[b := sample] else c
  }

  method GatherNoisy(src: array<real>, n: nat, len: nat, i: nat, noisy: bool, b: nat, sample: real)
    returns (data: seq<real>)
    requires src.Length == n * len && i < len
    ensures data == NoisyColumn(FlatColumn(src[..], n, len, i), noisy, b, sample)
  {
    ghost var column := NoisyColumn(FlatColumn(src[..], n, len, i), noisy, b, sample);
    data := [];
    for j := 0 to n
      invariant data == column[..j]
    {
      SlotBounds(n, len, j);
      if noisy && j == b {
        data := data + [sample];
      } else {
        data := data + [src[j * len + i]];
      }
    }
  }

  method TotalOf(data: seq<real>) returns (sum: real)
    ensures sum == Total(data)
  {
    sum := 0.0;
    for j := 0 to |data|
      invariant sum == Total(data[..j])
    {
      assert data[..j + 1][..j] == data[..j];
      sum := sum + data[j];
    }
    assert data[..|data|] == data;
  }

  function HybridAt(alpha: real, noisy: bool, b: nat, samples: seq<real>,
                    buf: Vec, n: nat, len: nat, i: nat): (r: real)
    requires n > 0 && |buf| == n * len && i < len && |samples| == len
    ensures !noisy ==> r == ReduceColumn(Hybrid(alpha), FlatColumn(buf, n, len, i))
  {
    Blend(alpha, NoisyColumn(FlatColumn(buf, n, len, i), noisy, b, samples[i]))
  }

  method HybridElement(alpha: real, noisy: bool, b: nat, samples: seq<real>,
                       src: array<real>, n: nat, len: nat, i: nat) returns (r: real)
    requires n > 0 && src.Length == n * len && i < len && |samples| == len
    ensures r == HybridAt(alpha, noisy, b, samples, src[..], n, len, i)
  {
    var data := GatherNoisy(src, n, len, i, noisy, b, samples[i]);
    var sum := TotalOf(Sort(data));
    r := Mix(alpha, sum, ScaledMedian(data));
  }

  function HybridStore(alpha: real, noisy: bool, b: nat, samples: seq<real>, buf: Vec, n: nat, len: nat): (r: Vec)
    requires n > 0 && |buf| == n * len && |samples| == len
    ensures |r| == len
  {
    seq(len, i requires 0 <= i < len => HybridAt(alpha, noisy, b, samples, buf, n, len, i))
  }

  lemma HybridStoreAt(alpha: real, noisy: bool, b: nat, samples: seq<real>, buf: Vec, n: nat, len: nat, i: nat)
    requires n > 0 && |buf| == n * len && |samples| == len && i < len
    ensures HybridStore(alpha, noisy, b, samples, buf, n, len)[i] == HybridAt(alpha, noisy, b, samples, buf, n, len, i)
  {
  }

  lemma PrefixGrows(a: Vec, w: Vec, i: nat, r: real)
    requires i < |a| == |w| && a[..i] == w[..i] && w[i] == r
    ensures a[i := r][..i + 1] == w[..i + 1]
  {
    assert w[..i + 1] == w[..i] + [r];
  }

  method HybridOf(dst: array<real>, src: array<real>, n: nat, alpha: real,
                  noisy: bool, b: nat, samples: seq<real>)
    requires n > 0 && dst != src && src.Length == n * dst.Length
    requires b < n && |samples| == dst.Length
    modifies dst
    ensures dst[..] == HybridStore(alpha, noisy, b, samples, src[..], n, dst.Length)
  {
    ghost var want := HybridStore(alpha, noisy, b, samples, src[..], n, dst.Length);
    for i := 0 to dst.Length
      invariant src[..] == old(src[..])
      invariant dst[..i] == want[..i]
    {
      HybridStoreAt(alpha, noisy, b, samples, src[..], n, dst.Length, i);
      var r := HybridElement(alpha, noisy, b, samples, src, n, dst.Length, i);
      ghost var before := dst[..];
      dst[i] := r;
      assert dst[..] == before[i := r];
      PrefixGrows(before, want, i, r);
    }
    assert dst[..dst.Length] == dst[..] && want[..dst.Length] == want;
  }

  /** Without noise the hybrid reducer computes the reference reduction. */
  lemma HybridQuiet(alpha: real, b: nat, samples: seq<real>, store: Vec, buf: Vec, n: nat)
    requires n > 0 && |buf| == n * |store| && |samples| == |store|
    ensures HybridStore(alpha, false, b, samples, buf, n, |store|) == ReduceStore(Hybrid(alpha), store, buf, n)
  {
    forall i | 0 <= i < |store|
      ensures HybridAt(alpha, false, b, samples, buf, n, |store|, i) == ReduceStore(Hybrid(alpha), store, buf, n)[i]
    {
      ReduceStoreAt(Hybrid(alpha), store, buf, n, i);
    }
  }
}
