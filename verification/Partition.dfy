/** Splitting a tensor into partitions, each with its own key. Sizes and offsets are in bytes. */
module Partition {
  import opened Arithmetic

  datatype Part = Part(offset: nat, len: nat) {
    function End(): nat { offset + len }
  }

  /** The parts are nonempty, all of length `bound` except perhaps the last, adjacent, and cover
      exactly `[0, size)`. */
  ghost predicate Tiles(parts: seq<Part>, size: nat, bound: nat) {
    if parts == [] then size == 0
    else
      var last := parts[|parts| - 1];
      && 0 < last.len <= bound && last.End() == size
      && Tiles(parts[..|parts| - 1], last.offset, bound)
      && (forall i :: 0 <= i < |parts| - 1 ==> parts[i].len == bound)
  }

  function CeilDiv(a: nat, b: nat): nat
    requires b > 0
  {
    (a + b - 1) / b
  }

  lemma OneMore(k: nat, bound: nat, len: nat, offset: nat)
    requires 0 < len <= bound && offset == k * bound
    ensures CeilDiv(offset + len, bound) == k + 1
  {
    assert (k + 1) * bound == k * bound + bound;
    DivExact(k + 1, bound, len - 1);
  }

  /** A tiling is determined by size and bound. */
  lemma {:induction false} TilesShape(parts: seq<Part>, size: nat, bound: nat)
    requires Tiles(parts, size, bound) && bound > 0
    ensures |parts| == CeilDiv(size, bound)
    ensures forall i :: 0 <= i < |parts| ==> parts[i].offset == i * bound && 0 < parts[i].len <= bound
    ensures (forall i :: 0 <= i < |parts| ==> parts[i].len == bound) ==> size == |parts| * bound
  {
    if parts != [] {
      var k := |parts| - 1;
      TilesShape(parts[..k], parts[k].offset, bound);
      assert forall i :: 0 <= i < k ==> parts[..k][i] == parts[i];
      assert (k + 1) * bound == k * bound + bound;
      OneMore(k, bound, parts[k].len, parts[k].offset);
    } else {
      DivExact(0, bound, bound - 1);
    }
  }

  /** Every byte of the tensor lies in exactly one part. */
  lemma TilesCover(parts: seq<Part>, size: nat, bound: nat, b: nat) returns (i: nat)
    requires Tiles(parts, size, bound) && bound > 0 && b < size
    ensures i < |parts| && parts[i].offset <= b < parts[i].End()
    ensures forall j :: 0 <= j < |parts| && parts[j].offset <= b < parts[j].End() ==> j == i
    decreases |parts|
  {
    var k := |parts| - 1;
    var last := parts[k];
    TilesBefore(parts, size, bound);
    if b >= last.offset {
      i := k;
    } else {
      i := TilesCover(parts[..k], last.offset, bound, b);
      assert forall j :: 0 <= j < k ==> parts[..k][j] == parts[j];
    }
  }

  lemma {:induction false} TilesBefore(parts: seq<Part>, size: nat, bound: nat)
    requires Tiles(parts, size, bound)
    ensures forall j :: 0 <= j < |parts| ==> parts[j].End() <= size
    ensures parts != [] ==> forall j :: 0 <= j < |parts| - 1 ==> parts[j].End() <= parts[|parts| - 1].offset
  {
    if parts != [] {
      var k := |parts| - 1;
      TilesBefore(parts[..k], parts[k].offset, bound);
      assert forall j :: 0 <= j < k ==> parts[..k][j] == parts[j];
    }
  }

  /** If the unit size divides tensor size and bound, it divides every part. */
  lemma {:induction false} TilesAligned(parts: seq<Part>, size: nat, bound: nat, unit: nat, m: nat)
    requires Tiles(parts, size, bound) && unit > 0 && bound > 0 && bound == m * unit && size % unit == 0
    ensures forall j :: 0 <= j < |parts| ==> parts[j].offset % unit == 0 && parts[j].len % unit == 0
    ensures forall j :: 0 <= j < |parts| ==> parts[j].End() <= size
  {
    if parts != [] {
      var k := |parts| - 1;
      TilesShape(parts, size, bound);
      MulAssoc(k, m, unit);
      MulMonotone(0, k, m);
      DivExact(k * m, unit, 0);
      assert parts[k].offset == (k * m) * unit;
      ModDifference(size, parts[k].offset, unit);
      TilesAligned(parts[..k], parts[k].offset, bound, unit, m);
      assert forall j :: 0 <= j < k ==> parts[..k][j] == parts[j];
    }
  }

  /** The same parts counted in elements. */
  function InElements(parts: seq<Part>, unit: nat): (r: seq<Part>)
    requires unit > 0
    ensures |r| == |parts|
  {
    seq(|parts|, i requires 0 <= i < |parts| => Part(parts[i].offset / unit, parts[i].len / unit))
  }

  lemma DivSum(a: nat, b: nat, u: nat)
    requires u > 0 && a % u == 0 && b % u == 0
    ensures (a + b) / u == a / u + b / u
  {
    DivMod(a, u);
    DivMod(b, u);
    assert (a / u + b / u) * u == a / u * u + b / u * u;
    DivExact(a / u + b / u, u, 0);
  }

  lemma DivPositive(a: nat, b: nat, u: nat)
    requires u > 0 && 0 < a <= b && a % u == 0 && b % u == 0
    ensures 0 < a / u <= b / u
  {
    DivMod(a, u);
    DivMod(b, u);
    if a / u > b / u {
      MulMonotone(b / u, a / u - 1, u);
      MulSub(a / u, 1, u);
    }
  }

  /** Parts that tile the bytes of a tensor tile its elements. */
  lemma {:induction false} TilesInElements(parts: seq<Part>, size: nat, bound: nat, unit: nat)
    requires Tiles(parts, size, bound) && unit > 0 && bound % unit == 0 && size % unit == 0
    requires forall j :: 0 <= j < |parts| ==> parts[j].offset % unit == 0 && parts[j].len % unit == 0
    ensures Tiles(InElements(parts, unit), size / unit, bound / unit)
  {
    if parts != [] {
      var k := |parts| - 1;
      var last := parts[k];
      TilesInElements(parts[..k], last.offset, bound, unit);
      assert InElements(parts, unit)[..k] == InElements(parts[..k], unit);
      DivSum(last.offset, last.len, unit);
      DivPositive(last.len, bound, unit);
    }
  }

  lemma ModDifference(a: nat, b: nat, u: nat)
    requires u > 0 && b <= a && a % u == 0 && b % u == 0
    ensures (a - b) % u == 0
  {
    DivMod(a, u);
    DivMod(b, u);
    MulSub(a / u, b / u, u);
    DivExact(a / u - b / u, u, 0);
  }

  // ---- the loops ----

  method PartitionTensor(size: nat, bound: nat) returns (parts: seq<Part>)
    requires bound > 0
    ensures Tiles(parts, size, bound)
    ensures |parts| == CeilDiv(size, bound)
  {
    parts := [];
    var accumulated: nat := 0;
    while accumulated < size
      invariant accumulated <= size
      invariant Tiles(parts, accumulated, bound)
      invariant accumulated < size ==> forall i :: 0 <= i < |parts| ==> parts[i].len == bound
    {
      var len := if size - accumulated > bound then bound else size - accumulated;
      ghost var before := parts;
      parts := parts + [Part(accumulated, len)];
      assert parts[..|before|] == before;
      accumulated := accumulated + len;
    }
    TilesShape(parts, size, bound);
  }

  const PARTITIONS_PER_TENSOR: nat := 65536

  /** The key of partition `i` of the tensor declared as number `declared`. */
  function KeyOf(declared: nat, i: nat): nat {
    declared * PARTITIONS_PER_TENSOR + i
  }

  /** The keys made when a tensor is initialised: as many as there will be partitions. */
  method InitKeys(declared: nat, size: nat, bound: nat) returns (keys: seq<nat>)
    requires bound > 0
    ensures |keys| == CeilDiv(size, bound)
    ensures forall i :: 0 <= i < |keys| ==> keys[i] == KeyOf(declared, i)
  {
    keys := [];
    var startKey, accumulated: nat := KeyOf(declared, 0), 0;
    ghost var parts: seq<Part> := [];
    while accumulated < size
      invariant accumulated <= size && |parts| == |keys| && startKey == KeyOf(declared, |keys|)
      invariant forall i :: 0 <= i < |keys| ==> keys[i] == KeyOf(declared, i)
      invariant Tiles(parts, accumulated, bound)
      invariant accumulated < size ==> forall i :: 0 <= i < |parts| ==> parts[i].len == bound
    {
      var len := if size - accumulated > bound then bound else size - accumulated;
      keys := keys + [startKey];
      startKey := startKey + 1;
      ghost var before := parts;
      parts := parts + [Part(accumulated, len)];
      assert parts[..|before|] == before;
      accumulated := accumulated + len;
    }
    TilesShape(parts, size, bound);
  }

  /** With at most 2^16 partitions per tensor, different partitions have different keys. */
  lemma KeysDistinct(d: nat, i: nat, e: nat, j: nat)
    requires (d, i) != (e, j)
    requires i < PARTITIONS_PER_TENSOR && j < PARTITIONS_PER_TENSOR
    ensures KeyOf(d, i) != KeyOf(e, j)
  {
  }

  /** A tensor runs into the key range of the next one exactly when it has more partitions. */
  lemma KeysCollideExactly(d: nat, count: nat)
    ensures (exists i :: 0 <= i < count && KeyOf(d, i) == KeyOf(d + 1, 0)) <==> count > PARTITIONS_PER_TENSOR
  {
    assert KeyOf(d, PARTITIONS_PER_TENSOR) == KeyOf(d + 1, 0);
  }
}
