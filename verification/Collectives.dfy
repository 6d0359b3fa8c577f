/** How a partition is shared by the GPUs of a machine, in elements and in bytes. */
module Collectives {
  import opened Arithmetic
  import opened Tensors

  // ---- the shards ----

  /** How `elems` elements are shared by `n` GPUs: GPU `r` owns `per` elements from `r * per`, and
      GPU `root` also the last `left` elements. */
  datatype Plan = Plan(n: nat, elems: nat, per: nat, left: nat, root: nat) {
    ghost predicate Valid() {
      && n > 0 && root < n && n * per + left == elems
      && (per == 0 || root == n - 1)
    }
  }

  /** The usual plan: equal shards, the remainder to the last GPU. */
  function ScatterPlan(n: nat, elems: nat): (p: Plan)
    requires n > 0
    ensures p.Valid()
  {
    DivMod(elems, n);
    var per := elems / n;
    assert n * per == per * n;
    Plan(n, elems, per, elems - per * n, n - 1)
  }

  /** The plan when reduce roots are configured: everything to one GPU. */
  function ReducePlan(n: nat, elems: nat, root: nat): (p: Plan)
    requires root < n
    ensures p.Valid()
  {
    Plan(n, elems, 0, elems, root)
  }

  function ShardOffset(p: Plan, r: nat): nat {
    MulMonotone(0, r, p.per);
    r * p.per
  }

  function ShardLen(p: Plan, r: nat): nat {
    p.per + if r == p.root then p.left else 0
  }

  ghost predicate Owns(p: Plan, r: nat, i: nat) {
    ShardOffset(p, r) <= i < ShardOffset(p, r) + ShardLen(p, r)
  }

  lemma ShardEnd(p: Plan, r: nat)
    requires p.Valid() && r < p.n
    ensures ShardOffset(p, r) + p.per <= p.n * p.per
    ensures ShardOffset(p, r) + ShardLen(p, r) <= p.elems
  {
    SlotBounds(p.n, p.per, r);
    if r == p.root && p.per > 0 {
      assert (p.n - 1) * p.per + p.per == p.n * p.per;
    }
  }

  /** The GPU that owns an element. */
  function OwnerOf(p: Plan, i: nat): (r: nat)
    requires p.Valid() && i < p.elems
    ensures r < p.n
  {
    if i < p.n * p.per then
      OwnerInRange(p, i);
      i / p.per
    else p.root
  }

  lemma OwnerInRange(p: Plan, i: nat)
    requires p.Valid() && i < p.n * p.per
    ensures p.per > 0 && i / p.per < p.n
  {
    if p.per > 0 {
      DivMod(i, p.per);
      if i / p.per >= p.n {
        MulMonotone(p.n, i / p.per, p.per);
        assert false;
      }
    }
  }

  lemma OwnerOwns(p: Plan, i: nat)
    requires p.Valid() && i < p.elems
    ensures Owns(p, OwnerOf(p, i), i)
  {
    if i < p.n * p.per {
      OwnerInRange(p, i);
      DivMod(i, p.per);
    } else if p.per > 0 {
      assert (p.n - 1) * p.per + p.per == p.n * p.per;
    }
  }

  /** The shards are disjoint and cover the partition: every element has exactly one owner. */
  lemma ShardsPartition(p: Plan, i: nat, r: nat)
    requires p.Valid() && i < p.elems && r < p.n
    ensures Owns(p, r, i) <==> r == OwnerOf(p, i)
  {
    OwnerOwns(p, i);
    if Owns(p, r, i) && r != OwnerOf(p, i) {
      ShardsDisjoint(p, r, OwnerOf(p, i), i);
    }
  }

  lemma ShardsDisjoint(p: Plan, r: nat, q: nat, i: nat)
    requires p.Valid() && r < p.n && q < p.n && Owns(p, r, i) && Owns(p, q, i)
    ensures r == q
  {
    if r != q && p.per > 0 {
      var a, b := if r < q then r else q, if r < q then q else r;
      SlotsApart(p.per, a, b);
    }
  }

  // ---- the byte arithmetic of the loops ----

  function PerGpu(len: nat, n: nat, unit: nat): nat
    requires n > 0 && unit > 0
  {
    len / n / unit
  }

  function LeftElems(len: nat, n: nat, unit: nat): int
    requires n > 0 && unit > 0
  {
    len / unit - PerGpu(len, n, unit) * n
  }

  function CopyOffset(len: nat, n: nat, unit: nat, rank: nat): int
    requires n > 0 && unit > 0
  {
    rank * PerGpu(len, n, unit) * unit
  }

  function CopyLen(len: nat, n: nat, unit: nat, rank: nat): int
    requires n > 0 && unit > 0
  {
    var left := LeftElems(len, n, unit);
    if left != 0 && n - 1 == rank then PerGpu(len, n, unit) * unit + left * unit else PerGpu(len, n, unit) * unit
  }

  /** The byte offsets and lengths are the plan's, scaled by the unit size. */
  lemma BytesMatchPlan(len: nat, n: nat, unit: nat, rank: nat)
    requires n > 0 && unit > 0
    ensures var p := ScatterPlan(n, len / unit);
            && PerGpu(len, n, unit) == p.per && LeftElems(len, n, unit) == p.left
            && CopyOffset(len, n, unit, rank) == ShardOffset(p, rank) * unit
            && CopyLen(len, n, unit, rank) == ShardLen(p, rank) * unit
  {
    DivDiv(len, n, unit);
    var p := ScatterPlan(n, len / unit);
    assert ShardLen(p, p.root) * unit == p.per * unit + p.left * unit;
  }

  /** The remainder that the reduce call takes from the end of the buffer is the one behind the
      equal shards if and only if the unit size divides the length. */
  lemma RemainderAligned(len: nat, n: nat, unit: nat)
    requires n > 0 && unit > 0
    ensures len - LeftElems(len, n, unit) * unit == n * PerGpu(len, n, unit) * unit <==> len % unit == 0
  {
    BytesMatchPlan(len, n, unit, 0);
    var p := ScatterPlan(n, len / unit);
    DivMod(len, unit);
    assert (n * p.per + p.left) * unit == n * p.per * unit + p.left * unit;
  }

  ghost predicate InShard(len: nat, n: nat, unit: nat, rank: nat, b: nat)
    requires n > 0 && unit > 0
  {
    CopyOffset(len, n, unit, rank) <= b < CopyOffset(len, n, unit, rank) + CopyLen(len, n, unit, rank)
  }

  lemma ScaledInterval(lo: nat, size: nat, unit: nat, b: nat)
    requires unit > 0
    ensures lo * unit <= b < lo * unit + size * unit <==> lo <= b / unit < lo + size
  {
    DivMod(b, unit);
    var q := b / unit;
    assert (lo + size) * unit == lo * unit + size * unit;
    if lo <= q {
      MulMonotone(lo, q, unit);
    } else {
      MulMonotone(q + 1, lo, unit);
      assert (q + 1) * unit == q * unit + unit;
    }
    if q < lo + size {
      MulMonotone(q + 1, lo + size, unit);
      assert (q + 1) * unit == q * unit + unit;
    } else {
      MulMonotone(lo + size, q, unit);
    }
  }

  lemma InShardIsOwned(len: nat, n: nat, unit: nat, rank: nat, b: nat)
    requires n > 0 && unit > 0
    ensures InShard(len, n, unit, rank, b) <==> Owns(ScatterPlan(n, len / unit), rank, b / unit)
  {
    var p := ScatterPlan(n, len / unit);
    BytesMatchPlan(len, n, unit, rank);
    ScaledInterval(ShardOffset(p, rank), ShardLen(p, rank), unit, b);
  }

  lemma OwnedOrBeyond(p: Plan, i: nat, r: nat)
    requires p.Valid() && r < p.n
    ensures i < p.elems ==> (Owns(p, r, i) <==> r == OwnerOf(p, i))
    ensures i >= p.elems ==> !Owns(p, r, i)
  {
    if i < p.elems {
      ShardsPartition(p, i, r);
    } else {
      ShardEnd(p, r);
    }
  }

  /** Byte `b` of a partition is copied by GPU `rank`: it lies in a whole element, and the GPU owns
      that element. So no byte is copied twice, and none of an incomplete last element at all. */
  lemma BytesCovered(len: nat, n: nat, unit: nat, b: nat, rank: nat)
    requires n > 0 && unit > 0 && rank < n
    ensures InShard(len, n, unit, rank, b) <==>
            b / unit < len / unit && rank == OwnerOf(ScatterPlan(n, len / unit), b / unit)
  {
    InShardIsOwned(len, n, unit, rank, b);
    OwnedOrBeyond(ScatterPlan(n, len / unit), b / unit, rank);
  }

  ghost predicate Covered(len: nat, n: nat, unit: nat, b: nat)
    requires n > 0 && unit > 0
  {
    exists rank: nat :: rank < n && InShard(len, n, unit, rank, b)
  }

  lemma CoveredExactly(len: nat, n: nat, unit: nat, b: nat)
    requires n > 0 && unit > 0
    ensures Covered(len, n, unit, b) <==> b / unit < len / unit
  {
    if b / unit < len / unit {
      var rank := OwnerOf(ScatterPlan(n, len / unit), b / unit);
      BytesCovered(len, n, unit, b, rank);
      assert InShard(len, n, unit, rank, b);
    } else {
      forall rank: nat | rank < n ensures !InShard(len, n, unit, rank, b) {
        BytesCovered(len, n, unit, b, rank);
      }
    }
  }

  lemma WholeElement(len: nat, unit: nat, b: nat)
    requires unit > 0 && b < len && len % unit == 0
    ensures b / unit < len / unit
  {
    DivMod(len, unit);
    DivMod(b, unit);
    if b / unit >= len / unit {
      MulMonotone(len / unit, b / unit, unit);
      assert false;
    }
  }

  /** So the shards cover the partition if and only if the unit size divides its length. */
  lemma CoverExact(len: nat, n: nat, unit: nat)
    requires n > 0 && unit > 0
    ensures (forall b: nat :: b < len ==> Covered(len, n, unit, b)) <==> len % unit == 0
  {
    if len % unit == 0 {
      forall b: nat | b < len ensures Covered(len, n, unit, b) {
        CoveredExactly(len, n, unit, b);
        WholeElement(len, unit, b);
      }
    } else {
      LastByteBeyond(len, unit);
      CoveredExactly(len, n, unit, len - 1);
    }
  }

  lemma LastByteBeyond(len: nat, unit: nat)
    requires unit > 0 && len % unit != 0
    ensures len > 0 && (len - 1) / unit == len / unit
  {
    DivMod(len, unit);
    DivExact(len / unit, unit, len % unit - 1);
  }
}
