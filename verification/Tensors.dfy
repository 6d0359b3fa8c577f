/** Vectors of gradient elements, and the flat replica buffer in which the server keeps one
    contiguous slot per worker. Elements are exact reals. */
module Tensors {

  type Vec = seq<real>

  ghost predicate Uniform(rows: seq<Vec>, len: nat) {
    forall j :: 0 <= j < |rows| ==> |rows[j]| == len
  }

  function Zero(len: nat): (r: Vec)
    ensures |r| == len
  {
    seq(len, _ => 0.0)
  }

  function Add(a: Vec, b: Vec): (r: Vec)
    requires |a| == |b|
    ensures |r| == |a|
  {
    seq(|a|, i requires 0 <= i < |a| => a[i] + b[i])
  }

  function Total(xs: seq<real>): real {
    if xs == [] then 0.0 else Total(xs[..|xs| - 1]) + xs[|xs| - 1]
  }

  /** The i-th element of every row. */
  function Column(rows: seq<Vec>, i: nat): (c: seq<real>)
    requires forall j :: 0 <= j < |rows| ==> i < |rows[j]|
    ensures |c| == |rows|
    ensures forall j :: 0 <= j < |rows| ==> c[j] == rows[j][i]
  {
    seq(|rows|, j requires 0 <= j < |rows| => rows[j][i])
  }

  /** The elementwise sum of a list of rows, accumulated in arrival order. */
  function SumRows(rows: seq<Vec>, len: nat): (r: Vec)
    requires Uniform(rows, len)
    ensures |r| == len
  {
    if rows == [] then Zero(len)
    else Add(SumRows(rows[..|rows| - 1], len), rows[|rows| - 1])
  }

  lemma {:induction false} SumRowsAt(rows: seq<Vec>, len: nat, i: nat)
    requires Uniform(rows, len) && i < len
    ensures SumRows(rows, len)[i] == Total(Column(rows, i))
  {
    if rows != [] {
      var init := rows[..|rows| - 1];
      SumRowsAt(init, len, i);
      assert Column(rows, i)[..|rows| - 1] == Column(init, i);
    }
  }

  /** One step of the streaming sum: adding one more row to the sum of the earlier ones. */
  lemma SumRowsSnoc(rows: seq<Vec>, v: Vec, len: nat)
    requires Uniform(rows, len) && |v| == len
    ensures Uniform(rows + [v], len)
    ensures SumRows(rows + [v], len) == Add(SumRows(rows, len), v)
    ensures rows == [] ==> SumRows(rows + [v], len) == v
  {
    assert (rows + [v])[..|rows|] == rows;
  }

  // ---- the flat replica buffer ----

  lemma SlotBounds(n: nat, len: nat, j: nat)
    requires j < n
    ensures 0 <= j * len && j * len + len <= n * len
  {
    assert (n - j - 1) * len >= 0;
    assert n * len == j * len + len + (n - j - 1) * len;
  }

  lemma SlotsApart(len: nat, i: nat, j: nat)
    requires i < j
    ensures i * len + len <= j * len
  {
    SlotBounds(j, len, i);
  }

  function Slot(buf: Vec, n: nat, len: nat, j: nat): (v: Vec)
    requires |buf| == n * len && j < n
    ensures |v| == len
  {
    SlotBounds(n, len, j);
    buf[j * len..j * len + len]
  }

  function Write(buf: Vec, off: nat, v: Vec): (r: Vec)
    requires off + |v| <= |buf|
    ensures |r| == |buf|
  {
    buf[..off] + v + buf[off + |v|..]
  }

  lemma WriteSlot(buf: Vec, n: nat, len: nat, j: nat, v: Vec)
    requires |buf| == n * len && j < n && |v| == len
    ensures j * len >= 0 && j * len + len <= |buf|
    ensures Slot(Write(buf, j * len, v), n, len, j) == v
    ensures forall i :: 0 <= i < n && i != j ==>
              Slot(Write(buf, j * len, v), n, len, i) == Slot(buf, n, len, i)
  {
    SlotBounds(n, len, j);
    var r := Write(buf, j * len, v);
    forall i | 0 <= i < n && i != j
      ensures Slot(r, n, len, i) == Slot(buf, n, len, i)
    {
      SlotBounds(n, len, i);
      if i < j { SlotsApart(len, i, j); } else { SlotsApart(len, j, i); }
    }
  }

  /** What the batch reducers read for element `i`: `buf[j * len + i]` for each worker `j`. */
  function FlatAt(buf: Vec, n: nat, len: nat, j: nat, i: nat): real
    requires |buf| == n * len && j < n && i < len
  {
    SlotBounds(n, len, j);
    buf[j * len + i]
  }

  function FlatColumn(buf: Vec, n: nat, len: nat, i: nat): (c: seq<real>)
    requires |buf| == n * len && i < len
    ensures |c| == n
  {
    seq(n, j requires 0 <= j < n => FlatAt(buf, n, len, j, i))
  }

  ghost predicate SlotsHold(buf: Vec, n: nat, len: nat, rows: seq<Vec>)
    requires |buf| == n * len
  {
    |rows| <= n && forall j :: 0 <= j < |rows| ==> Slot(buf, n, len, j) == rows[j]
  }

  lemma FlatColumnIsColumn(buf: Vec, n: nat, len: nat, rows: seq<Vec>, i: nat)
    requires |buf| == n * len && |rows| == n && i < len
    requires SlotsHold(buf, n, len, rows)
    ensures Uniform(rows, len)
    ensures FlatColumn(buf, n, len, i) == Column(rows, i)
  {
    assert forall j :: 0 <= j < n ==> |rows[j]| == |Slot(buf, n, len, j)|;
    forall j | 0 <= j < n ensures FlatColumn(buf, n, len, i)[j] == Column(rows, i)[j] {
      SlotBounds(n, len, j);
      assert Slot(buf, n, len, j)[i] == rows[j][i];
    }
  }
}
