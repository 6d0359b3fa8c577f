/** The machines' part in the exchange of a tensor: reduce on the GPUs of each machine, copy shards to
    the host; later copy shards back and gather on the GPUs; and assemble the tensor from its parts.
    The collective operations are given by their meaning. */
module AllReduce {
  import opened Tensors
  import opened Reducers
  import opened Collectives
  import opened Partition

  ghost predicate Bufs(bufs: seq<Vec>, n: nat, len: nat) {
    |bufs| == n && Uniform(bufs, len)
  }

  /** An order in which `n` pieces are processed: only pieces, and each of them. */
  ghost predicate Within(order: seq<nat>, n: nat) {
    forall k :: 0 <= k < |order| ==> order[k] < n
  }

  ghost predicate Covers(order: seq<nat>, n: nat) {
    forall r :: 0 <= r < n ==> r in order
  }

  lemma WriteAt(buf: Vec, off: nat, v: Vec, i: nat)
    requires off + |v| <= |buf| && i < |buf|
    ensures Write(buf, off, v)[i] == if off <= i < off + |v| then v[i - off] else buf[i]
  {
  }

  // ---- the collectives ----

  /** Reduce-scatter: GPU `r` receives chunk `r` of the sum. */
  function ReduceScatter(p: Plan, sum: Vec, outs: seq<Vec>): (r: seq<Vec>)
    requires p.Valid() && |sum| == p.elems && Bufs(outs, p.n, p.elems)
    ensures Bufs(r, p.n, p.elems)
  {
    seq(p.n, r requires 0 <= r < p.n =>
      ShardEnd(p, r);
      Write(outs[r], ShardOffset(p, r), sum[ShardOffset(p, r)..ShardOffset(p, r) + p.per]))
  }

  /** Reduce of the last `left` elements to the root. */
  function ReduceTail(p: Plan, sum: Vec, outs: seq<Vec>): (r: seq<Vec>)
    requires p.Valid() && |sum| == p.elems && Bufs(outs, p.n, p.elems)
    ensures Bufs(r, p.n, p.elems)
  {
    outs[p.root := Write(outs[p.root], p.elems - p.left, sum[p.elems - p.left..])]
  }

  /** One machine's reduce: afterwards each GPU holds the sum on its shard. */
  function ReduceLocal(p: Plan, ins: seq<Vec>, outs: seq<Vec>): (r: seq<Vec>)
    requires p.Valid() && Bufs(ins, p.n, p.elems) && Bufs(outs, p.n, p.elems)
    ensures Bufs(r, p.n, p.elems)
  {
    var sum := SumRows(ins, p.elems);
    ReduceTail(p, sum, ReduceScatter(p, sum, outs))
  }

  ghost predicate HoldsShard(p: Plan, buf: Vec, sum: Vec, r: nat)
    requires |buf| == p.elems == |sum|
  {
    forall i :: 0 <= i < p.elems && Owns(p, r, i) ==> buf[i] == sum[i]
  }

  ghost predicate ShardsHeld(p: Plan, bufs: seq<Vec>, sum: Vec)
    requires Bufs(bufs, p.n, p.elems) && |sum| == p.elems
  {
    forall r :: 0 <= r < p.n ==> HoldsShard(p, bufs[r], sum, r)
  }

  lemma TailStart(p: Plan)
    requires p.Valid()
    ensures p.elems - p.left == p.n * p.per
    ensures p.per > 0 ==> ShardOffset(p, p.root) + p.per == p.elems - p.left
    ensures p.per == 0 ==> p.elems == p.left
  {
    if p.per > 0 {
      assert (p.n - 1) * p.per + p.per == p.n * p.per;
    }
  }

  lemma ReduceLocalHolds(p: Plan, ins: seq<Vec>, outs: seq<Vec>)
    requires p.Valid() && Bufs(ins, p.n, p.elems) && Bufs(outs, p.n, p.elems)
    ensures ShardsHeld(p, ReduceLocal(p, ins, outs), SumRows(ins, p.elems))
  {
    var sum := SumRows(ins, p.elems);
    var scattered := ReduceScatter(p, sum, outs);
    var bufs := ReduceLocal(p, ins, outs);
    TailStart(p);
    forall r | 0 <= r < p.n ensures HoldsShard(p, bufs[r], sum, r) {
      ShardEnd(p, r);
      ScatterHolds(p, sum, outs, r);
    }
  }

  lemma ScatterHolds(p: Plan, sum: Vec, outs: seq<Vec>, r: nat)
    requires p.Valid() && |sum| == p.elems && Bufs(outs, p.n, p.elems) && r < p.n
    ensures ShardOffset(p, r) + p.per <= p.elems
    ensures forall i :: ShardOffset(p, r) <= i < ShardOffset(p, r) + p.per ==> ReduceScatter(p, sum, outs)[r][i] == sum[i]
  {
    ShardEnd(p, r);
  }

  // ---- copies between GPUs and the host buffer ----

  function Shard(p: Plan, buf: Vec, r: nat): (v: Vec)
    requires p.Valid() && |buf| == p.elems && r < p.n
    ensures |v| == ShardLen(p, r) && ShardOffset(p, r) + |v| <= p.elems
  {
    ShardEnd(p, r);
    buf[ShardOffset(p, r)..ShardOffset(p, r) + ShardLen(p, r)]
  }

  /** The host buffer after the GPUs copied their shards, in the given order. */
  function CopyToHost(p: Plan, host: Vec, bufs: seq<Vec>, order: seq<nat>): (r: Vec)
    requires p.Valid() && |host| == p.elems && Bufs(bufs, p.n, p.elems)
    requires Within(order, p.n)
    ensures |r| == p.elems
  {
    if order == [] then host
    else
      var r := order[|order| - 1];
      Write(CopyToHost(p, host, bufs, order[..|order| - 1]), ShardOffset(p, r), Shard(p, bufs[r], r))
  }

  lemma {:induction false} HostHolds(p: Plan, host: Vec, bufs: seq<Vec>, order: seq<nat>, sum: Vec, i: nat)
    requires p.Valid() && |host| == p.elems == |sum| && Bufs(bufs, p.n, p.elems) && ShardsHeld(p, bufs, sum)
    requires Within(order, p.n)
    requires i < p.elems && OwnerOf(p, i) in order
    ensures CopyToHost(p, host, bufs, order)[i] == sum[i]
  {
    var last := |order| - 1;
    var r := order[last];
    ShardsPartition(p, i, r);
    WriteAt(CopyToHost(p, host, bufs, order[..last]), ShardOffset(p, r), Shard(p, bufs[r], r), i);
    if !Owns(p, r, i) {
      assert order == order[..last] + [r];
      HostHolds(p, host, bufs, order[..last], sum, i);
    } else {
      assert HoldsShard(p, bufs[r], sum, r);
    }
  }

  /** Whatever the order of the copies, the host ends up with the machine's whole sum. */
  lemma HostComplete(p: Plan, ins: seq<Vec>, outs: seq<Vec>, host: Vec, order: seq<nat>)
    requires p.Valid() && Bufs(ins, p.n, p.elems) && Bufs(outs, p.n, p.elems) && |host| == p.elems && Within(order, p.n) && Covers(order, p.n)
    ensures CopyToHost(p, host, ReduceLocal(p, ins, outs), order) == SumRows(ins, p.elems)
  {
    var bufs, sum := ReduceLocal(p, ins, outs), SumRows(ins, p.elems);
    ReduceLocalHolds(p, ins, outs);
    forall i | 0 <= i < p.elems ensures CopyToHost(p, host, bufs, order)[i] == sum[i] {
      HostHolds(p, host, bufs, order, sum, i);
    }
  }

  /** Each GPU copies its own shard back. */
  function CopyToDevices(p: Plan, host: Vec, bufs: seq<Vec>): (r: seq<Vec>)
    requires p.Valid() && |host| == p.elems && Bufs(bufs, p.n, p.elems)
    ensures Bufs(r, p.n, p.elems)
  {
    seq(p.n, r requires 0 <= r < p.n => Write(bufs[r], ShardOffset(p, r), Shard(p, host, r)))
  }

  lemma DevicesHold(p: Plan, host: Vec, bufs: seq<Vec>)
    requires p.Valid() && |host| == p.elems && Bufs(bufs, p.n, p.elems)
    ensures ShardsHeld(p, CopyToDevices(p, host, bufs), host)
  {
    forall r | 0 <= r < p.n ensures HoldsShard(p, CopyToDevices(p, host, bufs)[r], host, r) {
      var v := Shard(p, host, r);
    }
  }

  /** All-gather into `buf`: the first `k` chunks, each from its GPU. */
  function GatherInto(p: Plan, buf: Vec, bufs: seq<Vec>, k: nat): (r: Vec)
    requires p.Valid() && |buf| == p.elems && Bufs(bufs, p.n, p.elems) && k <= p.n
    ensures |r| == p.elems
  {
    if k == 0 then buf
    else
      var r := k - 1;
      ShardEnd(p, r);
      Write(GatherInto(p, buf, bufs, r), ShardOffset(p, r), bufs[r][ShardOffset(p, r)..ShardOffset(p, r) + p.per])
  }

  /** One machine's gather: all chunks, then the last `left` elements from the root. */
  function GatherLocal(p: Plan, bufs: seq<Vec>): (r: seq<Vec>)
    requires p.Valid() && Bufs(bufs, p.n, p.elems)
    ensures Bufs(r, p.n, p.elems)
  {
    seq(p.n, g requires 0 <= g < p.n =>
      Write(GatherInto(p, bufs[g], bufs, p.n), p.elems - p.left, bufs[p.root][p.elems - p.left..]))
  }

  lemma ShardNext(p: Plan, r: nat)
    ensures ShardOffset(p, r + 1) == ShardOffset(p, r) + p.per
  {
  }

  lemma HoldsAt(p: Plan, bufs: seq<Vec>, sum: Vec, r: nat, i: nat)
    requires Bufs(bufs, p.n, p.elems) && |sum| == p.elems && ShardsHeld(p, bufs, sum)
    requires r < p.n && i < p.elems && Owns(p, r, i)
    ensures bufs[r][i] == sum[i]
  {
    assert HoldsShard(p, bufs[r], sum, r);
  }

  /** A piece that agrees with a vector is written into a buffer that agrees with it elsewhere. */
  lemma WritePiece(buf: Vec, from: Vec, off: nat, len: nat, sum: Vec, i: nat)
    requires |buf| == |from| == |sum| && off + len <= |buf| && i < |buf|
    requires if off <= i < off + len then from[i] == sum[i] else buf[i] == sum[i]
    ensures Write(buf, off, from[off..off + len])[i] == sum[i]
  {
    WriteAt(buf, off, from[off..off + len], i);
  }

  lemma {:induction false} GatherHolds(p: Plan, buf: Vec, bufs: seq<Vec>, k: nat, sum: Vec, i: nat)
    requires p.Valid() && |buf| == p.elems == |sum| && Bufs(bufs, p.n, p.elems) && ShardsHeld(p, bufs, sum)
    requires k <= p.n && i < p.elems && i < ShardOffset(p, k)
    ensures GatherInto(p, buf, bufs, k)[i] == sum[i]
  {
    if k > 0 {
      var r := k - 1;
      ShardEnd(p, r);
      ShardNext(p, r);
      if i < ShardOffset(p, r) {
        GatherHolds(p, buf, bufs, r, sum, i);
      } else {
        HoldsAt(p, bufs, sum, r, i);
      }
      WritePiece(GatherInto(p, buf, bufs, r), bufs[r], ShardOffset(p, r), p.per, sum, i);
    }
  }

  lemma TailOwned(p: Plan, i: nat)
    requires p.Valid() && p.elems - p.left <= i < p.elems
    ensures Owns(p, p.root, i)
  {
    TailStart(p);
  }

  lemma GatherAt(p: Plan, bufs: seq<Vec>, sum: Vec, g: nat, i: nat)
    requires p.Valid() && |sum| == p.elems && Bufs(bufs, p.n, p.elems) && ShardsHeld(p, bufs, sum) && g < p.n && i < p.elems
    ensures GatherLocal(p, bufs)[g][i] == sum[i]
  {
    var off := p.elems - p.left;
    TailStart(p);
    if i < off {
      GatherHolds(p, bufs[g], bufs, p.n, sum, i);
    } else {
      TailOwned(p, i);
      HoldsAt(p, bufs, sum, p.root, i);
    }
    WritePiece(GatherInto(p, bufs[g], bufs, p.n), bufs[p.root], off, p.left, sum, i);
    assert bufs[p.root][off..off + p.left] == bufs[p.root][off..];
  }

  /** If each GPU holds its shard of a vector, the gather leaves every GPU with all of it. */
  lemma GatherComplete(p: Plan, bufs: seq<Vec>, sum: Vec, g: nat)
    requires p.Valid() && |sum| == p.elems && Bufs(bufs, p.n, p.elems) && ShardsHeld(p, bufs, sum) && g < p.n
    ensures GatherLocal(p, bufs)[g] == sum
  {
    forall i | 0 <= i < p.elems ensures GatherLocal(p, bufs)[g][i] == sum[i] {
      GatherAt(p, bufs, sum, g, i);
    }
  }

  // ---- sums over machines ----

  ghost predicate AllUniform(groups: seq<seq<Vec>>, len: nat) {
    forall m :: 0 <= m < |groups| ==> Uniform(groups[m], len)
  }

  /** The rows of all machines in one list. */
  function Flat(groups: seq<seq<Vec>>): seq<Vec> {
    if groups == [] then [] else Flat(groups[..|groups| - 1]) + groups[|groups| - 1]
  }

  lemma {:induction false} FlatUniform(groups: seq<seq<Vec>>, len: nat)
    requires AllUniform(groups, len)
    ensures Uniform(Flat(groups), len)
  {
    if groups != [] {
      FlatUniform(groups[..|groups| - 1], len);
    }
  }

  function Sums(groups: seq<seq<Vec>>, len: nat): (r: seq<Vec>)
    requires AllUniform(groups, len)
    ensures |r| == |groups| && Uniform(r, len)
  {
    seq(|groups|, m requires 0 <= m < |groups| => SumRows(groups[m], len))
  }

  lemma {:induction false} SumRowsConcat(a: seq<Vec>, b: seq<Vec>, len: nat)
    requires Uniform(a, len) && Uniform(b, len)
    ensures Uniform(a + b, len)
    ensures SumRows(a + b, len) == Add(SumRows(a, len), SumRows(b, len))
  {
    if b == [] {
      assert a + b == a;
    } else {
      var k := |b| - 1;
      SumRowsConcat(a, b[..k], len);
      assert (a + b)[..|a + b| - 1] == a + b[..k];
    }
  }

  /** The sum of the machines' sums is the sum over all rows. */
  lemma {:induction false} SumOfSums(groups: seq<seq<Vec>>, len: nat)
    requires AllUniform(groups, len)
    ensures Uniform(Flat(groups), len)
    ensures SumRows(Sums(groups, len), len) == SumRows(Flat(groups), len)
  {
    FlatUniform(groups, len);
    if groups != [] {
      var k := |groups| - 1;
      SumOfSums(groups[..k], len);
      assert Sums(groups, len)[..k] == Sums(groups[..k], len);
      SumRowsConcat(Flat(groups[..k]), groups[k], len);
    }
  }

  // ---- one partition on all machines ----

  /** One machine's view of a partition: the GPUs' inputs, whatever their output buffers and the
      host buffer held before, and the order in which the shards happen to be copied. */
  datatype Machine = Machine(ins: seq<Vec>, outs: seq<Vec>, host: Vec, order: seq<nat>)

  ghost predicate Ready(p: Plan, m: Machine) {
    Bufs(m.ins, p.n, p.elems) && Bufs(m.outs, p.n, p.elems) && |m.host| == p.elems && Within(m.order, p.n) && Covers(m.order, p.n)
  }

  ghost predicate AllReady(p: Plan, ms: seq<Machine>) {
    p.Valid() && forall m :: 0 <= m < |ms| ==> Ready(p, ms[m])
  }

  /** What a machine pushes to the servers. */
  function Pushed(p: Plan, m: Machine): (v: Vec)
    requires p.Valid() && Ready(p, m)
    ensures |v| == p.elems
  {
    CopyToHost(p, m.host, ReduceLocal(p, m.ins, m.outs), m.order)
  }

  function AllPushed(p: Plan, ms: seq<Machine>): (vs: seq<Vec>)
    requires AllReady(p, ms)
    ensures |vs| == |ms| && Uniform(vs, p.elems)
  {
    seq(|ms|, m requires 0 <= m < |ms| => Pushed(p, ms[m]))
  }

  /** The buffers of machine `m` at the end; `pulled` is what it got back from the servers. */
  function Final(p: Plan, m: Machine, pulled: Vec): (r: seq<Vec>)
    requires p.Valid() && Ready(p, m) && |pulled| == p.elems
    ensures Bufs(r, p.n, p.elems)
  {
    GatherLocal(p, CopyToDevices(p, pulled, ReduceLocal(p, m.ins, m.outs)))
  }

  /** The inputs of the machines' GPUs. */
  function Inputs(ms: seq<Machine>): (r: seq<seq<Vec>>)
    ensures |r| == |ms|
  {
    seq(|ms|, m requires 0 <= m < |ms| => ms[m].ins)
  }

  lemma AllPushedAreSums(p: Plan, ms: seq<Machine>)
    requires AllReady(p, ms)
    ensures AllUniform(Inputs(ms), p.elems)
    ensures AllPushed(p, ms) == Sums(Inputs(ms), p.elems)
  {
    forall m | 0 <= m < |ms| ensures Pushed(p, ms[m]) == SumRows(ms[m].ins, p.elems) {
      HostComplete(p, ms[m].ins, ms[m].outs, ms[m].host, ms[m].order);
    }
  }

  /** In both summing modes the servers' reduction is the sum of the rows. */
  lemma ServerSums(mode: Mode, rows: seq<Vec>, len: nat)
    requires rows != [] && Uniform(rows, len) && (mode.Sum? || mode.SumSerial?)
    ensures Reduce(mode, rows, len) == SumRows(rows, len)
  {
    forall i | 0 <= i < len ensures Reduce(mode, rows, len)[i] == SumRows(rows, len)[i] {
      SumRowsAt(rows, len, i);
    }
  }

  /** Whatever a machine pulls is what all its GPUs end with, at every index, whatever their buffers
      held before. */
  lemma FinalIsPulled(p: Plan, m: Machine, pulled: Vec, g: nat)
    requires p.Valid() && Ready(p, m) && |pulled| == p.elems && g < p.n
    ensures Final(p, m, pulled)[g] == pulled
  {
    var bufs := ReduceLocal(p, m.ins, m.outs);
    DevicesHold(p, pulled, bufs);
    GatherComplete(p, CopyToDevices(p, pulled, bufs), pulled, g);
  }

  /** The reference result: each machine sums the rows of its GPUs, and the sums are reduced. */
  function Combined(mode: Mode, groups: seq<seq<Vec>>, len: nat): (v: Vec)
    requires groups != [] && AllUniform(groups, len)
    ensures |v| == len
  {
    Reduce(mode, Sums(groups, len), len)
  }

  /** In both summing modes that is the sum over all GPUs of all machines. */
  lemma CombinedSum(mode: Mode, groups: seq<seq<Vec>>, len: nat)
    requires groups != [] && AllUniform(groups, len) && (mode.Sum? || mode.SumSerial?)
    ensures Uniform(Flat(groups), len)
    ensures Combined(mode, groups, len) == SumRows(Flat(groups), len)
  {
    ServerSums(mode, Sums(groups, len), len);
    SumOfSums(groups, len);
  }

  /** The reduction of what the machines push, in every mode. */
  lemma PushedCombined(mode: Mode, p: Plan, ms: seq<Machine>)
    requires AllReady(p, ms) && ms != []
    ensures AllUniform(Inputs(ms), p.elems)
    ensures Reduce(mode, AllPushed(p, ms), p.elems) == Combined(mode, Inputs(ms), p.elems)
  {
    AllPushedAreSums(p, ms);
  }

  // ---- a whole tensor ----

  function Slice(v: Vec, part: Part): (r: Vec)
    requires part.End() <= |v|
    ensures |r| == part.len
  {
    v[part.offset..part.End()]
  }

  function Slices(rows: seq<Vec>, part: Part): (r: seq<Vec>)
    requires forall j :: 0 <= j < |rows| ==> part.End() <= |rows[j]|
    ensures |r| == |rows| && Uniform(r, part.len)
  {
    seq(|rows|, j requires 0 <= j < |rows| => Slice(rows[j], part))
  }

  /** Summing and slicing commute. */
  lemma {:induction false} SliceOfSum(rows: seq<Vec>, len: nat, part: Part)
    requires Uniform(rows, len) && part.End() <= len
    ensures SumRows(Slices(rows, part), part.len) == Slice(SumRows(rows, len), part)
  {
    if rows != [] {
      var k := |rows| - 1;
      SliceOfSum(rows[..k], len, part);
      assert Slices(rows, part)[..k] == Slices(rows[..k], part);
    }
  }

  /** One value per part, of its length. */
  ghost predicate Fits(parts: seq<Part>, values: seq<Vec>, size: nat) {
    |values| == |parts| && forall k :: 0 <= k < |parts| ==> FitsAt(parts[k], values[k], size)
  }

  ghost predicate FitsAt(part: Part, value: Vec, size: nat) {
    part.End() <= size && |value| == part.len
  }

  /** A tensor after its partitions finished, in the given order. */
  function Assemble(buf: Vec, parts: seq<Part>, values: seq<Vec>, order: seq<nat>): (r: Vec)
    requires Fits(parts, values, |buf|)
    requires Within(order, |parts|)
    ensures |r| == |buf|
  {
    if order == [] then buf
    else
      var k := order[|order| - 1];
      Write(Assemble(buf, parts, values, order[..|order| - 1]), parts[k].offset, values[k])
  }

  ghost predicate Only(parts: seq<Part>, i: nat, k: nat) {
    forall j :: 0 <= j < |parts| && parts[j].offset <= i < parts[j].End() ==> j == k
  }

  lemma {:induction false} AssembleAt(buf: Vec, parts: seq<Part>, values: seq<Vec>, order: seq<nat>, i: nat, k: nat)
    requires Fits(parts, values, |buf|) && Within(order, |parts|)
    requires k < |parts| && parts[k].offset <= i < parts[k].End() && k in order && Only(parts, i, k)
    ensures i < |buf| && Assemble(buf, parts, values, order)[i] == values[k][i - parts[k].offset]
  {
    var last := |order| - 1;
    var j := order[last];
    assert FitsAt(parts[j], values[j], |buf|) && FitsAt(parts[k], values[k], |buf|);
    WriteAt(Assemble(buf, parts, values, order[..last]), parts[j].offset, values[j], i);
    if j != k {
      assert order == order[..last] + [j];
      AssembleAt(buf, parts, values, order[..last], i, k);
    }
  }

  /** The values are the parts of one vector. */
  ghost predicate PiecesOf(values: seq<Vec>, parts: seq<Part>, want: Vec) {
    |values| == |parts| && forall k :: 0 <= k < |parts| ==> PieceOf(values[k], parts[k], want)
  }

  ghost predicate PieceOf(value: Vec, part: Part, want: Vec) {
    part.End() <= |want| && value == Slice(want, part)
  }

  lemma PiecesFit(values: seq<Vec>, parts: seq<Part>, want: Vec)
    requires PiecesOf(values, parts, want)
    ensures Fits(parts, values, |want|)
  {
    forall k | 0 <= k < |parts| ensures FitsAt(parts[k], values[k], |want|) {
      assert PieceOf(values[k], parts[k], want);
    }
  }

  lemma PartOf(parts: seq<Part>, size: nat, bound: nat, i: nat) returns (k: nat)
    requires bound > 0 && Tiles(parts, size, bound) && i < size
    ensures k < |parts| && parts[k].offset <= i < parts[k].End() && Only(parts, i, k)
  {
    k := TilesCover(parts, size, bound, i);
  }

  lemma AssembleElement(buf: Vec, parts: seq<Part>, values: seq<Vec>, order: seq<nat>, want: Vec, i: nat, k: nat)
    requires |want| == |buf| && i < |buf| && Within(order, |parts|) && Covers(order, |parts|)
    requires PiecesOf(values, parts, want) && Fits(parts, values, |buf|)
    requires k < |parts| && parts[k].offset <= i < parts[k].End() && Only(parts, i, k)
    ensures Assemble(buf, parts, values, order)[i] == want[i]
  {
    AssembleAt(buf, parts, values, order, i, k);
    assert PieceOf(values[k], parts[k], want);
  }

  /** Pieces of a vector, written in any order, give the vector. */
  lemma AssembleWhole(buf: Vec, parts: seq<Part>, bound: nat, values: seq<Vec>, order: seq<nat>, want: Vec)
    requires bound > 0 && Tiles(parts, |buf|, bound) && |want| == |buf|
    requires Within(order, |parts|) && Covers(order, |parts|)
    requires PiecesOf(values, parts, want)
    ensures Fits(parts, values, |buf|)
    ensures Assemble(buf, parts, values, order) == want
  {
    PiecesFit(values, parts, want);
    forall i | 0 <= i < |buf| ensures Assemble(buf, parts, values, order)[i] == want[i] {
      var k := PartOf(parts, |buf|, bound, i);
      AssembleElement(buf, parts, values, order, want, i, k);
    }
  }

  /** The slices on every machine. */
  function AllSlices(tensors: seq<seq<Vec>>, len: nat, part: Part): (r: seq<seq<Vec>>)
    requires AllUniform(tensors, len) && part.End() <= len
    ensures |r| == |tensors| && AllUniform(r, part.len)
  {
    seq(|tensors|, m requires 0 <= m < |tensors| => Slices(tensors[m], part))
  }

  lemma SlicesSum(tensors: seq<seq<Vec>>, len: nat, part: Part)
    requires AllUniform(tensors, len) && part.End() <= len
    ensures Sums(AllSlices(tensors, len, part), part.len) == Slices(Sums(tensors, len), part)
  {
    forall m | 0 <= m < |tensors|
      ensures SumRows(Slices(tensors[m], part), part.len) == Slice(SumRows(tensors[m], len), part)
    {
      SliceOfSum(tensors[m], len, part);
    }
  }

  /** Every mode reduces element by element, so reducing and slicing commute. */
  lemma SliceOfReduce(mode: Mode, rows: seq<Vec>, len: nat, part: Part)
    requires rows != [] && Uniform(rows, len) && part.End() <= len
    ensures Reduce(mode, Slices(rows, part), part.len) == Slice(Reduce(mode, rows, len), part)
  {
    forall i | 0 <= i < part.len
      ensures Reduce(mode, Slices(rows, part), part.len)[i] == Slice(Reduce(mode, rows, len), part)[i]
    {
      assert Column(Slices(rows, part), i) == Column(rows, part.offset + i);
    }
  }

  lemma SliceOfCombined(mode: Mode, tensors: seq<seq<Vec>>, len: nat, part: Part)
    requires tensors != [] && AllUniform(tensors, len) && part.End() <= len
    ensures PieceOf(Combined(mode, AllSlices(tensors, len, part), part.len), part, Combined(mode, tensors, len))
  {
    SlicesSum(tensors, len, part);
    SliceOfReduce(mode, Sums(tensors, len), len, part);
  }
}
