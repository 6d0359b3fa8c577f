/** A whole tensor: every partition is a key with its own run of the round protocol. */
module TensorExchange {
  import opened Arithmetic
  import opened Tensors
  import opened Reducers
  import opened Partition
  import opened Collectives
  import opened AllReduce
  import opened RoundProtocol
  import opened RoundSafety
  import opened RoundTheorems
  import opened LatePulls
  import opened ServedAllReduce

  // ---- answers of given runs ----

  /** One partition's part in the exchange: a run of its key's protocol, the position in it of the
      answer to machine `m`, and what the machines did with the partition. */
  datatype Job = Job(cfg: Config, steps: seq<Step>, y: System, reply: nat, plan: Plan, machines: seq<Machine>)

  ghost predicate JobOk(job: Job, mode: Mode, tensors: seq<seq<Vec>>, len: nat, n: nat, part: Part, m: nat) {
    && part.End() <= len && AllUniform(tensors, len)
    && job.cfg.Valid() && job.cfg.mode == mode && Run(job.cfg, job.steps, job.y)
    && job.reply < |job.y.replies| && job.y.replies[job.reply].worker == m
    && job.cfg.n == |tensors| && job.cfg.len == part.len == job.plan.elems && job.plan.n == n
    && PushedIn(job.y, Index(job.y.replies[job.reply]), job.plan, job.machines)
    && Inputs(job.machines) == AllSlices(tensors, len, part)
  }

  ghost predicate JobsOk(jobs: seq<Job>, mode: Mode, tensors: seq<seq<Vec>>, len: nat, n: nat, parts: seq<Part>, m: nat) {
    |jobs| == |parts| && forall k :: 0 <= k < |jobs| ==> JobOk(jobs[k], mode, tensors, len, n, parts[k], m)
  }

  /** No gradient of the next round was in the store when the machine was answered. */
  ghost predicate Timely(job: Job) {
    job.reply < |job.y.replies| && job.y.replies[job.reply].ahead == 0
  }

  ghost predicate HasGpu(job: Job, m: nat, g: nat) {
    && AllReady(job.plan, job.machines) && m < |job.machines| && g < job.plan.n
    && job.reply < |job.y.replies| && |job.y.replies[job.reply].value| == job.plan.elems
  }

  /** What GPU `g` of machine `m` ends with. */
  function Received(job: Job, m: nat, g: nat): (v: Vec)
    requires HasGpu(job, m, g)
  {
    Final(job.plan, job.machines[m], job.y.replies[job.reply].value)[g]
  }

  function AllReceived(jobs: seq<Job>, m: nat, g: nat): (vs: seq<Vec>)
    requires forall k :: 0 <= k < |jobs| ==> HasGpu(jobs[k], m, g)
    ensures |vs| == |jobs|
  {
    seq(|jobs|, k requires 0 <= k < |jobs| => Received(jobs[k], m, g))
  }

  lemma ReceivedIsPiece(job: Job, mode: Mode, tensors: seq<seq<Vec>>, len: nat, n: nat, part: Part, m: nat, g: nat)
    requires JobOk(job, mode, tensors, len, n, part, m) && Timely(job) && m < |tensors| && g < n
    ensures HasGpu(job, m, g) && PieceOf(Received(job, m, g), part, Combined(mode, tensors, len))
  {
    PartitionAllReduce(job.cfg, job.steps, job.y, job.reply, job.plan, job.machines, g);
    SliceOfCombined(mode, tensors, len, part);
  }

  lemma AllReceivedArePieces(jobs: seq<Job>, mode: Mode, tensors: seq<seq<Vec>>, len: nat, n: nat, parts: seq<Part>, m: nat, g: nat)
    requires JobsOk(jobs, mode, tensors, len, n, parts, m) && AllUniform(tensors, len) && m < |tensors| && g < n
    requires forall k :: 0 <= k < |jobs| ==> Timely(jobs[k])
    ensures forall k :: 0 <= k < |jobs| ==> HasGpu(jobs[k], m, g)
    ensures PiecesOf(AllReceived(jobs, m, g), parts, Combined(mode, tensors, len))
  {
    forall k | 0 <= k < |jobs|
      ensures HasGpu(jobs[k], m, g) && PieceOf(Received(jobs[k], m, g), parts[k], Combined(mode, tensors, len))
    {
      ReceivedIsPiece(jobs[k], mode, tensors, len, n, parts[k], m, g);
    }
  }

  /** The exchange in every mode: if no answer to the machine was overtaken by the next round, then
      once every partition has finished, in any order, the tensor on every GPU of the machine is the
      reduction of the machines' tensors, each summed over its GPUs. */
  lemma TensorReduce(mode: Mode, tensors: seq<seq<Vec>>, len: nat, n: nat, parts: seq<Part>, bound: nat, jobs: seq<Job>,
                     order: seq<nat>, buf: Vec, m: nat, g: nat)
    requires AllUniform(tensors, len) && |buf| == len && bound > 0 && Tiles(parts, len, bound)
    requires JobsOk(jobs, mode, tensors, len, n, parts, m) && m < |tensors| && g < n
    requires forall k :: 0 <= k < |jobs| ==> Timely(jobs[k])
    requires Within(order, |parts|) && Covers(order, |parts|)
    ensures forall k :: 0 <= k < |jobs| ==> HasGpu(jobs[k], m, g)
    ensures AllReduce.Fits(parts, AllReceived(jobs, m, g), len)
    ensures Assemble(buf, parts, AllReceived(jobs, m, g), order) == Combined(mode, tensors, len)
  {
    AllReceivedArePieces(jobs, mode, tensors, len, n, parts, m, g);
    AssembleWhole(buf, parts, bound, AllReceived(jobs, m, g), order, Combined(mode, tensors, len));
  }

  /** In the summing modes it is a flat all-reduce: the tensor is the sum of the tensors of all GPUs of
      all machines. */
  lemma TensorAllReduce(mode: Mode, tensors: seq<seq<Vec>>, len: nat, n: nat, parts: seq<Part>, bound: nat, jobs: seq<Job>,
                        order: seq<nat>, buf: Vec, m: nat, g: nat)
    requires Summing(mode) && AllUniform(tensors, len) && |buf| == len && bound > 0 && Tiles(parts, len, bound)
    requires JobsOk(jobs, mode, tensors, len, n, parts, m) && m < |tensors| && g < n
    requires forall k :: 0 <= k < |jobs| ==> Timely(jobs[k])
    requires Within(order, |parts|) && Covers(order, |parts|)
    ensures Uniform(Flat(tensors), len) && forall k :: 0 <= k < |jobs| ==> HasGpu(jobs[k], m, g)
    ensures AllReduce.Fits(parts, AllReceived(jobs, m, g), len)
    ensures Assemble(buf, parts, AllReceived(jobs, m, g), order) == SumRows(Flat(tensors), len)
  {
    TensorReduce(mode, tensors, len, n, parts, bound, jobs, order, buf, m, g);
    CombinedSum(mode, tensors, len);
  }

  // ---- from bytes ----

  lemma ElementTiles(parts: seq<Part>, size: nat, unit: nat, units: nat)
    requires unit > 0 && units > 0 && size % unit == 0 && Tiles(parts, size, units * unit)
    ensures Tiles(InElements(parts, unit), size / unit, units)
    ensures forall k :: 0 <= k < |parts| ==> parts[k].len % unit == 0
  {
    MulAtLeast(units, unit);
    DivExact(units, unit, 0);
    TilesAligned(parts, size, units * unit, unit, units);
    TilesInElements(parts, size, units * unit, unit);
  }

  /** The shards of a part that the partitioning loop made, in bytes as the copy loops compute them:
      they are the plan's, every byte of the part is in one of them, and the remainder lies behind
      the equal shards. */
  lemma ByteShards(parts: seq<Part>, size: nat, unit: nat, units: nat, n: nat, k: nat, rank: nat)
    requires unit > 0 && units > 0 && size % unit == 0 && Tiles(parts, size, units * unit)
    requires k < |parts| && rank < n
    ensures var len, p := parts[k].len, ScatterPlan(n, parts[k].len / unit);
            && CopyOffset(len, n, unit, rank) == ShardOffset(p, rank) * unit
            && CopyLen(len, n, unit, rank) == ShardLen(p, rank) * unit
            && (forall b: nat :: b < len ==> Covered(len, n, unit, b))
            && len - LeftElems(len, n, unit) * unit == n * PerGpu(len, n, unit) * unit
  {
    ElementTiles(parts, size, unit, units);
    BytesMatchPlan(parts[k].len, n, unit, rank);
    CoverExact(parts[k].len, n, unit);
    RemainderAligned(parts[k].len, n, unit);
  }

  /** The exchange for the byte parts that the partitioning loop makes, with `unit` bytes to an element
      and a bound that is a multiple of it. */
  lemma BytesAllReduce(mode: Mode, tensors: seq<seq<Vec>>, size: nat, unit: nat, units: nat, n: nat, parts: seq<Part>, jobs: seq<Job>,
                    order: seq<nat>, buf: Vec, m: nat, g: nat)
    requires unit > 0 && units > 0 && size % unit == 0 && Tiles(parts, size, units * unit)
    requires AllUniform(tensors, size / unit) && |buf| == size / unit
    requires JobsOk(jobs, mode, tensors, size / unit, n, InElements(parts, unit), m) && m < |tensors| && g < n
    requires forall k :: 0 <= k < |jobs| ==> Timely(jobs[k])
    requires Within(order, |parts|) && Covers(order, |parts|)
    ensures forall k :: 0 <= k < |jobs| ==> HasGpu(jobs[k], m, g)
    ensures AllReduce.Fits(InElements(parts, unit), AllReceived(jobs, m, g), size / unit)
    ensures Assemble(buf, InElements(parts, unit), AllReceived(jobs, m, g), order) == Combined(mode, tensors, size / unit)
    ensures Summing(mode) ==> Uniform(Flat(tensors), size / unit)
                              && Combined(mode, tensors, size / unit) == SumRows(Flat(tensors), size / unit)
  {
    ElementTiles(parts, size, unit, units);
    TensorReduce(mode, tensors, size / unit, n, InElements(parts, unit), units, jobs, order, buf, m, g);
    if Summing(mode) {
      CombinedSum(mode, tensors, size / unit);
    }
  }

  // ---- answers of a schedule ----

  /** How machine `m` is answered on one key: a late pull that is handled after the given steps, or an
      answer of the engine during them. With the key's plan. */
  datatype Answer =
    | Late(cfg: Config, steps: seq<Step>, y: System, plan: Plan)
    | ByEngine(cfg: Config, steps: seq<Step>, y: System, plan: Plan, reply: nat)

  ghost predicate AnswerOk(a: Answer, mode: Mode, part: Part, n: nat, machines: nat, m: nat) {
    && a.cfg.Valid() && a.cfg.mode == mode && Run(a.cfg, a.steps, a.y)
    && a.plan.Valid() && a.plan.n == n && a.plan.elems == a.cfg.len == part.len && a.cfg.n == machines
    && match a
       case Late(_, _, _, _) => LatePull(a.cfg, a.y, m)
       case ByEngine(_, _, _, _, reply) => reply < |a.y.replies| && a.y.replies[reply].worker == m && a.y.replies[reply].byEngine
  }

  ghost predicate AnswersOk(answers: seq<Answer>, mode: Mode, parts: seq<Part>, n: nat, machines: nat, m: nat) {
    |answers| == |parts| && forall k :: 0 <= k < |answers| ==> AnswerOk(answers[k], mode, parts[k], n, machines, m)
  }

  /** A run on the same schedule, and machines whose data it carries. */
  datatype Load = Load(steps: seq<Step>, z: System, machines: seq<Machine>)

  /** The run gives the answer. */
  ghost predicate Gives(a: Answer, z: System, m: nat) {
    match a
    case Late(_, _, _, _) => z.allRecvs > 0 && Sane(a.cfg, z) && Pull(a.cfg, z.server, m).1.Some?
    case ByEngine(_, _, _, _, reply) => reply < |z.replies|
  }

  ghost function Value(a: Answer, z: System, m: nat): Vec
    requires Gives(a, z, m)
  {
    match a
    case Late(_, _, _, _) => Pull(a.cfg, z.server, m).1.value
    case ByEngine(_, _, _, _, reply) => z.replies[reply].value
  }

  /** The round that is answered, counted from 0. */
  ghost function Asked(a: Answer, z: System, m: nat): nat
    requires Gives(a, z, m)
  {
    match a
    case Late(_, _, _, _) => z.allRecvs - 1
    case ByEngine(_, _, _, _, reply) => Index(z.replies[reply])
  }

  ghost predicate LoadOk(a: Answer, load: Load, tensors: seq<seq<Vec>>, len: nat, part: Part, m: nat)
    requires a.cfg.Valid()
  {
    && part.End() <= len && AllUniform(tensors, len) && |load.machines| == a.cfg.n
    && SameSchedule(a.steps, load.steps) && Run(a.cfg, load.steps, load.z) && Gives(a, load.z, m)
    && PushedIn(load.z, Asked(a, load.z, m), a.plan, load.machines)
    && Inputs(load.machines) == AllSlices(tensors, len, part)
  }

  ghost predicate LoadsOk(answers: seq<Answer>, loads: seq<Load>, tensors: seq<seq<Vec>>, len: nat, parts: seq<Part>, m: nat) {
    |loads| == |answers| == |parts| && forall k :: 0 <= k < |answers| ==>
      answers[k].cfg.Valid() && LoadOk(answers[k], loads[k], tensors, len, parts[k], m)
  }

  ghost predicate Gets(a: Answer, load: Load, m: nat, g: nat) {
    && AllReady(a.plan, load.machines) && m < |load.machines| && g < a.plan.n
    && Gives(a, load.z, m) && |Value(a, load.z, m)| == a.plan.elems
  }

  /** What GPU `g` of machine `m` ends with. */
  ghost function Got(a: Answer, load: Load, m: nat, g: nat): Vec
    requires Gets(a, load, m, g)
  {
    Final(a.plan, load.machines[m], Value(a, load.z, m))[g]
  }

  ghost function AllGot(answers: seq<Answer>, loads: seq<Load>, m: nat, g: nat): (vs: seq<Vec>)
    requires |loads| == |answers| && forall k :: 0 <= k < |answers| ==> Gets(answers[k], loads[k], m, g)
    ensures |vs| == |answers|
  {
    seq(|answers|, k requires 0 <= k < |answers| => Got(answers[k], loads[k], m, g))
  }

  /** The GPU ends with the reduction of the machines' sums of this partition. */
  ghost predicate Right(a: Answer, load: Load, m: nat, g: nat) {
    Gives(a, load.z, m) && EndsRight(a.cfg.mode, a.plan, load.machines, m, g, Value(a, load.z, m))
  }

  /** The tensor that GPU `g` of machine `m` ends with is the reduction of the machines' tensors. */
  ghost predicate TensorRight(answers: seq<Answer>, mode: Mode, loads: seq<Load>, tensors: seq<seq<Vec>>, len: nat,
                              parts: seq<Part>, m: nat, g: nat) {
    && |loads| == |answers| && (forall k :: 0 <= k < |answers| ==> Gets(answers[k], loads[k], m, g))
    && tensors != [] && AllUniform(tensors, len) && AllReduce.Fits(parts, AllGot(answers, loads, m, g), len)
    && Assemble(Zero(len), parts, AllGot(answers, loads, m, g), InTurn(|parts|)) == Combined(mode, tensors, len)
  }

  /** That is so for all inputs that the schedules can carry. */
  ghost predicate AlwaysRightTensor(answers: seq<Answer>, mode: Mode, machines: nat, len: nat, parts: seq<Part>, m: nat, g: nat) {
    forall loads, tensors ::
      |tensors| == machines && AllUniform(tensors, len) && LoadsOk(answers, loads, tensors, len, parts, m) ==>
        TensorRight(answers, mode, loads, tensors, len, parts, m, g)
  }

  lemma SameGives(a: Answer, mode: Mode, steps: seq<Step>, z: System, part: Part, n: nat, machines: nat, m: nat)
    requires AnswerOk(a, mode, part, n, machines, m) && SameSchedule(a.steps, steps) && Run(a.cfg, steps, z)
    ensures Gives(a, z, m) && |Value(a, z, m)| == a.cfg.len
    ensures |z.clients| == machines && forall j :: 0 <= j < machines ==> Asked(a, z, m) < |z.clients[j].sent|
    ensures Uniform(RoundGradients(z, Asked(a, z, m)), a.cfg.len)
    ensures a.ByEngine? ==> z.replies[a.reply].worker == m && z.replies[a.reply].byEngine
  {
    match a
    case Late(_, _, _, _) =>
      SameLatePull(a.cfg, a.steps, a.y, steps, z, m);
      LateIsFinished(a.cfg, steps, z, m);
      LateValue(a.cfg, z, m);
      FinishedRound(a.cfg, steps, z);
    case ByEngine(_, _, _, _, reply) =>
      SameAnswers(a.cfg, a.steps, a.y, steps, z);
      assert SameReply(a.y.replies[reply], z.replies[reply]);
      AnswersExact(a.cfg, steps, z, reply);
  }

  lemma LoadGets(a: Answer, mode: Mode, load: Load, tensors: seq<seq<Vec>>, len: nat, n: nat, part: Part, m: nat, g: nat)
    requires AnswerOk(a, mode, part, n, |tensors|, m) && LoadOk(a, load, tensors, len, part, m) && m < |tensors| && g < n
    ensures Gets(a, load, m, g)
    ensures PieceOf(Got(a, load, m, g), part, Combined(mode, tensors, len)) <==> Right(a, load, m, g)
  {
    SameGives(a, mode, load.steps, load.z, part, n, |tensors|, m);
    SliceOfCombined(mode, tensors, len, part);
  }

  // ---- pieces of the assembled tensor ----

  lemma OnlyHere(parts: seq<Part>, size: nat, bound: nat, i: nat, k: nat)
    requires bound > 0 && Tiles(parts, size, bound) && k < |parts| && parts[k].offset <= i < parts[k].End() && i < size
    ensures Only(parts, i, k)
  {
    var j := PartOf(parts, size, bound, i);
  }

  /** No other part reaches into part `k`. */
  ghost predicate Alone(parts: seq<Part>, k: nat)
    requires k < |parts|
  {
    forall i :: parts[k].offset <= i < parts[k].End() ==> Only(parts, i, k)
  }

  lemma TilesAlone(parts: seq<Part>, size: nat, bound: nat, k: nat)
    requires bound > 0 && Tiles(parts, size, bound) && k < |parts| && parts[k].End() <= size
    ensures Alone(parts, k)
  {
    forall i | parts[k].offset <= i < parts[k].End() ensures Only(parts, i, k) {
      OnlyHere(parts, size, bound, i, k);
    }
  }

  lemma PieceAt(buf: Vec, parts: seq<Part>, values: seq<Vec>, order: seq<nat>, k: nat, j: nat)
    requires AllReduce.Fits(parts, values, |buf|) && Within(order, |parts|) && Covers(order, |parts|)
    requires k < |parts| && Alone(parts, k) && j < parts[k].len
    ensures FitsAt(parts[k], values[k], |buf|)
    ensures Assemble(buf, parts, values, order)[parts[k].offset + j] == values[k][j]
  {
    var i := parts[k].offset + j;
    assert FitsAt(parts[k], values[k], |buf|);
    assert Only(parts, i, k);
    AssembleAt(buf, parts, values, order, i, k);
  }

  /** Each part of the assembled tensor is the value written there. */
  lemma PieceOfAssembled(buf: Vec, parts: seq<Part>, values: seq<Vec>, order: seq<nat>, k: nat)
    requires AllReduce.Fits(parts, values, |buf|) && Within(order, |parts|) && Covers(order, |parts|)
    requires k < |parts| && Alone(parts, k)
    ensures PieceOf(values[k], parts[k], Assemble(buf, parts, values, order))
  {
    var whole := Assemble(buf, parts, values, order);
    assert FitsAt(parts[k], values[k], |buf|);
    forall j | 0 <= j < parts[k].len ensures Slice(whole, parts[k])[j] == values[k][j] {
      PieceAt(buf, parts, values, order, k, j);
    }
  }

  lemma AssembledIff(buf: Vec, parts: seq<Part>, bound: nat, values: seq<Vec>, order: seq<nat>, want: Vec)
    requires bound > 0 && Tiles(parts, |buf|, bound) && AllReduce.Fits(parts, values, |buf|) && |want| == |buf|
    requires Within(order, |parts|) && Covers(order, |parts|)
    ensures Assemble(buf, parts, values, order) == want <==> PiecesOf(values, parts, want)
  {
    if Assemble(buf, parts, values, order) == want {
      forall k | 0 <= k < |parts| ensures PieceOf(values[k], parts[k], want) {
        assert FitsAt(parts[k], values[k], |buf|);
        TilesAlone(parts, |buf|, bound, k);
        PieceOfAssembled(buf, parts, values, order, k);
      }
    }
    if PiecesOf(values, parts, want) {
      AssembleWhole(buf, parts, bound, values, order, want);
    }
  }

  // ---- data that tell ----

  lemma FitsGot(answers: seq<Answer>, mode: Mode, loads: seq<Load>, tensors: seq<seq<Vec>>, len: nat, n: nat, parts: seq<Part>,
                m: nat, g: nat)
    requires AnswersOk(answers, mode, parts, n, |tensors|, m) && LoadsOk(answers, loads, tensors, len, parts, m)
    requires AllUniform(tensors, len) && m < |tensors| && g < n
    ensures forall k :: 0 <= k < |answers| ==> Gets(answers[k], loads[k], m, g)
    ensures AllReduce.Fits(parts, AllGot(answers, loads, m, g), len)
    ensures PiecesOf(AllGot(answers, loads, m, g), parts, Combined(mode, tensors, len))
       <==> forall k :: 0 <= k < |answers| ==> Right(answers[k], loads[k], m, g)
  {
    forall k | 0 <= k < |answers|
      ensures Gets(answers[k], loads[k], m, g) && FitsAt(parts[k], Got(answers[k], loads[k], m, g), len)
      ensures PieceOf(Got(answers[k], loads[k], m, g), parts[k], Combined(mode, tensors, len)) <==> Right(answers[k], loads[k], m, g)
    {
      LoadGets(answers[k], mode, loads[k], tensors, len, n, parts[k], m, g);
    }
  }

  /** The assembled tensor is right if and only if every partition is. */
  lemma RightTensorIff(answers: seq<Answer>, mode: Mode, loads: seq<Load>, tensors: seq<seq<Vec>>, len: nat, n: nat,
                       parts: seq<Part>, bound: nat, m: nat, g: nat)
    requires AnswersOk(answers, mode, parts, n, |tensors|, m) && LoadsOk(answers, loads, tensors, len, parts, m)
    requires AllUniform(tensors, len) && bound > 0 && Tiles(parts, len, bound) && m < |tensors| && g < n
    ensures TensorRight(answers, mode, loads, tensors, len, parts, m, g)
       <==> forall k :: 0 <= k < |answers| ==> Right(answers[k], loads[k], m, g)
  {
    FitsGot(answers, mode, loads, tensors, len, n, parts, m, g);
    AssembledIff(Zero(len), parts, bound, AllGot(answers, loads, m, g), InTurn(|parts|), Combined(mode, tensors, len));
  }

  /** For each key a run on its schedule. */
  ghost predicate RunsOk(answers: seq<Answer>, runs: seq<Load>) {
    |runs| == |answers| && forall k :: 0 <= k < |answers| ==>
      answers[k].cfg.Valid() && SameSchedule(answers[k].steps, runs[k].steps) && Run(answers[k].cfg, runs[k].steps, runs[k].z)
  }

  /** All machines sent something in the round that is answered. */
  ghost predicate SentOk(a: Answer, run: Load, machines: nat, m: nat) {
    && Gives(a, run.z, m) && |run.z.clients| == machines
    && forall j :: 0 <= j < machines ==>
         Asked(a, run.z, m) < |run.z.clients[j].sent| && |run.z.clients[j].sent[Asked(a, run.z, m)]| == a.cfg.len
  }

  lemma RunSent(a: Answer, mode: Mode, run: Load, part: Part, n: nat, machines: nat, m: nat)
    requires AnswerOk(a, mode, part, n, machines, m) && SameSchedule(a.steps, run.steps) && Run(a.cfg, run.steps, run.z)
    ensures SentOk(a, run, machines, m)
  {
    SameGives(a, mode, run.steps, run.z, part, n, machines, m);
    var vs := RoundGradients(run.z, Asked(a, run.z, m));
    forall j | 0 <= j < machines ensures |run.z.clients[j].sent[Asked(a, run.z, m)]| == a.cfg.len {
      assert vs[j] == run.z.clients[j].sent[Asked(a, run.z, m)];
    }
  }

  /** What machine `j` sent. */
  ghost function Sent(a: Answer, run: Load, m: nat, j: nat): Vec
    requires Gives(a, run.z, m) && j < |run.z.clients| && Asked(a, run.z, m) < |run.z.clients[j].sent|
  {
    run.z.clients[j].sent[Asked(a, run.z, m)]
  }

  ghost predicate AllSent(answers: seq<Answer>, runs: seq<Load>, parts: seq<Part>, machines: nat, len: nat, m: nat) {
    && |answers| == |runs| == |parts|
    && forall k :: 0 <= k < |runs| ==>
         SentOk(answers[k], runs[k], machines, m) && parts[k].End() <= len && answers[k].cfg.len == parts[k].len
  }

  /** What machine `j` sent on all keys. */
  ghost function SentBy(answers: seq<Answer>, runs: seq<Load>, parts: seq<Part>, machines: nat, len: nat, m: nat, j: nat): (vs: seq<Vec>)
    requires AllSent(answers, runs, parts, machines, len, m) && j < machines
    ensures AllReduce.Fits(parts, vs, len)
  {
    seq(|runs|, k requires 0 <= k < |runs| => assert SentOk(answers[k], runs[k], machines, m); Sent(answers[k], runs[k], m, j))
  }

  /** Tensors of the GPUs of machine `j` that add up to that. */
  ghost function TensorsOf(answers: seq<Answer>, runs: seq<Load>, parts: seq<Part>, machines: nat, len: nat, n: nat, m: nat, j: nat): (rows: seq<Vec>)
    requires AllSent(answers, runs, parts, machines, len, m) && j < machines && n > 0
    ensures |rows| == n && Uniform(rows, len)
  {
    RowsFor(n, Assemble(Zero(len), parts, SentBy(answers, runs, parts, machines, len, m, j), InTurn(|parts|)))
  }

  lemma TensorsSlice(answers: seq<Answer>, runs: seq<Load>, parts: seq<Part>, machines: nat, len: nat, n: nat, bound: nat,
                     m: nat, j: nat, k: nat)
    requires AllSent(answers, runs, parts, machines, len, m) && j < machines && n > 0
    requires bound > 0 && Tiles(parts, len, bound) && k < |parts|
    ensures SentOk(answers[k], runs[k], machines, m) && parts[k].End() <= len
    ensures SumRows(Slices(TensorsOf(answers, runs, parts, machines, len, n, m, j), parts[k]), parts[k].len)
         == Sent(answers[k], runs[k], m, j)
  {
    var values := SentBy(answers, runs, parts, machines, len, m, j);
    var whole := Assemble(Zero(len), parts, values, InTurn(|parts|));
    assert SentOk(answers[k], runs[k], machines, m);
    TilesAlone(parts, len, bound, k);
    PieceOfAssembled(Zero(len), parts, values, InTurn(|parts|), k);
    SliceOfSum(RowsFor(n, whole), len, parts[k]);
    RowsForSum(n, whole);
  }

  /** Machines that hold the part's slices. */
  ghost function MachinesOn(plan: Plan, tensors: seq<seq<Vec>>, len: nat, part: Part): (ms: seq<Machine>)
    requires plan.Valid() && AllUniform(tensors, len) && part.End() <= len && plan.elems == part.len
    requires forall j :: 0 <= j < |tensors| ==> |tensors[j]| == plan.n
    ensures AllReady(plan, ms) && Inputs(ms) == AllSlices(tensors, len, part)
  {
    seq(|tensors|, j requires 0 <= j < |tensors| => MachineOf(plan, Slices(tensors[j], part)))
  }

  lemma MachinesCarry(a: Answer, run: Load, tensors: seq<seq<Vec>>, len: nat, part: Part, m: nat)
    requires a.plan.Valid() && a.plan.elems == part.len
    requires AllUniform(tensors, len) && part.End() <= len && forall j :: 0 <= j < |tensors| ==> |tensors[j]| == a.plan.n
    requires SentOk(a, run, |tensors|, m)
    requires forall j :: 0 <= j < |tensors| ==> SumRows(Slices(tensors[j], part), part.len) == Sent(a, run, m, j)
    ensures PushedIn(run.z, Asked(a, run.z, m), a.plan, MachinesOn(a.plan, tensors, len, part))
  {
    var ms := MachinesOn(a.plan, tensors, len, part);
    forall j | 0 <= j < |ms| ensures AllPushed(a.plan, ms)[j] == Sent(a, run, m, j) {
      MachinePushes(a.plan, ms[j]);
    }
    SentIsPushed(a, run, a.plan, ms, m);
  }

  lemma SentIsPushed(a: Answer, run: Load, plan: Plan, ms: seq<Machine>, m: nat)
    requires AllReady(plan, ms) && SentOk(a, run, |ms|, m)
    requires forall j :: 0 <= j < |ms| ==> AllPushed(plan, ms)[j] == Sent(a, run, m, j)
    ensures PushedIn(run.z, Asked(a, run.z, m), plan, ms)
  {
  }

  ghost function AllTensors(answers: seq<Answer>, runs: seq<Load>, parts: seq<Part>, machines: nat, len: nat, n: nat, m: nat): (ts: seq<seq<Vec>>)
    requires AllSent(answers, runs, parts, machines, len, m) && n > 0
    ensures |ts| == machines && AllUniform(ts, len) && forall j :: 0 <= j < machines ==> |ts[j]| == n
  {
    seq(machines, j requires 0 <= j < machines => TensorsOf(answers, runs, parts, machines, len, n, m, j))
  }

  ghost function LoadOn(a: Answer, run: Load, tensors: seq<seq<Vec>>, len: nat, part: Part): Load
    requires a.plan.Valid() && AllUniform(tensors, len) && part.End() <= len && a.plan.elems == part.len
    requires forall j :: 0 <= j < |tensors| ==> |tensors[j]| == a.plan.n
  {
    run.(machines := MachinesOn(a.plan, tensors, len, part))
  }

  lemma LoadOnOk(answers: seq<Answer>, mode: Mode, runs: seq<Load>, parts: seq<Part>, machines: nat, len: nat, n: nat, bound: nat,
                 m: nat, k: nat)
    requires AnswersOk(answers, mode, parts, n, machines, m) && RunsOk(answers, runs) && AllSent(answers, runs, parts, machines, len, m)
    requires bound > 0 && Tiles(parts, len, bound) && k < |answers| && n > 0
    ensures AnswerOk(answers[k], mode, parts[k], n, machines, m) && parts[k].End() <= len
    ensures LoadOk(answers[k], LoadOn(answers[k], runs[k], AllTensors(answers, runs, parts, machines, len, n, m), len, parts[k]),
                   AllTensors(answers, runs, parts, machines, len, n, m), len, parts[k], m)
  {
    var tensors := AllTensors(answers, runs, parts, machines, len, n, m);
    assert AnswerOk(answers[k], mode, parts[k], n, machines, m);
    assert SentOk(answers[k], runs[k], machines, m) && parts[k].End() <= len;
    forall j | 0 <= j < machines ensures SumRows(Slices(tensors[j], parts[k]), parts[k].len) == Sent(answers[k], runs[k], m, j) {
      TensorsSlice(answers, runs, parts, machines, len, n, bound, m, j, k);
    }
    MachinesCarry(answers[k], runs[k], tensors, len, parts[k], m);
  }

  /** Any runs on the schedules carry the data of some tensors. */
  lemma SomeTensors(answers: seq<Answer>, mode: Mode, runs: seq<Load>, parts: seq<Part>, machines: nat, len: nat, n: nat, bound: nat,
                    m: nat)
    returns (loads: seq<Load>, tensors: seq<seq<Vec>>)
    requires AnswersOk(answers, mode, parts, n, machines, m) && RunsOk(answers, runs) && AllSent(answers, runs, parts, machines, len, m)
    requires bound > 0 && Tiles(parts, len, bound) && n > 0
    ensures |tensors| == machines && AllUniform(tensors, len) && LoadsOk(answers, loads, tensors, len, parts, m)
    ensures forall k :: 0 <= k < |runs| ==> loads[k].z == runs[k].z
  {
    tensors := AllTensors(answers, runs, parts, machines, len, n, m);
    forall k | 0 <= k < |answers|
      ensures AnswerOk(answers[k], mode, parts[k], n, machines, m) && parts[k].End() <= len
      ensures LoadOk(answers[k], LoadOn(answers[k], runs[k], tensors, len, parts[k]), tensors, len, parts[k], m)
    {
      LoadOnOk(answers, mode, runs, parts, machines, len, n, bound, m, k);
    }
    loads := seq(|answers|, k requires 0 <= k < |answers| => LoadOn(answers[k], runs[k], tensors, len, parts[k]));
  }

  // ---- the exact condition ----

  lemma RunsSent(answers: seq<Answer>, mode: Mode, runs: seq<Load>, parts: seq<Part>, machines: nat, len: nat, n: nat, bound: nat, m: nat)
    requires AnswersOk(answers, mode, parts, n, machines, m) && RunsOk(answers, runs) && bound > 0 && Tiles(parts, len, bound)
    ensures AllSent(answers, runs, parts, machines, len, m)
  {
    TilesBefore(parts, len, bound);
    forall k | 0 <= k < |answers| ensures SentOk(answers[k], runs[k], machines, m) && answers[k].cfg.len == parts[k].len {
      RunSent(answers[k], mode, runs[k], parts[k], n, machines, m);
    }
  }

  /** The given runs, but on key `late` one whose gradients tell. */
  lemma TellingRuns(answers: seq<Answer>, mode: Mode, parts: seq<Part>, machines: nat, n: nat, m: nat, late: nat) returns (runs: seq<Load>)
    requires AnswersOk(answers, mode, parts, n, machines, m) && late < |answers| && answers[late].Late? && answers[late].y.executed > 0
    ensures RunsOk(answers, runs) && !AnswersRight(answers[late].cfg, runs[late].z, m)
  {
    assert AnswerOk(answers[late], mode, parts[late], n, machines, m);
    var other, z := TooLateRun(answers[late].cfg, answers[late].steps, answers[late].y, m);
    runs := seq(|answers|, k requires 0 <= k < |answers| =>
      if k == late then Load(other, z, []) else Load(answers[k].steps, answers[k].y, []));
    forall k | 0 <= k < |answers|
      ensures answers[k].cfg.Valid() && SameSchedule(answers[k].steps, runs[k].steps) && Run(answers[k].cfg, runs[k].steps, runs[k].z)
    {
      assert AnswerOk(answers[k], mode, parts[k], n, machines, m);
    }
  }

  lemma LateTensorSpoilt(answers: seq<Answer>, mode: Mode, parts: seq<Part>, machines: nat, len: nat, n: nat, bound: nat,
                         m: nat, g: nat, late: nat)
    requires AnswersOk(answers, mode, parts, n, machines, m) && bound > 0 && Tiles(parts, len, bound) && m < machines && g < n
    requires late < |answers| && answers[late].Late? && answers[late].y.executed > 0
    ensures !AlwaysRightTensor(answers, mode, machines, len, parts, m, g)
  {
    var runs := TellingRuns(answers, mode, parts, machines, n, m, late);
    RunsSent(answers, mode, runs, parts, machines, len, n, bound, m);
    var loads, tensors := SomeTensors(answers, mode, runs, parts, machines, len, n, bound, m);
    RightTensorIff(answers, mode, loads, tensors, len, n, parts, bound, m, g);
    LateLoadWrong(answers[late], mode, loads[late], tensors, len, n, parts[late], m, g);
  }

  lemma LateLoadWrong(a: Answer, mode: Mode, load: Load, tensors: seq<seq<Vec>>, len: nat, n: nat, part: Part, m: nat, g: nat)
    requires AnswerOk(a, mode, part, n, |tensors|, m) && LoadOk(a, load, tensors, len, part, m) && g < n
    requires a.Late? && !AnswersRight(a.cfg, load.z, m)
    ensures !Right(a, load, m, g)
  {
    SameLatePull(a.cfg, a.steps, a.y, load.steps, load.z, m);
    RightIffAnswer(a.cfg, load.z, m, a.plan, load.machines, g);
  }

  lemma EngineLoadRight(a: Answer, mode: Mode, load: Load, tensors: seq<seq<Vec>>, len: nat, n: nat, part: Part, m: nat, g: nat)
    requires AnswerOk(a, mode, part, n, |tensors|, m) && LoadOk(a, load, tensors, len, part, m) && g < n && a.ByEngine?
    ensures Right(a, load, m, g)
  {
    SameGives(a, mode, load.steps, load.z, part, n, |tensors|, m);
    AnswersExact(a.cfg, load.steps, load.z, a.reply);
    PartitionAllReduce(a.cfg, load.steps, load.z, a.reply, a.plan, load.machines, g);
  }

  /** A late answer in time is right, and one of the engine always is. */
  lemma LoadRight(a: Answer, mode: Mode, load: Load, tensors: seq<seq<Vec>>, len: nat, n: nat, part: Part, m: nat, g: nat)
    requires AnswerOk(a, mode, part, n, |tensors|, m) && LoadOk(a, load, tensors, len, part, m) && g < n
    requires a.Late? ==> a.y.executed == 0
    ensures Right(a, load, m, g)
  {
    match a
    case Late(_, _, _, _) => EarlyRun(a.cfg, a.steps, a.y, load.steps, load.z, m, a.plan, load.machines, g);
    case ByEngine(_, _, _, _, _) => EngineLoadRight(a, mode, load, tensors, len, n, part, m, g);
  }

  /** A machine that is answered late on some keys and by the engine on the others: its GPUs end with the
      reduction of the machines' tensors, for all inputs that the schedules can carry, if and only
      if on no key with a late pull the engine has executed a message of the next round when the
      pull is handled. */
  lemma LateTensorExact(answers: seq<Answer>, mode: Mode, parts: seq<Part>, machines: nat, len: nat, n: nat, bound: nat, m: nat, g: nat)
    requires AnswersOk(answers, mode, parts, n, machines, m) && bound > 0 && Tiles(parts, len, bound) && m < machines && g < n
    ensures AlwaysRightTensor(answers, mode, machines, len, parts, m, g)
       <==> forall k :: 0 <= k < |answers| && answers[k].Late? ==> answers[k].y.executed == 0
  {
    if k :| 0 <= k < |answers| && answers[k].Late? && answers[k].y.executed > 0 {
      LateTensorSpoilt(answers, mode, parts, machines, len, n, bound, m, g, k);
    } else {
      forall loads: seq<Load>, tensors: seq<seq<Vec>> |
        |tensors| == machines && AllUniform(tensors, len) && LoadsOk(answers, loads, tensors, len, parts, m)
        ensures TensorRight(answers, mode, loads, tensors, len, parts, m, g)
      {
        forall k | 0 <= k < |answers| ensures Right(answers[k], loads[k], m, g) {
          LoadRight(answers[k], mode, loads[k], tensors, len, n, parts[k], m, g);
        }
        RightTensorIff(answers, mode, loads, tensors, len, n, parts, bound, m, g);
      }
    }
  }
}
