/** The machines' part and the server's part together. What a machine pulls is an answer of a run of
    the key's round protocol in which the machines are the workers. The pipeline is a flat all-reduce
    exactly as far as the server's answers are right. */
module ServedAllReduce {
  import opened Tensors
  import opened Reducers
  import opened Collectives
  import opened AllReduce
  import opened RoundProtocol
  import opened RoundSafety
  import opened RoundTheorems
  import opened LatePulls

  // ---- one partition ----

  ghost predicate Summing(mode: Mode) {
    mode.Sum? || mode.SumSerial?
  }

  /** Rounds count from 1, the gradients a worker sent from 0. */
  function Index(q: Reply): nat {
    if q.round == 0 then 0 else q.round - 1
  }

  /** In round `r + 1` of the run the workers sent what the machines pushed. */
  ghost predicate PushedIn(y: System, r: nat, p: Plan, ms: seq<Machine>) {
    && AllReady(p, ms) && |y.clients| == |ms|
    && forall m :: 0 <= m < |ms| ==> r < |y.clients[m].sent| && y.clients[m].sent[r] == AllPushed(p, ms)[m]
  }

  lemma RoundIsPushed(y: System, r: nat, p: Plan, ms: seq<Machine>)
    requires PushedIn(y, r, p, ms)
    ensures forall w :: 0 <= w < |y.clients| ==> r < |y.clients[w].sent|
    ensures RoundGradients(y, r) == AllPushed(p, ms)
  {
  }

  /** What an answer carries: the machines' sums reduced, if no later gradient has come yet. */
  ghost predicate Delivers(cfg: Config, y: System, q: Reply, p: Plan, ms: seq<Machine>)
    requires AllReady(p, ms) && ms != []
  {
    && AllUniform(Inputs(ms), p.elems) && Uniform(Grads(y.Accepted(q.round)), p.elems)
    && q.ahead <= |Grads(y.Accepted(q.round))|
    && q.value == if q.ahead == 0 then Combined(cfg.mode, Inputs(ms), p.elems)
                  else SumRows(Grads(y.Accepted(q.round))[..q.ahead], p.elems)
  }

  lemma ExactDelivers(cfg: Config, y: System, q: Reply, p: Plan, ms: seq<Machine>)
    requires cfg.Valid() && AnswerExact(cfg, y, q)
    requires cfg.len == p.elems && ms != [] && PushedIn(y, Index(q), p, ms)
    ensures Delivers(cfg, y, q, p, ms)
  {
    RoundIsPushed(y, Index(q), p, ms);
    PushedCombined(cfg.mode, p, ms);
  }

  lemma AnswerDelivers(cfg: Config, steps: seq<Step>, y: System, i: nat, p: Plan, ms: seq<Machine>)
    requires cfg.Valid() && Run(cfg, steps, y) && i < |y.replies|
    requires cfg.n == |ms| && cfg.len == p.elems
    requires PushedIn(y, Index(y.replies[i]), p, ms)
    ensures AllReady(p, ms) && y.replies[i].worker < |ms| && Delivers(cfg, y, y.replies[i], p, ms)
  {
    AnswersExact(cfg, steps, y, i);
    ExactDelivers(cfg, y, y.replies[i], p, ms);
  }

  /** Every answer of every run, in every mode: the GPUs of the machine that pulled end with the
      reduction of the machines' sums, unless `ahead` gradients of the next round were already stored;
      then they end with the sum of those. */
  lemma PartitionAllReduce(cfg: Config, steps: seq<Step>, y: System, i: nat, p: Plan, ms: seq<Machine>, g: nat)
    requires cfg.Valid() && Run(cfg, steps, y) && i < |y.replies|
    requires cfg.n == |ms| && cfg.len == p.elems && g < p.n
    requires PushedIn(y, Index(y.replies[i]), p, ms)
    ensures AllReady(p, ms) && AllUniform(Inputs(ms), p.elems)
    ensures var q := y.replies[i];
            && q.worker < |ms| && |q.value| == p.elems && Uniform(Grads(y.Accepted(q.round)), p.elems)
            && q.ahead <= |Grads(y.Accepted(q.round))|
            && Final(p, ms[q.worker], q.value)[g]
               == if q.ahead == 0 then Combined(cfg.mode, Inputs(ms), p.elems)
                  else SumRows(Grads(y.Accepted(q.round))[..q.ahead], p.elems)
  {
    AnswerDelivers(cfg, steps, y, i, p, ms);
    FinalIsPulled(p, ms[y.replies[i].worker], y.replies[i].value, g);
  }

  /** In the summing modes such an answer leaves every GPU with the sum over all machines and GPUs. */
  lemma PartitionSum(cfg: Config, steps: seq<Step>, y: System, i: nat, p: Plan, ms: seq<Machine>, g: nat)
    requires cfg.Valid() && Summing(cfg.mode) && Run(cfg, steps, y) && i < |y.replies| && y.replies[i].ahead == 0
    requires cfg.n == |ms| && cfg.len == p.elems && g < p.n
    requires PushedIn(y, Index(y.replies[i]), p, ms)
    ensures AllReady(p, ms) && Uniform(Flat(Inputs(ms)), p.elems)
    ensures y.replies[i].worker < |ms| && |y.replies[i].value| == p.elems
    ensures Final(p, ms[y.replies[i].worker], y.replies[i].value)[g] == SumRows(Flat(Inputs(ms)), p.elems)
  {
    PartitionAllReduce(cfg, steps, y, i, p, ms, g);
    CombinedSum(cfg.mode, Inputs(ms), p.elems);
  }

  // ---- machines that push given vectors ----

  /** Rows whose sum is `v`. */
  function RowsFor(n: nat, v: Vec): (rows: seq<Vec>)
    requires n > 0
    ensures |rows| == n && Uniform(rows, |v|)
  {
    if n == 1 then [v] else RowsFor(n - 1, v) + [Zero(|v|)]
  }

  lemma {:induction false} RowsForSum(n: nat, v: Vec)
    requires n > 0
    ensures SumRows(RowsFor(n, v), |v|) == v
  {
    if n == 1 {
      assert [v] == [] + [v];
      SumRowsSnoc([], v, |v|);
    } else {
      RowsForSum(n - 1, v);
      SumRowsSnoc(RowsFor(n - 1, v), Zero(|v|), |v|);
      assert Add(v, Zero(|v|)) == v;
    }
  }

  function InTurn(n: nat): (order: seq<nat>)
    ensures Within(order, n) && Covers(order, n)
  {
    if n == 0 then [] else InTurn(n - 1) + [n - 1]
  }

  /** A machine whose GPUs hold these rows. */
  function MachineOf(p: Plan, ins: seq<Vec>): (m: Machine)
    requires p.Valid() && Bufs(ins, p.n, p.elems)
    ensures Ready(p, m) && m.ins == ins
  {
    Machine(ins, ins, Zero(p.elems), InTurn(p.n))
  }

  lemma MachinePushes(p: Plan, m: Machine)
    requires p.Valid() && Ready(p, m)
    ensures AllReduce.Pushed(p, m) == SumRows(m.ins, p.elems)
  {
    HostComplete(p, m.ins, m.outs, m.host, m.order);
  }

  // ---- a late pull ----

  /** The round that a late pull asks for carries what the machines pushed. */
  ghost predicate Carries(cfg: Config, z: System, p: Plan, ms: seq<Machine>) {
    z.allRecvs > 0 && |ms| == cfg.n && PushedIn(z, z.allRecvs - 1, p, ms)
  }

  /** With this value pulled, GPU `g` of machine `w` ends with the reduction of the machines' sums. */
  ghost predicate EndsRight(mode: Mode, p: Plan, ms: seq<Machine>, w: Worker, g: nat, v: Vec) {
    && AllReady(p, ms) && w < |ms| && g < p.n && |v| == p.elems && AllUniform(Inputs(ms), p.elems)
    && Final(p, ms[w], v)[g] == Combined(mode, Inputs(ms), p.elems)
  }

  /** A pull of machine `w`, handled now, leaves its GPU `g` with that. */
  ghost predicate GpuRight(cfg: Config, z: System, w: Worker, p: Plan, ms: seq<Machine>, g: nat) {
    && Sane(cfg, z) && Pull(cfg, z.server, w).1.Some?
    && EndsRight(cfg.mode, p, ms, w, g, Pull(cfg, z.server, w).1.value)
  }

  lemma LateValue(cfg: Config, z: System, w: Worker)
    requires Sane(cfg, z) && LatePull(cfg, z, w)
    ensures Pull(cfg, z.server, w).1.Some? && |Pull(cfg, z.server, w).1.value| == cfg.len
  {
  }

  /** The GPUs are right exactly when the answer is. */
  lemma RightIffAnswer(cfg: Config, z: System, w: Worker, p: Plan, ms: seq<Machine>, g: nat)
    requires Sane(cfg, z) && LatePull(cfg, z, w)
    requires Carries(cfg, z, p, ms) && p.elems == cfg.len && g < p.n
    ensures GpuRight(cfg, z, w, p, ms, g) <==> AnswersRight(cfg, z, w)
  {
    LateValue(cfg, z, w);
    RoundIsPushed(z, z.allRecvs - 1, p, ms);
    PushedCombined(cfg.mode, p, ms);
    FinalIsPulled(p, ms[w], Pull(cfg, z.server, w).1.value, g);
  }

  /** On this schedule the GPUs of machine `w` are right whatever the machines' inputs are. */
  ghost predicate AlwaysRightOn(cfg: Config, steps: seq<Step>, w: Worker, p: Plan, g: nat)
    requires cfg.Valid()
  {
    forall other, z, ms :: SameSchedule(steps, other) && Run(cfg, other, z) && Carries(cfg, z, p, ms) ==>
      GpuRight(cfg, z, w, p, ms, g)
  }

  function MachinesFor(p: Plan, vs: seq<Vec>): (ms: seq<Machine>)
    requires p.Valid() && Uniform(vs, p.elems)
    ensures |ms| == |vs| && AllReady(p, ms)
  {
    seq(|vs|, m requires 0 <= m < |vs| => MachineOf(p, RowsFor(p.n, vs[m])))
  }

  lemma MachinesForPush(p: Plan, vs: seq<Vec>)
    requires p.Valid() && Uniform(vs, p.elems)
    ensures AllPushed(p, MachinesFor(p, vs)) == vs
  {
    forall m | 0 <= m < |vs| ensures AllPushed(p, MachinesFor(p, vs))[m] == vs[m] {
      MachinePushes(p, MachinesFor(p, vs)[m]);
      RowsForSum(p.n, vs[m]);
    }
  }

  lemma SameLatePull(cfg: Config, steps: seq<Step>, y: System, other: seq<Step>, z: System, w: Worker)
    requires cfg.Valid() && Run(cfg, steps, y) && Run(cfg, other, z) && SameSchedule(steps, other)
    requires LatePull(cfg, y, w)
    ensures Sane(cfg, z) && LatePull(cfg, z, w) && z.executed == y.executed && z.allRecvs == y.allRecvs
  {
    SameRun(cfg, steps, y, other, z);
    RunSane(cfg, other, z);
  }

  /** Every round that has been finished can be given machines that pushed it. */
  lemma SomeCarry(cfg: Config, steps: seq<Step>, z: System, p: Plan) returns (ms: seq<Machine>)
    requires cfg.Valid() && Run(cfg, steps, z) && z.allRecvs > 0 && p.Valid() && p.elems == cfg.len
    ensures Carries(cfg, z, p, ms)
  {
    FinishedRound(cfg, steps, z);
    var vs := RoundGradients(z, z.allRecvs - 1);
    ms := MachinesFor(p, vs);
    MachinesForPush(p, vs);
  }

  lemma FinishedState(cfg: Config, z: System, r: nat)
    requires cfg.Valid() && ClientsOk(cfg, z) && RoundsOk(cfg, z) && r < |z.rounds|
    ensures |z.clients| == cfg.n && forall w :: 0 <= w < |z.clients| ==> r < |z.clients[w].sent|
    ensures Uniform(RoundGradients(z, r), cfg.len)
  {
    CompleteRound(cfg, z, r);
  }

  lemma RunRounds(cfg: Config, steps: seq<Step>, z: System)
    requires cfg.Valid() && Run(cfg, steps, z)
    ensures ClientsOk(cfg, z) && RoundsOk(cfg, z) && z.allRecvs <= |z.rounds|
  {
    RunInv(cfg, steps, z);
  }

  lemma FinishedRound(cfg: Config, steps: seq<Step>, z: System)
    requires cfg.Valid() && Run(cfg, steps, z) && z.allRecvs > 0
    ensures |z.clients| == cfg.n && forall w :: 0 <= w < |z.clients| ==> z.allRecvs - 1 < |z.clients[w].sent|
    ensures Uniform(RoundGradients(z, z.allRecvs - 1), cfg.len)
  {
    RunRounds(cfg, steps, z);
    FinishedState(cfg, z, z.allRecvs - 1);
  }

  lemma LateIsFinished(cfg: Config, steps: seq<Step>, y: System, w: Worker)
    requires cfg.Valid() && Run(cfg, steps, y) && LatePull(cfg, y, w)
    ensures y.allRecvs > 0
  {
    RunInv(cfg, steps, y);
    LatePullRound(cfg, y, w);
  }

  lemma EarlyRun(cfg: Config, steps: seq<Step>, y: System, other: seq<Step>, z: System, w: Worker, p: Plan, ms: seq<Machine>, g: nat)
    requires cfg.Valid() && Run(cfg, steps, y) && LatePull(cfg, y, w) && y.executed == 0
    requires SameSchedule(steps, other) && Run(cfg, other, z) && Carries(cfg, z, p, ms) && p.elems == cfg.len && g < p.n
    ensures GpuRight(cfg, z, w, p, ms, g)
  {
    SameLatePull(cfg, steps, y, other, z, w);
    EarlyEnoughRun(cfg, steps, y, other, z, w);
    RightIffAnswer(cfg, z, w, p, ms, g);
  }

  lemma EarlyRight(cfg: Config, steps: seq<Step>, y: System, w: Worker, p: Plan, g: nat)
    requires cfg.Valid() && Run(cfg, steps, y) && LatePull(cfg, y, w) && y.executed == 0
    requires p.elems == cfg.len && g < p.n
    ensures AlwaysRightOn(cfg, steps, w, p, g)
  {
    forall other, z, ms | SameSchedule(steps, other) && Run(cfg, other, z) && Carries(cfg, z, p, ms)
      ensures GpuRight(cfg, z, w, p, ms, g)
    {
      EarlyRun(cfg, steps, y, other, z, w, p, ms, g);
    }
  }

  lemma LateSpoils(cfg: Config, steps: seq<Step>, y: System, w: Worker, p: Plan, g: nat)
    returns (other: seq<Step>, z: System, ms: seq<Machine>)
    requires cfg.Valid() && Run(cfg, steps, y) && LatePull(cfg, y, w) && y.executed > 0
    requires p.Valid() && p.elems == cfg.len && g < p.n
    ensures SameSchedule(steps, other) && Run(cfg, other, z) && Carries(cfg, z, p, ms) && !GpuRight(cfg, z, w, p, ms, g)
  {
    other, z := TooLateRun(cfg, steps, y, w);
    SameLatePull(cfg, steps, y, other, z, w);
    LateIsFinished(cfg, other, z, w);
    ms := SomeCarry(cfg, other, z, p);
    RightIffAnswer(cfg, z, w, p, ms, g);
  }

  /** A machine whose pull is late gets the reduction of the machines' sums on all its GPUs, for all
      inputs that the schedule can carry, if and only if the engine has not executed a message of the
      next round. In every mode. */
  lemma LateAllReduceExact(cfg: Config, steps: seq<Step>, y: System, w: Worker, p: Plan, g: nat)
    requires cfg.Valid() && Run(cfg, steps, y) && LatePull(cfg, y, w)
    requires p.Valid() && p.elems == cfg.len && g < p.n
    ensures AlwaysRightOn(cfg, steps, w, p, g) <==> y.executed == 0
  {
    if y.executed == 0 {
      EarlyRight(cfg, steps, y, w, p, g);
    } else {
      var other, z, ms := LateSpoils(cfg, steps, y, w, p, g);
    }
  }
}
