/** A pull that reaches the server after its round was finished is answered at once from the
    store. The store is shared with the next round, whose first gradient overwrites it. This module
    proves exactly when such a late answer is right. */
module LatePulls {
  import opened Options
  import opened Tensors
  import opened Reducers
  import opened RoundProtocol
  import opened RoundSafety
  import opened RoundTheorems
  import Robustness

  /** Two schedules make the same requests in the same order, perhaps with other gradients. */
  ghost predicate SameStep(a: Step, b: Step) {
    if a.PushStep? then b.PushStep? && a.w == b.w else a == b
  }

  ghost predicate SameSchedule(a: seq<Step>, b: seq<Step>) {
    |a| == |b| && forall i :: 0 <= i < |a| ==> SameStep(a[i], b[i])
  }

  ghost predicate SameServer(a: KeyServer, b: KeyServer) {
    && a == b.(mem := a.mem, pending := a.pending)
    && |a.pending| == |b.pending|
    && forall i :: 0 <= i < |a.pending| ==> (a.pending[i].AllRecv? <==> b.pending[i].AllRecv?)
  }

  ghost predicate SameClient(a: Client, b: Client) {
    |a.sent| == |b.sent| && a.pulls == b.pulls && a.answers == b.answers
  }

  /** Two states agree on everything except gradient values. */
  ghost predicate SameControl(y: System, z: System) {
    && SameServer(y.server, z.server)
    && |y.clients| == |z.clients|
    && (forall w :: 0 <= w < |y.clients| ==> SameClient(y.clients[w], z.clients[w]))
    && |y.rounds| == |z.rounds| && y.allRecvs == z.allRecvs && y.executed == z.executed
  }

  lemma SameControlPush(cfg: Config, y: System, z: System, w: Worker, g: Vec, h: Vec)
    requires Sane(cfg, y) && Sane(cfg, z) && SameControl(y, z)
    requires Enabled(cfg, y, PushStep(w, g)) && |h| == cfg.len
    ensures Enabled(cfg, z, PushStep(w, h))
    ensures SameControl(Next(cfg, y, PushStep(w, g)), Next(cfg, z, PushStep(w, h)))
  {
    SameServerPush(cfg, y.server, z.server, w, g, h);
  }

  lemma SameServerPull(cfg: Config, s: KeyServer, t: KeyServer, w: Worker)
    requires s.WellFormed(cfg) && t.WellFormed(cfg) && SameServer(s, t)
    ensures SameServer(Pull(cfg, s, w).0, Pull(cfg, t, w).0)
    ensures Pull(cfg, s, w).1.None? <==> Pull(cfg, t, w).1.None?
  {
  }

  lemma SameControlPull(cfg: Config, y: System, z: System, w: Worker)
    requires Sane(cfg, y) && Sane(cfg, z) && SameControl(y, z) && Enabled(cfg, y, PullStep(w))
    ensures Enabled(cfg, z, PullStep(w))
    ensures SameControl(Next(cfg, y, PullStep(w)), Next(cfg, z, PullStep(w)))
  {
    SameServerPull(cfg, y.server, z.server, w);
    assert SameClient(y.clients[w], z.clients[w]);
  }

  lemma SameControlEngine(cfg: Config, y: System, z: System)
    requires Sane(cfg, y) && Sane(cfg, z) && SameControl(y, z) && Enabled(cfg, y, EngineStep)
    ensures Enabled(cfg, z, EngineStep)
    ensures SameControl(Next(cfg, y, EngineStep), Next(cfg, z, EngineStep))
  {
    SameServerEngine(cfg, y.server, z.server);
    assert y.server.pending[0].AllRecv? <==> z.server.pending[0].AllRecv?;
    DrainSubset(cfg.n, y.server.waiting, y.server.seen, y.server.pullCnt);
    SameServed(y.clients, z.clients, Engine(cfg, y.server).1);
  }

  lemma SameServed(a: seq<Client>, b: seq<Client>, ws: seq<Worker>)
    requires |a| == |b| && forall w :: 0 <= w < |a| ==> SameClient(a[w], b[w])
    ensures forall w :: 0 <= w < |a| ==> SameClient(ServeAll(a, ws)[w], ServeAll(b, ws)[w])
  {
  }

  /** No request or engine step looks at gradient values to decide what to do. */
  lemma SameControlStep(cfg: Config, y: System, z: System, a: Step, b: Step)
    requires Sane(cfg, y) && Sane(cfg, z) && SameControl(y, z)
    requires SameStep(a, b) && Enabled(cfg, y, a) && (b.PushStep? ==> |b.g| == cfg.len)
    ensures Enabled(cfg, z, b)
    ensures SameControl(Next(cfg, y, a), Next(cfg, z, b))
  {
    match a
    case PushStep(w, g) => SameControlPush(cfg, y, z, w, g, b.g);
    case PullStep(w) => SameControlPull(cfg, y, z, w);
    case EngineStep => SameControlEngine(cfg, y, z);
  }

  lemma SameKinds(p: seq<Msg>, q: seq<Msg>, x: seq<Msg>, y: seq<Msg>)
    requires |p| == |q| && |x| == |y|
    requires forall i :: 0 <= i < |p| ==> (p[i].AllRecv? <==> q[i].AllRecv?)
    requires forall i :: 0 <= i < |x| ==> (x[i].AllRecv? <==> y[i].AllRecv?)
    ensures |p + x| == |q + y|
    ensures forall i :: 0 <= i < |p + x| ==> ((p + x)[i].AllRecv? <==> (q + y)[i].AllRecv?)
  {
  }

  /** What an accepted push adds to the queue. */
  ghost function Pushed(cfg: Config, s: KeyServer, g: Vec): seq<Msg>
    requires cfg.Valid() && s.WellFormed(cfg)
  {
    SlotBounds(cfg.n, cfg.len, |s.request|);
    [if s.request == [] then CopyFirst(Store, g) else SumRecv(g),
     CopyFirst(Replica(|s.request| * cfg.len), g)]
    + (if |s.request| + 1 == cfg.n then [AllRecv] else [])
  }

  lemma PushAppends(cfg: Config, s: KeyServer, w: Worker, g: Vec)
    requires cfg.Valid() && s.WellFormed(cfg) && |g| == cfg.len && s.inited
    ensures Push(cfg, s, w, g) == s.(routed := true, pending := s.pending + Pushed(cfg, s, g),
              request := if |s.request| + 1 == cfg.n then [] else s.request + [w])
  {
  }

  lemma SameServerPush(cfg: Config, s: KeyServer, t: KeyServer, w: Worker, g: Vec, h: Vec)
    requires cfg.Valid() && s.WellFormed(cfg) && t.WellFormed(cfg) && SameServer(s, t)
    requires |g| == cfg.len == |h|
    ensures SameServer(Push(cfg, s, w, g), Push(cfg, t, w, h))
  {
    if s.inited {
      PushAppends(cfg, s, w, g);
      PushAppends(cfg, t, w, h);
      SameKinds(s.pending, t.pending, Pushed(cfg, s, g), Pushed(cfg, t, h));
    }
  }

  lemma SameServerEngine(cfg: Config, s: KeyServer, t: KeyServer)
    requires cfg.Valid() && s.WellFormed(cfg) && t.WellFormed(cfg) && SameServer(s, t) && s.pending != []
    ensures SameServer(Engine(cfg, s).0, Engine(cfg, t).0)
    ensures Engine(cfg, s).1 == Engine(cfg, t).1
  {
  }

  lemma {:induction false} SameRun(cfg: Config, a: seq<Step>, y: System, b: seq<Step>, z: System)
    requires cfg.Valid() && Run(cfg, a, y) && Run(cfg, b, z) && SameSchedule(a, b)
    ensures SameControl(y, z)
    decreases |a|
  {
    if a != [] {
      var k := |a| - 1;
      var y0 :| Run(cfg, a[..k], y0) && Sane(cfg, y0) && Enabled(cfg, y0, a[k]) && y == Next(cfg, y0, a[k]);
      var z0 :| Run(cfg, b[..k], z0) && Sane(cfg, z0) && Enabled(cfg, z0, b[k]) && z == Next(cfg, z0, b[k]);
      SameRun(cfg, a[..k], y0, b[..k], z0);
      SameControlStep(cfg, y0, z0, a[k], b[k]);
    }
  }

  /** The same answer, perhaps with another value. */
  ghost predicate SameReply(a: Reply, b: Reply) {
    a == b.(value := a.value)
  }

  ghost predicate SameReplies(a: seq<Reply>, b: seq<Reply>) {
    |a| == |b| && forall i :: 0 <= i < |a| ==> SameReply(a[i], b[i])
  }

  lemma SameEngineReplies(y: System, z: System, ws: seq<Worker>)
    requires SameControl(y, z) && forall i :: 0 <= i < |ws| ==> ws[i] < |y.clients|
    ensures SameReplies(EngineReplies(y, ws), EngineReplies(z, ws))
  {
    forall i | 0 <= i < |ws| ensures SameReply(EngineReplies(y, ws)[i], EngineReplies(z, ws)[i]) {
      assert SameClient(y.clients[ws[i]], z.clients[ws[i]]);
    }
  }

  lemma SameRepliesPull(cfg: Config, y: System, z: System, w: Worker)
    requires Sane(cfg, y) && Sane(cfg, z) && SameControl(y, z) && SameReplies(y.replies, z.replies)
    requires Enabled(cfg, y, PullStep(w)) && Enabled(cfg, z, PullStep(w))
    ensures SameReplies(Next(cfg, y, PullStep(w)).replies, Next(cfg, z, PullStep(w)).replies)
  {
    SameServerPull(cfg, y.server, z.server, w);
    assert SameClient(y.clients[w], z.clients[w]);
  }

  lemma SameRepliesEngine(cfg: Config, y: System, z: System)
    requires Sane(cfg, y) && Sane(cfg, z) && SameControl(y, z) && SameReplies(y.replies, z.replies)
    requires Enabled(cfg, y, EngineStep) && Enabled(cfg, z, EngineStep)
    ensures SameReplies(Next(cfg, y, EngineStep).replies, Next(cfg, z, EngineStep).replies)
  {
    SameServerEngine(cfg, y.server, z.server);
    assert y.server.pending[0].AllRecv? <==> z.server.pending[0].AllRecv?;
    if y.server.pending[0] == AllRecv && y.server.reduced {
      DrainSubset(cfg.n, y.server.waiting, y.server.seen, y.server.pullCnt);
      SameEngineReplies(y, z, Engine(cfg, y.server).1);
    }
  }

  lemma SameRepliesStep(cfg: Config, y: System, z: System, a: Step, b: Step)
    requires Sane(cfg, y) && Sane(cfg, z) && SameControl(y, z) && SameReplies(y.replies, z.replies)
    requires SameStep(a, b) && Enabled(cfg, y, a) && Enabled(cfg, z, b)
    ensures SameReplies(Next(cfg, y, a).replies, Next(cfg, z, b).replies)
  {
    match a
    case PushStep(_, _) =>
    case PullStep(w) => SameRepliesPull(cfg, y, z, w);
    case EngineStep => SameRepliesEngine(cfg, y, z);
  }

  /** On one schedule the same workers are answered for the same rounds, in the same order, by the same
      side. */
  lemma {:induction false} SameAnswers(cfg: Config, a: seq<Step>, y: System, b: seq<Step>, z: System)
    requires cfg.Valid() && Run(cfg, a, y) && Run(cfg, b, z) && SameSchedule(a, b)
    ensures SameReplies(y.replies, z.replies)
    decreases |a|
  {
    if a != [] {
      var k := |a| - 1;
      var y0 := LastStep(cfg, a, y);
      var z0 := LastStep(cfg, b, z);
      SameRun(cfg, a[..k], y0, b[..k], z0);
      SameAnswers(cfg, a[..k], y0, b[..k], z0);
      SameRepliesStep(cfg, y0, z0, a[k], b[k]);
    }
  }

  // ---- the same schedule with telling gradients ----

  function Ones(len: nat): (r: Vec)
    ensures |r| == len
  {
    seq(len, _ => 1.0)
  }

  /** Gradients of round `r + 1` are all ones, all others zero. */
  ghost predicate Telling(cfg: Config, y: System, r: nat) {
    forall w, i :: 0 <= w < |y.clients| && 0 <= i < |y.clients[w].sent| ==>
      y.clients[w].sent[i] == if i == r then Ones(cfg.len) else Zero(cfg.len)
  }

  ghost function Recolor(cfg: Config, y: System, r: nat, step: Step): (s: Step)
    requires |y.clients| == cfg.n && Enabled(cfg, y, step)
    ensures SameStep(step, s) && (s.PushStep? ==> |s.g| == cfg.len)
  {
    match step
    case PushStep(w, _) =>
      PushStep(w, if |y.clients[w].sent| == r then Ones(cfg.len) else Zero(cfg.len))
    case other => other
  }

  lemma RecolorStep(cfg: Config, y: System, z: System, r: nat, step: Step)
    requires Sane(cfg, y) && Sane(cfg, z) && SameControl(y, z) && Telling(cfg, z, r) && Enabled(cfg, y, step)
    ensures Enabled(cfg, z, Recolor(cfg, y, r, step))
    ensures Telling(cfg, Next(cfg, z, Recolor(cfg, y, r, step)), r)
    ensures SameControl(Next(cfg, y, step), Next(cfg, z, Recolor(cfg, y, r, step)))
  {
    SameControlStep(cfg, y, z, step, Recolor(cfg, y, r, step));
  }

  lemma RunSane(cfg: Config, steps: seq<Step>, y: System)
    requires cfg.Valid() && Run(cfg, steps, y)
    ensures Sane(cfg, y)
  {
    RunInv(cfg, steps, y);
  }

  lemma RunExtends(cfg: Config, steps: seq<Step>, y: System, step: Step)
    requires cfg.Valid() && Run(cfg, steps, y) && Sane(cfg, y) && Enabled(cfg, y, step)
    ensures Run(cfg, steps + [step], Next(cfg, y, step))
  {
    assert (steps + [step])[..|steps|] == steps;
  }

  lemma LastStep(cfg: Config, steps: seq<Step>, y: System) returns (x: System)
    requires cfg.Valid() && Run(cfg, steps, y) && steps != []
    ensures var k := |steps| - 1;
            Run(cfg, steps[..k], x) && Sane(cfg, x) && Enabled(cfg, x, steps[k]) && y == Next(cfg, x, steps[k])
  {
    var k := |steps| - 1;
    x :| Run(cfg, steps[..k], x) && Sane(cfg, x) && Enabled(cfg, x, steps[k]) && y == Next(cfg, x, steps[k]);
  }

  lemma ReplayStep(cfg: Config, x: System, step: Step, r: nat, s0: seq<Step>, z0: System)
    returns (step': Step, z: System)
    requires cfg.Valid() && Sane(cfg, x) && Enabled(cfg, x, step)
    requires Run(cfg, s0, z0) && SameControl(x, z0) && Telling(cfg, z0, r)
    ensures Run(cfg, s0 + [step'], z) && SameStep(step, step')
    ensures SameControl(Next(cfg, x, step), z) && Telling(cfg, z, r)
  {
    RunSane(cfg, s0, z0);
    RecolorStep(cfg, x, z0, r, step);
    step' := Recolor(cfg, x, r, step);
    z := Next(cfg, z0, step');
    RunExtends(cfg, s0, z0, step');
  }

  lemma ScheduleExtends(a: seq<Step>, b: seq<Step>, step: Step)
    requires a != [] && SameSchedule(a[..|a| - 1], b) && SameStep(a[|a| - 1], step)
    ensures SameSchedule(a, b + [step])
  {
    forall i | 0 <= i < |a| ensures SameStep(a[i], (b + [step])[i]) {
      if i < |b| {
        assert a[i] == a[..|a| - 1][i];
      }
    }
  }

  /** Every run can be replayed with the same schedule and telling gradients. */
  lemma {:induction false} Replay(cfg: Config, steps: seq<Step>, y: System, r: nat)
    returns (steps': seq<Step>, z: System)
    requires cfg.Valid() && Run(cfg, steps, y)
    ensures Run(cfg, steps', z) && SameSchedule(steps, steps') && SameControl(y, z) && Telling(cfg, z, r)
    decreases |steps|
  {
    if steps == [] {
      steps', z := [], y;
    } else {
      var k := |steps| - 1;
      var x := LastStep(cfg, steps, y);
      var s0, z0 := Replay(cfg, steps[..k], x, r);
      var step: Step;
      step, z := ReplayStep(cfg, x, steps[k], r, s0, z0);
      steps' := s0 + [step];
      ScheduleExtends(steps, s0, step);
    }
  }

  // ---- what the answers are under telling gradients ----

  lemma {:induction false} TotalConstant(xs: seq<real>, x: real)
    requires forall i :: 0 <= i < |xs| ==> xs[i] == x
    ensures Total(xs) == |xs| as real * x
  {
    if xs != [] {
      TotalConstant(xs[..|xs| - 1], x);
    }
  }

  lemma MixZero(alpha: real, n: nat)
    ensures Mix(alpha, 0.0, 0.0) == 0.0 == Scale(n, 0.0)
  {
  }

  ghost predicate AllZero(c: seq<real>) {
    c != [] && forall i :: 0 <= i < |c| ==> c[i] == 0.0
  }

  lemma ZeroSorted(c: seq<real>)
    requires AllZero(c)
    ensures Sort(c) == c && Middle(c) == 0.0
  {
    Robustness.SortedUnique(c, Sort(c));
  }

  lemma ZeroTotal(c: seq<real>)
    requires AllZero(c)
    ensures Total(c) == 0.0
  {
    TotalConstant(c, 0.0);
  }

  lemma ReduceColumnZero(mode: Mode, c: seq<real>)
    requires AllZero(c)
    ensures ReduceColumn(mode, c) == 0.0
  {
    ZeroTotal(c);
    ZeroSorted(c);
    MixZero(if mode.Hybrid? then mode.alpha else 0.0, |c|);
  }

  lemma SumOnes(rows: seq<Vec>, len: nat)
    requires Uniform(rows, len) && len > 0 && forall j :: 0 <= j < |rows| ==> rows[j] == Ones(len)
    ensures SumRows(rows, len)[0] == |rows| as real
  {
    SumRowsAt(rows, len, 0);
    TotalConstant(Column(rows, 0), 1.0);
  }

  /** The handler would answer this worker's pull at once. */
  ghost predicate LatePull(cfg: Config, y: System, w: Worker) {
    Enabled(cfg, y, PullStep(w)) && y.server.finished && w !in y.server.seen && y.server.inited
  }

  /** The answer is the reduction of the gradients of the round that the worker asks for. */
  ghost predicate AnswersRight(cfg: Config, y: System, w: Worker) {
    && cfg.Valid() && Sane(cfg, y) && y.allRecvs > 0
    && (forall v :: 0 <= v < |y.clients| ==> y.allRecvs - 1 < |y.clients[v].sent|)
    && Uniform(RoundGradients(y, y.allRecvs - 1), cfg.len)
    && Pull(cfg, y.server, w).1 == Some(Reduce(cfg.mode, RoundGradients(y, y.allRecvs - 1), cfg.len))
  }

  lemma EarlyEnough(cfg: Config, y: System, w: Worker)
    requires Inv(cfg, y) && LatePull(cfg, y, w) && y.executed == 0
    ensures AnswersRight(cfg, y, w)
  {
    LatePullRound(cfg, y, w);
    CompleteRound(cfg, y, y.allRecvs - 1);
  }

  lemma TooLate(cfg: Config, y: System, w: Worker)
    requires Inv(cfg, y) && LatePull(cfg, y, w) && y.executed > 0 && Telling(cfg, y, y.allRecvs)
    ensures !AnswersRight(cfg, y, w)
  {
    LatePullRound(cfg, y, w);
    CompleteRound(cfg, y, y.allRecvs - 1);
    var next := Grads(y.current)[..y.Ahead()];
    assert FromRound(y, y.current, |y.rounds|);
    SumOnes(next, cfg.len);
    var f := RoundGradients(y, y.allRecvs - 1);
    ReduceColumnZero(cfg.mode, Column(f, 0));
    assert Reduce(cfg.mode, f, cfg.len)[0] == 0.0;
    assert y.server.mem.store[0] == |next| as real;
  }

  lemma EarlyEnoughRun(cfg: Config, steps: seq<Step>, y: System, other: seq<Step>, z: System, w: Worker)
    requires cfg.Valid() && Run(cfg, steps, y) && LatePull(cfg, y, w) && y.executed == 0
    requires SameSchedule(steps, other) && Run(cfg, other, z)
    ensures AnswersRight(cfg, z, w)
  {
    SameRun(cfg, steps, y, other, z);
    RunInv(cfg, other, z);
    EarlyEnough(cfg, z, w);
  }

  lemma TooLateRun(cfg: Config, steps: seq<Step>, y: System, w: Worker) returns (other: seq<Step>, z: System)
    requires cfg.Valid() && Run(cfg, steps, y) && LatePull(cfg, y, w) && y.executed > 0
    ensures SameSchedule(steps, other) && Run(cfg, other, z) && !AnswersRight(cfg, z, w)
  {
    other, z := Replay(cfg, steps, y, y.allRecvs);
    RunInv(cfg, other, z);
    TooLate(cfg, z, w);
  }

  /** The worker's pull is answered rightly whatever gradients the schedule carries. */
  ghost predicate AlwaysRight(cfg: Config, steps: seq<Step>, w: Worker)
    requires cfg.Valid()
  {
    forall other, z :: SameSchedule(steps, other) && Run(cfg, other, z) ==> AnswersRight(cfg, z, w)
  }

  lemma EarlyAlwaysRight(cfg: Config, steps: seq<Step>, y: System, w: Worker)
    requires cfg.Valid() && Run(cfg, steps, y) && LatePull(cfg, y, w) && y.executed == 0
    ensures AlwaysRight(cfg, steps, w)
  {
    forall other, z | SameSchedule(steps, other) && Run(cfg, other, z) ensures AnswersRight(cfg, z, w) {
      EarlyEnoughRun(cfg, steps, y, other, z, w);
    }
  }

  lemma LateNotAlwaysRight(cfg: Config, steps: seq<Step>, y: System, w: Worker)
    requires cfg.Valid() && Run(cfg, steps, y) && LatePull(cfg, y, w) && y.executed > 0
    ensures !AlwaysRight(cfg, steps, w)
  {
    var other, z := TooLateRun(cfg, steps, y, w);
  }

  /** A late answer is right for all gradients that the same schedule can carry if and only if the
      engine has not yet executed a message of the next round when the pull is handled. */
  lemma LateAnswerExact(cfg: Config, steps: seq<Step>, y: System, w: Worker)
    requires cfg.Valid() && Run(cfg, steps, y) && LatePull(cfg, y, w)
    ensures AlwaysRight(cfg, steps, w) <==> y.executed == 0
  {
    if y.executed == 0 {
      EarlyAlwaysRight(cfg, steps, y, w);
    } else {
      LateNotAlwaysRight(cfg, steps, y, w);
    }
  }
}
