/** Every pull is answered if requests keep coming: from every reachable state there is a continuation
    that answers a worker that has pushed. */
module RoundProgress {
  import opened Tensors
  import opened RoundProtocol
  import opened RoundSafety
  import opened LatePulls

  /** Nothing that a worker has sent or got is taken back. */
  ghost predicate Onward(y: System, z: System) {
    && |y.clients| == |z.clients| && |y.rounds| <= |z.rounds|
    && forall w :: 0 <= w < |y.clients| ==>
         |y.clients[w].sent| <= |z.clients[w].sent| && y.clients[w].answers <= z.clients[w].answers
  }

  lemma OnwardTransitive(x: System, y: System, z: System)
    requires Onward(x, y) && Onward(y, z)
    ensures Onward(x, z)
  {
  }

  /** The engine has nothing to do for the key. */
  ghost predicate Quiet(y: System) {
    y.server.pending == [] && y.server.inited
  }

  // ---- the engine runs until its queue is empty ----

  function EngineTurns(s: KeyServer): int {
    2 * |s.pending| - if s.reduced then 1 else 0
  }

  lemma EngineTurn(cfg: Config, y: System)
    requires Sane(cfg, y) && y.server.pending != []
    ensures var z := Next(cfg, y, EngineStep);
            && Onward(y, z) && z.rounds == y.rounds && z.server.request == y.server.request
            && z.server.inited == y.server.inited && EngineTurns(z.server) < EngineTurns(y.server)
  {
  }

  lemma {:induction false} RunEngine(cfg: Config, steps: seq<Step>, y: System) returns (longer: seq<Step>, z: System)
    requires cfg.Valid() && Run(cfg, steps, y)
    ensures steps <= longer && Run(cfg, longer, z) && z.server.pending == [] && Onward(y, z)
    ensures z.rounds == y.rounds && z.server.request == y.server.request && z.server.inited == y.server.inited
    decreases EngineTurns(y.server)
  {
    if y.server.pending == [] {
      longer, z := steps, y;
    } else {
      RunSane(cfg, steps, y);
      EngineTurn(cfg, y);
      RunExtends(cfg, steps, y, EngineStep);
      longer, z := RunEngine(cfg, steps + [EngineStep], Next(cfg, y, EngineStep));
    }
  }

  // ---- a worker whose round is finished gets its answer ----

  lemma QuietIsFinished(cfg: Config, y: System)
    requires RoundsOk(cfg, y) && QueueOk(cfg, y) && y.server.pending == []
    ensures y.allRecvs == |y.rounds|
  {
  }

  lemma PullIsAnswered(cfg: Config, y: System, w: Worker)
    requires Sane(cfg, y) && ClientsOk(cfg, y) && FlagsOk(cfg, y) && WaitingOk(cfg, y)
    requires w < cfg.n && y.clients[w].answers < |y.clients[w].sent| <= y.allRecvs
    ensures Enabled(cfg, y, PullStep(w))
    ensures var z := Next(cfg, y, PullStep(w));
            && Onward(y, z) && z.clients[w].answers == |z.clients[w].sent|
            && z.clients[w].sent == y.clients[w].sent && z.rounds == y.rounds
            && z.server.request == y.server.request && z.server.pending == y.server.pending
            && z.server.inited == y.server.inited
  {
    assert w !in y.server.waiting;
  }

  lemma RunFacts(cfg: Config, steps: seq<Step>, y: System)
    requires cfg.Valid() && Run(cfg, steps, y)
    ensures Sane(cfg, y) && ClientsOk(cfg, y) && FlagsOk(cfg, y) && WaitingOk(cfg, y)
    ensures y.server.pending == [] ==> y.allRecvs == |y.rounds|
  {
    RunInv(cfg, steps, y);
    if y.server.pending == [] {
      QuietIsFinished(cfg, y);
    }
  }

  lemma GetAnswer(cfg: Config, steps: seq<Step>, y: System, w: Worker) returns (longer: seq<Step>, z: System)
    requires cfg.Valid() && Run(cfg, steps, y) && Quiet(y) && w < cfg.n
    requires |y.clients| == cfg.n && |y.clients[w].sent| <= |y.rounds|
    ensures steps <= longer && Run(cfg, longer, z) && Quiet(z) && Onward(y, z)
    ensures z.rounds == y.rounds && z.server.request == y.server.request
    ensures z.clients[w].answers == |z.clients[w].sent| == |y.clients[w].sent|
  {
    RunFacts(cfg, steps, y);
    if y.clients[w].answers == |y.clients[w].sent| {
      longer, z := steps, y;
    } else {
      PullIsAnswered(cfg, y, w);
      RunExtends(cfg, steps, y, PullStep(w));
      longer, z := steps + [PullStep(w)], Next(cfg, y, PullStep(w));
    }
  }

  // ---- the open round is completed ----

  lemma PushGoesOn(cfg: Config, y: System, w: Worker)
    requires Sane(cfg, y) && y.server.inited && w < cfg.n && y.clients[w].answers == |y.clients[w].sent|
    ensures Enabled(cfg, y, PushStep(w, Zero(cfg.len)))
    ensures var z := Next(cfg, y, PushStep(w, Zero(cfg.len)));
            && Onward(y, z) && z.server.inited
            && if |y.server.request| + 1 == cfg.n then |z.rounds| == |y.rounds| + 1
               else z.rounds == y.rounds && z.server.request == y.server.request + [w]
  {
  }

  /** A worker that has not pushed to the open round. */
  lemma SomeAbsent(cfg: Config, steps: seq<Step>, y: System) returns (w: Worker)
    requires cfg.Valid() && Run(cfg, steps, y) && y.server.inited
    ensures w < cfg.n == |y.clients| && |y.clients[w].sent| == |y.rounds| && |y.server.request| < cfg.n
  {
    RunInv(cfg, steps, y);
    DistinctBound(y.server.request, cfg.n);
    w :| w < cfg.n && w !in y.server.request;
  }

  lemma OneMorePush(cfg: Config, steps: seq<Step>, y: System) returns (longer: seq<Step>, z: System)
    requires cfg.Valid() && Run(cfg, steps, y) && Quiet(y) && |y.server.request| < cfg.n
    ensures steps <= longer && Run(cfg, longer, z) && Onward(y, z) && z.server.inited
    ensures |z.rounds| > |y.rounds| || (z.rounds == y.rounds && |z.server.request| > |y.server.request|)
  {
    var w := SomeAbsent(cfg, steps, y);
    var before, x := GetAnswer(cfg, steps, y, w);
    RunSane(cfg, before, x);
    PushGoesOn(cfg, x, w);
    RunExtends(cfg, before, x, PushStep(w, Zero(cfg.len)));
    longer, z := before + [PushStep(w, Zero(cfg.len))], Next(cfg, x, PushStep(w, Zero(cfg.len)));
    OnwardTransitive(y, x, z);
  }

  lemma {:induction false} CompleteOpenRound(cfg: Config, steps: seq<Step>, y: System) returns (longer: seq<Step>, z: System)
    requires cfg.Valid() && Run(cfg, steps, y) && y.server.inited
    ensures steps <= longer && Run(cfg, longer, z) && Onward(y, z) && z.server.inited && |z.rounds| > |y.rounds|
    decreases cfg.n - |y.server.request|
  {
    var before, x := RunEngine(cfg, steps, y);
    RunSane(cfg, steps, y);
    longer, z := OneMorePush(cfg, before, x);
    OnwardTransitive(y, x, z);
    if |z.rounds| == |y.rounds| {
      var w := z;
      longer, z := CompleteOpenRound(cfg, longer, w);
      OnwardTransitive(y, w, z);
    }
  }

  /** A worker that has pushed and has not been answered: the round of its push is open or complete. */
  lemma UnansweredRound(cfg: Config, steps: seq<Step>, y: System, w: Worker)
    requires cfg.Valid() && Run(cfg, steps, y) && w < |y.clients| && y.clients[w].answers < |y.clients[w].sent|
    ensures y.server.inited && |y.clients| == cfg.n && |y.clients[w].sent| == y.clients[w].answers + 1 <= |y.rounds| + 1
  {
    RunInv(cfg, steps, y);
  }

  lemma AnsweredInBook(cfg: Config, steps: seq<Step>, y: System, w: Worker, r: nat)
    requires cfg.Valid() && Run(cfg, steps, y) && w < |y.clients| && 1 <= r <= y.clients[w].answers
    ensures Answered(y.replies, w, r)
  {
    RunInv(cfg, steps, y);
  }

  /** A complete round to which the worker has pushed is answered to it. */
  lemma FinishRound(cfg: Config, steps: seq<Step>, y: System, w: Worker, r: nat) returns (longer: seq<Step>, z: System)
    requires cfg.Valid() && Run(cfg, steps, y) && y.server.inited && w < |y.clients| == cfg.n
    requires r <= |y.rounds| && r <= |y.clients[w].sent|
    ensures steps <= longer && Run(cfg, longer, z) && |z.clients| == cfg.n && z.clients[w].answers >= r
  {
    var before, x := RunEngine(cfg, steps, y);
    RunFacts(cfg, before, x);
    if x.clients[w].answers >= r {
      longer, z := before, x;
    } else {
      longer, z := GetAnswer(cfg, before, x, w);
    }
  }

  /** Whatever has happened, a worker that has pushed, waiting in the pull queue or not, can still get
      the answer of that round: some continuation of the run sends it. */
  lemma PullGetsAnswered(cfg: Config, steps: seq<Step>, y: System, w: Worker) returns (longer: seq<Step>, z: System)
    requires cfg.Valid() && Run(cfg, steps, y) && w < |y.clients| && y.clients[w].answers < |y.clients[w].sent|
    ensures steps <= longer && Run(cfg, longer, z)
    ensures !Answered(y.replies, w, |y.clients[w].sent|) && Answered(z.replies, w, |y.clients[w].sent|)
  {
    UnansweredRound(cfg, steps, y, w);
    var r := |y.clients[w].sent|;
    var before, x := steps, y;
    if |y.rounds| < r {
      before, x := CompleteOpenRound(cfg, steps, y);
    }
    longer, z := FinishRound(cfg, before, x, w, r);
    AnsweredInBook(cfg, longer, z, w, r);
    NotAnsweredYet(cfg, steps, y, w, r);
  }

  lemma NotAnsweredYet(cfg: Config, steps: seq<Step>, y: System, w: Worker, r: nat)
    requires cfg.Valid() && Run(cfg, steps, y) && w < |y.clients| && r > y.clients[w].answers
    ensures !Answered(y.replies, w, r)
  {
    RunInv(cfg, steps, y);
  }
}
