/** The late answer that misses its round really happens: with two or more workers, whatever the
    tensor length and the reduction mode, some run leads to it. */
module LateWitness {
  import opened Tensors
  import opened RoundProtocol
  import opened RoundSafety
  import opened LatePulls

  ghost function FirstWorkers(k: nat): (s: seq<Worker>)
    ensures |s| == k && forall i :: 0 <= i < k ==> s[i] == i
  {
    seq(k, i requires 0 <= i < k => i)
  }

  /** No worker has pulled yet. */
  ghost predicate NoPulls(cfg: Config, y: System) {
    && |y.clients| == cfg.n && y.server.waiting == []
    && forall w :: 0 <= w < cfg.n ==> y.clients[w].pulls == 0 && y.clients[w].answers == 0
  }

  lemma RunRequest(cfg: Config, steps: seq<Step>, y: System)
    requires cfg.Valid() && Run(cfg, steps, y)
    ensures Sane(cfg, y) && RequestOk(cfg, y)
  {
    RunInv(cfg, steps, y);
  }

  /** Worker `w` initialises the key. */
  lemma InitialPush(cfg: Config, y: System, w: Worker) returns (z: System)
    requires Sane(cfg, y) && NoPulls(cfg, y) && w < cfg.n && y.rounds == []
    requires !y.server.inited && y.server.request == FirstWorkers(w)
    ensures Enabled(cfg, y, PushStep(w, Zero(cfg.len))) && z == Next(cfg, y, PushStep(w, Zero(cfg.len)))
    ensures NoPulls(cfg, z) && z.rounds == []
    ensures if w + 1 < cfg.n then !z.server.inited && z.server.request == FirstWorkers(w + 1)
            else z.server.inited && z.server.request == []
  {
    z := Next(cfg, y, PushStep(w, Zero(cfg.len)));
    assert FirstWorkers(w) + [w] == FirstWorkers(w + 1);
  }

  lemma Initialised(cfg: Config) returns (steps: seq<Step>, y: System)
    requires cfg.Valid()
    ensures Run(cfg, steps, y) && NoPulls(cfg, y) && y.rounds == []
    ensures y.server.inited && y.server.request == []
  {
    steps, y := [], Start(cfg);
    assert y.server.request == FirstWorkers(0);
    for w := 0 to cfg.n
      invariant Run(cfg, steps, y) && NoPulls(cfg, y) && y.rounds == []
      invariant if w < cfg.n then !y.server.inited && y.server.request == FirstWorkers(w)
                else y.server.inited && y.server.request == []
    {
      RunRequest(cfg, steps, y);
      var z := InitialPush(cfg, y, w);
      RunExtends(cfg, steps, y, PushStep(w, Zero(cfg.len)));
      steps, y := steps + [PushStep(w, Zero(cfg.len))], z;
    }
  }

  /** Worker `w` pushes to the first round. */
  lemma FirstRoundPush(cfg: Config, y: System, w: Worker) returns (z: System)
    requires Sane(cfg, y) && NoPulls(cfg, y) && w < cfg.n && y.clients[w].sent == []
    requires y.server.inited && y.rounds == [] && y.server.request == FirstWorkers(w)
    ensures Enabled(cfg, y, PushStep(w, Zero(cfg.len))) && z == Next(cfg, y, PushStep(w, Zero(cfg.len)))
    ensures NoPulls(cfg, z) && z.server.inited
    ensures if w + 1 < cfg.n then z.rounds == [] && z.server.request == FirstWorkers(w + 1)
            else |z.rounds| == 1
  {
    z := Next(cfg, y, PushStep(w, Zero(cfg.len)));
    assert FirstWorkers(w) + [w] == FirstWorkers(w + 1);
  }

  lemma FirstRound(cfg: Config) returns (steps: seq<Step>, y: System)
    requires cfg.Valid()
    ensures Run(cfg, steps, y) && NoPulls(cfg, y) && y.server.inited && |y.rounds| == 1
  {
    steps, y := Initialised(cfg);
    assert y.server.request == FirstWorkers(0);
    for w := 0 to cfg.n
      invariant Run(cfg, steps, y) && NoPulls(cfg, y) && y.server.inited
      invariant if w < cfg.n then y.rounds == [] && y.server.request == FirstWorkers(w)
                else |y.rounds| == 1
    {
      RunRequest(cfg, steps, y);
      assert w !in y.server.request;
      var z := FirstRoundPush(cfg, y, w);
      RunExtends(cfg, steps, y, PushStep(w, Zero(cfg.len)));
      steps, y := steps + [PushStep(w, Zero(cfg.len))], z;
    }
  }

  /** With no pull queued, an engine step answers nobody. */
  lemma QuietEngineStep(cfg: Config, steps: seq<Step>, y: System) returns (z: System)
    requires cfg.Valid() && Run(cfg, steps, y) && NoPulls(cfg, y) && y.server.pending != []
    ensures Run(cfg, steps + [EngineStep], z) && NoPulls(cfg, z)
    ensures z.rounds == y.rounds && z.server.inited == y.server.inited
    ensures if y.server.pending[0].AllRecv? && !y.server.reduced
            then z.server.reduced && z.server.pending == y.server.pending
            else z.server.pending == y.server.pending[1..]
  {
    RunSane(cfg, steps, y);
    z := Next(cfg, y, EngineStep);
    RunExtends(cfg, steps, y, EngineStep);
  }

  lemma FirstRoundDone(cfg: Config) returns (steps: seq<Step>, y: System)
    requires cfg.Valid()
    ensures Run(cfg, steps, y) && NoPulls(cfg, y) && y.server.inited
    ensures |y.rounds| == 1 && y.server.pending == []
  {
    steps, y := FirstRound(cfg);
    while y.server.pending != []
      invariant Run(cfg, steps, y) && NoPulls(cfg, y) && y.server.inited && |y.rounds| == 1
      decreases |y.server.pending|, !y.server.reduced
    {
      var z := QuietEngineStep(cfg, steps, y);
      steps, y := steps + [EngineStep], z;
    }
  }

  /** The first round is finished and nobody has been answered. */
  ghost predicate Finished(cfg: Config, y: System) {
    && Sane(cfg, y) && NoPulls(cfg, y) && y.server.inited && y.server.pending == []
    && y.allRecvs == 1 && y.server.finished && y.server.pullCnt == 0 && y.server.seen == {}
    && y.server.request == []
    && forall w :: 0 <= w < cfg.n ==> |y.clients[w].sent| == 1
  }

  lemma AfterFirstRound(cfg: Config, y: System)
    requires Inv(cfg, y) && NoPulls(cfg, y) && y.server.inited && |y.rounds| == 1 && y.server.pending == []
    ensures Finished(cfg, y)
  {
    assert y.clients[0].answers == 0;
  }

  /** Worker 0 is answered, pushes again, and its gradient overwrites the store. */
  lemma Overtaken(cfg: Config, y: System) returns (a: System, b: System, z: System)
    requires Finished(cfg, y) && cfg.n >= 2
    ensures Enabled(cfg, y, PullStep(0)) && a == Next(cfg, y, PullStep(0)) && Sane(cfg, a)
    ensures Enabled(cfg, a, PushStep(0, Zero(cfg.len))) && b == Next(cfg, a, PushStep(0, Zero(cfg.len))) && Sane(cfg, b)
    ensures Enabled(cfg, b, EngineStep) && z == Next(cfg, b, EngineStep)
    ensures LatePull(cfg, z, 1) && z.executed > 0
  {
    a := Next(cfg, y, PullStep(0));
    b := Next(cfg, a, PushStep(0, Zero(cfg.len)));
    assert b.server.pending[0] == CopyFirst(Store, Zero(cfg.len));
    z := Next(cfg, b, EngineStep);
  }

  lemma LatePullHappens(cfg: Config) returns (steps: seq<Step>, y: System)
    requires cfg.Valid() && cfg.n >= 2
    ensures Run(cfg, steps, y) && LatePull(cfg, y, 1) && y.executed > 0
    ensures !AlwaysRight(cfg, steps, 1)
  {
    var s, x := FirstRoundDone(cfg);
    RunInv(cfg, s, x);
    AfterFirstRound(cfg, x);
    var a, b: System;
    a, b, y := Overtaken(cfg, x);
    RunExtends(cfg, s, x, PullStep(0));
    RunExtends(cfg, s + [PullStep(0)], a, PushStep(0, Zero(cfg.len)));
    steps := s + [PullStep(0)] + [PushStep(0, Zero(cfg.len))] + [EngineStep];
    RunExtends(cfg, s + [PullStep(0)] + [PushStep(0, Zero(cfg.len))], b, EngineStep);
    LateNotAlwaysRight(cfg, steps, y, 1);
  }
}
