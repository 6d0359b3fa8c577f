/** What workers can rely on in every run of the round protocol: the value of each answer, the
    exact condition under which a late answer is right, and the absence of deadlock. */
module RoundTheorems {
  import opened Sequences
  import opened Tensors
  import opened Reducers
  import opened RoundProtocol
  import opened RoundSafety
  import Robustness

  // ---- a round is one gradient per worker, in some order ----

  ghost function Pick(ws: seq<Worker>, f: seq<Vec>): (r: seq<Vec>)
    requires Below(ws, |f|)
    ensures |r| == |ws|
    ensures forall j :: 0 <= j < |ws| ==> r[j] == f[ws[j]]
  {
    seq(|ws|, j requires 0 <= j < |ws| => f[ws[j]])
  }

  lemma DropTop(ws: seq<Worker>, f: seq<Vec>, k: nat)
    requires Distinct(ws) && Below(ws, |f|) && k < |ws| && f != [] && ws[k] == |f| - 1
    ensures Distinct(Without(ws, k)) && Below(Without(ws, k), |f| - 1)
    ensures Without(Pick(ws, f), k) == Pick(Without(ws, k), f[..|f| - 1])
  {
    var rest := Without(ws, k);
    assert forall i :: 0 <= i < |rest| ==> rest[i] == if i < k then ws[i] else ws[i + 1];
  }

  lemma PositionOf(ws: seq<Worker>, n: nat, w: Worker) returns (k: nat)
    requires Distinct(ws) && Below(ws, n) && |ws| == n && w < n
    ensures k < |ws| && ws[k] == w
  {
    DistinctBound(ws, n);
    assert w in ws;
    k :| k < |ws| && ws[k] == w;
  }

  lemma PutBack<T>(s: seq<T>, f: seq<T>, k: nat)
    requires k < |s| && f != [] && s[k] == f[|f| - 1]
    requires multiset(Without(s, k)) == multiset(f[..|f| - 1])
    ensures multiset(s) == multiset(f)
  {
    WithoutMembers(s, k);
    assert f == f[..|f| - 1] + [f[|f| - 1]];
  }

  lemma {:induction false} PickPermutes(ws: seq<Worker>, f: seq<Vec>)
    requires Distinct(ws) && Below(ws, |f|) && |ws| == |f|
    ensures multiset(Pick(ws, f)) == multiset(f)
    decreases |f|
  {
    if f == [] {
      assert Pick(ws, f) == f;
    } else {
      var k := PositionOf(ws, |f|, |f| - 1);
      DropTop(ws, f, k);
      PickPermutes(Without(ws, k), f[..|f| - 1]);
      PutBack(Pick(ws, f), f, k);
    }
  }

  /** The gradients that the workers sent in round `r + 1`, in worker order. */
  ghost function RoundGradients(y: System, r: nat): (g: seq<Vec>)
    requires forall w :: 0 <= w < |y.clients| ==> r < |y.clients[w].sent|
    ensures |g| == |y.clients|
  {
    seq(|y.clients|, w requires 0 <= w < |y.clients| => y.clients[w].sent[r])
  }

  lemma CompleteRound(cfg: Config, y: System, r: nat)
    requires cfg.Valid() && ClientsOk(cfg, y) && RoundsOk(cfg, y) && r < |y.rounds|
    ensures forall w :: 0 <= w < |y.clients| ==> r < |y.clients[w].sent|
    ensures Uniform(RoundGradients(y, r), cfg.len) && Uniform(Grads(y.rounds[r]), cfg.len)
    ensures Reduce(cfg.mode, Grads(y.rounds[r]), cfg.len) == Reduce(cfg.mode, RoundGradients(y, r), cfg.len)
  {
    var cs := y.rounds[r];
    assert FromRound(y, cs, r);
    var ws := Senders(cs);
    DistinctBound(ws, cfg.n);
    forall w | 0 <= w < cfg.n ensures r < |y.clients[w].sent| {
      assert w in ws;
      var j :| 0 <= j < |ws| && ws[j] == w;
      assert cs[j].worker == w;
    }
    AcceptedUniform(cfg, y, r);
    var f := RoundGradients(y, r);
    PickPermutes(ws, f);
    assert Pick(ws, f) == Grads(cs);
    Robustness.OrderIndependent(cfg.mode, Grads(cs), f, cfg.len);
  }

  ghost predicate AnswerExact(cfg: Config, y: System, p: Reply)
    requires cfg.Valid()
  {
    && 1 <= p.round && p.worker < |y.clients| == cfg.n
    && (forall w :: 0 <= w < |y.clients| ==> p.round - 1 < |y.clients[w].sent|)
    && Uniform(RoundGradients(y, p.round - 1), cfg.len)
    && p.ahead <= |y.Accepted(p.round)| && Uniform(Grads(y.Accepted(p.round)), cfg.len)
    && p.value == if p.ahead == 0 then Reduce(cfg.mode, RoundGradients(y, p.round - 1), cfg.len)
                  else SumRows(Grads(y.Accepted(p.round))[..p.ahead], cfg.len)
  }

  lemma ReplyExact(cfg: Config, y: System, p: Reply)
    requires ReplyOk(cfg, y, p) && |y.clients| == cfg.n
    requires forall w :: 0 <= w < |y.clients| ==> p.round - 1 < |y.clients[w].sent|
    requires Uniform(RoundGradients(y, p.round - 1), cfg.len)
    requires Reduce(cfg.mode, Grads(y.rounds[p.round - 1]), cfg.len)
             == Reduce(cfg.mode, RoundGradients(y, p.round - 1), cfg.len)
    ensures AnswerExact(cfg, y, p)
  {
  }

  lemma CompleteReply(cfg: Config, y: System, p: Reply)
    requires ClientsOk(cfg, y) && RoundsOk(cfg, y) && ReplyOk(cfg, y, p)
    ensures AnswerExact(cfg, y, p)
  {
    CompleteRound(cfg, y, p.round - 1);
    ReplyExact(cfg, y, p);
  }

  lemma InvReply(cfg: Config, y: System, i: nat)
    requires cfg.Valid() && Inv(cfg, y) && i < |y.replies|
    ensures AnswerExact(cfg, y, y.replies[i])
    ensures y.replies[i].byEngine ==> y.replies[i].ahead == 0
  {
    assert ReplyOk(cfg, y, y.replies[i]);
    CompleteReply(cfg, y, y.replies[i]);
  }

  /** Value correctness over every run. An answer to a pull of round r carries the reduction of the
      gradients the workers sent in round r, whatever order they arrived in, unless `ahead`
      gradients of the next round were already in the store; then it carries their sum instead.
      Answers sent by the engine are never late. */
  lemma AnswersExact(cfg: Config, steps: seq<Step>, y: System, i: nat)
    requires cfg.Valid() && Run(cfg, steps, y) && i < |y.replies|
    ensures AnswerExact(cfg, y, y.replies[i])
    ensures y.replies[i].byEngine ==> y.replies[i].ahead == 0
  {
    RunInv(cfg, steps, y);
    InvReply(cfg, y, i);
  }

  // ---- no deadlock ----

  /** In every reachable state the engine has work or some worker has a request to make. */
  lemma NeverStuck(cfg: Config, steps: seq<Step>, y: System) returns (step: Step)
    requires cfg.Valid() && Run(cfg, steps, y)
    ensures Enabled(cfg, y, step)
  {
    RunInv(cfg, steps, y);
    if y.server.pending != [] {
      step := EngineStep;
    } else {
      DistinctBound(y.server.request, cfg.n);
      var w: Worker :| w < cfg.n && w !in y.server.request;
      assert |y.rounds| == y.allRecvs;
      if y.server.inited && y.clients[w].pulls < |y.clients[w].sent| {
        step := PullStep(w);
      } else {
        step := PushStep(w, Zero(cfg.len));
      }
    }
  }
}
