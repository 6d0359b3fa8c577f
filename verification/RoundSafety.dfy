/** Safety of the round protocol over every run: an inductive invariant of the closed system of
    one key, and what it says about the answers workers receive. */
module RoundSafety {
  import opened Tensors
  import opened Reducers
  import opened RoundProtocol

  // ---- counting workers ----

  ghost predicate Distinct(s: seq<Worker>) {
    forall i, j :: 0 <= i < j < |s| ==> s[i] != s[j]
  }

  ghost predicate Below(s: seq<Worker>, n: nat) {
    forall i :: 0 <= i < |s| ==> s[i] < n
  }

  ghost function Everyone(n: nat): (s: set<Worker>)
    ensures |s| == n
    ensures forall w: Worker :: w in s <==> w < n
  {
    if n == 0 then {} else Everyone(n - 1) + {n - 1}
  }

  ghost function Elements(s: seq<Worker>): (r: set<Worker>)
    ensures forall w :: w in r <==> w in s
  {
    set w | w in s
  }

  lemma {:induction false} DistinctCard(s: seq<Worker>)
    requires Distinct(s)
    ensures |Elements(s)| == |s|
  {
    if s != [] {
      var k := |s| - 1;
      DistinctCard(s[..k]);
      assert Elements(s) == Elements(s[..k]) + {s[k]};
    } else {
      assert Elements(s) == {};
    }
  }

  lemma SubsetCard(a: set<Worker>, b: set<Worker>)
    requires a <= b
    ensures |a| <= |b|
    ensures |a| == |b| ==> a == b
  {
    assert b == a + (b - a);
    assert |b| == |a| + |b - a|;
  }

  lemma DistinctBound(s: seq<Worker>, n: nat)
    requires Distinct(s) && Below(s, n)
    ensures |s| <= n
    ensures |s| == n ==> forall w: Worker :: w < n ==> w in s
    ensures |s| < n ==> exists w: Worker :: w < n && w !in s
  {
    DistinctCard(s);
    SubsetCard(Elements(s), Everyone(n));
    if |s| < n {
      if forall w: Worker :: w < n ==> w in s {
        assert Everyone(n) <= Elements(s);
        SubsetCard(Everyone(n), Elements(s));
      }
    }
  }

  // ---- the invariant ----

  ghost function Senders(cs: seq<Contribution>): (r: seq<Worker>)
    ensures |r| == |cs|
    ensures forall j :: 0 <= j < |cs| ==> r[j] == cs[j].worker
  {
    seq(|cs|, j requires 0 <= j < |cs| => cs[j].worker)
  }

  ghost function Grads(cs: seq<Contribution>): (r: seq<Vec>)
    ensures |r| == |cs|
    ensures forall j :: 0 <= j < |cs| ==> r[j] == cs[j].grad
  {
    seq(|cs|, j requires 0 <= j < |cs| => cs[j].grad)
  }

  /** The pushes in `cs` come from different workers and carry their senders' gradients of round
      `r + 1`. */
  ghost predicate FromRound(y: System, cs: seq<Contribution>, r: nat) {
    && Distinct(Senders(cs))
    && forall j :: 0 <= j < |cs| ==>
         var c := cs[j];
         c.worker < |y.clients| && r < |y.clients[c.worker].sent| && c.grad == y.clients[c.worker].sent[r]
  }

  ghost predicate ClientsOk(cfg: Config, y: System) {
    && |y.clients| == cfg.n
    && (forall w :: 0 <= w < cfg.n ==>
          var c := y.clients[w];
          c.answers <= c.pulls <= |c.sent| <= c.answers + 1)
    && (forall w, r :: 0 <= w < cfg.n && 0 <= r < |y.clients[w].sent| ==> |y.clients[w].sent[r]| == cfg.len)
  }

  ghost predicate RoundsOk(cfg: Config, y: System) {
    && y.allRecvs <= |y.rounds| <= y.allRecvs + 1
    && (|y.rounds| > y.allRecvs ==> y.current == [])
    && (forall r :: 0 <= r < |y.rounds| ==> |y.rounds[r]| == cfg.n && FromRound(y, y.rounds[r], r))
    && |y.current| < cfg.n && FromRound(y, y.current, |y.rounds|)
  }

  /** Every worker has pushed to all complete rounds, and the senders in the open round once more. */
  ghost predicate RequestOk(cfg: Config, y: System) {
    && |y.clients| == cfg.n
    && Distinct(y.server.request) && Below(y.server.request, cfg.n)
    && (if y.server.inited then
          && y.server.request == Senders(y.current)
          && (y.rounds != [] || y.current != [] ==> y.server.routed)
          && forall w :: 0 <= w < cfg.n ==>
               |y.clients[w].sent| == |y.rounds| + (if w in y.server.request then 1 else 0)
        else
          && y.current == [] && y.rounds == [] && y.server.pending == []
          && forall w :: 0 <= w < cfg.n ==> y.clients[w].sent == [])
  }

  ghost predicate FlagsOk(cfg: Config, y: System) {
    && |y.clients| == cfg.n
    && (forall w :: 0 <= w < cfg.n ==> y.clients[w].answers <= y.allRecvs)
    && y.server.pullCnt == |y.server.seen| < cfg.n
    && (forall w :: w in y.server.seen ==> w < cfg.n)
    && (if y.server.finished then
          && y.allRecvs > 0 && y.server.merged
          && forall w :: 0 <= w < cfg.n ==>
               y.clients[w].answers == y.allRecvs - (if w in y.server.seen then 0 else 1)
        else
          && y.server.seen == {}
          && forall w :: 0 <= w < cfg.n ==> y.clients[w].answers == y.allRecvs)
  }

  ghost predicate WaitingOk(cfg: Config, y: System) {
    && |y.clients| == cfg.n
    && Distinct(y.server.waiting) && Below(y.server.waiting, cfg.n)
    && forall w :: 0 <= w < cfg.n ==>
         && (w in y.server.waiting <==> y.clients[w].pulls == y.clients[w].answers + 1)
         && (w in y.server.waiting ==> y.clients[w].answers == y.allRecvs)
  }

  /** The i-th data message the handler enqueues for a round: for each push one message for the
      store and one for its replica slot. */
  ghost function Script(cfg: Config, cs: seq<Contribution>, i: nat): Msg
    requires i < 2 * |cs|
  {
    var g := cs[i / 2].grad;
    if i == 0 then CopyFirst(Store, g)
    else if i % 2 == 0 then SumRecv(g)
    else
      assert (i / 2) * cfg.len >= 0;
      CopyFirst(Replica((i / 2) * cfg.len), g)
  }

  /** The queue holds the rest of the round's script, and the finish message if it is complete. */
  ghost predicate QueueHolds(cfg: Config, pending: seq<Msg>, cs: seq<Contribution>, executed: nat, complete: bool) {
    && executed <= 2 * |cs|
    && |pending| == 2 * |cs| - executed + (if complete then 1 else 0)
    && (forall i :: executed <= i < 2 * |cs| ==> pending[i - executed] == Script(cfg, cs, i))
    && (complete ==> pending[2 * |cs| - executed] == AllRecv)
  }

  ghost predicate QueueOk(cfg: Config, y: System) {
    && QueueHolds(cfg, y.server.pending, y.Working(), y.executed, |y.rounds| > y.allRecvs)
    && (y.server.reduced ==> |y.rounds| > y.allRecvs && y.executed == 2 * |y.Working()|)
  }

  /** The store holds the sum of the gradients executed so far, and the replica slots hold them. */
  ghost predicate MemHolds(cfg: Config, mem: Mem, grads: seq<Vec>, executed: nat) {
    && |mem.store| == cfg.len && |mem.replica| == cfg.n * cfg.len
    && Uniform(grads, cfg.len) && executed <= 2 * |grads| && |grads| <= cfg.n
    && mem.store == SumRows(grads[..(executed + 1) / 2], cfg.len)
    && SlotsHold(mem.replica, cfg.n, cfg.len, grads[..executed / 2])
  }

  ghost predicate RoundsUniform(cfg: Config, y: System) {
    forall r :: 0 <= r < |y.rounds| ==> |y.rounds[r]| == cfg.n && Uniform(Grads(y.rounds[r]), cfg.len)
  }

  ghost predicate MemOk(cfg: Config, y: System) {
    && cfg.Valid() && RoundsUniform(cfg, y) && y.allRecvs <= |y.rounds|
    && (y.executed > 0 && !y.server.reduced ==>
          y.server.inited && MemHolds(cfg, y.server.mem, Grads(y.Working()), y.executed))
    && (y.executed == 0 && y.allRecvs > 0 ==>
          y.server.mem.store == Reduce(cfg.mode, Grads(y.rounds[y.allRecvs - 1]), cfg.len))
    && (y.server.reduced ==>
          && |y.rounds| > y.allRecvs && y.server.merged && y.executed > 0
          && y.server.mem.store == Reduce(cfg.mode, Grads(y.rounds[|y.rounds| - 1]), cfg.len))
  }

  /** What an answer carries: the reduction of its round, unless gradients of the next round were
      already in the store; then their sum so far. */
  ghost predicate ReplyOk(cfg: Config, y: System, p: Reply) {
    && cfg.Valid() && p.worker < |y.clients|
    && 1 <= p.round <= y.clients[p.worker].answers && p.round <= |y.rounds|
    && p.allRecvs == p.round
    && (p.byEngine ==> p.ahead == 0)
    && |y.rounds[p.round - 1]| == cfg.n && Uniform(Grads(y.rounds[p.round - 1]), cfg.len)
    && p.ahead <= |y.Accepted(p.round)| && Uniform(Grads(y.Accepted(p.round)), cfg.len)
    && p.value == if p.ahead == 0 then Reduce(cfg.mode, Grads(y.rounds[p.round - 1]), cfg.len)
                  else SumRows(Grads(y.Accepted(p.round))[..p.ahead], cfg.len)
  }

  ghost predicate Answered(replies: seq<Reply>, w: Worker, r: nat) {
    exists i :: 0 <= i < |replies| && replies[i].worker == w && replies[i].round == r
  }

  /** Each worker has been answered for its rounds 1, 2, ... in order, once each. */
  ghost predicate BookOk(clients: seq<Client>, replies: seq<Reply>) {
    && (forall i :: 0 <= i < |replies| ==>
          replies[i].worker < |clients| && replies[i].round <= clients[replies[i].worker].answers)
    && (forall i, j :: 0 <= i < j < |replies| && replies[i].worker == replies[j].worker ==>
          replies[i].round < replies[j].round)
    && (forall w, r :: 0 <= w < |clients| && 1 <= r <= clients[w].answers ==> Answered(replies, w, r))
  }

  ghost predicate RepliesOk(cfg: Config, y: System) {
    && (forall i :: 0 <= i < |y.replies| ==> ReplyOk(cfg, y, y.replies[i]))
    && BookOk(y.clients, y.replies)
  }

  ghost predicate Inv(cfg: Config, y: System) {
    && Sane(cfg, y)
    && ClientsOk(cfg, y) && RoundsOk(cfg, y) && RequestOk(cfg, y) && FlagsOk(cfg, y)
    && WaitingOk(cfg, y) && QueueOk(cfg, y) && MemOk(cfg, y) && RepliesOk(cfg, y)
  }

  lemma StartInv(cfg: Config)
    requires cfg.Valid()
    ensures Inv(cfg, Start(cfg))
  {
  }

  // ---- pushes ----

  lemma PushClients(cfg: Config, y: System, w: Worker, g: Vec)
    requires Sane(cfg, y) && Enabled(cfg, y, PushStep(w, g)) && ClientsOk(cfg, y)
    ensures Sane(cfg, Next(cfg, y, PushStep(w, g)))
    ensures ClientsOk(cfg, Next(cfg, y, PushStep(w, g)))
  {
  }

  /** A push is accepted only when the engine has finished the previous round. */
  lemma PushOpensRound(cfg: Config, y: System, w: Worker)
    requires RoundsOk(cfg, y) && RequestOk(cfg, y) && FlagsOk(cfg, y)
    requires y.server.inited && w < cfg.n && y.clients[w].answers == |y.clients[w].sent|
    ensures w !in y.server.request && |y.rounds| == y.allRecvs == |y.clients[w].sent|
  {
  }

  lemma PushKeepsRound(y: System, z: System, w: Worker, g: Vec, cs: seq<Contribution>, r: nat)
    requires FromRound(y, cs, r) && w < |y.clients|
    requires z.clients == y.clients[w := y.clients[w].(sent := y.clients[w].sent + [g])]
    ensures FromRound(z, cs, r)
  {
  }

  lemma PushExtendsRound(y: System, z: System, w: Worker, g: Vec, cs: seq<Contribution>, r: nat)
    requires FromRound(y, cs, r) && w < |y.clients| && w !in Senders(cs) && r == |y.clients[w].sent|
    requires z.clients == y.clients[w := y.clients[w].(sent := y.clients[w].sent + [g])]
    ensures FromRound(z, cs + [Contribution(w, g)], r)
    ensures Senders(cs + [Contribution(w, g)]) == Senders(cs) + [w]
  {
    assert Senders(cs + [Contribution(w, g)]) == Senders(cs) + [w];
  }

  lemma PushRounds(cfg: Config, y: System, w: Worker, g: Vec)
    requires Sane(cfg, y) && Enabled(cfg, y, PushStep(w, g))
    requires RoundsOk(cfg, y) && RequestOk(cfg, y) && FlagsOk(cfg, y)
    ensures RoundsOk(cfg, Next(cfg, y, PushStep(w, g)))
  {
    var z := Next(cfg, y, PushStep(w, g));
    if y.server.inited {
      PushOpensRound(cfg, y, w);
      forall r | 0 <= r < |y.rounds| ensures FromRound(z, y.rounds[r], r) {
        PushKeepsRound(y, z, w, g, y.rounds[r], r);
      }
      PushExtendsRound(y, z, w, g, y.current, |y.rounds|);
    }
  }

  lemma PushRequest(cfg: Config, y: System, w: Worker, g: Vec)
    requires Sane(cfg, y) && Enabled(cfg, y, PushStep(w, g))
    requires RoundsOk(cfg, y) && RequestOk(cfg, y) && FlagsOk(cfg, y)
    ensures RequestOk(cfg, Next(cfg, y, PushStep(w, g)))
  {
    var z := Next(cfg, y, PushStep(w, g));
    if y.server.inited {
      PushOpensRound(cfg, y, w);
      DistinctBound(y.server.request + [w], cfg.n);
      assert Senders(y.current + [Contribution(w, g)]) == y.server.request + [w];
      forall v | 0 <= v < cfg.n
        ensures v in y.server.request + [w] <==> v in y.server.request || v == w
      {
      }
    }
  }

  lemma PushFlags(cfg: Config, y: System, w: Worker, g: Vec)
    requires Sane(cfg, y) && Enabled(cfg, y, PushStep(w, g))
    requires FlagsOk(cfg, y) && WaitingOk(cfg, y)
    ensures FlagsOk(cfg, Next(cfg, y, PushStep(w, g)))
    ensures WaitingOk(cfg, Next(cfg, y, PushStep(w, g)))
  {
  }

  /** What an accepted push does to the engine queue and to the round the engine works on. */
  lemma PushWorking(cfg: Config, y: System, w: Worker, g: Vec)
    requires Sane(cfg, y) && Enabled(cfg, y, PushStep(w, g)) && y.server.inited
    requires |y.rounds| == y.allRecvs && y.server.request == Senders(y.current)
    ensures var z := Next(cfg, y, PushStep(w, g));
            z.Working() == y.current + [Contribution(w, g)]
  {
  }

  lemma QueueExtends(cfg: Config, pending: seq<Msg>, cs: seq<Contribution>, executed: nat, c: Contribution)
    requires QueueHolds(cfg, pending, cs, executed, false)
    ensures |cs| * cfg.len >= 0
    ensures var head := if cs == [] then CopyFirst(Store, c.grad) else SumRecv(c.grad);
            var longer := pending + [head, CopyFirst(Replica(|cs| * cfg.len), c.grad)];
            && QueueHolds(cfg, longer, cs + [c], executed, false)
            && QueueHolds(cfg, longer + [AllRecv], cs + [c], executed, true)
  {
    SlotBounds(|cs| + 1, cfg.len, |cs|);
    var head := if cs == [] then CopyFirst(Store, c.grad) else SumRecv(c.grad);
    var longer := pending + [head, CopyFirst(Replica(|cs| * cfg.len), c.grad)];
    forall i | executed <= i < 2 * |cs + [c]| ensures longer[i - executed] == Script(cfg, cs + [c], i) {
      if i < 2 * |cs| {
        assert Script(cfg, cs + [c], i) == Script(cfg, cs, i);
      }
    }
  }

  lemma PushQueue(cfg: Config, y: System, w: Worker, g: Vec)
    requires Sane(cfg, y) && Enabled(cfg, y, PushStep(w, g)) && y.server.inited
    requires |y.rounds| == y.allRecvs && y.server.request == Senders(y.current)
    requires QueueOk(cfg, y)
    ensures QueueOk(cfg, Next(cfg, y, PushStep(w, g)))
  {
    PushWorking(cfg, y, w, g);
    QueueExtends(cfg, y.server.pending, y.current, y.executed, Contribution(w, g));
  }

  lemma MemExtends(cfg: Config, mem: Mem, cs: seq<Contribution>, executed: nat, c: Contribution)
    requires MemHolds(cfg, mem, Grads(cs), executed) && |cs| < cfg.n && |c.grad| == cfg.len
    ensures MemHolds(cfg, mem, Grads(cs + [c]), executed)
  {
    var grads := Grads(cs + [c]);
    assert grads == Grads(cs) + [c.grad];
    assert grads[..(executed + 1) / 2] == Grads(cs)[..(executed + 1) / 2];
    assert grads[..executed / 2] == Grads(cs)[..executed / 2];
  }

  lemma PushUniform(cfg: Config, y: System, w: Worker, g: Vec)
    requires Sane(cfg, y) && Enabled(cfg, y, PushStep(w, g)) && y.server.inited
    requires RoundsUniform(cfg, y) && Uniform(Grads(y.current), cfg.len) && y.server.request == Senders(y.current)
    ensures RoundsUniform(cfg, Next(cfg, y, PushStep(w, g)))
  {
    var current := y.current + [Contribution(w, g)];
    assert Grads(current) == Grads(y.current) + [g];
  }

  lemma PushMem(cfg: Config, y: System, w: Worker, g: Vec)
    requires Sane(cfg, y) && Enabled(cfg, y, PushStep(w, g)) && y.server.inited
    requires |y.rounds| == y.allRecvs && y.server.request == Senders(y.current)
    requires Uniform(Grads(y.current), cfg.len) && |y.current| < cfg.n
    requires !y.server.reduced && MemOk(cfg, y)
    ensures MemOk(cfg, Next(cfg, y, PushStep(w, g)))
  {
    PushWorking(cfg, y, w, g);
    PushUniform(cfg, y, w, g);
    if y.executed > 0 {
      MemExtends(cfg, y.server.mem, y.current, y.executed, Contribution(w, g));
    }
  }

  // ---- answers already sent stay right ----

  lemma AcceptedUniform(cfg: Config, y: System, r: nat)
    requires ClientsOk(cfg, y) && RoundsOk(cfg, y) && r <= |y.rounds|
    ensures Uniform(Grads(y.Accepted(r)), cfg.len)
  {
    assert FromRound(y, y.Accepted(r), r);
  }

  lemma ReplyStable(cfg: Config, y: System, z: System, p: Reply)
    requires ReplyOk(cfg, y, p) && ClientsOk(cfg, z) && RoundsOk(cfg, z)
    requires |y.clients| == |z.clients| && y.rounds <= z.rounds
    requires y.clients[p.worker].answers <= z.clients[p.worker].answers
    requires y.Accepted(p.round) <= z.Accepted(p.round)
    ensures ReplyOk(cfg, z, p)
  {
    AcceptedUniform(cfg, z, p.round);
    assert Grads(z.Accepted(p.round))[..p.ahead] == Grads(y.Accepted(p.round))[..p.ahead];
  }

  /** Answers already sent stay right when the history only grows. */
  lemma RepliesStable(cfg: Config, y: System, z: System)
    requires RepliesOk(cfg, y) && ClientsOk(cfg, z) && RoundsOk(cfg, z)
    requires |y.clients| == |z.clients| && y.rounds <= z.rounds
    requires forall v :: 0 <= v < |y.clients| ==> y.clients[v].answers <= z.clients[v].answers
    requires forall r: nat :: r <= |y.rounds| ==> y.Accepted(r) <= z.Accepted(r)
    ensures forall i :: 0 <= i < |y.replies| ==> ReplyOk(cfg, z, y.replies[i])
  {
    forall i | 0 <= i < |y.replies| ensures ReplyOk(cfg, z, y.replies[i]) {
      ReplyStable(cfg, y, z, y.replies[i]);
    }
  }

  lemma PushAccepted(cfg: Config, y: System, w: Worker, g: Vec, r: nat)
    requires Sane(cfg, y) && Enabled(cfg, y, PushStep(w, g)) && r <= |y.rounds|
    ensures var z := Next(cfg, y, PushStep(w, g));
            y.rounds <= z.rounds && y.Accepted(r) <= z.Accepted(r)
  {
  }

  lemma BookSame(a: seq<Client>, b: seq<Client>, replies: seq<Reply>)
    requires BookOk(a, replies) && |a| == |b| && forall v :: 0 <= v < |a| ==> a[v].answers == b[v].answers
    ensures BookOk(b, replies)
  {
  }

  lemma PushReplies(cfg: Config, y: System, w: Worker, g: Vec)
    requires Sane(cfg, y) && Enabled(cfg, y, PushStep(w, g)) && RepliesOk(cfg, y)
    requires var z := Next(cfg, y, PushStep(w, g)); ClientsOk(cfg, z) && RoundsOk(cfg, z)
    ensures RepliesOk(cfg, Next(cfg, y, PushStep(w, g)))
  {
    var z := Next(cfg, y, PushStep(w, g));
    forall r: nat | r <= |y.rounds| ensures y.Accepted(r) <= z.Accepted(r) {
      PushAccepted(cfg, y, w, g, r);
    }
    PushAccepted(cfg, y, w, g, 0);
    RepliesStable(cfg, y, z);
    BookSame(y.clients, z.clients, y.replies);
  }

  lemma PushInv(cfg: Config, y: System, w: Worker, g: Vec)
    requires Inv(cfg, y) && Enabled(cfg, y, PushStep(w, g))
    ensures Inv(cfg, Next(cfg, y, PushStep(w, g)))
  {
    PushClients(cfg, y, w, g);
    PushRounds(cfg, y, w, g);
    PushRequest(cfg, y, w, g);
    PushFlags(cfg, y, w, g);
    if y.server.inited {
      PushOpensRound(cfg, y, w);
      PushQueue(cfg, y, w, g);
      AcceptedUniform(cfg, y, |y.rounds|);
      PushMem(cfg, y, w, g);
    }
    PushReplies(cfg, y, w, g);
  }

  // ---- pulls ----

  /** A pull answered by the handler belongs to the round processed last. */
  lemma PullSameHistory(cfg: Config, y: System, w: Worker)
    requires Sane(cfg, y) && Enabled(cfg, y, PullStep(w))
    ensures var z := Next(cfg, y, PullStep(w));
            && z.rounds == y.rounds && z.current == y.current && z.allRecvs == y.allRecvs
            && z.executed == y.executed && |z.clients| == |y.clients|
            && z.server.mem == y.server.mem && z.server.pending == y.server.pending
            && z.server.reduced == y.server.reduced && z.server.inited == y.server.inited
            && z.server.request == y.server.request && z.server.routed == y.server.routed
            && z.server.merged == y.server.merged
            && (forall v :: 0 <= v < |y.clients| ==> z.clients[v].sent == y.clients[v].sent)
            && (forall v :: 0 <= v < |y.clients| && v != w ==> z.clients[v] == y.clients[v])
  {
  }

  lemma PullRounds(cfg: Config, y: System, w: Worker)
    requires Sane(cfg, y) && Enabled(cfg, y, PullStep(w))
    requires ClientsOk(cfg, y) && RoundsOk(cfg, y) && RequestOk(cfg, y)
    ensures var z := Next(cfg, y, PullStep(w));
            Sane(cfg, z) && ClientsOk(cfg, z) && RoundsOk(cfg, z) && RequestOk(cfg, z)
  {
    PullSameHistory(cfg, y, w);
  }

  lemma PullQueue(cfg: Config, y: System, w: Worker)
    requires Sane(cfg, y) && Enabled(cfg, y, PullStep(w))
    requires QueueOk(cfg, y) && MemOk(cfg, y)
    ensures var z := Next(cfg, y, PullStep(w)); QueueOk(cfg, z) && MemOk(cfg, z)
  {
    PullSameHistory(cfg, y, w);
  }

  lemma SeenGrows(seen: set<Worker>, w: Worker, n: nat)
    requires w < n && w !in seen && forall v :: v in seen ==> v < n
    ensures |seen + {w}| == |seen| + 1 <= n
    ensures |seen| + 1 == n ==> forall v: Worker :: v < n ==> v in seen || v == w
  {
    SubsetCard(seen + {w}, Everyone(n));
    assert |seen| + 1 == n ==> forall v: Worker :: v < n ==> v in seen + {w};
  }

  lemma PullFlags(cfg: Config, y: System, w: Worker)
    requires Sane(cfg, y) && Enabled(cfg, y, PullStep(w)) && FlagsOk(cfg, y)
    ensures FlagsOk(cfg, Next(cfg, y, PullStep(w)))
  {
    if y.server.finished && w !in y.server.seen {
      SeenGrows(y.server.seen, w, cfg.n);
    }
  }

  lemma PullWaiting(cfg: Config, y: System, w: Worker)
    requires Sane(cfg, y) && Enabled(cfg, y, PullStep(w)) && FlagsOk(cfg, y) && WaitingOk(cfg, y)
    ensures WaitingOk(cfg, Next(cfg, y, PullStep(w)))
  {
    var z := Next(cfg, y, PullStep(w));
    forall v | 0 <= v < cfg.n
      ensures v in z.server.waiting <==> z.clients[v].pulls == z.clients[v].answers + 1
      ensures v in z.server.waiting ==> z.clients[v].answers == z.allRecvs
    {
    }
  }

  /** A pull that the handler answers belongs to the last processed round, and no later round is
      complete. */
  lemma LatePullRound(cfg: Config, y: System, w: Worker)
    requires ClientsOk(cfg, y) && RoundsOk(cfg, y) && RequestOk(cfg, y) && FlagsOk(cfg, y)
    requires y.server.finished && w < cfg.n && w !in y.server.seen && y.server.inited
    ensures y.clients[w].answers + 1 == y.allRecvs == |y.rounds|
    ensures y.Working() == y.current == y.Accepted(y.allRecvs)
  {
  }

  lemma LateReply(cfg: Config, y: System, w: Worker)
    requires Sane(cfg, y) && Enabled(cfg, y, PullStep(w)) && y.server.finished && w !in y.server.seen
    requires y.clients[w].answers + 1 == y.allRecvs == |y.rounds|
    requires y.Working() == y.current == y.Accepted(y.allRecvs) && !y.server.reduced
    requires Uniform(Grads(y.current), cfg.len) && y.executed <= 2 * |y.current| && MemOk(cfg, y)
    ensures var z := Next(cfg, y, PullStep(w)); ReplyOk(cfg, z, z.replies[|y.replies|])
  {
  }

  ghost predicate Serves(added: seq<Reply>, v: Worker) {
    exists k :: 0 <= k < |added| && added[k].worker == v
  }

  /** `b` is `a` after the answers `added`, at most one per worker. */
  ghost predicate Served(a: seq<Client>, added: seq<Reply>, b: seq<Client>) {
    && |a| == |b|
    && (forall k :: 0 <= k < |added| ==> added[k].worker < |a| && added[k].round == a[added[k].worker].answers + 1)
    && (forall j, k :: 0 <= j < k < |added| ==> added[j].worker != added[k].worker)
    && (forall v :: 0 <= v < |a| ==> b[v].answers == a[v].answers + (if Serves(added, v) then 1 else 0))
  }

  lemma BookExtend(a: seq<Client>, replies: seq<Reply>, added: seq<Reply>, b: seq<Client>)
    requires BookOk(a, replies) && Served(a, added, b)
    ensures BookOk(b, replies + added)
  {
    var all, m := replies + added, |replies|;
    forall i | 0 <= i < |all|
      ensures all[i].worker < |b| && all[i].round <= b[all[i].worker].answers
    {
      if i >= m {
        assert all[i] == added[i - m];
        assert Serves(added, all[i].worker);
      }
    }
    forall w, r | 0 <= w < |b| && 1 <= r <= b[w].answers ensures Answered(all, w, r) {
      BookComplete(a, replies, added, b, w, r);
    }
  }

  lemma BookComplete(a: seq<Client>, replies: seq<Reply>, added: seq<Reply>, b: seq<Client>, w: Worker, r: nat)
    requires BookOk(a, replies) && Served(a, added, b) && w < |b| && 1 <= r <= b[w].answers
    ensures Answered(replies + added, w, r)
  {
    if r <= a[w].answers {
      assert Answered(replies, w, r);
      var i :| 0 <= i < |replies| && replies[i].worker == w && replies[i].round == r;
      assert (replies + added)[i] == replies[i];
    } else {
      var k :| 0 <= k < |added| && added[k].worker == w;
      assert (replies + added)[|replies| + k] == added[k];
    }
  }

  /** A step that adds only right answers, at most one per worker, keeps the answers right. */
  lemma RepliesExtend(cfg: Config, y: System, z: System, added: seq<Reply>)
    requires RepliesOk(cfg, y) && ClientsOk(cfg, z) && RoundsOk(cfg, z)
    requires y.rounds == z.rounds && y.current == z.current
    requires Served(y.clients, added, z.clients) && z.replies == y.replies + added
    requires forall k :: 0 <= k < |added| ==> ReplyOk(cfg, z, added[k])
    ensures RepliesOk(cfg, z)
  {
    RepliesStable(cfg, y, z);
    BookExtend(y.clients, y.replies, added, z.clients);
  }

  lemma PullServed(cfg: Config, y: System, w: Worker) returns (added: seq<Reply>)
    requires Sane(cfg, y) && Enabled(cfg, y, PullStep(w))
    ensures var z := Next(cfg, y, PullStep(w));
            && z.replies == y.replies + added && Served(y.clients, added, z.clients)
            && (if y.server.finished && w !in y.server.seen then added == [z.replies[|y.replies|]] else added == [])
  {
    var z := Next(cfg, y, PullStep(w));
    added := z.replies[|y.replies|..];
    if y.server.finished && w !in y.server.seen {
      assert added[0].worker == w;
      assert forall v :: 0 <= v < |y.clients| ==> (Serves(added, v) <==> v == w);
    }
  }

  lemma PullReplies(cfg: Config, y: System, w: Worker)
    requires Inv(cfg, y) && Enabled(cfg, y, PullStep(w))
    requires var z := Next(cfg, y, PullStep(w)); ClientsOk(cfg, z) && RoundsOk(cfg, z)
    ensures RepliesOk(cfg, Next(cfg, y, PullStep(w)))
  {
    PullSameHistory(cfg, y, w);
    var added := PullServed(cfg, y, w);
    if y.server.finished && w !in y.server.seen {
      LatePullRound(cfg, y, w);
      AcceptedUniform(cfg, y, y.allRecvs);
      LateReply(cfg, y, w);
    }
    RepliesExtend(cfg, y, Next(cfg, y, PullStep(w)), added);
  }

  lemma PullInv(cfg: Config, y: System, w: Worker)
    requires Inv(cfg, y) && Enabled(cfg, y, PullStep(w))
    ensures Inv(cfg, Next(cfg, y, PullStep(w)))
  {
    PullRounds(cfg, y, w);
    PullQueue(cfg, y, w);
    PullFlags(cfg, y, w);
    PullWaiting(cfg, y, w);
    PullReplies(cfg, y, w);
  }

  // ---- the engine executes a data message ----

  lemma ExecStore(cfg: Config, mem: Mem, cs: seq<Contribution>, j: nat)
    requires cfg.Valid() && |mem.store| == cfg.len && |mem.replica| == cfg.n * cfg.len
    requires j < |cs| <= cfg.n && Uniform(Grads(cs), cfg.len)
    requires j > 0 ==> MemHolds(cfg, mem, Grads(cs), 2 * j)
    ensures Fits(cfg, Script(cfg, cs, 2 * j))
    ensures MemHolds(cfg, Exec(cfg, mem, Script(cfg, cs, 2 * j)), Grads(cs), 2 * j + 1)
  {
    var grads := Grads(cs);
    assert grads[..j + 1] == grads[..j] + [grads[j]];
    SumRowsSnoc(grads[..j], grads[j], cfg.len);
  }

  lemma ExecSlot(cfg: Config, mem: Mem, cs: seq<Contribution>, j: nat)
    requires cfg.Valid() && j < |cs| && MemHolds(cfg, mem, Grads(cs), 2 * j + 1)
    ensures Fits(cfg, Script(cfg, cs, 2 * j + 1))
    ensures MemHolds(cfg, Exec(cfg, mem, Script(cfg, cs, 2 * j + 1)), Grads(cs), 2 * j + 2)
  {
    var grads := Grads(cs);
    SlotBounds(cfg.n, cfg.len, j);
    WriteSlot(mem.replica, cfg.n, cfg.len, j, grads[j]);
    assert forall i :: 0 <= i < j ==> grads[..j + 1][i] == grads[..j][i];
  }

  lemma ExecScript(cfg: Config, mem: Mem, cs: seq<Contribution>, executed: nat)
    requires cfg.Valid() && |mem.store| == cfg.len && |mem.replica| == cfg.n * cfg.len
    requires executed < 2 * |cs| && |cs| <= cfg.n && Uniform(Grads(cs), cfg.len)
    requires executed > 0 ==> MemHolds(cfg, mem, Grads(cs), executed)
    ensures Fits(cfg, Script(cfg, cs, executed))
    ensures MemHolds(cfg, Exec(cfg, mem, Script(cfg, cs, executed)), Grads(cs), executed + 1)
  {
    var j := executed / 2;
    if executed % 2 == 0 {
      assert executed == 2 * j;
      ExecStore(cfg, mem, cs, j);
    } else {
      assert executed == 2 * j + 1;
      ExecSlot(cfg, mem, cs, j);
    }
  }

  lemma QueuePops(cfg: Config, pending: seq<Msg>, cs: seq<Contribution>, executed: nat, complete: bool)
    requires QueueHolds(cfg, pending, cs, executed, complete) && pending != [] && pending[0] != AllRecv
    ensures executed < 2 * |cs| && pending[0] == Script(cfg, cs, executed)
    ensures QueueHolds(cfg, pending[1..], cs, executed + 1, complete)
  {
  }

  lemma WorkingUniform(cfg: Config, y: System)
    requires ClientsOk(cfg, y) && RoundsOk(cfg, y)
    ensures Uniform(Grads(y.Working()), cfg.len) && |y.Working()| <= cfg.n
  {
    AcceptedUniform(cfg, y, y.allRecvs);
  }

  /** A data message changes nothing but the buffers and the queue. */
  lemma DataSameHistory(cfg: Config, y: System)
    requires Sane(cfg, y) && y.server.pending != [] && y.server.pending[0] != AllRecv
    ensures var z := Next(cfg, y, EngineStep);
            && z.clients == y.clients && z.rounds == y.rounds && z.current == y.current
            && z.allRecvs == y.allRecvs && z.replies == y.replies && z.executed == y.executed + 1
            && z.server == y.server.(mem := z.server.mem, pending := y.server.pending[1..])
            && z.Working() == y.Working() && Sane(cfg, z)
  {
  }

  lemma DataQueue(cfg: Config, y: System)
    requires Sane(cfg, y) && QueueOk(cfg, y) && y.server.pending != [] && y.server.pending[0] != AllRecv
    ensures QueueOk(cfg, Next(cfg, y, EngineStep))
    ensures !y.server.reduced && y.executed < 2 * |y.Working()|
    ensures y.server.pending[0] == Script(cfg, y.Working(), y.executed)
  {
    DataSameHistory(cfg, y);
    QueuePops(cfg, y.server.pending, y.Working(), y.executed, |y.rounds| > y.allRecvs);
  }

  lemma DataMem(cfg: Config, y: System)
    requires Sane(cfg, y) && MemOk(cfg, y) && !y.server.reduced && y.server.pending != []
    requires Uniform(Grads(y.Working()), cfg.len) && |y.Working()| <= cfg.n
    requires y.executed < 2 * |y.Working()| && y.server.pending[0] == Script(cfg, y.Working(), y.executed)
    ensures MemOk(cfg, Next(cfg, y, EngineStep))
  {
    DataSameHistory(cfg, y);
    ExecScript(cfg, y.server.mem, y.Working(), y.executed);
  }

  /** A step that touches only the buffers and the queue keeps the rest of the invariant. */
  lemma EngineKeeps(cfg: Config, y: System, z: System)
    requires ClientsOk(cfg, y) && RoundsOk(cfg, y) && RequestOk(cfg, y) && FlagsOk(cfg, y) && WaitingOk(cfg, y)
    requires z.clients == y.clients && z.rounds == y.rounds && z.current == y.current
    requires z.allRecvs == y.allRecvs && y.server.inited
    requires z.server == y.server.(mem := z.server.mem, pending := z.server.pending,
                                   reduced := z.server.reduced, merged := z.server.merged)
    requires y.server.merged ==> z.server.merged
    ensures ClientsOk(cfg, z) && RoundsOk(cfg, z) && RequestOk(cfg, z) && FlagsOk(cfg, z) && WaitingOk(cfg, z)
  {
  }

  lemma RepliesKept(cfg: Config, y: System, z: System)
    requires RepliesOk(cfg, y) && ClientsOk(cfg, z) && RoundsOk(cfg, z)
    requires z.clients == y.clients && z.rounds == y.rounds && z.current == y.current && z.replies == y.replies
    ensures RepliesOk(cfg, z)
  {
    RepliesStable(cfg, y, z);
  }

  lemma DataInv(cfg: Config, y: System)
    requires Inv(cfg, y) && y.server.pending != [] && y.server.pending[0] != AllRecv
    ensures Inv(cfg, Next(cfg, y, EngineStep))
  {
    var z := Next(cfg, y, EngineStep);
    DataSameHistory(cfg, y);
    DataQueue(cfg, y);
    WorkingUniform(cfg, y);
    DataMem(cfg, y);
    EngineKeeps(cfg, y, z);
    RepliesKept(cfg, y, z);
  }

  // ---- the engine finishes a round ----

  ghost predicate AtFinish(cfg: Config, y: System) {
    Inv(cfg, y) && y.server.pending != [] && y.server.pending[0] == AllRecv && !y.server.reduced
  }

  lemma AtFinishShape(cfg: Config, y: System)
    requires AtFinish(cfg, y)
    ensures |y.rounds| == y.allRecvs + 1 && y.server.pending == [AllRecv]
    ensures y.Working() == y.rounds[y.allRecvs] && |y.Working()| == cfg.n
    ensures y.executed == 2 * cfg.n && y.server.inited
    ensures MemHolds(cfg, y.server.mem, Grads(y.Working()), 2 * cfg.n)
  {
    QueueAtEnd(cfg, y.server.pending, y.Working(), y.executed, |y.rounds| > y.allRecvs);
  }

  lemma MemComplete(cfg: Config, mem: Mem, grads: seq<Vec>)
    requires cfg.Valid() && |grads| == cfg.n && MemHolds(cfg, mem, grads, 2 * cfg.n)
    ensures SlotsHold(mem.replica, cfg.n, cfg.len, grads) && mem.store == SumRows(grads, cfg.len)
  {
    assert grads[..cfg.n] == grads;
  }

  /** When the finish message reaches the head of the queue, the replica buffer holds the round's
      gradients slot by slot and the store their sum, whatever the arrival order; so the reduction
      that follows computes the reference result, and the serial sum changes nothing. */
  lemma ReplicaComplete(cfg: Config, y: System)
    requires AtFinish(cfg, y)
    ensures |y.rounds| == y.allRecvs + 1 && y.server.pending == [AllRecv]
    ensures var grads := Grads(y.rounds[y.allRecvs]);
            && |grads| == cfg.n && Uniform(grads, cfg.len)
            && |y.server.mem.replica| == cfg.n * cfg.len && |y.server.mem.store| == cfg.len
            && SlotsHold(y.server.mem.replica, cfg.n, cfg.len, grads)
            && y.server.mem.store == SumRows(grads, cfg.len)
            && ReduceStore(cfg.mode, y.server.mem.store, y.server.mem.replica, cfg.n) == Reduce(cfg.mode, grads, cfg.len)
            && ReduceStore(SumSerial, y.server.mem.store, y.server.mem.replica, cfg.n) == y.server.mem.store
  {
    AtFinishShape(cfg, y);
    var grads := Grads(y.rounds[y.allRecvs]);
    MemComplete(cfg, y.server.mem, grads);
    ReduceStoreRefines(cfg.mode, y.server.mem.store, y.server.mem.replica, grads, cfg.len);
  }

  lemma QueueHead(cfg: Config, pending: seq<Msg>, cs: seq<Contribution>, executed: nat, complete: bool)
    requires QueueHolds(cfg, pending, cs, executed, complete) && pending != []
    ensures executed < 2 * |cs| ==> pending[0] == Script(cfg, cs, executed) && pending[0] != AllRecv
    ensures executed == 2 * |cs| ==> complete && pending == [AllRecv]
  {
    assert executed < 2 * |cs| ==> pending[executed - executed] == Script(cfg, cs, executed);
  }

  lemma QueueAtEnd(cfg: Config, pending: seq<Msg>, cs: seq<Contribution>, executed: nat, complete: bool)
    requires QueueHolds(cfg, pending, cs, executed, complete) && pending != [] && pending[0] == AllRecv
    ensures complete && executed == 2 * |cs| && pending == [AllRecv]
  {
    QueueHead(cfg, pending, cs, executed, complete);
  }

  lemma ReduceShape(cfg: Config, y: System)
    requires Sane(cfg, y) && y.server.pending == [AllRecv] && !y.server.reduced
    ensures var z := Next(cfg, y, EngineStep);
            && Sane(cfg, z) && z == y.(server := z.server)
            && z.server == y.server.(mem := z.server.mem, merged := true, reduced := true)
            && z.server.mem.store == ReduceStore(cfg.mode, y.server.mem.store, y.server.mem.replica, cfg.n)
  {
  }

  lemma ReduceMem(cfg: Config, y: System)
    requires Sane(cfg, y) && QueueOk(cfg, y) && MemOk(cfg, y) && !y.server.reduced
    requires |y.rounds| == y.allRecvs + 1 && y.server.pending == [AllRecv]
    requires y.executed == 2 * cfg.n == 2 * |y.Working()|
    requires ReduceStore(cfg.mode, y.server.mem.store, y.server.mem.replica, cfg.n)
             == Reduce(cfg.mode, Grads(y.rounds[y.allRecvs]), cfg.len)
    ensures var z := Next(cfg, y, EngineStep); QueueOk(cfg, z) && MemOk(cfg, z)
  {
    ReduceShape(cfg, y);
  }

  lemma ReduceInv(cfg: Config, y: System)
    requires AtFinish(cfg, y)
    ensures Inv(cfg, Next(cfg, y, EngineStep))
  {
    var z := Next(cfg, y, EngineStep);
    AtFinishShape(cfg, y);
    ReplicaComplete(cfg, y);
    ReduceShape(cfg, y);
    ReduceMem(cfg, y);
    EngineKeeps(cfg, y, z);
    RepliesKept(cfg, y, z);
  }

  lemma DistinctTail(q: seq<Worker>, seen: set<Worker>)
    requires q != [] && Distinct(q) && Elements(q) !! seen
    ensures q[0] !in seen && Distinct(q[1..]) && Elements(q[1..]) !! seen + {q[0]}
    ensures seen + {q[0]} + Elements(q[1..]) == seen + Elements(q)
    ensures [q[0]] + q[1..] == q
  {
    assert q == [q[0]] + q[1..];
    assert q[0] in Elements(q);
  }

  lemma DrainServes(n: nat, q: seq<Worker>, seen: set<Worker>)
    requires q != [] && q[0] !in seen && |seen| < n
    ensures |seen + {q[0]}| == |seen| + 1
    ensures |seen| + 1 == n ==> Drain(n, q, seen, |seen|) == Drained(q[1..], [q[0]], false, 0, {})
    ensures |seen| + 1 < n ==>
              var rest := Drain(n, q[1..], seen + {q[0]}, |seen + {q[0]}|);
              Drain(n, q, seen, |seen|) == rest.(answered := [q[0]] + rest.answered)
  {
  }

  ghost function ServedAll(n: nat, q: seq<Worker>, seen: set<Worker>): Drained {
    if |seen| + |q| == n then Drained([], q, false, 0, {})
    else Drained([], q, true, |seen| + |q|, seen + Elements(q))
  }

  /** The answering loop serves every queued pull: each is from a different, unserved worker. */
  lemma {:induction false} DrainAll(n: nat, q: seq<Worker>, seen: set<Worker>)
    requires |seen| < n && |seen| + |q| <= n
    requires Distinct(q) && Elements(q) !! seen
    ensures Drain(n, q, seen, |seen|) == ServedAll(n, q, seen)
    decreases |q|
  {
    if q == [] {
      assert seen + Elements(q) == seen;
    } else {
      DistinctTail(q, seen);
      DrainServes(n, q, seen);
      if |seen| + 1 < n {
        DrainAll(n, q[1..], seen + {q[0]});
      }
    }
  }

  lemma AnswerFacts(cfg: Config, y: System)
    requires cfg.Valid() && RoundsOk(cfg, y) && RequestOk(cfg, y) && ClientsOk(cfg, y)
    requires FlagsOk(cfg, y) && QueueOk(cfg, y) && y.server.inited
    requires y.server.pending != [] && y.server.pending[0] == AllRecv && y.server.reduced
    ensures !y.server.finished && y.server.seen == {} && y.server.pullCnt == 0
    ensures |y.rounds| == y.allRecvs + 1 && y.current == [] && y.server.pending == [AllRecv]
    ensures forall v :: 0 <= v < cfg.n ==> y.clients[v].answers == y.allRecvs
  {
    QueueAtEnd(cfg, y.server.pending, y.Working(), y.executed, |y.rounds| > y.allRecvs);
    assert forall v :: 0 <= v < cfg.n ==> y.allRecvs <= y.clients[v].answers;
    NobodySeen(cfg, y);
  }

  lemma AnswerEngine(cfg: Config, s: KeyServer)
    requires cfg.Valid() && s.WellFormed(cfg) && s.pending == [AllRecv] && s.reduced
    requires s.seen == {} && s.pullCnt == 0 && Distinct(s.waiting) && Below(s.waiting, cfg.n)
    ensures |s.waiting| <= cfg.n
    ensures Engine(cfg, s) == (s.(pending := [], reduced := false, waiting := [],
                                  finished := |s.waiting| < cfg.n,
                                  pullCnt := if |s.waiting| < cfg.n then |s.waiting| else 0,
                                  seen := if |s.waiting| < cfg.n then Elements(s.waiting) else {}), s.waiting)
  {
    DistinctBound(s.waiting, cfg.n);
    DrainAll(cfg.n, s.waiting, {});
  }

  /** What answering does: exactly the queued workers are served. */
  lemma AnswerNext(cfg: Config, y: System)
    requires Sane(cfg, y) && y.server.pending == [AllRecv] && y.server.reduced
    requires y.server.seen == {} && y.server.pullCnt == 0 && Distinct(y.server.waiting)
    ensures |y.server.waiting| <= cfg.n
    ensures var z := Next(cfg, y, EngineStep);
            var served := y.server.waiting;
            && z.clients == ServeAll(y.clients, served) && z.rounds == y.rounds && z.current == y.current
            && z.allRecvs == y.allRecvs + 1 && z.executed == 0
            && z.replies == y.replies + EngineReplies(y, served)
            && z.server == y.server.(pending := [], reduced := false, waiting := [],
                 finished := |served| < cfg.n,
                 pullCnt := if |served| < cfg.n then |served| else 0,
                 seen := if |served| < cfg.n then Elements(served) else {})
  {
    AnswerEngine(cfg, y.server);
    assert y.server.pending[0] == AllRecv;
  }

  lemma NobodySeen(cfg: Config, y: System)
    requires cfg.Valid() && FlagsOk(cfg, y)
    requires forall v :: 0 <= v < cfg.n ==> y.allRecvs <= y.clients[v].answers
    ensures !y.server.finished && y.server.seen == {}
  {
    if y.server.finished {
      assert Everyone(cfg.n) <= y.server.seen;
      SubsetCard(Everyone(cfg.n), y.server.seen);
      assert false;
    }
  }

  ghost predicate Answering(cfg: Config, y: System) {
    Inv(cfg, y) && y.server.pending != [] && y.server.pending[0] == AllRecv && y.server.reduced
  }

  lemma ClientsServed(cfg: Config, y: System, z: System)
    requires ClientsOk(cfg, y) && WaitingOk(cfg, y) && z.clients == ServeAll(y.clients, y.server.waiting)
    ensures ClientsOk(cfg, z)
  {
    forall w | 0 <= w < cfg.n
      ensures z.clients[w].sent == y.clients[w].sent
      ensures z.clients[w].answers <= z.clients[w].pulls <= |z.clients[w].sent| <= z.clients[w].answers + 1
    {
    }
  }

  lemma AnswerClients(cfg: Config, y: System)
    requires Answering(cfg, y)
    ensures var z := Next(cfg, y, EngineStep); Sane(cfg, z) && ClientsOk(cfg, z)
  {
    AnswerFacts(cfg, y);
    AnswerNext(cfg, y);
    ClientsServed(cfg, y, Next(cfg, y, EngineStep));
  }

  lemma FromRoundServed(y: System, z: System, served: seq<Worker>, cs: seq<Contribution>, r: nat)
    requires FromRound(y, cs, r) && z.clients == ServeAll(y.clients, served)
    ensures FromRound(z, cs, r)
  {
  }

  lemma RoundsServed(cfg: Config, y: System, z: System)
    requires RoundsOk(cfg, y) && z.clients == ServeAll(y.clients, y.server.waiting)
    requires z.rounds == y.rounds && z.current == y.current && z.allRecvs == y.allRecvs + 1 <= |y.rounds|
    ensures RoundsOk(cfg, z)
  {
    forall r | 0 <= r < |y.rounds| ensures FromRound(z, z.rounds[r], r) {
      FromRoundServed(y, z, y.server.waiting, y.rounds[r], r);
    }
    FromRoundServed(y, z, y.server.waiting, y.current, |y.rounds|);
  }

  lemma RequestServed(cfg: Config, y: System, z: System)
    requires RequestOk(cfg, y) && y.server.inited && z.clients == ServeAll(y.clients, y.server.waiting)
    requires z.rounds == y.rounds && z.current == y.current && z.server.request == y.server.request
    requires z.server.inited && z.server.routed == y.server.routed
    ensures RequestOk(cfg, z)
  {
  }

  lemma AnswerRounds(cfg: Config, y: System)
    requires Answering(cfg, y)
    ensures var z := Next(cfg, y, EngineStep); RoundsOk(cfg, z) && RequestOk(cfg, z)
  {
    AnswerFacts(cfg, y);
    AnswerNext(cfg, y);
    var z := Next(cfg, y, EngineStep);
    RoundsServed(cfg, y, z);
    RequestServed(cfg, y, z);
  }

  lemma FlagsServed(cfg: Config, y: System, z: System, served: seq<Worker>)
    requires cfg.Valid() && |y.clients| == cfg.n && Distinct(served) && Below(served, cfg.n)
    requires forall v :: 0 <= v < cfg.n ==> y.clients[v].answers == y.allRecvs
    requires z.clients == ServeAll(y.clients, served) && z.allRecvs == y.allRecvs + 1 && z.server.merged
    requires z.server.finished == (|served| < cfg.n)
    requires z.server.pullCnt == if |served| < cfg.n then |served| else 0
    requires z.server.seen == if |served| < cfg.n then Elements(served) else {}
    ensures FlagsOk(cfg, z)
  {
    DistinctCard(served);
    DistinctBound(served, cfg.n);
  }

  lemma WaitingServed(cfg: Config, y: System, z: System)
    requires WaitingOk(cfg, y) && z.server.waiting == []
    requires z.clients == ServeAll(y.clients, y.server.waiting)
    requires ClientsOk(cfg, y)
    ensures WaitingOk(cfg, z)
  {
  }

  lemma AnswerFlags(cfg: Config, y: System)
    requires Answering(cfg, y)
    ensures var z := Next(cfg, y, EngineStep); FlagsOk(cfg, z) && WaitingOk(cfg, z)
  {
    AnswerFacts(cfg, y);
    AnswerNext(cfg, y);
    var z := Next(cfg, y, EngineStep);
    FlagsServed(cfg, y, z, y.server.waiting);
    WaitingServed(cfg, y, z);
  }

  lemma AnswerMem(cfg: Config, y: System)
    requires Answering(cfg, y)
    ensures var z := Next(cfg, y, EngineStep); QueueOk(cfg, z) && MemOk(cfg, z)
  {
    AnswerFacts(cfg, y);
    AnswerNext(cfg, y);
  }

  lemma EngineReplyOk(cfg: Config, y: System, i: nat)
    requires Answering(cfg, y) && i < |y.server.waiting|
    requires var z := Next(cfg, y, EngineStep); ClientsOk(cfg, z) && RoundsOk(cfg, z)
    ensures var z := Next(cfg, y, EngineStep);
            ReplyOk(cfg, z, EngineReplies(y, y.server.waiting)[i])
  {
    AnswerFacts(cfg, y);
    AnswerNext(cfg, y);
    AcceptedUniform(cfg, Next(cfg, y, EngineStep), y.allRecvs + 1);
  }

  lemma EngineServed(y: System, served: seq<Worker>)
    requires Distinct(served) && Below(served, |y.clients|)
    ensures Served(y.clients, EngineReplies(y, served), ServeAll(y.clients, served))
  {
    var added := EngineReplies(y, served);
    forall v | 0 <= v < |y.clients| ensures Serves(added, v) <==> v in served {
      if v in served {
        var k :| 0 <= k < |served| && served[k] == v;
        assert added[k].worker == v;
      }
    }
  }

  lemma AnswerReplies(cfg: Config, y: System)
    requires Answering(cfg, y)
    requires var z := Next(cfg, y, EngineStep); ClientsOk(cfg, z) && RoundsOk(cfg, z)
    ensures RepliesOk(cfg, Next(cfg, y, EngineStep))
  {
    AnswerFacts(cfg, y);
    AnswerNext(cfg, y);
    var z, served := Next(cfg, y, EngineStep), y.server.waiting;
    forall i | 0 <= i < |served| ensures ReplyOk(cfg, z, EngineReplies(y, served)[i]) {
      EngineReplyOk(cfg, y, i);
    }
    EngineServed(y, served);
    RepliesExtend(cfg, y, z, EngineReplies(y, served));
  }

  lemma AnswerInv(cfg: Config, y: System)
    requires Answering(cfg, y)
    ensures Inv(cfg, Next(cfg, y, EngineStep))
  {
    AnswerClients(cfg, y);
    AnswerRounds(cfg, y);
    AnswerFlags(cfg, y);
    AnswerMem(cfg, y);
    AnswerReplies(cfg, y);
  }

  /** Every step of the handler and of the engine keeps the invariant. */
  lemma StepInv(cfg: Config, y: System, step: Step)
    requires Inv(cfg, y) && Enabled(cfg, y, step)
    ensures Inv(cfg, Next(cfg, y, step))
  {
    match step
    case PushStep(w, g) => PushInv(cfg, y, w, g);
    case PullStep(w) => PullInv(cfg, y, w);
    case EngineStep =>
      if y.server.pending[0] != AllRecv {
        DataInv(cfg, y);
      } else if !y.server.reduced {
        ReduceInv(cfg, y);
      } else {
        AnswerInv(cfg, y);
      }
  }

  // ---- runs ----

  /** `y` is reached from the start by some interleaving of enabled steps. */
  ghost predicate Run(cfg: Config, steps: seq<Step>, y: System)
    requires cfg.Valid()
    decreases |steps|
  {
    if steps == [] then y == Start(cfg)
    else exists x :: Run(cfg, steps[..|steps| - 1], x) && Sane(cfg, x)
                     && Enabled(cfg, x, steps[|steps| - 1]) && y == Next(cfg, x, steps[|steps| - 1])
  }

  lemma {:induction false} RunInv(cfg: Config, steps: seq<Step>, y: System)
    requires cfg.Valid() && Run(cfg, steps, y)
    ensures Inv(cfg, y)
    decreases |steps|
  {
    if steps == [] {
      StartInv(cfg);
    } else {
      var last := |steps| - 1;
      var x :| Run(cfg, steps[..last], x) && Sane(cfg, x)
               && Enabled(cfg, x, steps[last]) && y == Next(cfg, x, steps[last]);
      RunInv(cfg, steps[..last], x);
      StepInv(cfg, x, steps[last]);
    }
  }

  /** Round safety: in every run each worker's r-th pull is answered at most once, only after the
      finish message of round r and before that of round r + 1; and once that message has been
      processed, every r-th pull the server has seen is answered. */
  lemma RoundSafe(cfg: Config, steps: seq<Step>, y: System)
    requires cfg.Valid() && Run(cfg, steps, y)
    ensures forall i :: 0 <= i < |y.replies| ==> y.replies[i].allRecvs == y.replies[i].round
    ensures forall i, j :: 0 <= i < j < |y.replies| && y.replies[i].worker == y.replies[j].worker ==>
              y.replies[i].round < y.replies[j].round
    ensures |y.clients| == cfg.n
    ensures forall w, r :: 0 <= w < cfg.n && 1 <= r <= y.clients[w].pulls && r <= y.allRecvs ==> Answered(y.replies, w, r)
  {
    RunInv(cfg, steps, y);
    forall i | 0 <= i < |y.replies| ensures y.replies[i].allRecvs == y.replies[i].round {
      assert ReplyOk(cfg, y, y.replies[i]);
    }
    forall w, r | 0 <= w < cfg.n && 1 <= r <= y.clients[w].pulls && r <= y.allRecvs
      ensures Answered(y.replies, w, r)
    {
      assert r <= y.clients[w].answers;
    }
  }
}
