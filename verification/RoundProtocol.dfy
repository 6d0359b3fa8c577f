/** One key of the parameter server in synchronous, non-blocking, uncompressed mode: what the
    request handler and the engine thread do to the key's state, and the closed system made of
    that state and `n` workers, each of which loops push, wait for the ack, pull, wait for the
    answer. The network may delay requests arbitrarily: a step is a request being handled. */
module RoundProtocol {
  import opened Options
  import opened Tensors
  import opened Reducers

  type Worker = nat

  /** Number of workers, elements in the key's tensor, reduction mode. */
  datatype Config = Config(n: nat, len: nat, mode: Mode) {
    predicate Valid() { n > 0 && len > 0 }
  }

  datatype Addr = Store | Replica(off: nat)

  /** Engine messages. `AllRecv` reduces the replica buffer into the store. */
  datatype Msg = CopyFirst(dst: Addr, src: Vec) | SumRecv(src: Vec) | AllRecv

  datatype Mem = Mem(store: Vec, replica: Vec)

  datatype KeyServer = KeyServer(
    inited: bool,            // the store buffers are allocated
    mem: Mem,
    request: seq<Worker>,    // senders of the pushes of the open round, in arrival order
    routed: bool,          // the key has an engine thread
    pending: seq<Msg>,       // the key's messages in the engine queue
    reduced: bool,           // the engine has reduced for the `AllRecv` at the head, and not yet
                             // taken the lock under which it answers
    merged: bool,            // the buffer that pull responses read from is set
    finished: bool,
    pullCnt: nat,
    seen: set<Worker>,
    waiting: seq<Worker>)    // queued pulls
  {
    ghost predicate WellFormed(cfg: Config) {
      && |request| < cfg.n
      && (inited ==> |mem.store| == cfg.len && |mem.replica| == cfg.n * cfg.len)
      && (!inited ==> pending == [])
      && (forall i :: 0 <= i < |pending| ==> Fits(cfg, pending[i]))
    }
  }

  predicate Fits(cfg: Config, m: Msg) {
    match m
    case CopyFirst(Store, src) => |src| == cfg.len
    case CopyFirst(Replica(off), src) => |src| == cfg.len && off + cfg.len <= cfg.n * cfg.len
    case SumRecv(src) => |src| == cfg.len
    case AllRecv => true
  }

  const Blank := KeyServer(false, Mem([], []), [], false, [], false, false, false, 0, {}, [])

  // ---- the request handler ----

  /** A push request. Until every worker has pushed once, pushes only initialise the key. */
  function Push(cfg: Config, s: KeyServer, w: Worker, g: Vec): (r: KeyServer)
    requires cfg.Valid() && s.WellFormed(cfg) && |g| == cfg.len
    ensures r.WellFormed(cfg)
  {
    var request := s.request + [w];
    if !s.inited then
      if |request| < cfg.n then s.(request := request)
      else
        SlotBounds(cfg.n, cfg.len, 0);
        s.(inited := true, mem := Mem(g, g + Zero(cfg.n * cfg.len - cfg.len)), request := [])
    else
      var k := |s.request|;
      SlotBounds(cfg.n, cfg.len, k);
      var head := if k == 0 then CopyFirst(Store, g) else SumRecv(g);
      var pending := s.pending + [head, CopyFirst(Replica(k * cfg.len), g)];
      if |request| == cfg.n then
        s.(routed := true, pending := pending + [AllRecv], request := [])
      else
        s.(routed := true, pending := pending, request := request)
  }

  /** The push responses sent while handling a push. */
  function Acks(cfg: Config, s: KeyServer, w: Worker): (acks: seq<Worker>) {
    if s.inited then [w]
    else if |s.request| + 1 < cfg.n then []
    else s.request + [w]
  }

  /** A pull request: answered at once if the round is finished and the sender not yet served. */
  function Pull(cfg: Config, s: KeyServer, w: Worker): (r: (KeyServer, Option<Vec>))
    requires s.WellFormed(cfg)
    ensures r.0.WellFormed(cfg)
  {
    if s.finished && w !in s.seen then
      (if s.pullCnt + 1 == cfg.n then s.(finished := false, pullCnt := 0, seen := {})
       else s.(pullCnt := s.pullCnt + 1, seen := s.seen + {w}),
       Some(s.mem.store))
    else
      (s.(waiting := s.waiting + [w]), None)
  }

  // ---- the engine ----

  function Exec(cfg: Config, m: Mem, msg: Msg): (r: Mem)
    requires |m.store| == cfg.len && |m.replica| == cfg.n * cfg.len && Fits(cfg, msg)
    ensures |r.store| == cfg.len && |r.replica| == cfg.n * cfg.len
  {
    match msg
    case CopyFirst(Store, src) => m.(store := src)
    case CopyFirst(Replica(off), src) => m.(replica := Write(m.replica, off, src))
    case SumRecv(src) => m.(store := Add(m.store, src))
    case AllRecv => m
  }

  datatype Drained = Drained(kept: seq<Worker>, answered: seq<Worker>,
                             finished: bool, pullCnt: nat, seen: set<Worker>)

  /** The loop over the queued pulls, which stops as soon as `n` workers have been served. */
  function Drain(n: nat, q: seq<Worker>, seen: set<Worker>, cnt: nat): (r: Drained) {
    if q == [] then Drained([], [], true, cnt, seen)
    else
      var w := q[0];
      var serve := w !in seen;
      var seen' := if serve then seen + {w} else seen;
      var cnt' := if serve then cnt + 1 else cnt;
      var rest := if cnt' == n then Drained(q[1..], [], false, 0, {})
                  else Drain(n, q[1..], seen', cnt');
      if serve then rest.(answered := [w] + rest.answered)
      else rest.(kept := [w] + rest.kept)
  }

  /** One engine step on the head message. `AllRecv` takes two: reduce, then answer. */
  function Engine(cfg: Config, s: KeyServer): (r: (KeyServer, seq<Worker>))
    requires cfg.Valid() && s.WellFormed(cfg) && s.pending != []
    ensures r.0.WellFormed(cfg)
  {
    var msg := s.pending[0];
    if msg != AllRecv then
      (s.(mem := Exec(cfg, s.mem, msg), pending := s.pending[1..]), [])
    else if !s.reduced then
      (s.(mem := s.mem.(store := ReduceStore(cfg.mode, s.mem.store, s.mem.replica, cfg.n)),
          merged := true, reduced := true), [])
    else
      var d := Drain(cfg.n, s.waiting, s.seen, s.pullCnt);
      (s.(pending := s.pending[1..], reduced := false, waiting := d.kept,
          finished := d.finished, pullCnt := d.pullCnt, seen := d.seen), d.answered)
  }

  /** Appending a message and an engine step commute. So it makes no difference that the messages of
      one push are appended one by one while the engine is at work on earlier ones. */
  lemma AppendCommutes(cfg: Config, s: KeyServer, m: Msg)
    requires cfg.Valid() && s.WellFormed(cfg) && s.pending != [] && Fits(cfg, m)
    ensures var t := s.(pending := s.pending + [m]);
            && t.WellFormed(cfg)
            && Engine(cfg, t).1 == Engine(cfg, s).1
            && Engine(cfg, t).0 == Engine(cfg, s).0.(pending := Engine(cfg, s).0.pending + [m])
  {
    assert (s.pending + [m])[0] == s.pending[0];
    assert (s.pending + [m])[1..] == s.pending[1..] + [m];
  }

  // ---- the closed system ----

  /** `sent[r]` is the gradient of the worker's push number `r + 1`. */
  datatype Client = Client(sent: seq<Vec>, pulls: nat, answers: nat)

  datatype Contribution = Contribution(worker: Worker, grad: Vec)

  /** The answer to a worker's pull number `round`, sent when `allRecvs` finish messages had been
      processed and `ahead` gradients of the next round were already in the store. */
  datatype Reply = Reply(worker: Worker, round: nat, allRecvs: nat, ahead: nat, value: Vec, byEngine: bool)

  datatype System = System(
    server: KeyServer,
    clients: seq<Client>,
    rounds: seq<seq<Contribution>>,   // complete rounds, in the order the handler accepted them
    current: seq<Contribution>,       // the open round
    allRecvs: nat,                    // rounds whose `AllRecv` has been processed
    executed: nat,                    // data messages of the round in the engine already executed
    replies: seq<Reply>)
  {
    /** The gradients of the round the engine is working on. */
    ghost function Working(): seq<Contribution> {
      if |rounds| > allRecvs then rounds[|rounds| - 1] else current
    }

    /** Pushes accepted so far for round `r + 1`. */
    ghost function Accepted(r: nat): seq<Contribution> {
      if r < |rounds| then rounds[r] else if r == |rounds| then current else []
    }

    function Ahead(): nat { (executed + 1) / 2 }
  }

  datatype Step = PushStep(w: Worker, g: Vec) | PullStep(w: Worker) | EngineStep

  function Start(cfg: Config): System {
    System(Blank, seq(cfg.n, _ => Client([], 0, 0)), [], [], 0, 0, [])
  }

  predicate Enabled(cfg: Config, y: System, step: Step) {
    && |y.clients| == cfg.n
    && match step
       case PushStep(w, g) =>
         && w < cfg.n && |g| == cfg.len
         && (if y.server.inited then y.clients[w].answers == |y.clients[w].sent|
             else w !in y.server.request)
       case PullStep(w) => w < cfg.n && y.clients[w].pulls < |y.clients[w].sent|
                           && y.clients[w].pulls == y.clients[w].answers
       case EngineStep => y.server.pending != []
  }

  function ServeAll(clients: seq<Client>, ws: seq<Worker>): (r: seq<Client>)
    ensures |r| == |clients|
  {
    seq(|clients|, w requires 0 <= w < |clients| =>
      if w in ws then clients[w].(answers := clients[w].answers + 1) else clients[w])
  }

  function EngineReplies(y: System, ws: seq<Worker>): (r: seq<Reply>)
    requires forall i :: 0 <= i < |ws| ==> ws[i] < |y.clients|
    ensures |r| == |ws|
  {
    seq(|ws|, i requires 0 <= i < |ws| =>
      Reply(ws[i], y.clients[ws[i]].answers + 1, y.allRecvs + 1, 0, y.server.mem.store, true))
  }

  ghost predicate Sane(cfg: Config, y: System) {
    && cfg.Valid() && y.server.WellFormed(cfg) && |y.clients| == cfg.n
    && forall i :: 0 <= i < |y.server.waiting| ==> y.server.waiting[i] < cfg.n
  }

  function Next(cfg: Config, y: System, step: Step): System
    requires Sane(cfg, y) && Enabled(cfg, y, step)
  {
    match step
    case PushStep(w, g) =>
      var server := Push(cfg, y.server, w, g);
      if !y.server.inited then y.(server := server)
      else
        var c := y.clients[w];
        var current := y.current + [Contribution(w, g)];
        var z := y.(server := server, clients := y.clients[w := c.(sent := c.sent + [g])]);
        if server.request == [] then z.(rounds := y.rounds + [current], current := [])
        else z.(current := current)
    case PullStep(w) =>
      var (server, answer) := Pull(cfg, y.server, w);
      var c := y.clients[w].(pulls := y.clients[w].pulls + 1);
      if answer.None? then y.(server := server, clients := y.clients[w := c])
      else
        y.(server := server,
           clients := y.clients[w := c.(answers := c.answers + 1)],
           replies := y.replies + [Reply(w, c.answers + 1, y.allRecvs, y.Ahead(), answer.value, false)])
    case EngineStep =>
      var (server, answered) := Engine(cfg, y.server);
      if y.server.pending[0] != AllRecv then y.(server := server, executed := y.executed + 1)
      else if !y.server.reduced then y.(server := server)
      else
        DrainSubset(cfg.n, y.server.waiting, y.server.seen, y.server.pullCnt);
        y.(server := server, clients := ServeAll(y.clients, answered), allRecvs := y.allRecvs + 1,
           executed := 0, replies := y.replies + EngineReplies(y, answered))
  }

  lemma {:induction false} DrainSubset(n: nat, q: seq<Worker>, seen: set<Worker>, cnt: nat)
    ensures forall i :: 0 <= i < |Drain(n, q, seen, cnt).answered| ==> Drain(n, q, seen, cnt).answered[i] in q
    ensures forall i :: 0 <= i < |Drain(n, q, seen, cnt).kept| ==> Drain(n, q, seen, cnt).kept[i] in q
    decreases |q|
  {
    if q != [] {
      var w := q[0];
      var seen' := if w !in seen then seen + {w} else seen;
      var cnt' := if w !in seen then cnt + 1 else cnt;
      if cnt' != n {
        DrainSubset(n, q[1..], seen', cnt');
      }
    }
  }
}
