/** The parameter server with all its keys and engine threads, as an object that the request
    handler and the engine threads change step by step. Every operation acts on its own key as the
    round protocol prescribes and leaves the view of every other key alone. */
module Server {
  import opened Options
  import opened Tensors
  import opened Reducers
  import opened RoundProtocol
  import opened ThreadAssignment

  datatype Entry = Entry(key: Key, msg: Msg)

  /** The messages of one key, in queue order. */
  function Filter(q: seq<Entry>, k: Key): (r: seq<Msg>) {
    if q == [] then []
    else if q[0].key == k then [q[0].msg] + Filter(q[1..], k)
    else Filter(q[1..], k)
  }

  lemma {:induction false} FilterAppend(a: seq<Entry>, b: seq<Entry>, k: Key)
    ensures Filter(a + b, k) == Filter(a, k) + Filter(b, k)
    decreases |a|
  {
    if a == [] {
      assert a + b == b;
    } else {
      FilterAppend(a[1..], b, k);
      assert (a + b)[1..] == a[1..] + b;
    }
  }

  /** What an engine thread keeps per key under its lock. Keys not in a map have its default. */
  datatype Flags = Flags(finished: map<Key, bool>, pullCnt: map<Key, nat>,
                         seen: map<Key, set<Worker>>, waiting: map<Key, seq<Worker>>)

  function FlagKeys(f: Flags): set<Key> {
    f.finished.Keys + f.pullCnt.Keys + f.seen.Keys + f.waiting.Keys
  }

  function Get<V>(m: map<Key, V>, k: Key, default: V): V {
    if k in m then m[k] else default
  }

  /** All of the server's state. */
  datatype State = State(
    n: nat, mode: Mode,
    store: map<Key, Vec>, replica: map<Key, Vec>,
    requests: map<Key, seq<Worker>>,
    merged: set<Key>,
    table: Table,
    queues: seq<seq<Entry>>,
    reduced: seq<bool>,
    flags: seq<Flags>)

  function CfgOf(s: State, k: Key): Config {
    Config(s.n, |Get(s.store, k, [])|, s.mode)
  }

  ghost predicate Shaped(s: State) {
    && s.n > 0
    && 0 < |s.queues| == |s.reduced| == |s.flags| == |s.table.loads|
    && s.store.Keys == s.replica.Keys
    && (forall k :: k in s.table.cache ==> s.table.cache[k] < |s.queues| && k in s.store)
    && (forall k :: k in s.store ==> |s.store[k]| > 0)
  }

  /** The thread of a key, if it has one. */
  function ThreadOf(s: State, k: Key): (t: Option<nat>)
    requires Shaped(s)
    ensures t.Some? ==> t.value < |s.queues|
  {
    if k in s.table.cache then Some(s.table.cache[k]) else None
  }

  /** One key's part of the state. */
  ghost function View(s: State, k: Key): KeyServer
    requires Shaped(s)
  {
    var mem := if k in s.store then Mem(s.store[k], s.replica[k]) else Mem([], []);
    match ThreadOf(s, k)
    case None =>
      KeyServer(k in s.store, mem, Get(s.requests, k, []), false, [], false, k in s.merged, false, 0, {}, [])
    case Some(t) =>
      KeyServer(k in s.store, mem, Get(s.requests, k, []), true,
                Filter(s.queues[t], k),
                s.reduced[t] && s.queues[t] != [] && s.queues[t][0].key == k,
                k in s.merged,
                Get(s.flags[t].finished, k, false), Get(s.flags[t].pullCnt, k, 0),
                Get(s.flags[t].seen, k, {}), Get(s.flags[t].waiting, k, []))
  }

  /** A thread's queue and flags speak only of the keys assigned to it. */
  ghost predicate ThreadOk(s: State, t: nat)
    requires Shaped(s) && t < |s.queues|
  {
    && (forall i :: 0 <= i < |s.queues[t]| ==> ThreadOf(s, s.queues[t][i].key) == Some(t))
    && (s.reduced[t] ==> s.queues[t] != [] && s.queues[t][0].msg == AllRecv)
    && (forall k :: k in FlagKeys(s.flags[t]) ==> ThreadOf(s, k) == Some(t))
  }

  ghost predicate Valid(s: State) {
    && Shaped(s)
    && (forall t :: 0 <= t < |s.queues| ==> ThreadOk(s, t))
    && (forall k :: View(s, k).WellFormed(CfgOf(s, k)))
  }

  // ---- how updates of the state show in the views ----

  ghost predicate OthersSame(s: State, s': State, key: Key)
    requires Shaped(s) && Shaped(s')
  {
    forall k :: k != key ==> View(s', k) == View(s, k) && CfgOf(s', k) == CfgOf(s, k)
  }

  ghost predicate ThreadsOk(s: State)
    requires Shaped(s)
  {
    forall t :: 0 <= t < |s.queues| ==> ThreadOk(s, t)
  }

  lemma ValidAgain(s: State, s': State, key: Key)
    requires Valid(s) && Shaped(s') && OthersSame(s, s', key) && ThreadsOk(s')
    requires View(s', key).WellFormed(CfgOf(s', key))
    ensures Valid(s')
  {
    forall k ensures View(s', k).WellFormed(CfgOf(s', k)) {
      if k != key {
        assert View(s, k).WellFormed(CfgOf(s, k));
      }
    }
  }

  function SetRequest(s: State, key: Key, request: seq<Worker>): State {
    s.(requests := s.requests[key := request])
  }

  lemma SetRequestView(s: State, key: Key, request: seq<Worker>)
    requires Shaped(s) && ThreadsOk(s)
    ensures var s' := SetRequest(s, key, request);
            && Shaped(s') && ThreadsOk(s') && OthersSame(s, s', key) && CfgOf(s', key) == CfgOf(s, key)
            && View(s', key) == View(s, key).(request := request)
  {
    var s' := SetRequest(s, key, request);
    forall t | 0 <= t < |s'.queues| ensures ThreadOk(s', t) {
      assert ThreadOk(s, t);
    }
  }

  function Allocate(s: State, key: Key, g: Vec): State
    requires s.n > 0
  {
    SlotBounds(s.n, |g|, 0);
    s.(store := s.store[key := g], replica := s.replica[key := g + Zero(s.n * |g| - |g|)])
  }

  lemma AllocateView(s: State, key: Key, g: Vec)
    requires Shaped(s) && ThreadsOk(s) && key !in s.store && |g| > 0
    ensures var s' := Allocate(s, key, g);
            && Shaped(s') && ThreadsOk(s') && OthersSame(s, s', key) && CfgOf(s', key) == Config(s.n, |g|, s.mode)
            && View(s', key) == View(s, key).(inited := true, mem := Mem(g, s'.replica[key]))
  {
    var s' := Allocate(s, key, g);
    forall t | 0 <= t < |s'.queues| ensures ThreadOk(s', t) {
      assert ThreadOk(s, t);
    }
  }

  function Route(s: State, table: Table): State {
    s.(table := table)
  }

  lemma {:induction false} FilterAbsent(q: seq<Entry>, k: Key)
    requires forall i :: 0 <= i < |q| ==> q[i].key != k
    ensures Filter(q, k) == []
  {
    if q != [] {
      FilterAbsent(q[1..], k);
    }
  }

  lemma RouteThreads(s: State, key: Key, len: nat)
    requires Shaped(s) && ThreadsOk(s) && key in s.store && Assign(s.table, key, len).1.Some?
    ensures var s' := Route(s, Assign(s.table, key, len).0);
            && Shaped(s') && ThreadsOk(s') && ThreadOf(s', key) == Assign(s.table, key, len).1
            && forall k :: k != key ==> ThreadOf(s', k) == ThreadOf(s, k)
  {
    var s' := Route(s, Assign(s.table, key, len).0);
    forall t | 0 <= t < |s'.queues| ensures ThreadOk(s', t) {
      assert ThreadOk(s, t);
    }
  }

  lemma UnroutedAbsent(s: State, key: Key, t: nat)
    requires Shaped(s) && ThreadsOk(s) && ThreadOf(s, key) == None && t < |s.queues|
    ensures Filter(s.queues[t], key) == [] && key !in FlagKeys(s.flags[t])
    ensures s.queues[t] != [] ==> s.queues[t][0].key != key
  {
    assert ThreadOk(s, t);
    FilterAbsent(s.queues[t], key);
  }

  lemma RouteView(s: State, key: Key, len: nat)
    requires Shaped(s) && ThreadsOk(s) && key in s.store && Assign(s.table, key, len).1.Some?
    ensures var s' := Route(s, Assign(s.table, key, len).0);
            && Shaped(s') && ThreadsOk(s') && OthersSame(s, s', key) && CfgOf(s', key) == CfgOf(s, key)
            && View(s', key) == View(s, key).(routed := true)
            && ThreadOf(s', key) == Assign(s.table, key, len).1
  {
    RouteThreads(s, key, len);
    if key !in s.table.cache {
      UnroutedAbsent(s, key, Assign(s.table, key, len).1.value);
    }
  }

  function Enqueue(s: State, t: nat, e: Entry): State
    requires t < |s.queues|
  {
    s.(queues := s.queues[t := s.queues[t] + [e]])
  }

  lemma EnqueueView(s: State, t: nat, key: Key, m: Msg)
    requires Shaped(s) && ThreadsOk(s) && ThreadOf(s, key) == Some(t)
    ensures var s' := Enqueue(s, t, Entry(key, m));
            && Shaped(s') && ThreadsOk(s') && OthersSame(s, s', key) && CfgOf(s', key) == CfgOf(s, key)
            && View(s', key) == View(s, key).(pending := View(s, key).pending + [m])
  {
    var e := Entry(key, m);
    var s' := Enqueue(s, t, e);
    assert ThreadOk(s, t);
    forall u | 0 <= u < |s'.queues| ensures ThreadOk(s', u) {
      assert ThreadOk(s, u);
    }
    forall k ensures Filter(s'.queues[t], k) == Filter(s.queues[t], k) + (if k == key then [m] else []) {
      FilterAppend(s.queues[t], [e], k);
    }
  }

  function SetMem(s: State, key: Key, mem: Mem): State {
    s.(store := s.store[key := mem.store], replica := s.replica[key := mem.replica])
  }

  lemma SetMemView(s: State, key: Key, mem: Mem)
    requires Shaped(s) && ThreadsOk(s) && key in s.store && |mem.store| == |s.store[key]|
    ensures var s' := SetMem(s, key, mem);
            && Shaped(s') && ThreadsOk(s') && OthersSame(s, s', key) && CfgOf(s', key) == CfgOf(s, key)
            && View(s', key) == View(s, key).(mem := mem)
  {
    var s' := SetMem(s, key, mem);
    forall t | 0 <= t < |s'.queues| ensures ThreadOk(s', t) {
      assert ThreadOk(s, t);
    }
  }

  /** Removes the head message. */
  function Pop(s: State, t: nat): State
    requires t < |s.queues| == |s.reduced| && s.queues[t] != []
  {
    s.(queues := s.queues[t := s.queues[t][1..]], reduced := s.reduced[t := false])
  }

  lemma PopView(s: State, t: nat)
    requires Shaped(s) && ThreadsOk(s) && t < |s.queues| && s.queues[t] != []
    ensures var s', key := Pop(s, t), s.queues[t][0].key;
            && Shaped(s') && ThreadsOk(s') && OthersSame(s, s', key) && CfgOf(s', key) == CfgOf(s, key)
            && View(s, key).pending != [] && View(s, key).pending[0] == s.queues[t][0].msg
            && View(s, key).reduced == s.reduced[t] && key in s.store && ThreadOf(s, key) == Some(t)
            && View(s', key) == View(s, key).(pending := View(s, key).pending[1..], reduced := false)
  {
    var s', key := Pop(s, t), s.queues[t][0].key;
    assert ThreadOk(s, t);
    forall u | 0 <= u < |s'.queues| ensures ThreadOk(s', u) {
      assert ThreadOk(s, u);
    }
    assert Filter(s.queues[t], key) == [s.queues[t][0].msg] + Filter(s.queues[t][1..], key);
  }

  function MarkReduced(s: State, t: nat, key: Key): State
    requires t < |s.reduced|
  {
    s.(merged := s.merged + {key}, reduced := s.reduced[t := true])
  }

  lemma MarkReducedView(s: State, t: nat)
    requires Shaped(s) && ThreadsOk(s) && t < |s.queues| && s.queues[t] != [] && s.queues[t][0].msg == AllRecv
    ensures var key := s.queues[t][0].key; var s' := MarkReduced(s, t, key);
            && Shaped(s') && ThreadsOk(s') && OthersSame(s, s', key) && CfgOf(s', key) == CfgOf(s, key)
            && View(s', key) == View(s, key).(merged := true, reduced := true)
  {
    var key := s.queues[t][0].key;
    var s' := MarkReduced(s, t, key);
    assert ThreadOk(s, t);
    forall u | 0 <= u < |s'.queues| ensures ThreadOk(s', u) {
      assert ThreadOk(s, u);
    }
  }

  function SetFlags(s: State, t: nat, key: Key, fin: bool, cnt: nat, seen: set<Worker>, waiting: seq<Worker>): State
    requires t < |s.flags|
  {
    var f := s.flags[t];
    s.(flags := s.flags[t := Flags(f.finished[key := fin], f.pullCnt[key := cnt],
                                   f.seen[key := seen], f.waiting[key := waiting])])
  }

  lemma SetFlagsThreads(s: State, t: nat, key: Key, fin: bool, cnt: nat, seen: set<Worker>, waiting: seq<Worker>)
    requires Shaped(s) && ThreadsOk(s) && ThreadOf(s, key) == Some(t)
    ensures var s' := SetFlags(s, t, key, fin, cnt, seen, waiting); Shaped(s') && ThreadsOk(s')
  {
    var s' := SetFlags(s, t, key, fin, cnt, seen, waiting);
    forall u | 0 <= u < |s'.queues| ensures ThreadOk(s', u) {
      assert ThreadOk(s, u);
      assert FlagKeys(s'.flags[u]) <= FlagKeys(s.flags[u]) + (if u == t then {key} else {});
    }
  }

  lemma SetFlagsView(s: State, t: nat, key: Key, fin: bool, cnt: nat, seen: set<Worker>, waiting: seq<Worker>)
    requires Shaped(s) && ThreadsOk(s) && ThreadOf(s, key) == Some(t)
    ensures var s' := SetFlags(s, t, key, fin, cnt, seen, waiting);
            && Shaped(s') && ThreadsOk(s') && OthersSame(s, s', key) && CfgOf(s', key) == CfgOf(s, key)
            && View(s', key) == View(s, key).(finished := fin, pullCnt := cnt, seen := seen, waiting := waiting)
  {
    SetFlagsThreads(s, t, key, fin, cnt, seen, waiting);
  }

  lemma OthersTrans(s: State, s1: State, s2: State, key: Key)
    requires Shaped(s) && Shaped(s1) && Shaped(s2) && OthersSame(s, s1, key) && OthersSame(s1, s2, key)
    ensures OthersSame(s, s2, key)
  {
  }

  /** The state reaches `s'` by changing only `key`, whose view becomes `v`. */
  ghost predicate Becomes(s: State, s': State, key: Key, v: KeyServer) {
    Shaped(s) && Shaped(s') && ThreadsOk(s') && OthersSame(s, s', key) && View(s', key) == v
  }

  function MulNat(a: nat, b: nat): nat {
    SlotBounds(a + 1, b, a);
    a * b
  }

  /** The two messages that every push of a round enqueues. */
  function TwoQueued(s: State, t: nat, key: Key, g: Vec): State
    requires t < |s.queues|
  {
    var request := Get(s.requests, key, []);
    Enqueue(Enqueue(s, t, Entry(key, if request == [] then CopyFirst(Store, g) else SumRecv(g))),
            t, Entry(key, CopyFirst(Replica(MulNat(|request|, |g|)), g)))
  }

  /** An accepted push after routing: two or three messages and the sender's registration. */
  function RoundPushState(s: State, t: nat, key: Key, w: Worker, g: Vec): State
    requires t < |s.queues|
  {
    var request := Get(s.requests, key, []);
    var s2 := TwoQueued(s, t, key, g);
    if |request| + 1 == s.n then SetRequest(Enqueue(s2, t, Entry(key, AllRecv)), key, [])
    else SetRequest(s2, key, request + [w])
  }

  lemma TwoQueuedView(s: State, t: nat, key: Key, g: Vec)
    requires Shaped(s) && ThreadsOk(s) && ThreadOf(s, key) == Some(t)
    ensures var request := View(s, key).request;
            Becomes(s, TwoQueued(s, t, key, g), key, View(s, key).(pending := View(s, key).pending
              + [if request == [] then CopyFirst(Store, g) else SumRecv(g)]
              + [CopyFirst(Replica(MulNat(|request|, |g|)), g)]))
  {
    var request := Get(s.requests, key, []);
    var head := if request == [] then CopyFirst(Store, g) else SumRecv(g);
    var s1 := Enqueue(s, t, Entry(key, head));
    EnqueueView(s, t, key, head);
    EnqueueView(s1, t, key, CopyFirst(Replica(MulNat(|request|, |g|)), g));
    OthersTrans(s, s1, TwoQueued(s, t, key, g), key);
  }

  /** What follows the two messages: the finish message when the round is complete. */
  lemma RegisterView(s: State, t: nat, key: Key, request: seq<Worker>)
    requires Shaped(s) && ThreadsOk(s) && ThreadOf(s, key) == Some(t)
    ensures Becomes(s, SetRequest(s, key, request), key, View(s, key).(request := request))
    ensures Becomes(s, SetRequest(Enqueue(s, t, Entry(key, AllRecv)), key, []), key,
                    View(s, key).(request := [], pending := View(s, key).pending + [AllRecv]))
  {
    SetRequestView(s, key, request);
    var s3 := Enqueue(s, t, Entry(key, AllRecv));
    EnqueueView(s, t, key, AllRecv);
    SetRequestView(s3, key, []);
    OthersTrans(s, s3, SetRequest(s3, key, []), key);
  }

  lemma BecomesTrans(s: State, s1: State, s2: State, key: Key, v: KeyServer, v2: KeyServer)
    requires Becomes(s, s1, key, v) && Becomes(s1, s2, key, v2)
    ensures Becomes(s, s2, key, v2)
  {
    OthersTrans(s, s1, s2, key);
  }

  /** The view after the two messages and the registration is what the push makes of it. */
  lemma PushIs(cfg: Config, v: KeyServer, w: Worker, g: Vec)
    requires cfg.Valid() && v.WellFormed(cfg) && |g| == cfg.len && v.inited && v.routed
    ensures var u := v.(pending := v.pending + [if v.request == [] then CopyFirst(Store, g) else SumRecv(g)]
                                  + [CopyFirst(Replica(MulNat(|v.request|, |g|)), g)]);
            Push(cfg, v, w, g) == if |v.request| + 1 == cfg.n then u.(request := [], pending := u.pending + [AllRecv])
                                  else u.(request := v.request + [w])
  {
  }

  lemma RoundPushView(s: State, t: nat, key: Key, w: Worker, g: Vec)
    requires Shaped(s) && ThreadsOk(s) && ThreadOf(s, key) == Some(t) && |g| == |s.store[key]|
    requires View(s, key).WellFormed(CfgOf(s, key))
    ensures Becomes(s, RoundPushState(s, t, key, w, g), key, Push(CfgOf(s, key), View(s, key), w, g))
    ensures CfgOf(RoundPushState(s, t, key, w, g), key) == CfgOf(s, key)
  {
    var request := Get(s.requests, key, []);
    var s2 := TwoQueued(s, t, key, g);
    TwoQueuedView(s, t, key, g);
    RegisterView(s2, t, key, request + [w]);
    PushIs(CfgOf(s, key), View(s, key), w, g);
    BecomesTrans(s, s2, RoundPushState(s, t, key, w, g), key, View(s2, key), View(RoundPushState(s, t, key, w, g), key));
  }

  function InitPushState(s: State, key: Key, w: Worker, g: Vec): State
    requires s.n > 0
  {
    var request := Get(s.requests, key, []) + [w];
    if |request| < s.n then SetRequest(s, key, request)
    else SetRequest(Allocate(s, key, g), key, [])
  }

  lemma InitPushView(s: State, key: Key, w: Worker, g: Vec)
    requires Shaped(s) && ThreadsOk(s) && key !in s.store && |g| > 0
    requires View(s, key).WellFormed(Config(s.n, |g|, s.mode))
    ensures Becomes(s, InitPushState(s, key, w, g), key, Push(Config(s.n, |g|, s.mode), View(s, key), w, g))
  {
    var request := Get(s.requests, key, []) + [w];
    if |request| < s.n {
      SetRequestView(s, key, request);
    } else {
      AllocateView(s, key, g);
      SetRequestView(Allocate(s, key, g), key, []);
      OthersTrans(s, Allocate(s, key, g), InitPushState(s, key, w, g), key);
    }
  }

  /** What an engine step does to the state as a whole. */
  function EngineState(s: State, t: nat): State
    requires Shaped(s) && ThreadsOk(s) && t < |s.queues| && s.queues[t] != []
    requires View(s, s.queues[t][0].key).WellFormed(CfgOf(s, s.queues[t][0].key))
  {
    PopView(s, t);
    var Entry(key, msg) := s.queues[t][0];
    if msg != AllRecv then
      Pop(SetMem(s, key, Exec(CfgOf(s, key), Mem(s.store[key], s.replica[key]), msg)), t)
    else if !s.reduced[t] then
      MarkReduced(SetMem(s, key, Mem(ReduceStore(s.mode, s.store[key], s.replica[key], s.n), s.replica[key])), t, key)
    else
      var f := s.flags[t];
      var d := Drain(s.n, Get(f.waiting, key, []), Get(f.seen, key, {}), Get(f.pullCnt, key, 0));
      Pop(SetFlags(s, t, key, d.finished, d.pullCnt, d.seen, d.kept), t)
  }

  ghost predicate EngineReady(s: State, t: nat) {
    Shaped(s) && ThreadsOk(s) && t < |s.queues| && s.queues[t] != []
    && View(s, s.queues[t][0].key).WellFormed(CfgOf(s, s.queues[t][0].key))
  }

  lemma DataView(s: State, t: nat)
    requires EngineReady(s, t) && s.queues[t][0].msg != AllRecv
    ensures var key := s.queues[t][0].key;
            && View(s, key).pending != [] && CfgOf(s, key).Valid()
            && Becomes(s, EngineState(s, t), key, Engine(CfgOf(s, key), View(s, key)).0)
            && CfgOf(EngineState(s, t), key) == CfgOf(s, key)
  {
    PopView(s, t);
    var Entry(key, msg) := s.queues[t][0];
    var mem := Exec(CfgOf(s, key), Mem(s.store[key], s.replica[key]), msg);
    SetMemView(s, key, mem);
    PopView(SetMem(s, key, mem), t);
    OthersTrans(s, SetMem(s, key, mem), EngineState(s, t), key);
    assert ThreadOk(s, t);
  }

  lemma ReduceView(s: State, t: nat)
    requires EngineReady(s, t) && s.queues[t][0].msg == AllRecv && !s.reduced[t]
    ensures var key := s.queues[t][0].key;
            && View(s, key).pending != [] && CfgOf(s, key).Valid()
            && Becomes(s, EngineState(s, t), key, Engine(CfgOf(s, key), View(s, key)).0)
            && CfgOf(EngineState(s, t), key) == CfgOf(s, key)
  {
    PopView(s, t);
    var key := s.queues[t][0].key;
    var mem := Mem(ReduceStore(s.mode, s.store[key], s.replica[key], s.n), s.replica[key]);
    SetMemView(s, key, mem);
    MarkReducedView(SetMem(s, key, mem), t);
    OthersTrans(s, SetMem(s, key, mem), EngineState(s, t), key);
  }

  lemma AnswerView(s: State, t: nat)
    requires EngineReady(s, t) && s.queues[t][0].msg == AllRecv && s.reduced[t]
    ensures var key := s.queues[t][0].key;
            && View(s, key).pending != [] && CfgOf(s, key).Valid()
            && Becomes(s, EngineState(s, t), key, Engine(CfgOf(s, key), View(s, key)).0)
            && CfgOf(EngineState(s, t), key) == CfgOf(s, key)
  {
    PopView(s, t);
    var key, f := s.queues[t][0].key, s.flags[t];
    var d := Drain(s.n, Get(f.waiting, key, []), Get(f.seen, key, {}), Get(f.pullCnt, key, 0));
    var s1 := SetFlags(s, t, key, d.finished, d.pullCnt, d.seen, d.kept);
    SetFlagsView(s, t, key, d.finished, d.pullCnt, d.seen, d.kept);
    PopView(s1, t);
    OthersTrans(s, s1, EngineState(s, t), key);
  }

  /** The workers an engine step answers. */
  function AnsweredBy(s: State, t: nat): seq<Worker>
    requires Shaped(s) && t < |s.queues| && s.queues[t] != []
  {
    var Entry(key, msg) := s.queues[t][0];
    if msg != AllRecv || !s.reduced[t] then []
    else
      var f := s.flags[t];
      Drain(s.n, Get(f.waiting, key, []), Get(f.seen, key, {}), Get(f.pullCnt, key, 0)).answered
  }

  lemma EngineView(s: State, t: nat)
    requires EngineReady(s, t)
    ensures var key := s.queues[t][0].key;
            && View(s, key).pending != [] && CfgOf(s, key).Valid()
            && Becomes(s, EngineState(s, t), key, Engine(CfgOf(s, key), View(s, key)).0)
            && CfgOf(EngineState(s, t), key) == CfgOf(s, key)
            && AnsweredBy(s, t) == Engine(CfgOf(s, key), View(s, key)).1
  {
    PopView(s, t);
    if s.queues[t][0].msg != AllRecv {
      DataView(s, t);
    } else if !s.reduced[t] {
      ReduceView(s, t);
    } else {
      AnswerView(s, t);
    }
  }

  // ---- the server object ----

  datatype PullResult =
    | NotInitialised          // a check fails: the key has no store
    | Unrouted                // a check fails: the key was never pushed
    | NoBuffer                // a check fails: there is no reduced buffer to answer from
    | Queued
    | Answer(value: Vec)

  class ParameterServer {
    const n: nat
    const mode: Mode
    var store: map<Key, Vec>
    var replica: map<Key, Vec>
    var requests: map<Key, seq<Worker>>
    var merged: set<Key>
    var hashCache: map<Key, nat>
    var accLoad: seq<nat>
    var queues: seq<seq<Entry>>
    var reduced: seq<bool>
    var flags: seq<Flags>

    ghost function Now(): State
      reads this
    {
      State(n, mode, store, replica, requests, merged, Table(hashCache, accLoad), queues, reduced, flags)
    }

    constructor (n: nat, threads: nat, mode: Mode)
      requires n > 0 && threads > 0
      ensures Valid(Now()) && Now().n == n && Now().mode == mode && |queues| == threads
      ensures forall k :: View(Now(), k) == Blank
    {
      this.n, this.mode := n, mode;
      store, replica, requests, merged := map[], map[], map[], {};
      hashCache, accLoad := map[], seq(threads, _ => 0);
      queues, reduced := seq(threads, _ => []), seq(threads, _ => false);
      flags := seq(threads, _ => Flags(map[], map[], map[], map[]));
    }

    /** The thread of a key, choosing the least loaded one if the key is new. */
    method GetThreadId(key: Key, len: nat) returns (r: Option<nat>)
      requires Valid(Now())
      modifies this`hashCache, this`accLoad
      ensures (Table(hashCache, accLoad), r) == Assign(old(Table(hashCache, accLoad)), key, len)
    {
      if key in hashCache {
        return Some(hashCache[key]);
      }
      if len == 0 {
        return None;
      }
      var minIndex, minLoad := -1, MAX_LOAD;
      for i := 0 to |accLoad|
        invariant accLoad == old(accLoad) && hashCache == old(hashCache)
        invariant -1 <= minIndex < i && minLoad <= MAX_LOAD
        invariant minIndex < 0 ==> minLoad == MAX_LOAD && forall j :: 0 <= j < i ==> accLoad[j] >= MAX_LOAD
        invariant minIndex >= 0 ==> minLoad == accLoad[minIndex] < MAX_LOAD
                                    && minIndex == Least(accLoad[..i])
      {
        assert i > 0 ==> accLoad[..i + 1][..i] == accLoad[..i];
        if accLoad[i] < minLoad {
          minLoad, minIndex := accLoad[i], i;
        }
      }
      assert accLoad[..|accLoad|] == accLoad;
      if minIndex < 0 {
        return None;
      }
      accLoad := accLoad[minIndex := accLoad[minIndex] + len];
      hashCache := hashCache[key := minIndex];
      return Some(minIndex);
    }

    /** The first push of each worker for a key only initialises it. */
    method InitPush(key: Key, w: Worker, g: Vec) returns (acks: seq<Worker>)
      requires Valid(Now()) && |g| > 0 && key !in store
      modifies this
      ensures Now() == InitPushState(old(Now()), key, w, g)
      ensures acks == Acks(Config(n, |g|, mode), old(View(Now(), key)), w)
    {
      var request := Get(requests, key, []) + [w];
      if |request| < n {
        requests := requests[key := request];
        return [];
      }
      SlotBounds(n, |g|, 0);
      store := store[key := g];
      replica := replica[key := g + Zero(n * |g| - |g|)];
      acks := request;
      requests := requests[key := []];
    }

    method Send(t: nat, key: Key, msg: Msg)
      requires t < |queues|
      modifies this`queues
      ensures Now() == Enqueue(old(Now()), t, Entry(key, msg))
    {
      queues := queues[t := queues[t] + [Entry(key, msg)]];
    }

    method RoundPush(t: nat, key: Key, w: Worker, g: Vec) returns (acks: seq<Worker>)
      requires t < |queues|
      modifies this`queues, this`requests
      ensures Now() == RoundPushState(old(Now()), t, key, w, g)
      ensures acks == [w]
    {
      var request := Get(requests, key, []);
      if request == [] {
        Send(t, key, CopyFirst(Store, g));
      } else {
        Send(t, key, SumRecv(g));
      }
      Send(t, key, CopyFirst(Replica(MulNat(|request|, |g|)), g));
      request := request + [w];
      acks := [w];
      if |request| == n {
        Send(t, key, AllRecv);
        request := [];
      }
      requests := requests[key := request];
    }

    /** A push request. No answer means that the check on the thread loads failed. */
    method HandlePush(key: Key, w: Worker, g: Vec) returns (acks: Option<seq<Worker>>)
      requires Valid(Now()) && |g| > 0 && (key in store ==> |g| == |store[key]|)
      modifies this
      ensures acks.None? <==> old(key in store && key !in hashCache && accLoad[Least(accLoad)] >= MAX_LOAD)
      ensures acks.None? ==> Now() == old(Now())
      ensures acks.Some? ==>
                && Valid(Now()) && OthersSame(old(Now()), Now(), key)
                && old(View(Now(), key)).WellFormed(Config(n, |g|, mode))
                && View(Now(), key) == Push(Config(n, |g|, mode), old(View(Now(), key)), w, g)
                && acks.value == Acks(Config(n, |g|, mode), old(View(Now(), key)), w)
    {
      ghost var s := Now();
      assert View(s, key).WellFormed(CfgOf(s, key));
      if key !in store {
        InitPushView(s, key, w, g);
        var a := InitPush(key, w, g);
        ValidAgain(s, Now(), key);
        return Some(a);
      }
      var thread := GetThreadId(key, |g|);
      if thread == None {
        return None;
      }
      ghost var s1 := Now();
      RouteView(s, key, |g|);
      RoundPushView(s1, thread.value, key, w, g);
      var a := RoundPush(thread.value, key, w, g);
      OthersTrans(s, s1, Now(), key);
      PushUnrouted(CfgOf(s, key), View(s, key), w, g);
      ValidAgain(s, Now(), key);
      return Some(a);
    }

    method WriteFlags(t: nat, key: Key, fin: bool, cnt: nat, seen: set<Worker>, waiting: seq<Worker>)
      requires t < |flags|
      modifies this`flags
      ensures Now() == SetFlags(old(Now()), t, key, fin, cnt, seen, waiting)
    {
      var f := flags[t];
      flags := flags[t := Flags(f.finished[key := fin], f.pullCnt[key := cnt],
                                f.seen[key := seen], f.waiting[key := waiting])];
    }

    /** A pull request. */
    method HandlePull(key: Key, w: Worker) returns (r: PullResult)
      requires Valid(Now())
      modifies this`flags
      ensures r.NotInitialised? <==> key !in store
      ensures r.Unrouted? <==> key in store && key !in hashCache
      ensures r.NoBuffer? <==>
                key in hashCache && key !in merged
                && old(View(Now(), key)).finished && w !in old(View(Now(), key)).seen
      ensures !r.Queued? && !r.Answer? ==> Now() == old(Now())
      ensures r.Queued? || r.Answer? ==>
                && Valid(Now()) && OthersSame(old(Now()), Now(), key)
                && old(View(Now(), key)).WellFormed(CfgOf(Now(), key))
                && (View(Now(), key), if r.Answer? then Some(r.value) else None)
                   == Pull(CfgOf(Now(), key), old(View(Now(), key)), w)
    {
      if key !in store {
        return NotInitialised;
      }
      if key !in hashCache {
        return Unrouted;
      }
      ghost var s := Now();
      assert View(s, key).WellFormed(CfgOf(s, key));
      var t := hashCache[key];
      var fin, cnt := Get(flags[t].finished, key, false), Get(flags[t].pullCnt, key, 0);
      var seen, waiting := Get(flags[t].seen, key, {}), Get(flags[t].waiting, key, []);
      if fin && w !in seen {
        if key !in merged {
          return NoBuffer;
        }
        r := Answer(store[key]);
        cnt, seen := cnt + 1, seen + {w};
        if cnt == n {
          fin, cnt, seen := false, 0, {};
        }
      } else {
        r := Queued;
        waiting := waiting + [w];
      }
      SetFlagsView(s, t, key, fin, cnt, seen, waiting);
      WriteFlags(t, key, fin, cnt, seen, waiting);
      ValidAgain(s, Now(), key);
    }

    /** Answers queued pulls in order until all workers are served. `kept` is the part of the queue
        before the iterator, `rest` the part from it on. */
    method AnswerQueued(q: seq<Worker>, seen0: set<Worker>, cnt0: nat) returns (d: Drained)
      ensures d == Drain(n, q, seen0, cnt0)
    {
      var kept, rest, seen, cnt, answered := [], q, seen0, cnt0, [];
      while rest != []
        invariant Drain(n, q, seen0, cnt0) == Prepend(kept, answered, Drain(n, rest, seen, cnt))
        decreases |rest|
      {
        DrainStep(n, kept, answered, rest, seen, cnt);
        if rest[0] !in seen {
          answered, cnt, seen := answered + [rest[0]], cnt + 1, seen + {rest[0]};
        } else {
          kept := kept + [rest[0]];
        }
        rest := rest[1..];
        if cnt == n {
          return Drained(kept + rest, answered, false, 0, {});
        }
      }
      d := Drained(kept, answered, true, cnt, seen);
    }

    method Dequeue(t: nat)
      requires t < |queues| == |reduced| && queues[t] != []
      modifies this`queues, this`reduced
      ensures Now() == Pop(old(Now()), t)
    {
      queues := queues[t := queues[t][1..]];
      reduced := reduced[t := false];
    }

    method Work(t: nat) returns (answered: seq<Worker>)
      requires EngineReady(Now(), t)
      modifies this
      ensures Now() == EngineState(old(Now()), t) && answered == AnsweredBy(old(Now()), t)
    {
      PopView(Now(), t);
      var Entry(key, msg) := queues[t][0];
      answered := [];
      if msg != AllRecv {
        var mem := Exec(Config(n, |store[key]|, mode), Mem(store[key], replica[key]), msg);
        store, replica := store[key := mem.store], replica[key := mem.replica];
        Dequeue(t);
      } else if !reduced[t] {
        store := store[key := ReduceStore(mode, store[key], replica[key], n)];
        assert replica == replica[key := replica[key]];
        merged := merged + {key};
        reduced := reduced[t := true];
      } else {
        var f := flags[t];
        var d := AnswerQueued(Get(f.waiting, key, []), Get(f.seen, key, {}), Get(f.pullCnt, key, 0));
        answered := d.answered;
        WriteFlags(t, key, d.finished, d.pullCnt, d.seen, d.kept);
        Dequeue(t);
      }
    }

    /** One step of engine thread `t`. Copies and sums finish in one step; the message that ends a
        round takes two, because reducing happens before the lock is taken under which queued
        pulls are answered. */
    method EngineStep(t: nat) returns (key: Key, answered: seq<Worker>, value: Vec)
      requires Valid(Now()) && t < |queues| && queues[t] != []
      modifies this
      ensures key == old(queues[t][0].key) && Valid(Now()) && OthersSame(old(Now()), Now(), key)
      ensures old(View(Now(), key).pending != [] && CfgOf(Now(), key).Valid())
      ensures (View(Now(), key), answered) == old(Engine(CfgOf(Now(), key), View(Now(), key)))
      ensures key in store && value == store[key] && CfgOf(Now(), key) == old(CfgOf(Now(), key))
    {
      ghost var s := Now();
      key := queues[t][0].key;
      assert View(s, key).WellFormed(CfgOf(s, key));
      EngineView(s, t);
      answered := Work(t);
      EngineKeepsStore(s, t);
      value := store[key];
      ValidAgain(s, Now(), key);
    }
  }

  lemma EngineKeepsStore(s: State, t: nat)
    requires EngineReady(s, t)
    ensures s.queues[t][0].key in EngineState(s, t).store
  {
    PopView(s, t);
  }

  ghost function Prepend(kept: seq<Worker>, answered: seq<Worker>, d: Drained): Drained {
    d.(kept := kept + d.kept, answered := answered + d.answered)
  }

  lemma DrainStep(n: nat, kept: seq<Worker>, answered: seq<Worker>, rest: seq<Worker>, seen: set<Worker>, cnt: nat)
    requires rest != []
    ensures var w := rest[0]; var serve := w !in seen;
            var kept' := if serve then kept else kept + [w];
            var answered' := if serve then answered + [w] else answered;
            var seen' := if serve then seen + {w} else seen;
            var cnt' := if serve then cnt + 1 else cnt;
            Prepend(kept, answered, Drain(n, rest, seen, cnt)) ==
            if cnt' == n then Drained(kept' + rest[1..], answered', false, 0, {})
            else Prepend(kept', answered', Drain(n, rest[1..], seen', cnt'))
  {
    var w := rest[0];
    if w !in seen {
      assert forall x: seq<Worker> :: answered + ([w] + x) == answered + [w] + x;
    } else {
      assert forall x: seq<Worker> :: kept + ([w] + x) == kept + [w] + x;
    }
  }

  /** Routing a key before its push makes no difference to the push. */
  lemma PushUnrouted(cfg: Config, s: KeyServer, w: Worker, g: Vec)
    requires cfg.Valid() && s.WellFormed(cfg) && |g| == cfg.len && s.inited
    ensures Push(cfg, s.(routed := true), w, g) == Push(cfg, s, w, g)
  {
  }
}
