/** Executions of the whole server, with any number of keys and engine threads and any schedule of
    requests and engine steps: for every key, what the server does is a run of that key's closed
    system, and what it sends to workers are exactly that run's answers. */
module Execution {
  import opened Options
  import opened Tensors
  import opened Reducers
  import opened RoundProtocol
  import opened RoundSafety
  import opened ThreadAssignment
  import opened Server
  import LatePulls
  import RoundTheorems

  datatype Action = DoPush(key: Key, w: Worker, g: Vec) | DoPull(key: Key, w: Worker) | DoEngine(t: nat)

  /** A pull response that left the server. */
  datatype Sent = Sent(key: Key, worker: Worker, value: Vec)

  function SentFor(out: seq<Sent>, k: Key): seq<(Worker, Vec)> {
    if out == [] then []
    else
      var last := out[|out| - 1];
      SentFor(out[..|out| - 1], k) + (if last.key == k then [(last.worker, last.value)] else [])
  }

  ghost function Pairs(replies: seq<Reply>): (r: seq<(Worker, Vec)>)
    ensures |r| == |replies|
  {
    seq(|replies|, i requires 0 <= i < |replies| => (replies[i].worker, replies[i].value))
  }

  function KeyConfig(s: State, len: nat): Config {
    Config(s.n, len, s.mode)
  }

  /** The server's view of a key is the state of a run of its closed system. */
  ghost predicate Follows(s: State, k: Key, len: nat, y: System, steps: seq<Step>)
    requires Shaped(s)
  {
    len > 0 && Run(KeyConfig(s, len), steps, y) && View(s, k) == y.server
  }

  ghost predicate Tracks(s: State, lens: map<Key, nat>, sys: map<Key, System>, runs: map<Key, seq<Step>>) {
    && Valid(s) && sys.Keys == lens.Keys && runs.Keys == lens.Keys
    && AllFollow(s, lens, sys, runs)
  }

  lemma FollowsSane(s: State, k: Key, len: nat, y: System, steps: seq<Step>)
    requires Shaped(s) && Follows(s, k, len, y, steps)
    ensures Sane(KeyConfig(s, len), y)
  {
    LatePulls.RunSane(KeyConfig(s, len), steps, y);
  }

  lemma FollowsNext(s: State, s': State, key: Key, len: nat, y: System, steps: seq<Step>, step: Step)
    requires Shaped(s) && Shaped(s') && Follows(s, key, len, y, steps) && s'.n == s.n && s'.mode == s.mode
    requires Sane(KeyConfig(s, len), y) && Enabled(KeyConfig(s, len), y, step)
    requires View(s', key) == Next(KeyConfig(s, len), y, step).server
    ensures Follows(s', key, len, Next(KeyConfig(s, len), y, step), steps + [step])
  {
    var cfg := KeyConfig(s, len);
    assert KeyConfig(s', len) == cfg;
    assert Run(cfg, steps + [step], Next(cfg, y, step)) by {
      LatePulls.RunExtends(cfg, steps, y, step);
    }
  }

  ghost predicate AllFollow(s: State, lens: map<Key, nat>, sys: map<Key, System>, runs: map<Key, seq<Step>>)
    requires Shaped(s) && sys.Keys == lens.Keys && runs.Keys == lens.Keys
  {
    && (forall k :: k in lens ==> Follows(s, k, lens[k], sys[k], runs[k]))
    && (forall k :: k !in lens ==> View(s, k) == Blank)
  }

  lemma AllFollowNext(s: State, s': State, lens: map<Key, nat>, sys: map<Key, System>, runs: map<Key, seq<Step>>,
                      key: Key, y: System, steps: seq<Step>)
    requires Shaped(s) && Shaped(s') && OthersSame(s, s', key) && key in lens && s'.n == s.n && s'.mode == s.mode
    requires sys.Keys == lens.Keys && runs.Keys == lens.Keys && AllFollow(s, lens, sys, runs)
    requires Follows(s', key, lens[key], y, steps)
    ensures AllFollow(s', lens, sys[key := y], runs[key := steps])
  {
    forall k | k in lens ensures Follows(s', k, lens[k], sys[key := y][k], runs[key := steps][k]) {
      if k != key {
        FollowsOther(s, s', key, k, lens[k], sys[k], runs[k]);
      }
    }
  }

  lemma FollowsOther(s: State, s': State, key: Key, k: Key, len: nat, y: System, steps: seq<Step>)
    requires Shaped(s) && Shaped(s') && OthersSame(s, s', key) && k != key && s'.n == s.n && s'.mode == s.mode
    requires Follows(s, k, len, y, steps)
    ensures Follows(s', k, len, y, steps)
  {
    assert View(s', k) == View(s, k);
  }

  /** In a run, a pull that a worker may make passes all of the server's checks. */
  lemma PullChecksHold(cfg: Config, steps: seq<Step>, y: System, w: Worker)
    requires cfg.Valid() && Run(cfg, steps, y) && Enabled(cfg, y, PullStep(w))
    ensures y.server.inited && y.server.routed && (y.server.finished ==> y.server.merged)
    ensures |y.server.mem.store| == cfg.len
  {
    RunInv(cfg, steps, y);
    assert y.server.inited;
    if w in y.server.request {
      assert y.current != [];
    } else {
      assert y.rounds != [];
    }
  }

  lemma PairsAppend(a: seq<Reply>, b: seq<Reply>)
    ensures Pairs(a + b) == Pairs(a) + Pairs(b)
  {
  }

  function Tagged(x: Sent, k: Key): seq<(Worker, Vec)> {
    if x.key == k then [(x.worker, x.value)] else []
  }

  lemma SentForSnoc(a: seq<Sent>, x: Sent, k: Key)
    ensures SentFor(a + [x], k) == SentFor(a, k) + Tagged(x, k)
  {
    assert (a + [x])[..|a|] == a;
  }

  lemma {:induction false} SentForAppend(a: seq<Sent>, b: seq<Sent>, k: Key)
    ensures SentFor(a + b, k) == SentFor(a, k) + SentFor(b, k)
    decreases |b|
  {
    if b == [] {
      assert a + b == a;
    } else {
      var init, x := b[..|b| - 1], b[|b| - 1];
      SentForAppend(a, init, k);
      SentForSnoc(a + init, x, k);
      SentForSnoc(init, x, k);
      assert b == init + [x] && a + b == (a + init) + [x];
    }
  }

  /** The same answers, addressed by key. */
  function Address(key: Key, ws: seq<Worker>, value: Vec): (r: seq<Sent>)
    ensures |r| == |ws|
  {
    seq(|ws|, i requires 0 <= i < |ws| => Sent(key, ws[i], value))
  }

  lemma {:induction false} AddressedTo(key: Key, ws: seq<Worker>, value: Vec, k: Key)
    ensures k != key ==> SentFor(Address(key, ws, value), k) == []
    ensures |SentFor(Address(key, ws, value), key)| == |ws|
    ensures forall i :: 0 <= i < |ws| ==> SentFor(Address(key, ws, value), key)[i] == (ws[i], value)
  {
    if ws != [] {
      var last := |ws| - 1;
      AddressedTo(key, ws[..last], value, k);
      assert Address(key, ws, value)[..last] == Address(key, ws[..last], value);
    }
  }

  ghost predicate Steps(cfg: Config, y: System, step: Step, z: System) {
    Sane(cfg, y) && Enabled(cfg, y, step) && z == Next(cfg, y, step)
  }

  /** The check of the thread loads that a push of this key would fail. */
  ghost predicate Overloaded(s: State, key: Key)
    requires Shaped(s)
  {
    key in s.store && key !in s.table.cache && s.table.loads[Least(s.table.loads)] >= MAX_LOAD
  }

  /** A worker's push: handled by the server as the key's run handles it. */
  method Push(server: ParameterServer, key: Key, len: nat, y: System, ghost steps: seq<Step>, w: Worker, g: Vec)
    returns (ok: bool, z: System)
    requires Valid(server.Now()) && Follows(server.Now(), key, len, y, steps)
    requires Enabled(KeyConfig(server.Now(), len), y, PushStep(w, g))
    modifies server
    ensures !ok ==> server.Now() == old(server.Now()) && Overloaded(server.Now(), key)
    ensures ok ==>
              && Valid(server.Now()) && OthersSame(old(server.Now()), server.Now(), key)
              && Follows(server.Now(), key, len, z, steps + [PushStep(w, g)]) && z.replies == y.replies
              && Steps(KeyConfig(server.Now(), len), y, PushStep(w, g), z)
  {
    ghost var s := server.Now();
    FollowsSane(s, key, len, y, steps);
    z := y;
    var acks := server.HandlePush(key, w, g);
    ok := acks.Some?;
    if ok {
      z := Next(Config(server.n, len, server.mode), y, PushStep(w, g));
      FollowsNext(s, server.Now(), key, len, y, steps, PushStep(w, g));
    }
  }

  /** A worker's pull: the server's checks hold, and its answer, if any, is the run's answer. */
  method Pull(server: ParameterServer, key: Key, len: nat, y: System, ghost steps: seq<Step>, w: Worker)
    returns (z: System, out: seq<Sent>)
    requires Valid(server.Now()) && Follows(server.Now(), key, len, y, steps)
    requires Enabled(KeyConfig(server.Now(), len), y, PullStep(w))
    modifies server
    ensures Valid(server.Now()) && OthersSame(old(server.Now()), server.Now(), key)
    ensures Follows(server.Now(), key, len, z, steps + [PullStep(w)])
    ensures Steps(KeyConfig(server.Now(), len), y, PullStep(w), z)
    ensures exists added :: z.replies == y.replies + added && SentFor(out, key) == Pairs(added)
    ensures forall k :: k != key ==> SentFor(out, k) == []
  {
    ghost var s := server.Now();
    FollowsSane(s, key, len, y, steps);
    PullChecksHold(KeyConfig(s, len), steps, y, w);
    var r := server.HandlePull(key, w);
    z := Next(Config(server.n, len, server.mode), y, PullStep(w));
    FollowsNext(s, server.Now(), key, len, y, steps, PullStep(w));
    out := if r.Answer? then [Sent(key, w, r.value)] else [];
    ghost var added := z.replies[|y.replies|..];
    assert z.replies == y.replies + added;
    assert SentFor(out, key) == Pairs(added);
  }

  /** One engine step on the thread whose head message is for `key`. */
  method Engine(server: ParameterServer, t: nat, key: Key, len: nat, y: System, ghost steps: seq<Step>)
    returns (z: System, out: seq<Sent>)
    requires Valid(server.Now()) && Follows(server.Now(), key, len, y, steps)
    requires t < |server.queues| && server.queues[t] != [] && server.queues[t][0].key == key
    modifies server
    ensures Valid(server.Now()) && OthersSame(old(server.Now()), server.Now(), key)
    ensures Follows(server.Now(), key, len, z, steps + [EngineStep])
    ensures Steps(KeyConfig(server.Now(), len), y, EngineStep, z)
    ensures exists added :: z.replies == y.replies + added && SentFor(out, key) == Pairs(added)
    ensures forall k :: k != key ==> SentFor(out, k) == []
  {
    ghost var s := server.Now();
    FollowsSane(s, key, len, y, steps);
    PopView(s, t);
    var k, answered, value := server.EngineStep(t);
    z := Next(Config(server.n, len, server.mode), y, EngineStep);
    FollowsNext(s, server.Now(), key, len, y, steps, EngineStep);
    out := Address(key, answered, value);
    forall k ensures k != key ==> SentFor(out, k) == [] {
      AddressedTo(key, answered, value, k);
    }
    AddressedTo(key, answered, value, key);
    ghost var added := z.replies[|y.replies|..];
    assert z.replies == y.replies + added;
    assert SentFor(out, key) == Pairs(added);
  }

  /** What has left the server for each key are the answers of the key's run. */
  ghost predicate Reported(lens: map<Key, nat>, sys: map<Key, System>, out: seq<Sent>)
    requires sys.Keys == lens.Keys
  {
    forall k :: k in lens ==> SentFor(out, k) == Pairs(sys[k].replies)
  }

  lemma ReportedNext(lens: map<Key, nat>, sys: map<Key, System>, out: seq<Sent>, key: Key, z: System, more: seq<Sent>)
    requires sys.Keys == lens.Keys && key in lens && Reported(lens, sys, out)
    requires exists added :: z.replies == sys[key].replies + added && SentFor(more, key) == Pairs(added)
    requires forall k :: k != key ==> SentFor(more, k) == []
    ensures Reported(lens, sys[key := z], out + more)
  {
    var added :| z.replies == sys[key].replies + added && SentFor(more, key) == Pairs(added);
    PairsAppend(sys[key].replies, added);
    forall k | k in lens ensures SentFor(out + more, k) == Pairs(sys[key := z][k].replies) {
      SentForAppend(out, more, k);
    }
  }

  /** A message in a queue belongs to a key that workers use. */
  lemma HeadKeyKnown(s: State, lens: map<Key, nat>, sys: map<Key, System>, runs: map<Key, seq<Step>>, t: nat)
    requires Tracks(s, lens, sys, runs) && t < |s.queues| && s.queues[t] != []
    ensures s.queues[t][0].key in lens
  {
    PopView(s, t);
  }

  /** The workers' systems before anything happened. */
  function Starts(n: nat, mode: Mode, lens: map<Key, nat>): (r: map<Key, System>)
    requires forall k :: k in lens ==> Config(n, lens[k], mode).Valid()
    ensures r.Keys == lens.Keys
  {
    map k | k in lens :: Start(Config(n, lens[k], mode))
  }

  function NoSteps(lens: map<Key, nat>): (r: map<Key, seq<Step>>)
    ensures r.Keys == lens.Keys
  {
    map k | k in lens :: []
  }

  lemma StartTracks(s: State, lens: map<Key, nat>)
    requires Valid(s) && forall k :: View(s, k) == Blank
    requires forall k :: k in lens ==> lens[k] > 0
    ensures Tracks(s, lens, Starts(s.n, s.mode, lens), NoSteps(lens))
    ensures Reported(lens, Starts(s.n, s.mode, lens), [])
  {
  }

  /** The step that an action asks for, if the worker's own loop or the queue allows it. */
  ghost function Asked(a: Action, s: State, lens: map<Key, nat>, sys: map<Key, System>): Option<(Key, Step)>
    requires sys.Keys == lens.Keys
  {
    match a
    case DoPush(key, w, g) =>
      if key in lens && Enabled(KeyConfig(s, lens[key]), sys[key], PushStep(w, g)) then Some((key, PushStep(w, g))) else None
    case DoPull(key, w) =>
      if key in lens && Enabled(KeyConfig(s, lens[key]), sys[key], PullStep(w)) then Some((key, PullStep(w))) else None
    case DoEngine(t) =>
      if t < |s.queues| && s.queues[t] != [] then Some((s.queues[t][0].key, EngineStep)) else None
  }

  /** An action makes the step it asks for, on that key and no other, or changes nothing. */
  ghost predicate Acted(a: Action, s: State, lens: map<Key, nat>, sys: map<Key, System>, s': State, sys': map<Key, System>)
    requires sys.Keys == lens.Keys && sys'.Keys == lens.Keys
  {
    match Asked(a, s, lens, sys)
    case None => s' == s && sys' == sys
    case Some((key, step)) =>
      key in lens && Steps(KeyConfig(s, lens[key]), sys[key], step, sys'[key]) && sys' == sys[key := sys'[key]]
  }

  /** After a step on one key the whole server is tracked again. */
  lemma TracksNext(s: State, s': State, lens: map<Key, nat>, sys: map<Key, System>, runs: map<Key, seq<Step>>,
                   key: Key, z: System, steps: seq<Step>)
    requires Tracks(s, lens, sys, runs) && Valid(s') && OthersSame(s, s', key) && key in lens
    requires s'.n == s.n && s'.mode == s.mode && Follows(s', key, lens[key], z, steps)
    ensures Tracks(s', lens, sys[key := z], runs[key := steps])
  {
    AllFollowNext(s, s', lens, sys, runs, key, z, steps);
  }

  lemma FollowsAt(s: State, lens: map<Key, nat>, sys: map<Key, System>, runs: map<Key, seq<Step>>, key: Key)
    requires Tracks(s, lens, sys, runs) && key in lens
    ensures Shaped(s) && Follows(s, key, lens[key], sys[key], runs[key])
  {
  }

  /** A push that its worker may make. */
  method ActPush(server: ParameterServer, lens: map<Key, nat>, sys0: map<Key, System>, ghost runs0: map<Key, seq<Step>>,
                 key: Key, w: Worker, g: Vec)
    returns (ok: bool, sys: map<Key, System>, ghost runs: map<Key, seq<Step>>)
    requires Tracks(server.Now(), lens, sys0, runs0)
    requires key in lens && Enabled(KeyConfig(server.Now(), lens[key]), sys0[key], PushStep(w, g))
    modifies server
    ensures Tracks(server.Now(), lens, sys, runs)
    ensures ok ==> sys == sys0[key := sys[key]] && sys[key].replies == sys0[key].replies
    ensures ok ==> Steps(KeyConfig(old(server.Now()), lens[key]), sys0[key], PushStep(w, g), sys[key])
    ensures !ok ==> server.Now() == old(server.Now()) && sys == sys0 && Overloaded(server.Now(), key)
  {
    ghost var s := server.Now();
    var z: System;
    sys, runs := sys0, runs0;
    FollowsAt(s, lens, sys, runs, key);
    ok, z := Push(server, key, lens[key], sys[key], runs[key], w, g);
    if ok {
      TracksNext(s, server.Now(), lens, sys, runs, key, z, runs[key] + [PushStep(w, g)]);
      sys, runs := sys[key := z], runs[key := runs[key] + [PushStep(w, g)]];
    }
  }

  /** A pull that its worker may make. */
  method ActPull(server: ParameterServer, lens: map<Key, nat>, sys0: map<Key, System>, ghost runs0: map<Key, seq<Step>>,
                 out0: seq<Sent>, key: Key, w: Worker)
    returns (sys: map<Key, System>, out: seq<Sent>, ghost runs: map<Key, seq<Step>>)
    requires Tracks(server.Now(), lens, sys0, runs0) && Reported(lens, sys0, out0)
    requires key in lens && Enabled(KeyConfig(server.Now(), lens[key]), sys0[key], PullStep(w))
    modifies server
    ensures Tracks(server.Now(), lens, sys, runs) && Reported(lens, sys, out) && sys == sys0[key := sys[key]]
    ensures Steps(KeyConfig(old(server.Now()), lens[key]), sys0[key], PullStep(w), sys[key])
  {
    ghost var s := server.Now();
    FollowsAt(s, lens, sys0, runs0, key);
    var z, more := Pull(server, key, lens[key], sys0[key], runs0[key], w);
    TracksNext(s, server.Now(), lens, sys0, runs0, key, z, runs0[key] + [PullStep(w)]);
    ReportedNext(lens, sys0, out0, key, z, more);
    sys, runs, out := sys0[key := z], runs0[key := runs0[key] + [PullStep(w)]], out0 + more;
  }

  /** The next message of a thread. */
  method ActEngine(server: ParameterServer, lens: map<Key, nat>, sys0: map<Key, System>, ghost runs0: map<Key, seq<Step>>,
                   out0: seq<Sent>, t: nat)
    returns (sys: map<Key, System>, out: seq<Sent>, ghost runs: map<Key, seq<Step>>)
    requires Tracks(server.Now(), lens, sys0, runs0) && Reported(lens, sys0, out0)
    requires t < |server.queues| && server.queues[t] != []
    modifies server
    ensures Tracks(server.Now(), lens, sys, runs) && Reported(lens, sys, out)
    ensures var key := old(server.queues[t][0].key);
            && key in lens && sys == sys0[key := sys[key]]
            && Steps(KeyConfig(old(server.Now()), lens[key]), sys0[key], EngineStep, sys[key])
  {
    ghost var s := server.Now();
    HeadKeyKnown(s, lens, sys0, runs0, t);
    var key := server.queues[t][0].key;
    FollowsAt(s, lens, sys0, runs0, key);
    var z, more := Engine(server, t, key, lens[key], sys0[key], runs0[key]);
    TracksNext(s, server.Now(), lens, sys0, runs0, key, z, runs0[key] + [EngineStep]);
    ReportedNext(lens, sys0, out0, key, z, more);
    sys, runs, out := sys0[key := z], runs0[key := runs0[key] + [EngineStep]], out0 + more;
  }

  lemma ReportedSame(lens: map<Key, nat>, sys: map<Key, System>, sys': map<Key, System>, out: seq<Sent>, key: Key)
    requires sys.Keys == lens.Keys && sys'.Keys == lens.Keys && key in lens && Reported(lens, sys, out)
    requires sys' == sys[key := sys'[key]] && sys'[key].replies == sys[key].replies
    ensures Reported(lens, sys', out)
  {
  }

  datatype Moment = Moment(server: State, sys: map<Key, System>)

  ghost predicate ActedAt(a: Action, lens: map<Key, nat>, x: Moment, y: Moment) {
    x.sys.Keys == lens.Keys && y.sys.Keys == lens.Keys && Acted(a, x.server, lens, x.sys, y.server, y.sys)
  }

  ghost predicate Rejected(a: Action, m: Moment) {
    a.DoPush? && Shaped(m.server) && Overloaded(m.server, a.key)
  }

  lemma ActedOn(a: Action, s: State, lens: map<Key, nat>, sys: map<Key, System>, s': State, sys': map<Key, System>,
                key: Key, step: Step)
    requires sys.Keys == lens.Keys && sys'.Keys == lens.Keys && Asked(a, s, lens, sys) == Some((key, step))
    requires key in lens && sys' == sys[key := sys'[key]]
    requires Steps(KeyConfig(s, lens[key]), sys[key], step, sys'[key])
    ensures ActedAt(a, lens, Moment(s, sys), Moment(s', sys'))
  {
  }

  method TryPush(server: ParameterServer, lens: map<Key, nat>, sys0: map<Key, System>, ghost runs0: map<Key, seq<Step>>,
                 ghost out: seq<Sent>, key: Key, w: Worker, g: Vec)
    returns (ok: bool, sys: map<Key, System>, ghost runs: map<Key, seq<Step>>)
    requires Tracks(server.Now(), lens, sys0, runs0) && Reported(lens, sys0, out)
    modifies server
    ensures Tracks(server.Now(), lens, sys, runs) && Reported(lens, sys, out)
    ensures ok ==> ActedAt(DoPush(key, w, g), lens, Moment(old(server.Now()), sys0), Moment(server.Now(), sys))
    ensures !ok ==> Moment(server.Now(), sys) == Moment(old(server.Now()), sys0)
    ensures !ok ==> Rejected(DoPush(key, w, g), Moment(server.Now(), sys))
  {
    ok, sys, runs := true, sys0, runs0;
    if key in lens && Enabled(Config(server.n, lens[key], server.mode), sys[key], PushStep(w, g)) {
      ghost var s := server.Now();
      ok, sys, runs := ActPush(server, lens, sys0, runs0, key, w, g);
      if ok {
        ReportedSame(lens, sys0, sys, out, key);
        ActedOn(DoPush(key, w, g), s, lens, sys0, server.Now(), sys, key, PushStep(w, g));
      }
    }
  }

  method TryPull(server: ParameterServer, lens: map<Key, nat>, sys0: map<Key, System>, ghost runs0: map<Key, seq<Step>>,
                 out0: seq<Sent>, key: Key, w: Worker)
    returns (sys: map<Key, System>, out: seq<Sent>, ghost runs: map<Key, seq<Step>>)
    requires Tracks(server.Now(), lens, sys0, runs0) && Reported(lens, sys0, out0)
    modifies server
    ensures Tracks(server.Now(), lens, sys, runs) && Reported(lens, sys, out)
    ensures ActedAt(DoPull(key, w), lens, Moment(old(server.Now()), sys0), Moment(server.Now(), sys))
  {
    sys, out, runs := sys0, out0, runs0;
    if key in lens && Enabled(Config(server.n, lens[key], server.mode), sys[key], PullStep(w)) {
      ghost var s := server.Now();
      sys, out, runs := ActPull(server, lens, sys0, runs0, out0, key, w);
      ActedOn(DoPull(key, w), s, lens, sys0, server.Now(), sys, key, PullStep(w));
    }
  }

  method TryEngine(server: ParameterServer, lens: map<Key, nat>, sys0: map<Key, System>, ghost runs0: map<Key, seq<Step>>,
                   out0: seq<Sent>, t: nat)
    returns (sys: map<Key, System>, out: seq<Sent>, ghost runs: map<Key, seq<Step>>)
    requires Tracks(server.Now(), lens, sys0, runs0) && Reported(lens, sys0, out0)
    modifies server
    ensures Tracks(server.Now(), lens, sys, runs) && Reported(lens, sys, out)
    ensures ActedAt(DoEngine(t), lens, Moment(old(server.Now()), sys0), Moment(server.Now(), sys))
  {
    sys, out, runs := sys0, out0, runs0;
    if t < |server.queues| && server.queues[t] != [] {
      ghost var s, key := server.Now(), server.queues[t][0].key;
      sys, out, runs := ActEngine(server, lens, sys0, runs0, out0, t);
      ActedOn(DoEngine(t), s, lens, sys0, server.Now(), sys, key, EngineStep);
    }
  }

  /** One action of a schedule. */
  method Act(server: ParameterServer, lens: map<Key, nat>, sys0: map<Key, System>, ghost runs0: map<Key, seq<Step>>,
             out0: seq<Sent>, a: Action)
    returns (ok: bool, sys: map<Key, System>, out: seq<Sent>, ghost runs: map<Key, seq<Step>>)
    requires Tracks(server.Now(), lens, sys0, runs0) && Reported(lens, sys0, out0)
    modifies server
    ensures Tracks(server.Now(), lens, sys, runs) && Reported(lens, sys, out)
    ensures ok ==> ActedAt(a, lens, Moment(old(server.Now()), sys0), Moment(server.Now(), sys))
    ensures !ok ==> Moment(server.Now(), sys) == Moment(old(server.Now()), sys0) && Rejected(a, Moment(server.Now(), sys))
  {
    ok, out := true, out0;
    match a
    case DoPush(key, w, g) =>
      ok, sys, runs := TryPush(server, lens, sys0, runs0, out0, key, w, g);
    case DoPull(key, w) =>
      sys, out, runs := TryPull(server, lens, sys0, runs0, out0, key, w);
    case DoEngine(t) =>
      sys, out, runs := TryEngine(server, lens, sys0, runs0, out0, t);
  }

  /** `past` is what the actions of a schedule made of its first moment. Only a push that fails the
      check of the thread loads ends it early. */
  ghost predicate Played(schedule: seq<Action>, lens: map<Key, nat>, past: seq<Moment>)
    decreases |schedule|
  {
    if schedule == [] then |past| == 1
    else if |past| == 1 then Rejected(schedule[0], past[0])
    else |past| > 1 && ActedAt(schedule[0], lens, past[0], past[1]) && Played(schedule[1..], lens, past[1..])
  }

  lemma PlayedFirst(schedule: seq<Action>, lens: map<Key, nat>, m: Moment, rest: seq<Moment>)
    requires schedule != [] && rest != [] && ActedAt(schedule[0], lens, m, rest[0]) && Played(schedule[1..], lens, rest)
    ensures Played(schedule, lens, [m] + rest)
  {
    assert ([m] + rest)[1..] == rest;
  }

  /** Runs an arbitrary schedule. Requests that the worker's own loop would not make yet are
      skipped. */
  method Play(server: ParameterServer, lens: map<Key, nat>, sys0: map<Key, System>, ghost runs0: map<Key, seq<Step>>,
              out0: seq<Sent>, schedule: seq<Action>)
    returns (sys: map<Key, System>, out: seq<Sent>, ghost runs: map<Key, seq<Step>>, ghost past: seq<Moment>)
    requires Tracks(server.Now(), lens, sys0, runs0) && Reported(lens, sys0, out0)
    modifies server
    ensures Tracks(server.Now(), lens, sys, runs) && Reported(lens, sys, out)
    ensures Played(schedule, lens, past) && |past| > 0
    ensures past[0] == Moment(old(server.Now()), sys0) && past[|past| - 1] == Moment(server.Now(), sys)
    decreases |schedule|
  {
    sys, out, runs, past := sys0, out0, runs0, [Moment(server.Now(), sys0)];
    if schedule == [] {
      return;
    }
    var ok: bool;
    ok, sys, out, runs := Act(server, lens, sys0, runs0, out0, schedule[0]);
    if ok {
      ghost var rest;
      sys, out, runs, rest := Play(server, lens, sys, runs, out, schedule[1..]);
      PlayedFirst(schedule, lens, past[0], rest);
      past := past + rest;
    }
  }

  /** A new server under an arbitrary schedule: everything the theorems say about runs of one key
      holds of its execution, key by key. */
  method Execute(server: ParameterServer, lens: map<Key, nat>, schedule: seq<Action>)
    returns (sys: map<Key, System>, out: seq<Sent>, ghost runs: map<Key, seq<Step>>, ghost past: seq<Moment>)
    requires Valid(server.Now()) && forall k :: View(server.Now(), k) == Blank
    requires forall k :: k in lens ==> lens[k] > 0
    modifies server
    ensures Tracks(server.Now(), lens, sys, runs) && Reported(lens, sys, out)
    ensures Played(schedule, lens, past) && |past| > 0 && past[|past| - 1] == Moment(server.Now(), sys)
    ensures past[0] == Moment(old(server.Now()), Starts(server.n, server.mode, lens))
  {
    StartTracks(server.Now(), lens);
    sys, out, runs, past := Play(server, lens, Starts(server.n, server.mode, lens), NoSteps(lens), [], schedule);
  }

  /** Every response that left the server for a key is an exact answer of that key's run. */
  lemma SentExact(s: State, lens: map<Key, nat>, sys: map<Key, System>, runs: map<Key, seq<Step>>,
                  out: seq<Sent>, k: Key, i: nat)
    requires Tracks(s, lens, sys, runs) && Reported(lens, sys, out) && k in lens && i < |SentFor(out, k)|
    ensures var cfg, p := KeyConfig(s, lens[k]), sys[k].replies[i];
            && cfg.Valid() && SentFor(out, k)[i] == (p.worker, p.value)
            && p.allRecvs == p.round && RoundTheorems.AnswerExact(cfg, sys[k], p)
  {
    assert Follows(s, k, lens[k], sys[k], runs[k]);
    RoundTheorems.AnswersExact(KeyConfig(s, lens[k]), runs[k], sys[k], i);
    RoundSafe(KeyConfig(s, lens[k]), runs[k], sys[k]);
  }
}
