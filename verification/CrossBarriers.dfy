/** Letting the next forward pass start while gradients are still exchanged. The main thread runs
    forward hooks, backward hooks and, at each step, a synchronisation that starts the push-pulls
    still missing; the poller waits for push-pulls and applies the updates. They share a lock and a
    countdown for each parameter, the handles and a queue of events. */
module CrossBarriers {
  import opened Sequences

  type Param = nat

  datatype Holder = Nobody | PushSide | HookSide

  /** The entry of a parameter in the handles: none, one without a handle, one with a handle. */
  datatype Entry = Absent | Empty | Held

  /** What happened to a parameter since the last synchronisation ended: push-pulls; accepted firings of
      its backward hook; push-pulls that the hook and the synchronisation decided on; whether its
      forward hook passed before any firing; whether either hook ran at all; whether the forward hook
      dropped a handle after the backward hook had started a push-pull; its entry when the
      synchronisation began. */
  datatype Window = Window(pushes: nat, fires: nat, starts: nat, synced: nat, awaited: bool, touched: bool,
                           dropped: bool, before: Entry)

  const NEW_WINDOW := Window(0, 0, 0, 0, false, false, false, Held)

  /** A parameter: its lock, countdown and entry; how often its gradient was pushed, applied, zeroed;
      firings since its lock was last taken for a push; whether its forward hook passed since then;
      whether all earlier push-pulls had been seen finished when the backward hook last decided to
      push; whether the last push was one that the hook decided on then. */
  datatype Cell = Cell(lock: Holder, delay: int, entry: Entry, pushes: nat, updates: nat, zeroed: nat,
                       since: nat, passed: bool, clear: bool, alone: bool, window: Window)

  /** Who pushes: the backward hook, or the first or second loop of the synchronisation, which has these
      parameters still to look at. */
  datatype Why = Backward | Sync(missing: bool, todo: set<Param>)

  /** The main thread: in none of the code below; in a forward hook, before and inside the lock; in a
      push, before the lock, before the push-pull, before the event is queued, before the handle is
      stored; in the first and in the second loop of the synchronisation. */
  datatype Main =
    | Elsewhere | AtLock(p: Param) | InHook(p: Param)
    | Want(p: Param, why: Why) | Locked(p: Param, why: Why) | Pushed(p: Param, why: Why) | Queued(p: Param, why: Why)
    | Missing(todo: set<Param>) | Rest(todo: set<Param>)

  /** The poller: waiting for an event; with an event; after it reset the countdown; after the update;
      after the gradient was zeroed. */
  datatype Poller = Waiting | Holding(p: Param) | Reset(p: Param) | Updated(p: Param) | Zeroed(p: Param)

  datatype Barrier = Barrier(passes: nat, cells: seq<Cell>, events: seq<Param>, main: Main, poller: Poller)

  datatype Action =
    | Drop(p: Param) | Enter | Leave | Fire(p: Param)
    | Acquire | PushPull | Enqueue | Store
    | Begin | PickMissing(p: Param) | EndMissing | Look(p: Param) | End
    | Dequeue | Poll(finished: bool) | Update | Zero | Release

  // ---- the steps of the two threads ----

  ghost predicate Shaped(b: Barrier) {
    && b.passes > 0
    && MainFits(b.main, |b.cells|)
    && (b.poller != Waiting ==> b.poller.p < |b.cells|)
    && (forall i :: 0 <= i < |b.events| ==> b.events[i] < |b.cells|)
  }

  ghost predicate MainFits(m: Main, n: nat) {
    match m
    case Elsewhere => true
    case AtLock(p) => p < n
    case InHook(p) => p < n
    case Want(p, why) => p < n && WhyFits(why, n)
    case Locked(p, why) => p < n && WhyFits(why, n)
    case Pushed(p, why) => p < n && WhyFits(why, n)
    case Queued(p, why) => p < n && WhyFits(why, n)
    case Missing(todo) => forall p :: p in todo ==> p < n
    case Rest(todo) => forall p :: p in todo ==> p < n
  }

  ghost predicate WhyFits(why: Why, n: nat) {
    why.Sync? ==> forall p :: p in why.todo ==> p < n
  }

  function Start(passes: nat, params: nat): (b: Barrier)
  {
    Barrier(passes, seq(params, _ => Cell(Nobody, passes, Absent, 0, 0, 0, 0, false, false, false, NEW_WINDOW.(touched := true))),
            [], Elsewhere, Waiting)
  }

  /** A backward hook whose countdown has run out fails its assertion. */
  predicate Rejected(b: Barrier, p: Param)
    requires p < |b.cells|
  {
    b.cells[p].delay <= 0
  }

  ghost predicate Enabled(b: Barrier, a: Action)
    requires Shaped(b)
  {
    match a
    case Drop(p) => b.main == Elsewhere && p < |b.cells|
    case Enter => b.main.AtLock? && b.cells[b.main.p].lock == Nobody
    case Leave => b.main.InHook?
    case Fire(p) => b.main == Elsewhere && p < |b.cells| && !Rejected(b, p)
    case Acquire => b.main.Want? && b.cells[b.main.p].lock == Nobody
    case PushPull => b.main.Locked?
    case Enqueue => b.main.Pushed?
    case Store => b.main.Queued?
    case Begin => b.main == Elsewhere
    case PickMissing(p) => b.main.Missing? && p in b.main.todo
    case EndMissing => b.main == Missing({})
    case Look(p) => b.main.Rest? && p in b.main.todo
    case End => b.main == Rest({})
    case Dequeue => b.poller == Waiting && b.events != []
    case Poll(_) => b.poller.Holding?
    case Update => b.poller.Reset?
    case Zero => b.poller.Updated?
    case Release => b.poller.Zeroed?
  }

  function Put(b: Barrier, p: Param, c: Cell): Barrier
    requires p < |b.cells|
  {
    b.(cells := b.cells[p := c])
  }

  /** The forward hook deletes the handle before it waits for the lock. */
  function Dropped(c: Cell): Cell {
    c.(entry := Absent, window := c.window.(touched := true, dropped := c.window.dropped || c.window.starts > 0))
  }

  function Entered(c: Cell): Cell {
    c.(lock := HookSide, passed := true, window := c.window.(awaited := c.window.awaited || c.window.fires == 0))
  }

  /** The backward hook counts down, and pushes at zero. */
  function Fired(c: Cell, seen: bool): Cell {
    var w := c.window.(touched := true, fires := c.window.fires + 1);
    var d := c.(delay := c.delay - 1, since := c.since + 1);
    if c.delay == 1 then d.(clear := seen, window := w.(starts := w.starts + 1)) else d.(entry := Empty, window := w)
  }

  function Taken(c: Cell, why: Why): Cell {
    c.(lock := PushSide, since := 0, passed := false, alone := why == Backward && c.clear)
  }

  function Started(c: Cell, why: Why): Cell {
    var w := c.window.(pushes := c.window.pushes + 1);
    c.(pushes := c.pushes + 1, window := if why.Sync? then w.(synced := w.synced + 1) else w)
  }

  /** Where the main thread goes on after a push. */
  function Resume(why: Why): Main {
    match why
    case Backward => Elsewhere
    case Sync(missing, todo) => if missing then Missing(todo) else Rest(todo)
  }

  function MissingIn(b: Barrier): set<Param> {
    set p: nat | p < |b.cells| && b.cells[p].entry == Absent
  }

  function Everyone(b: Barrier): set<Param> {
    set p: nat {:trigger b.cells[p]} | p < |b.cells|
  }

  function Noted(cells: seq<Cell>): (r: seq<Cell>)
    ensures |r| == |cells|
  {
    seq(|cells|, p requires 0 <= p < |cells| => cells[p].(window := cells[p].window.(before := cells[p].entry)))
  }

  function Renewed(cells: seq<Cell>): (r: seq<Cell>)
    ensures |r| == |cells|
  {
    seq(|cells|, p requires 0 <= p < |cells| => cells[p].(window := NEW_WINDOW))
  }

  /** The poller is done with the countdown of this parameter. */
  predicate PastReset(o: Poller, p: Param) {
    o == Reset(p) || o == Updated(p) || o == Zeroed(p)
  }

  /** The forward and the backward hook. */
  function AfterHook(b: Barrier, a: Action): (r: Barrier)
    requires Shaped(b) && Enabled(b, a) && (a.Drop? || a.Enter? || a.Leave? || a.Fire?)
    ensures Shaped(r) && |r.cells| == |b.cells| && r.passes == b.passes
  {
    match a
    case Drop(p) => Put(b, p, Dropped(b.cells[p])).(main := AtLock(p))
    case Enter => Put(b, b.main.p, Entered(b.cells[b.main.p])).(main := InHook(b.main.p))
    case Leave => Put(b, b.main.p, b.cells[b.main.p].(lock := Nobody)).(main := Elsewhere)
    case Fire(p) => Put(b, p, Fired(b.cells[p], b.cells[p].lock != PushSide || PastReset(b.poller, p))).(main := if b.cells[p].delay == 1 then Want(p, Backward) else Elsewhere)
  }

  /** A push: the lock, the push-pull, the event, the handle. */
  function AfterPush(b: Barrier, a: Action): (r: Barrier)
    requires Shaped(b) && Enabled(b, a) && (a.Acquire? || a.PushPull? || a.Enqueue? || a.Store?)
    ensures Shaped(r) && |r.cells| == |b.cells| && r.passes == b.passes
  {
    var p, why := b.main.p, b.main.why;
    match a
    case Acquire => Put(b, p, Taken(b.cells[p], why)).(main := Locked(p, why))
    case PushPull => Put(b, p, Started(b.cells[p], why)).(main := Pushed(p, why))
    case Enqueue => b.(events := b.events + [p], main := Queued(p, why))
    case Store => Put(b, p, b.cells[p].(entry := Held)).(main := Resume(why))
  }

  /** The two loops of the synchronisation. */
  function AfterSync(b: Barrier, a: Action): (r: Barrier)
    requires Shaped(b) && Enabled(b, a) && (a.Begin? || a.PickMissing? || a.EndMissing? || a.Look? || a.End?)
    ensures Shaped(r) && |r.cells| == |b.cells| && r.passes == b.passes
  {
    match a
    case Begin => b.(cells := Noted(b.cells), main := Missing(MissingIn(b)))
    case PickMissing(p) => b.(main := Want(p, Sync(true, b.main.todo - {p})))
    case EndMissing => b.(main := Rest(Everyone(b)))
    case Look(p) =>
      b.(main := if b.cells[p].entry == Empty then Want(p, Sync(false, b.main.todo - {p})) else Rest(b.main.todo - {p}))
    case End => b.(cells := Renewed(b.cells), main := Elsewhere)
  }

  /** One turn of the poller, which puts an unfinished event back. */
  function AfterPoller(b: Barrier, a: Action): (r: Barrier)
    requires Shaped(b) && Enabled(b, a) && (a.Dequeue? || a.Poll? || a.Update? || a.Zero? || a.Release?)
    ensures Shaped(r) && |r.cells| == |b.cells| && r.passes == b.passes
  {
    if a.Dequeue? then b.(poller := Holding(b.events[0]), events := b.events[1..])
    else
      var p := b.poller.p;
      var c := b.cells[p];
      match a
      case Poll(true) => Put(b, p, c.(delay := b.passes)).(poller := Reset(p))
      case Poll(false) => b.(poller := Waiting, events := b.events + [p])
      case Update => Put(b, p, c.(updates := c.updates + 1)).(poller := Updated(p))
      case Zero => Put(b, p, c.(zeroed := c.zeroed + 1)).(poller := Zeroed(p))
      case Release => Put(b, p, c.(lock := Nobody)).(poller := Waiting)
  }

  function After(b: Barrier, a: Action): (r: Barrier)
    requires Shaped(b) && Enabled(b, a)
    ensures Shaped(r) && |r.cells| == |b.cells| && r.passes == b.passes
  {
    if a.Drop? || a.Enter? || a.Leave? || a.Fire? then AfterHook(b, a)
    else if a.Acquire? || a.PushPull? || a.Enqueue? || a.Store? then AfterPush(b, a)
    else if a.Dequeue? || a.Poll? || a.Update? || a.Zero? || a.Release? then AfterPoller(b, a)
    else AfterSync(b, a)
  }

  /** Any interleaving; an action that is not possible yet is passed over. */
  ghost function AfterAll(b: Barrier, schedule: seq<Action>): (r: Barrier)
    requires Shaped(b)
    ensures Shaped(r) && |r.cells| == |b.cells| && r.passes == b.passes
  {
    if schedule == [] then b
    else
      var c := AfterAll(b, schedule[..|schedule| - 1]);
      if Enabled(c, schedule[|schedule| - 1]) then After(c, schedule[|schedule| - 1]) else c
  }

  // ---- the invariant of one parameter ----

  function One(b: bool): nat {
    if b then 1 else 0
  }

  /** The main thread has the lock for a push that is not queued yet. */
  predicate MainHas(m: Main, p: Param) {
    (m.Locked? || m.Pushed?) && m.p == p
  }

  /** The poller has the event, before and after the reset of the countdown. */
  predicate PollerHas(o: Poller, p: Param) {
    o != Waiting && o.p == p
  }

  /** The outstanding push-pulls of a parameter: with the main thread, in the queue, with the poller. */
  ghost function Outstanding(b: Barrier, p: Param): nat {
    One(MainHas(b.main, p)) + Count(b.events, p) + One(PollerHas(b.poller, p))
  }

  ghost predicate LockOk(b: Barrier, p: Param)
    requires p < |b.cells|
  {
    var c := b.cells[p];
    && Outstanding(b, p) == One(c.lock == PushSide)
    && (c.lock == HookSide <==> b.main == InHook(p))
    && c.pushes == c.updates + One(b.main.Pushed? && b.main.p == p) + Count(b.events, p) + One(b.poller == Holding(p) || b.poller == Reset(p))
    && c.updates == c.zeroed + One(b.poller == Updated(p))
    && (c.passed ==> c.lock != PushSide)
  }

  /** A countdown that has run out belongs to a push that the poller has not answered with a reset. */
  ghost predicate DelayOk(b: Barrier, p: Param)
    requires p < |b.cells|
  {
    var c := b.cells[p];
    && 0 <= c.delay <= b.passes
    && (c.delay == 0 ==> b.main == Want(p, Backward) || MainHas(b.main, p) || Count(b.events, p) > 0 || b.poller == Holding(p))
  }

  /** A push-pull is outstanding that the poller has not seen finished. */
  ghost predicate Unseen(b: Barrier, p: Param) {
    MainHas(b.main, p) || Count(b.events, p) > 0 || b.poller == Holding(p)
  }

  /** When the countdown has run out. The hook that ran it out waits for the lock first: if a push-pull was
      unseen, its completion resets the countdown before the hook gets the lock. */
  ghost predicate OutOk(b: Barrier, p: Param)
    requires p < |b.cells|
  {
    var c := b.cells[p];
    if b.main == Want(p, Backward) then
      if c.clear then c.delay == 0 && !Unseen(b, p) else Unseen(b, p) || c.delay > 0
    else c.delay == 0 <==> Unseen(b, p) && c.alone
  }

  predicate InSync(m: Main) {
    m.Missing? || m.Rest? || ((m.Want? || m.Locked? || m.Pushed? || m.Queued?) && m.why.Sync?)
  }

  predicate InFirstLoop(m: Main)
    requires InSync(m)
  {
    m.Missing? || (!m.Rest? && m.why.missing)
  }

  function Todo(m: Main): set<Param>
    requires InSync(m)
  {
    if m.Missing? || m.Rest? then m.todo else m.why.todo
  }

  /** The synchronisation is pushing this parameter. */
  predicate Current(m: Main, p: Param)
    requires InSync(m)
  {
    !m.Missing? && !m.Rest? && m.p == p
  }

  /** How far the synchronisation has got with a parameter. */
  ghost predicate SyncOk(b: Barrier, p: Param)
    requires p < |b.cells|
  {
    var c, w, m := b.cells[p], b.cells[p].window, b.main;
    if !InSync(m) then w.synced == 0
    else if Current(m, p) then
      && c.entry == w.before == (if InFirstLoop(m) then Absent else Empty)
      && w.synced == One(m.Pushed? || m.Queued?) && p !in Todo(m)
    else if p in Todo(m) && InFirstLoop(m) then w.before == c.entry == Absent && w.synced == 0
    else if p in Todo(m) || InFirstLoop(m) then
      if w.before == Absent then c.entry == Held && w.synced == 1 else c.entry == w.before && w.synced == 0
    else c.entry == Held && w.synced == One(w.before != Held)
  }

  predicate PushingForHook(m: Main, p: Param) {
    (m.Want? || m.Locked? || m.Pushed? || m.Queued?) && m.p == p && m.why == Backward
  }

  /** Firings since the last push are all that the countdown can have lost since the poller reset it. */
  ghost predicate SinceOk(b: Barrier, p: Param)
    requires p < |b.cells|
  {
    var c := b.cells[p];
    && c.since <= c.window.fires
    && (c.entry == Held && b.main != Want(p, Backward) ==> c.since == 0)
    && ((b.main.Locked? || b.main.Pushed? || b.main.Queued?) && b.main.p == p ==> c.since == 0)
    && (c.lock != PushSide || PastReset(b.poller, p) ==> b.passes - c.since <= c.delay)
  }

  /** The entry when the synchronisation began, or now if there is none under way. */
  function Settled(b: Barrier, p: Param): Entry
    requires p < |b.cells|
  {
    if InSync(b.main) then b.cells[p].window.before else b.cells[p].entry
  }

  /** Where the pushes of a window come from. */
  ghost predicate SourceOk(b: Barrier, p: Param)
    requires p < |b.cells|
  {
    var w := b.cells[p].window;
    && w.pushes + One(b.main == Want(p, Backward) || b.main == Locked(p, Backward)) == w.starts + w.synced
    && (w.dropped ==> w.starts > 0)
    && w.starts <= w.fires && (PushingForHook(b.main, p) ==> w.starts > 0)
    && (!w.touched ==> w.fires == 0 && w.starts == 0 && !w.awaited && Settled(b, p) == Held)
    && (w.touched ==> w.starts > 0 || Settled(b, p) != Held)
    && (b.main == AtLock(p) || b.main == InHook(p) ==> w.touched && b.cells[p].entry == Absent)
  }

  /** A window whose forward hook passed before any firing: until the backward hook starts a push, no
      push-pull is outstanding and the countdown says how often it fired. */
  ghost predicate AwaitedOk(b: Barrier, p: Param)
    requires p < |b.cells|
  {
    var c, w := b.cells[p], b.cells[p].window;
    w.awaited ==>
      && (w.starts == 0 && w.synced == 0 && !MainHas(b.main, p) ==> c.lock != PushSide && c.delay == b.passes - w.fires)
      && (w.starts == 0 <==> w.fires < b.passes)
      && (w.fires == b.passes ==> w.starts == 1)
      && (w.fires < b.passes ==> Settled(b, p) != Held)
      && (w.fires == b.passes && PushingForHook(b.main, p) ==> !w.dropped)
      && (w.fires == b.passes && !PushingForHook(b.main, p) ==> (Settled(b, p) == Held <==> !w.dropped))
  }

  /** What the two threads hold, and how far the synchronisation is. */
  ghost predicate HoldsOk(b: Barrier, p: Param)
    requires p < |b.cells|
  {
    LockOk(b, p) && DelayOk(b, p) && OutOk(b, p) && SyncOk(b, p)
  }

  /** What is known of the window. */
  ghost predicate WindowOk(b: Barrier, p: Param)
    requires p < |b.cells|
  {
    SinceOk(b, p) && SourceOk(b, p) && AwaitedOk(b, p)
  }

  // ---- every step keeps it ----

  lemma HookLock(b: Barrier, a: Action, p: Param)
    requires Shaped(b) && Enabled(b, a) && p < |b.cells| && LockOk(b, p)
    requires a.Drop? || a.Enter? || a.Leave? || a.Fire?
    ensures LockOk(AfterHook(b, a), p)
  {
  }

  lemma HookDelay(b: Barrier, a: Action, p: Param)
    requires Shaped(b) && Enabled(b, a) && p < |b.cells| && DelayOk(b, p)
    requires a.Drop? || a.Enter? || a.Leave? || a.Fire?
    ensures DelayOk(AfterHook(b, a), p)
  {
  }

  lemma HookProgress(b: Barrier, a: Action, p: Param)
    requires Shaped(b) && Enabled(b, a) && p < |b.cells| && SyncOk(b, p)
    requires a.Drop? || a.Enter? || a.Leave? || a.Fire?
    ensures SyncOk(AfterHook(b, a), p)
  {
  }

  lemma HookOut(b: Barrier, a: Action, p: Param)
    requires Shaped(b) && Enabled(b, a) && p < |b.cells| && LockOk(b, p) && DelayOk(b, p) && OutOk(b, p)
    requires a.Drop? || a.Enter? || a.Leave? || a.Fire?
    ensures OutOk(AfterHook(b, a), p)
  {
  }

  lemma HookSince(b: Barrier, a: Action, p: Param)
    requires Shaped(b) && Enabled(b, a) && p < |b.cells| && LockOk(b, p) && DelayOk(b, p) && SyncOk(b, p) && SinceOk(b, p)
    requires a.Drop? || a.Enter? || a.Leave? || a.Fire?
    ensures SinceOk(AfterHook(b, a), p)
  {
  }

  lemma HookSources(b: Barrier, a: Action, p: Param)
    requires Shaped(b) && Enabled(b, a) && p < |b.cells| && SyncOk(b, p) && SourceOk(b, p)
    requires a.Drop? || a.Enter? || a.Leave? || a.Fire?
    ensures SourceOk(AfterHook(b, a), p)
  {
  }

  lemma HookAwaited(b: Barrier, a: Action, p: Param)
    requires Shaped(b) && Enabled(b, a) && p < |b.cells| && LockOk(b, p) && DelayOk(b, p) && SyncOk(b, p) && WindowOk(b, p)
    requires a.Drop? || a.Enter? || a.Leave? || a.Fire?
    ensures AwaitedOk(AfterHook(b, a), p)
  {
  }

  lemma PushHolds(b: Barrier, a: Action, p: Param)
    requires Shaped(b) && Enabled(b, a) && p < |b.cells| && LockOk(b, p) && DelayOk(b, p)
    requires a.Acquire? || a.PushPull? || a.Enqueue? || a.Store?
    ensures LockOk(AfterPush(b, a), p) && DelayOk(AfterPush(b, a), p)
  {
    if a == Enqueue {
      CountSnoc(b.events, b.main.p, p);
    }
  }

  lemma PushProgress(b: Barrier, a: Action, p: Param)
    requires Shaped(b) && Enabled(b, a) && p < |b.cells| && SyncOk(b, p)
    requires a.Acquire? || a.PushPull? || a.Enqueue? || a.Store?
    ensures SyncOk(AfterPush(b, a), p)
  {
  }

  lemma PushOut(b: Barrier, a: Action, p: Param)
    requires Shaped(b) && Enabled(b, a) && p < |b.cells| && LockOk(b, p) && DelayOk(b, p) && OutOk(b, p)
    requires a.Acquire? || a.PushPull? || a.Enqueue? || a.Store?
    ensures OutOk(AfterPush(b, a), p)
  {
    if a == Enqueue {
      CountSnoc(b.events, b.main.p, p);
    }
  }

  lemma PushSince(b: Barrier, a: Action, p: Param)
    requires Shaped(b) && Enabled(b, a) && p < |b.cells| && LockOk(b, p) && DelayOk(b, p) && SyncOk(b, p) && SinceOk(b, p)
    requires a.Acquire? || a.PushPull? || a.Enqueue? || a.Store?
    ensures SinceOk(AfterPush(b, a), p)
  {
  }

  lemma PushSources(b: Barrier, a: Action, p: Param)
    requires Shaped(b) && Enabled(b, a) && p < |b.cells| && SyncOk(b, p) && SourceOk(b, p)
    requires a.Acquire? || a.PushPull? || a.Enqueue? || a.Store?
    ensures SourceOk(AfterPush(b, a), p)
  {
  }

  lemma PushAwaited(b: Barrier, a: Action, p: Param)
    requires Shaped(b) && Enabled(b, a) && p < |b.cells| && LockOk(b, p) && DelayOk(b, p) && SyncOk(b, p) && WindowOk(b, p)
    requires a.Acquire? || a.PushPull? || a.Enqueue? || a.Store?
    ensures AwaitedOk(AfterPush(b, a), p)
  {
  }

  lemma SyncHolds(b: Barrier, a: Action, p: Param)
    requires Shaped(b) && Enabled(b, a) && p < |b.cells| && LockOk(b, p) && DelayOk(b, p)
    requires a.Begin? || a.PickMissing? || a.EndMissing? || a.Look? || a.End?
    ensures LockOk(AfterSync(b, a), p) && DelayOk(AfterSync(b, a), p)
  {
  }

  lemma SyncProgress(b: Barrier, a: Action, p: Param)
    requires Shaped(b) && Enabled(b, a) && p < |b.cells| && SyncOk(b, p)
    requires a.Begin? || a.PickMissing? || a.EndMissing? || a.Look? || a.End?
    ensures SyncOk(AfterSync(b, a), p)
  {
  }

  lemma SyncOut(b: Barrier, a: Action, p: Param)
    requires Shaped(b) && Enabled(b, a) && p < |b.cells| && LockOk(b, p) && DelayOk(b, p) && OutOk(b, p)
    requires a.Begin? || a.PickMissing? || a.EndMissing? || a.Look? || a.End?
    ensures OutOk(AfterSync(b, a), p)
  {
  }

  lemma SyncSince(b: Barrier, a: Action, p: Param)
    requires Shaped(b) && Enabled(b, a) && p < |b.cells| && LockOk(b, p) && DelayOk(b, p) && SyncOk(b, p) && SinceOk(b, p)
    requires a.Begin? || a.PickMissing? || a.EndMissing? || a.Look? || a.End?
    ensures SinceOk(AfterSync(b, a), p)
  {
  }

  lemma SyncSources(b: Barrier, a: Action, p: Param)
    requires Shaped(b) && Enabled(b, a) && p < |b.cells| && SyncOk(b, p) && SourceOk(b, p)
    requires a.Begin? || a.PickMissing? || a.EndMissing? || a.Look? || a.End?
    ensures SourceOk(AfterSync(b, a), p)
  {
  }

  lemma SyncAwaited(b: Barrier, a: Action, p: Param)
    requires Shaped(b) && Enabled(b, a) && p < |b.cells| && LockOk(b, p) && DelayOk(b, p) && SyncOk(b, p) && WindowOk(b, p)
    requires a.Begin? || a.PickMissing? || a.EndMissing? || a.Look? || a.End?
    ensures AwaitedOk(AfterSync(b, a), p)
  {
  }

  /** The poller leaves the main thread and the window alone. */
  lemma PollerFrame(b: Barrier, a: Action, p: Param)
    requires Shaped(b) && Enabled(b, a) && p < |b.cells| && SyncOk(b, p) && SourceOk(b, p)
    requires a.Dequeue? || a.Poll? || a.Update? || a.Zero? || a.Release?
    ensures SyncOk(AfterPoller(b, a), p) && SourceOk(AfterPoller(b, a), p)
  {
    assert AfterPoller(b, a).cells[p].window == b.cells[p].window && AfterPoller(b, a).cells[p].entry == b.cells[p].entry;
  }

  /** Taking an event from the queue or putting it back changes no cell. */
  lemma QueueHolds(b: Barrier, a: Action, p: Param)
    requires Shaped(b) && Enabled(b, a) && p < |b.cells| && LockOk(b, p) && DelayOk(b, p)
    requires a == Dequeue || a == Poll(false)
    ensures LockOk(AfterPoller(b, a), p) && DelayOk(AfterPoller(b, a), p)
  {
    if a == Dequeue {
      CountHead(b.events, p);
    } else {
      CountSnoc(b.events, b.poller.p, p);
    }
  }

  lemma QueueOut(b: Barrier, a: Action, p: Param)
    requires Shaped(b) && Enabled(b, a) && p < |b.cells| && OutOk(b, p)
    requires a == Dequeue || a == Poll(false)
    ensures OutOk(AfterPoller(b, a), p)
  {
    if a == Dequeue {
      CountHead(b.events, p);
    } else {
      CountSnoc(b.events, b.poller.p, p);
    }
  }

  lemma QueueSince(b: Barrier, a: Action, p: Param)
    requires Shaped(b) && Enabled(b, a) && p < |b.cells| && SinceOk(b, p)
    requires a == Dequeue || a == Poll(false)
    ensures SinceOk(AfterPoller(b, a), p)
  {
  }

  lemma FinishLock(b: Barrier, a: Action, p: Param)
    requires Shaped(b) && Enabled(b, a) && p < |b.cells| && LockOk(b, p)
    requires a == Poll(true) || a.Update? || a.Zero? || a.Release?
    ensures LockOk(AfterPoller(b, a), p)
  {
  }

  lemma FinishDelay(b: Barrier, a: Action, p: Param)
    requires Shaped(b) && Enabled(b, a) && p < |b.cells| && DelayOk(b, p)
    requires a == Poll(true) || a.Update? || a.Zero? || a.Release?
    ensures DelayOk(AfterPoller(b, a), p)
  {
  }

  lemma FinishOut(b: Barrier, a: Action, p: Param)
    requires Shaped(b) && Enabled(b, a) && p < |b.cells| && LockOk(b, p) && OutOk(b, p)
    requires a == Poll(true) || a.Update? || a.Zero? || a.Release?
    ensures OutOk(AfterPoller(b, a), p)
  {
  }

  lemma FinishSince(b: Barrier, a: Action, p: Param)
    requires Shaped(b) && Enabled(b, a) && p < |b.cells| && LockOk(b, p) && SinceOk(b, p)
    requires a == Poll(true) || a.Update? || a.Zero? || a.Release?
    ensures SinceOk(AfterPoller(b, a), p)
  {
  }

  lemma PollerAwaited(b: Barrier, a: Action, p: Param)
    requires Shaped(b) && Enabled(b, a) && p < |b.cells| && LockOk(b, p) && AwaitedOk(b, p)
    requires a.Dequeue? || a.Poll? || a.Update? || a.Zero? || a.Release?
    ensures AwaitedOk(AfterPoller(b, a), p)
  {
  }

  lemma StepOk(b: Barrier, a: Action, p: Param)
    requires Shaped(b) && Enabled(b, a) && p < |b.cells| && HoldsOk(b, p) && WindowOk(b, p)
    ensures HoldsOk(After(b, a), p) && WindowOk(After(b, a), p)
  {
    if a.Drop? || a.Enter? || a.Leave? || a.Fire? {
      HookLock(b, a, p);
      HookDelay(b, a, p);
      HookOut(b, a, p);
      HookProgress(b, a, p);
      HookSince(b, a, p);
      HookSources(b, a, p);
      HookAwaited(b, a, p);
    } else if a.Acquire? || a.PushPull? || a.Enqueue? || a.Store? {
      PushHolds(b, a, p);
      PushOut(b, a, p);
      PushProgress(b, a, p);
      PushSince(b, a, p);
      PushSources(b, a, p);
      PushAwaited(b, a, p);
    } else if a.Dequeue? || a.Poll? || a.Update? || a.Zero? || a.Release? {
      PollerOk(b, a, p);
    } else {
      SyncHolds(b, a, p);
      SyncOut(b, a, p);
      SyncProgress(b, a, p);
      SyncSince(b, a, p);
      SyncSources(b, a, p);
      SyncAwaited(b, a, p);
    }
  }

  lemma PollerOk(b: Barrier, a: Action, p: Param)
    requires Shaped(b) && Enabled(b, a) && p < |b.cells| && HoldsOk(b, p) && WindowOk(b, p)
    requires a.Dequeue? || a.Poll? || a.Update? || a.Zero? || a.Release?
    ensures HoldsOk(AfterPoller(b, a), p) && WindowOk(AfterPoller(b, a), p)
  {
    PollerFrame(b, a, p);
    PollerAwaited(b, a, p);
    if a == Dequeue || a == Poll(false) {
      QueueHolds(b, a, p);
      QueueOut(b, a, p);
      QueueSince(b, a, p);
    } else {
      FinishLock(b, a, p);
      FinishDelay(b, a, p);
      FinishOut(b, a, p);
      FinishSince(b, a, p);
    }
  }

  lemma {:induction false} RunOk(passes: nat, params: nat, schedule: seq<Action>, p: Param)
    requires passes > 0 && p < params
    ensures HoldsOk(AfterAll(Start(passes, params), schedule), p) && WindowOk(AfterAll(Start(passes, params), schedule), p)
  {
    if schedule != [] {
      var last := |schedule| - 1;
      RunOk(passes, params, schedule[..last], p);
      var b := AfterAll(Start(passes, params), schedule[..last]);
      if Enabled(b, schedule[last]) {
        StepOk(b, schedule[last], p);
      }
    }
  }

  // ---- what every interleaving keeps ----

  /** A layer whose forward hook has passed computes with a parameter to which every gradient pushed so
      far has been applied, once each, and whose gradient is zero; no push-pull of it is outstanding
      until the next one starts. At any time at most one is. */
  lemma CrossBarrierSafe(passes: nat, params: nat, schedule: seq<Action>, p: Param)
    requires passes > 0 && p < params
    ensures var b := AfterAll(Start(passes, params), schedule);
      && Outstanding(b, p) <= 1
      && b.cells[p].updates <= b.cells[p].pushes <= b.cells[p].updates + 1
      && (b.cells[p].passed || b.main == InHook(p) ==>
            Outstanding(b, p) == 0 && b.cells[p].pushes == b.cells[p].updates == b.cells[p].zeroed)
  {
    RunOk(passes, params, schedule, p);
  }

  /** The assertions of the backward hook hold once the forward hook has passed. They fail exactly while
      a push-pull is outstanding that the poller has not seen finished, and which the backward hook
      decided on when all earlier ones had been seen finished. */
  lemma HookNeverRejected(passes: nat, params: nat, schedule: seq<Action>, p: Param)
    requires passes > 0 && p < params
    ensures var b := AfterAll(Start(passes, params), schedule);
      b.main == Elsewhere ==>
        && (b.cells[p].passed ==> !Rejected(b, p))
        && (Rejected(b, p) <==> (p in b.events || b.poller == Holding(p)) && b.cells[p].alone)
  {
    RunOk(passes, params, schedule, p);
  }

  /** When a synchronisation ends, every parameter has a handle, and it was pushed as often as its
      backward hook decided and once more if it had no handle when the synchronisation began. */
  lemma PushesPerStep(passes: nat, params: nat, schedule: seq<Action>, p: Param)
    requires passes > 0 && p < params
    requires AfterAll(Start(passes, params), schedule).main == Rest({})
    ensures var c := AfterAll(Start(passes, params), schedule).cells[p];
      c.entry == Held && c.window.pushes == c.window.starts + One(c.window.before != Held)
  {
    RunOk(passes, params, schedule, p);
  }

  /** A step in which the forward hook passed before the backward hook fired at most as often as there are
      backward passes: the gradient is pushed once, or twice if the forward hook ran again
      after the backward hook had pushed. */
  lemma OncePerStep(passes: nat, params: nat, schedule: seq<Action>, p: Param)
    requires passes > 0 && p < params
    requires AfterAll(Start(passes, params), schedule).main == Rest({})
    ensures var w := AfterAll(Start(passes, params), schedule).cells[p].window;
      w.awaited && w.fires <= passes ==> w.pushes == if w.fires == passes && w.dropped then 2 else 1
  {
    RunOk(passes, params, schedule, p);
  }

  /** The gradient is not pushed in exactly those steps in which neither hook of the parameter ran: the
      handle of the last step is still there. */
  lemma UntouchedIsSkipped(passes: nat, params: nat, schedule: seq<Action>, p: Param)
    requires passes > 0 && p < params
    requires AfterAll(Start(passes, params), schedule).main == Rest({})
    ensures var w := AfterAll(Start(passes, params), schedule).cells[p].window;
      w.pushes == 0 <==> !w.touched
  {
    RunOk(passes, params, schedule, p);
  }

  // ---- a waiting thread is let in ----

  lemma {:induction false} AfterFirst(b: Barrier, a: Action, schedule: seq<Action>)
    requires Shaped(b) && Enabled(b, a)
    ensures AfterAll(b, [a] + schedule) == AfterAll(After(b, a), schedule)
  {
    var all := [a] + schedule;
    if schedule == [] {
      assert all[..0] == [] && AfterAll(b, []) == b;
    } else {
      var last := |schedule| - 1;
      AfterFirst(b, a, schedule[..last]);
      assert all[..last + 1] == [a] + schedule[..last];
    }
  }

  /** The next action of a poller that finds every push-pull finished. */
  function NextTurn(o: Poller): Action {
    match o
    case Waiting => Dequeue
    case Holding(_) => Poll(true)
    case Reset(_) => Update
    case Updated(_) => Zero
    case Zeroed(_) => Release
  }

  function TurnsLeft(b: Barrier): nat {
    5 * |b.events| + match b.poller
                     case Waiting => 0
                     case Holding(_) => 4
                     case Reset(_) => 3
                     case Updated(_) => 2
                     case Zeroed(_) => 1
  }

  predicate PollerOnly(schedule: seq<Action>) {
    forall i :: 0 <= i < |schedule| ==> schedule[i] in {Dequeue, Poll(true), Update, Zero, Release}
  }

  /** A push-pull that is outstanding and not with the main thread is in the poller's reach. */
  lemma TurnStep(b: Barrier, p: Param)
    requires Shaped(b) && p < |b.cells| && LockOk(b, p) && !MainHas(b.main, p) && b.cells[p].lock == PushSide
    ensures Enabled(b, NextTurn(b.poller))
    ensures var r := After(b, NextTurn(b.poller));
      LockOk(r, p) && r.main == b.main && r.cells[p].lock != HookSide && TurnsLeft(r) < TurnsLeft(b)
  {
    assert Count(b.events, p) > 0 ==> b.events != [];
    if b.poller == Waiting {
      CountHead(b.events, p);
    } else {
      FinishLock(b, NextTurn(b.poller), p);
    }
  }

  lemma {:induction false} LockComesFree(b: Barrier, p: Param) returns (schedule: seq<Action>)
    requires Shaped(b) && p < |b.cells| && LockOk(b, p) && !MainHas(b.main, p) && b.cells[p].lock != HookSide
    ensures PollerOnly(schedule)
    ensures AfterAll(b, schedule).main == b.main && AfterAll(b, schedule).cells[p].lock == Nobody
    decreases TurnsLeft(b)
  {
    schedule := [];
    if b.cells[p].lock == PushSide {
      TurnStep(b, p);
      var a := NextTurn(b.poller);
      var rest := LockComesFree(After(b, a), p);
      AfterFirst(b, a, rest);
      schedule := [a] + rest;
    }
  }

  /** The main thread never waits in vain, in a forward hook or before a push: whatever happened, the
      poller alone gets to the point where the lock is free, if the push-pulls finish. */
  lemma NeverWaitsInVain(passes: nat, params: nat, schedule: seq<Action>) returns (turns: seq<Action>)
    requires passes > 0
    requires var m := AfterAll(Start(passes, params), schedule).main; m.AtLock? || m.Want?
    ensures PollerOnly(turns)
    ensures var b := AfterAll(Start(passes, params), schedule);
      && AfterAll(b, turns).main == b.main
      && Enabled(AfterAll(b, turns), if b.main.AtLock? then Enter else Acquire)
  {
    var b := AfterAll(Start(passes, params), schedule);
    RunOk(passes, params, schedule, b.main.p);
    turns := LockComesFree(b, b.main.p);
  }

  // ---- runs that show the exceptions ----

  lemma Then(b: Barrier, schedule: seq<Action>, a: Action)
    requires Shaped(b) && Enabled(AfterAll(b, schedule), a)
    ensures AfterAll(b, schedule + [a]) == After(AfterAll(b, schedule), a)
  {
    assert (schedule + [a])[..|schedule|] == schedule;
  }

  ghost function Small(schedule: seq<Action>): (b: Barrier)
    ensures Shaped(b) && |b.cells| == 1 && b.passes == 1
  {
    AfterAll(Start(1, 1), schedule)
  }

  lemma PassHook(schedule: seq<Action>) returns (longer: seq<Action>)
    requires Small(schedule).main == Elsewhere && Small(schedule).cells[0].lock == Nobody
    ensures Small(longer) == Small(schedule).(cells := [Entered(Dropped(Small(schedule).cells[0])).(lock := Nobody)])
  {
    Then(Start(1, 1), schedule, Drop(0));
    longer := schedule + [Drop(0)];
    Then(Start(1, 1), longer, Enter);
    longer := longer + [Enter];
    Then(Start(1, 1), longer, Leave);
    longer := longer + [Leave];
  }

  lemma PushIt(schedule: seq<Action>) returns (longer: seq<Action>)
    requires Small(schedule).main.Want? && Small(schedule).cells[0].lock == Nobody
    ensures var b := Small(schedule);
      Small(longer) == Barrier(1, [Started(Taken(b.cells[0], b.main.why), b.main.why).(entry := Held)], b.events + [0], Resume(b.main.why), b.poller)
  {
    Then(Start(1, 1), schedule, Acquire);
    longer := schedule + [Acquire];
    Then(Start(1, 1), longer, PushPull);
    longer := longer + [PushPull];
    Then(Start(1, 1), longer, Enqueue);
    longer := longer + [Enqueue];
    Then(Start(1, 1), longer, Store);
    longer := longer + [Store];
  }

  lemma SeeFinished(schedule: seq<Action>) returns (longer: seq<Action>)
    requires Small(schedule).poller == Waiting && Small(schedule).events == [0]
    ensures Small(longer) == Small(schedule).(cells := [Small(schedule).cells[0].(delay := 1)], events := [], poller := Reset(0))
  {
    Then(Start(1, 1), schedule, Dequeue);
    longer := schedule + [Dequeue];
    Then(Start(1, 1), longer, Poll(true));
    longer := longer + [Poll(true)];
  }

  lemma Apply(schedule: seq<Action>) returns (longer: seq<Action>)
    requires Small(schedule).poller == Reset(0)
    ensures var c := Small(schedule).cells[0];
      Small(longer) == Small(schedule).(cells := [c.(updates := c.updates + 1)], poller := Updated(0))
  {
    Then(Start(1, 1), schedule, Update);
    longer := schedule + [Update];
  }

  lemma Clear(schedule: seq<Action>) returns (longer: seq<Action>)
    requires Small(schedule).poller == Updated(0)
    ensures var c := Small(schedule).cells[0];
      Small(longer) == Small(schedule).(cells := [c.(zeroed := c.zeroed + 1)], poller := Zeroed(0))
  {
    Then(Start(1, 1), schedule, Zero);
    longer := schedule + [Zero];
  }

  lemma LetIn(schedule: seq<Action>) returns (longer: seq<Action>)
    requires Small(schedule).poller == Zeroed(0)
    ensures Small(longer) == Small(schedule).(cells := [Small(schedule).cells[0].(lock := Nobody)], poller := Waiting)
  {
    Then(Start(1, 1), schedule, Release);
    longer := schedule + [Release];
  }

  /** One parameter, one backward pass: its forward hook, its backward hook, its push. */
  lemma PushedRun() returns (schedule: seq<Action>)
    ensures Small(schedule)
      == Barrier(1, [Cell(PushSide, 0, Held, 1, 0, 0, 0, false, true, true, Window(1, 1, 1, 0, true, true, false, Held))], [0], Elsewhere, Waiting)
  {
    schedule := PassHook([]);
    Then(Start(1, 1), schedule, Fire(0));
    schedule := PushIt(schedule + [Fire(0)]);
  }

  /** A second backward pass before the next forward pass is rejected while the push-pull is outstanding. */
  lemma RejectedRun() returns (schedule: seq<Action>)
    ensures Small(schedule).main == Elsewhere && Rejected(Small(schedule), 0)
  {
    schedule := PushedRun();
  }

  /** A synchronisation that finds the handle of its parameter pushes nothing. */
  lemma QuietLoop(schedule: seq<Action>) returns (longer: seq<Action>)
    requires Small(schedule).main == Missing({}) && Small(schedule).cells[0].entry == Held
    ensures Small(longer) == Small(schedule).(main := Rest({}))
  {
    Then(Start(1, 1), schedule, EndMissing);
    longer := schedule + [EndMissing];
    var all := Everyone(Small(schedule));
    assert 0 in all && all - {0} == {};
    Then(Start(1, 1), longer, Look(0));
    longer := longer + [Look(0)];
  }

  lemma QuietSync(schedule: seq<Action>) returns (longer: seq<Action>)
    requires Small(schedule).main == Elsewhere && Small(schedule).cells[0].entry == Held
    ensures Small(longer) == Small(schedule).(cells := Noted(Small(schedule).cells), main := Rest({}))
  {
    Then(Start(1, 1), schedule, Begin);
    assert MissingIn(Small(schedule)) == {};
    longer := QuietLoop(schedule + [Begin]);
  }

  /** In a step that has just begun the first firing is rejected: the forward hook did not wait for the
      push-pull of the step before, as it is with a parameter that has no forward hook. */
  lemma FirstFiringRejectedRun() returns (schedule: seq<Action>)
    ensures Small(schedule).main == Elsewhere && Small(schedule).cells[0].window == NEW_WINDOW
    ensures Rejected(Small(schedule), 0)
  {
    schedule := PushedRun();
    schedule := QuietSync(schedule);
    Then(Start(1, 1), schedule, End);
    schedule := schedule + [End];
  }

  /** Two steps; in the second neither hook runs, and nothing is pushed. */
  lemma SkippedRun() returns (schedule: seq<Action>)
    ensures Small(schedule).main == Rest({}) && Small(schedule).cells[0].window.pushes == 0
  {
    schedule := PushedRun();
    schedule := QuietSync(schedule);
    Then(Start(1, 1), schedule, End);
    schedule := QuietSync(schedule + [End]);
  }

  /** A forward pass between the push and the synchronisation drops the handle, and the same step pushes
      the gradient again, after it was applied and zeroed. */
  lemma PushedTwiceRun() returns (schedule: seq<Action>)
    ensures var c := Small(schedule).cells[0];
      Small(schedule).main == Rest({}) && c.window.fires == 1 && c.window.pushes == 2 && c.updates == c.zeroed == 1
  {
    schedule := PushedRun();
    schedule := SeeFinished(schedule);
    schedule := Apply(schedule);
    schedule := Clear(schedule);
    schedule := LetIn(schedule);
    schedule := PassHook(schedule);
    var m := MissingIn(Small(schedule));
    assert 0 in m && m - {0} == {};
    Then(Start(1, 1), schedule, Begin);
    schedule := schedule + [Begin];
    Then(Start(1, 1), schedule, PickMissing(0));
    schedule := PushIt(schedule + [PickMissing(0)]);
    schedule := QuietLoop(schedule);
  }
}
