/** How the GPUs of one machine coordinate: a root device and the other devices exchange READY and
    DO signals over FIFO channels, so that all of them post the same collective calls in the same
    order. A state machine with one step per action of a loop thread. */
module Coordination {
  import opened Options

  type Key = nat

  /** The stages before which the root waits for a READY signal of every other device. */
  datatype Gather = Reduce | Push | Bcast

  datatype Per<T> = Per(reduce: T, push: T, bcast: T) {
    function Get(op: Gather): T {
      match op
      case Reduce => reduce
      case Push => push
      case Bcast => bcast
    }

    function Set(op: Gather, v: T): (r: Per<T>)
      ensures r.Get(op) == v
      ensures forall o :: o != op ==> r.Get(o) == Get(o)
    {
      match op
      case Reduce => this.(reduce := v)
      case Push => this.(push := v)
      case Bcast => this.(bcast := v)
    }
  }

  /** Where a non-root device's task for a key is, in the order of its queue list. `Posted` means
      that a collective call was posted and has not been synchronised. */
  datatype Loc =
    | Idle | CoordReduce | ReduceQueued | ReducePosted | CopyOut
    | CoordPush | CopyIn | CoordBcast | BcastQueued | BcastPosted

  /** Where the root's task for a key is. `Exchange` is from the push until the pull is answered,
      `Copying` while the other devices are told to copy. */
  datatype RootLoc =
    | RootIdle | RootReduce | RootReducePosted | RootCopyOut
    | RootPush | Exchange | RootCopyIn | Copying | RootBcast | RootBcastPosted

  /** The task of a key; `done` counts the earlier rounds. */
  datatype Task = Task(done: nat, loc: Loc)
  datatype RootTask = RootTask(done: nat, loc: RootLoc)

  /** Signals from the root. */
  datatype Msg = Do(op: Gather, key: Key) | Group

  /** A non-root device: its tasks, the signal each coordinator thread is about to send, its READY
      signals under way, the signals under way to it, its copy table, and the calls it posted. */
  datatype Device = Device(tasks: seq<Task>, unsent: Per<Option<Key>>, up: Per<seq<Key>>,
                           down: seq<Msg>, copyDown: seq<Key>, copyTable: seq<nat>, log: seq<Msg>)

  /** The root's NCCL thread: free, or sending a signal to one device after the other. */
  datatype Sender = Free(open: bool) | Sending(msg: Msg, sentTo: nat)

  datatype Copier = Resting | Telling(key: Key, sentTo: nat)

  /** `issued` lists the calls in the order in which the root took them, `posted` those that the
      root itself has posted. `ok` says that no check has failed. */
  datatype State = State(devices: seq<Device>, root: seq<RootTask>, tables: Per<seq<nat>>,
                         nccl: Sender, copier: Copier, issued: seq<Msg>, posted: seq<Msg>, ok: bool)

  datatype Step =
    | Enqueue(d: nat, k: Key) | Move(d: nat, op: Gather, k: Key) | Signal(d: nat, op: Gather)
    | ReceiveDo(d: nat) | Finish(d: nat, k: Key) | CopyDown(d: nat, k: Key)
    | ReceiveCopy(d: nat) | CopyUp(d: nat, k: Key) | Deliver(d: nat, op: Gather)
    | RootEnqueue(k: Key) | Take(op: Gather, k: Key) | SendNext | Post | CloseGroup
    | RootFinish(k: Key) | RootCopyDown(k: Key) | TakePush(k: Key) | Exchanged(k: Key)
    | TakeCopy(k: Key) | TellNext | RootCopyUp

  /** The queue a coordinator takes from, the one it passes the task on to, the root's queue. */
  function CoordLoc(op: Gather): Loc {
    match op case Reduce => CoordReduce case Push => CoordPush case Bcast => CoordBcast
  }

  function NextLoc(op: Gather): Loc {
    match op case Reduce => ReduceQueued case Push => CopyIn case Bcast => BcastQueued
  }

  function RootLocOf(op: Gather): RootLoc {
    match op case Reduce => RootReduce case Push => RootPush case Bcast => RootBcast
  }

  function PostedLoc(op: Gather): Loc {
    if op == Reduce then ReducePosted else BcastPosted
  }

  function RootTaken(op: Gather): RootLoc {
    match op case Reduce => RootReducePosted case Push => Exchange case Bcast => RootBcastPosted
  }

  predicate Shaped(s: State) {
    && (forall d :: 0 <= d < |s.devices| ==> |s.devices[d].tasks| == |s.devices[d].copyTable| == |s.root|)
    && |s.tables.reduce| == |s.tables.push| == |s.tables.bcast| == |s.root|
  }

  function Start(m: nat, keys: nat): (s: State)
    ensures Shaped(s)
  {
    State(seq(m, _ => Device(seq(keys, _ => Task(0, Idle)), Per(None, None, None), Per([], [], []), [], [],
                             seq(keys, _ => 0), [])),
          seq(keys, _ => RootTask(0, RootIdle)),
          Per(seq(keys, _ => 0), seq(keys, _ => 0), seq(keys, _ => 0)), Free(false), Resting, [], [], true)
  }

  predicate AtDev(s: State, d: nat, k: Key, loc: Loc)
    requires Shaped(s)
  {
    d < |s.devices| && k < |s.root| && s.devices[d].tasks[k].loc == loc
  }

  predicate AtRoot(s: State, k: Key, loc: RootLoc) {
    k < |s.root| && s.root[k].loc == loc
  }

  /** The group that ends at position `j` of the issued calls is launched: every device and the root
      have posted it whole. */
  predicate Launched(s: State, j: nat) {
    && j < |s.posted| && s.posted[j] == Group
    && forall d :: 0 <= d < |s.devices| ==> j < |s.devices[d].log|
  }

  /** The last call of this kind in a list of calls is in a launched group, so it can be synchronised. */
  ghost predicate Complete(s: State, calls: seq<Msg>, m: Msg) {
    exists i, j :: 0 <= i < j < |calls| && calls[i] == m && Launched(s, j) && m !in calls[i + 1..]
  }

  /** When a step can be made. The receiving steps need only a signal to receive; a collective call
      is synchronised only when all GPUs have posted the group it is in. */
  ghost predicate Enabled(s: State, step: Step)
    requires Shaped(s)
  {
    match step
    case Enqueue(d, k) => AtDev(s, d, k, Idle)
    case Move(d, op, k) => AtDev(s, d, k, CoordLoc(op)) && s.devices[d].unsent.Get(op).None?
    case Signal(d, op) => d < |s.devices| && s.devices[d].unsent.Get(op).Some?
    case ReceiveDo(d) => d < |s.devices| && s.devices[d].down != []
    case Finish(d, k) =>
      || (AtDev(s, d, k, ReducePosted) && Complete(s, s.devices[d].log, Do(Reduce, k)))
      || (AtDev(s, d, k, BcastPosted) && Complete(s, s.devices[d].log, Do(Bcast, k)))
    case CopyDown(d, k) => AtDev(s, d, k, CopyOut)
    case ReceiveCopy(d) => d < |s.devices| && s.devices[d].copyDown != []
    case CopyUp(d, k) => AtDev(s, d, k, CopyIn) && s.devices[d].copyTable[k] == 1
    case Deliver(d, op) => d < |s.devices| && s.devices[d].up.Get(op) != []
    case RootEnqueue(k) => AtRoot(s, k, RootIdle)
    case Take(op, k) => op != Push && AtRoot(s, k, RootLocOf(op)) && s.nccl.Free? && s.tables.Get(op)[k] == |s.devices|
    case SendNext => s.nccl.Sending? && s.nccl.sentTo < |s.devices|
    case Post => s.nccl.Sending? && s.nccl.sentTo == |s.devices|
    case CloseGroup => s.nccl == Free(true)
    case RootFinish(k) =>
      || (AtRoot(s, k, RootReducePosted) && Complete(s, s.issued, Do(Reduce, k)))
      || (AtRoot(s, k, RootBcastPosted) && Complete(s, s.issued, Do(Bcast, k)))
    case RootCopyDown(k) => AtRoot(s, k, RootCopyOut)
    case TakePush(k) => AtRoot(s, k, RootPush) && s.tables.push[k] == |s.devices|
    case Exchanged(k) => AtRoot(s, k, Exchange)
    case TakeCopy(k) => AtRoot(s, k, RootCopyIn) && s.copier.Resting?
    case TellNext => s.copier.Telling? && s.copier.sentTo < |s.devices|
    case RootCopyUp => s.copier.Telling? && s.copier.sentTo == |s.devices| && AtRoot(s, s.copier.key, Copying)
  }

  // ---- the steps ----

  function PutTask(v: Device, k: Key, t: Task): Device
    requires k < |v.tasks|
  {
    v.(tasks := v.tasks[k := t])
  }

  function MoveTo(v: Device, k: Key, loc: Loc): Device
    requires k < |v.tasks|
  {
    PutTask(v, k, v.tasks[k].(loc := loc))
  }

  /** A posted call was synchronised; after the broadcast the queue list is empty. */
  function Finished(t: Task): Task {
    if t.loc == ReducePosted then t.(loc := CopyOut) else Task(t.done + 1, Idle)
  }

  function RootFinished(t: RootTask): RootTask {
    if t.loc == RootReducePosted then t.(loc := RootCopyOut) else RootTask(t.done + 1, RootIdle)
  }

  /** The device whose NCCL thread receives the next signal: it looks for the task of that key in
      the queue of that operation. The flag says whether the task is there. */
  function Received(v: Device): (r: (Device, bool))
    requires v.down != []
  {
    var m, rest := v.down[0], v.down[1..];
    match m
    case Group => (v.(down := rest, log := v.log + [m]), true)
    case Do(op, k) =>
      if op != Push && k < |v.tasks| && v.tasks[k].loc == NextLoc(op) then
        (MoveTo(v, k, PostedLoc(op)).(down := rest, log := v.log + [m]), true)
      else (v, false)
  }

  /** The device whose listener is told to copy a key: the ready count of a copy table is at most 1. */
  function CopyReceived(v: Device): (r: (Device, bool))
    requires v.copyDown != []
  {
    var k := v.copyDown[0];
    if k < |v.copyTable| && v.copyTable[k] < 1 then
      (v.(copyDown := v.copyDown[1..], copyTable := v.copyTable[k := v.copyTable[k] + 1]), true)
    else (v, false)
  }

  function PutDev(s: State, d: nat, v: Device): State
    requires d < |s.devices|
  {
    s.(devices := s.devices[d := v])
  }

  function PutRoot(s: State, k: Key, t: RootTask): State
    requires k < |s.root|
  {
    s.(root := s.root[k := t])
  }

  function RootTo(s: State, k: Key, loc: RootLoc): State
    requires k < |s.root|
  {
    PutRoot(s, k, s.root[k].(loc := loc))
  }

  /** A READY signal reaches the root: one more device is ready, if fewer than all were. */
  function Delivered(s: State, d: nat, op: Gather): (r: State)
    requires Shaped(s) && d < |s.devices| && s.devices[d].up.Get(op) != []
  {
    var v := s.devices[d];
    var k := v.up.Get(op)[0];
    var table := s.tables.Get(op);
    if k < |table| && table[k] < |s.devices| then
      PutDev(s, d, v.(up := v.up.Set(op, v.up.Get(op)[1..]))).(tables := s.tables.Set(op, table[k := table[k] + 1]))
    else s.(ok := false)
  }

  /** The root takes a task for which all devices are ready, and clears the ready count first. */
  function TakeReady(s: State, op: Gather, k: Key): (r: State)
    requires Shaped(s) && k < |s.root|
  {
    RootTo(s, k, RootTaken(op)).(tables := s.tables.Set(op, s.tables.Get(op)[k := 0]))
  }

  function Issue(s: State, m: Msg): State {
    s.(nccl := Sending(m, 0), issued := s.issued + [m])
  }

  function Next(s: State, step: Step): (r: State)
    requires Shaped(s) && Enabled(s, step)
  {
    match step
    case Enqueue(d, k) => PutDev(s, d, MoveTo(s.devices[d], k, CoordReduce))
    case Move(d, op, k) =>
      var v := s.devices[d];
      PutDev(s, d, MoveTo(v, k, NextLoc(op)).(unsent := v.unsent.Set(op, Some(k))))
    case Signal(d, op) =>
      var v := s.devices[d];
      PutDev(s, d, v.(unsent := v.unsent.Set(op, None), up := v.up.Set(op, v.up.Get(op) + [v.unsent.Get(op).value])))
    case ReceiveDo(d) =>
      var (v, found) := Received(s.devices[d]);
      if found then PutDev(s, d, v) else s.(ok := false)
    case Finish(d, k) => PutDev(s, d, PutTask(s.devices[d], k, Finished(s.devices[d].tasks[k])))
    case CopyDown(d, k) => PutDev(s, d, MoveTo(s.devices[d], k, CoordPush))
    case ReceiveCopy(d) =>
      var (v, fits) := CopyReceived(s.devices[d]);
      if fits then PutDev(s, d, v) else s.(ok := false)
    case CopyUp(d, k) =>
      var v := s.devices[d];
      PutDev(s, d, MoveTo(v, k, CoordBcast).(copyTable := v.copyTable[k := 0]))
    case Deliver(d, op) => Delivered(s, d, op)
    case RootEnqueue(k) => RootTo(s, k, RootReduce)
    case Take(op, k) => Issue(TakeReady(s, op, k), Do(op, k))
    case SendNext =>
      var v := s.devices[s.nccl.sentTo];
      PutDev(s, s.nccl.sentTo, v.(down := v.down + [s.nccl.msg])).(nccl := s.nccl.(sentTo := s.nccl.sentTo + 1))
    case Post => s.(nccl := Free(s.nccl.msg != Group), posted := s.posted + [s.nccl.msg])
    case CloseGroup => Issue(s, Group)
    case RootFinish(k) => PutRoot(s, k, RootFinished(s.root[k]))
    case RootCopyDown(k) => RootTo(s, k, RootPush)
    case TakePush(k) => TakeReady(s, Push, k)
    case Exchanged(k) => RootTo(s, k, RootCopyIn)
    case TakeCopy(k) => RootTo(s, k, Copying).(copier := Telling(k, 0))
    case TellNext =>
      var v := s.devices[s.copier.sentTo];
      PutDev(s, s.copier.sentTo, v.(copyDown := v.copyDown + [s.copier.key]))
        .(copier := s.copier.(sentTo := s.copier.sentTo + 1))
    case RootCopyUp => RootTo(s, s.copier.key, RootBcast).(copier := Resting)
  }
}
