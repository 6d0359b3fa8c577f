/** What holds in every run of the coordination. */
module CoordinationTheorems {
  import opened Options
  import opened Sequences
  import opened Coordination
  import opened CoordinationSafety
  import opened CoordinationRuns

  // ---- every step keeps the invariant ----

  lemma LinksStep(s: State, step: Step)
    requires Inv(s) && Enabled(s, step)
    ensures var r := Next(s, step); Shaped(r) && AllLinks(r) && TablesOk(r) && r.ok
  {
    match step
    case Enqueue(d, k) => TaskStep(s, d, k, s.devices[d].tasks[k].(loc := CoordReduce));
    case Move(d, op, k) => MoveStep(s, d, op, k);
    case Signal(d, op) => SignalStep(s, d, op);
    case ReceiveDo(d) => ReceiveStep(s, d);
    case Finish(d, k) => TaskStep(s, d, k, Finished(s.devices[d].tasks[k]));
    case CopyDown(d, k) => TaskStep(s, d, k, s.devices[d].tasks[k].(loc := CoordPush));
    case ReceiveCopy(d) => CopyReceiveStep(s, d);
    case CopyUp(d, k) => CopyUpStep(s, d, k);
    case Deliver(d, op) => DeliverStep(s, d, op);
    case RootEnqueue(k) => RootStep(s, k, s.root[k].(loc := RootReduce));
    case Take(op, k) => TakeStep(s, step, op, k);
    case SendNext => SendStep(s);
    case Post => NcclStep(s, step);
    case CloseGroup => NcclStep(s, step);
    case RootFinish(k) => RootStep(s, k, RootFinished(s.root[k]));
    case RootCopyDown(k) => RootStep(s, k, s.root[k].(loc := RootPush));
    case TakePush(k) => TakeStep(s, step, Push, k);
    case Exchanged(k) => RootStep(s, k, s.root[k].(loc := RootCopyIn));
    case TakeCopy(k) => CopyTakeStep(s, k);
    case TellNext => TellStep(s);
    case RootCopyUp => RestStep(s);
  }

  lemma OthersDeviceStep(s: State, step: Step)
    requires Inv(s) && Enabled(s, step)
    requires step.Enqueue? || step.Move? || step.Signal? || step.Finish? || step.CopyDown? || step.ReceiveCopy? || step.CopyUp?
    ensures Others(Next(s, step))
  {
    var v, keys := s.devices[step.d], |s.root|;
    match step
    case Enqueue(d, k) => KeysTask(v, k, v.tasks[k].(loc := CoordReduce), keys); OthersDevice(s, d, MoveTo(v, k, CoordReduce));
    case Move(d, op, k) => KeysMove(v, op, k, keys); OthersDevice(s, d, MovedDev(v, op, k));
    case Signal(d, op) => KeysSignal(v, op, keys); OthersDevice(s, d, SignalledDev(v, op));
    case Finish(d, k) => KeysTask(v, k, Finished(v.tasks[k]), keys); OthersDevice(s, d, PutTask(v, k, Finished(v.tasks[k])));
    case CopyDown(d, k) => KeysTask(v, k, v.tasks[k].(loc := CoordPush), keys); OthersDevice(s, d, MoveTo(v, k, CoordPush));
    case ReceiveCopy(d) => CopyReceiveFits(s, d); KeysCopy(v, keys); OthersDevice(s, d, CopyReceived(v).0);
    case CopyUp(d, k) => KeysCopied(v, k, keys); OthersDevice(s, d, CopiedDev(v, k));
  }

  lemma OthersDeliver(s: State, d: nat, op: Gather)
    requires Inv(s) && Enabled(s, Deliver(d, op))
    ensures Others(Next(s, Deliver(d, op)))
  {
    var v := DeliveredDev(s.devices[d], op);
    DeliverFits(s, d, op);
    KeysDeliver(s.devices[d], op, |s.root|);
    OthersDevice(s, d, v);
    OthersTables(PutDev(s, d, v), Next(s, Deliver(d, op)).tables);
  }

  lemma OthersTake(s: State, op: Gather, k: Key)
    requires Inv(s) && AtRoot(s, k, RootLocOf(op))
    ensures Others(TakeReady(s, op, k))
  {
    var r := RootTo(s, k, RootTaken(op));
    OthersRoot(s, k, s.root[k].(loc := RootTaken(op)));
    OthersTables(r, TakeReady(s, op, k).tables);
  }

  lemma OthersCopyTake(s: State, k: Key)
    requires Inv(s) && Enabled(s, TakeCopy(k))
    ensures Others(Next(s, TakeCopy(k)))
  {
    OthersRoot(s, k, s.root[k].(loc := Copying));
    OthersCopier(RootTo(s, k, Copying), Telling(k, 0));
  }

  lemma OthersCopied(s: State)
    requires Inv(s) && Enabled(s, RootCopyUp)
    ensures Others(Next(s, RootCopyUp))
  {
    var q := s.(copier := Resting);
    OthersCopier(s, Resting);
    var r := RootTo(q, s.copier.key, RootBcast);
    forall e | 0 <= e < |r.devices| ensures LogOk(r, e) {
      assert LogOk(q, e);
    }
  }

  lemma OthersStep(s: State, step: Step)
    requires Inv(s) && Enabled(s, step)
    ensures Others(Next(s, step))
  {
    match step
    case ReceiveDo(d) => ReceiveFinds(s, d); OthersReceive(s, d);
    case Deliver(d, op) => OthersDeliver(s, d, op);
    case RootEnqueue(k) => OthersRoot(s, k, s.root[k].(loc := RootReduce));
    case Take(op, k) => OthersTake(s, op, k); OthersIssue(TakeReady(s, op, k), Do(op, k));
    case SendNext => OthersSend(s);
    case Post => OthersPost(s);
    case CloseGroup => OthersIssue(s, Group);
    case RootFinish(k) => OthersRoot(s, k, RootFinished(s.root[k]));
    case RootCopyDown(k) => OthersRoot(s, k, s.root[k].(loc := RootPush));
    case TakePush(k) => OthersTake(s, Push, k);
    case Exchanged(k) => OthersRoot(s, k, s.root[k].(loc := RootCopyIn));
    case TakeCopy(k) => OthersCopyTake(s, k);
    case TellNext => OthersTell(s);
    case RootCopyUp => OthersCopied(s);
    case _ => OthersDeviceStep(s, step);
  }

  lemma CopyingStep(s: State, step: Step)
    requires Inv(s) && Enabled(s, step)
    ensures CopyingOk(Next(s, step))
  {
    forall k: nat | AtRoot(Next(s, step), k, Copying)
      ensures Next(s, step).copier.Telling? && Next(s, step).copier.key == k
    {
      assert AtRoot(s, k, Copying) || step == TakeCopy(k);
    }
  }

  lemma GroupStep(s: State, step: Step)
    requires Shaped(s) && GroupOk(s) && Enabled(s, step)
    ensures GroupOk(Next(s, step))
  {
  }

  lemma CallsTake(s: State, op: Gather, j: Key, k: Key)
    requires Shaped(s) && Enabled(s, Take(op, j)) && k < |s.root| && CallsOf(s, k)
    ensures CallsOf(Next(s, Take(op, j)), k)
  {
    var r := Next(s, Take(op, j));
    assert r.issued == s.issued + [Do(op, j)] && r.root == s.root[j := s.root[j].(loc := RootTaken(op))];
    CountSnoc(s.issued, Do(op, j), Do(Reduce, k));
    CountSnoc(s.issued, Do(op, j), Do(Bcast, k));
  }

  lemma CallsGroup(s: State, k: Key)
    requires Shaped(s) && Enabled(s, CloseGroup) && k < |s.root| && CallsOf(s, k)
    ensures CallsOf(Next(s, CloseGroup), k)
  {
    CountSnoc(s.issued, Group, Do(Reduce, k));
    CountSnoc(s.issued, Group, Do(Bcast, k));
  }

  /** The calls issued for a key, and how far its root task is, do not change. */
  ghost predicate SameCalls(s: State, r: State, k: Key)
    requires k < |s.root|
  {
    && r.issued == s.issued && k < |r.root|
    && RootPast(r.root[k], RootReducePosted) == RootPast(s.root[k], RootReducePosted)
    && RootPast(r.root[k], RootBcastPosted) == RootPast(s.root[k], RootBcastPosted)
  }

  /** A step of a device, a listener or a sender: the root's tasks stay where they are. */
  ghost predicate LeavesRoot(step: Step) {
    || step.Enqueue? || step.Move? || step.Signal? || step.ReceiveDo? || step.Finish? || step.CopyDown?
    || step.ReceiveCopy? || step.CopyUp? || step.Deliver? || step.SendNext? || step.Post? || step.TellNext?
  }

  lemma CallsElsewhere(s: State, step: Step, k: Key)
    requires Shaped(s) && Enabled(s, step) && LeavesRoot(step) && k < |s.root|
    ensures SameCalls(s, Next(s, step), k)
  {
    assert Next(s, step).root == s.root && Next(s, step).issued == s.issued;
  }

  /** The root's tasks move, but no call is issued. */
  lemma CallsAtRoot(s: State, step: Step, k: Key)
    requires Shaped(s) && Enabled(s, step) && !LeavesRoot(step) && !step.Take? && !step.CloseGroup? && k < |s.root|
    ensures SameCalls(s, Next(s, step), k)
  {
  }

  lemma CallsOfStep(s: State, step: Step, k: Key)
    requires Shaped(s) && Enabled(s, step) && k < |s.root| && CallsOf(s, k)
    ensures k < |Next(s, step).root| && CallsOf(Next(s, step), k)
  {
    if step.Take? {
      CallsTake(s, step.op, step.k, k);
    } else if step.CloseGroup? {
      CallsGroup(s, k);
    } else if LeavesRoot(step) {
      CallsElsewhere(s, step, k);
    } else {
      CallsAtRoot(s, step, k);
    }
  }

  lemma SameKeys(s: State, step: Step)
    requires Shaped(s) && Enabled(s, step)
    ensures |Next(s, step).root| == |s.root|
  {
  }

  lemma CallsStep(s: State, step: Step)
    requires Inv(s) && Enabled(s, step)
    ensures CallsOk(Next(s, step))
  {
    var r := Next(s, step);
    SameKeys(s, step);
    forall k: nat | k < |r.root| ensures CallsOf(r, k) {
      assert CallsOf(s, k);
      CallsOfStep(s, step, k);
    }
  }

  lemma StepInv(s: State, step: Step)
    requires Inv(s) && Enabled(s, step)
    ensures Inv(Next(s, step))
  {
    LinksStep(s, step);
    OthersStep(s, step);
    CopyingStep(s, step);
    GroupStep(s, step);
    CallsStep(s, step);
  }

  lemma StartLink(m: nat, keys: nat, d: nat, k: Key)
    requires d < m && k < keys
    ensures Fresh(Between(Start(m, keys), d, k))
  {
    var v := Start(m, keys).devices[d];
    assert v.tasks[k] == Task(0, Idle) && v.copyTable[k] == 0;
  }

  lemma StartTables(m: nat, keys: nat)
    ensures AllLinks(Start(m, keys)) && TablesOk(Start(m, keys))
  {
    var s := Start(m, keys);
    forall d: nat, k: nat | d < m && k < keys
      ensures LinkOk(Between(s, d, k)) && forall op :: !IsReady(Between(s, d, k), op)
    {
      StartLink(m, keys, d, k);
      FreshOk(Between(s, d, k));
    }
    forall op, k: nat | k < keys ensures s.tables.Get(op)[k] == |ReadySet(s, op, k)| {
      assert ReadySet(s, op, k) == {};
    }
  }

  lemma StartInv(m: nat, keys: nat)
    ensures Inv(Start(m, keys))
  {
    StartTables(m, keys);
    assert forall k: nat :: k < keys ==> Start(m, keys).root[k] == RootTask(0, RootIdle);
  }

  /** `s` is reached from the start with `m` other devices by the given steps. */
  ghost predicate Run(m: nat, keys: nat, steps: seq<Step>, s: State)
    decreases |steps|
  {
    if steps == [] then s == Start(m, keys)
    else exists r :: Run(m, keys, steps[..|steps| - 1], r) && Shaped(r)
                     && Enabled(r, steps[|steps| - 1]) && s == Next(r, steps[|steps| - 1])
  }

  lemma {:induction false} RunInv(m: nat, keys: nat, steps: seq<Step>, s: State)
    requires Run(m, keys, steps, s)
    ensures Inv(s)
    decreases |steps|
  {
    if steps == [] {
      StartInv(m, keys);
    } else {
      var last := |steps| - 1;
      var r :| Run(m, keys, steps[..last], r) && Shaped(r) && Enabled(r, steps[last]) && s == Next(r, steps[last]);
      RunInv(m, keys, steps[..last], r);
      StepInv(r, steps[last]);
    }
  }

  // ---- no check fails ----

  /** In every run: no check has failed; the next signal a device receives finds its task; the next
      READY signal and the next signal to copy keep within the limits of their tables. */
  lemma ChecksHold(m: nat, keys: nat, steps: seq<Step>, s: State, d: nat, op: Gather)
    requires Run(m, keys, steps, s) && d < |s.devices|
    ensures s.ok && Shaped(s)
    ensures s.devices[d].down != [] ==> Received(s.devices[d]).1
    ensures s.devices[d].copyDown != [] ==> CopyReceived(s.devices[d]).1
    ensures s.devices[d].up.Get(op) != [] ==>
              var k := s.devices[d].up.Get(op)[0]; k < |s.root| && s.tables.Get(op)[k] < |s.devices|
  {
    RunInv(m, keys, steps, s);
    if s.devices[d].down != [] {
      ReceiveFinds(s, d);
    }
    if s.devices[d].copyDown != [] {
      CopyReceiveFits(s, d);
    }
    if s.devices[d].up.Get(op) != [] {
      DeliverFits(s, d, op);
    }
  }

  /** While a key is ready, no READY signal for it is under way or about to be sent: nothing can
      come between the root's look at the table and its clearing. */
  lemma ReadyMeansQuiet(m: nat, keys: nat, steps: seq<Step>, s: State, op: Gather, k: Key, d: nat)
    requires Run(m, keys, steps, s) && Shaped(s) && k < |s.root| && d < |s.devices|
    requires s.tables.Get(op)[k] == |s.devices|
    ensures k !in s.devices[d].up.Get(op) && s.devices[d].unsent.Get(op) != Some(k)
  {
    RunInv(m, keys, steps, s);
    FullTable(s, op, k, d);
    LinkAt(s, d, k);
    OneAhead(Between(s, d, k), op);
  }

  // ---- the order of the calls ----

  /** Every device's posted calls, with the group boundaries, are a prefix of the calls in the order
      in which the root issued them; the root has posted all of those but perhaps the last. */
  lemma CallsArePrefix(m: nat, keys: nat, steps: seq<Step>, s: State, d: nat)
    requires Run(m, keys, steps, s) && d < |s.devices|
    ensures s.devices[d].log <= s.issued && s.posted <= s.issued && |s.issued| <= |s.posted| + 1
  {
    RunInv(m, keys, steps, s);
    assert LogOk(s, d);
  }

  /** The root announces a call before it posts it. So a device's calls are a prefix of those that
      the root itself has posted exactly when the device has not overtaken the root. */
  lemma PrefixExactly(m: nat, keys: nat, steps: seq<Step>, s: State, d: nat)
    requires Run(m, keys, steps, s) && d < |s.devices|
    ensures s.devices[d].log <= s.posted <==> !(s.nccl.Sending? && s.nccl.sentTo > d && s.devices[d].down == [])
  {
    RunInv(m, keys, steps, s);
    assert LogOk(s, d);
    CallsArePrefix(m, keys, steps, s, d);
    var v := s.devices[d];
    if s.nccl.Sending? && s.nccl.sentTo > d && v.down == [] {
      assert v.log == s.issued;
    } else {
      assert |v.log| <= |s.posted|;
    }
  }

  lemma RunSnoc(m: nat, keys: nat, steps: seq<Step>, s: State, step: Step)
    requires Run(m, keys, steps, s) && Shaped(s) && Enabled(s, step)
    ensures Run(m, keys, steps + [step], Next(s, step))
  {
    assert (steps + [step])[..|steps|] == steps;
  }

  /** Up to the moment when the root takes the first key, with one other device. */
  lemma FirstTake() returns (steps: seq<Step>, s: State)
    ensures Run(1, 1, steps, s) && Shaped(s) && |s.devices| == |s.root| == 1
    ensures s.devices[0].tasks[0].loc == ReduceQueued && s.devices[0].down == s.devices[0].log == s.posted == []
    ensures s.nccl == Sending(Do(Reduce, 0), 0)
  {
    var s0 := Start(1, 1);
    RunSnoc(1, 1, [], s0, RootEnqueue(0));
    steps, s := EnqueueFirst([] + [RootEnqueue(0)], Next(s0, RootEnqueue(0)));
  }

  lemma EnqueueFirst(before: seq<Step>, s0: State) returns (steps: seq<Step>, s: State)
    requires Run(1, 1, before, s0) && Shaped(s0) && |s0.devices| == |s0.root| == 1
    requires AtDev(s0, 0, 0, Idle) && AtRoot(s0, 0, RootReduce) && s0.devices[0].unsent.reduce.None?
    requires s0.devices[0].up.reduce == [] && s0.tables.reduce == [0] && s0.nccl.Free?
    requires s0.devices[0].down == s0.devices[0].log == s0.posted == []
    ensures Run(1, 1, steps, s) && Shaped(s) && |s.devices| == |s.root| == 1
    ensures s.devices[0].tasks[0].loc == ReduceQueued && s.devices[0].down == s.devices[0].log == s.posted == []
    ensures s.nccl == Sending(Do(Reduce, 0), 0)
  {
    RunSnoc(1, 1, before, s0, Enqueue(0, 0));
    var s1 := Next(s0, Enqueue(0, 0));
    steps, s := AnnounceFirst(before + [Enqueue(0, 0)], s1);
  }

  lemma AnnounceFirst(before: seq<Step>, s0: State) returns (steps: seq<Step>, s: State)
    requires Run(1, 1, before, s0) && Shaped(s0) && |s0.devices| == |s0.root| == 1
    requires AtDev(s0, 0, 0, CoordReduce) && AtRoot(s0, 0, RootReduce) && s0.devices[0].unsent.reduce.None?
    requires s0.devices[0].up.reduce == [] && s0.tables.reduce == [0] && s0.nccl.Free?
    requires s0.devices[0].down == s0.devices[0].log == s0.posted == []
    ensures Run(1, 1, steps, s) && Shaped(s) && |s.devices| == |s.root| == 1
    ensures s.devices[0].tasks[0].loc == ReduceQueued && s.devices[0].down == s.devices[0].log == s.posted == []
    ensures s.nccl == Sending(Do(Reduce, 0), 0)
  {
    RunSnoc(1, 1, before, s0, Move(0, Reduce, 0));
    var s1 := Next(s0, Move(0, Reduce, 0));
    steps, s := SignalFirst(before + [Move(0, Reduce, 0)], s1);
  }

  lemma SignalFirst(before: seq<Step>, s0: State) returns (steps: seq<Step>, s: State)
    requires Run(1, 1, before, s0) && Shaped(s0) && |s0.devices| == |s0.root| == 1
    requires AtDev(s0, 0, 0, ReduceQueued) && AtRoot(s0, 0, RootReduce) && s0.devices[0].unsent.reduce == Some(0)
    requires s0.devices[0].up.reduce == [] && s0.tables.reduce == [0] && s0.nccl.Free?
    requires s0.devices[0].down == s0.devices[0].log == s0.posted == []
    ensures Run(1, 1, steps, s) && Shaped(s) && |s.devices| == |s.root| == 1
    ensures s.devices[0].tasks[0].loc == ReduceQueued && s.devices[0].down == s.devices[0].log == s.posted == []
    ensures s.nccl == Sending(Do(Reduce, 0), 0)
  {
    RunSnoc(1, 1, before, s0, Signal(0, Reduce));
    var s1 := Next(s0, Signal(0, Reduce));
    steps, s := DeliverFirst(before + [Signal(0, Reduce)], s1);
  }

  lemma DeliverFirst(before: seq<Step>, s0: State) returns (steps: seq<Step>, s: State)
    requires Run(1, 1, before, s0) && Shaped(s0) && |s0.devices| == |s0.root| == 1
    requires AtDev(s0, 0, 0, ReduceQueued) && AtRoot(s0, 0, RootReduce)
    requires s0.devices[0].up.reduce == [0] && s0.tables.reduce == [0] && s0.nccl.Free?
    requires s0.devices[0].down == s0.devices[0].log == s0.posted == []
    ensures Run(1, 1, steps, s) && Shaped(s) && |s.devices| == |s.root| == 1
    ensures s.devices[0].tasks[0].loc == ReduceQueued && s.devices[0].down == s.devices[0].log == s.posted == []
    ensures s.nccl == Sending(Do(Reduce, 0), 0)
  {
    RunSnoc(1, 1, before, s0, Deliver(0, Reduce));
    var s1 := Next(s0, Deliver(0, Reduce));
    steps, s := TakeFirst(before + [Deliver(0, Reduce)], s1);
  }

  lemma TakeFirst(before: seq<Step>, s0: State) returns (steps: seq<Step>, s: State)
    requires Run(1, 1, before, s0) && Shaped(s0) && |s0.devices| == |s0.root| == 1
    requires AtDev(s0, 0, 0, ReduceQueued) && AtRoot(s0, 0, RootReduce) && s0.tables.reduce == [1] && s0.nccl.Free?
    requires s0.devices[0].down == s0.devices[0].log == s0.posted == []
    ensures Run(1, 1, steps, s) && Shaped(s) && |s.devices| == |s.root| == 1
    ensures s.devices[0].tasks[0].loc == ReduceQueued && s.devices[0].down == s.devices[0].log == s.posted == []
    ensures s.nccl == Sending(Do(Reduce, 0), 0)
  {
    RunSnoc(1, 1, before, s0, Take(Reduce, 0));
    steps, s := before + [Take(Reduce, 0)], Next(s0, Take(Reduce, 0));
  }

  /** A device can post a call before the root does. */
  lemma DeviceOvertakes() returns (steps: seq<Step>, s: State)
    ensures Run(1, 1, steps, s) && |s.devices| == 1 && !(s.devices[0].log <= s.posted)
  {
    var before, s0 := FirstTake();
    RunSnoc(1, 1, before, s0, SendNext);
    var s1 := Next(s0, SendNext);
    RunSnoc(1, 1, before + [SendNext], s1, ReceiveDo(0));
    steps, s := before + [SendNext] + [ReceiveDo(0)], Next(s1, ReceiveDo(0));
  }

  // ---- no deadlock ----

  /** How the root's reduce queue hands out tasks: without a limit, or within a budget of bytes under way,
      with the length of the partition of each key. */
  datatype Credit = Unlimited | Limited(lens: seq<nat>, budget: nat)

  /** The bytes of the tasks that the reduce queue has handed out and that have not reported their end. */
  ghost function Busy(root: seq<RootTask>, lens: seq<nat>): nat
    requires |root| == |lens|
  {
    if root == [] then 0
    else
      var last := |root| - 1;
      Busy(root[..last], lens[..last]) + if root[last].loc == RootReducePosted then lens[last] else 0
  }

  /** The credits allow the step: only the reduce queue looks at them. */
  ghost predicate Affords(s: State, q: Credit, step: Step) {
    q.Limited? && step.Take? && step.op == Reduce ==>
      |q.lens| == |s.root| && step.k < |s.root| && Busy(s.root, q.lens) + q.lens[step.k] <= q.budget
  }

  /** Every partition fits the whole budget, as the budget is a multiple of the partition bound. */
  ghost predicate Ample(s: State, q: Credit) {
    q.Limited? ==> |q.lens| == |s.root| && forall k :: 0 <= k < |q.lens| ==> q.lens[k] <= q.budget
  }

  /** A step other than putting a new task into the first queue. */
  ghost predicate CanMove(s: State, q: Credit)
    requires Shaped(s)
  {
    exists step: Step :: Enabled(s, step) && Affords(s, q, step) && !step.Enqueue? && !step.RootEnqueue?
  }

  lemma {:induction false} NothingBusy(root: seq<RootTask>, lens: seq<nat>)
    requires |root| == |lens| && forall k :: 0 <= k < |root| ==> root[k].loc != RootReducePosted
    ensures Busy(root, lens) == 0
  {
    if root != [] {
      NothingBusy(root[..|root| - 1], lens[..|root| - 1]);
    }
  }

  /** Nothing is under way and no thread has anything left to do. */
  ghost predicate Still(s: State, d: nat)
    requires Shaped(s) && d < |s.devices|
  {
    var v := s.devices[d];
    && (forall op :: v.unsent.Get(op).None? && v.up.Get(op) == []) && v.down == [] && v.copyDown == []
    && s.nccl.Free? && s.copier.Resting?
  }

  lemma StuckIsStill(s: State, q: Credit, d: nat)
    requires Inv(s) && !CanMove(s, q) && d < |s.devices|
    ensures Still(s, d)
  {
    var v := s.devices[d];
    forall op ensures v.unsent.Get(op).None? && v.up.Get(op) == [] {
      assert !Enabled(s, Signal(d, op)) && !Enabled(s, Deliver(d, op));
    }
    assert !Enabled(s, ReceiveDo(d)) && !Enabled(s, ReceiveCopy(d));
    assert !Enabled(s, SendNext) && !Enabled(s, Post);
    assert !Enabled(s, TellNext) && !Enabled(s, RootCopyUp);
  }

  lemma StillLink(s: State, d: nat, k: Key)
    requires Inv(s) && d < |s.devices| && k < |s.root| && Still(s, d)
    ensures var l := Between(s, d, k);
            && LinkOk(l) && l.copies == 0
            && forall op :: !l.unsent.Get(op) && l.flying.Get(op) == 0 && l.doing.Get(op) == 0
  {
    LinkAt(s, d, k);
    var v := s.devices[d];
    assert v.unsent.Get(Reduce).None? && v.unsent.Get(Push).None? && v.unsent.Get(Bcast).None?;
    assert v.up.Get(Reduce) == [] && v.up.Get(Push) == [] && v.up.Get(Bcast) == [];
  }

  /** When nothing moves, every device and the root have posted all calls, and the last group is
      closed. */
  lemma StuckLog(s: State, q: Credit, d: nat)
    requires Inv(s) && !CanMove(s, q) && d < |s.devices|
    ensures s.devices[d].log == s.issued == s.posted
    ensures s.posted != [] ==> s.posted[|s.posted| - 1] == Group
  {
    StuckIsStill(s, q, d);
    assert !Enabled(s, CloseGroup);
    assert LogOk(s, d);
  }

  lemma StuckLaunched(s: State, q: Credit)
    requires Inv(s) && !CanMove(s, q) && s.posted != [] && |s.devices| > 0
    ensures Launched(s, |s.posted| - 1)
  {
    StuckLog(s, q, 0);
    forall d | 0 <= d < |s.devices| ensures |s.posted| - 1 < |s.devices[d].log| {
      StuckLog(s, q, d);
    }
  }

  lemma {:induction false} LastIndex<T>(s: seq<T>, x: T) returns (i: nat)
    requires x in s
    ensures i < |s| && s[i] == x && x !in s[i + 1..]
  {
    var last := |s| - 1;
    if s[last] == x {
      i := last;
    } else {
      assert s == s[..last] + [s[last]];
      i := LastIndex(s[..last], x);
      assert s[i + 1..] == s[..last][i + 1..] + [s[last]];
    }
  }

  lemma StuckComplete(s: State, q: Credit, m: Msg)
    requires Inv(s) && !CanMove(s, q) && |s.devices| > 0 && m != Group && m in s.posted
    ensures Complete(s, s.posted, m)
  {
    StuckLog(s, q, 0);
    StuckLaunched(s, q);
    var i := LastIndex(s.posted, m);
    assert 0 <= i < |s.posted| - 1;
  }

  /** A task whose call was posted: the call is in the log. */
  lemma PostedIsLogged(s: State, d: nat, k: Key, op: Gather)
    requires Inv(s) && d < |s.devices| && Still(s, d) && k < |s.root| && op != Push && s.devices[d].tasks[k].loc == PostedLoc(op)
    ensures Do(op, k) in s.issued
  {
    StillLink(s, d, k);
    assert CallsOf(s, k);
  }

  /** Where a device's task can be when nothing moves. */
  lemma StuckDevice(s: State, q: Credit, d: nat, k: Key)
    requires Inv(s) && !CanMove(s, q) && d < |s.devices| && k < |s.root|
    ensures s.devices[d].tasks[k].loc in {Idle, ReduceQueued, CopyIn, BcastQueued}
    ensures s.devices[d].tasks[k].loc == CopyIn ==> s.devices[d].copyTable[k] != 1
  {
    StuckIsStill(s, q, d);
    NotPosted(s, q, d, k, Reduce);
    NotPosted(s, q, d, k, Bcast);
    assert !Enabled(s, Move(d, Reduce, k)) && !Enabled(s, Move(d, Push, k)) && !Enabled(s, Move(d, Bcast, k));
    assert !Enabled(s, CopyDown(d, k)) && !Enabled(s, CopyUp(d, k));
  }

  lemma NotPosted(s: State, q: Credit, d: nat, k: Key, op: Gather)
    requires Inv(s) && !CanMove(s, q) && d < |s.devices| && k < |s.root| && op != Push
    ensures s.devices[d].tasks[k].loc != PostedLoc(op)
  {
    StuckIsStill(s, q, d);
    if s.devices[d].tasks[k].loc == PostedLoc(op) {
      PostedIsLogged(s, d, k, op);
      StuckLog(s, q, d);
      StuckComplete(s, q, Do(op, k));
      assert Enabled(s, Finish(d, k));
    }
  }

  lemma RootNotPosted(s: State, q: Credit, k: Key, op: Gather)
    requires Inv(s) && !CanMove(s, q) && |s.devices| > 0 && k < |s.root| && op != Push
    ensures s.root[k].loc != RootTaken(op)
  {
    if s.root[k].loc == RootTaken(op) {
      assert CallsOf(s, k);
      assert Do(op, k) in s.issued;
      StuckLog(s, q, 0);
      StuckComplete(s, q, Do(op, k));
      assert Enabled(s, RootFinish(k));
    }
  }

  lemma StuckRootAt(s: State, q: Credit, k: Key)
    requires Inv(s) && !CanMove(s, q) && k < |s.root| && |s.devices| > 0
    ensures s.root[k].loc in {RootIdle, RootReduce, RootPush, RootBcast}
  {
    StuckIsStill(s, q, 0);
    RootNotPosted(s, q, k, Reduce);
    RootNotPosted(s, q, k, Bcast);
    assert !AtRoot(s, k, Copying);
    assert !Enabled(s, RootCopyDown(k)) && !Enabled(s, Exchanged(k));
    assert !Enabled(s, TakeCopy(k));
  }

  /** When nothing moves, nothing is under way in the reduce queue, and any task can be afforded. */
  lemma StuckAffords(s: State, q: Credit, k: Key)
    requires Inv(s) && !CanMove(s, q) && |s.devices| > 0 && k < |s.root| && Ample(s, q)
    ensures Affords(s, q, Take(Reduce, k))
  {
    if q.Limited? {
      forall j: nat | j < |s.root| ensures s.root[j].loc != RootReducePosted {
        RootNotPosted(s, q, j, Reduce);
      }
      NothingBusy(s.root, q.lens);
    }
  }

  lemma StuckRoot(s: State, q: Credit, k: Key) returns (op: Gather)
    requires Shaped(s) && !CanMove(s, q) && k < |s.root| && s.nccl.Free? && s.root[k].loc in {RootReduce, RootPush, RootBcast}
    requires Affords(s, q, Take(Reduce, k))
    ensures s.root[k].loc == RootLocOf(op) && s.tables.Get(op)[k] != |s.devices|
  {
    if s.root[k].loc == RootPush {
      op := Push;
      assert !Enabled(s, TakePush(k));
    } else {
      op := if s.root[k].loc == RootReduce then Reduce else Bcast;
      assert !Enabled(s, Take(op, k));
    }
  }

  lemma SomeNotReady(s: State, op: Gather, k: Key) returns (d: nat)
    requires Shaped(s) && TablesOk(s) && k < |s.root| && s.tables.Get(op)[k] != |s.devices|
    ensures d < |s.devices| && !IsReady(Between(s, d, k), op)
  {
    Below(ReadySet(s, op, k), |s.devices|);
    d :| d < |s.devices| && !IsReady(Between(s, d, k), op);
  }

  /** On a link where nothing moves, the root does not wait for a device that has its task. */
  lemma NotWaiting(l: Link, op: Gather)
    requires LinkOk(l) && l.copies == 0
    requires forall o :: !l.unsent.Get(o) && l.flying.Get(o) == 0 && l.doing.Get(o) == 0
    requires l.task.loc in {ReduceQueued, CopyIn, BcastQueued} && (l.task.loc == CopyIn ==> l.ready != 1)
    requires l.root.loc == RootLocOf(op)
    ensures IsReady(l, op)
  {
    assert l.doing.Get(Reduce) == 0 && l.doing.Get(Bcast) == 0;
  }

  /** No deadlock: once the root and all devices have a task for a key, something can move. Waiting
      for a collective call counts as a move only when all GPUs have posted its group, and taking a
      task for a reduce only when the credits allow it. */
  lemma NeverStuck(m: nat, keys: nat, steps: seq<Step>, s: State, q: Credit, k: Key)
    requires Run(m, keys, steps, s) && Shaped(s) && k < |s.root| && |s.devices| > 0 && s.root[k].loc != RootIdle
    requires forall d: nat :: d < |s.devices| ==> s.devices[d].tasks[k].loc != Idle
    requires Ample(s, q)
    ensures CanMove(s, q)
  {
    RunInv(m, keys, steps, s);
    if !CanMove(s, q) {
      StuckRootAt(s, q, k);
      StuckIsStill(s, q, 0);
      StuckAffords(s, q, k);
      var op := StuckRoot(s, q, k);
      var d := SomeNotReady(s, op, k);
      StuckIsStill(s, q, d);
      StillLink(s, d, k);
      StuckDevice(s, q, d, k);
      NotWaiting(Between(s, d, k), op);
    }
  }
}
