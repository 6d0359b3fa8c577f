/** The invariant of the coordination, and what it gives for every run. */
module CoordinationRuns {
  import opened Options
  import opened Sequences
  import opened Coordination
  import opened CoordinationSafety

  // ---- counting signals ----

  /** Signals that a root thread has still to send to device `d`. */
  function Pending(nccl: Sender, d: nat, m: Msg): nat {
    if nccl.Sending? && nccl.sentTo <= d && nccl.msg == m then 1 else 0
  }

  function PendingCopy(copier: Copier, d: nat, k: Key): nat {
    if copier.Telling? && copier.sentTo <= d && copier.key == k then 1 else 0
  }

  ghost function Doing(v: Device, d: nat, nccl: Sender, op: Gather, k: Key): nat {
    Count(v.down, Do(op, k)) + Pending(nccl, d, Do(op, k))
  }

  ghost function LinkOf(v: Device, d: nat, root: RootTask, nccl: Sender, copier: Copier, k: Key): Link
    requires k < |v.tasks| && k < |v.copyTable|
  {
    Link(v.tasks[k], root,
         Per(v.unsent.reduce == Some(k), v.unsent.push == Some(k), v.unsent.bcast == Some(k)),
         Per(Count(v.up.reduce, k), Count(v.up.push, k), Count(v.up.bcast, k)),
         Per(Doing(v, d, nccl, Reduce, k), Doing(v, d, nccl, Push, k), Doing(v, d, nccl, Bcast, k)),
         Count(v.copyDown, k) + PendingCopy(copier, d, k), v.copyTable[k])
  }

  ghost function Between(s: State, d: nat, k: Key): Link
    requires Shaped(s) && d < |s.devices| && k < |s.root|
  {
    LinkOf(s.devices[d], d, s.root[k], s.nccl, s.copier, k)
  }

  // ---- the invariant ----

  ghost predicate AllLinks(s: State)
    requires Shaped(s)
  {
    forall d, k :: 0 <= d < |s.devices| && 0 <= k < |s.root| ==> LinkOk(Between(s, d, k))
  }

  ghost function ReadySet(s: State, op: Gather, k: Key): set<nat>
    requires Shaped(s) && k < |s.root|
  {
    set d: nat | d < |s.devices| && IsReady(Between(s, d, k), op)
  }

  /** The root's table counts the devices whose signal for the next round has arrived. */
  ghost predicate TablesOk(s: State)
    requires Shaped(s)
  {
    forall op, k: nat :: k < |s.root| ==> s.tables.Get(op)[k] == |ReadySet(s, op, k)|
  }

  /** Signals name existing keys. */
  ghost predicate KeysOk(v: Device, keys: nat) {
    && (forall op, i :: 0 <= i < |v.up.Get(op)| ==> v.up.Get(op)[i] < keys)
    && (forall op :: v.unsent.Get(op).Some? ==> v.unsent.Get(op).value < keys)
    && (forall i :: 0 <= i < |v.down| ==> MsgOk(v.down[i], keys))
    && (forall i :: 0 <= i < |v.copyDown| ==> v.copyDown[i] < keys)
  }

  predicate MsgOk(m: Msg, keys: nat) {
    m.Do? ==> m.key < keys
  }

  ghost predicate SendersOk(s: State) {
    && (s.nccl.Sending? ==> s.nccl.sentTo <= |s.devices| && MsgOk(s.nccl.msg, |s.root|))
    && (s.copier.Telling? ==> s.copier.sentTo <= |s.devices| && AtRoot(s, s.copier.key, Copying))
  }

  /** Only the key that the copying thread works on is being copied. */
  ghost predicate CopyingOk(s: State) {
    forall k: nat :: AtRoot(s, k, Copying) ==> s.copier.Telling? && s.copier.key == k
  }

  /** What device `d` posted and is still to receive is what the root issued. */
  ghost predicate LogOk(s: State, d: nat)
    requires d < |s.devices|
  {
    s.devices[d].log + s.devices[d].down + Unsent(s.nccl, d) == s.issued
  }

  function Unsent(nccl: Sender, d: nat): seq<Msg> {
    if nccl.Sending? && nccl.sentTo <= d then [nccl.msg] else []
  }

  ghost predicate LogsOk(s: State) {
    && (forall d :: 0 <= d < |s.devices| ==> LogOk(s, d))
    && s.issued == s.posted + if s.nccl.Sending? then [s.nccl.msg] else []
  }

  /** The root has issued a call for each time it took a key. */
  ghost predicate CallsOk(s: State) {
    forall k: nat :: k < |s.root| ==> CallsOf(s, k)
  }

  ghost predicate CallsOf(s: State, k: Key)
    requires k < |s.root|
  {
    && Count(s.issued, Do(Reduce, k)) == RootPast(s.root[k], RootReducePosted)
    && Count(s.issued, Do(Bcast, k)) == RootPast(s.root[k], RootBcastPosted)
  }

  /** Between two signals the root's thread knows whether it has an open group. */
  ghost predicate GroupOk(s: State) {
    s.nccl.Free? ==> (s.nccl.open <==> s.posted != [] && s.posted[|s.posted| - 1] != Group)
  }

  ghost predicate Inv(s: State) {
    && Shaped(s) && s.ok && CallsOk(s) && GroupOk(s)
    && AllLinks(s) && TablesOk(s) && SendersOk(s) && CopyingOk(s) && LogsOk(s)
    && (forall d :: 0 <= d < |s.devices| ==> KeysOk(s.devices[d], |s.root|))
  }

  // ---- links: device steps ----

  ghost predicate DeviceShaped(s: State, d: nat, v: Device) {
    Shaped(s) && d < |s.devices| && |v.tasks| == |v.copyTable| == |s.root|
  }

  /** The link of key `k` if device `d` were `v`. */
  ghost function At(s: State, d: nat, v: Device, k: Key): Link
    requires DeviceShaped(s, d, v) && k < |s.root|
  {
    LinkOf(v, d, s.root[k], s.nccl, s.copier, k)
  }

  ghost predicate SameReady(l: Link, m: Link) {
    forall op :: IsReady(l, op) == IsReady(m, op)
  }

  ghost predicate Stays(s: State, d: nat, v: Device, k: Key)
    requires DeviceShaped(s, d, v) && k < |s.root|
  {
    LinkOk(At(s, d, v, k)) && SameReady(At(s, d, v, k), Between(s, d, k))
  }

  lemma LinkAt(s: State, d: nat, k: Key)
    requires Shaped(s) && AllLinks(s) && d < |s.devices| && k < |s.root|
    ensures LinkOk(Between(s, d, k))
  {
  }

  lemma SameReadySet(s: State, t: State, op: Gather, k: Key)
    requires Shaped(s) && Shaped(t) && |s.devices| == |t.devices| && k < |s.root| == |t.root|
    requires forall d: nat :: d < |s.devices| ==> SameReady(Between(t, d, k), Between(s, d, k))
    ensures ReadySet(t, op, k) == ReadySet(s, op, k)
  {
  }

  lemma SameTables(s: State, t: State)
    requires Shaped(s) && Shaped(t) && TablesOk(s) && t.tables == s.tables
    requires |s.devices| == |t.devices| && |s.root| == |t.root|
    requires forall d: nat, k: nat :: d < |s.devices| && k < |s.root| ==> SameReady(Between(t, d, k), Between(s, d, k))
    ensures TablesOk(t)
  {
    forall op, k: nat | k < |s.root| ensures t.tables.Get(op)[k] == |ReadySet(t, op, k)| {
      SameReadySet(s, t, op, k);
    }
  }

  lemma OtherLinks(s: State, d: nat, v: Device, e: nat, k: Key)
    requires DeviceShaped(s, d, v) && e < |s.devices| && k < |s.root|
    ensures Shaped(PutDev(s, d, v))
    ensures Between(PutDev(s, d, v), e, k) == if e == d then At(s, d, v, k) else Between(s, e, k)
  {
  }

  /** Only device `d` changes, and no READY count does. */
  lemma DeviceKeeps(s: State, d: nat, v: Device)
    requires DeviceShaped(s, d, v) && AllLinks(s) && TablesOk(s)
    requires forall k: nat :: k < |s.root| ==> Stays(s, d, v, k)
    ensures Shaped(PutDev(s, d, v)) && AllLinks(PutDev(s, d, v)) && TablesOk(PutDev(s, d, v))
  {
    var t := PutDev(s, d, v);
    forall e: nat, k: nat | e < |s.devices| && k < |s.root|
      ensures LinkOk(Between(t, e, k)) && SameReady(Between(t, e, k), Between(s, e, k))
    {
      OtherLinks(s, d, v, e, k);
      LinkAt(s, e, k);
      if e == d {
        assert Stays(s, d, v, k);
      }
    }
    SameTables(s, t);
  }

  lemma TaskAt(s: State, d: nat, k: Key, t: Task, j: Key)
    requires Shaped(s) && d < |s.devices| && k < |s.root| && j < |s.root|
    ensures DeviceShaped(s, d, PutTask(s.devices[d], k, t))
    ensures At(s, d, PutTask(s.devices[d], k, t), j)
         == if j == k then Between(s, d, k).(task := t) else Between(s, d, j)
  {
  }

  /** A task of the device changes place. */
  lemma TaskStep(s: State, d: nat, k: Key, t: Task)
    requires Shaped(s) && AllLinks(s) && TablesOk(s) && d < |s.devices| && k < |s.root|
    requires var u := s.devices[d].tasks[k];
             || (u.loc == Idle && t == u.(loc := CoordReduce))
             || (u.loc == CopyOut && t == u.(loc := CoordPush))
             || (u.loc in {ReducePosted, BcastPosted} && t == Finished(u))
    ensures var r := PutDev(s, d, PutTask(s.devices[d], k, t)); Shaped(r) && AllLinks(r) && TablesOk(r)
  {
    var v := PutTask(s.devices[d], k, t);
    forall j: nat | j < |s.root| ensures DeviceShaped(s, d, v) && Stays(s, d, v, j) {
      TaskAt(s, d, k, t, j);
      LinkAt(s, d, j);
      if j == k {
        TaskKeeps(Between(s, d, k), t);
      }
    }
    DeviceKeeps(s, d, v);
  }

  function MovedDev(v: Device, op: Gather, k: Key): Device
    requires k < |v.tasks|
  {
    MoveTo(v, k, NextLoc(op)).(unsent := v.unsent.Set(op, Some(k)))
  }

  lemma MovedAt(s: State, d: nat, op: Gather, k: Key, j: Key)
    requires Shaped(s) && d < |s.devices| && k < |s.root| && j < |s.root| && s.devices[d].unsent.Get(op).None?
    ensures DeviceShaped(s, d, MovedDev(s.devices[d], op, k))
    ensures At(s, d, MovedDev(s.devices[d], op, k), j)
         == if j == k then AfterMove(Between(s, d, k), op) else Between(s, d, j)
  {
  }

  lemma MoveStep(s: State, d: nat, op: Gather, k: Key)
    requires Shaped(s) && AllLinks(s) && TablesOk(s) && Enabled(s, Move(d, op, k))
    ensures var r := Next(s, Move(d, op, k)); Shaped(r) && AllLinks(r) && TablesOk(r)
  {
    var v := MovedDev(s.devices[d], op, k);
    forall j: nat | j < |s.root| ensures DeviceShaped(s, d, v) && Stays(s, d, v, j) {
      MovedAt(s, d, op, k, j);
      LinkAt(s, d, j);
      if j == k {
        MoveKeeps(Between(s, d, k), op);
      }
    }
    DeviceKeeps(s, d, v);
  }

  function SignalledDev(v: Device, op: Gather): Device
    requires v.unsent.Get(op).Some?
  {
    v.(unsent := v.unsent.Set(op, None), up := v.up.Set(op, v.up.Get(op) + [v.unsent.Get(op).value]))
  }

  lemma SignalledAt(s: State, d: nat, op: Gather, j: Key)
    requires Shaped(s) && d < |s.devices| && j < |s.root| && s.devices[d].unsent.Get(op).Some?
    ensures DeviceShaped(s, d, SignalledDev(s.devices[d], op))
    ensures At(s, d, SignalledDev(s.devices[d], op), j)
         == if s.devices[d].unsent.Get(op) == Some(j) then AfterSignal(Between(s, d, j), op) else Between(s, d, j)
  {
    var v := s.devices[d];
    CountSnoc(v.up.Get(op), v.unsent.Get(op).value, j);
  }

  lemma SignalStep(s: State, d: nat, op: Gather)
    requires Shaped(s) && AllLinks(s) && TablesOk(s) && Enabled(s, Signal(d, op))
    ensures var r := Next(s, Signal(d, op)); Shaped(r) && AllLinks(r) && TablesOk(r)
  {
    var v := SignalledDev(s.devices[d], op);
    forall j: nat | j < |s.root| ensures DeviceShaped(s, d, v) && Stays(s, d, v, j) {
      SignalledAt(s, d, op, j);
      LinkAt(s, d, j);
      if s.devices[d].unsent.Get(op) == Some(j) {
        SignalKeeps(Between(s, d, j), op);
      }
    }
    DeviceKeeps(s, d, v);
  }

  lemma DoHere(s: State, d: nat, op: Gather, k: Key)
    requires Shaped(s) && AllLinks(s) && d < |s.devices| && k < |s.root|
    requires s.devices[d].down != [] && s.devices[d].down[0] == Do(op, k)
    ensures Between(s, d, k).doing.Get(op) > 0
    ensures op != Push && s.devices[d].tasks[k].loc == NextLoc(op)
    ensures LinkOk(AfterDo(Between(s, d, k), op)) && SameReady(AfterDo(Between(s, d, k), op), Between(s, d, k))
  {
    LinkAt(s, d, k);
    CountHead(s.devices[d].down, Do(op, k));
    DoKeeps(Between(s, d, k), op);
  }

  lemma ReceivedAt(s: State, d: nat, j: Key)
    requires Shaped(s) && d < |s.devices| && j < |s.root| && s.devices[d].down != [] && Received(s.devices[d]).1
    ensures DeviceShaped(s, d, Received(s.devices[d]).0)
    ensures var v, m, l := s.devices[d], s.devices[d].down[0], Between(s, d, j);
            && (m.Do? && m.key == j ==> l.doing.Get(m.op) > 0)
            && At(s, d, Received(v).0, j) == if m.Do? && m.key == j then AfterDo(l, m.op) else l
  {
    var v := s.devices[d];
    CountHead(v.down, Do(Reduce, j));
    CountHead(v.down, Do(Push, j));
    CountHead(v.down, Do(Bcast, j));
  }

  /** A DO signal always finds its task. */
  lemma ReceiveFinds(s: State, d: nat)
    requires Shaped(s) && AllLinks(s) && d < |s.devices| && KeysOk(s.devices[d], |s.root|) && s.devices[d].down != []
    ensures Received(s.devices[d]).1
  {
    var m := s.devices[d].down[0];
    assert MsgOk(m, |s.root|);
    if m.Do? {
      DoHere(s, d, m.op, m.key);
    }
  }

  lemma ReceiveStep(s: State, d: nat)
    requires Shaped(s) && AllLinks(s) && TablesOk(s) && Enabled(s, ReceiveDo(d)) && KeysOk(s.devices[d], |s.root|)
    ensures var r := Next(s, ReceiveDo(d)); Shaped(r) && AllLinks(r) && TablesOk(r) && r.ok == s.ok
  {
    ReceiveFinds(s, d);
    var v, m := Received(s.devices[d]).0, s.devices[d].down[0];
    forall j: nat | j < |s.root| ensures DeviceShaped(s, d, v) && Stays(s, d, v, j) {
      ReceivedAt(s, d, j);
      LinkAt(s, d, j);
      if m.Do? && m.key == j {
        DoHere(s, d, m.op, j);
      }
    }
    DeviceKeeps(s, d, v);
  }

  lemma CopyReceivedAt(s: State, d: nat, j: Key)
    requires Shaped(s) && d < |s.devices| && j < |s.root| && s.devices[d].copyDown != [] && CopyReceived(s.devices[d]).1
    ensures DeviceShaped(s, d, CopyReceived(s.devices[d]).0)
    ensures var v, l := s.devices[d], Between(s, d, j);
            && (v.copyDown[0] == j ==> l.copies > 0)
            && At(s, d, CopyReceived(v).0, j)
            == if v.copyDown[0] == j then l.(copies := l.copies - 1, ready := l.ready + 1) else l
  {
    CountHead(s.devices[d].copyDown, j);
  }

  /** A signal to copy never exceeds the limit of the copy table. */
  lemma CopyReceiveFits(s: State, d: nat)
    requires Shaped(s) && AllLinks(s) && d < |s.devices| && KeysOk(s.devices[d], |s.root|) && s.devices[d].copyDown != []
    ensures CopyReceived(s.devices[d]).1
  {
    var k := s.devices[d].copyDown[0];
    LinkAt(s, d, k);
    CountHead(s.devices[d].copyDown, k);
    CopyFits(Between(s, d, k));
  }

  lemma CopyReceiveStep(s: State, d: nat)
    requires Shaped(s) && AllLinks(s) && TablesOk(s) && Enabled(s, ReceiveCopy(d)) && KeysOk(s.devices[d], |s.root|)
    ensures var r := Next(s, ReceiveCopy(d)); Shaped(r) && AllLinks(r) && TablesOk(r) && r.ok == s.ok
  {
    CopyReceiveFits(s, d);
    var v := CopyReceived(s.devices[d]).0;
    forall j: nat | j < |s.root| ensures DeviceShaped(s, d, v) && Stays(s, d, v, j) {
      CopyReceivedAt(s, d, j);
      LinkAt(s, d, j);
      if s.devices[d].copyDown[0] == j {
        CopyReceiveKeeps(Between(s, d, j));
      }
    }
    DeviceKeeps(s, d, v);
  }

  function CopiedDev(v: Device, k: Key): Device
    requires k < |v.tasks| && k < |v.copyTable|
  {
    MoveTo(v, k, CoordBcast).(copyTable := v.copyTable[k := 0])
  }

  lemma CopiedAt(s: State, d: nat, k: Key, j: Key)
    requires Shaped(s) && d < |s.devices| && k < |s.root| && j < |s.root|
    ensures DeviceShaped(s, d, CopiedDev(s.devices[d], k))
    ensures var l := Between(s, d, j);
            At(s, d, CopiedDev(s.devices[d], k), j)
            == if j == k then l.(task := l.task.(loc := CoordBcast), ready := 0) else l
  {
  }

  lemma CopyUpStep(s: State, d: nat, k: Key)
    requires Shaped(s) && AllLinks(s) && TablesOk(s) && Enabled(s, CopyUp(d, k))
    ensures var r := Next(s, CopyUp(d, k)); Shaped(r) && AllLinks(r) && TablesOk(r)
  {
    var v := CopiedDev(s.devices[d], k);
    forall j: nat | j < |s.root| ensures DeviceShaped(s, d, v) && Stays(s, d, v, j) {
      CopiedAt(s, d, k, j);
      LinkAt(s, d, j);
      if j == k {
        CopyUpKeeps(Between(s, d, k));
      }
    }
    DeviceKeeps(s, d, v);
  }

  // ---- links: the root's steps ----

  ghost predicate SameSize(s: State, t: State) {
    Shaped(s) && Shaped(t) && |s.devices| == |t.devices| && |s.root| == |t.root|
  }

  ghost predicate Kept(s: State, t: State, d: nat, k: Key)
    requires SameSize(s, t) && d < |s.devices| && k < |s.root|
  {
    LinkOk(Between(t, d, k)) && SameReady(Between(t, d, k), Between(s, d, k))
  }

  lemma AllKept(s: State, t: State)
    requires SameSize(s, t) && TablesOk(s) && t.tables == s.tables
    requires forall d: nat, k: nat :: d < |s.devices| && k < |s.root| ==> Kept(s, t, d, k)
    ensures AllLinks(t) && TablesOk(t)
  {
    forall d: nat, k: nat | d < |s.devices| && k < |s.root|
      ensures LinkOk(Between(t, d, k)) && SameReady(Between(t, d, k), Between(s, d, k))
    {
      assert Kept(s, t, d, k);
    }
    SameTables(s, t);
  }

  lemma SameLinks(s: State, t: State)
    requires SameSize(s, t) && AllLinks(s) && TablesOk(s) && t.tables == s.tables
    requires forall d: nat, k: nat :: d < |s.devices| && k < |s.root| ==> Between(t, d, k) == Between(s, d, k)
    ensures AllLinks(t) && TablesOk(t)
  {
    forall d: nat, k: nat | d < |s.devices| && k < |s.root| ensures Kept(s, t, d, k) {
      LinkAt(s, d, k);
    }
    AllKept(s, t);
  }

  lemma RootStep(s: State, k: Key, t: RootTask)
    requires Shaped(s) && AllLinks(s) && TablesOk(s) && k < |s.root|
    requires var u := s.root[k];
             || (u.loc == RootIdle && t == u.(loc := RootReduce))
             || (u.loc == RootCopyOut && t == u.(loc := RootPush))
             || (u.loc == Exchange && t == u.(loc := RootCopyIn))
             || (u.loc == Copying && t == u.(loc := RootBcast))
             || (u.loc in {RootReducePosted, RootBcastPosted} && t == RootFinished(u))
    ensures var r := PutRoot(s, k, t); Shaped(r) && AllLinks(r) && TablesOk(r)
  {
    var r := PutRoot(s, k, t);
    forall d: nat, j: nat | d < |s.devices| && j < |s.root| ensures Kept(s, r, d, j) {
      LinkAt(s, d, j);
      if j == k {
        assert Between(r, d, j) == Between(s, d, j).(root := t);
        RootKeeps(Between(s, d, k), t);
      } else {
        assert Between(r, d, j) == Between(s, d, j);
      }
    }
    AllKept(s, r);
  }

  lemma CopyTakeStep(s: State, k: Key)
    requires Shaped(s) && AllLinks(s) && TablesOk(s) && Enabled(s, TakeCopy(k))
    ensures var r := Next(s, TakeCopy(k)); Shaped(r) && AllLinks(r) && TablesOk(r)
  {
    var r := Next(s, TakeCopy(k));
    forall d: nat, j: nat | d < |s.devices| && j < |s.root| ensures Kept(s, r, d, j) {
      LinkAt(s, d, j);
      var l := Between(s, d, j);
      if j == k {
        assert Between(r, d, j) == l.(root := l.root.(loc := Copying), copies := l.copies + 1);
        CopyTakeKeeps(l);
      } else {
        assert Between(r, d, j) == l;
      }
    }
    AllKept(s, r);
  }

  lemma TellAt(s: State, d: nat, j: Key)
    requires Shaped(s) && Enabled(s, TellNext) && d < |s.devices| && j < |s.root|
    ensures Shaped(Next(s, TellNext)) && Between(Next(s, TellNext), d, j) == Between(s, d, j)
  {
    CountSnoc(s.devices[d].copyDown, s.copier.key, j);
  }

  /** Sending a signal on moves it from the thread into the channel. */
  lemma TellStep(s: State)
    requires Shaped(s) && AllLinks(s) && TablesOk(s) && Enabled(s, TellNext)
    ensures var r := Next(s, TellNext); Shaped(r) && AllLinks(r) && TablesOk(r)
  {
    var r := Next(s, TellNext);
    forall d: nat, j: nat | d < |s.devices| && j < |s.root|
      ensures Shaped(r) && Between(r, d, j) == Between(s, d, j)
    {
      TellAt(s, d, j);
    }
    assert SameSize(s, r);
    SameLinks(s, r);
  }

  lemma RestStep(s: State)
    requires Shaped(s) && AllLinks(s) && TablesOk(s) && Enabled(s, RootCopyUp)
    ensures var r := Next(s, RootCopyUp); Shaped(r) && AllLinks(r) && TablesOk(r)
  {
    var q := s.(copier := Resting);
    SameLinks(s, q);
    RootStep(q, s.copier.key, q.root[s.copier.key].(loc := RootBcast));
  }

  lemma SendDoing(v: Device, d: nat, nccl: Sender, op: Gather, j: Key)
    requires nccl.Sending? && nccl.sentTo == d
    ensures Doing(v.(down := v.down + [nccl.msg]), d, nccl.(sentTo := d + 1), op, j) == Doing(v, d, nccl, op, j)
  {
    CountSnoc(v.down, nccl.msg, Do(op, j));
  }

  lemma SendAt(s: State, d: nat, j: Key)
    requires Shaped(s) && Enabled(s, SendNext) && d < |s.devices| && j < |s.root|
    ensures Shaped(Next(s, SendNext)) && Between(Next(s, SendNext), d, j) == Between(s, d, j)
  {
    assert Shaped(Next(s, SendNext));
    if d == s.nccl.sentTo {
      SendDoing(s.devices[d], d, s.nccl, Reduce, j);
      SendDoing(s.devices[d], d, s.nccl, Push, j);
      SendDoing(s.devices[d], d, s.nccl, Bcast, j);
    }
  }

  lemma SendStep(s: State)
    requires Shaped(s) && AllLinks(s) && TablesOk(s) && Enabled(s, SendNext)
    ensures var r := Next(s, SendNext); Shaped(r) && AllLinks(r) && TablesOk(r)
  {
    var r := Next(s, SendNext);
    forall d: nat, j: nat | d < |s.devices| && j < |s.root|
      ensures Shaped(r) && Between(r, d, j) == Between(s, d, j)
    {
      SendAt(s, d, j);
    }
    assert SameSize(s, r);
    SameLinks(s, r);
  }

  lemma NcclAt(s: State, t: State, d: nat, j: Key)
    requires Shaped(s) && t == s.(nccl := t.nccl, issued := t.issued, posted := t.posted) && d < |s.devices| && j < |s.root|
    requires s.nccl.Sending? ==> s.nccl.sentTo == |s.devices|
    requires t.nccl.Sending? ==> t.nccl.msg.Group?
    ensures Between(t, d, j) == Between(s, d, j)
  {
  }

  /** The thread becomes free, or starts to announce the end of a group. */
  lemma NcclStep(s: State, step: Step)
    requires Shaped(s) && AllLinks(s) && TablesOk(s) && Enabled(s, step) && (step.Post? || step.CloseGroup?)
    ensures var r := Next(s, step); Shaped(r) && AllLinks(r) && TablesOk(r)
  {
    var r := Next(s, step);
    forall d: nat, j: nat | d < |s.devices| && j < |s.root| ensures Between(r, d, j) == Between(s, d, j) {
      NcclAt(s, r, d, j);
    }
    SameLinks(s, r);
  }

  // ---- the ready tables ----

  lemma {:induction false} Below(s: set<nat>, m: nat)
    requires forall d :: d in s ==> d < m
    ensures |s| <= m
    ensures |s| == m <==> forall d: nat :: d < m ==> d in s
    decreases m
  {
    if m == 0 {
      assert s == {};
    } else {
      var rest := s - {m - 1};
      Below(rest, m - 1);
      assert |rest| == if m - 1 in s then |s| - 1 else |s|;
      forall d: nat | |s| == m && d < m ensures d in s {
        if d < m - 1 {
          assert d in rest;
        }
      }
    }
  }

  /** All devices are ready exactly when the count has reached its limit. */
  lemma FullTable(s: State, op: Gather, k: Key, d: nat)
    requires Shaped(s) && TablesOk(s) && k < |s.root| && d < |s.devices|
    requires s.tables.Get(op)[k] == |s.devices|
    ensures IsReady(Between(s, d, k), op)
  {
    Below(ReadySet(s, op, k), |s.devices|);
    assert d in ReadySet(s, op, k);
  }

  /** A device that is not ready leaves room in the table. */
  lemma RoomInTable(s: State, op: Gather, k: Key, d: nat)
    requires Shaped(s) && TablesOk(s) && k < |s.root| && d < |s.devices| && !IsReady(Between(s, d, k), op)
    ensures s.tables.Get(op)[k] < |s.devices|
  {
    Below(ReadySet(s, op, k), |s.devices|);
    assert d !in ReadySet(s, op, k);
  }

  lemma FlyingHere(s: State, d: nat, op: Gather)
    requires Shaped(s) && AllLinks(s) && Enabled(s, Deliver(d, op)) && KeysOk(s.devices[d], |s.root|)
    ensures var k := s.devices[d].up.Get(op)[0]; k < |s.root| && Between(s, d, k).flying.Get(op) > 0
    ensures var l := Between(s, d, s.devices[d].up.Get(op)[0]);
            && LinkOk(AfterDeliver(l, op)) && !IsReady(l, op) && IsReady(AfterDeliver(l, op), op)
            && forall o :: o != op ==> IsReady(AfterDeliver(l, op), o) == IsReady(l, o)
  {
    var k := s.devices[d].up.Get(op)[0];
    LinkAt(s, d, k);
    CountHead(s.devices[d].up.Get(op), k);
    DeliverKeeps(Between(s, d, k), op);
  }

  /** A READY signal never exceeds the limit of its table. */
  lemma DeliverFits(s: State, d: nat, op: Gather)
    requires Shaped(s) && AllLinks(s) && TablesOk(s) && Enabled(s, Deliver(d, op)) && KeysOk(s.devices[d], |s.root|)
    ensures var k := s.devices[d].up.Get(op)[0]; k < |s.root| && s.tables.Get(op)[k] < |s.devices|
  {
    FlyingHere(s, d, op);
    RoomInTable(s, op, s.devices[d].up.Get(op)[0], d);
  }

  function DeliveredDev(v: Device, op: Gather): Device
    requires v.up.Get(op) != []
  {
    v.(up := v.up.Set(op, v.up.Get(op)[1..]))
  }

  lemma DeliverAt(s: State, d: nat, op: Gather, j: Key)
    requires Shaped(s) && Enabled(s, Deliver(d, op)) && j < |s.root|
    ensures var v, l := DeliveredDev(s.devices[d], op), Between(s, d, j);
            && DeviceShaped(s, d, v) && (j == s.devices[d].up.Get(op)[0] ==> l.flying.Get(op) > 0)
            && At(s, d, v, j) == if j == s.devices[d].up.Get(op)[0] then AfterDeliver(l, op) else l
  {
    CountHead(s.devices[d].up.Get(op), j);
  }

  /** Of device `e` and key `j`: ready as before, except that `d` is ready for `op` on `k`. */
  ghost predicate ReadyPlus(s: State, t: State, e: nat, j: Key, d: nat, op: Gather, k: Key)
    requires SameSize(s, t) && e < |s.devices| && j < |s.root|
  {
    forall o :: IsReady(Between(t, e, j), o) == (IsReady(Between(s, e, j), o) || (e == d && j == k && o == op))
  }

  lemma ReadySetPlus(s: State, t: State, d: nat, op: Gather, k: Key, o: Gather, j: Key)
    requires SameSize(s, t) && j < |s.root| && d < |s.devices|
    requires forall e: nat :: e < |s.devices| ==> ReadyPlus(s, t, e, j, d, op, k)
    ensures ReadySet(t, o, j) == ReadySet(s, o, j) + if j == k && o == op then {d} else {}
  {
    forall e: nat | e < |s.devices|
      ensures e in ReadySet(t, o, j) <==> e in ReadySet(s, o, j) || (e == d && j == k && o == op)
    {
      assert ReadyPlus(s, t, e, j, d, op, k);
    }
  }

  lemma EntryPlus(s: State, t: State, d: nat, op: Gather, k: Key, o: Gather, j: Key)
    requires SameSize(s, t) && j < |s.root| && d < |s.devices| && k < |s.root|
    requires s.tables.Get(o)[j] == |ReadySet(s, o, j)| && !IsReady(Between(s, d, k), op)
    requires t.tables == s.tables.Set(op, s.tables.Get(op)[k := s.tables.Get(op)[k] + 1])
    requires forall e: nat :: e < |s.devices| ==> ReadyPlus(s, t, e, j, d, op, k)
    ensures t.tables.Get(o)[j] == |ReadySet(t, o, j)|
  {
    ReadySetPlus(s, t, d, op, k, o, j);
  }

  /** `d` became ready for `op` on `k`; nothing else changed in the tables. */
  lemma OneMoreReady(s: State, t: State, d: nat, op: Gather, k: Key)
    requires SameSize(s, t) && TablesOk(s) && d < |s.devices| && k < |s.root|
    requires !IsReady(Between(s, d, k), op)
    requires t.tables == s.tables.Set(op, s.tables.Get(op)[k := s.tables.Get(op)[k] + 1])
    requires forall e: nat, j: nat :: e < |s.devices| && j < |s.root| ==> ReadyPlus(s, t, e, j, d, op, k)
    ensures TablesOk(t)
  {
    forall o, j: nat | j < |s.root| ensures t.tables.Get(o)[j] == |ReadySet(t, o, j)| {
      EntryPlus(s, t, d, op, k, o, j);
    }
  }

  lemma DeliverLink(s: State, d: nat, op: Gather, e: nat, j: Key)
    requires Shaped(s) && AllLinks(s) && Enabled(s, Deliver(d, op)) && KeysOk(s.devices[d], |s.root|)
    requires e < |s.devices| && j < |s.root|
    ensures var t := PutDev(s, d, DeliveredDev(s.devices[d], op));
            && SameSize(s, t) && LinkOk(Between(t, e, j))
            && ReadyPlus(s, t, e, j, d, op, s.devices[d].up.Get(op)[0])
  {
    DeliverAt(s, d, op, j);
    OtherLinks(s, d, DeliveredDev(s.devices[d], op), e, j);
    LinkAt(s, e, j);
    FlyingHere(s, d, op);
  }

  /** A change of the tables alone changes no link. */
  lemma TablesApart(s: State, t: State, d: nat, k: Key)
    requires SameSize(s, t) && t == s.(tables := t.tables) && d < |s.devices| && k < |s.root|
    ensures Between(t, d, k) == Between(s, d, k)
  {
  }

  lemma DeliverBoth(s: State, t: State, d: nat, op: Gather, e: nat, j: Key)
    requires Shaped(s) && AllLinks(s) && Enabled(s, Deliver(d, op)) && KeysOk(s.devices[d], |s.root|)
    requires SameSize(s, t) && t == PutDev(s, d, DeliveredDev(s.devices[d], op)).(tables := t.tables)
    requires e < |s.devices| && j < |s.root|
    ensures LinkOk(Between(t, e, j)) && ReadyPlus(s, t, e, j, d, op, s.devices[d].up.Get(op)[0])
  {
    var q := PutDev(s, d, DeliveredDev(s.devices[d], op));
    DeliverLink(s, d, op, e, j);
    TablesApart(q, t, e, j);
  }

  lemma DeliverAll(s: State, t: State, d: nat, op: Gather)
    requires Shaped(s) && AllLinks(s) && Enabled(s, Deliver(d, op)) && KeysOk(s.devices[d], |s.root|)
    requires SameSize(s, t) && t == PutDev(s, d, DeliveredDev(s.devices[d], op)).(tables := t.tables)
    ensures AllLinks(t)
    ensures forall e: nat, j: nat :: e < |s.devices| && j < |s.root| ==>
              ReadyPlus(s, t, e, j, d, op, s.devices[d].up.Get(op)[0])
  {
    forall e: nat, j: nat | e < |s.devices| && j < |s.root|
      ensures LinkOk(Between(t, e, j)) && ReadyPlus(s, t, e, j, d, op, s.devices[d].up.Get(op)[0])
    {
      DeliverBoth(s, t, d, op, e, j);
    }
  }

  lemma DeliverShape(s: State, d: nat, op: Gather)
    requires Shaped(s) && Enabled(s, Deliver(d, op))
    requires var k := s.devices[d].up.Get(op)[0]; k < |s.root| && s.tables.Get(op)[k] < |s.devices|
    ensures var r, k := Delivered(s, d, op), s.devices[d].up.Get(op)[0];
            && SameSize(s, r) && r == PutDev(s, d, DeliveredDev(s.devices[d], op)).(tables := r.tables) && r.ok == s.ok
            && r.tables == s.tables.Set(op, s.tables.Get(op)[k := s.tables.Get(op)[k] + 1])
  {
  }

  lemma DeliverStep(s: State, d: nat, op: Gather)
    requires Shaped(s) && AllLinks(s) && TablesOk(s) && Enabled(s, Deliver(d, op)) && KeysOk(s.devices[d], |s.root|)
    ensures var r := Next(s, Deliver(d, op)); Shaped(r) && AllLinks(r) && TablesOk(r) && r.ok == s.ok
  {
    var k := s.devices[d].up.Get(op)[0];
    DeliverFits(s, d, op);
    DeliverShape(s, d, op);
    DeliverAll(s, Delivered(s, d, op), d, op);
    assert !IsReady(Between(s, d, k), op) by { FlyingHere(s, d, op); }
    OneMoreReady(s, Delivered(s, d, op), d, op, k);
  }

  lemma TakenAt(s: State, op: Gather, k: Key, d: nat, j: Key)
    requires Shaped(s) && d < |s.devices| && j < |s.root| && k < |s.root| && op != Push && s.nccl.Free?
    ensures var r := Issue(TakeReady(s, op, k), Do(op, k));
            && Shaped(r)
            && Between(r, d, j) == if j == k then AfterTake(Between(s, d, j), op) else Between(s, d, j)
  {
  }

  lemma PushTakenAt(s: State, k: Key, d: nat, j: Key)
    requires Shaped(s) && d < |s.devices| && j < |s.root| && k < |s.root|
    ensures var r := TakeReady(s, Push, k);
            && Shaped(r)
            && Between(r, d, j) == if j == k then AfterTake(Between(s, d, j), Push) else Between(s, d, j)
  {
  }

  ghost predicate ReadyMinus(s: State, t: State, d: nat, j: Key, op: Gather, k: Key)
    requires SameSize(s, t) && d < |s.devices| && j < |s.root|
  {
    forall o :: IsReady(Between(t, d, j), o) == (IsReady(Between(s, d, j), o) && !(j == k && o == op))
  }

  lemma ReadySetMinus(s: State, t: State, op: Gather, k: Key, o: Gather, j: Key)
    requires SameSize(s, t) && j < |s.root|
    requires forall d: nat :: d < |s.devices| ==> ReadyMinus(s, t, d, j, op, k)
    ensures ReadySet(t, o, j) == if j == k && o == op then {} else ReadySet(s, o, j)
  {
    forall d: nat | d < |s.devices|
      ensures d in ReadySet(t, o, j) <==> d in ReadySet(s, o, j) && !(j == k && o == op)
    {
      assert ReadyMinus(s, t, d, j, op, k);
    }
  }

  lemma NoneReady(s: State, t: State, op: Gather, k: Key)
    requires SameSize(s, t) && TablesOk(s) && k < |s.root|
    requires t.tables == s.tables.Set(op, s.tables.Get(op)[k := 0])
    requires forall d: nat, j: nat :: d < |s.devices| && j < |s.root| ==> ReadyMinus(s, t, d, j, op, k)
    ensures TablesOk(t)
  {
    forall o, j: nat | j < |s.root| ensures t.tables.Get(o)[j] == |ReadySet(t, o, j)| {
      ReadySetMinus(s, t, op, k, o, j);
    }
  }

  lemma TakeLink(s: State, step: Step, op: Gather, k: Key, d: nat, j: Key)
    requires Shaped(s) && AllLinks(s) && TablesOk(s) && Enabled(s, step) && k < |s.root|
    requires (op == Push && step == TakePush(k)) || (op != Push && step == Take(op, k))
    requires d < |s.devices| && j < |s.root|
    ensures var r := Next(s, step); SameSize(s, r) && LinkOk(Between(r, d, j)) && ReadyMinus(s, r, d, j, op, k)
  {
    if op == Push {
      PushTakenAt(s, k, d, j);
    } else {
      TakenAt(s, op, k, d, j);
    }
    LinkAt(s, d, j);
    if j == k {
      FullTable(s, op, k, d);
      TakeKeeps(Between(s, d, k), op);
    }
  }

  lemma TakeFrame(s: State, step: Step, op: Gather, k: Key)
    requires Shaped(s) && Enabled(s, step) && k < |s.root|
    requires (op == Push && step == TakePush(k)) || (op != Push && step == Take(op, k))
    ensures SameSize(s, Next(s, step)) && Next(s, step).tables == s.tables.Set(op, s.tables.Get(op)[k := 0])
  {
  }

  lemma TakeLinks(s: State, step: Step, op: Gather, k: Key)
    requires Shaped(s) && AllLinks(s) && TablesOk(s) && Enabled(s, step) && k < |s.root|
    requires (op == Push && step == TakePush(k)) || (op != Push && step == Take(op, k))
    requires SameSize(s, Next(s, step))
    ensures AllLinks(Next(s, step))
    ensures forall d: nat, j: nat :: d < |s.devices| && j < |s.root| ==> ReadyMinus(s, Next(s, step), d, j, op, k)
  {
    var r := Next(s, step);
    forall d: nat, j: nat | d < |s.devices| && j < |s.root|
      ensures LinkOk(Between(r, d, j)) && ReadyMinus(s, r, d, j, op, k)
    {
      TakeLink(s, step, op, k, d, j);
    }
  }

  lemma TakeStep(s: State, step: Step, op: Gather, k: Key)
    requires Shaped(s) && AllLinks(s) && TablesOk(s) && Enabled(s, step) && k < |s.root|
    requires (op == Push && step == TakePush(k)) || (op != Push && step == Take(op, k))
    ensures var r := Next(s, step); Shaped(r) && AllLinks(r) && TablesOk(r)
  {
    TakeFrame(s, step, op, k);
    TakeLinks(s, step, op, k);
    NoneReady(s, Next(s, step), op, k);
  }

  // ---- keys, threads and logs ----

  /** The part of the invariant that is not about links and tables. */
  ghost predicate Others(s: State) {
    && SendersOk(s) && LogsOk(s)
    && (forall d :: 0 <= d < |s.devices| ==> KeysOk(s.devices[d], |s.root|))
  }

  /** A device step that neither posts nor receives a call. */
  lemma OthersDevice(s: State, d: nat, v: Device)
    requires Others(s) && d < |s.devices| && KeysOk(v, |s.root|)
    requires v.log == s.devices[d].log && v.down == s.devices[d].down
    ensures Others(PutDev(s, d, v))
  {
    var t := PutDev(s, d, v);
    forall e | 0 <= e < |t.devices| ensures LogOk(t, e) {
      assert LogOk(s, e);
    }
  }

  lemma OthersReceive(s: State, d: nat)
    requires Shaped(s) && Others(s) && d < |s.devices| && s.devices[d].down != [] && Received(s.devices[d]).1
    ensures Others(PutDev(s, d, Received(s.devices[d]).0))
  {
    var u, v := s.devices[d], Received(s.devices[d]).0;
    var t := PutDev(s, d, v);
    forall e | 0 <= e < |t.devices| ensures LogOk(t, e) {
      assert LogOk(s, e);
      assert u.log + u.down == (u.log + [u.down[0]]) + u.down[1..];
    }
    KeysTail(u, v, |s.root|);
  }

  lemma KeysTail(u: Device, v: Device, keys: nat)
    requires KeysOk(u, keys) && u.down != [] && v.down == u.down[1..]
    requires v.up == u.up && v.unsent == u.unsent && v.copyDown == u.copyDown
    ensures KeysOk(v, keys)
  {
    forall i | 0 <= i < |v.down| ensures MsgOk(v.down[i], keys) {
      assert MsgOk(u.down[i + 1], keys);
    }
  }

  lemma OthersRoot(s: State, k: Key, t: RootTask)
    requires Others(s) && k < |s.root| && (s.root[k].loc == Copying ==> t.loc == Copying)
    ensures Others(PutRoot(s, k, t))
  {
    var r := PutRoot(s, k, t);
    forall e | 0 <= e < |r.devices| ensures LogOk(r, e) {
      assert LogOk(s, e);
    }
  }

  lemma OthersIssue(s: State, m: Msg)
    requires Others(s) && s.nccl.Free? && MsgOk(m, |s.root|)
    ensures Others(Issue(s, m))
  {
    var r := Issue(s, m);
    forall e | 0 <= e < |r.devices| ensures LogOk(r, e) {
      assert LogOk(s, e);
      assert s.devices[e].log + s.devices[e].down + [] == s.issued;
    }
  }

  lemma OthersTables(s: State, tables: Per<seq<nat>>)
    requires Others(s)
    ensures Others(s.(tables := tables))
  {
    forall e | 0 <= e < |s.devices| ensures LogOk(s.(tables := tables), e) {
      assert LogOk(s, e);
    }
  }

  lemma KeysSnoc(v: Device, m: Msg, keys: nat)
    requires KeysOk(v, keys) && MsgOk(m, keys)
    ensures KeysOk(v.(down := v.down + [m]), keys)
  {
  }

  lemma OthersSend(s: State)
    requires Shaped(s) && Others(s) && Enabled(s, SendNext)
    ensures Others(Next(s, SendNext))
  {
    var r := Next(s, SendNext);
    var v := s.devices[s.nccl.sentTo];
    KeysSnoc(v, s.nccl.msg, |s.root|);
    forall e | 0 <= e < |r.devices| ensures LogOk(r, e) {
      assert LogOk(s, e);
      assert v.log + v.down + [s.nccl.msg] == v.log + (v.down + [s.nccl.msg]) + [];
    }
  }

  lemma OthersPost(s: State)
    requires Shaped(s) && Others(s) && Enabled(s, Post)
    ensures Others(Next(s, Post))
  {
    var r := Next(s, Post);
    forall e | 0 <= e < |r.devices| ensures LogOk(r, e) {
      assert LogOk(s, e);
    }
  }

  lemma KeysCopySnoc(v: Device, k: Key, keys: nat)
    requires KeysOk(v, keys) && k < keys
    ensures KeysOk(v.(copyDown := v.copyDown + [k]), keys)
  {
  }

  lemma OthersCopier(s: State, copier: Copier)
    requires Others(s)
    requires copier.Telling? ==> copier.sentTo <= |s.devices| && AtRoot(s, copier.key, Copying)
    ensures Others(s.(copier := copier))
  {
    var r := s.(copier := copier);
    forall e | 0 <= e < |r.devices| ensures LogOk(r, e) {
      assert LogOk(s, e);
    }
  }

  lemma OthersTell(s: State)
    requires Shaped(s) && Others(s) && Enabled(s, TellNext)
    ensures Others(Next(s, TellNext))
  {
    var v := s.devices[s.copier.sentTo];
    KeysCopySnoc(v, s.copier.key, |s.root|);
    var w := v.(copyDown := v.copyDown + [s.copier.key]);
    OthersDevice(s, s.copier.sentTo, w);
    OthersCopier(PutDev(s, s.copier.sentTo, w), s.copier.(sentTo := s.copier.sentTo + 1));
  }

  lemma KeysSignal(v: Device, op: Gather, keys: nat)
    requires KeysOk(v, keys) && v.unsent.Get(op).Some?
    ensures KeysOk(SignalledDev(v, op), keys)
  {
  }

  lemma KeysMove(v: Device, op: Gather, k: Key, keys: nat)
    requires KeysOk(v, keys) && k < |v.tasks| && k < keys
    ensures KeysOk(MovedDev(v, op, k), keys)
  {
  }

  lemma KeysDeliver(v: Device, op: Gather, keys: nat)
    requires KeysOk(v, keys) && v.up.Get(op) != []
    ensures KeysOk(DeliveredDev(v, op), keys)
  {
  }

  lemma KeysCopy(v: Device, keys: nat)
    requires KeysOk(v, keys) && v.copyDown != [] && CopyReceived(v).1
    ensures KeysOk(CopyReceived(v).0, keys)
  {
  }

  lemma KeysTask(v: Device, k: Key, t: Task, keys: nat)
    requires KeysOk(v, keys) && k < |v.tasks|
    ensures KeysOk(PutTask(v, k, t), keys)
  {
  }

  lemma KeysCopied(v: Device, k: Key, keys: nat)
    requires KeysOk(v, keys) && k < |v.tasks| && k < |v.copyTable|
    ensures KeysOk(CopiedDev(v, k), keys)
  {
  }
}
