/** What every step of the coordination keeps. The state is seen through links: all that concerns
    one device and one key, in numbers. */
module CoordinationSafety {
  import opened Coordination

  /** Device task and root task of a key; for each gathering whether the READY signal is still to
      be sent and how many are under way; how many DO signals are under way or about to be sent; the
      same for signals to copy; the copy table's count. */
  datatype Link = Link(task: Task, root: RootTask, unsent: Per<bool>, flying: Per<nat>,
                       doing: Per<nat>, copies: nat, ready: nat)

  // ---- how far a task is ----

  function Rank(loc: Loc): nat {
    match loc
    case Idle => 0
    case CoordReduce => 1
    case ReduceQueued => 2
    case ReducePosted => 3
    case CopyOut => 4
    case CoordPush => 5
    case CopyIn => 6
    case CoordBcast => 7
    case BcastQueued => 8
    case BcastPosted => 9
  }

  function RootRank(loc: RootLoc): nat {
    match loc
    case RootIdle => 0
    case RootReduce => 1
    case RootReducePosted => 2
    case RootCopyOut => 3
    case RootPush => 4
    case Exchange => 5
    case RootCopyIn => 6
    case Copying => 7
    case RootBcast => 8
    case RootBcastPosted => 9
  }

  /** How often a task has reached a place. */
  function Past(t: Task, loc: Loc): nat {
    t.done + if Rank(t.loc) >= Rank(loc) then 1 else 0
  }

  function RootPast(t: RootTask, loc: RootLoc): nat {
    t.done + if RootRank(t.loc) >= RootRank(loc) then 1 else 0
  }

  /** How often the device passed the coordinator, and how many READY signals the root received. */
  function Moved(l: Link, op: Gather): nat {
    Past(l.task, NextLoc(op))
  }

  function Arrived(l: Link, op: Gather): int {
    Moved(l, op) - (if l.unsent.Get(op) then 1 else 0) - l.flying.Get(op)
  }

  /** How often the root has taken the key for this operation. */
  function Taken(l: Link, op: Gather): nat {
    RootPast(l.root, RootTaken(op))
  }

  predicate GatherOk(l: Link, op: Gather) {
    Taken(l, op) <= Arrived(l, op)
  }

  /** The device still has to post as many calls as DO signals are coming. */
  predicate DoingOk(l: Link, op: Gather) {
    l.doing.Get(op) == Taken(l, op) - Past(l.task, PostedLoc(op))
  }

  /** The same for copies: signals and the table's count. */
  predicate CopiesOk(l: Link) {
    l.copies + l.ready == RootPast(l.root, Copying) - Past(l.task, CoordBcast)
  }

  predicate LinkOk(l: Link) {
    && GatherOk(l, Reduce) && GatherOk(l, Push) && GatherOk(l, Bcast)
    && DoingOk(l, Reduce) && DoingOk(l, Bcast) && l.doing.push == 0
    && CopiesOk(l)
  }

  /** The device's READY signal for the next round has arrived. */
  predicate IsReady(l: Link, op: Gather) {
    Arrived(l, op) > Taken(l, op)
  }

  // ---- what holds on a link ----

  /** Never more than one READY signal ahead, and never more than one copy. */
  lemma OneAhead(l: Link, op: Gather)
    requires LinkOk(l)
    ensures Moved(l, op) <= Taken(l, op) + 1
    ensures l.copies + l.ready <= 1
  {
  }

  /** A READY signal under way: the device is not counted as ready yet. */
  lemma FlyingNotReady(l: Link, op: Gather)
    requires LinkOk(l) && l.flying.Get(op) > 0
    ensures Arrived(l, op) == Taken(l, op) && l.flying.Get(op) == 1 && !l.unsent.Get(op)
  {
    OneAhead(l, op);
  }

  /** A DO signal under way: the task is in its queue, and it is the only such signal. */
  lemma DoFindsTask(l: Link, op: Gather)
    requires LinkOk(l) && l.doing.Get(op) > 0
    ensures op != Push && l.task.loc == NextLoc(op)
    ensures !l.unsent.Get(op) && l.flying.Get(op) == 0 && l.doing.Get(op) == 1
  {
    OneAhead(l, op);
  }

  /** A signal to copy under way: the copy table's count is 0. */
  lemma CopyFits(l: Link)
    requires LinkOk(l) && l.copies > 0
    ensures l.copies == 1 && l.ready == 0
  {
    OneAhead(l, Push);
  }

  /** A link before anything happened. */
  predicate Fresh(l: Link) {
    && l.task.done == 0 && l.task.loc == Idle && l.root.done == 0 && l.root.loc == RootIdle
    && (forall op :: !l.unsent.Get(op) && l.flying.Get(op) == l.doing.Get(op) == 0) && l.copies == l.ready == 0
  }

  lemma FreshOk(l: Link)
    requires Fresh(l)
    ensures LinkOk(l) && forall op :: !IsReady(l, op)
  {
    assert forall op :: Arrived(l, op) == Taken(l, op) == 0;
    assert l.doing.Get(Push) == 0;
  }

  // ---- what each action does to a link ----

  function AfterMove(l: Link, op: Gather): Link {
    l.(task := l.task.(loc := NextLoc(op)), unsent := l.unsent.Set(op, true))
  }

  function AfterSignal(l: Link, op: Gather): Link {
    l.(unsent := l.unsent.Set(op, false), flying := l.flying.Set(op, l.flying.Get(op) + 1))
  }

  function AfterDeliver(l: Link, op: Gather): Link
    requires l.flying.Get(op) > 0
  {
    l.(flying := l.flying.Set(op, l.flying.Get(op) - 1))
  }

  function AfterDo(l: Link, op: Gather): Link
    requires l.doing.Get(op) > 0
  {
    l.(task := l.task.(loc := PostedLoc(op)), doing := l.doing.Set(op, l.doing.Get(op) - 1))
  }

  function AfterTake(l: Link, op: Gather): Link {
    var m := l.(root := l.root.(loc := RootTaken(op)));
    if op == Push then m else m.(doing := l.doing.Set(op, l.doing.Get(op) + 1))
  }

  lemma MoveKeeps(l: Link, op: Gather)
    requires LinkOk(l) && l.task.loc == CoordLoc(op) && !l.unsent.Get(op)
    ensures LinkOk(AfterMove(l, op))
    ensures forall o :: IsReady(AfterMove(l, op), o) == IsReady(l, o)
  {
  }

  lemma SignalKeeps(l: Link, op: Gather)
    requires LinkOk(l) && l.unsent.Get(op)
    ensures LinkOk(AfterSignal(l, op))
    ensures forall o :: IsReady(AfterSignal(l, op), o) == IsReady(l, o)
  {
  }

  lemma DeliverKeeps(l: Link, op: Gather)
    requires LinkOk(l) && l.flying.Get(op) > 0
    ensures LinkOk(AfterDeliver(l, op))
    ensures !IsReady(l, op) && IsReady(AfterDeliver(l, op), op)
    ensures forall o :: o != op ==> IsReady(AfterDeliver(l, op), o) == IsReady(l, o)
  {
    FlyingNotReady(l, op);
  }

  lemma DoKeeps(l: Link, op: Gather)
    requires LinkOk(l) && l.doing.Get(op) > 0
    ensures l.task.loc == NextLoc(op) && op != Push
    ensures LinkOk(AfterDo(l, op))
    ensures forall o :: IsReady(AfterDo(l, op), o) == IsReady(l, o)
  {
    DoFindsTask(l, op);
  }

  lemma TakeKeeps(l: Link, op: Gather)
    requires LinkOk(l) && IsReady(l, op) && l.root.loc == RootLocOf(op)
    ensures LinkOk(AfterTake(l, op))
    ensures !IsReady(AfterTake(l, op), op)
    ensures forall o :: o != op ==> IsReady(AfterTake(l, op), o) == IsReady(l, o)
  {
    OneAhead(l, op);
  }

  /** The device's task goes to a place that no gathering looks at. */
  lemma TaskKeeps(l: Link, t: Task)
    requires LinkOk(l)
    requires (l.task.loc == Idle && t == l.task.(loc := CoordReduce))
          || (l.task.loc == CopyOut && t == l.task.(loc := CoordPush))
          || (l.task.loc in {ReducePosted, BcastPosted} && t == Finished(l.task))
    ensures LinkOk(l.(task := t))
    ensures forall o :: IsReady(l.(task := t), o) == IsReady(l, o)
  {
  }

  lemma RootKeeps(l: Link, t: RootTask)
    requires LinkOk(l)
    requires (l.root.loc == RootIdle && t == l.root.(loc := RootReduce))
          || (l.root.loc == RootCopyOut && t == l.root.(loc := RootPush))
          || (l.root.loc == Exchange && t == l.root.(loc := RootCopyIn))
          || (l.root.loc == Copying && t == l.root.(loc := RootBcast))
          || (l.root.loc in {RootReducePosted, RootBcastPosted} && t == RootFinished(l.root))
    ensures LinkOk(l.(root := t))
    ensures forall o :: IsReady(l.(root := t), o) == IsReady(l, o)
  {
  }

  lemma CopyTakeKeeps(l: Link)
    requires LinkOk(l) && l.root.loc == RootCopyIn
    ensures LinkOk(l.(root := l.root.(loc := Copying), copies := l.copies + 1))
    ensures forall o :: IsReady(l.(root := l.root.(loc := Copying), copies := l.copies + 1), o) == IsReady(l, o)
  {
  }

  lemma CopyReceiveKeeps(l: Link)
    requires LinkOk(l) && l.copies > 0
    ensures l.ready < 1 && LinkOk(l.(copies := l.copies - 1, ready := l.ready + 1))
    ensures forall o :: IsReady(l.(copies := l.copies - 1, ready := l.ready + 1), o) == IsReady(l, o)
  {
    CopyFits(l);
  }

  lemma CopyUpKeeps(l: Link)
    requires LinkOk(l) && l.task.loc == CopyIn && l.ready == 1
    ensures LinkOk(l.(task := l.task.(loc := CoordBcast), ready := 0))
    ensures forall o :: IsReady(l.(task := l.task.(loc := CoordBcast), ready := 0), o) == IsReady(l, o)
  {
  }
}
