/** The places of the coordination model are the queues of the devices' queue lists, in their order. */
module CoordinationLists {
  import opened Coordination
  import CoordinationSafety
  import Completion

  /** A distributed job on machines with one PCIe switch: the root device is the signal root too. */
  const OTHER := Completion.Place(false, false, true, false)
  const ROOT := Completion.Place(true, true, true, false)

  /** The queue in which a task is, or whose loop has it. */
  function QueueOf(loc: Loc): Completion.Queue
    requires loc != Idle
  {
    match loc
    case CoordReduce => Completion.CoordinateReduce
    case ReduceQueued => Completion.Reduce
    case ReducePosted => Completion.Reduce
    case CopyOut => Completion.CopyD2H
    case CoordPush => Completion.CoordinatePush
    case CopyIn => Completion.CopyH2D
    case CoordBcast => Completion.CoordinateBroadcast
    case BcastQueued => Completion.Broadcast
    case BcastPosted => Completion.Broadcast
  }

  /** The queues that a place of the root stands for; the exchange with the servers is both the push
      that is under way and the pull. */
  function RootQueuesOf(loc: RootLoc): set<Completion.Queue> {
    match loc
    case RootIdle => {}
    case RootReduce => {Completion.Reduce}
    case RootReducePosted => {Completion.Reduce}
    case RootCopyOut => {Completion.CopyD2H}
    case RootPush => {Completion.Push}
    case Exchange => {Completion.Push, Completion.Pull}
    case RootCopyIn => {Completion.CopyH2D}
    case Copying => {Completion.CopyH2D}
    case RootBcast => {Completion.Broadcast}
    case RootBcastPosted => {Completion.Broadcast}
  }

  /** A place of the other devices for each of their queues and no others, in the same order. */
  lemma PlacesAreQueues(q: Completion.Queue, a: Loc, b: Loc)
    ensures Completion.Passes(OTHER, q) <==> exists loc :: loc != Idle && QueueOf(loc) == q
    ensures a != Idle && b != Idle && CoordinationSafety.Rank(a) <= CoordinationSafety.Rank(b) ==>
              Completion.Rank(QueueOf(a)) <= Completion.Rank(QueueOf(b))
  {
    if Completion.Passes(OTHER, q) {
      var loc := match q
        case CoordinateReduce => CoordReduce
        case Reduce => ReduceQueued
        case CopyD2H => CopyOut
        case CoordinatePush => CoordPush
        case CopyH2D => CopyIn
        case CoordinateBroadcast => CoordBcast
        case _ => BcastQueued;
      assert QueueOf(loc) == q;
    }
  }

  lemma RootPlacesAreQueues(q: Completion.Queue, p: Completion.Queue, a: RootLoc, b: RootLoc)
    ensures Completion.Passes(ROOT, q) <==> exists loc :: q in RootQueuesOf(loc)
    ensures p in RootQueuesOf(a) && q in RootQueuesOf(b) && a != b
            && CoordinationSafety.RootRank(a) <= CoordinationSafety.RootRank(b) ==>
              Completion.Rank(p) <= Completion.Rank(q)
  {
    if Completion.Passes(ROOT, q) {
      var loc := match q
        case Reduce => RootReduce
        case CopyD2H => RootCopyOut
        case Push => RootPush
        case Pull => Exchange
        case CopyH2D => RootCopyIn
        case _ => RootBcast;
      assert q in RootQueuesOf(loc);
    }
  }
}
