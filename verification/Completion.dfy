/** The way of a tensor's partitions through their queue lists, and the callback at the end. */
module Completion {
  import opened Options

  datatype Queue =
    | CoordinateReduce | Reduce | CopyD2H | PcieReduce | CoordinatePush | Push
    | Pull | CopyH2D | CoordinateBroadcast | Broadcast

  /** What decides the queue lists of a device. */
  datatype Place = Place(signalRoot: bool, rootDevice: bool, distributed: bool, crossPcie: bool)

  // ---- the queue lists ----

  function Rank(q: Queue): nat {
    match q
    case CoordinateReduce => 0
    case Reduce => 1
    case CopyD2H => 2
    case PcieReduce => 3
    case CoordinatePush => 4
    case Push => 5
    case Pull => 6
    case CopyH2D => 7
    case CoordinateBroadcast => 8
    case Broadcast => 9
  }

  /** In the order of the pipeline, no queue twice. */
  ghost predicate Ascending(list: seq<Queue>) {
    forall i, j :: 0 <= i < j < |list| ==> Rank(list[i]) < Rank(list[j])
  }

  lemma HasMember(list: seq<Queue>)
    ensures list != [] ==> exists q :: q in list
  {
    if list != [] {
      assert list[0] in list;
    }
  }

  lemma LastIsGreatest(list: seq<Queue>, q: Queue)
    requires Ascending(list) && q in list
    ensures Rank(q) <= Rank(list[|list| - 1])
    ensures q in list[..|list| - 1] <==> q != list[|list| - 1]
  {
    assert list == list[..|list| - 1] + [list[|list| - 1]];
  }

  /** Its queues determine a list. */
  lemma {:induction false} AscendingUnique(a: seq<Queue>, b: seq<Queue>)
    requires Ascending(a) && Ascending(b) && forall q :: q in a <==> q in b
    ensures a == b
  {
    if a == [] {
      HasMember(b);
    } else {
      var x := a[|a| - 1];
      assert x in b;
      var y := b[|b| - 1];
      LastIsGreatest(a, y);
      LastIsGreatest(b, x);
      assert forall p, q :: Rank(p) == Rank(q) ==> p == q;
      var init, rest := a[..|a| - 1], b[..|b| - 1];
      forall q ensures q in init <==> q in rest {
        if q in a {
          LastIsGreatest(a, q);
          LastIsGreatest(b, q);
        }
      }
      AscendingUnique(init, rest);
    }
  }

  /** Whether the tasks of a device pass a queue. */
  predicate Passes(p: Place, q: Queue) {
    match q
    case CoordinateReduce => !p.signalRoot
    case CoordinateBroadcast => !p.signalRoot
    case Reduce => true
    case Broadcast => true
    case CopyD2H => p.distributed || p.crossPcie
    case CopyH2D => p.distributed || p.crossPcie
    case PcieReduce => p.crossPcie
    case Push => (p.distributed || p.crossPcie) && p.rootDevice
    case CoordinatePush => (p.distributed || p.crossPcie) && !p.rootDevice
    case Pull => p.distributed && p.rootDevice
  }

  /** The queues before the pull. */
  predicate Pushing(q: Queue) {
    Rank(q) <= 5
  }

  /** The list has the queues that the device passes, up to a rank. */
  ghost predicate Upto(list: seq<Queue>, p: Place, rank: int) {
    Ascending(list) && forall q :: q in list <==> Rank(q) <= rank && Passes(p, q)
  }

  lemma Stage(list: seq<Queue>, p: Place, q: Queue)
    requires Upto(list, p, Rank(q) - 1)
    ensures Upto(if Passes(p, q) then list + [q] else list, p, Rank(q))
  {
    assert forall x :: Rank(x) == Rank(q) ==> x == q;
  }

  method GetPushQueueList(p: Place) returns (list: seq<Queue>)
    ensures Ascending(list) && forall q :: q in list <==> Pushing(q) && Passes(p, q)
  {
    list := [];
    Stage(list, p, CoordinateReduce);
    if !p.signalRoot {
      list := list + [CoordinateReduce];
    }
    Stage(list, p, Reduce);
    list := list + [Reduce];
    Stage(list, p, CopyD2H);
    if p.distributed || p.crossPcie {
      list := list + [CopyD2H];
    }
    Stage(list, p, PcieReduce);
    if p.crossPcie {
      list := list + [PcieReduce];
    }
    Stage(list, p, CoordinatePush);
    if (p.distributed || p.crossPcie) && !p.rootDevice {
      list := list + [CoordinatePush];
    }
    Stage(list, p, Push);
    if (p.distributed || p.crossPcie) && p.rootDevice {
      list := list + [Push];
    }
  }

  method GetPullQueueList(p: Place) returns (list: seq<Queue>)
    ensures Ascending(list) && forall q :: q in list <==> !Pushing(q) && Passes(p, q)
  {
    list := [];
    if p.distributed && p.rootDevice {
      list := list + [Pull];
    }
    if p.distributed || p.crossPcie {
      list := list + [CopyH2D];
    }
    if p.signalRoot {
      list := list + [Broadcast];
    } else {
      list := list + [CoordinateBroadcast];
      list := list + [Broadcast];
    }
  }

  // ---- the partitions of one tensor ----

  /** A partition waits in a queue or is worked on; or its list is empty and a thread is about to
      count it; or that thread counted the last one and is about to call back; or all is done. */
  datatype Phase = Queued | Counting | Calling | Done

  predicate IsCounted(p: Phase) {
    p == Calling || p == Done
  }

  function Counted(ps: seq<Phase>): nat {
    if ps == [] then 0 else Counted(ps[..|ps| - 1]) + if IsCounted(ps[|ps| - 1]) then 1 else 0
  }

  lemma {:induction false} CountedChange(ps: seq<Phase>, i: nat, p: Phase)
    requires i < |ps| && !IsCounted(ps[i])
    ensures Counted(ps[i := p]) == Counted(ps) + if IsCounted(p) then 1 else 0
  {
    var last := |ps| - 1;
    if i < last {
      CountedChange(ps[..last], i, p);
      assert ps[i := p][..last] == ps[..last][i := p];
    } else {
      assert ps[i := p][..last] == ps[..last];
    }
  }

  lemma {:induction false} CountedSame(ps: seq<Phase>, i: nat, p: Phase)
    requires i < |ps| && IsCounted(ps[i]) == IsCounted(p)
    ensures Counted(ps[i := p]) == Counted(ps)
  {
    var last := |ps| - 1;
    if i < last {
      CountedSame(ps[..last], i, p);
      assert ps[i := p][..last] == ps[..last][i := p];
    } else {
      assert ps[i := p][..last] == ps[..last];
    }
  }

  lemma {:induction false} CountedAll(ps: seq<Phase>)
    ensures Counted(ps) <= |ps|
    ensures Counted(ps) == |ps| <==> forall i :: 0 <= i < |ps| ==> IsCounted(ps[i])
  {
    if ps != [] {
      CountedAll(ps[..|ps| - 1]);
    }
  }

  lemma {:induction false} NoneCounted(ps: seq<Phase>)
    requires forall i :: 0 <= i < |ps| ==> !IsCounted(ps[i])
    ensures Counted(ps) == 0
  {
    if ps != [] {
      NoneCounted(ps[..|ps| - 1]);
    }
  }

  /** The remaining queue lists of the partitions, the shared counter, the calls of the callback, where
      the partitions' threads are, and the queues each partition has finished, in order. */
  datatype Progress = Progress(rest: seq<seq<Queue>>, counter: nat, callbacks: nat, phase: seq<Phase>,
                               visited: seq<seq<Queue>>)

  predicate Shaped(p: Progress) {
    && |p.rest| == |p.phase| == |p.visited|
    && (forall i :: 0 <= i < |p.rest| ==> (p.phase[i] == Queued <==> p.rest[i] != []))
  }

  function Start(list: seq<Queue>, total: nat): (p: Progress)
    requires list != []
    ensures Shaped(p)
  {
    Progress(seq(total, _ => list), 0, 0, seq(total, _ => Queued), seq(total, _ => []))
  }

  /** Partition `i` has finished its queue: it goes on to the next one, if there is one. */
  function Proceeded(p: Progress, i: nat): Progress
    requires Shaped(p) && i < |p.rest| && p.phase[i] == Queued
  {
    p.(rest := p.rest[i := p.rest[i][1..]], visited := p.visited[i := p.visited[i] + [p.rest[i][0]]],
       phase := if |p.rest[i]| > 1 then p.phase else p.phase[i := Counting])
  }

  /** Its thread counts it, and sees whether it was the last one. */
  function CountedUp(p: Progress, i: nat): Progress
    requires Shaped(p) && i < |p.rest| && p.phase[i] == Counting
  {
    p.(counter := p.counter + 1, phase := p.phase[i := if p.counter + 1 == |p.rest| then Calling else Done])
  }

  function Called(p: Progress, i: nat): Progress
    requires Shaped(p) && i < |p.rest| && p.phase[i] == Calling
  {
    p.(callbacks := p.callbacks + 1, phase := p.phase[i := Done])
  }

  /** The next action of the thread that handles partition `i`. */
  function Stepped(p: Progress, i: nat): (r: Progress)
    requires Shaped(p)
    ensures Shaped(r) && |r.rest| == |p.rest|
  {
    if i >= |p.rest| then p
    else match p.phase[i]
      case Queued => Proceeded(p, i)
      case Counting => CountedUp(p, i)
      case Calling => Called(p, i)
      case Done => p
  }

  /** Any interleaving of the threads' actions. */
  function Ran(p: Progress, schedule: seq<nat>): (r: Progress)
    requires Shaped(p)
    ensures Shaped(r) && |r.rest| == |p.rest|
  {
    if schedule == [] then p else Stepped(Ran(p, schedule[..|schedule| - 1]), schedule[|schedule| - 1])
  }

  // ---- what every action keeps ----

  ghost predicate OnlyCaller(ps: seq<Phase>, i: nat) {
    i < |ps| && ps[i] == Calling && forall j :: 0 <= j < |ps| && j != i ==> ps[j] != Calling
  }

  ghost predicate NoCaller(ps: seq<Phase>) {
    forall i :: 0 <= i < |ps| ==> ps[i] != Calling
  }

  /** Before the last count nobody calls; after it exactly one thread does, once. */
  ghost predicate CallsOk(p: Progress) {
    if p.counter < |p.rest| then p.callbacks == 0 && NoCaller(p.phase)
    else (p.callbacks == 1 && NoCaller(p.phase)) || (p.callbacks == 0 && exists i :: OnlyCaller(p.phase, i))
  }

  ghost predicate Ok(p: Progress, list: seq<Queue>) {
    && Shaped(p) && p.counter == Counted(p.phase) && CallsOk(p)
    && (forall i :: 0 <= i < |p.rest| ==> p.visited[i] + p.rest[i] == list)
  }

  lemma ProceedOk(p: Progress, list: seq<Queue>, i: nat)
    requires Ok(p, list) && i < |p.rest| && p.phase[i] == Queued
    ensures Ok(Proceeded(p, i), list)
  {
    var r := Proceeded(p, i);
    CountedAll(p.phase);
    CountedSame(p.phase, i, r.phase[i]);
    assert r.phase == p.phase[i := r.phase[i]];
    assert p.visited[i] + p.rest[i] == list;
  }

  lemma CountOk(p: Progress, list: seq<Queue>, i: nat)
    requires Ok(p, list) && i < |p.rest| && p.phase[i] == Counting
    ensures Ok(CountedUp(p, i), list)
  {
    var r := CountedUp(p, i);
    CountedAll(p.phase);
    CountedChange(p.phase, i, r.phase[i]);
    if r.phase[i] == Calling {
      assert OnlyCaller(r.phase, i);
    }
  }

  lemma CallOk(p: Progress, list: seq<Queue>, i: nat)
    requires Ok(p, list) && i < |p.rest| && p.phase[i] == Calling
    ensures Ok(Called(p, i), list)
  {
    CountedSame(p.phase, i, Done);
  }

  lemma {:induction false} RanOk(p: Progress, list: seq<Queue>, schedule: seq<nat>)
    requires Ok(p, list)
    ensures Ok(Ran(p, schedule), list)
  {
    if schedule != [] {
      var last := |schedule| - 1;
      var q, i := Ran(p, schedule[..last]), schedule[last];
      RanOk(p, list, schedule[..last]);
      if i < |q.rest| {
        match q.phase[i]
        case Queued => ProceedOk(q, list, i);
        case Counting => CountOk(q, list, i);
        case Calling => CallOk(q, list, i);
        case Done =>
      }
    }
  }

  lemma StartOk(list: seq<Queue>, total: nat)
    requires list != [] && total > 0
    ensures Ok(Start(list, total), list)
  {
    NoneCounted(Start(list, total).phase);
  }

  lemma AllVisited(p: Progress, list: seq<Queue>, j: nat)
    requires Ok(p, list) && p.counter == |p.rest| && j < |p.rest|
    ensures p.rest[j] == [] && p.visited[j] == list
  {
    CountedAll(p.phase);
    assert IsCounted(p.phase[j]);
    assert p.visited[j] + p.rest[j] == list;
  }

  lemma LastToCount(p: Progress, list: seq<Queue>, i: nat)
    requires Ok(p, list) && i < |p.rest| && p.phase[i] == Counting
    ensures CountedUp(p, i).phase[i] == Calling <==> forall j :: 0 <= j < |p.rest| && j != i ==> p.phase[j] == Done
  {
    var ps := p.phase[i := Done];
    CountedChange(p.phase, i, Done);
    CountedAll(p.phase);
    CountedAll(ps);
    assert p.counter < |p.rest|;
    if forall j :: 0 <= j < |p.rest| && j != i ==> p.phase[j] == Done {
      assert forall j :: 0 <= j < |ps| ==> IsCounted(ps[j]);
    } else {
      var j :| 0 <= j < |p.rest| && j != i && p.phase[j] != Done;
      assert ps[j] == p.phase[j] && p.phase[j] != Calling;
      assert !IsCounted(ps[j]);
    }
  }

  /** The value a thread reads when it counts tells it, in any interleaving, whether every other
      partition has finished its whole list and been counted. */
  lemma CountTellsLast(list: seq<Queue>, total: nat, schedule: seq<nat>, i: nat)
    requires list != [] && i < total
    ensures var p := Ran(Start(list, total), schedule);
      p.phase[i] == Counting ==>
        (CountedUp(p, i).phase[i] == Calling <==> forall j :: 0 <= j < total && j != i ==> p.phase[j] == Done)
  {
    var p := Ran(Start(list, total), schedule);
    StartOk(list, total);
    RanOk(Start(list, total), list, schedule);
    if p.phase[i] == Counting {
      LastToCount(p, list, i);
    }
  }

  /** A thread that is about to call back is the only one that ever is; nobody called before, and every
      partition has passed its whole list. */
  lemma CallerIsAlone(list: seq<Queue>, total: nat, schedule: seq<nat>, i: nat)
    requires list != [] && i < total
    ensures var p := Ran(Start(list, total), schedule);
      p.phase[i] == Calling ==>
        && p.callbacks == 0
        && (forall j :: 0 <= j < total && j != i ==> p.phase[j] == Done)
        && (forall j :: 0 <= j < total ==> p.visited[j] == list)
  {
    var p := Ran(Start(list, total), schedule);
    StartOk(list, total);
    RanOk(Start(list, total), list, schedule);
    CountedAll(p.phase);
    if p.phase[i] == Calling {
      assert p.counter == total;
      forall j | 0 <= j < total ensures p.visited[j] == list {
        AllVisited(p, list, j);
      }
    }
  }

  /** Whatever the interleaving of the partitions' threads: each partition has visited a prefix of its
      list, in order; the callback was called at most once, and only after every partition had
      finished its whole list; and when all threads are done it was called. */
  lemma ExactlyOnce(list: seq<Queue>, total: nat, schedule: seq<nat>)
    requires list != [] && total > 0
    ensures var p := Ran(Start(list, total), schedule);
            && (forall i :: 0 <= i < total ==> p.visited[i] <= list)
            && p.callbacks <= 1
            && (p.callbacks == 1 ==> forall i :: 0 <= i < total ==> p.visited[i] == list)
            && ((forall i :: 0 <= i < total ==> p.phase[i] == Done) ==> p.callbacks == 1)
  {
    var p := Ran(Start(list, total), schedule);
    StartOk(list, total);
    RanOk(Start(list, total), list, schedule);
    CountedAll(p.phase);
    forall i | 0 <= i < total
      ensures p.visited[i] <= list && (p.counter == total ==> p.visited[i] == list)
    {
      assert p.visited[i] + p.rest[i] == list;
      if p.counter == total {
        AllVisited(p, list, i);
      }
    }
  }

  // ---- the code ----

  class TensorTask {
    var rest: seq<seq<Queue>>
    var counter: nat
    var callbacks: nat
    var phase: seq<Phase>
    ghost var visited: seq<seq<Queue>>

    ghost function Now(): Progress
      reads this
    {
      Progress(rest, counter, callbacks, phase, visited)
    }

    constructor (list: seq<Queue>, total: nat)
      requires list != []
      ensures Now() == Start(list, total)
    {
      rest, phase, visited := seq(total, _ => list), seq(total, _ => Queued), seq(total, _ => []);
      counter, callbacks := 0, 0;
    }

    /** Erases the first queue of the list; the result is the queue the task is added to next. */
    method Proceed(i: nat) returns (next: Option<Queue>)
      requires Shaped(Now()) && i < |rest| && phase[i] == Queued
      modifies this`rest, this`phase, this`visited
      ensures Now() == Proceeded(old(Now()), i)
      ensures next == if |old(rest)[i]| > 1 then Some(old(rest)[i][1]) else None
    {
      visited := visited[i := visited[i] + [rest[i][0]]];
      rest := rest[i := rest[i][1..]];
      if rest[i] != [] {
        next := Some(rest[i][0]);
      } else {
        next := None;
        phase := phase[i := Counting];
      }
    }

    /** The atomic increment of the shared counter. */
    method CountUp(i: nat)
      requires Shaped(Now()) && i < |rest| && phase[i] == Counting
      modifies this`counter, this`phase
      ensures Now() == CountedUp(old(Now()), i)
    {
      var v := counter;
      counter := counter + 1;
      phase := phase[i := if v == |rest| - 1 then Calling else Done];
    }

    method Call(i: nat)
      requires Shaped(Now()) && i < |rest| && phase[i] == Calling
      modifies this`callbacks, this`phase
      ensures Now() == Called(old(Now()), i)
    {
      callbacks := callbacks + 1;
      phase := phase[i := Done];
    }

    /** A thread that has finished a queue does these in turn, with other threads in between. */
    method FinishOrProceed(i: nat) returns (next: Option<Queue>)
      requires Shaped(Now()) && i < |rest| && phase[i] == Queued
      modifies this`rest, this`counter, this`callbacks, this`phase, this`visited
      ensures next == if |old(rest)[i]| > 1 then Some(old(rest)[i][1]) else None
      ensures Now() == if next.Some? then Ran(old(Now()), [i])
                       else if counter == |rest| then Ran(old(Now()), [i, i, i]) else Ran(old(Now()), [i, i])
    {
      RanShort(Now(), i);
      next := Proceed(i);
      if next.None? {
        CountUp(i);
        if phase[i] == Calling {
          Call(i);
        }
      }
    }

    /** Any interleaving of the threads' actions. */
    method Interleave(schedule: seq<nat>)
      requires Shaped(Now())
      modifies this`rest, this`counter, this`callbacks, this`phase, this`visited
      ensures Now() == Ran(old(Now()), schedule)
    {
      for n := 0 to |schedule|
        invariant Now() == Ran(old(Now()), schedule[..n])
      {
        assert schedule[..n + 1][..n] == schedule[..n];
        var i := schedule[n];
        if i < |rest| {
          match phase[i]
          case Queued => var _ := Proceed(i);
          case Counting => CountUp(i);
          case Calling => Call(i);
          case Done =>
        }
      }
      assert schedule[..|schedule|] == schedule;
    }
  }

  /** Enqueueing a tensor whose partitions have this queue list. Without a queue list the callback is
      called at once. */
  method EnqueueTensor(list: seq<Queue>, total: nat) returns (task: TensorTask?, callbacks: nat)
    ensures list == [] ==> task == null && callbacks == 1
    ensures list != [] ==> task != null && fresh(task) && task.Now() == Start(list, total) && callbacks == 0
  {
    if list == [] {
      return null, 1;
    }
    task := new TensorTask(list, total);
    callbacks := 0;
  }

  lemma RanShort(p: Progress, i: nat)
    requires Shaped(p)
    ensures Ran(p, [i]) == Stepped(p, i)
    ensures Ran(p, [i, i]) == Stepped(Stepped(p, i), i)
    ensures Ran(p, [i, i, i]) == Stepped(Stepped(Stepped(p, i), i), i)
  {
    assert [i][..0] == [] && [i, i][..1] == [i] && [i, i, i][..2] == [i, i];
    assert Ran(p, []) == p;
  }
}
