/** The queues between the loop threads, and the ready tables they consult. */
module ScheduledQueues {
  import opened Options
  import opened Sequences
  import opened Arithmetic

  /** Counts per key, up to a limit. */
  class ReadyTable {
    const limit: nat
    var table: map<nat, int>

    constructor (limit: nat)
      ensures this.limit == limit && forall k :: Count(k) == 0
    {
      this.limit, table := limit, map[];
    }

    /** A key that was never touched counts 0. */
    function Count(key: nat): int
      reads this
    {
      if key in table then table[key] else 0
    }

    predicate IsKeyReady(key: nat)
      reads this
    {
      Count(key) == limit
    }

    /** One more; nothing when the limit is reached already. */
    method AddReadyCount(key: nat) returns (r: Option<int>)
      modifies this
      ensures r == if old(Count(key)) < limit then Some(old(Count(key)) + 1) else None
      ensures Count(key) == if r.Some? then r.value else old(Count(key))
      ensures forall k :: k != key ==> Count(k) == old(Count(k))
    {
      var n := Count(key);
      if n < limit {
        table := table[key := n + 1];
        r := Some(n + 1);
      } else {
        r := None;
      }
    }

    method SetReadyCount(key: nat, cnt: int)
      modifies this
      ensures Count(key) == cnt && forall k :: k != key ==> Count(k) == old(Count(k))
    {
      table := table[key := cnt];
    }

    method ClearReadyCount(key: nat)
      modifies this
      ensures Count(key) == 0 && forall k :: k != key ==> Count(k) == old(Count(k))
    {
      table := table[key := 0];
    }
  }

  /** A task waits for its event, if it has one. */
  datatype Task = Task(key: nat, priority: int, len: nat, event: Option<nat>)

  // ---- the order ----

  /** Higher priority first; of equal priority, the smaller key first. */
  predicate Before(a: Task, b: Task) {
    if a.priority == b.priority then a.key < b.key else a.priority > b.priority
  }

  ghost predicate Sorted(s: seq<Task>) {
    forall i, j :: 0 <= i < j < |s| ==> !Before(s[j], s[i])
  }

  method SortTasks(s: seq<Task>) returns (r: seq<Task>)
    ensures Sorted(r) && multiset(r) == multiset(s)
  {
    r := [];
    for i := 0 to |s|
      invariant Sorted(r) && multiset(r) == multiset(s[..i])
    {
      assert s[..i + 1] == s[..i] + [s[i]];
      r := InsertTask(r, s[i]);
    }
    assert s[..|s|] == s;
  }

  method InsertTask(s: seq<Task>, t: Task) returns (r: seq<Task>)
    requires Sorted(s)
    ensures Sorted(r) && multiset(r) == multiset(s) + multiset{t}
  {
    var i := |s|;
    while i > 0 && Before(t, s[i - 1])
      invariant 0 <= i <= |s|
      invariant forall j :: i <= j < |s| ==> Before(t, s[j])
    {
      i := i - 1;
    }
    r := s[..i] + [t] + s[i..];
    assert s == s[..i] + s[i..];
    NotBehind(s, t, i);
  }

  lemma NotBehind(s: seq<Task>, t: Task, i: nat)
    requires Sorted(s) && i <= |s| && (i > 0 ==> !Before(t, s[i - 1]))
    ensures forall j :: 0 <= j < i ==> !Before(t, s[j])
  {
  }

  // ---- bytes under way ----

  function Bytes(s: seq<Task>): nat {
    if s == [] then 0 else Bytes(s[..|s| - 1]) + s[|s| - 1].len
  }

  lemma BytesSnoc(s: seq<Task>, t: Task)
    ensures Bytes(s + [t]) == Bytes(s) + t.len
  {
    assert (s + [t])[..|s|] == s;
  }

  /** A task that is handed out is counted as such. */
  lemma HandedOver(s: seq<Task>, i: nat, handed: multiset<Task>)
    requires i < |s|
    ensures multiset(Without(s, i)) + (handed + multiset{s[i]}) == multiset(s) + handed
  {
    WithoutMembers(s, i);
  }

  lemma {:induction false} BytesWithout(s: seq<Task>, i: nat)
    requires i < |s|
    ensures Bytes(s) == Bytes(Without(s, i)) + s[i].len
  {
    var last := |s| - 1;
    if i == last {
      assert Without(s, i) == s[..last];
    } else {
      BytesWithout(s[..last], i);
      assert Without(s, i)[..last - 1] == Without(s[..last], i);
    }
  }

  lemma SortedWithout(s: seq<Task>, i: nat)
    requires Sorted(s) && i < |s|
    ensures Sorted(Without(s, i))
  {
    var r := Without(s, i);
    assert forall j :: 0 <= j < |r| ==> r[j] == s[if j < i then j else j + 1];
  }

  // ---- the queue ----

  datatype Lookup = CheckFailed | Missing | Found(task: Task)

  /** The event of a task has happened, or it has none. */
  predicate Fired(t: Task, fired: set<nat>) {
    t.event.None? || t.event.value in fired
  }

  /** Credit of a queue without scheduling, 32 GB. */
  const UNLIMITED: nat := 34359738368

  class ScheduledQueue {
    const scheduled: bool
    const budget: nat
    const rt: ReadyTable?
    var sq: seq<Task>
    var credits: int
    /** The tasks that were handed out and have not reported their end; all tasks ever added and
        all ever handed out. */
    ghost var running: seq<Task>
    ghost var added: multiset<Task>
    ghost var handed: multiset<Task>

    ghost predicate Valid()
      reads this
    {
      && (scheduled ==> Sorted(sq))
      && multiset(sq) + handed == added
    }

    /** Credits and bytes under way make up the budget. */
    ghost predicate Conserved()
      reads this
    {
      scheduled ==> credits >= 0 && credits + Bytes(running) == budget
    }

    /** Only the reduce queue of the signal root is scheduled, and only with a configured credit of
        some partitions; then the budget is as many partition bounds. */
    constructor (rootReduce: bool, bound: nat, credit: nat, rt: ReadyTable?)
      ensures Valid() && Conserved() && sq == [] && running == [] && added == multiset{} && this.rt == rt
      ensures scheduled <==> rootReduce && credit > 0
      ensures credits == budget && (scheduled ==> budget >= bound && budget == bound * credit)
    {
      scheduled := rootReduce && credit != 0;
      MulAtLeast(if credit == 0 then 1 else credit, bound);
      budget := if rootReduce && credit != 0 then bound * credit else UNLIMITED;
      credits := if rootReduce && credit != 0 then bound * credit else UNLIMITED;
      this.rt := rt;
      sq, running, added, handed := [], [], multiset{}, multiset{};
    }

    /** The task may be handed out now. */
    predicate Eligible(t: Task, fired: set<nat>)
      reads this, rt
    {
      && Fired(t, fired)
      && (scheduled ==> t.len <= credits)
      && (rt != null ==> rt.IsKeyReady(t.key))
    }

    method AddTask(t: Task)
      requires Valid()
      modifies this`sq, this`added
      ensures Valid() && added == old(added) + multiset{t}
      ensures multiset(sq) == old(multiset(sq)) + multiset{t}
      ensures !scheduled ==> sq == old(sq) + [t]
    {
      sq := sq + [t];
      added := added + multiset{t};
      if scheduled {
        sq := SortTasks(sq);
      }
    }

    /** The position of the first eligible task from position `i` on, or the length of the queue. */
    function ChoiceFrom(i: nat, fired: set<nat>): (c: nat)
      requires i <= |sq|
      reads this, rt
      ensures i <= c <= |sq|
      decreases |sq| - i
    {
      if i == |sq| || Eligible(sq[i], fired) then i else ChoiceFrom(i + 1, fired)
    }

    function Choice(fired: set<nat>): (c: nat)
      reads this, rt
      ensures c <= |sq|
    {
      ChoiceFrom(0, fired)
    }

    lemma {:induction false} ChoiceIsFirst(i: nat, fired: set<nat>)
      requires i <= |sq|
      ensures var c := ChoiceFrom(i, fired);
              && (c < |sq| ==> Eligible(sq[c], fired))
              && forall j :: i <= j < c ==> !Eligible(sq[j], fired)
      decreases |sq| - i
    {
      if i < |sq| && !Eligible(sq[i], fired) {
        ChoiceIsFirst(i + 1, fired);
      }
    }

    /** In a scheduled queue no eligible task goes before the chosen one. */
    lemma ChoiceIsBest(fired: set<nat>, i: nat)
      requires Valid() && scheduled && i < |sq| && Eligible(sq[i], fired)
      ensures Choice(fired) <= i && !Before(sq[i], sq[Choice(fired)])
    {
      ChoiceIsFirst(0, fired);
    }

    /** With nothing under way, a task that fits the budget and waits for nothing else is eligible:
        the queue hands out a task. */
    lemma IdleQueueDispatches(fired: set<nat>, i: nat)
      requires Valid() && Conserved() && running == [] && i < |sq|
      requires Fired(sq[i], fired) && (rt != null ==> rt.IsKeyReady(sq[i].key)) && sq[i].len <= budget
      ensures Choice(fired) < |sq|
    {
      ChoiceIsFirst(0, fired);
      assert Bytes(running) == 0;
      assert Eligible(sq[i], fired);
    }

    /** Hands out the chosen task and clears its ready count. Nothing if no task is eligible. */
    method GetTask(fired: set<nat>) returns (r: Option<Task>)
      requires Valid()
      modifies this`sq, this`credits, this`running, this`handed, rt
      ensures Valid()
      ensures var c := old(Choice(fired));
              && (r.None? <==> c == |old(sq)|)
              && (r.None? ==> sq == old(sq) && credits == old(credits) && running == old(running) && handed == old(handed))
              && (r.Some? ==> r.value == old(sq)[c].(event := None) && sq == Without(old(sq), c)
                              && running == old(running) + [r.value] && handed == old(handed) + multiset{old(sq)[c]}
                              && credits == if scheduled then old(credits) - r.value.len else old(credits))
      ensures old(Conserved()) ==> Conserved()
      ensures rt != null ==>
              forall k :: rt.Count(k) == if r.Some? && k == r.value.key then 0 else old(rt.Count(k))
    {
      var i := 0;
      while i < |sq|
        invariant 0 <= i <= |sq| && Choice(fired) == ChoiceFrom(i, fired)
      {
        if Eligible(sq[i], fired) {
          break;
        }
        i := i + 1;
      }
      if i == |sq| {
        return None;
      }
      r := Some(sq[i].(event := None));
      if rt != null {
        rt.ClearReadyCount(sq[i].key);
      }
      Dispatch(i);
    }

    method Dispatch(i: nat)
      requires Valid() && i < |sq| && (scheduled ==> sq[i].len <= credits)
      modifies this`sq, this`credits, this`running, this`handed
      ensures Valid() && sq == Without(old(sq), i) && handed == old(handed) + multiset{old(sq)[i]}
      ensures running == old(running) + [old(sq)[i].(event := None)]
      ensures credits == if scheduled then old(credits) - old(sq)[i].len else old(credits)
      ensures old(Conserved()) ==> Conserved()
    {
      var t := sq[i];
      HandedOver(sq, i, handed);
      BytesSnoc(running, t.(event := None));
      if scheduled {
        SortedWithout(sq, i);
        credits := credits - t.len;
      }
      sq := Without(sq, i);
      handed := handed + multiset{t};
      running := running + [t.(event := None)];
    }

    /** The position of the first task of this key, or the length of the queue. */
    function Position(key: nat, i: nat): (c: nat)
      requires i <= |sq|
      reads this
      ensures i <= c <= |sq| && (c < |sq| ==> sq[c].key == key)
      ensures forall j :: i <= j < c ==> sq[j].key != key
      decreases |sq| - i
    {
      if i == |sq| || sq[i].key == key then i else Position(key, i + 1)
    }

    /** Hands out the first task of a key. The checks fail in a scheduled queue, and when the event
        of a task that is looked at has not happened. */
    method GetTaskOf(key: nat, fired: set<nat>) returns (r: Lookup)
      requires Valid()
      modifies this`sq, this`credits, this`running, this`handed
      ensures Valid() && credits == old(credits)
      ensures var c := old(Position(key, 0));
              && (r == CheckFailed <==> scheduled || exists j :: 0 <= j <= c && j < |old(sq)| && !Fired(old(sq)[j], fired))
              && (r == Missing ==> c == |old(sq)|)
              && (r.Found? ==> c < |old(sq)| && r.task == old(sq)[c].(event := None) && sq == Without(old(sq), c))
      ensures !r.Found? ==> sq == old(sq) && running == old(running) && handed == old(handed)
      ensures r.Found? ==> r.task.key == key && running == old(running) + [r.task]
    {
      if scheduled {
        return CheckFailed;
      }
      var i := 0;
      while i < |sq|
        invariant 0 <= i <= |sq| && Position(key, 0) == Position(key, i)
        invariant forall j :: 0 <= j < i ==> Fired(sq[j], fired)
      {
        if !Fired(sq[i], fired) {
          return CheckFailed;
        }
        if sq[i].key == key {
          break;
        }
        i := i + 1;
      }
      if i == |sq| {
        return Missing;
      }
      r := Found(sq[i].(event := None));
      Dispatch(i);
    }

    /** A size is reported. If it is the length of a task that was handed out, as its caller's report
        is, credits and bytes under way stay the same sum; any other size changes the sum by itself. */
    method ReportFinish(size: nat, ghost i: nat)
      requires Valid()
      modifies this`credits, this`running
      ensures var matching := i < |old(running)| && old(running)[i].len == size;
              && Valid() && running == (if matching then Without(old(running), i) else old(running))
              && credits == (if scheduled then old(credits) + size else old(credits))
              && (scheduled ==> credits + Bytes(running) == old(credits + Bytes(running)) + if matching then 0 else size)
              && (matching && old(Conserved()) ==> Conserved())
    {
      if scheduled {
        credits := credits + size;
      }
      if i < |running| && running[i].len == size {
        BytesWithout(running, i);
        running := Without(running, i);
      }
    }

    method Reset(key: nat, cnt: int)
      requires Valid()
      modifies rt
      ensures Valid()
      ensures rt != null ==> forall k :: rt.Count(k) == if k == key then cnt else old(rt.Count(k))
    {
      if rt != null {
        rt.SetReadyCount(key, cnt);
      }
    }
  }

  // ---- from a coordinator's queue to a queue that is looked up by key ----

  ghost predicate NoEvents(s: seq<Task>) {
    forall i :: 0 <= i < |s| ==> s[i].event.None?
  }

  /** The coordinator takes a task and passes it on. It has lost its event by then. */
  method PassOn(coordinator: ScheduledQueue, next: ScheduledQueue, fired: set<nat>) returns (r: Option<Task>)
    requires coordinator != next && coordinator.Valid() && next.Valid() && !next.scheduled && NoEvents(next.sq)
    modifies coordinator, next, coordinator.rt
    ensures next.Valid() && NoEvents(next.sq)
    ensures next.sq == old(next.sq) + if r.Some? then [r.value] else []
  {
    r := coordinator.GetTask(fired);
    if r.Some? {
      next.AddTask(r.value);
    }
  }

  /** In a queue filled that way, and not scheduled, the lookup of a key that is there passes all its
      checks and finds the task. */
  method LookUp(q: ScheduledQueue, key: nat, fired: set<nat>) returns (r: Lookup)
    requires q.Valid() && !q.scheduled && NoEvents(q.sq) && exists i :: 0 <= i < |q.sq| && q.sq[i].key == key
    modifies q
    ensures r.Found? && r.task.key == key && q.Valid() && NoEvents(q.sq)
  {
    ghost var s, c := q.sq, q.Position(key, 0);
    r := q.GetTaskOf(key, fired);
    assert q.sq == Without(s, c);
  }
}
