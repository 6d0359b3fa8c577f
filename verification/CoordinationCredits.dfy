/** The coordination protocol with the root's credit-controlled reduce queue. */
module CoordinationCredits {
  import opened Sequences
  import opened Coordination
  import opened CoordinationTheorems
  import Queues = ScheduledQueues

  /** The reduce of this task is posted. */
  ghost predicate Posted(t: Queues.Task, root: seq<RootTask>, lens: seq<nat>)
    requires |root| == |lens|
  {
    t.key < |root| && root[t.key].loc == RootReducePosted && t.len == lens[t.key]
  }

  ghost predicate AllPosted(running: seq<Queues.Task>, root: seq<RootTask>, lens: seq<nat>)
    requires |root| == |lens|
  {
    forall i :: 0 <= i < |running| ==> Posted(running[i], root, lens)
  }

  ghost predicate OncePerKey(running: seq<Queues.Task>) {
    forall i, j :: 0 <= i < j < |running| ==> running[i].key != running[j].key
  }

  ghost predicate Has(running: seq<Queues.Task>, k: Key) {
    exists i :: 0 <= i < |running| && running[i].key == k
  }

  ghost predicate HasPosted(running: seq<Queues.Task>, root: seq<RootTask>) {
    forall k :: 0 <= k < |root| && root[k].loc == RootReducePosted ==> Has(running, k)
  }

  /** The tasks that the queue has handed out are those whose reduce is posted, each once. */
  ghost predicate UnderWay(running: seq<Queues.Task>, root: seq<RootTask>, lens: seq<nat>) {
    |root| == |lens| && AllPosted(running, root, lens) && OncePerKey(running) && HasPosted(running, root)
  }

  lemma WithoutAt<T>(s: seq<T>, i: nat, j: nat)
    requires i < |s| && j < |Without(s, i)|
    ensures Without(s, i)[j] == if j < i then s[j] else s[j + 1]
  {
  }

  lemma HasWithout(running: seq<Queues.Task>, i: nat, k: Key)
    requires i < |running| && Has(running, k) && running[i].key != k
    ensures Has(Without(running, i), k)
  {
    var j :| 0 <= j < |running| && running[j].key == k;
    WithoutAt(running, i, if j < i then j else j - 1);
  }

  lemma OnceWithout(running: seq<Queues.Task>, i: nat)
    requires i < |running| && OncePerKey(running)
    ensures OncePerKey(Without(running, i))
    ensures forall j :: 0 <= j < |running| - 1 ==> Without(running, i)[j].key != running[i].key
  {
    forall j | 0 <= j < |running| - 1
      ensures Without(running, i)[j] == if j < i then running[j] else running[j + 1]
    {
      WithoutAt(running, i, j);
    }
  }

  lemma PostedWithout(running: seq<Queues.Task>, root: seq<RootTask>, lens: seq<nat>, i: nat)
    requires |root| == |lens| && AllPosted(running, root, lens) && OncePerKey(running)
    requires i < |running| && running[i].key == |root| - 1
    ensures AllPosted(Without(running, i), root[..|root| - 1], lens[..|root| - 1])
  {
    OnceWithout(running, i);
    forall j | 0 <= j < |running| - 1 ensures Posted(Without(running, i)[j], root[..|root| - 1], lens[..|root| - 1]) {
      WithoutAt(running, i, j);
      assert Posted(running[if j < i then j else j + 1], root, lens);
    }
  }

  lemma UnderWayWithout(running: seq<Queues.Task>, root: seq<RootTask>, lens: seq<nat>, i: nat)
    requires UnderWay(running, root, lens) && i < |running| && root != [] && running[i].key == |root| - 1
    ensures UnderWay(Without(running, i), root[..|root| - 1], lens[..|root| - 1])
  {
    PostedWithout(running, root, lens, i);
    OnceWithout(running, i);
    forall k | 0 <= k < |root| - 1 && root[k].loc == RootReducePosted ensures Has(Without(running, i), k) {
      HasWithout(running, i, k);
    }
  }

  lemma UnderWayBelow(running: seq<Queues.Task>, root: seq<RootTask>, lens: seq<nat>)
    requires UnderWay(running, root, lens) && root != [] && root[|root| - 1].loc != RootReducePosted
    ensures UnderWay(running, root[..|root| - 1], lens[..|root| - 1])
  {
    forall i | 0 <= i < |running| ensures Posted(running[i], root[..|root| - 1], lens[..|root| - 1]) {
      assert Posted(running[i], root, lens);
    }
  }

  lemma {:induction false} BytesAreBusy(running: seq<Queues.Task>, root: seq<RootTask>, lens: seq<nat>)
    requires UnderWay(running, root, lens)
    ensures Queues.Bytes(running) == Busy(root, lens)
    decreases |root|
  {
    if root == [] {
      assert running == [];
    } else {
      var last := |root| - 1;
      if root[last].loc == RootReducePosted {
        assert Has(running, last);
        var i :| 0 <= i < |running| && running[i].key == last;
        assert Posted(running[i], root, lens);
        Queues.BytesWithout(running, i);
        UnderWayWithout(running, root, lens, i);
        BytesAreBusy(Without(running, i), root[..last], lens[..last]);
      } else {
        UnderWayBelow(running, root, lens);
        BytesAreBusy(running, root[..last], lens[..last]);
      }
    }
  }

  /** The queue holds the root's tasks that wait for a reduce, and its table their ready counts. */
  ghost predicate Represents(q: Queues.ScheduledQueue, s: State, lens: seq<nat>)
    requires Shaped(s)
    reads q, q.rt
  {
    && q.scheduled && q.rt != null && q.rt.limit == |s.devices| && UnderWay(q.running, s.root, lens)
    && (forall i :: 0 <= i < |q.sq| ==> AtRoot(s, q.sq[i].key, RootReduce) && q.sq[i].len == lens[q.sq[i].key])
    && (forall k: nat :: AtRoot(s, k, RootReduce) ==> exists i :: 0 <= i < |q.sq| && q.sq[i].key == k)
    && (forall k: nat :: k < |s.root| ==> q.rt.Count(k) == s.tables.reduce[k])
  }

  /** A step that does not ask the reduce queue for a task, and is no new task. */
  ghost predicate MovesElsewhere(s: State)
    requires Shaped(s)
  {
    exists step: Step :: Enabled(s, step) && !step.Enqueue? && !step.RootEnqueue? && !(step.Take? && step.op == Reduce)
  }

  lemma QueueTakes(s: State, q: Queues.ScheduledQueue, lens: seq<nat>, fired: set<nat>, k: Key)
    requires Shaped(s) && q.Conserved() && Represents(q, s, lens)
    requires forall i :: 0 <= i < |q.sq| ==> Queues.Fired(q.sq[i], fired)
    requires Enabled(s, Take(Reduce, k)) && Busy(s.root, lens) + lens[k] <= q.budget
    ensures q.Choice(fired) < |q.sq| && Enabled(s, Take(Reduce, q.sq[q.Choice(fired)].key))
  {
    BytesAreBusy(q.running, s.root, lens);
    assert AtRoot(s, k, RootReduce);
    var i :| 0 <= i < |q.sq| && q.sq[i].key == k;
    assert q.Eligible(q.sq[i], fired);
    q.ChoiceIsFirst(0, fired);
  }

  /** Once the root and all devices have a task for a key, some thread can move, or the reduce queue
      with its credits hands out a task that the root may take. */
  lemma QueueNeverStuck(m: nat, keys: nat, steps: seq<Step>, s: State, q: Queues.ScheduledQueue, lens: seq<nat>,
                        fired: set<nat>, k: Key)
    requires Run(m, keys, steps, s) && Shaped(s) && k < |s.root| && |s.devices| > 0 && s.root[k].loc != RootIdle
    requires forall d: nat :: d < |s.devices| ==> s.devices[d].tasks[k].loc != Idle
    requires q.Conserved() && Represents(q, s, lens) && forall j :: 0 <= j < |lens| ==> lens[j] <= q.budget
    requires forall i :: 0 <= i < |q.sq| ==> Queues.Fired(q.sq[i], fired)
    ensures MovesElsewhere(s) || (q.Choice(fired) < |q.sq| && Enabled(s, Take(Reduce, q.sq[q.Choice(fired)].key)))
  {
    var credit := Limited(lens, q.budget);
    NeverStuck(m, keys, steps, s, credit, k);
    var step: Step :| Enabled(s, step) && Affords(s, credit, step) && !step.Enqueue? && !step.RootEnqueue?;
    if step.Take? && step.op == Reduce {
      QueueTakes(s, q, lens, fired, step.k);
    }
  }
}
