/** Assignment of keys to engine threads: a key goes to the least loaded thread when it is first
    pushed, and stays there. */
module ThreadAssignment {
  import opened Options

  type Key = nat

  const MAX_LOAD: nat := 0xFFFF_FFFF_FFFF_FFFF

  /** `cache[k]` is the thread of key `k`; `loads[t]` the accumulated tensor bytes of thread `t`. */
  datatype Table = Table(cache: map<Key, nat>, loads: seq<nat>)

  /** The first thread with the smallest load. */
  function Least(loads: seq<nat>): (i: nat)
    requires loads != []
    ensures i < |loads|
    ensures forall j :: 0 <= j < |loads| ==> loads[i] <= loads[j]
    ensures forall j :: 0 <= j < i ==> loads[i] < loads[j]
  {
    var last := |loads| - 1;
    if last == 0 then 0
    else
      var i := Least(loads[..last]);
      if loads[last] < loads[i] then last else i
  }

  /** What one call with a tensor length does; pulls call it with length 0. The second component
      is the thread, or nothing if a check of the call fails. */
  function Assign(t: Table, key: Key, len: nat): (r: (Table, Option<nat>))
    requires t.loads != []
  {
    if key in t.cache then (t, Some(t.cache[key]))
    else
      var i := Least(t.loads);
      if len == 0 || t.loads[i] >= MAX_LOAD then (t, None)
      else (Table(t.cache[key := i], t.loads[i := t.loads[i] + len]), Some(i))
  }

  // ---- sequences of calls ----

  datatype Call = Call(key: Key, len: nat)

  /** An assignment that was made: this key, pushed first with this length, to this thread. */
  datatype Placed = Placed(key: Key, len: nat, thread: nat)

  datatype History = History(table: Table, placed: seq<Placed>)

  function After(h: History, c: Call): History
    requires h.table.loads != []
  {
    var (t, r) := Assign(h.table, c.key, c.len);
    if c.key in h.table.cache || r.None? then h
    else History(t, h.placed + [Placed(c.key, c.len, r.value)])
  }

  /** The state reached from empty loads by a sequence of calls. */
  function Reached(threads: nat, calls: seq<Call>): (h: History)
    requires threads > 0
    ensures |h.table.loads| == threads
  {
    if calls == [] then History(Table(map[], seq(threads, _ => 0)), [])
    else After(Reached(threads, calls[..|calls| - 1]), calls[|calls| - 1])
  }

  function LoadOf(placed: seq<Placed>, thread: nat): nat {
    if placed == [] then 0
    else
      var p := placed[|placed| - 1];
      LoadOf(placed[..|placed| - 1], thread) + (if p.thread == thread then p.len else 0)
  }

  function Longest(placed: seq<Placed>): nat {
    if placed == [] then 0
    else
      var m, l := Longest(placed[..|placed| - 1]), placed[|placed| - 1].len;
      if m < l then l else m
  }

  ghost predicate Balanced(loads: seq<nat>, gap: nat) {
    forall i, j :: 0 <= i < |loads| && 0 <= j < |loads| ==> loads[i] <= loads[j] + gap
  }

  ghost predicate Sticky(t: Table, placed: seq<Placed>) {
    && (forall i :: 0 <= i < |placed| ==> placed[i].key in t.cache && t.cache[placed[i].key] == placed[i].thread)
    && (forall i, j :: 0 <= i < j < |placed| ==> placed[i].key != placed[j].key)
    && (forall k :: k in t.cache ==> t.cache[k] < |t.loads| && exists i :: 0 <= i < |placed| && placed[i].key == k)
  }

  ghost predicate LoadsSum(loads: seq<nat>, placed: seq<Placed>) {
    forall i :: 0 <= i < |loads| ==> loads[i] == LoadOf(placed, i)
  }

  ghost predicate Sound(h: History) {
    Sticky(h.table, h.placed) && LoadsSum(h.table.loads, h.placed) && Balanced(h.table.loads, Longest(h.placed))
  }

  lemma PlaceLoads(loads: seq<nat>, placed: seq<Placed>, key: Key, len: nat)
    requires loads != [] && Balanced(loads, Longest(placed)) && LoadsSum(loads, placed)
    ensures var i := Least(loads);
            var p, loads' := placed + [Placed(key, len, i)], loads[i := loads[i] + len];
            Balanced(loads', Longest(p)) && LoadsSum(loads', p)
  {
    var p := placed + [Placed(key, len, Least(loads))];
    assert p[..|placed|] == placed;
  }

  lemma PlaceSticky(t: Table, placed: seq<Placed>, key: Key, len: nat, i: nat)
    requires Sticky(t, placed) && key !in t.cache && i < |t.loads|
    ensures Sticky(Table(t.cache[key := i], t.loads[i := t.loads[i] + len]), placed + [Placed(key, len, i)])
  {
    var p, t' := placed + [Placed(key, len, i)], Table(t.cache[key := i], t.loads[i := t.loads[i] + len]);
    forall k | k in t'.cache ensures exists j :: 0 <= j < |p| && p[j].key == k {
      if k == key {
        assert p[|placed|].key == k;
      } else {
        var j :| 0 <= j < |placed| && placed[j].key == k;
        assert p[j].key == k;
      }
    }
  }

  function Placing(h: History, c: Call): History
    requires h.table.loads != []
  {
    var i := Least(h.table.loads);
    History(Table(h.table.cache[c.key := i], h.table.loads[i := h.table.loads[i] + c.len]),
            h.placed + [Placed(c.key, c.len, i)])
  }

  lemma AfterIs(h: History, c: Call)
    requires h.table.loads != []
    ensures After(h, c) == h || (c.key !in h.table.cache && After(h, c) == Placing(h, c))
  {
  }

  lemma PlacingSound(h: History, c: Call)
    requires Sound(h) && h.table.loads != [] && c.key !in h.table.cache
    ensures Sound(Placing(h, c))
  {
    PlaceLoads(h.table.loads, h.placed, c.key, c.len);
    PlaceSticky(h.table, h.placed, c.key, c.len, Least(h.table.loads));
  }

  lemma AfterSound(h: History, c: Call)
    requires Sound(h) && h.table.loads != []
    ensures Sound(After(h, c))
  {
    AfterIs(h, c);
    if After(h, c) != h {
      PlacingSound(h, c);
    }
  }

  /** Over every sequence of calls a key keeps the thread it was first given, each thread's load is
      the sum of the first-push lengths of its keys, and no thread is ahead of another by more than
      the longest of them. */
  lemma {:induction false} AssignmentSound(threads: nat, calls: seq<Call>)
    requires threads > 0
    ensures Sound(Reached(threads, calls))
  {
    if calls != [] {
      var k := |calls| - 1;
      AssignmentSound(threads, calls[..k]);
      AfterSound(Reached(threads, calls[..k]), calls[k]);
    }
  }

  /** A key once assigned keeps its thread whatever is called later. */
  lemma {:induction false} ThreadNeverChanges(threads: nat, calls: seq<Call>, later: seq<Call>, key: Key)
    requires threads > 0 && key in Reached(threads, calls).table.cache
    ensures key in Reached(threads, calls + later).table.cache
    ensures Reached(threads, calls + later).table.cache[key] == Reached(threads, calls).table.cache[key]
    decreases |later|
  {
    if later == [] {
      assert calls + later == calls;
    } else {
      var k := |later| - 1;
      ThreadNeverChanges(threads, calls, later[..k], key);
      assert (calls + later)[..|calls| + k] == calls + later[..k];
    }
  }
}
