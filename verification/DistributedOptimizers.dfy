/** The optimizer wrapper that starts a push-pull of each gradient from a backward hook, after a
    given number of backward passes, and waits for all of them before a step (synchronous mode). */
module DistributedOptimizers {
  import opened Options

  type Param = nat
  type Handle = nat

  /** How a hook ends: normally, with a failed assertion, or because the parameter has no name. */
  datatype Outcome = Returned | AssertionError | KeyError

  class DistributedOptimizer {
    /** `passes` is the number of backward passes per step; `params` are the parameters that require
        gradients. `delay` counts down, `handles` has an entry for each parameter whose hook ran. */
    const passes: nat
    const params: set<Param>
    var delay: map<Param, int>
    var handles: map<Param, Option<Handle>>
    var nextHandle: Handle
    /** Push-pulls started since the last synchronisation; those of them not waited for; how often
        each hook returned since then. */
    ghost var started: multiset<Param>
    ghost var open: set<Handle>
    ghost var fired: map<Param, nat>

    ghost function Fired(p: Param): nat
      reads this
    {
      if p in fired then fired[p] else 0
    }

    ghost predicate ParamOk(p: Param)
      reads this
    {
      && (p in handles ==> p in params && p in delay && 1 <= Fired(p) <= passes && delay[p] == passes - Fired(p))
      && (p !in handles ==> Fired(p) == 0 && (p in delay ==> delay[p] == passes))
      && (p in handles && handles[p].Some? <==> Fired(p) == passes)
      && started[p] == (if p in handles && handles[p].Some? then 1 else 0)
    }

    /** A parameter among `ps` has this handle. */
    ghost predicate Owned(h: Handle, ps: set<Param>)
      reads this
    {
      exists p :: p in ps && p in handles && handles[p] == Some(h)
    }

    ghost predicate Valid()
      reads this
    {
      && passes > 0
      && (forall p: Param :: ParamOk(p))
      && (forall h :: h in open ==> Owned(h, handles.Keys))
    }

    /** Only named parameters have a delay from the start. */
    constructor (passes: nat, params: set<Param>, named: set<Param>)
      requires passes > 0
      ensures Valid() && this.passes == passes && this.params == params && delay.Keys == named && handles == map[]
    {
      this.passes, this.params := passes, params;
      delay := map p | p in named :: passes;
      handles, nextHandle := map[], 0;
      started, open, fired := multiset{}, {}, map[];
    }

    /** Starts the push-pull of a gradient. */
    method PushPull(p: Param) returns (h: Handle)
      modifies this`nextHandle, this`started, this`open
      ensures h == old(nextHandle) && nextHandle == old(nextHandle) + 1
      ensures started == old(started) + multiset{p} && open == old(open) + {h}
    {
      h := nextHandle;
      nextHandle := nextHandle + 1;
      started := started + multiset{p};
      open := open + {h};
    }

    /** How the hook of `p` will end. */
    ghost function Ending(p: Param, gradRequiresGrad: bool): Outcome
      reads this
    {
      if Fired(p) == passes || gradRequiresGrad then AssertionError
      else if p !in delay then KeyError
      else Returned
    }

    /** The backward hook. It is rejected once it has returned `passes` times since the last
        synchronisation; the `passes`-th time, and no other, starts the push-pull. */
    method Hook(p: Param, gradRequiresGrad: bool) returns (r: Outcome)
      requires Valid() && p in params
      modifies this`delay, this`handles, this`nextHandle, this`started, this`open, this`fired
      ensures Valid() && r == old(Ending(p, gradRequiresGrad))
      ensures r == Returned ==> fired == old(fired)[p := old(Fired(p)) + 1]
      ensures r == Returned ==> started == old(started) + if Fired(p) == passes then multiset{p} else multiset{}
      ensures r != Returned ==> delay == old(delay) && handles == old(handles) && fired == old(fired) && started == old(started)
    {
      assert ParamOk(p);
      if p in handles && handles[p].Some? {
        if p in delay && delay[p] <= 0 {
          return AssertionError;
        }
      }
      if gradRequiresGrad {
        return AssertionError;
      }
      if p !in delay {
        return KeyError;
      }
      if delay[p] <= 0 {
        return AssertionError;
      }
      var handle: Option<Handle> := None;
      delay := delay[p := delay[p] - 1];
      if delay[p] == 0 {
        var h := PushPull(p);
        handle := Some(h);
      }
      handles := handles[p := handle];
      fired := fired[p := old(Fired(p)) + 1];
      r := Returned;
      forall q: Param ensures ParamOk(q) {
        assert old(ParamOk(q));
      }
      forall h | h in open ensures Owned(h, handles.Keys) {
        if handle == Some(h) {
          assert handles[p] == Some(h);
        } else {
          assert old(Owned(h, handles.Keys));
          var q :| q in old(handles) && old(handles)[q] == Some(h);
          assert q != p && handles[q] == Some(h);
        }
      }
    }

    /** Each parameter with a handle has one push-pull, and every open handle belongs to one. */
    ghost predicate Counts()
      reads this
    {
      && (forall p: Param :: started[p] == if p in handles && handles[p].Some? then 1 else 0)
      && (forall h :: h in open ==> Owned(h, handles.Keys))
    }

    method StartOne(p: Param)
      requires Counts() && !(p in handles && handles[p].Some?)
      modifies this`handles, this`nextHandle, this`started, this`open
      ensures Counts() && handles == old(handles)[p := Some(old(nextHandle))]
    {
      var h := PushPull(p);
      handles := handles[p := Some(h)];
      forall g | g in open ensures Owned(g, handles.Keys) {
        if g == h {
          assert handles[p] == Some(g);
        } else {
          assert old(Owned(g, handles.Keys));
          var q :| q in old(handles) && old(handles)[q] == Some(g);
          assert q != p && handles[q] == Some(g);
        }
      }
    }

    /** Push-pulls for the parameters whose hook has not run at all. */
    method StartMissing()
      requires Counts()
      modifies this`handles, this`nextHandle, this`started, this`open
      ensures Counts() && forall p :: p in handles <==> p in old(handles) || p in params
    {
      var missing: set<Param> := set p: Param | p in params && p !in handles;
      while missing != {}
        invariant Counts()
        invariant forall p :: p in missing ==> p in params && p !in handles
        invariant forall p :: p in handles <==> p in old(handles) || (p in params && p !in missing)
        decreases |missing|
      {
        var p :| p in missing;
        missing := missing - {p};
        StartOne(p);
      }
    }

    /** Push-pulls for the parameters whose hook has run too few times. */
    method StartRest()
      requires Counts()
      modifies this`handles, this`nextHandle, this`started, this`open
      ensures Counts() && handles.Keys == old(handles.Keys)
      ensures forall p :: p in handles ==> handles[p].Some?
    {
      var todo := handles.Keys;
      while todo != {}
        invariant Counts() && handles.Keys == old(handles.Keys) && todo <= handles.Keys
        invariant forall p :: p in handles && p !in todo ==> handles[p].Some?
        decreases |todo|
      {
        var p :| p in todo;
        todo := todo - {p};
        if handles[p].None? {
          StartOne(p);
        }
      }
    }

    /** Waits for one handle and lets the hook count from the start again. */
    method WaitOne(p: Param, ghost todo: set<Param>)
      requires p in handles && handles[p].Some? && p in todo
      requires forall h :: h in open ==> Owned(h, todo)
      modifies this`delay, this`open
      ensures forall h :: h in open ==> Owned(h, todo - {p})
      ensures delay == old(delay)[p := passes]
    {
      open := open - {handles[p].value};
      delay := delay[p := passes];
      forall h | h in open ensures Owned(h, todo - {p}) {
        assert old(Owned(h, todo));
        var q :| q in todo && q in handles && handles[q] == Some(h);
        assert q != p;
      }
    }

    method WaitAll()
      requires Counts() && forall p :: p in handles ==> handles[p].Some?
      modifies this`delay, this`open
      ensures open == {}
      ensures forall p :: p in delay <==> p in old(delay) || p in handles
      ensures forall p :: p in delay ==> delay[p] == if p in handles then passes else old(delay)[p]
    {
      var todo := handles.Keys;
      while todo != {}
        invariant forall p :: p in todo ==> p in handles
        invariant forall h :: h in open ==> Owned(h, todo)
        invariant forall p :: p in delay <==> p in old(delay) || (p in handles && p !in todo)
        invariant forall p :: p in delay ==> delay[p] == if p in handles && p !in todo then passes else old(delay)[p]
        decreases |todo|
      {
        var p :| p in todo;
        WaitOne(p, todo);
        todo := todo - {p};
      }
      assert forall h :: !Owned(h, {});
    }

    lemma ValidCounts()
      requires Valid()
      ensures Counts() && forall p :: p in handles ==> p in params
    {
      forall p: Param
        ensures started[p] == if p in handles && handles[p].Some? then 1 else 0
        ensures p in handles ==> p in params
      {
        assert ParamOk(p);
      }
    }

    lemma FreshOk()
      requires passes > 0 && handles == map[] && fired == map[] && started == multiset{} && open == {}
      requires forall p :: p in delay ==> delay[p] == passes
      ensures Valid()
    {
    }

    /** However often the hooks ran: in the time since the last synchronisation exactly one push-pull
        was started for each parameter, and all of them have been waited for. */
    method Synchronize() returns (ghost window: multiset<Param>)
      requires Valid()
      modifies this`delay, this`handles, this`nextHandle, this`started, this`open, this`fired
      ensures Valid() && window == multiset(params) && started == multiset{} && open == {}
      ensures handles == map[] && fired == map[]
      ensures forall p :: p in delay <==> p in old(delay) || p in params
      ensures forall p :: p in delay ==> delay[p] == passes
    {
      ValidCounts();
      DelaysFull();
      StartMissing();
      StartRest();
      window := started;
      WaitAll();
      Cleared(window);
      handles := map[];
      started, fired := multiset{}, map[];
      FreshOk();
    }

    lemma DelaysFull()
      requires Valid()
      ensures forall p :: p in delay && p !in handles ==> delay[p] == passes
    {
      forall p | p in delay && p !in handles ensures delay[p] == passes {
        assert ParamOk(p);
      }
    }

    lemma Cleared(window: multiset<Param>)
      requires (forall p :: p in handles <==> p in params) && forall p :: p in handles ==> handles[p].Some?
      requires forall p: Param :: window[p] == if p in handles && handles[p].Some? then 1 else 0
      ensures window == multiset(params)
    {
      forall p: Param ensures window[p] == multiset(params)[p] {
      }
    }
  }

  /** Without named parameters no parameter has a delay, and the first hook to run misses its key. */
  method UnnamedHookFails(passes: nat, params: set<Param>, p: Param) returns (r: Outcome)
    requires passes > 0 && p in params
    ensures r == KeyError
  {
    var opt := new DistributedOptimizer(passes, params, {});
    assert opt.ParamOk(p);
    r := opt.Hook(p, false);
  }
}
