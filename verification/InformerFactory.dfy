/** The factory's methods as the thread that holds the lock executes them, each proved to be a run of
    the fine-grained steps, from any state that other threads may have left behind. */
module InformerFactory {
  import opened Api
  import opened Informers

  /** An informer as newFunc makes it, and the transform it is then given. */
  datatype Informer = Informer(t: string, resync: int, transform: Option<string>)

  /** These informers are of these types. */
  ghost predicate OfTypes(made: seq<Informer>, types: seq<string>) {
    |made| == |types| && forall n | 0 <= n < |made| :: made[n].t == types[n]
  }

  /** How many informers are new among those visited. */
  function NewOnes(all: set<string>, left: set<string>, before: set<string>): nat {
    |all - left - before|
  }

  lemma VisitOne(all: set<string>, left: set<string>, before: set<string>, t: string)
    requires t in left && left <= all
    ensures NewOnes(all, left - {t}, before) == NewOnes(all, left, before) + if t in before then 0 else 1
    ensures before + (all - (left - {t})) == before + (all - left) + {t}
  {
    if t in before {
      assert all - (left - {t}) - before == all - left - before;
    } else {
      assert all - (left - {t}) - before == all - left - before + {t};
    }
  }

  lemma NoneVisited(all: set<string>, before: set<string>)
    ensures before + (all - all) == before && NewOnes(all, all, before) == 0
  {
    assert all - all - before == {};
  }

  lemma AllVisited(all: set<string>, before: set<string>)
    requires before <= all
    ensures before + (all - {}) == all
  {
  }

  lemma StartedAreKnown(r: Run)
    requires IsRun(r)
    ensures r.states[|r.events|].started <= r.states[|r.events|].informers.Keys
  {
    RunKeeps(r, |r.events|);
  }

  class SharedInformerFactory {
    const defaultResync: int
    const customResync: map<string, int>
    const transform: Option<string>
    var informers: map<string, nat>
    var startedInformers: set<string>
    var wg: int
    var shuttingDown: bool
    /** The informers made so far; the n-th call of newFunc returned informer n. */
    var made: seq<Informer>
    /** The interleaving so far, and the state it has led to. */
    ghost var run: Run
    ghost var state: State

    constructor (defaultResync: int, customResync: map<string, int>, transform: Option<string>)
      ensures Valid() && run.events == []
      ensures this.defaultResync == defaultResync && this.customResync == customResync && this.transform == transform
    {
      this.defaultResync, this.customResync, this.transform := defaultResync, customResync, transform;
      informers, startedInformers, wg, shuttingDown, made := map[], {}, 0, false, [];
      run, state := Run([INIT], []), INIT;
    }

    /** The fields are those of the state that the run has reached. */
    ghost predicate Mirrors()
      reads this
    {
      && IsRun(run) && state == run.states[|run.events|]
      && informers == state.informers && startedInformers == state.started && wg == state.wg
      && shuttingDown == state.shuttingDown
      && OfTypes(made, state.created)
    }

    /** Nobody holds the lock. */
    ghost predicate Valid()
      reads this
    {
      Mirrors() && state.lock.None?
    }

    /** The run goes on from the states it has been through. */
    twostate predicate Continues()
      reads this
    {
      && |old(run.states)| <= |run.states|
      && forall n | 0 <= n < |old(run.states)| :: run.states[n] == old(run.states)[n]
    }

    /** One more step. Between two critical sections the other threads may take any number of theirs. */
    ghost method Step(e: Event)
      requires IsRun(run) && state == run.states[|run.events|] && Next(state, e).Some?
      modifies this`run, this`state
      ensures IsRun(run) && state == run.states[|run.events|] && state == Next(old(state), e).value
      ensures Continues()
    {
      ExtendIsRun(run, e, Next(state, e).value);
      run, state := Extend(run, e, Next(state, e).value), Next(state, e).value;
    }

    /** A thread calls in and, when nobody holds the lock, gets it. */
    ghost method Lock(me: Thread, call: Call)
      requires Valid() && me !in state.pcs
      modifies this`run, this`state
      ensures Mirrors() && Continues()
      ensures state == Goto(old(state).(lock := Some(me)), me, Locked(call))
    {
      Step(Enter(me, call));
      Step(Acquire(me));
      assert old(state.pcs)[me := Entered(call)][me := Locked(call)] == old(state.pcs)[me := Locked(call)];
    }

    /** In the middle of a Start, with these types still to visit. */
    ghost predicate Visiting(me: Thread, left: set<string>)
      reads this
    {
      Mirrors() && state.lock == Some(me) && me in state.pcs && state.pcs[me] == Ranging(left)
    }

    /** The body of Start's `if`: one wg.Add, then the goroutine, then the mark. */
    method StartInformer(ghost me: Thread, t: string, ghost left: set<string>)
      requires Visiting(me, left) && t in left && t !in startedInformers && t in informers
      modifies this`wg, this`startedInformers, this`run, this`state
      ensures Visiting(me, left - {t}) && Continues()
      ensures startedInformers == old(startedInformers) + {t} && wg == old(wg) + 1
    {
      Step(Advance(me, t));
      wg := wg + 1;
      Step(Advance(me, ""));
      Step(Advance(me, ""));
      startedInformers := startedInformers + {t};
    }

    ghost method Skip(me: Thread, t: string, left: set<string>)
      requires Visiting(me, left) && t in left && t in startedInformers
      modifies this`run, this`state
      ensures Visiting(me, left - {t}) && Continues()
    {
      Step(Advance(me, t));
    }

    method VisitInformer(ghost me: Thread, t: string, ghost left: set<string>)
      requires Visiting(me, left) && t in left && t in informers
      modifies this`wg, this`startedInformers, this`run, this`state
      ensures Visiting(me, left - {t}) && Continues()
      ensures startedInformers == old(startedInformers) + {t}
      ensures wg == old(wg) + if t in old(startedInformers) then 0 else 1
    {
      if t !in startedInformers {
        StartInformer(me, t, left);
      } else {
        Skip(me, t, left);
      }
    }

    ghost method EndStart(me: Thread)
      requires Visiting(me, {})
      modifies this`run, this`state
      ensures Continues() && Valid() && me !in state.pcs
    {
      Step(Advance(me, ""));
    }

    /** Where Start's loop is: these types are left, the others are started, and the count has grown by
        those that were new. */
    ghost predicate Visited(me: Thread, left: set<string>, before: set<string>, wg0: int)
      reads this
    {
      && Visiting(me, left) && left <= informers.Keys
      && startedInformers == before + (informers.Keys - left)
      && wg == wg0 + NewOnes(informers.Keys, left, before)
    }

    method VisitNext(ghost me: Thread, left: set<string>, ghost before: set<string>, ghost wg0: int) returns (left': set<string>)
      requires Visited(me, left, before, wg0) && left != {}
      modifies this`wg, this`startedInformers, this`run, this`state
      ensures Visited(me, left', before, wg0) && left' < left && Continues()
    {
      var t :| t in left;
      VisitOne(informers.Keys, left, before, t);
      VisitInformer(me, t, left);
      left' := left - {t};
    }

    /** Start's loop over the map, in any order. */
    method StartAll(ghost me: Thread)
      requires Visiting(me, informers.Keys) && startedInformers <= informers.Keys
      modifies this`wg, this`startedInformers, this`run, this`state
      ensures Visiting(me, {}) && Continues()
      ensures startedInformers == informers.Keys
      ensures wg == old(wg) + NewOnes(informers.Keys, {}, old(startedInformers))
    {
      var left := informers.Keys;
      NoneVisited(informers.Keys, startedInformers);
      while left != {}
        invariant Visited(me, left, old(startedInformers), old(wg)) && Continues()
        decreases left
      {
        left := VisitNext(me, left, old(startedInformers), old(wg));
      }
      AllVisited(informers.Keys, old(startedInformers));
    }

    /** Locks and finds the flag not set. */
    ghost method BeginStart(me: Thread)
      requires Valid() && me !in state.pcs
      modifies this`run, this`state
      ensures Continues()
      ensures shuttingDown ==> Valid() && me !in state.pcs
      ensures !shuttingDown ==> Visiting(me, informers.Keys) && startedInformers <= informers.Keys
    {
      StartedAreKnown(run);
      Lock(me, Call.Start);
      Step(Advance(me, ""));
    }

    /** `Start`: nothing once the factory is shutting down; otherwise every informer not started yet is
        launched, each with one wg.Add before it. */
    method Start(ghost me: Thread)
      requires Valid() && me !in state.pcs
      modifies this`wg, this`startedInformers, this`run, this`state
      ensures Valid() && Continues() && me !in state.pcs
      ensures shuttingDown ==> startedInformers == old(startedInformers) && wg == old(wg)
      ensures !shuttingDown ==>
                && startedInformers == informers.Keys
                && wg == old(wg) + NewOnes(informers.Keys, {}, old(startedInformers))
    {
      BeginStart(me);
      if shuttingDown {
        return;
      }
      StartAll(me);
      EndStart(me);
    }

    /** The locked part of `Shutdown`; the wait that follows is a matter of the interleaving. */
    method BeginShutdown(ghost me: Thread)
      requires Valid() && me !in state.pcs
      modifies this`shuttingDown, this`run, this`state
      ensures Valid() && Continues() && shuttingDown
      ensures me in state.pcs && state.pcs[me].Waiting?
    {
      Lock(me, Call.Shutdown);
      shuttingDown := true;
      Step(Advance(me, ""));
      Step(Advance(me, ""));
    }

    ghost method BeginLookup(me: Thread, t: string)
      requires Valid() && me !in state.pcs
      modifies this`run, this`state
      ensures Mirrors() && Continues() && state.lock == Some(me) && me in state.pcs
      ensures state.pcs[me] == Locked(InformerFor(t))
    {
      Lock(me, InformerFor(t));
    }

    ghost method EndLookup(me: Thread, t: string)
      requires Mirrors() && me in state.pcs && state.pcs[me] == Locked(InformerFor(t)) && t in informers
      modifies this`run, this`state
      ensures Valid() && Continues() && me !in state.pcs
      ensures (t, informers[t]) in state.answers
    {
      Step(Advance(me, ""));
    }

    /** newFunc with the type's own resync period, or the default one; then the transform is set. */
    method NewInformer(t: string, ghost types: seq<string>) returns (informer: nat)
      requires OfTypes(made, types)
      modifies this`made
      ensures informer == |old(made)| && OfTypes(made, types + [t])
      ensures made == old(made) + [Informer(t, if t in customResync then customResync[t] else defaultResync, transform)]
    {
      var resyncPeriod := defaultResync;
      if t in customResync {
        resyncPeriod := customResync[t];
      }
      informer := |made|;
      made := made + [Informer(t, resyncPeriod, None)];
      made := made[informer := made[informer].(transform := transform)];
      assert made == old(made) + [Informer(t, resyncPeriod, transform)];
    }

    /** newFunc is called and its result recorded. */
    ghost method RecordInformer(me: Thread, t: string, informer: nat)
      requires IsRun(run) && state == run.states[|run.events|]
      requires me in state.pcs && state.pcs[me] == Locked(InformerFor(t)) && t !in state.informers
      requires informer == |state.created|
      modifies this`run, this`state
      ensures IsRun(run) && state == run.states[|run.events|] && Continues()
      ensures me !in state.pcs && state.lock.None?
      ensures state.created == old(state.created) + [t]
      ensures state.informers == old(state.informers)[t := informer]
      ensures state.started == old(state.started) && state.wg == old(state.wg)
      ensures state.shuttingDown == old(state.shuttingDown) && (t, informer) in state.answers
    {
      Step(Advance(me, ""));
      Step(Advance(me, ""));
    }

    /** Makes the informer and stores it. */
    method MakeInformer(ghost me: Thread, t: string) returns (informer: nat)
      requires Mirrors() && me in state.pcs && state.pcs[me] == Locked(InformerFor(t)) && t !in informers
      modifies this`informers, this`made, this`run, this`state
      ensures Valid() && Continues() && me !in state.pcs && (t, informer) in state.answers
      ensures informers == old(informers)[t := informer] && informer == |old(made)|
      ensures made == old(made) + [Informer(t, if t in customResync then customResync[t] else defaultResync, transform)]
    {
      informer := NewInformer(t, state.created);
      RecordInformer(me, t, informer);
      informers := informers[t := informer];
    }

    /** `InformerFor`: the stored informer of the type, or a new one. */
    method GetInformer(ghost me: Thread, t: string) returns (informer: nat)
      requires Valid() && me !in state.pcs
      modifies this`informers, this`made, this`run, this`state
      ensures Valid() && Continues() && me !in state.pcs
      ensures t in informers && informers[t] == informer && (t, informer) in state.answers
      ensures t in old(informers) ==> informers == old(informers) && made == old(made)
      ensures t !in old(informers) ==>
                && informers == old(informers)[t := informer] && informer == |old(made)|
                && made == old(made) + [Informer(t, if t in customResync then customResync[t] else defaultResync, transform)]
    {
      BeginLookup(me, t);
      if t in informers {
        informer := informers[t];
        EndLookup(me, t);
      } else {
        informer := MakeInformer(me, t);
      }
    }

    /** The snapshot that `WaitForCacheSync` takes: exactly the started informers. */
    method StartedSnapshot(ghost me: Thread) returns (m: map<string, nat>)
      requires Valid() && me !in state.pcs
      modifies this`run, this`state
      ensures Valid() && Continues() && me !in state.pcs
      ensures m.Keys == startedInformers && forall t | t in m :: t in informers && m[t] == informers[t]
      ensures forall a :: a in state.snapshots <==> a in old(state.snapshots) || (a.0 in m && m[a.0] == a.1)
    {
      StartedAreKnown(run);
      Lock(me, WaitForCacheSync);
      Step(Advance(me, ""));
      m := map[];
      var left := informers.Keys;
      while left != {}
        invariant left <= informers.Keys
        invariant m.Keys == (informers.Keys - left) * startedInformers
        invariant forall t | t in m :: t in informers && m[t] == informers[t]
        decreases left
      {
        var t :| t in left;
        if t in startedInformers {
          m := m[t := informers[t]];
        }
        left := left - {t};
      }
    }
  }
}
