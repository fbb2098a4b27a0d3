/** The shared informer factory never gets stuck: in every reachable state each call that is under way can go
    on, or waits for one that can, and the steps left until all calls have returned are bounded. */
module InformerProgress {
  import opened Api
  import opened Informers

  predicate CanHappen(s: State, e: Event) {
    Next(s, e).Some?
  }

  /* ---- somebody can go on ---- */

  /** The thread inside the lock can take its next step. */
  lemma HolderCanStep(s: State, th: Thread) returns (e: Event)
    requires Inv(s) && s.lock == Some(th)
    ensures e.Advance? && e.th == th && CanHappen(s, e)
  {
    assert PcOk(s.pcs[th], true, s.shuttingDown, s.wg);
    e := Advance(th, "");
    if s.pcs[th].Ranging? && s.pcs[th].left != {} {
      var t :| t in s.pcs[th].left;
      e := Advance(th, t);
    }
  }

  /** While the lock is free, whoever wants it can have it; a Shutdown past its locked part can go on
      unless it sleeps, and then there is a goroutine whose end it waits for. */
  lemma OthersCanStep(s: State, th: Thread) returns (e: Event)
    requires Inv(s) && s.lock.None? && th in s.pcs
    ensures !e.Enter? && CanHappen(s, e)
    ensures s.pcs[th].Parked? || e == Acquire(th) || e == Advance(th, "")
  {
    assert PcOk(s.pcs[th], false, s.shuttingDown, s.wg);
    match s.pcs[th] {
      case Entered(_) => e := Acquire(th);
      case Parked =>
        NotAdding(s);
        assert s.running != multiset{};
        var id :| id in s.running;
        e := RunDone(id);
      case _ => e := Advance(th, "");
    }
  }

  /** No deadlock: while any call is under way, something other than a new call can happen. */
  lemma NoDeadlock(r: Run, n: nat) returns (e: Event)
    requires IsRun(r) && n < |r.states| && r.states[n].pcs != map[]
    ensures !e.Enter? && CanHappen(r.states[n], e)
  {
    var s := r.states[n];
    RunKeeps(r, n);
    if s.lock.Some? {
      e := HolderCanStep(s, s.lock.value);
    } else {
      var th :| th in s.pcs;
      e := OthersCanStep(s, th);
    }
  }

  /* ---- how much is left ---- */

  /** Calls that may still store an informer. */
  predicate MayStore(pc: Pc) {
    pc.Storing? || ((pc.Entered? || pc.Locked?) && pc.call.InformerFor?)
  }

  function Storers(pcs: map<Thread, Pc>): set<Thread> {
    set th | th in pcs && MayStore(pcs[th])
  }

  /** The steps left to a call, and to the goroutines it launches, in a factory of up to k informers. */
  function Weight(pc: Pc, k: nat): nat {
    match pc
    case Entered(call) => 1 + LockedWeight(call, k)
    case Locked(call) => LockedWeight(call, k)
    case Ranging(left) => 4 * |left| + 1
    case Adding(_, left) => 4 * |left| + 4
    case Marking(_, left) => 4 * |left| + 2
    case Unlocking => 4
    case Waiting => 3
    case Parked => 2
    case Woken => 1
    case Storing(_, _) => 1
  }

  function LockedWeight(call: Call, k: nat): nat {
    match call
    case Start => 4 * k + 2
    case Shutdown => 5
    case InformerFor(_) => 2
    case WaitForCacheSync => 1
  }

  ghost function Total(pcs: map<Thread, Pc>, k: nat): nat {
    if pcs == map[] then 0
    else
      var th :| th in pcs;
      Weight(pcs[th], k) + Total(pcs - {th}, k)
  }

  ghost function Bound(s: State): nat {
    |s.informers| + |Storers(s.pcs)|
  }

  ghost function Left(s: State): nat {
    Total(s.pcs, Bound(s)) + |s.running|
  }

  lemma {:induction false} TotalAt(pcs: map<Thread, Pc>, k: nat, th: Thread)
    requires th in pcs
    ensures Total(pcs, k) == Weight(pcs[th], k) + Total(pcs - {th}, k)
  {
    var th' :| th' in pcs && Total(pcs, k) == Weight(pcs[th'], k) + Total(pcs - {th'}, k);
    if th' != th {
      TotalAt(pcs - {th'}, k, th);
      TotalAt(pcs - {th}, k, th');
      assert pcs - {th'} - {th} == pcs - {th} - {th'};
    }
  }

  lemma TotalPut(pcs: map<Thread, Pc>, k: nat, th: Thread, pc: Pc)
    requires th in pcs
    ensures Total(pcs[th := pc], k) == Total(pcs, k) - Weight(pcs[th], k) + Weight(pc, k)
  {
    TotalAt(pcs, k, th);
    TotalAt(pcs[th := pc], k, th);
    assert pcs[th := pc] - {th} == pcs - {th};
  }

  lemma {:induction false} TotalGrows(pcs: map<Thread, Pc>, pcs': map<Thread, Pc>, k: nat, k': nat)
    requires pcs.Keys == pcs'.Keys && forall th | th in pcs :: Weight(pcs[th], k) <= Weight(pcs'[th], k')
    ensures Total(pcs, k) <= Total(pcs', k')
    decreases |pcs|
  {
    if pcs != map[] {
      var th :| th in pcs;
      TotalAt(pcs, k, th);
      TotalAt(pcs', k', th);
      TotalGrows(pcs - {th}, pcs' - {th}, k, k');
    }
  }

  lemma SmallerBound(pcs: map<Thread, Pc>, k: nat, k': nat)
    requires k <= k'
    ensures Total(pcs, k) <= Total(pcs, k')
  {
    TotalGrows(pcs, pcs, k, k');
  }

  /* ---- every step but a new call takes some of it ---- */

  lemma StorersPut(pcs: map<Thread, Pc>, th: Thread, pc: Pc)
    requires th in pcs && (MayStore(pc) <==> MayStore(pcs[th]))
    ensures Storers(pcs[th := pc]) == Storers(pcs)
  {
  }

  lemma StorersDrop(pcs: map<Thread, Pc>, th: Thread)
    requires th in pcs
    ensures |Storers(pcs - {th})| == |Storers(pcs)| - if MayStore(pcs[th]) then 1 else 0
  {
    assert Storers(pcs - {th}) == Storers(pcs) - {th};
  }

  lemma WakingKeeps(pcs: map<Thread, Pc>, k: nat)
    ensures Storers(WakeAll(pcs)) == Storers(pcs) && Total(WakeAll(pcs), k) <= Total(pcs, k)
  {
    TotalGrows(WakeAll(pcs), pcs, k, k);
  }

  /** A thread moves on and may launch a goroutine. */
  lemma MoveTakes(s: State, s': State, th: Thread, pc: Pc)
    requires th in s.pcs && s'.pcs == s.pcs[th := pc] && s'.informers == s.informers
    requires MayStore(pc) <==> MayStore(s.pcs[th])
    requires Weight(pc, Bound(s)) + |s'.running| < Weight(s.pcs[th], Bound(s)) + |s.running|
    ensures Left(s') < Left(s)
  {
    var k, pcs' := Bound(s), s.pcs[th := pc];
    MoveSums(s.pcs, k, th, pc, |s.running|, |s'.running|);
    BoundIs(s, s', th, pc);
  }

  lemma BoundIs(s: State, s': State, th: Thread, pc: Pc)
    requires th in s.pcs && s'.pcs == s.pcs[th := pc] && s'.informers == s.informers
    requires MayStore(pc) <==> MayStore(s.pcs[th])
    ensures Bound(s') == Bound(s)
  {
    StorersPut(s.pcs, th, pc);
  }

  lemma MoveSums(pcs: map<Thread, Pc>, k: nat, th: Thread, pc: Pc, a: nat, b: nat)
    requires th in pcs && Weight(pc, k) + b < Weight(pcs[th], k) + a
    ensures Total(pcs[th := pc], k) + b < Total(pcs, k) + a
  {
    TotalPut(pcs, k, th, pc);
  }

  /** A call returns. */
  lemma LeaveTakes(s: State, s': State, th: Thread)
    requires th in s.pcs && s'.pcs == s.pcs - {th} && s'.running == s.running
    requires |s'.informers| <= |s.informers| + if MayStore(s.pcs[th]) then 1 else 0
    ensures Left(s') < Left(s)
  {
    BoundFalls(s, s', th);
    TotalAt(s.pcs, Bound(s), th);
    SmallerBound(s'.pcs, Bound(s'), Bound(s));
  }

  lemma BoundFalls(s: State, s': State, th: Thread)
    requires th in s.pcs && s'.pcs == s.pcs - {th}
    requires |s'.informers| <= |s.informers| + if MayStore(s.pcs[th]) then 1 else 0
    ensures Bound(s') <= Bound(s)
  {
    StorersDrop(s.pcs, th);
  }

  lemma DoneTakes(s: State, id: nat)
    requires id in s.running
    ensures Left(Done(s, id)) < Left(s)
  {
    WakingKeeps(s.pcs, Bound(s));
    OneLess(s.running, id);
  }

  lemma OneLess(m: multiset<nat>, id: nat)
    requires id in m
    ensures |m - multiset{id}| == |m| - 1
  {
  }

  lemma OneMore(m: multiset<nat>, id: nat)
    ensures |m + multiset{id}| == |m| + 1
  {
  }

  lemma VisitWeights(left: set<string>, t: string, k: nat)
    requires t in left
    ensures Weight(Ranging(left - {t}), k) < Weight(Ranging(left), k)
    ensures Weight(Adding(t, left - {t}), k) < Weight(Ranging(left), k)
  {
    assert |left - {t}| == |left| - 1;
  }

  lemma RangeTakes(s: State, th: Thread, t: string)
    requires th in s.pcs && s.pcs[th].Ranging? && StartStep(s, th, s.pcs[th], t).Some?
    ensures Left(StartStep(s, th, s.pcs[th], t).value) < Left(s)
  {
    var s', left := StartStep(s, th, s.pcs[th], t).value, s.pcs[th].left;
    if left == {} {
      LeaveTakes(s, s', th);
    } else {
      VisitWeights(left, t, Bound(s));
      MoveTakes(s, s', th, if t in s.started then Ranging(left - {t}) else Adding(t, left - {t}));
    }
  }

  lemma LaunchTakes(s: State, th: Thread, u: string, left: set<string>)
    requires th in s.pcs && s.pcs[th] == Adding(u, left) && u in s.informers
    ensures Left(Goto(s.(running := s.running + multiset{s.informers[u]}), th, Marking(u, left))) < Left(s)
  {
    OneMore(s.running, s.informers[u]);
    MoveTakes(s, Goto(s.(running := s.running + multiset{s.informers[u]}), th, Marking(u, left)), th, Marking(u, left));
  }

  lemma StartTakes(s: State, th: Thread, t: string)
    requires th in s.pcs && InStart(s.pcs[th]) && StartStep(s, th, s.pcs[th], t).Some?
    ensures Left(StartStep(s, th, s.pcs[th], t).value) < Left(s)
  {
    match s.pcs[th] {
      case Ranging(_) => RangeTakes(s, th, t);
      case Adding(u, left) => LaunchTakes(s, th, u, left);
      case Marking(_, left) => MoveTakes(s, StartStep(s, th, s.pcs[th], t).value, th, Ranging(left));
    }
  }

  lemma LockedTakes(s: State, th: Thread, call: Call)
    requires th in s.pcs && s.pcs[th] == Locked(call)
    ensures Left(LockedStep(s, th, call).value) < Left(s)
  {
    var s' := LockedStep(s, th, call).value;
    if th in s'.pcs {
      assert |s.informers.Keys| == |s.informers|;
      MoveTakes(s, s', th, s'.pcs[th]);
    } else {
      LeaveTakes(s, s', th);
    }
  }

  lemma AdvanceTakes(s: State, th: Thread, t: string)
    requires th in s.pcs && AdvanceStep(s, th, s.pcs[th], t).Some?
    ensures Left(AdvanceStep(s, th, s.pcs[th], t).value) < Left(s)
  {
    var s' := AdvanceStep(s, th, s.pcs[th], t).value;
    match s.pcs[th] {
      case Locked(call) => LockedTakes(s, th, call);
      case Unlocking => MoveTakes(s, s', th, Waiting);
      case Waiting => MoveTakes(s, s', th, s'.pcs[th]);
      case Woken => LeaveTakes(s, s', th);
      case Storing(_, _) => LeaveTakes(s, s', th);
      case _ => StartTakes(s, th, t);
    }
  }

  lemma StepTakes(s: State, e: Event)
    requires !e.Enter? && CanHappen(s, e)
    ensures Left(Next(s, e).value) < Left(s)
  {
    match e {
      case Acquire(th) => MoveTakes(s, Next(s, e).value, th, Locked(s.pcs[th].call));
      case Advance(th, t) => AdvanceTakes(s, th, t);
      case RunDone(id) => DoneTakes(s, id);
    }
  }

  predicate NoNewCalls(r: Run, n: nat, m: nat)
    requires n <= m <= |r.events|
  {
    forall i | n <= i < m :: !r.events[i].Enter?
  }

  /** Without new calls a run is over after a bounded number of steps, whatever they are; */
  lemma {:induction false} StepsBounded(r: Run, n: nat, m: nat)
    requires IsRun(r) && n <= m <= |r.events| && NoNewCalls(r, n, m)
    ensures m - n + Left(r.states[m]) <= Left(r.states[n])
  {
    if n < m {
      StepsBounded(r, n, m - 1);
      assert StepAt(r, m - 1);
      StepTakes(r.states[m - 1], r.events[m - 1]);
    }
  }

  /** and nothing but a new call can happen exactly when every call has returned and every goroutine ended. */
  lemma AllReturn(r: Run, n: nat)
    requires IsRun(r) && n < |r.states|
    ensures (forall e | CanHappen(r.states[n], e) :: e.Enter?) <==> r.states[n].pcs == map[] && r.states[n].running == multiset{}
  {
    var s := r.states[n];
    if s.pcs != map[] {
      var e := NoDeadlock(r, n);
    } else if s.running != multiset{} {
      var id :| id in s.running;
      assert CanHappen(s, RunDone(id));
    }
  }
}
