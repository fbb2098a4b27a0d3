/** The shared informer factory (client-go/informers/externalversions/factory.go) as an interleaving
    of atomic steps: any number of threads call it, and every lock operation, WaitGroup operation,
    goroutine launch and map update is a step of its own. */
module Informers {
  import opened Api

  type Thread = nat

  /** What a thread has called. */
  datatype Call = Start | Shutdown | InformerFor(t: string) | WaitForCacheSync

  /** Where a thread is inside its call; a thread outside the factory has no entry. */
  datatype Pc =
    | Entered(call: Call)                       // about to lock
    | Locked(call: Call)                        // just locked
    | Ranging(left: set<string>)                // Start: types still to visit
    | Adding(t: string, left: set<string>)      // Start: wg.Add(1) done
    | Marking(t: string, left: set<string>)     // Start: goroutine launched
    | Unlocking                                 // Shutdown: flag set
    | Waiting                                   // Shutdown: unlocked, about to wait
    | Parked                                    // Shutdown: blocked in wg.Wait
    | Woken                                     // Shutdown: wait over, about to return
    | Storing(t: string, id: nat)               // InformerFor: newFunc returned

  predicate HoldsLock(pc: Pc) {
    pc.Locked? || pc.Ranging? || pc.Adding? || pc.Marking? || pc.Unlocking? || pc.Storing?
  }

  predicate InStart(pc: Pc) {
    pc.Ranging? || pc.Adding? || pc.Marking?
  }

  predicate PastFlag(pc: Pc) {
    pc.Unlocking? || pc.Waiting? || pc.Parked? || pc.Woken?
  }

  /** The factory's fields and its threads, with three histories: the types newFunc was called for
      (its n-th call returned informer n), the goroutines by informer, and what callers were told. */
  datatype State = State(
    lock: Option<Thread>, shuttingDown: bool, informers: map<string, nat>, started: set<string>, wg: int,
    pcs: map<Thread, Pc>,
    created: seq<string>, running: multiset<nat>, finished: multiset<nat>,
    answers: set<(string, nat)>, snapshots: set<(string, nat)>)

  const INIT := State(None, false, map[], {}, 0, map[], [], multiset{}, multiset{}, {}, {})

  datatype Event =
    | Enter(th: Thread, call: Call)
    | Acquire(th: Thread)
    | Advance(th: Thread, t: string)     // t: the type a map iteration visits next
    | RunDone(id: nat)                   // an informer's Run returns and its goroutine calls wg.Done

  function Goto(s: State, th: Thread, pc: Pc): State {
    s.(pcs := s.pcs[th := pc])
  }

  function Leave(s: State, th: Thread): State {
    s.(lock := None, pcs := s.pcs - {th})
  }

  function StartStep(s: State, th: Thread, pc: Pc, t: string): Option<State>
    requires InStart(pc)
  {
    match pc
    case Ranging(left) =>
      if left == {} then Some(Leave(s, th))
      else if t !in left then None
      else if t in s.started then Some(Goto(s, th, Ranging(left - {t})))
      else Some(Goto(s.(wg := s.wg + 1), th, Adding(t, left - {t})))
    case Adding(u, left) =>
      if u !in s.informers then None
      else Some(Goto(s.(running := s.running + multiset{s.informers[u]}), th, Marking(u, left)))
    case Marking(u, left) => Some(Goto(s.(started := s.started + {u}), th, Ranging(left)))
  }

  /** The first step after locking. */
  function LockedStep(s: State, th: Thread, call: Call): Option<State> {
    match call
    case Start => if s.shuttingDown then Some(Leave(s, th)) else Some(Goto(s, th, Ranging(s.informers.Keys)))
    case Shutdown => Some(Goto(s.(shuttingDown := true), th, Unlocking))
    case InformerFor(t) =>
      if t in s.informers then Some(Leave(s.(answers := s.answers + {(t, s.informers[t])}), th))
      else Some(Goto(s.(created := s.created + [t]), th, Storing(t, |s.created|)))
    case WaitForCacheSync =>
      Some(Leave(s.(snapshots := s.snapshots + Syncable(s.informers, s.started)), th))
  }

  /** The started informers, which `WaitForCacheSync` copies under the lock and then waits for. */
  function Syncable(informers: map<string, nat>, started: set<string>): set<(string, nat)> {
    set t | t in informers && t in started :: (t, informers[t])
  }

  function AdvanceStep(s: State, th: Thread, pc: Pc, t: string): Option<State> {
    match pc
    case Entered(_) => None
    case Locked(call) => LockedStep(s, th, call)
    case Unlocking => Some(Goto(s.(lock := None), th, Waiting))
    case Waiting => Some(Goto(s, th, if s.wg == 0 then Woken else Parked))
    case Parked => None
    case Woken => Some(s.(pcs := s.pcs - {th}))
    case Storing(u, id) =>
      Some(Leave(s.(informers := s.informers[u := id], answers := s.answers + {(u, id)}), th))
    case _ => StartStep(s, th, pc, t)
  }

  /** wg.Done: reaching zero wakes every parked waiter. */
  function Done(s: State, id: nat): State {
    s.(wg := s.wg - 1, running := s.running - multiset{id}, finished := s.finished + multiset{id},
       pcs := if s.wg == 1 then WakeAll(s.pcs) else s.pcs)
  }

  function WakeAll(pcs: map<Thread, Pc>): map<Thread, Pc> {
    map th | th in pcs :: if pcs[th].Parked? then Woken else pcs[th]
  }

  /** One step of the interleaving; None when the event cannot happen now. */
  function Next(s: State, e: Event): Option<State> {
    match e
    case Enter(th, call) => if th in s.pcs then None else Some(Goto(s, th, Entered(call)))
    case Acquire(th) =>
      if s.lock.None? && th in s.pcs && s.pcs[th].Entered?
      then Some(Goto(s.(lock := Some(th)), th, Locked(s.pcs[th].call))) else None
    case Advance(th, t) => if th in s.pcs then AdvanceStep(s, th, s.pcs[th], t) else None
    case RunDone(id) => if id in s.running then Some(Done(s, id)) else None
  }

  /** A run: event n leads from state n to state n + 1. */
  datatype Run = Run(states: seq<State>, events: seq<Event>)

  predicate StepAt(r: Run, n: nat)
    requires |r.states| == |r.events| + 1 && n < |r.events|
  {
    Next(r.states[n], r.events[n]) == Some(r.states[n + 1])
  }

  ghost predicate IsRun(r: Run) {
    && |r.states| == |r.events| + 1 && r.states[0] == INIT
    && (forall n | 0 <= n < |r.events| :: StepAt(r, n))
  }

  function Extend(r: Run, e: Event, s: State): Run {
    Run(r.states + [s], r.events + [e])
  }

  lemma ExtendIsRun(r: Run, e: Event, s: State)
    requires IsRun(r) && Next(r.states[|r.events|], e) == Some(s)
    ensures IsRun(Extend(r, e, s))
  {
    forall n | 0 <= n < |r.events| + 1
      ensures StepAt(Extend(r, e, s), n)
    {
      if n < |r.events| {
        assert StepAt(r, n);
      }
    }
  }

  /* ---- the invariant ---- */

  /** The place of the thread that holds the lock; any place outside the lock if there is none. */
  function Holder(s: State): Pc {
    if s.lock.Some? && s.lock.value in s.pcs then s.pcs[s.lock.value] else Parked
  }

  /** Mutual exclusion, and how each thread's place relates to the flag and the count: no Start is
      under way once the flag is set, and a waiter sleeps exactly as long as the count is not zero. */
  ghost predicate ThreadsOk(lock: Option<Thread>, pcs: map<Thread, Pc>, shuttingDown: bool, wg: int) {
    && (lock.Some? ==> lock.value in pcs)
    && (forall th | th in pcs :: PcOk(pcs[th], lock == Some(th), shuttingDown, wg))
  }

  predicate PcOk(pc: Pc, holds: bool, shuttingDown: bool, wg: int) {
    && (HoldsLock(pc) <==> holds)
    && (InStart(pc) ==> !shuttingDown)
    && (PastFlag(pc) ==> shuttingDown)
    && (pc.Woken? ==> wg == 0)
    && (pc.Parked? ==> wg != 0)
  }

  /** What the thread inside the lock relies on. */
  predicate HolderOk(pc: Pc, informers: map<string, nat>, started: set<string>, created: seq<string>) {
    match pc
    case Ranging(left) => left <= informers.Keys <= started + left
    case Adding(t, left) => left <= informers.Keys <= started + left + {t} && t in informers && t !in started && t !in left
    case Marking(t, left) => left <= informers.Keys <= started + left + {t} && t in informers && t !in started && t !in left
    case Storing(t, id) => t !in informers && |created| == id + 1 && created[id] == t
    case _ => true
  }

  /** newFunc ran once for each stored type and, while an informer is being stored, once for it. */
  ghost predicate CreatedOk(pc: Pc, informers: map<string, nat>, created: seq<string>, answers: set<(string, nat)>) {
    && (forall i, j | 0 <= i < j < |created| :: created[i] != created[j])
    && (forall t | t in informers :: informers[t] < |created| && created[informers[t]] == t)
    && (forall i | 0 <= i < |created| :: created[i] in informers || pc == Storing(created[i], i))
    && (forall a | a in answers :: a.0 in informers && informers[a.0] == a.1)
  }

  /** One goroutine was launched for each started informer and, while it is being marked, for it. */
  ghost predicate LaunchedOk(pc: Pc, informers: map<string, nat>, started: set<string>, created: seq<string>, launched: multiset<nat>) {
    && (forall t | t in informers ::
          launched[informers[t]] == if t in started || (pc.Marking? && pc.t == t) then 1 else 0)
    && (forall id | id in launched ::
          id < |created| && created[id] in informers && informers[created[id]] == id)
  }

  predicate CountOk(pc: Pc, wg: int, running: multiset<nat>) {
    wg == |running| + if pc.Adding? then 1 else 0
  }

  ghost predicate StartedOk(informers: map<string, nat>, started: set<string>, snapshots: set<(string, nat)>) {
    && started <= informers.Keys
    && (forall a | a in snapshots :: a.0 in started && informers[a.0] == a.1)
  }

  ghost predicate Inv(s: State) {
    && ThreadsOk(s.lock, s.pcs, s.shuttingDown, s.wg)
    && HolderOk(Holder(s), s.informers, s.started, s.created)
    && CreatedOk(Holder(s), s.informers, s.created, s.answers)
    && LaunchedOk(Holder(s), s.informers, s.started, s.created, s.running + s.finished)
    && CountOk(Holder(s), s.wg, s.running)
    && StartedOk(s.informers, s.started, s.snapshots)
  }

  lemma InitInv()
    ensures Inv(INIT)
  {
  }

  /* ---- each step keeps it ---- */

  lemma EnterKeeps(s: State, th: Thread, call: Call)
    requires Inv(s) && th !in s.pcs
    ensures Inv(Goto(s, th, Entered(call)))
  {
  }

  lemma AcquireKeeps(s: State, th: Thread)
    requires Inv(s) && s.lock.None? && th in s.pcs && s.pcs[th].Entered?
    ensures Inv(Goto(s.(lock := Some(th)), th, Locked(s.pcs[th].call)))
  {
  }

  /** The holder moves on inside the lock. */
  lemma HolderMoves(s: State, th: Thread, pc: Pc, shuttingDown: bool, wg: int)
    requires ThreadsOk(s.lock, s.pcs, s.shuttingDown, s.wg) && s.lock == Some(th)
    requires PcOk(pc, true, shuttingDown, wg)
    requires s.shuttingDown ==> shuttingDown && wg == s.wg
    requires !s.shuttingDown && shuttingDown ==> wg == s.wg
    ensures ThreadsOk(s.lock, s.pcs[th := pc], shuttingDown, wg)
  {
    forall j | j in s.pcs && j != th
      ensures PcOk(s.pcs[j], false, shuttingDown, wg)
    {
      assert PcOk(s.pcs[j], false, s.shuttingDown, s.wg);
    }
  }

  lemma HolderLeaves(s: State, th: Thread)
    requires ThreadsOk(s.lock, s.pcs, s.shuttingDown, s.wg) && s.lock == Some(th)
    ensures ThreadsOk(None, s.pcs - {th}, s.shuttingDown, s.wg)
  {
    forall j | j in s.pcs - {th}
      ensures PcOk(s.pcs[j], false, s.shuttingDown, s.wg)
    {
      assert PcOk(s.pcs[j], false, s.shuttingDown, s.wg);
    }
  }

  lemma IsHolder(s: State, th: Thread)
    requires ThreadsOk(s.lock, s.pcs, s.shuttingDown, s.wg) && th in s.pcs && HoldsLock(s.pcs[th])
    ensures s.lock == Some(th) && Holder(s) == s.pcs[th]
    ensures PcOk(s.pcs[th], true, s.shuttingDown, s.wg)
  {
    assert PcOk(s.pcs[th], s.lock == Some(th), s.shuttingDown, s.wg);
  }

  lemma RangeKeeps(s: State, th: Thread, t: string)
    requires Inv(s) && th in s.pcs && s.pcs[th].Ranging? && StartStep(s, th, s.pcs[th], t).Some?
    ensures Inv(StartStep(s, th, s.pcs[th], t).value)
  {
    IsHolder(s, th);
    var left := s.pcs[th].left;
    if left == {} {
      HolderLeaves(s, th);
    } else if t in s.started {
      HolderMoves(s, th, Ranging(left - {t}), s.shuttingDown, s.wg);
    } else {
      HolderMoves(s, th, Adding(t, left - {t}), s.shuttingDown, s.wg + 1);
    }
  }

  lemma LaunchKeeps(s: State, th: Thread)
    requires Inv(s) && th in s.pcs && s.pcs[th].Adding?
    ensures StartStep(s, th, s.pcs[th], "").Some? && Inv(StartStep(s, th, s.pcs[th], "").value)
  {
    IsHolder(s, th);
    var u := s.pcs[th].t;
    var id, pc := s.informers[u], Marking(u, s.pcs[th].left);
    HolderMoves(s, th, pc, s.shuttingDown, s.wg);
    assert s.running + multiset{id} + s.finished == s.running + s.finished + multiset{id};
    LaunchCounts(s.pcs[th], pc, s.informers, s.started, s.created, s.answers, s.running + s.finished);
  }

  lemma LaunchCounts(pc: Pc, pc': Pc, informers: map<string, nat>, started: set<string>, created: seq<string>,
                     answers: set<(string, nat)>, launched: multiset<nat>)
    requires pc.Adding? && pc'.Marking? && pc'.t == pc.t && pc.t in informers && pc.t !in started
    requires CreatedOk(pc, informers, created, answers) && LaunchedOk(pc, informers, started, created, launched)
    ensures LaunchedOk(pc', informers, started, created, launched + multiset{informers[pc.t]})
  {
  }

  lemma MarkKeeps(s: State, th: Thread)
    requires Inv(s) && th in s.pcs && s.pcs[th].Marking?
    ensures StartStep(s, th, s.pcs[th], "").Some? && Inv(StartStep(s, th, s.pcs[th], "").value)
  {
    IsHolder(s, th);
    HolderMoves(s, th, Ranging(s.pcs[th].left), s.shuttingDown, s.wg);
  }

  lemma BeginKeeps(s: State, th: Thread)
    requires Inv(s) && th in s.pcs && (s.pcs[th] == Locked(Start) || s.pcs[th] == Locked(Shutdown))
    ensures LockedStep(s, th, s.pcs[th].call).Some? && Inv(LockedStep(s, th, s.pcs[th].call).value)
  {
    IsHolder(s, th);
    HolderLeaves(s, th);
    if s.pcs[th].call.Shutdown? {
      HolderMoves(s, th, Unlocking, true, s.wg);
    } else if !s.shuttingDown {
      HolderMoves(s, th, Ranging(s.informers.Keys), s.shuttingDown, s.wg);
    }
  }

  lemma LookupKeeps(s: State, th: Thread, t: string)
    requires Inv(s) && th in s.pcs && s.pcs[th] == Locked(InformerFor(t))
    ensures LockedStep(s, th, InformerFor(t)).Some? && Inv(LockedStep(s, th, InformerFor(t)).value)
  {
    IsHolder(s, th);
    HolderLeaves(s, th);
    if t !in s.informers {
      HolderMoves(s, th, Storing(t, |s.created|), s.shuttingDown, s.wg);
      CreateCounts(Locked(InformerFor(t)), s.informers, s.created, s.answers, t);
    }
  }

  lemma CreateCounts(pc: Pc, informers: map<string, nat>, created: seq<string>, answers: set<(string, nat)>, t: string)
    requires CreatedOk(pc, informers, created, answers) && !pc.Storing? && t !in informers
    ensures CreatedOk(Storing(t, |created|), informers, created + [t], answers)
  {
    forall i | 0 <= i < |created|
      ensures created[i] in informers && created[i] != t
    {
    }
  }

  lemma SyncKeeps(s: State, th: Thread)
    requires Inv(s) && th in s.pcs && s.pcs[th] == Locked(WaitForCacheSync)
    ensures Inv(Leave(s.(snapshots := s.snapshots + Syncable(s.informers, s.started)), th))
  {
    IsHolder(s, th);
    HolderLeaves(s, th);
  }

  lemma StoreKeeps(s: State, th: Thread)
    requires Inv(s) && th in s.pcs && s.pcs[th].Storing?
    ensures Inv(AdvanceStep(s, th, s.pcs[th], "").value)
  {
    IsHolder(s, th);
    HolderLeaves(s, th);
    StoreCounts(s.pcs[th], s.informers, s.started, s.created, s.answers, s.running + s.finished);
  }

  lemma StoreCounts(pc: Pc, informers: map<string, nat>, started: set<string>, created: seq<string>,
                    answers: set<(string, nat)>, launched: multiset<nat>)
    requires pc.Storing? && HolderOk(pc, informers, started, created) && started <= informers.Keys
    requires CreatedOk(pc, informers, created, answers) && LaunchedOk(pc, informers, started, created, launched)
    ensures CreatedOk(Parked, informers[pc.t := pc.id], created, answers + {(pc.t, pc.id)})
    ensures LaunchedOk(Parked, informers[pc.t := pc.id], started, created, launched)
  {
    assert launched[pc.id] == 0;
  }

  lemma ShutdownKeeps(s: State, th: Thread)
    requires Inv(s) && th in s.pcs && PastFlag(s.pcs[th]) && !s.pcs[th].Parked?
    ensures Inv(AdvanceStep(s, th, s.pcs[th], "").value)
  {
  }

  lemma DoneThreads(lock: Option<Thread>, pcs: map<Thread, Pc>, shuttingDown: bool, wg: int)
    requires ThreadsOk(lock, pcs, shuttingDown, wg) && wg >= 1
    ensures ThreadsOk(lock, if wg == 1 then WakeAll(pcs) else pcs, shuttingDown, wg - 1)
  {
    forall th | th in pcs
      ensures PcOk(if wg == 1 && pcs[th].Parked? then Woken else pcs[th], lock == Some(th), shuttingDown, wg - 1)
    {
      assert PcOk(pcs[th], lock == Some(th), shuttingDown, wg);
    }
  }

  lemma DoneKeeps(s: State, id: nat)
    requires Inv(s) && id in s.running
    ensures Inv(Done(s, id))
  {
    assert |s.running| >= 1;
    DoneThreads(s.lock, s.pcs, s.shuttingDown, s.wg);
    HolderAwake(s);
    assert s.running - multiset{id} + (s.finished + multiset{id}) == s.running + s.finished;
  }

  lemma HolderAwake(s: State)
    requires ThreadsOk(s.lock, s.pcs, s.shuttingDown, s.wg)
    ensures Holder(s.(pcs := WakeAll(s.pcs))) == Holder(s)
  {
    if s.lock.Some? {
      assert PcOk(s.pcs[s.lock.value], true, s.shuttingDown, s.wg);
    }
  }

  lemma NextKeeps(s: State, e: Event)
    requires Inv(s) && Next(s, e).Some?
    ensures Inv(Next(s, e).value)
  {
    match e {
      case Enter(th, call) => EnterKeeps(s, th, call);
      case Acquire(th) => AcquireKeeps(s, th);
      case RunDone(id) => DoneKeeps(s, id);
      case Advance(th, t) =>
        match s.pcs[th] {
          case Ranging(_) => RangeKeeps(s, th, t);
          case Adding(_, _) => LaunchKeeps(s, th);
          case Marking(_, _) => MarkKeeps(s, th);
          case Locked(call) =>
            match call {
              case InformerFor(u) => LookupKeeps(s, th, u);
              case WaitForCacheSync => SyncKeeps(s, th);
              case _ => BeginKeeps(s, th);
            }
          case Storing(_, _) => StoreKeeps(s, th);
          case _ => ShutdownKeeps(s, th);
        }
    }
  }

  /* ---- every run ---- */

  /** Every state of every interleaving satisfies the invariant. */
  lemma {:induction false} RunKeeps(r: Run, n: nat)
    requires IsRun(r) && n < |r.states|
    ensures Inv(r.states[n])
  {
    if n == 0 {
      InitInv();
    } else {
      RunKeeps(r, n - 1);
      assert StepAt(r, n - 1);
      NextKeeps(r.states[n - 1], r.events[n - 1]);
    }
  }

  /** Started, or launched and about to be marked so. */
  predicate Launched(s: State, t: string) {
    t in s.started || (Holder(s).Marking? && Holder(s).t == t)
  }

  /** The started informers whose Run has not returned yet. */
  function Unfinished(s: State): set<string> {
    set t | t in s.informers && Launched(s, t) && s.informers[t] !in s.finished
  }

  /** In every reachable state the WaitGroup counts the started-but-unfinished informers, plus the one
      whose goroutine some Start is about to launch. It is never negative. */
  lemma CountIsUnfinished(r: Run, n: nat)
    requires IsRun(r) && n < |r.states|
    ensures r.states[n].wg == |Unfinished(r.states[n])| + if Holder(r.states[n]).Adding? then 1 else 0
  {
    RunKeeps(r, n);
    RunningIsUnfinished(r.states[n]);
    UnfinishedSize(r.states[n].informers, Unfinished(r.states[n]));
  }

  /** The informers of a set of types. */
  function Image(informers: map<string, nat>, types: set<string>): multiset<nat>
    requires types <= informers.Keys
  {
    multiset(set t | t in types :: informers[t])
  }

  lemma RunningIsUnfinished(s: State)
    requires Inv(s)
    ensures s.running == Image(s.informers, Unfinished(s))
    ensures forall t, u | t in s.informers && u in s.informers && s.informers[t] == s.informers[u] :: t == u
  {
    forall id
      ensures s.running[id] == Image(s.informers, Unfinished(s))[id]
    {
      if id in s.running || id in s.finished {
        assert id in s.running + s.finished;
        assert (s.running + s.finished)[s.informers[s.created[id]]] == 1;
        assert s.created[id] in Unfinished(s) <==> id in s.running;
      } else if t :| t in Unfinished(s) && s.informers[t] == id {
        assert (s.running + s.finished)[id] == 1;
      }
    }
  }

  lemma {:induction false} UnfinishedSize(informers: map<string, nat>, types: set<string>)
    requires types <= informers.Keys
    requires forall t, u | t in informers && u in informers && informers[t] == informers[u] :: t == u
    ensures |Image(informers, types)| == |types|
  {
    if types != {} {
      var t :| t in types;
      UnfinishedSize(informers, types - {t});
      assert (set u | u in types :: informers[u]) == (set u | u in types - {t} :: informers[u]) + {informers[t]};
    }
  }

  /** newFunc runs at most once per type, all callers of InformerFor for a type get the same informer,
      each informer's Run is launched at most once, only informers of the factory are ever started, and
      WaitForCacheSync only waits for informers that have been launched. */
  lemma OncePerType(r: Run, n: nat)
    requires IsRun(r) && n < |r.states|
    ensures var s := r.states[n];
            && (forall i, j | 0 <= i < j < |s.created| :: s.created[i] != s.created[j])
            && (forall a, b | a in s.answers && b in s.answers && a.0 == b.0 :: a.1 == b.1)
            && (forall id :: (s.running + s.finished)[id] <= 1)
            && s.started <= s.informers.Keys
            && (forall a | a in s.snapshots :: (s.running + s.finished)[a.1] == 1)
  {
    RunKeeps(r, n);
    var s := r.states[n];
    forall id
      ensures (s.running + s.finished)[id] <= 1
    {
      if id in s.running + s.finished {
        assert (s.running + s.finished)[s.informers[s.created[id]]] <= 1;
      }
    }
  }

  /** A Start that returns has left every informer of the factory started, unless it found the flag set. */
  lemma StartStartsAll(r: Run, n: nat, th: Thread)
    requires IsRun(r) && n < |r.events| && th in r.states[n].pcs && th !in r.states[n + 1].pcs
    requires InStart(r.states[n].pcs[th]) || r.states[n].pcs[th] == Locked(Start)
    ensures r.states[n].shuttingDown || r.states[n + 1].started == r.states[n + 1].informers.Keys
  {
    RunKeeps(r, n);
    RunKeeps(r, n + 1);
    assert StepAt(r, n);
    IsHolder(r.states[n], th);
  }

  ghost predicate Closed(s: State, s': State) {
    s'.shuttingDown && s'.started == s.started && s'.running <= s.running && s'.wg <= s.wg
  }

  lemma ClosedAdvance(s: State, th: Thread, t: string)
    requires s.shuttingDown && th in s.pcs && !InStart(s.pcs[th]) && AdvanceStep(s, th, s.pcs[th], t).Some?
    ensures Closed(s, AdvanceStep(s, th, s.pcs[th], t).value)
  {
    match s.pcs[th] {
      case Locked(call) =>
        match call {
          case Start =>
          case Shutdown =>
          case InformerFor(_) =>
          case WaitForCacheSync =>
        }
      case _ =>
    }
  }

  /** One step after the flag: it stays set, nothing is started or added, the count only falls. */
  lemma ClosedStep(s: State, e: Event)
    requires Inv(s) && s.shuttingDown && Next(s, e).Some?
    ensures Closed(s, Next(s, e).value)
  {
    if e.Advance? {
      assert PcOk(s.pcs[e.th], s.lock == Some(e.th), s.shuttingDown, s.wg);
      ClosedAdvance(s, e.th, e.t);
    }
  }

  /** The shutdown protocol, over the rest of every run: from the moment the flag is set no goroutine
      is added and no informer started, the flag stays, and the count never rises. */
  lemma {:induction false} ShutdownIsFinal(r: Run, n: nat, m: nat)
    requires IsRun(r) && n <= m < |r.states| && r.states[n].shuttingDown
    ensures Closed(r.states[n], r.states[m])
  {
    if n < m {
      ShutdownIsFinal(r, n, m - 1);
      RunKeeps(r, m - 1);
      assert StepAt(r, m - 1);
      ClosedStep(r.states[m - 1], r.events[m - 1]);
    }
  }

  /** Every Shutdown call, of however many concurrent ones, is released only when the count is zero and
      every goroutine has finished; it stays that way for ever after; and none sleeps on then. */
  lemma ShutdownWaits(r: Run, n: nat, m: nat, th: Thread)
    requires IsRun(r) && n <= m < |r.states| && th in r.states[n].pcs
    ensures r.states[n].pcs[th].Woken? ==> r.states[m].wg == 0 && r.states[m].running == multiset{}
    ensures r.states[n].pcs[th].Parked? ==> r.states[n].running != multiset{}
  {
    RunKeeps(r, n);
    RunKeeps(r, m);
    var s := r.states[n];
    assert PcOk(s.pcs[th], s.lock == Some(th), s.shuttingDown, s.wg);
    if s.pcs[th].Woken? {
      ShutdownIsFinal(r, n, m);
      NoMore(r.states[m]);
    } else if s.pcs[th].Parked? {
      NotAdding(s);
    }
  }

  lemma NotAdding(s: State)
    requires Inv(s) && s.shuttingDown
    ensures s.wg == |s.running|
  {
    if s.lock.Some? {
      assert PcOk(s.pcs[s.lock.value], true, s.shuttingDown, s.wg);
    }
  }

  lemma NoMore(s: State)
    requires Inv(s) && s.shuttingDown && s.wg <= 0
    ensures s.wg == 0 && s.running == multiset{}
  {
    NotAdding(s);
  }
}
