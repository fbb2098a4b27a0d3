/** What the status phase of a pass reads, one get after the other, and what its loops have computed
    after each of them. */
module Observation {
  import opened Api
  import opened Status
  import opened Conditions
  import opened Scheduling
  import opened PodGroupFacts
  import opened Planning
  import opened Text
  import opened Workload
  import opened Cluster

  /** The gets of a status phase: which calls fail, the number of the first call, and what is stored. */
  datatype View = View(faults: nat -> Fault, base: nat, store: Store, statuses: map<Key, LwsStatus>)

  /** A failed get and a missing set look the same to the status phase. */
  function Observed(r: GetResult): Reading {
    if r.Found? then Some(r.status) else None
  }

  function ReadingOf(v: View, call: nat, k: Key): Reading {
    if v.faults(call).NoFault? then Observed(Peek(v.store, v.statuses, k)) else None
  }

  /** The readings of the sets 0 to n - 1 of a role, read by the calls from `call` on. */
  function Readings(v: View, call: nat, svc: InferenceService, roleName: string, n: nat): (obs: seq<Reading>)
    ensures |obs| == n
  {
    if n == 0 then []
    else Readings(v, call, svc, roleName, n - 1) + [ReadingOf(v, call + n - 1, LwsKey(svc, roleName, n - 1))]
  }

  function CallsFor(roles: seq<Role>): nat {
    if roles == [] then 0
    else
      var r := roles[|roles| - 1];
      CallsFor(roles[..|roles| - 1]) + if r.IsWorkload() then Instances(r) else 0
  }

  /** The status of a role whose sets are read by the calls from `call` on. */
  function StatusOf(v: View, call: nat, svc: InferenceService, r: Role): ComponentStatus {
    RoleStatus(r, Readings(v, call, svc, r.name, Instances(r)))
  }

  /** A map from the workload roles' names to what f makes of each and of the number of its first get. */
  function Gather(f: (nat, Role) -> ComponentStatus, base: nat, roles: seq<Role>): map<string, ComponentStatus> {
    if roles == [] then map[]
    else
      var init, r := roles[..|roles| - 1], roles[|roles| - 1];
      var m := Gather(f, base, init);
      if r.IsWorkload() then m[r.name := f(base + CallsFor(init), r)] else m
  }

  function StatusFrom(v: View, svc: InferenceService): (nat, Role) -> ComponentStatus {
    (call: nat, role: Role) => StatusOf(v, call, svc, role)
  }

  /** The component statuses of the workload roles, each from its own readings. */
  function ComponentsOf(v: View, svc: InferenceService): map<string, ComponentStatus> {
    Gather(StatusFrom(v, svc), v.base, svc.roles)
  }

  /** The component loop before role n, when the next get is the given call. */
  predicate Gathered(f: (nat, Role) -> ComponentStatus, base: nat, roles: seq<Role>, n: nat, call: nat, m: map<string, ComponentStatus>)
    requires n <= |roles|
  {
    m == Gather(f, base, roles[..n]) && call == base + CallsFor(roles[..n])
  }

  lemma NextRole(f: (nat, Role) -> ComponentStatus, base: nat, roles: seq<Role>, n: nat, call: nat, m: map<string, ComponentStatus>, c: ComponentStatus)
    requires n < |roles| && roles[n].IsWorkload() && Gathered(f, base, roles, n, call, m) && c == f(call, roles[n])
    ensures Gathered(f, base, roles, n + 1, call + Instances(roles[n]), m[roles[n].name := c])
  {
    assert roles[..n + 1][..n] == roles[..n];
  }

  lemma PassRouter(f: (nat, Role) -> ComponentStatus, base: nat, roles: seq<Role>, n: nat, call: nat, m: map<string, ComponentStatus>)
    requires n < |roles| && !roles[n].IsWorkload() && Gathered(f, base, roles, n, call, m)
    ensures Gathered(f, base, roles, n + 1, call, m)
  {
    assert roles[..n + 1][..n] == roles[..n];
  }

  lemma AllGathered(f: (nat, Role) -> ComponentStatus, base: nat, roles: seq<Role>, call: nat, m: map<string, ComponentStatus>)
    requires Gathered(f, base, roles, |roles|, call, m)
    ensures m == Gather(f, base, roles) && call == base + CallsFor(roles)
  {
    assert roles[..|roles|] == roles;
  }

  /** The four variables of the aggregation loop. */
  datatype Tally = Tally(readyReplicas: int, totalReadyPods: int32, anyRunning: bool, allPending: bool)

  /** One round of the loop; pods(o) is the number of ready pods behind a reading. */
  function Counted(t: Tally, o: Reading, pods: Reading -> int): Tally {
    if o.None? then t
    else
      Tally(t.readyReplicas + if o.value.readyReplicas >= 1 then 1 else 0,
            Wrap32(t.totalReadyPods + Wrap32(pods(o))),
            t.anyRunning || o.value.readyReplicas >= 1, t.allPending && o.value.replicas <= 0)
  }

  function TallyOf(obs: seq<Reading>, pods: Reading -> int): Tally {
    if obs == [] then Tally(0, 0, false, true)
    else Counted(TallyOf(obs[..|obs| - 1], pods), obs[|obs| - 1], pods)
  }

  function PodsPer(nodes: int): Reading -> int {
    o => ReadyPodsOf(o, nodes)
  }

  lemma {:induction false} TallyMeans(obs: seq<Reading>, nodes: int)
    ensures var t := TallyOf(obs, PodsPer(nodes));
            && t.readyReplicas == CountReady(obs)
            && t.totalReadyPods == Wrap32(SumReadyPods(obs, nodes))
            && t.anyRunning == SomeReady(obs) && t.allPending == !SomeReplica(obs)
  {
    if obs != [] {
      var init, last := obs[..|obs| - 1], obs[|obs| - 1];
      TallyMeans(init, nodes);
      if last.Some? {
        Wrap32AddsBoth(SumReadyPods(init, nodes), ReadyPodsOf(last, nodes));
      }
    }
  }

  /** What the aggregation leaves for its caller to fill in. */
  function Unsized(c: ComponentStatus): ComponentStatus {
    c.(desiredReplicas := 0, nodesPerReplica := 0, totalPods := 0)
  }

  function Sized(role: Role, c: ComponentStatus): ComponentStatus {
    c.(nodesPerReplica := GetNodeCount(role), desiredReplicas := GetReplicaCount(role),
       totalPods := Wrap32(GetReplicaCount(role) as int * GetNodeCount(role) as int))
  }

  lemma SizedIsWhole(role: Role, obs: seq<Reading>)
    ensures Sized(role, Unsized(RoleStatus(role, obs))) == RoleStatus(role, obs)
  {
  }

  /** The result of `aggregateLWSStatus` that starts with the given call. */
  function AggregateOf(v: View, call: nat, svc: InferenceService, role: Role): ComponentStatus {
    Unsized(RoleStatus(role, Readings(v, call, svc, role.name, Instances(role))))
  }

  lemma TallyIsStatus(role: Role, obs: seq<Reading>, t: Tally)
    requires t == TallyOf(obs, PodsPer(GetNodeCount(role)))
    ensures ComponentStatus(0, Wrap32(t.readyReplicas), 0, 0, t.totalReadyPods,
                            PhaseOf(t.readyReplicas, GetReplicaCount(role), t.anyRunning, t.allPending))
            == Unsized(RoleStatus(role, obs))
  {
    TallyMeans(obs, GetNodeCount(role));
  }

  lemma AllTallied(v: View, call: nat, svc: InferenceService, role: Role, t: Tally)
    requires t == TallyOf(Readings(v, call, svc, role.name, Instances(role)), PodsPer(GetNodeCount(role)))
    ensures ComponentStatus(0, Wrap32(t.readyReplicas), 0, 0, t.totalReadyPods,
                            PhaseOf(t.readyReplicas, GetReplicaCount(role), t.anyRunning, t.allPending))
            == AggregateOf(v, call, svc, role)
  {
    TallyIsStatus(role, Readings(v, call, svc, role.name, Instances(role)), t);
  }

  lemma SizedAggregate(v: View, call: nat, svc: InferenceService, role: Role, c: ComponentStatus)
    requires c == AggregateOf(v, call, svc, role)
    ensures Sized(role, c) == StatusOf(v, call, svc, role)
  {
    SizedIsWhole(role, Readings(v, call, svc, role.name, Instances(role)));
  }

  lemma NextTally(v: View, call: nat, svc: InferenceService, roleName: string, n: nat, pods: Reading -> int, o: Reading, t: Tally)
    requires t == TallyOf(Readings(v, call, svc, roleName, n), pods) && o == ReadingOf(v, call + n, LwsKey(svc, roleName, n))
    ensures Counted(t, o, pods) == TallyOf(Readings(v, call, svc, roleName, n + 1), pods)
  {
    var obs := Readings(v, call, svc, roleName, n + 1);
    assert obs[..|obs| - 1] == Readings(v, call, svc, roleName, n);
  }

  lemma Wrap32AddsBoth(a: int, b: int)
    ensures Wrap32(Wrap32(a) + Wrap32(b)) == Wrap32(a + b)
  {
  }

  /* ---- what the components say ---- */

  lemma {:induction false} ReadingsAt(v: View, call: nat, svc: InferenceService, roleName: string, n: nat, i: nat)
    requires i < n
    ensures Readings(v, call, svc, roleName, n)[i] == ReadingOf(v, call + i, LwsKey(svc, roleName, i))
  {
    if i < n - 1 {
      ReadingsAt(v, call, svc, roleName, n - 1, i);
    }
  }

  lemma {:induction false} GatherKeys(f: (nat, Role) -> ComponentStatus, base: nat, roles: seq<Role>, name: string)
    ensures name in Gather(f, base, roles) <==> exists r :: r in roles && r.IsWorkload() && r.name == name
  {
    if roles != [] {
      var init, last := roles[..|roles| - 1], roles[|roles| - 1];
      GatherKeys(f, base, init, name);
      assert forall r :: r in roles <==> r in init || r == last;
    }
  }

  /** Role n's entry is made of its own readings, whatever roles come after it. */
  lemma {:induction false} GatherAt(f: (nat, Role) -> ComponentStatus, base: nat, roles: seq<Role>, n: nat)
    requires DistinctNames(roles) && n < |roles| && roles[n].IsWorkload()
    ensures roles[n].name in Gather(f, base, roles)
    ensures Gather(f, base, roles)[roles[n].name] == f(base + CallsFor(roles[..n]), roles[n])
  {
    var init := roles[..|roles| - 1];
    if n < |init| {
      assert init[..n] == roles[..n];
      GatherAt(f, base, init, n);
    }
  }

  /** The get for set i of role n, in the status phase. */
  function SetReading(v: View, svc: InferenceService, n: nat, i: nat): Reading
    requires n < |svc.roles|
  {
    ReadingOf(v, v.base + CallsFor(svc.roles[..n]) + i, LwsKey(svc, svc.roles[n].name, i))
  }

  ghost predicate RoleIsReady(v: View, svc: InferenceService, n: nat)
    requires n < |svc.roles|
  {
    forall i: nat | i < Instances(svc.roles[n]) :: Ready(SetReading(v, svc, n, i))
  }

  lemma ReadyReadings(v: View, svc: InferenceService, n: nat, obs: seq<Reading>)
    requires n < |svc.roles|
    requires obs == Readings(v, v.base + CallsFor(svc.roles[..n]), svc, svc.roles[n].name, Instances(svc.roles[n]))
    ensures AllReady(obs) <==> RoleIsReady(v, svc, n)
  {
    forall i: nat | i < |obs|
      ensures obs[i] == SetReading(v, svc, n, i)
    {
      ReadingsAt(v, v.base + CallsFor(svc.roles[..n]), svc, svc.roles[n].name, |obs|, i);
    }
  }

  lemma StatusRunning(role: Role, obs: seq<Reading>, c: ComponentStatus)
    requires |obs| == Instances(role) && c == RoleStatus(role, obs)
    ensures c.phase == Running <==> AllReady(obs)
  {
    PhaseMeans(role, obs);
  }

  lemma ComponentAt(v: View, svc: InferenceService, n: nat) returns (obs: seq<Reading>)
    requires DistinctNames(svc.roles) && n < |svc.roles| && svc.roles[n].IsWorkload()
    ensures obs == Readings(v, v.base + CallsFor(svc.roles[..n]), svc, svc.roles[n].name, Instances(svc.roles[n]))
    ensures svc.roles[n].name in ComponentsOf(v, svc)
    ensures ComponentsOf(v, svc)[svc.roles[n].name] == RoleStatus(svc.roles[n], obs)
  {
    GatherAt(StatusFrom(v, svc), v.base, svc.roles, n);
    obs := Readings(v, v.base + CallsFor(svc.roles[..n]), svc, svc.roles[n].name, Instances(svc.roles[n]));
  }

  lemma ComponentRunning(v: View, svc: InferenceService, n: nat)
    requires DistinctNames(svc.roles) && n < |svc.roles| && svc.roles[n].IsWorkload()
    ensures svc.roles[n].name in ComponentsOf(v, svc)
    ensures ComponentsOf(v, svc)[svc.roles[n].name].phase == Running <==> RoleIsReady(v, svc, n)
  {
    var obs := ComponentAt(v, svc, n);
    StatusRunning(svc.roles[n], obs, RoleStatus(svc.roles[n], obs));
    ReadyReadings(v, svc, n, obs);
  }

  lemma ComponentRole(v: View, svc: InferenceService, name: string) returns (n: nat)
    requires name in ComponentsOf(v, svc)
    ensures n < |svc.roles| && svc.roles[n].IsWorkload() && svc.roles[n].name == name
  {
    GatherKeys(StatusFrom(v, svc), v.base, svc.roles, name);
    var r :| r in svc.roles && r.IsWorkload() && r.name == name;
    n :| n < |svc.roles| && svc.roles[n] == r;
  }

  ghost predicate EveryRoleIsReady(v: View, svc: InferenceService) {
    && (exists n: nat :: n < |svc.roles| && svc.roles[n].IsWorkload())
    && (forall n: nat | n < |svc.roles| && svc.roles[n].IsWorkload() :: RoleIsReady(v, svc, n))
  }

  /** The Active condition of an error-free pass is true exactly when there is a workload role and every
      set of every workload role could be read and has a ready replica. */
  lemma ActiveMeans(v: View, svc: InferenceService)
    requires DistinctNames(svc.roles)
    ensures AllComponentsReady(ComponentsOf(v, svc)) <==> EveryRoleIsReady(v, svc)
  {
    var m := ComponentsOf(v, svc);
    if AllComponentsReady(m) {
      forall n: nat | n < |svc.roles| && svc.roles[n].IsWorkload()
        ensures RoleIsReady(v, svc, n)
      {
        ComponentRunning(v, svc, n);
      }
      assert exists name :: name in m;
      var name :| name in m;
      var n := ComponentRole(v, svc, name);
    }
    if EveryRoleIsReady(v, svc) {
      var n: nat :| n < |svc.roles| && svc.roles[n].IsWorkload();
      ComponentRunning(v, svc, n);
      forall name | name in m
        ensures m[name].phase == Running
      {
        var k := ComponentRole(v, svc, name);
        ComponentRunning(v, svc, k);
      }
    }
  }

  /* ---- the status write ---- */

  /** The fate of the status write, the call after the status phase's gets. */
  function StatusFault(v: View, svc: InferenceService): Fault {
    v.faults(v.base + CallsFor(svc.roles))
  }

  /** The status of a pass that ended with `failure` and then saw v. */
  function StatusSeen(v: View, stored: StoredService, failure: Option<string>): ServiceStatus {
    PassStatus(stored.status, stored.svc.generation, failure, ComponentsOf(v, stored.svc))
  }

  /** The services after the status write: one status replaced, unless the write was lost. */
  function StatusWritten(v: View, stored: StoredService, failure: Option<string>, key: (string, string),
                         services: map<(string, string), StoredService>): map<(string, string), StoredService> {
    if StatusFault(v, stored.svc).FailBefore? then services
    else services[key := stored.(status := StatusSeen(v, stored, failure))]
  }

  /** The pass that ended with `failure` and then saw v, as its status write sees it. */
  function PassSeen(v: View, stored: StoredService, failure: Option<string>): StatusPass {
    StatusPass(stored.svc.generation, failure, ComponentsOf(v, stored.svc), !StatusFault(v, stored.svc).FailBefore?)
  }

  /** Whether its status write is persisted or lost, a pass takes the history one step further. */
  lemma StatusFollowsHistory(v: View, stored: StoredService, failure: Option<string>, key: (string, string),
                             services: map<(string, string), StoredService>, start: ServiceStatus, history: seq<StatusPass>)
    requires key in services && services[key] == stored && stored.status == StatusLeft(start, history)
    ensures var services' := StatusWritten(v, stored, failure, key, services);
            && key in services' && services'[key].svc == stored.svc
            && services'[key].status == StatusLeft(start, history + [PassSeen(v, stored, failure)])
  {
    NextStatus(start, history, PassSeen(v, stored, failure));
  }

  /* ---- in terms of calls and stored sets ---- */

  /** The get of set i of a role that starts at this call saw a ready replica. */
  predicate SawReady(v: View, svc: InferenceService, roleName: string, call: nat, i: nat) {
    var k := Key(LwsKind, svc.ns, svc.name + "-" + roleName + "-" + Decimal(i));
    v.faults(call + i).NoFault? && k in v.store && k in v.statuses && v.statuses[k].readyReplicas >= 1
  }

  lemma SawReadyIff(v: View, svc: InferenceService, roleName: string, call: nat, i: nat)
    ensures Ready(ReadingOf(v, call + i, LwsKey(svc, roleName, i))) <==> SawReady(v, svc, roleName, call, i)
  {
    assert LwsName(svc.name, roleName, Some(i)) == svc.name + "-" + roleName + "-" + Decimal(i);
  }

  /** Set i of role n: one get for each replica, after those of the roles before it. */
  predicate SetSeenReady(v: View, svc: InferenceService, n: nat, i: nat)
    requires n < |svc.roles|
  {
    SawReady(v, svc, svc.roles[n].name, v.base + CallsFor(svc.roles[..n]), i)
  }

  /** Every set of role n was seen ready. */
  ghost predicate RoleSeenReady(v: View, svc: InferenceService, n: nat)
    requires n < |svc.roles|
  {
    forall i: nat | i < Instances(svc.roles[n]) :: SetSeenReady(v, svc, n, i)
  }

  /** There is a role other than the router, and every set of every such role was seen ready. */
  ghost predicate AllSeenReady(v: View, svc: InferenceService) {
    && (exists r :: r in svc.roles && r.componentType != Router)
    && (forall n: nat | n < |svc.roles| && svc.roles[n].componentType != Router :: RoleSeenReady(v, svc, n))
  }

  lemma RoleSeenIff(v: View, svc: InferenceService, n: nat)
    requires n < |svc.roles|
    ensures RoleSeenReady(v, svc, n) <==> RoleIsReady(v, svc, n)
  {
    forall i: nat | i < Instances(svc.roles[n])
      ensures Ready(SetReading(v, svc, n, i)) <==> SetSeenReady(v, svc, n, i)
    {
      SawReadyIff(v, svc, svc.roles[n].name, v.base + CallsFor(svc.roles[..n]), i);
    }
  }

  lemma AllSeenReadyIff(v: View, svc: InferenceService)
    ensures AllSeenReady(v, svc) <==> EveryRoleIsReady(v, svc)
  {
    forall n: nat | n < |svc.roles|
      ensures RoleSeenReady(v, svc, n) <==> RoleIsReady(v, svc, n)
    {
      RoleSeenIff(v, svc, n);
    }
    if r :| r in svc.roles && r.componentType != Router {
      var n: nat :| n < |svc.roles| && svc.roles[n] == r;
      assert svc.roles[n].IsWorkload();
    }
    if n: nat :| n < |svc.roles| && svc.roles[n].IsWorkload() {
      assert svc.roles[n] in svc.roles;
    }
  }

  /** The status says Active once, and truly. */
  ghost predicate TellsActive(status: ServiceStatus, ready: bool) {
    && (exists c :: c in status.conditions && c.ctype == "Active")
    && (forall c | c in status.conditions && c.ctype == "Active" :: c.status == ready)
  }

  /** After an error-free pass whose status write took effect, the stored Active condition is true
      exactly if every set was seen ready. */
  lemma ActiveIsStored(v: View, stored: StoredService)
    requires DistinctNames(stored.svc.roles) && OnePerType(stored.status.conditions)
    ensures TellsActive(StatusSeen(v, stored, None), AllSeenReady(v, stored.svc))
  {
    var components := ComponentsOf(v, stored.svc);
    ActiveMeans(v, stored.svc);
    AllSeenReadyIff(v, stored.svc);
    ActiveStands(stored.status, stored.svc.generation, components);
  }

  /** So it is in what a persisted write makes of the services. */
  ghost predicate ActiveWritten(v: View, svc: InferenceService, key: (string, string), services: map<(string, string), StoredService>) {
    key in services && TellsActive(services[key].status, AllSeenReady(v, svc))
  }

  lemma ActiveIsWritten(v: View, stored: StoredService, failure: Option<string>, key: (string, string),
                        services: map<(string, string), StoredService>)
    requires DistinctNames(stored.svc.roles) && failure.None? && StatusFault(v, stored.svc).NoFault?
    ensures OnePerType(stored.status.conditions) ==>
              ActiveWritten(v, stored.svc, key, StatusWritten(v, stored, failure, key, services))
  {
    if OnePerType(stored.status.conditions) {
      ActiveIsStored(v, stored);
    }
  }

  lemma ActiveStands(before: ServiceStatus, generation: int, components: map<string, ComponentStatus>)
    requires OnePerType(before.conditions)
    ensures TellsActive(PassStatus(before, generation, None, components), AllComponentsReady(components))
  {
    var final := FinalCondition(None, components);
    UpsertSpec(Initialized(before.conditions), final);
    assert final in PassStatus(before, generation, None, components).conditions && final.ctype == "Active";
  }

  /* ---- the numbers of a component ---- */

  /** The sum of a sequence. */
  function Total(xs: seq<int>): int {
    if xs == [] then 0 else Total(xs[..|xs| - 1]) + xs[|xs| - 1]
  }

  /** The ready pods that a role's readings stand for, one summand for each. */
  function PodsSeen(obs: seq<Reading>, nodes: int): seq<int> {
    seq(|obs|, i requires 0 <= i < |obs| => if obs[i].Some? then obs[i].value.readyReplicas as int * nodes else 0)
  }

  lemma {:induction false} PodsSum(obs: seq<Reading>, nodes: int)
    ensures SumReadyPods(obs, nodes) == Total(PodsSeen(obs, nodes))
  {
    if obs != [] {
      var init, xs := obs[..|obs| - 1], PodsSeen(obs, nodes);
      PodsSum(init, nodes);
      assert xs[..|xs| - 1] == PodsSeen(init, nodes);
    }
  }

  /** The positions of the sets that were seen ready. */
  function ReadyAt(obs: seq<Reading>): set<int> {
    set i | 0 <= i < |obs| && obs[i].Some? && obs[i].value.readyReplicas >= 1
  }

  lemma ReadyStep(init: seq<Reading>, o: Reading)
    ensures ReadyAt(init + [o]) == ReadyAt(init) + if Ready(o) then {|init|} else {}
    ensures |ReadyAt(init + [o])| == |ReadyAt(init)| + if Ready(o) then 1 else 0
  {
    var obs := init + [o];
    assert forall i | 0 <= i < |init| :: obs[i] == init[i];
    assert ReadyAt(obs) == ReadyAt(init) + if Ready(o) then {|init|} else {};
  }

  lemma {:induction false} ReadyCount(obs: seq<Reading>)
    ensures CountReady(obs) == |ReadyAt(obs)|
  {
    if obs != [] {
      var init, last := obs[..|obs| - 1], obs[|obs| - 1];
      ReadyCount(init);
      ReadyStep(init, last);
      assert obs == init + [last];
    }
  }

  /** A component's numbers: how many sets were seen ready, the pods they report, and what the role asks
      for, all in 32 bits; and its phase, from what was seen. */
  lemma ComponentMeans(role: Role, obs: seq<Reading>)
    requires |obs| == Instances(role)
    ensures var c := RoleStatus(role, obs);
            && c.readyReplicas == |ReadyAt(obs)|
            && c.readyPods == Wrap32(Total(PodsSeen(obs, GetNodeCount(role))))
            && c.desiredReplicas == (if role.replicas.Some? then role.replicas.value else 1)
            && c.nodesPerReplica == (if role.nodeCount.Some? && role.nodeCount.value >= 1 then role.nodeCount.value else 1)
            && c.totalPods == Wrap32(c.desiredReplicas as int * c.nodesPerReplica as int)
            && (c.phase.Running? <==> forall i | 0 <= i < |obs| :: obs[i].Some? && obs[i].value.readyReplicas >= 1)
            && (c.phase.Pending? <==> !c.phase.Running? && forall i | 0 <= i < |obs| && obs[i].Some? ::
                                        obs[i].value.readyReplicas < 1 && obs[i].value.replicas <= 0)
  {
    ReadyCount(obs);
    PodsSum(obs, GetNodeCount(role));
    PhaseMeans(role, obs);
    WrapFits(CountReady(obs));
    NonePresent(obs);
  }

  lemma NonePresent(obs: seq<Reading>)
    ensures (forall o | o in obs :: !Present(o))
            <==> forall i | 0 <= i < |obs| && obs[i].Some? :: obs[i].value.readyReplicas < 1 && obs[i].value.replicas <= 0
  {
    if forall o | o in obs :: !Present(o) {
      forall i | 0 <= i < |obs| && obs[i].Some?
        ensures obs[i].value.readyReplicas < 1 && obs[i].value.replicas <= 0
      {
        assert obs[i] in obs;
      }
    }
  }
}
