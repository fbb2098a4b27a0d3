/** Gang scheduling: which roles need it, and the PodGroup they share (pkg/scheduling/podgroup.go). */
module Scheduling {
  import opened Api
  import opened Text

  /* ---- who needs gang scheduling ---- */

  predicate PDDisaggregated(roles: seq<Role>) {
    && (exists r | r in roles :: r.componentType.Prefiller?)
    && (exists r | r in roles :: r.componentType.Decoder?)
  }

  predicate MultiNode(role: Role) {
    role.nodeCount.Some? && role.nodeCount.value >= 2
  }

  /** `NeedsGangSchedulingForRole`, with the answer of `IsPDDisaggregated` as its first argument. */
  predicate NeedsGangForRole(pd: bool, role: Role) {
    if pd then role.componentType.Prefiller? || role.componentType.Decoder? else MultiNode(role)
  }

  /** A role whose replicas are tasks of the PodGroup. */
  predicate Gang(pd: bool, role: Role) {
    role.IsWorkload() && NeedsGangForRole(pd, role)
  }

  ghost predicate NeedsGang(roles: seq<Role>) {
    exists r | r in roles :: Gang(PDDisaggregated(roles), r)
  }

  method IsPDDisaggregated(svc: InferenceService) returns (b: bool)
    ensures b <==> PDDisaggregated(svc.roles)
  {
    var hasPrefill, hasDecode := false, false;
    for n := 0 to |svc.roles|
      invariant hasPrefill <==> exists r | r in svc.roles[..n] :: r.componentType.Prefiller?
      invariant hasDecode <==> exists r | r in svc.roles[..n] :: r.componentType.Decoder?
    {
      var role := svc.roles[n];
      assert svc.roles[..n + 1] == svc.roles[..n] + [role];
      match role.componentType {
        case Prefiller => hasPrefill := true;
        case Decoder => hasDecode := true;
        case _ =>
      }
    }
    assert svc.roles[..|svc.roles|] == svc.roles;
    b := hasPrefill && hasDecode;
  }

  /** The service-wide answer is yes exactly when some workload role's own answer is yes: the
      PodGroup exists whenever a LeaderWorkerSet is about to name it, and only then. */
  method NeedsGangScheduling(svc: InferenceService) returns (b: bool)
    ensures b <==> NeedsGang(svc.roles)
  {
    var pd := IsPDDisaggregated(svc);
    if pd {
      var r :| r in svc.roles && r.componentType.Prefiller?;
      assert Gang(true, r);
      return true;
    }
    for n := 0 to |svc.roles|
      invariant forall r | r in svc.roles[..n] :: !Gang(false, r)
    {
      var role := svc.roles[n];
      assert svc.roles[..n + 1] == svc.roles[..n] + [role];
      if role.componentType.Router? {
        continue;
      }
      if role.nodeCount.Some? && role.nodeCount.value >= 2 {
        assert Gang(false, role);
        return true;
      }
    }
    assert svc.roles[..|svc.roles|] == svc.roles;
    b := false;
  }

  /* ---- names and counts ---- */

  function PodGroupName(svcName: string): string {
    svcName
  }

  function TaskName(roleName: string, replicaIndex: nat): string {
    roleName + "-" + Decimal(replicaIndex)
  }

  function GetNodeCount(role: Role): (n: int32)
    ensures n >= 1
  {
    if role.nodeCount.Some? && role.nodeCount.value >= 1 then role.nodeCount.value else 1
  }

  function GetReplicaCount(role: Role): int32 {
    if role.replicas.Some? then role.replicas.value else 1
  }

  /** How often a loop from 0 up to the replica count runs. */
  function Instances(role: Role): nat {
    if GetReplicaCount(role) < 0 then 0 else GetReplicaCount(role)
  }

  /* ---- what the PodGroup should say ---- */

  function Sum(roles: seq<Role>, f: Role -> int): int {
    if roles == [] then 0 else Sum(roles[..|roles| - 1], f) + f(roles[|roles| - 1])
  }

  /** n additions of k. */
  function Times(n: nat, k: nat): (t: nat)
    ensures t == n * k
  {
    if n == 0 then 0 else Times(n - 1, k) + k
  }

  /** The pods a role contributes to the gang. */
  function PodsOf(pd: bool, role: Role): nat {
    if Gang(pd, role) then Times(Instances(role), GetNodeCount(role)) else 0
  }

  function GangPods(pd: bool, roles: seq<Role>): int {
    Sum(roles, r => PodsOf(pd, r))
  }

  function RoleTasks(roleName: string, n: nat, nodes: int32): map<string, int32> {
    if n == 0 then map[] else RoleTasks(roleName, n - 1, nodes)[TaskName(roleName, n - 1) := nodes]
  }

  function TaskMembers(pd: bool, roles: seq<Role>): map<string, int32> {
    if roles == [] then map[]
    else
      var r := roles[|roles| - 1];
      var m := TaskMembers(pd, roles[..|roles| - 1]);
      if Gang(pd, r) then m + RoleTasks(r.name, Instances(r), GetNodeCount(r)) else m
  }

  /** The containers `addRoleResources` sees: none when the template is absent or does not parse. */
  function TemplateContainers(role: Role): seq<Container> {
    if role.template.Some? && role.template.value.Parsed? then role.template.value.spec.containers else []
  }

  /** `Quantity.Value()`: rounded to a whole unit, away from zero. */
  function RoundAway(q: real): int {
    if q >= 0.0 then -((-q).Floor) else q.Floor
  }

  function Limit(c: Container, res: string, pods: int): int {
    if res in c.limits then Wrap64(RoundAway(c.limits[res]) * pods) else 0
  }

  function Demand(cs: seq<Container>, res: string, pods: int): int {
    if cs == [] then 0 else Demand(cs[..|cs| - 1], res, pods) + Limit(cs[|cs| - 1], res, pods)
  }

  function LimitNames(cs: seq<Container>): set<string> {
    if cs == [] then {} else LimitNames(cs[..|cs| - 1]) + cs[|cs| - 1].limits.Keys
  }

  /** The int32 product handed to `addRoleResources`. */
  function TotalPods(role: Role): int32 {
    Wrap32(GetReplicaCount(role) * GetNodeCount(role))
  }

  function RoleDemand(pd: bool, role: Role, res: string): int {
    if Gang(pd, role) then Demand(TemplateContainers(role), res, TotalPods(role)) else 0
  }

  function ResourceNames(pd: bool, roles: seq<Role>): set<string> {
    if roles == [] then {}
    else
      var r := roles[|roles| - 1];
      ResourceNames(pd, roles[..|roles| - 1]) + if Gang(pd, r) then LimitNames(TemplateContainers(r)) else {}
  }

  function GangDemand(pd: bool, roles: seq<Role>, res: string): int {
    Sum(roles, r => RoleDemand(pd, r, res))
  }

  function MinResources(pd: bool, roles: seq<Role>): map<string, int> {
    map res | res in ResourceNames(pd, roles) :: GangDemand(pd, roles, res)
  }

  function PodGroupSpecOf(roles: seq<Role>): PodGroupSpec {
    var pd := PDDisaggregated(roles);
    PodGroupSpec(Wrap32(GangPods(pd, roles)), TaskMembers(pd, roles), MinResources(pd, roles))
  }

  function PodGroupKey(svc: InferenceService): Key {
    Key(PodGroupKind, svc.ns, PodGroupName(svc.name))
  }

  function PodGroupObj(env: Env, svc: InferenceService): Obj {
    var payload := PodGroupPayload(PodGroupSpecOf(svc.roles));
    Obj(map[LABEL_SERVICE := svc.name, LABEL_SPEC_HASH := env.hash(payload)], payload)
  }

  /* ---- building it ---- */

  lemma Wrap32Adds(a: int, b: int)
    ensures Wrap32(Wrap32(a) + b) == Wrap32(a + b)
  {
  }

  function Amount(m: map<string, int>, res: string): int {
    if res in m then m[res] else 0
  }

  /** The amounts after adding what the containers of `pods` pods ask for. */
  function Plus(m: map<string, int>, cs: seq<Container>, pods: int): map<string, int> {
    map res | res in m.Keys + LimitNames(cs) :: Amount(m, res) + Demand(cs, res, pods)
  }

  /** A resource no container limits has demand zero. */
  lemma {:induction false} NoDemandUnnamed(cs: seq<Container>, res: string, pods: int)
    requires res !in LimitNames(cs)
    ensures Demand(cs, res, pods) == 0
  {
    if cs != [] {
      NoDemandUnnamed(cs[..|cs| - 1], res, pods);
    }
  }

  lemma DemandStep(cs: seq<Container>, n: nat, res: string, pods: int)
    requires n < |cs|
    ensures Demand(cs[..n + 1], res, pods) == Demand(cs[..n], res, pods) + Limit(cs[n], res, pods)
  {
    assert cs[..n + 1][..n] == cs[..n];
  }

  lemma LimitNamesStep(cs: seq<Container>, n: nat)
    requires n < |cs|
    ensures LimitNames(cs[..n + 1]) == LimitNames(cs[..n]) + cs[n].limits.Keys
  {
    assert cs[..n + 1][..n] == cs[..n];
  }

  /** One more container. */
  lemma PlusStep(m: map<string, int>, cs: seq<Container>, n: nat, pods: int, m': map<string, int>)
    requires n < |cs|
    requires m'.Keys == Plus(m, cs[..n], pods).Keys + cs[n].limits.Keys
    requires forall res :: Amount(m', res) == Amount(Plus(m, cs[..n], pods), res) + Limit(cs[n], res, pods)
    ensures m' == Plus(m, cs[..n + 1], pods)
  {
    LimitNamesStep(cs, n);
    forall res | res in m'
      ensures m'[res] == Amount(m, res) + Demand(cs[..n + 1], res, pods)
    {
      assert m'[res] == Amount(m', res);
      DemandStep(cs, n, res, pods);
      if res !in LimitNames(cs[..n]) {
        NoDemandUnnamed(cs[..n], res, pods);
      }
    }
  }

  /** The resource list that `BuildPodGroup` passes down to be added to in place. */
  class ResourceList {
    var amounts: map<string, int>

    constructor ()
      ensures amounts == map[]
    {
      amounts := map[];
    }

    /** Adds one container's limits; the map of limits may be visited in any order. */
    method AddLimits(c: Container, totalPods: int32)
      modifies this
      ensures amounts.Keys == old(amounts.Keys) + c.limits.Keys
      ensures forall res :: Amount(amounts, res) == Amount(old(amounts), res) + Limit(c, res, totalPods)
    {
      var todo := c.limits.Keys;
      while todo != {}
        invariant todo <= c.limits.Keys
        invariant amounts.Keys == old(amounts.Keys) + (c.limits.Keys - todo)
        invariant forall res :: Amount(amounts, res)
                    == Amount(old(amounts), res) + if res in todo then 0 else Limit(c, res, totalPods)
        decreases todo
      {
        var res :| res in todo;
        todo := todo - {res};
        var totalQuantity := Wrap64(RoundAway(c.limits[res]) * totalPods);
        if res in amounts {
          amounts := amounts[res := amounts[res] + totalQuantity];
        } else {
          amounts := amounts[res := totalQuantity];
        }
      }
    }

    method AddRoleResources(role: Role, totalPods: int32)
      modifies this
      ensures amounts == Plus(old(amounts), TemplateContainers(role), totalPods)
    {
      if role.template.None? || !role.template.value.Parsed? {
        assert TemplateContainers(role) == [] && Plus(amounts, [], totalPods) == amounts;
        return;
      }
      var containers := role.template.value.spec.containers;
      assert containers[..0] == [] && Plus(amounts, [], totalPods) == amounts;
      for n := 0 to |containers|
        invariant amounts == Plus(old(amounts), containers[..n], totalPods)
      {
        AddLimits(containers[n], totalPods);
        PlusStep(old(amounts), containers, n, totalPods, amounts);
      }
      assert containers[..|containers|] == containers;
    }
  }

  /** The loop's three results after the given roles. */
  ghost predicate Accumulated(pd: bool, roles: seq<Role>, minMember: int32, tasks: map<string, int32>, amounts: map<string, int>) {
    && minMember == Wrap32(GangPods(pd, roles))
    && tasks == TaskMembers(pd, roles)
    && amounts == MinResources(pd, roles)
  }

  lemma SkipRole(pd: bool, roles: seq<Role>, n: nat, minMember: int32, tasks: map<string, int32>, amounts: map<string, int>)
    requires n < |roles| && !Gang(pd, roles[n])
    requires Accumulated(pd, roles[..n], minMember, tasks, amounts)
    ensures Accumulated(pd, roles[..n + 1], minMember, tasks, amounts)
  {
    PrefixStep(pd, roles, n);
  }

  /** A resource no gang container limits has demand zero. */
  lemma {:induction false} NoGangDemandUnnamed(pd: bool, roles: seq<Role>, res: string)
    requires res !in ResourceNames(pd, roles)
    ensures GangDemand(pd, roles, res) == 0
  {
    if roles != [] {
      var init, r := roles[..|roles| - 1], roles[|roles| - 1];
      NoGangDemandUnnamed(pd, init, res);
      if Gang(pd, r) {
        NoDemandUnnamed(TemplateContainers(r), res, TotalPods(r));
      }
    }
  }

  lemma CountResources(pd: bool, roles: seq<Role>, n: nat)
    requires n < |roles| && Gang(pd, roles[n])
    ensures Plus(MinResources(pd, roles[..n]), TemplateContainers(roles[n]), TotalPods(roles[n]))
            == MinResources(pd, roles[..n + 1])
  {
    var m, cs, pods := MinResources(pd, roles[..n]), TemplateContainers(roles[n]), TotalPods(roles[n]);
    assert m.Keys + LimitNames(cs) == ResourceNames(pd, roles[..n + 1]) by {
      PrefixStep(pd, roles, n);
    }
    forall res | res in ResourceNames(pd, roles[..n + 1])
      ensures Amount(m, res) + Demand(cs, res, pods) == GangDemand(pd, roles[..n + 1], res)
    {
      PrefixStep(pd, roles, n);
      if res !in m {
        NoGangDemandUnnamed(pd, roles[..n], res);
      }
    }
  }

  lemma CountRole(pd: bool, roles: seq<Role>, n: nat, minMember: int32, tasks: map<string, int32>, amounts: map<string, int>)
    requires n < |roles| && Gang(pd, roles[n])
    requires Accumulated(pd, roles[..n], minMember, tasks, amounts)
    ensures var r := roles[n];
            Accumulated(pd, roles[..n + 1],
              Wrap32(minMember + Times(Instances(r), GetNodeCount(r))),
              tasks + RoleTasks(r.name, Instances(r), GetNodeCount(r)),
              Plus(amounts, TemplateContainers(r), TotalPods(r)))
  {
    CountResources(pd, roles, n);
    PrefixStep(pd, roles, n);
    Wrap32Adds(GangPods(pd, roles[..n]), PodsOf(pd, roles[n]));
  }

  lemma NextTask(m: map<string, int32>, roleName: string, n: nat, nodes: int32)
    ensures (m + RoleTasks(roleName, n, nodes))[TaskName(roleName, n) := nodes] == m + RoleTasks(roleName, n + 1, nodes)
  {
  }

  /** The loop over one role's replicas. */
  method AddTasks(role: Role, nodeCount: int32, minMember: int32, minTaskMember: map<string, int32>)
    returns (minMember': int32, minTaskMember': map<string, int32>)
    requires nodeCount >= 0
    ensures minMember' == Wrap32(minMember + Times(Instances(role), nodeCount))
    ensures minTaskMember' == minTaskMember + RoleTasks(role.name, Instances(role), nodeCount)
  {
    minMember', minTaskMember' := minMember, minTaskMember;
    var replicas: int := GetReplicaCount(role);
    var i: int := 0;
    ghost var total: int := minMember;
    while i < replicas
      invariant 0 <= i <= Instances(role)
      invariant minMember' == Wrap32(total) && total == minMember + Times(i, nodeCount)
      invariant minTaskMember' == minTaskMember + RoleTasks(role.name, i, nodeCount)
    {
      NextTask(minTaskMember, role.name, i, nodeCount);
      minTaskMember' := minTaskMember'[TaskName(role.name, i) := nodeCount];
      Wrap32Adds(total, nodeCount);
      minMember' := Wrap32(minMember' + nodeCount);
      total := total + nodeCount;
      i := i + 1;
    }
  }

  lemma AllCounted(pd: bool, roles: seq<Role>, minMember: int32, tasks: map<string, int32>, amounts: map<string, int>)
    requires pd == PDDisaggregated(roles) && Accumulated(pd, roles[..|roles|], minMember, tasks, amounts)
    ensures PodGroupSpec(minMember, tasks, amounts) == PodGroupSpecOf(roles)
  {
    assert roles[..|roles|] == roles;
  }

  method BuildPodGroup(env: Env, svc: InferenceService) returns (pg: Obj)
    ensures pg == PodGroupObj(env, svc)
  {
    ghost var pd := PDDisaggregated(svc.roles);
    var minMember: int32 := 0;
    var minTaskMember: map<string, int32> := map[];
    var minResources := new ResourceList();
    for n := 0 to |svc.roles|
      invariant Accumulated(pd, svc.roles[..n], minMember, minTaskMember, minResources.amounts)
      invariant fresh(minResources)
    {
      var role := svc.roles[n];
      if role.componentType.Router? {
        SkipRole(pd, svc.roles, n, minMember, minTaskMember, minResources.amounts);
        continue;
      }
      var disaggregated := IsPDDisaggregated(svc);
      if !NeedsGangForRole(disaggregated, role) {
        SkipRole(pd, svc.roles, n, minMember, minTaskMember, minResources.amounts);
        continue;
      }
      ghost var member0, tasks0, amounts0 := minMember, minTaskMember, minResources.amounts;
      var replicas, nodeCount := GetReplicaCount(role), GetNodeCount(role);
      minMember, minTaskMember := AddTasks(role, nodeCount, minMember, minTaskMember);
      minResources.AddRoleResources(role, Wrap32(replicas as int * nodeCount as int));
      CountRole(pd, svc.roles, n, member0, tasks0, amounts0);
    }
    AllCounted(pd, svc.roles, minMember, minTaskMember, minResources.amounts);
    var payload := PodGroupPayload(PodGroupSpec(minMember, minTaskMember, minResources.amounts));
    pg := Obj(map[LABEL_SERVICE := svc.name][LABEL_SPEC_HASH := env.hash(payload)], payload);
  }

  /** One more role, for each of the sums the loop keeps. */
  lemma PrefixStep(pd: bool, roles: seq<Role>, n: nat)
    requires n < |roles|
    ensures GangPods(pd, roles[..n + 1]) == GangPods(pd, roles[..n]) + PodsOf(pd, roles[n])
    ensures TaskMembers(pd, roles[..n + 1]) ==
            if Gang(pd, roles[n])
            then TaskMembers(pd, roles[..n]) + RoleTasks(roles[n].name, Instances(roles[n]), GetNodeCount(roles[n]))
            else TaskMembers(pd, roles[..n])
    ensures ResourceNames(pd, roles[..n + 1]) == ResourceNames(pd, roles[..n])
            + if Gang(pd, roles[n]) then LimitNames(TemplateContainers(roles[n])) else {}
    ensures forall res :: GangDemand(pd, roles[..n + 1], res)
              == GangDemand(pd, roles[..n], res) + RoleDemand(pd, roles[n], res)
  {
    assert roles[..n + 1][..n] == roles[..n];
    assert roles[..n + 1] == roles[..n] + [roles[n]];
  }
}
