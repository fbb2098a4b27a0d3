/** What the builders put into the PodGroup and the LeaderWorkerSets of a service, in terms of the
    fields of its spec and of literal names alone. */
module Built {
  import opened Api
  import opened Text
  import opened Scheduling
  import opened Workload
  import opened WorkloadFacts
  import opened PodGroupFacts
  import opened Convergence
  import opened Planning
  import G = Gang

  /* ---- reading a spec ---- */

  /** One replica unless the role says otherwise. */
  function ReplicasAsked(r: Role): nat {
    match r.replicas
    case None => 1
    case Some(n) => if n < 0 then 0 else n
  }

  /** One node unless the role asks for more. */
  function NodesAsked(r: Role): nat {
    match r.nodeCount
    case None => 1
    case Some(n) => if n < 1 then 1 else n
  }

  predicate Has(roles: seq<Role>, c: ComponentType) {
    exists r | r in roles :: r.componentType == c
  }

  /** Who is scheduled as a gang: where there are prefillers and decoders, exactly these; elsewhere every
      role but the router that asks for two nodes or more. */
  predicate TakesPart(roles: seq<Role>, r: Role) {
    && r in roles
    && if Has(roles, Prefiller) && Has(roles, Decoder)
       then r.componentType == Prefiller || r.componentType == Decoder
       else r.componentType != Router && r.nodeCount.Some? && r.nodeCount.value >= 2
  }

  /** Task t is replica i of r. */
  predicate TaskOf(roles: seq<Role>, r: Role, i: nat, t: string) {
    TakesPart(roles, r) && i < ReplicasAsked(r) && t == r.name + "-" + Decimal(i)
  }

  function TemplateOf(r: Role): PodSpec {
    match r.template
    case Some(Parsed(spec)) => spec
    case _ => PodSpec([], "", "")
  }

  function TypeText(c: ComponentType): string {
    match c
    case Router => "router"
    case Prefiller => "prefiller"
    case Decoder => "decoder"
    case Worker => "worker"
  }

  lemma PartIff(roles: seq<Role>, r: Role)
    ensures TakesPart(roles, r) <==> r in roles && Gang(PDDisaggregated(roles), r)
  {
    assert PDDisaggregated(roles) <==> Has(roles, Prefiller) && Has(roles, Decoder);
  }

  lemma CountsAsked(r: Role)
    ensures Instances(r) == ReplicasAsked(r) && GetNodeCount(r) == NodesAsked(r)
    ensures MultiNode(r) <==> NodesAsked(r) >= 2
  {
  }

  lemma TaskIff(roles: seq<Role>, r: Role, i: nat, t: string)
    ensures TaskOf(roles, r, i, t) <==> IsTask(PDDisaggregated(roles), roles, r, i, t)
  {
    PartIff(roles, r);
    CountsAsked(r);
  }

  /* ---- the PodGroup ---- */

  /** The tasks are the replicas of the roles that take part, each with its role's node count; minMember
      is their sum up to 32-bit wrap-around; the labels are the service and the hash. */
  lemma PodGroupMeans(env: Env, svc: InferenceService, t: string)
    requires DistinctNames(svc.roles)
    ensures var o := PodGroupObj(env, svc);
            && o.payload.PodGroupPayload?
            && o.labels == map["fusioninfer.io/service" := svc.name, "fusioninfer.io/spec-hash" := env.hash(o.payload)]
            && var spec := o.payload.podGroup;
            && (t in spec.minTaskMember <==> exists r, i: nat :: TaskOf(svc.roles, r, i, t))
            && (forall r, i: nat | TaskOf(svc.roles, r, i, t) :: t in spec.minTaskMember && spec.minTaskMember[t] == NodesAsked(r))
            && (spec.minMember - SumValues(spec.minTaskMember)) % 0x1_0000_0000 == 0
  {
    TasksMean(svc.roles, t);
    MinMemberWraps(svc.roles);
  }

  lemma TasksMean(roles: seq<Role>, t: string)
    requires DistinctNames(roles)
    ensures var m := PodGroupSpecOf(roles).minTaskMember;
            && (t in m <==> exists r, i: nat :: TaskOf(roles, r, i, t))
            && (forall r, i: nat | TaskOf(roles, r, i, t) :: t in m && m[t] == NodesAsked(r))
  {
    var pd := PDDisaggregated(roles);
    TaskMembersSpec(pd, roles, t);
    forall r, i: nat
      ensures TaskOf(roles, r, i, t) <==> IsTask(pd, roles, r, i, t)
      ensures GetNodeCount(r) == NodesAsked(r)
    {
      TaskIff(roles, r, i, t);
      CountsAsked(r);
    }
    if r, i :| IsTask(pd, roles, r, i, t) {
      assert TaskOf(roles, r, i, t);
    }
  }

  lemma MinMemberWraps(roles: seq<Role>)
    requires DistinctNames(roles)
    ensures var spec := PodGroupSpecOf(roles); (spec.minMember - SumValues(spec.minTaskMember)) % 0x1_0000_0000 == 0
  {
    MinMemberCountsTasks(roles);
    WrapIsCongruent(GangPods(PDDisaggregated(roles), roles));
  }

  lemma WrapIsCongruent(x: int)
    ensures (Wrap32(x) - x) % 0x1_0000_0000 == 0
  {
    var q := (x + TWO_31) / TWO_32;
    assert Wrap32(x) - x == TWO_32 * -q;
  }

  lemma Wrap64IsCongruent(x: int)
    ensures (Wrap64(x) - x) % 0x1_0000_0000_0000_0000 == 0
  {
    var q := (x + TWO_63) / TWO_64;
    assert Wrap64(x) - x == TWO_64 * -q;
  }

  /** A service wants a PodGroup, under its own name, exactly if some role takes part. */
  lemma PodGroupWanted(env: Env, svc: InferenceService, k: Key)
    requires AllBuildable(svc.roles) && k.kind.PodGroupKind?
    ensures k in PlanOf(env, svc).desired
            <==> k == Key(PodGroupKind, svc.ns, svc.name) && exists r :: TakesPart(svc.roles, r)
    ensures k in PlanOf(env, svc).desired ==> PlanOf(env, svc).desired[k] == PodGroupObj(env, svc)
  {
    PlanSpec(env, svc, k);
    forall r
      ensures TakesPart(svc.roles, r) <==> r in svc.roles && Gang(PDDisaggregated(svc.roles), r)
    {
      PartIff(svc.roles, r);
    }
    if r :| TakesPart(svc.roles, r) {
      assert NeedsGang(svc.roles);
    }
  }

  /** One prefiller of two nodes and two decoders of four: three tasks and ten members. */
  lemma DisaggregatedExample(prefill: Role, decode: Role)
    requires prefill.name == "prefill" && prefill.componentType == Prefiller && prefill.replicas == Some(1) && prefill.nodeCount == Some(2)
    requires decode.name == "decode" && decode.componentType == Decoder && decode.replicas == Some(2) && decode.nodeCount == Some(4)
    ensures var spec := PodGroupSpecOf([prefill, decode]);
            && spec.minMember == 10
            && spec.minTaskMember == map["prefill-0" := 2, "decode-0" := 4, "decode-1" := 4]
  {
    var roles := [prefill, decode];
    assert prefill in roles && decode in roles;
    assert PDDisaggregated(roles);
    ExampleMembers(prefill, decode, roles);
    ExampleTasks(prefill, decode, roles);
  }

  lemma ExampleMembers(prefill: Role, decode: Role, roles: seq<Role>)
    requires roles == [prefill, decode] && prefill.componentType == Prefiller && decode.componentType == Decoder
    requires prefill.replicas == Some(1) && prefill.nodeCount == Some(2) && decode.replicas == Some(2) && decode.nodeCount == Some(4)
    ensures GangPods(true, roles) == 10
  {
    assert roles[..0] == [] && roles[..1] == [prefill] && roles[..2] == roles;
    PrefixStep(true, roles, 0);
    PrefixStep(true, roles, 1);
  }

  lemma ExampleTasks(prefill: Role, decode: Role, roles: seq<Role>)
    requires roles == [prefill, decode] && prefill.componentType == Prefiller && decode.componentType == Decoder
    requires prefill.name == "prefill" && prefill.replicas == Some(1) && prefill.nodeCount == Some(2)
    requires decode.name == "decode" && decode.replicas == Some(2) && decode.nodeCount == Some(4)
    ensures TaskMembers(true, roles) == map["prefill-0" := 2, "decode-0" := 4, "decode-1" := 4]
  {
    assert roles[..0] == [] && roles[..1] == [prefill] && roles[..2] == roles;
    PrefixStep(true, roles, 0);
    PrefixStep(true, roles, 1);
    PrefillTasks();
    DecodeTasks();
    JoinedTasks(RoleTasks("prefill", 1, 2), RoleTasks("decode", 2, 4));
  }

  lemma JoinedTasks(a: map<string, int32>, b: map<string, int32>)
    requires a == map["prefill-0" := 2] && b == map["decode-0" := 4, "decode-1" := 4]
    ensures map[] + a + b == map["prefill-0" := 2, "decode-0" := 4, "decode-1" := 4]
  {
  }

  lemma PrefillTasks()
    ensures RoleTasks("prefill", 1, 2) == map["prefill-0" := 2]
  {
    assert TaskName("prefill", 0) == "prefill-0";
  }

  lemma DecodeTasks()
    ensures RoleTasks("decode", 2, 4) == map["decode-0" := 4, "decode-1" := 4]
  {
    assert TaskName("decode", 0) == "decode-0" && TaskName("decode", 1) == "decode-1";
    assert RoleTasks("decode", 1, 4) == map["decode-0" := 4];
  }

  /* ---- a LeaderWorkerSet ---- */

  /** What replica i of a role is made of: always one replica, of as many pods as the role has nodes; its
      own labels, also on its pods; the gang's annotations and scheduler exactly if the role takes part;
      and the rest of the template. A single pod keeps the template's containers. */
  lemma ReplicaMeans(env: Env, svc: InferenceService, role: Role, i: nat)
    requires role in svc.roles && role.IsWorkload() && Buildable(role)
    ensures var o := ReplicaObj(env, svc, role, i);
            && o.payload.LwsPayload?
            && o.labels == map["fusioninfer.io/service" := svc.name, "fusioninfer.io/component-type" := TypeText(role.componentType),
                               "fusioninfer.io/role-name" := role.name, "fusioninfer.io/replica-index" := Decimal(i),
                               "fusioninfer.io/spec-hash" := SpecHash(o)]
            && var lws := o.payload.lws;
            && lws.replicas == 1 && lws.size == NodesAsked(role)
            && lws.worker.labels == o.labels
            && lws.worker.annotations ==
                 (if TakesPart(svc.roles, role) && svc.name != ""
                  then map["scheduling.k8s.io/group-name" := svc.name, "volcano.sh/task-spec" := role.name + "-" + Decimal(i)]
                  else map[])
            && lws.worker.spec.schedulerName == (if TakesPart(svc.roles, role) then "volcano" else TemplateOf(role).schedulerName)
            && lws.worker.spec.rest == TemplateOf(role).rest
            && (lws.leader.Some? <==> NodesAsked(role) >= 2)
            && (lws.leader.None? ==> lws.worker.spec.containers == TemplateOf(role).containers)
  {
    PartIff(svc.roles, role);
    CountsAsked(role);
    var cfg := ConfigOf(svc, role, i);
    ReplicaLabelsMean(env, svc, role, i);
    PlainMeans(svc, role, cfg);
    assert LwsSpecOf(svc, role, cfg).replicas == PlainSpec(svc, role, cfg).replicas;
    GangAnnotations(svc, role, i);
  }

  lemma BaseLabelsMean(svc: InferenceService, role: Role, cfg: LwsConfig, i: nat)
    requires cfg.replicaIndex == Some(i)
    ensures BaseLabels(svc, role, cfg) ==
            map["fusioninfer.io/service" := svc.name, "fusioninfer.io/component-type" := TypeText(role.componentType),
                "fusioninfer.io/role-name" := role.name, "fusioninfer.io/replica-index" := Decimal(i)]
  {
  }

  lemma HashAdded(base: Labels, o: Obj, h: string)
    requires o.labels == base[LABEL_SPEC_HASH := h]
    ensures o.labels == base["fusioninfer.io/spec-hash" := SpecHash(o)]
  {
  }

  lemma ReplicaLabelsMean(env: Env, svc: InferenceService, role: Role, i: nat)
    requires Buildable(role)
    ensures var o := ReplicaObj(env, svc, role, i);
            o.labels == map["fusioninfer.io/service" := svc.name, "fusioninfer.io/component-type" := TypeText(role.componentType),
                            "fusioninfer.io/role-name" := role.name, "fusioninfer.io/replica-index" := Decimal(i),
                            "fusioninfer.io/spec-hash" := SpecHash(o)]
  {
    var cfg := ConfigOf(svc, role, i);
    BaseLabelsMean(svc, role, cfg, i);
    HashAdded(BaseLabels(svc, role, cfg), ReplicaObj(env, svc, role, i), env.hash(LwsPayload(LwsSpecOf(svc, role, cfg))));
  }

  lemma PlainMeans(svc: InferenceService, role: Role, cfg: LwsConfig)
    requires cfg.replicaIndex.Some?
    ensures var spec := PlainSpec(svc, role, cfg);
            && spec.replicas == 1 && spec.size == NodesAsked(role) && spec.worker.annotations == Annotations(cfg)
            && spec.worker.spec.schedulerName == (if cfg.needsGang then "volcano" else TemplateOf(role).schedulerName)
            && spec.worker.spec.rest == TemplateOf(role).rest && spec.worker.spec.containers == TemplateOf(role).containers
  {
  }

  lemma GangAnnotations(svc: InferenceService, role: Role, i: nat)
    requires role in svc.roles && role.IsWorkload()
    ensures ConfigOf(svc, role, i).needsGang <==> TakesPart(svc.roles, role)
    ensures Annotations(ConfigOf(svc, role, i)) ==
            if TakesPart(svc.roles, role) && svc.name != ""
            then map["scheduling.k8s.io/group-name" := svc.name, "volcano.sh/task-spec" := role.name + "-" + Decimal(i)]
            else map[]
  {
    PartIff(svc.roles, role);
  }

  /** Without a replica index a set has the role's own replica count. */
  lemma WithoutIndex(svc: InferenceService, role: Role, podGroupName: string, taskName: string, needsGang: bool)
    requires Buildable(role)
    ensures LwsSpecOf(svc, role, LwsConfig(podGroupName, taskName, needsGang, None)).replicas
            == if role.replicas.Some? then role.replicas.value else 1
  {
  }

  /** The sets a service wants: one for each replica of each role but the router, under these names. */
  lemma ReplicaWanted(env: Env, svc: InferenceService, k: Key)
    requires Admissible(svc) && k.kind.LwsKind?
    ensures k in PlanOf(env, svc).desired <==> exists r, i: nat :: IsSetOf(svc, r, i, k)
    ensures forall r, i: nat | IsSetOf(svc, r, i, k) ::
              Buildable(r) && k in PlanOf(env, svc).desired && PlanOf(env, svc).desired[k] == ReplicaObj(env, svc, r, i)
  {
    PlanSpec(env, svc, k);
    DesiredLwsKeys(env, svc, svc.roles, k);
    forall r, i: nat | IsSetOf(svc, r, i, k)
      ensures Buildable(r) && k in PlanOf(env, svc).desired && PlanOf(env, svc).desired[k] == ReplicaObj(env, svc, r, i)
    {
      SetIff(svc, r, i, k);
      DesiredLwsAt(env, svc, svc.roles, r, i);
    }
    if r, i :| IsReplica(svc, svc.roles, r, i, k) {
      SetIff(svc, r, i, k);
    }
  }

  lemma SetIff(svc: InferenceService, r: Role, i: nat, k: Key)
    ensures IsSetOf(svc, r, i, k) <==> IsReplica(svc, svc.roles, r, i, k)
  {
    CountsAsked(r);
    assert LwsName(svc.name, r.name, Some(i)) == svc.name + "-" + r.name + "-" + Decimal(i);
  }

  predicate IsSetOf(svc: InferenceService, r: Role, i: nat, k: Key) {
    r in svc.roles && r.componentType != Router && i < ReplicasAsked(r)
    && k == Key(LwsKind, svc.ns, svc.name + "-" + r.name + "-" + Decimal(i))
  }

  /* ---- the pods of a role, stored ---- */

  /** The pods that the set at k asks for. */
  function PodsAt(s: Store, k: Key): int {
    if k in s && s[k].payload.LwsPayload? then s[k].payload.lws.replicas as int * s[k].payload.lws.size as int else 0
  }

  ghost function PodsIn(s: Store, keys: set<Key>): int {
    if keys == {} then 0 else
      var k :| k in keys;
      PodsAt(s, k) + PodsIn(s, keys - {k})
  }

  lemma {:induction false} PodsAlike(s: Store, keys: set<Key>, pods: nat)
    requires forall k | k in keys :: PodsAt(s, k) == pods
    ensures PodsIn(s, keys) == Times(|keys|, pods)
  {
    if keys != {} {
      var k :| k in keys && PodsIn(s, keys) == PodsAt(s, k) + PodsIn(s, keys - {k});
      PodsAlike(s, keys - {k}, pods);
    }
  }

  function SetKeys(svc: InferenceService, roleName: string, n: nat): set<Key> {
    if n == 0 then {} else SetKeys(svc, roleName, n - 1) + {LwsKey(svc, roleName, n - 1)}
  }

  lemma {:induction false} SetKeysMean(svc: InferenceService, roleName: string, n: nat, k: Key)
    ensures k in SetKeys(svc, roleName, n) <==> exists i: nat :: i < n && k == LwsKey(svc, roleName, i)
  {
    if n > 0 {
      SetKeysMean(svc, roleName, n - 1, k);
    }
  }

  lemma {:induction false} SetKeysCount(svc: InferenceService, roleName: string, n: nat)
    ensures |SetKeys(svc, roleName, n)| == n
  {
    if n > 0 {
      var k := LwsKey(svc, roleName, n - 1);
      SetKeysCount(svc, roleName, n - 1);
      SetKeysMean(svc, roleName, n - 1, k);
      if i: nat :| i < n - 1 && k == LwsKey(svc, roleName, i) {
        LwsNameInjective(svc.name, roleName, n - 1, roleName, i);
      }
    }
  }

  /** The stored sets of a role. */
  function SetsOf(svc: InferenceService, s: Store, roleName: string): set<Key> {
    set k | k in s && MatchesLabels(s, k, svc.ns, svc.name, roleName)
  }

  /** The values of the tasks name-0 to name-(n-1). */
  function TaskSum(m: map<string, int32>, roleName: string, n: nat): int {
    if n == 0 then 0
    else
      var t := roleName + "-" + Decimal(n - 1);
      TaskSum(m, roleName, n - 1) + if t in m then m[t] else 0
  }

  lemma {:induction false} TasksAlike(m: map<string, int32>, roleName: string, n: nat, nodes: nat)
    requires forall i: nat | i < n :: roleName + "-" + Decimal(i) in m && m[roleName + "-" + Decimal(i)] == nodes
    ensures TaskSum(m, roleName, n) == Times(n, nodes)
  {
    if n > 0 {
      TasksAlike(m, roleName, n - 1, nodes);
    }
  }

  /** After an error-free pass the stored sets of a role are as many as it asks for replicas, and together
      they ask for its replicas times its nodes in pods. */
  lemma RolePods(env: Env, svc: InferenceService, s0: Store, log: seq<Entry>, role: Role)
    requires Admissible(svc) && Named(svc.ns, svc.name, s0) && G.CleanPass(env, svc, s0, log)
    requires role in svc.roles && role.IsWorkload()
    requires forall k: Key | k.kind.LwsKind? :: !Collides(PlanOf(env, svc), s0, k)
    ensures var s := Last(s0, log);
            var sets := SetsOf(svc, s, role.name);
            && |sets| == ReplicasAsked(role)
            && (forall k | k in sets :: PodsAt(s, k) == NodesAsked(role))
            && PodsIn(s, sets) == ReplicasAsked(role) * NodesAsked(role)
  {
    var s, n := Last(s0, log), ReplicasAsked(role);
    var sets := SetsOf(svc, s, role.name);
    CountsAsked(role);
    SetKeysCount(svc, role.name, n);
    forall k
      ensures k in sets <==> k in SetKeys(svc, role.name, n)
      ensures k in sets ==> PodsAt(s, k) == NodesAsked(role)
    {
      StoredSet(env, svc, s0, log, role, k);
      SetKeysMean(svc, role.name, n, k);
    }
    assert sets == SetKeys(svc, role.name, n);
    PodsAlike(s, sets, NodesAsked(role));
  }

  lemma StoredSet(env: Env, svc: InferenceService, s0: Store, log: seq<Entry>, role: Role, k: Key)
    requires Admissible(svc) && Named(svc.ns, svc.name, s0) && G.CleanPass(env, svc, s0, log)
    requires role in svc.roles && role.IsWorkload() && (k.kind.LwsKind? ==> !Collides(PlanOf(env, svc), s0, k))
    ensures var s := Last(s0, log);
            && (k in SetsOf(svc, s, role.name) <==> exists i: nat :: i < ReplicasAsked(role) && k == LwsKey(svc, role.name, i))
            && (k in SetsOf(svc, s, role.name) ==> PodsAt(s, k) == NodesAsked(role))
  {
    CountsAsked(role);
    if k.kind.LwsKind? {
      G.ServiceRolesCompose(env, svc, s0, log, role, k);
      if i: nat :| i < Instances(role) && k == LwsKey(svc, role.name, i) {
        G.ReplicaInstalled(env, svc, s0, log, role, i);
        ReplicaMeans(env, svc, role, i);
      }
    }
  }

  /** For a role that takes part in the gang, that is the sum of its values in the stored PodGroup. */
  lemma GangRolePods(env: Env, svc: InferenceService, s0: Store, log: seq<Entry>, role: Role)
    requires Admissible(svc) && Named(svc.ns, svc.name, s0) && G.CleanPass(env, svc, s0, log)
    requires TakesPart(svc.roles, role)
    requires forall k: Key | k.kind.LwsKind? || k == PodGroupKey(svc) :: !Collides(PlanOf(env, svc), s0, k)
    ensures var s, g := Last(s0, log), Key(PodGroupKind, svc.ns, svc.name);
            && g in s && s[g].payload.PodGroupPayload?
            && PodsIn(s, SetsOf(svc, s, role.name)) == TaskSum(s[g].payload.podGroup.minTaskMember, role.name, ReplicasAsked(role))
  {
    PartIff(svc.roles, role);
    RolePods(env, svc, s0, log, role);
    G.PodGroupInstalled(env, svc, s0, log, role);
    RoleTaskSum(svc, role);
  }

  lemma RoleTaskSum(svc: InferenceService, role: Role)
    requires DistinctNames(svc.roles) && TakesPart(svc.roles, role)
    ensures TaskSum(PodGroupSpecOf(svc.roles).minTaskMember, role.name, ReplicasAsked(role)) == ReplicasAsked(role) * NodesAsked(role)
  {
    var m, n := PodGroupSpecOf(svc.roles).minTaskMember, ReplicasAsked(role);
    forall i: nat | i < n
      ensures role.name + "-" + Decimal(i) in m && m[role.name + "-" + Decimal(i)] == NodesAsked(role)
    {
      TasksMean(svc.roles, role.name + "-" + Decimal(i));
      assert TaskOf(svc.roles, role, i, role.name + "-" + Decimal(i));
    }
    TasksAlike(m, role.name, n, NodesAsked(role));
  }
}
