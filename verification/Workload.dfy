/** Building a LeaderWorkerSet from a role (pkg/workload/lws.go). */
module Workload {
  import opened Api
  import opened Text
  import opened Scheduling

  const VOLCANO_SCHEDULER := "volcano"
  const RAY_HEAD_PORT: int32 := 6379
  const RAY_HEAD := "ray start --head --port=6379 &&"
  const RAY_WORKER := "ray start --address=$LWS_LEADER_ADDRESS:6379 --block"
  const BACKEND_FLAG := "distributed-executor-backend"

  datatype LwsConfig = LwsConfig(podGroupName: string, taskName: string, needsGang: bool, replicaIndex: Option<nat>)

  /** `GenerateLWSNameWithIndex`. */
  function LwsName(svcName: string, roleName: string, replicaIndex: Option<nat>): string {
    svcName + "-" + roleName + if replicaIndex.Some? then "-" + Decimal(replicaIndex.value) else ""
  }

  /** For one service, (role, index) to name is injective. */
  lemma LwsNameInjective(svcName: string, r: string, i: nat, r': string, i': nat)
    requires LwsName(svcName, r, Some(i)) == LwsName(svcName, r', Some(i'))
    ensures r == r' && i == i'
  {
    var a, b := svcName + "-" + r, svcName + "-" + r';
    assert LwsName(svcName, r, Some(i)) == a + "-" + Decimal(i);
    assert LwsName(svcName, r', Some(i')) == b + "-" + Decimal(i');
    DashedInjective(a, i, b, i');
    assert r == a[|svcName| + 1..] == b[|svcName| + 1..] == r';
  }

  /** Two services have a name in common, for some roles and indices of each, exactly when one
      service's name with a dash behind it begins the other's. */
  lemma NamesSharedIff(a: string, b: string)
    ensures (exists r, r', i: nat, j: nat :: LwsName(a, r, Some(i)) == LwsName(b, r', Some(j)))
            <==> a + "-" <= b + "-" || b + "-" <= a + "-"
  {
    if r, r', i: nat, j: nat :| LwsName(a, r, Some(i)) == LwsName(b, r', Some(j)) {
      SharedNamePrefix(a, b, r, i, LwsName(b, r', Some(j)));
      SharedNamePrefix(b, a, r', j, LwsName(a, r, Some(i)));
    }
    if a + "-" <= b + "-" {
      var r, r' := NamesMeet(a, b);
    } else if b + "-" <= a + "-" {
      var r', r := NamesMeet(b, a);
    }
  }

  lemma SharedNamePrefix(a: string, b: string, r: string, i: nat, name: string)
    requires name == LwsName(a, r, Some(i))
    ensures a + "-" <= name
    ensures b + "-" <= name && |a| <= |b| ==> a + "-" <= b + "-"
  {
    assert name == a + "-" + (r + "-" + Decimal(i));
    assert b + "-" <= name && |a| <= |b| ==> (a + "-") == name[..|a| + 1] == (b + "-")[..|a| + 1];
  }

  /** The role of b that is called x has the names of the role of a that is called rest-x. */
  lemma NamesMeet(a: string, b: string) returns (r: string, r': string)
    requires a + "-" <= b + "-"
    ensures LwsName(a, r, Some(0)) == LwsName(b, r', Some(0))
  {
    r, r' := (b + "-")[|a| + 1..] + "x", "x";
    assert a + "-" + (b + "-")[|a| + 1..] == b + "-";
    assert a + "-" + r == b + "-" + r';
  }

  /** For instance, services `a` and `a-b` can want the same object. */
  lemma LwsNameSharedAcrossServices()
    ensures LwsName("a", "b-c", Some(0)) == LwsName("a-b", "c", Some(0))
  {
    assert "a" + "-" + "b-c" == "a-b" + "-" + "c";
  }

  /* ---- the built value ---- */

  function BaseLabels(svc: InferenceService, role: Role, cfg: LwsConfig): Labels {
    map[LABEL_SERVICE := svc.name, LABEL_COMPONENT_TYPE := role.componentType.Text(), LABEL_ROLE_NAME := role.name]
    + if cfg.replicaIndex.Some? then map[LABEL_REPLICA_INDEX := Decimal(cfg.replicaIndex.value)] else map[]
  }

  function Annotations(cfg: LwsConfig): Labels {
    if cfg.needsGang && cfg.podGroupName != "" then
      map[ANNOTATION_GROUP_NAME := cfg.podGroupName]
      + if cfg.taskName != "" then map[ANNOTATION_TASK_SPEC := cfg.taskName] else map[]
    else map[]
  }

  /** `buildPodSpec`: an absent or unparsable template is an empty pod spec. */
  function PodSpecOf(role: Role, needsGang: bool): PodSpec {
    var spec := if role.template.Some? && role.template.value.Parsed? then role.template.value.spec else PodSpec([], "", "");
    if needsGang then spec.(schedulerName := VOLCANO_SCHEDULER) else spec
  }

  function LeaderLine(command: seq<string>, args: seq<string>): string {
    var originalCmd := if Join(command, " ") == "" then "vllm serve" else Join(command, " ");
    var originalArgs := Join(args, " ");
    var flags := if Contains(originalArgs, BACKEND_FLAG) then "" else "--distributed-executor-backend ray";
    RAY_HEAD + " " + originalCmd + " " + originalArgs + " " + flags
  }

  function LeaderContainer(c: Container): Container {
    c.(command := ["/bin/sh", "-c"],
       args := [LeaderLine(c.command, c.args)],
       ports := c.ports + [ContainerPort("ray-head", RAY_HEAD_PORT)],
       readinessProbe := if c.readinessProbe.None? then Some(TcpProbe(RAY_HEAD_PORT, 10, 10, 5, 1, 6)) else c.readinessProbe)
  }

  function WorkerContainer(c: Container): Container {
    c.(command := ["/bin/sh", "-c"], args := [RAY_WORKER])
  }

  function OnFirst(spec: PodSpec, wrapped: Container): PodSpec
    requires spec.containers != []
  {
    spec.(containers := spec.containers[0 := wrapped])
  }

  /** What the source demands of a role: a multi-node role has a container to wrap. */
  predicate Buildable(role: Role) {
    MultiNode(role) ==> TemplateContainers(role) != []
  }

  /** Before the leader is split off. */
  function PlainSpec(svc: InferenceService, role: Role, cfg: LwsConfig): LwsSpec {
    LwsSpec(if cfg.replicaIndex.None? && role.replicas.Some? then role.replicas.value else 1,
            GetNodeCount(role),
            PodTemplate(BaseLabels(svc, role, cfg), Annotations(cfg), PodSpecOf(role, cfg.needsGang)),
            None)
  }

  /** Multi-node: both templates keep the plain one but for a differently wrapped container 0. */
  function Split(spec: LwsSpec): LwsSpec
    requires spec.worker.spec.containers != []
  {
    var first := spec.worker.spec.containers[0];
    spec.(worker := spec.worker.(spec := OnFirst(spec.worker.spec, WorkerContainer(first))),
          leader := Some(spec.worker.(spec := OnFirst(spec.worker.spec, LeaderContainer(first)))))
  }

  /** The spec the hash is computed over. */
  function LwsSpecOf(svc: InferenceService, role: Role, cfg: LwsConfig): LwsSpec
    requires Buildable(role)
  {
    if MultiNode(role) then Split(PlainSpec(svc, role, cfg)) else PlainSpec(svc, role, cfg)
  }

  function Stamp(t: PodTemplate, h: string): PodTemplate {
    t.(labels := t.labels[LABEL_SPEC_HASH := h])
  }

  /** The spec once the hash has been written into the one shared label map. */
  function StampSpec(spec: LwsSpec, h: string): LwsSpec {
    spec.(worker := Stamp(spec.worker, h),
          leader := if spec.leader.Some? then Some(Stamp(spec.leader.value, h)) else None)
  }

  function LwsObj(env: Env, svc: InferenceService, role: Role, cfg: LwsConfig): Obj
    requires Buildable(role)
  {
    var spec := LwsSpecOf(svc, role, cfg);
    var h := env.hash(LwsPayload(spec));
    Obj(BaseLabels(svc, role, cfg)[LABEL_SPEC_HASH := h], LwsPayload(StampSpec(spec, h)))
  }

  /* ---- building it in the heap ---- */

  /** A Go map of strings, shared by reference. */
  class LabelMap {
    var m: Labels

    constructor ()
      ensures m == map[]
    {
      m := map[];
    }

    method Put(k: string, v: string)
      modifies this
      ensures m == old(m)[k := v]
    {
      m := m[k := v];
    }
  }

  /** A pod spec with its own backing array of containers. */
  class PodSpecObject {
    const containers: array<Container>
    const rest: string
    var schedulerName: string

    /** A deep copy of the template's spec: a fresh object over a fresh array. */
    constructor (spec: PodSpec)
      ensures Value() == spec && fresh(containers)
    {
      var cs := spec.containers;
      containers := new Container[|cs|](i requires 0 <= i < |cs| => cs[i]);
      rest, schedulerName := spec.rest, spec.schedulerName;
      new;
      assert containers[..] == spec.containers;
    }

    function Value(): PodSpec
      reads this, containers
    {
      PodSpec(containers[..], schedulerName, rest)
    }
  }

  class PodTemplateObject {
    const labels: LabelMap
    const annotations: LabelMap
    const spec: PodSpecObject

    constructor (labels: LabelMap, annotations: LabelMap, spec: PodSpecObject)
      ensures this.labels == labels && this.annotations == annotations && this.spec == spec
    {
      this.labels, this.annotations, this.spec := labels, annotations, spec;
    }

    ghost function Parts(): set<object> {
      {labels, annotations, spec, spec.containers}
    }

    function Value(): PodTemplate
      reads Parts()
    {
      PodTemplate(labels.m, annotations.m, spec.Value())
    }
  }

  class LwsObject {
    const ns: string
    const name: string
    const labels: LabelMap
    const replicas: int32
    const size: int32
    const worker: PodTemplateObject
    var leader: PodTemplateObject?

    constructor (ns: string, name: string, labels: LabelMap, replicas: int32, size: int32, worker: PodTemplateObject)
      ensures this.ns == ns && this.name == name && this.labels == labels
      ensures this.replicas == replicas && this.size == size && this.worker == worker && leader == null
    {
      this.ns, this.name, this.labels := ns, name, labels;
      this.replicas, this.size, this.worker, this.leader := replicas, size, worker, null;
    }

    ghost function Footprint(): set<object>
      reads this
    {
      {this, labels} + worker.Parts() + if leader == null then {} else leader.Parts()
    }

    function Spec(): LwsSpec
      reads Footprint()
    {
      LwsSpec(replicas, size, worker.Value(), if leader == null then None else Some(leader.Value()))
    }

    function Object(): Obj
      reads Footprint()
    {
      Obj(labels.m, LwsPayload(Spec()))
    }

    /** Object, worker-template and leader-template labels are one and the same map. */
    ghost predicate LabelsAliased()
      reads this
    {
      worker.labels == labels && (leader != null ==> leader.labels == labels)
    }

    ghost predicate LabelsApart()
      reads this
    {
      worker.annotations != labels && (leader != null ==> leader.annotations != labels)
    }

    /** One write to the object's labels shows in both pod templates. */
    method SetHashLabel(h: string)
      requires LabelsAliased() && LabelsApart()
      modifies labels
      ensures Object() == Obj(old(labels.m)[LABEL_SPEC_HASH := h], LwsPayload(StampSpec(old(Spec()), h)))
    {
      labels.Put(LABEL_SPEC_HASH, h);
    }

    /** Leader and worker pods share no mutable pod spec and no container array. */
    ghost predicate PodsDisjoint()
      reads this
    {
      leader != null ==> leader.spec != worker.spec && leader.spec.containers != worker.spec.containers
    }
  }

  method BuildPodSpec(role: Role, needsGang: bool) returns (spec: PodSpecObject)
    ensures fresh(spec) && fresh(spec.containers) && spec.Value() == PodSpecOf(role, needsGang)
  {
    var parsed := PodSpec([], "", "");
    if role.template.Some? && role.template.value.Parsed? {
      parsed := role.template.value.spec;
    }
    spec := new PodSpecObject(parsed);
    if needsGang {
      spec.schedulerName := VOLCANO_SCHEDULER;
    }
  }

  /** Both wrappers rewrite the container at position k where it stands. */
  method WrapLeaderContainer(cs: array<Container>, k: nat)
    requires k < cs.Length
    modifies cs
    ensures cs[..] == old(cs[..])[k := LeaderContainer(old(cs[k]))]
  {
    var c := cs[k];
    var originalCmd, originalArgs := Join(c.command, " "), Join(c.args, " ");
    if originalCmd == "" {
      originalCmd := "vllm serve";
    }
    var flags := "";
    if !Contains(originalArgs, BACKEND_FLAG) {
      flags := "--distributed-executor-backend ray";
    }
    cs[k] := cs[k].(command := ["/bin/sh", "-c"]);
    cs[k] := cs[k].(args := [RAY_HEAD + " " + originalCmd + " " + originalArgs + " " + flags]);
    AddRayHeadPort(cs, k);
    if cs[k].readinessProbe.None? {
      cs[k] := cs[k].(readinessProbe := Some(TcpProbe(RAY_HEAD_PORT, 10, 10, 5, 1, 6)));
    }
  }

  method AddRayHeadPort(cs: array<Container>, k: nat)
    requires k < cs.Length
    modifies cs
    ensures cs[..] == old(cs[..])[k := old(cs[k]).(ports := old(cs[k]).ports + [ContainerPort("ray-head", RAY_HEAD_PORT)])]
  {
    cs[k] := cs[k].(ports := cs[k].ports + [ContainerPort("ray-head", RAY_HEAD_PORT)]);
  }

  method WrapWorkerContainer(cs: array<Container>, k: nat)
    requires k < cs.Length
    modifies cs
    ensures cs[..] == old(cs[..])[k := WorkerContainer(old(cs[k]))]
  {
    cs[k] := cs[k].(command := ["/bin/sh", "-c"], args := [RAY_WORKER]);
  }

  method BuildLabels(svc: InferenceService, role: Role, cfg: LwsConfig) returns (labels: LabelMap)
    ensures fresh(labels) && labels.m == BaseLabels(svc, role, cfg)
  {
    labels := new LabelMap();
    labels.Put(LABEL_SERVICE, svc.name);
    labels.Put(LABEL_COMPONENT_TYPE, role.componentType.Text());
    labels.Put(LABEL_ROLE_NAME, role.name);
    if cfg.replicaIndex.Some? {
      labels.Put(LABEL_REPLICA_INDEX, Decimal(cfg.replicaIndex.value));
    }
  }

  method BuildAnnotations(cfg: LwsConfig) returns (annotations: LabelMap)
    ensures fresh(annotations) && annotations.m == Annotations(cfg)
  {
    annotations := new LabelMap();
    if cfg.needsGang && cfg.podGroupName != "" {
      annotations.Put(ANNOTATION_GROUP_NAME, cfg.podGroupName);
      if cfg.taskName != "" {
        annotations.Put(ANNOTATION_TASK_SPEC, cfg.taskName);
      }
    }
  }

  /** The multi-node case: a separate leader template over the same labels and annotations, with
      each side's first container wrapped in its own array. */
  method SplitLeader(lws: LwsObject, role: Role, needsGang: bool)
    requires lws.leader == null && lws.worker.spec.containers.Length > 0
    requires lws.worker.spec.Value() == PodSpecOf(role, needsGang)
    modifies lws, lws.worker.spec.containers
    ensures lws.leader != null && fresh(lws.leader) && fresh(lws.leader.spec) && fresh(lws.leader.spec.containers)
    ensures lws.leader.labels == lws.worker.labels && lws.leader.annotations == lws.worker.annotations
    ensures lws.Spec() == Split(old(lws.Spec()))
  {
    var leaderPodSpec := BuildPodSpec(role, needsGang);
    assert leaderPodSpec.containers[..] == lws.worker.spec.containers[..];
    WrapLeaderContainer(leaderPodSpec.containers, 0);
    WrapWorkerContainer(lws.worker.spec.containers, 0);
    lws.leader := new PodTemplateObject(lws.worker.labels, lws.worker.annotations, leaderPodSpec);
  }

  /** Everything up to the worker template. */
  method BuildPlain(svc: InferenceService, role: Role, cfg: LwsConfig) returns (lws: LwsObject)
    ensures fresh(lws) && fresh(lws.labels) && fresh(lws.worker.Parts()) && lws.leader == null
    ensures lws.ns == svc.ns && lws.name == LwsName(svc.name, role.name, cfg.replicaIndex)
    ensures lws.labels.m == BaseLabels(svc, role, cfg) && lws.Spec() == PlainSpec(svc, role, cfg)
    ensures lws.LabelsAliased() && lws.LabelsApart()
  {
    var lwsName := LwsName(svc.name, role.name, cfg.replicaIndex);
    var size: int32 := 1;
    if role.nodeCount.Some? && role.nodeCount.value >= 1 {
      size := role.nodeCount.value;
    }
    var replicas: int32 := 1;
    if cfg.replicaIndex.None? && role.replicas.Some? {
      replicas := role.replicas.value;
    }
    var labels := BuildLabels(svc, role, cfg);
    var annotations := BuildAnnotations(cfg);
    var workerPodSpec := BuildPodSpec(role, cfg.needsGang);
    var workerTemplate := new PodTemplateObject(labels, annotations, workerPodSpec);
    lws := new LwsObject(svc.ns, lwsName, labels, replicas, size, workerTemplate);
  }

  /** `BuildLWS`. */
  method BuildLWS(env: Env, svc: InferenceService, role: Role, cfg: LwsConfig) returns (lws: LwsObject)
    requires Buildable(role)
    ensures fresh(lws.Footprint())
    ensures lws.ns == svc.ns && lws.name == LwsName(svc.name, role.name, cfg.replicaIndex)
    ensures lws.Object() == LwsObj(env, svc, role, cfg)
    ensures lws.LabelsAliased() && lws.PodsDisjoint()
  {
    lws := BuildPlain(svc, role, cfg);
    if MultiNode(role) {
      SplitLeader(lws, role, cfg.needsGang);
    }
    var specHash := env.hash(LwsPayload(lws.Spec()));
    lws.SetHashLabel(specHash);
  }
}
