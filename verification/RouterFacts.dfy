/** What a service's router objects say: their names, labels and contents in literal terms, that they refer to
    one another, and which pods the pool and the EPP Service select. */
module RouterFacts {
  import opened Api
  import opened Text
  import opened Scheduling
  import opened Workload
  import opened Router
  import opened Planning
  import opened Built

  /** A label selector matches labels that have all of its entries. */
  predicate Selects(selector: Labels, labels: Labels) {
    forall l | l in selector :: l in labels && labels[l] == selector[l]
  }

  /* ---- which objects ---- */

  function RouterSet(ns: string, name: string): set<Key> {
    {Key(ServiceAccountKind, ns, name + "-epp"), Key(RoleKind, ns, name + "-epp"), Key(RoleBindingKind, ns, name + "-epp"),
     Key(ConfigMapKind, ns, name + "-epp-config"), Key(DeploymentKind, ns, name + "-epp"), Key(ServiceKind, ns, name + "-epp"),
     Key(InferencePoolKind, ns, name + "-pool"), Key(HttpRouteKind, ns, name + "-httproute")}
  }

  lemma RouterSetIff(svc: InferenceService, k: Key)
    ensures k in RouterSet(svc.ns, svc.name) <==> IsRouterKind(k.kind) && k == RouterKey(svc, k.kind)
  {
  }

  lemma HasRouterIff(roles: seq<Role>)
    ensures HasRouter(roles) <==> Has(roles, ComponentType.Router)
  {
    if HasRouter(roles) {
      var r :| r in roles && r.componentType.Router?;
      assert r.componentType == ComponentType.Router;
    }
    if Has(roles, ComponentType.Router) {
      var r :| r in roles && r.componentType == ComponentType.Router;
      assert r.componentType.Router?;
    }
  }

  /** Beside PodGroup and sets a service wants these eight objects if it has a router role, and no other. */
  lemma RouterWanted(env: Env, svc: InferenceService, k: Key)
    requires AllBuildable(svc.roles) && !k.kind.PodGroupKind? && !k.kind.LwsKind?
    ensures k in PlanOf(env, svc).desired <==> Has(svc.roles, ComponentType.Router) && k in RouterSet(svc.ns, svc.name)
  {
    PlanSpec(env, svc, k);
    RouterSetIff(svc, k);
    HasRouterIff(svc.roles);
  }

  /* ---- what they say ---- */

  /** The EndpointPickerConfig: the user's own, or the text of the strategy. Disaggregation needs both a
      prefiller and a decoder, and what is left gets the prefix cache. */
  ghost predicate IsConfig(env: Env, svc: InferenceService, role: Role, config: string) {
    if role.endpointPickerConfig != "" then config == role.endpointPickerConfig
    else if role.strategy == "kv-cache-utilization" then config == env.eppConfigText("kv-cache-utilization")
    else if role.strategy == "queue-size" then config == env.eppConfigText("queue-size")
    else if role.strategy == "lora-affinity" then config == env.eppConfigText("lora-affinity")
    else if role.strategy == "pd-disaggregation" && Has(svc.roles, Prefiller) && Has(svc.roles, Decoder)
    then config == env.eppConfigText("pd-disaggregation")
    else config == env.eppConfigText("prefix-cache")
  }

  lemma ConfigMeans(env: Env, svc: InferenceService, role: Role)
    ensures IsConfig(env, svc, role, EppConfig(env, svc, role))
  {
    DisaggregatedIff(svc.roles);
  }

  lemma DisaggregatedIff(roles: seq<Role>)
    ensures PDDisaggregated(roles) <==> Has(roles, Prefiller) && Has(roles, Decoder)
  {
    assert forall r | r in roles :: (r.componentType == Prefiller <==> r.componentType.Prefiller?)
                                    && (r.componentType == Decoder <==> r.componentType.Decoder?);
  }

  /** The labels of each: the service and the hash of its content, that of a ServiceAccount being constant;
      the Deployment also has its app name. */
  lemma LabelsMean(env: Env, svc: InferenceService, role: Role, workers: seq<Role>, kind: Kind)
    requires IsRouterKind(kind)
    ensures var o := RouterObj(env, svc, role, workers, kind);
            && (kind.ServiceAccountKind? ==>
                  o.labels == map["fusioninfer.io/service" := svc.name, "fusioninfer.io/spec-hash" := "static"])
            && (kind.DeploymentKind? ==>
                  o.labels == map["app" := svc.name + "-epp", "fusioninfer.io/service" := svc.name,
                                  "fusioninfer.io/spec-hash" := env.hash(o.payload)])
            && (!kind.ServiceAccountKind? && !kind.DeploymentKind? ==>
                  o.labels == map["fusioninfer.io/service" := svc.name, "fusioninfer.io/spec-hash" := env.hash(o.payload)])
  {
  }

  /** The content of each, in the service's name and namespace. */
  ghost predicate IsRouterPayload(env: Env, svc: InferenceService, role: Role, kind: Kind, p: Payload) {
    var epp, pool := svc.name + "-epp", svc.name + "-pool";
    match kind
    case ServiceAccountKind => p.ServiceAccountPayload?
    case RoleKind => p.RolePayload?
    case RoleBindingKind => p.RoleBindingPayload? && p.roleRef == epp && p.subjectName == epp && p.subjectNs == svc.ns
    case ConfigMapKind => p.ConfigMapPayload? && IsConfig(env, svc, role, p.config)
    case DeploymentKind =>
      && p.DeploymentPayload? && p.selector == map["app" := epp, "fusioninfer.io/service" := svc.name]
      && p.template == EppTemplate(p.selector, epp, env.eppImage, pool, svc.ns, svc.name + "-epp-config")
    case ServiceKind => p.ServicePayload? && p.serviceType == "ClusterIP" && p.selector == map["app" := epp]
    case InferencePoolKind => p.InferencePoolPayload? && p.picker == epp && IsPoolSelector(svc, p.matchLabels)
    case HttpRouteKind =>
      && p.HttpRoutePayload? && p.backend == pool
      && p.userSpec == (match role.httpRoute case Some(spec) => spec case None => "")
    case _ => false
  }

  lemma PayloadMeans(env: Env, svc: InferenceService, role: Role, kind: Kind)
    requires IsRouterKind(kind)
    ensures IsRouterPayload(env, svc, role, kind, RouterObj(env, svc, role, WorkloadRoles(svc.roles), kind).payload)
  {
    ConfigMeans(env, svc, role);
    SelectorMeans(svc);
  }

  /** What the plan holds for a router kind. */
  lemma RouterMeans(env: Env, svc: InferenceService, role: Role, k: Key)
    requires Admissible(svc) && role in svc.roles && role.componentType == ComponentType.Router
    requires k in RouterSet(svc.ns, svc.name)
    ensures k in PlanOf(env, svc).desired && IsRouterPayload(env, svc, role, k.kind, PlanOf(env, svc).desired[k].payload)
  {
    assert role.componentType.Router? && HasRouter(svc.roles);
    OnlyRouter(svc.roles, role);
    RouterSetIff(svc, k);
    PlanSpec(env, svc, k);
    PayloadMeans(env, svc, role, k.kind);
  }

  lemma OnlyRouter(roles: seq<Role>, role: Role)
    requires OneRouter(roles) && role in roles && role.componentType.Router?
    ensures HasRouter(roles) && RouterOf(roles) == role
  {
    var i :| 0 <= i < |roles| && roles[i] == role;
    var j :| 0 <= j < |roles| && roles[j] == RouterOf(roles);
  }

  /* ---- they fit together ---- */

  /** Every object that o names is among the given ones, and a Deployment selects its own pods. */
  predicate Wired(keys: set<Key>, ns: string, o: Obj) {
    match o.payload
    case RoleBindingPayload(role, subject, subjectNs) =>
      Key(RoleKind, ns, role) in keys && Key(ServiceAccountKind, subjectNs, subject) in keys
    case DeploymentPayload(selector, t) =>
      && selector == t.labels
      && Key(ServiceAccountKind, ns, t.serviceAccount) in keys && Key(ConfigMapKind, ns, t.configMap) in keys
      && Key(InferencePoolKind, t.poolNs, t.poolName) in keys
    case InferencePoolPayload(_, picker) => Key(ServiceKind, ns, picker) in keys
    case HttpRoutePayload(_, backend) => Key(InferencePoolKind, ns, backend) in keys
    case _ => true
  }

  lemma PayloadWired(env: Env, svc: InferenceService, role: Role, kind: Kind, o: Obj)
    requires IsRouterPayload(env, svc, role, kind, o.payload)
    ensures Wired(RouterSet(svc.ns, svc.name), svc.ns, o)
  {
  }

  /** Whatever a router object of the plan refers to is in the plan. */
  lemma RouterWired(env: Env, svc: InferenceService, k: Key)
    requires Admissible(svc) && k in PlanOf(env, svc).desired && k in RouterSet(svc.ns, svc.name)
    ensures RouterSet(svc.ns, svc.name) <= PlanOf(env, svc).desired.Keys
    ensures Wired(RouterSet(svc.ns, svc.name), k.ns, PlanOf(env, svc).desired[k])
  {
    RouterSetIff(svc, k);
    RouterWanted(env, svc, k);
    var role :| role in svc.roles && role.componentType == ComponentType.Router;
    RouterMeans(env, svc, role, k);
    PayloadWired(env, svc, role, k.kind, PlanOf(env, svc).desired[k]);
    forall k' | k' in RouterSet(svc.ns, svc.name)
      ensures k' in PlanOf(env, svc).desired
    {
      RouterMeans(env, svc, role, k');
    }
  }

  /* ---- which pods are selected ---- */

  /** The role at i is the only one that is not a router. */
  predicate OnlyWorkload(roles: seq<Role>, i: nat) {
    && i < |roles| && roles[i].componentType != ComponentType.Router
    && forall j | 0 <= j < |roles| && j != i :: roles[j].componentType == ComponentType.Router
  }

  lemma {:induction false} NoWorkload(roles: seq<Role>)
    ensures WorkloadRoles(roles) == [] <==> forall j | 0 <= j < |roles| :: roles[j].componentType == ComponentType.Router
  {
    if roles != [] {
      var front := roles[..|roles| - 1];
      NoWorkload(front);
      assert roles == front + [roles[|roles| - 1]];
    }
  }

  lemma {:induction false} SingleWorkload(roles: seq<Role>)
    ensures |WorkloadRoles(roles)| == 1 ==> exists i :: OnlyWorkload(roles, i)
    ensures forall i: nat | OnlyWorkload(roles, i) :: WorkloadRoles(roles) == [roles[i]]
  {
    if roles != [] {
      var n, front := |roles| - 1, roles[..|roles| - 1];
      SingleWorkload(front);
      NoWorkload(front);
      if |WorkloadRoles(roles)| == 1 {
        if roles[n].IsWorkload() {
          assert OnlyWorkload(roles, n);
        } else {
          var i :| OnlyWorkload(front, i);
          assert OnlyWorkload(roles, i);
        }
      }
      forall i: nat | OnlyWorkload(roles, i)
        ensures WorkloadRoles(roles) == [roles[i]]
      {
        assert i < n ==> OnlyWorkload(front, i) && roles[n].componentType == ComponentType.Router;
      }
    }
  }

  /** The pool selects by service and worker index 0, and by component type if there is one worker role. */
  ghost predicate IsPoolSelector(svc: InferenceService, selector: Labels) {
    && (forall i: nat | OnlyWorkload(svc.roles, i) ::
          selector == map["fusioninfer.io/service" := svc.name, "leaderworkerset.sigs.k8s.io/worker-index" := "0",
                          "fusioninfer.io/component-type" := TypeText(svc.roles[i].componentType)])
    && ((forall i: nat :: !OnlyWorkload(svc.roles, i)) ==>
          selector == map["fusioninfer.io/service" := svc.name, "leaderworkerset.sigs.k8s.io/worker-index" := "0"])
  }

  lemma SelectorMeans(svc: InferenceService)
    ensures IsPoolSelector(svc, PoolSelector(svc, WorkloadRoles(svc.roles)))
  {
    SingleWorkload(svc.roles);
  }

  /** The labels of pod number index of a set: those of its template, and its index from the LeaderWorkerSet controller. */
  function PodLabels(template: Labels, index: nat): Labels {
    template["leaderworkerset.sigs.k8s.io/worker-index" := Decimal(index)]
  }

  lemma ZeroPrinted(n: nat)
    ensures Decimal(n) == "0" <==> n == 0
  {
    DecimalRoundTrip(n);
    DecimalRoundTrip(0);
  }

  lemma SelectsLeaders(svc: InferenceService, role: Role, labels: Labels, selector: Labels, index: nat)
    requires role in svc.roles && role.componentType != ComponentType.Router && IsPoolSelector(svc, selector)
    requires "fusioninfer.io/service" in labels && labels["fusioninfer.io/service"] == svc.name
    requires "fusioninfer.io/component-type" in labels
    requires labels["fusioninfer.io/component-type"] == TypeText(role.componentType)
    ensures Selects(selector, PodLabels(labels, index)) <==> index == 0
  {
    ZeroPrinted(index);
    assert "leaderworkerset.sigs.k8s.io/worker-index" in selector;
    var j :| 0 <= j < |svc.roles| && svc.roles[j] == role;
    if k: nat :| OnlyWorkload(svc.roles, k) {
      assert j == k;
    }
  }

  /** Of the pods of a service's own sets the pool selects the leaders, */
  lemma PoolSelectsLeaders(env: Env, svc: InferenceService, role: Role, i: nat, index: nat)
    requires role in svc.roles && role.IsWorkload() && Buildable(role)
    ensures Selects(PoolSelector(svc, WorkloadRoles(svc.roles)), PodLabels(ReplicaObj(env, svc, role, i).labels, index))
            <==> index == 0
  {
    SelectorMeans(svc);
    ReplicaLabelsMean(env, svc, role, i);
    SelectsLeaders(svc, role, ReplicaObj(env, svc, role, i).labels, PoolSelector(svc, WorkloadRoles(svc.roles)), index);
  }

  /** and no pod of another service. */
  lemma PoolSelectsOwn(env: Env, svc: InferenceService, other: InferenceService, role: Role, i: nat, index: nat)
    requires role in other.roles && role.IsWorkload() && Buildable(role) && other.name != svc.name
    ensures !Selects(PoolSelector(svc, WorkloadRoles(svc.roles)), PodLabels(ReplicaObj(env, other, role, i).labels, index))
  {
    SelectorMeans(svc);
    ReplicaLabelsMean(env, other, role, i);
    assert "fusioninfer.io/service" in PoolSelector(svc, WorkloadRoles(svc.roles));
  }

  /** The EPP Service selects the pods of the same service's Deployment and of no other's. */
  lemma ServiceSelectsIff(env: Env, svc: InferenceService, other: InferenceService, role: Role, role': Role,
                          service: Payload, deployment: Payload)
    requires IsRouterPayload(env, svc, role, ServiceKind, service)
    requires IsRouterPayload(env, other, role', DeploymentKind, deployment)
    ensures Selects(service.selector, deployment.template.labels) <==> svc.name == other.name
  {
    var a, b := svc.name + "-epp", other.name + "-epp";
    assert a[..|svc.name|] == svc.name && b[..|other.name|] == other.name;
    assert "app" in service.selector && |a| == |svc.name| + 4 && |b| == |other.name| + 4;
  }
}
