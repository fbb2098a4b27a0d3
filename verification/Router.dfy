/** The eight router objects as functions of the service (pkg/router). Fields that are the same
    literal for every service are not carried. */
module Router {
  import opened Api
  import opened Scheduling

  const WORKER_INDEX_LABEL := "leaderworkerset.sigs.k8s.io/worker-index"

  function EppName(svcName: string): string {
    svcName + "-epp"
  }

  function RouterName(svcName: string, kind: Kind): string {
    match kind
    case ConfigMapKind => svcName + "-epp-config"
    case InferencePoolKind => svcName + "-pool"
    case HttpRouteKind => svcName + "-httproute"
    case _ => EppName(svcName)
  }

  predicate IsRouterKind(kind: Kind) {
    !kind.PodGroupKind? && !kind.LwsKind?
  }

  function RouterKey(svc: InferenceService, kind: Kind): Key {
    Key(kind, svc.ns, RouterName(svc.name, kind))
  }

  /** Which literal EndpointPickerConfig a strategy selects; the default is prefix-cache, also for
      pd-disaggregation without both a prefiller and a decoder. */
  function ConfigStrategy(svc: InferenceService, strategy: string): string {
    if strategy in {"kv-cache-utilization", "queue-size", "lora-affinity"} then strategy
    else if strategy == "pd-disaggregation" && PDDisaggregated(svc.roles) then strategy
    else "prefix-cache"
  }

  function EppConfig(env: Env, svc: InferenceService, role: Role): string {
    if role.endpointPickerConfig != "" then role.endpointPickerConfig
    else env.eppConfigText(ConfigStrategy(svc, role.strategy))
  }

  function WorkloadRoles(roles: seq<Role>): seq<Role> {
    if roles == [] then []
    else WorkloadRoles(roles[..|roles| - 1]) + if roles[|roles| - 1].IsWorkload() then [roles[|roles| - 1]] else []
  }

  function PoolSelector(svc: InferenceService, workerRoles: seq<Role>): Labels {
    map[LABEL_SERVICE := svc.name]
    + (if |workerRoles| == 1 then map[LABEL_COMPONENT_TYPE := workerRoles[0].componentType.Text()] else map[])
    + map[WORKER_INDEX_LABEL := "0"]
  }

  function AppLabels(svc: InferenceService): Labels {
    map["app" := EppName(svc.name), LABEL_SERVICE := svc.name]
  }

  function RouterPayload(env: Env, svc: InferenceService, role: Role, workerRoles: seq<Role>, kind: Kind): Payload {
    match kind
    case RoleKind => RolePayload
    case RoleBindingKind => RoleBindingPayload(EppName(svc.name), EppName(svc.name), svc.ns)
    case ConfigMapKind => ConfigMapPayload(EppConfig(env, svc, role))
    case DeploymentKind =>
      DeploymentPayload(AppLabels(svc),
        EppTemplate(AppLabels(svc), EppName(svc.name), env.eppImage, RouterName(svc.name, InferencePoolKind), svc.ns,
                    RouterName(svc.name, ConfigMapKind)))
    case ServiceKind => ServicePayload("ClusterIP", map["app" := EppName(svc.name)])
    case InferencePoolKind => InferencePoolPayload(PoolSelector(svc, workerRoles), EppName(svc.name))
    case HttpRouteKind =>
      HttpRoutePayload(if role.httpRoute.Some? then role.httpRoute.value else "", RouterName(svc.name, InferencePoolKind))
    case _ => ServiceAccountPayload
  }

  /** Metadata labels: the service and the hash, for a Deployment also its app name; the hash of a
      ServiceAccount is a constant. */
  function RouterObj(env: Env, svc: InferenceService, role: Role, workerRoles: seq<Role>, kind: Kind): Obj {
    var payload := RouterPayload(env, svc, role, workerRoles, kind);
    var base := if kind.DeploymentKind? then AppLabels(svc) else map[LABEL_SERVICE := svc.name];
    Obj(base[LABEL_SPEC_HASH := if kind.ServiceAccountKind? then "static" else env.hash(payload)], payload)
  }
}
