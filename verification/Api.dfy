/** The objects the controller reads and writes, as values. A field that the code only
    copies (volumes, images, raw route text) is carried along as an uninterpreted string. */
module Api {

  datatype Option<+T> = None | Some(value: T)

  /* ---- machine integers ---- */

  const TWO_31: int := 0x8000_0000
  const TWO_32: int := 0x1_0000_0000
  const TWO_63: int := 0x8000_0000_0000_0000
  const TWO_64: int := 0x1_0000_0000_0000_0000

  type int32 = x: int | -TWO_31 <= x < TWO_31
  type int64 = x: int | -TWO_63 <= x < TWO_63

  /** The 32-bit two's complement value of x. */
  function Wrap32(x: int): int32 {
    (x + TWO_31) % TWO_32 - TWO_31
  }

  /** The 64-bit two's complement value of x. */
  function Wrap64(x: int): int64 {
    (x + TWO_63) % TWO_64 - TWO_63
  }

  /* ---- labels and annotations ---- */

  const LABEL_SERVICE := "fusioninfer.io/service"
  const LABEL_COMPONENT_TYPE := "fusioninfer.io/component-type"
  const LABEL_ROLE_NAME := "fusioninfer.io/role-name"
  const LABEL_REPLICA_INDEX := "fusioninfer.io/replica-index"
  const LABEL_SPEC_HASH := "fusioninfer.io/spec-hash"
  const ANNOTATION_GROUP_NAME := "scheduling.k8s.io/group-name"
  const ANNOTATION_TASK_SPEC := "volcano.sh/task-spec"

  type Labels = map<string, string>

  /** Indexing a Go map of strings: the empty string when the key is absent. */
  function Lookup(m: Labels, k: string): string {
    if k in m then m[k] else ""
  }

  /* ---- the InferenceService ---- */

  datatype ComponentType = Router | Prefiller | Decoder | Worker {
    function Text(): string {
      match this
      case Router => "router"
      case Prefiller => "prefiller"
      case Decoder => "decoder"
      case Worker => "worker"
    }
  }

  datatype ContainerPort = ContainerPort(name: string, port: int32)

  /** The probe the leader gets by default, or whatever the user wrote. */
  datatype Probe =
    | TcpProbe(port: int32, initialDelay: int32, period: int32, timeout: int32, success: int32, failure: int32)
    | UserProbe(text: string)

  datatype Container = Container(
    name: string, image: string, command: seq<string>, args: seq<string>,
    ports: seq<ContainerPort>, readinessProbe: Option<Probe>, limits: map<string, real>)

  datatype PodSpec = PodSpec(containers: seq<Container>, schedulerName: string, rest: string)

  /** A raw extension: no bytes, bytes that do not parse, or a parsed pod spec. */
  datatype RawTemplate = NoBytes | Malformed | Parsed(spec: PodSpec)

  datatype Role = Role(
    name: string, componentType: ComponentType,
    strategy: string, httpRoute: Option<string>, endpointPickerConfig: string,
    replicas: Option<int32>, nodeCount: Option<int32>, template: Option<RawTemplate>)
  {
    /** The three component types that get LeaderWorkerSets. */
    predicate IsWorkload() {
      !componentType.Router?
    }
  }

  datatype InferenceService = InferenceService(ns: string, name: string, generation: int, roles: seq<Role>)

  /* ---- owned objects ---- */

  datatype PodGroupSpec = PodGroupSpec(
    minMember: int32, minTaskMember: map<string, int32>, minResources: map<string, int>)

  datatype PodTemplate = PodTemplate(labels: Labels, annotations: Labels, spec: PodSpec)

  datatype LwsSpec = LwsSpec(replicas: int32, size: int32, worker: PodTemplate, leader: Option<PodTemplate>)

  /** The part of an owned object that its builder fills and its hash covers. */
  datatype Payload =
    | PodGroupPayload(podGroup: PodGroupSpec)
    | LwsPayload(lws: LwsSpec)
    | ServiceAccountPayload
    | RolePayload
    | RoleBindingPayload(roleRef: string, subjectName: string, subjectNs: string)
    | ConfigMapPayload(config: string)
    | DeploymentPayload(selector: Labels, template: EppTemplate)
    | ServicePayload(serviceType: string, selector: Labels)
    | InferencePoolPayload(matchLabels: Labels, picker: string)
    | HttpRoutePayload(userSpec: string, backend: string)

  datatype EppTemplate = EppTemplate(
    labels: Labels, serviceAccount: string, image: string, poolName: string, poolNs: string, configMap: string)

  datatype Kind =
    | PodGroupKind | LwsKind | ServiceAccountKind | RoleKind | RoleBindingKind
    | ConfigMapKind | DeploymentKind | ServiceKind | InferencePoolKind | HttpRouteKind

  datatype Key = Key(kind: Kind, ns: string, name: string)

  datatype Obj = Obj(labels: Labels, payload: Payload)

  type Store = map<Key, Obj>

  /** What the code calls but whose text is not part of this model: the spec hash, the EPP image
      taken from the process environment, and the literal EndpointPickerConfig texts. */
  datatype Env = Env(hash: Payload -> string, eppImage: string, eppConfigText: string -> string)

  function SpecHash(o: Obj): string {
    Lookup(o.labels, LABEL_SPEC_HASH)
  }
}
