/** The custom resources and the operator configuration. `None` stands for a Go nil slice, map or
    pointer, `Some([])` for an explicitly empty list: the code tells them apart with
    reflect.DeepEqual, and the API server drops the explicit ones (`omitempty`). */
module Types {
  import opened Wrappers
  import opened EnvList
  import opened Difference

  // --------------------------------------------------------------------------
  // Annotations. A value is plain text or the JSON text of a list: marshalling and unmarshalling
  // are the constructor and its inverse, and a text of another kind does not unmarshal.

  datatype AnnotationKey =
    | EnvGenerated | BootEnvs | BootPvcs | BootDeployPvcs | BootImages | RestartedAt
    | WorkloadKey | DeployKey | ServicesKey | AppTypeKey | StatusAvailable | StatusDesired
    | RevisionKey | ProfileKey | OtherKey(text: string)

  datatype Annotation =
    | Plain(text: string)
    | EnvJson(envs: Option<Envs>)
    | PvcJson(pvcs: Option<seq<PvcMount>>)
    | MountJson(mounts: Option<seq<VolumeMount>>)

  type Annotations = map<AnnotationKey, Annotation>

  const NO_TEXT: Annotation := Plain("")

  /** A missing key reads as the empty string. */
  function Read(annotations: Annotations, key: AnnotationKey): Annotation {
    if key in annotations then annotations[key] else NO_TEXT
  }

  // --------------------------------------------------------------------------
  // Boot.

  datatype PvcMount = PvcMount(name: string, readOnly: bool, mountPath: string)

  datatype ResourceName = Cpu | Memory | OtherResource(name: string)

  type Quantities = map<ResourceName, nat>

  type Labels = map<string, string>

  /** `Unset` is the empty string. */
  datatype Workload = Unset | Deployment | StatefulSet | OtherWorkload(name: string)

  datatype Hpa = Hpa(enable: bool, minReplicas: Option<int>, maxReplicas: Option<int>, metrics: seq<MetricSpec>)

  datatype BootSpec = BootSpec(
    image: string,
    version: string,
    replicas: Option<int>,
    env: Option<Envs>,
    port: int,
    subDomain: string,
    health: Option<string>,
    readiness: Option<string>,
    prometheus: string,
    limits: Option<Quantities>,
    requests: Option<Quantities>,
    nodeSelector: Option<Labels>,
    command: Option<seq<string>>,
    sessionAffinity: string,
    nodePort: string,
    pvc: Option<seq<PvcMount>>,
    priority: string,
    workload: Workload,
    hpa: Option<Hpa>)

  datatype BootStatus = BootStatus(
    services: string,
    workload: Workload,
    hpaReplicas: int,
    selector: string,
    replicas: int,
    currentReplicas: int,
    readyReplicas: int,
    revision: string)

  datatype BootType = Java | Php | Python | NodeJS | Web

  datatype Boot = Boot(
    name: string,
    namespace: string,
    bootType: BootType,
    spec: BootSpec,
    annotations: Annotations,
    status: BootStatus)

  /** The elements of a slice, nil or not. */
  function Elements<T>(list: Option<seq<T>>): seq<T> {
    if list.Some? then list.value else []
  }

  /** The quantity of a resource; a missing one reads as zero. */
  function Quantity(list: Option<Quantities>, name: ResourceName): nat {
    if list.Some? && name in list.value then list.value[name] else 0
  }

  predicate IsEmptyMap<K, V>(m: Option<map<K, V>>) {
    m.None? || |m.value| == 0
  }

  // --------------------------------------------------------------------------
  // What the API server keeps of an object written by the operator: empty lists and maps are
  // not part of the JSON text and come back as nil.

  function DropEmptyList<T>(list: Option<seq<T>>): Option<seq<T>> {
    if list.Some? && |list.value| == 0 then None else list
  }

  function DropEmptyMap<K, V>(m: Option<map<K, V>>): Option<map<K, V>> {
    if IsEmptyMap(m) then None else m
  }

  function StoredSpec(spec: BootSpec): BootSpec {
    spec.(env := DropEmptyList(spec.env),
          limits := DropEmptyMap(spec.limits),
          requests := DropEmptyMap(spec.requests),
          nodeSelector := DropEmptyMap(spec.nodeSelector),
          command := DropEmptyList(spec.command),
          pvc := DropEmptyList(spec.pvc))
  }

  /** The boot as the API server returns it after the operator has written it. */
  function Stored(boot: Boot): Boot {
    boot.(spec := StoredSpec(boot.spec))
  }

  /** No list or map of the spec is explicitly empty. */
  predicate JsonNormal(spec: BootSpec) {
    spec == StoredSpec(spec)
  }

  // --------------------------------------------------------------------------
  // Pod templates.

  datatype ContainerPort = ContainerPort(name: string, port: int, protocol: string)

  datatype Probe = Probe(path: string, port: int, failureThreshold: int, initialDelaySeconds: int)

  datatype Container = Container(
    name: string,
    image: string,
    env: Option<Envs>,
    ports: seq<ContainerPort>,
    limits: Option<Quantities>,
    requests: Option<Quantities>,
    liveness: Option<Probe>,
    readiness: Option<Probe>,
    command: Option<seq<string>>,
    mounts: seq<VolumeMount>)

  datatype Volume = Volume(name: string, claim: Option<string>, readOnly: bool)

  datatype PodTemplate = PodTemplate(
    labels: Labels,
    containers: seq<Container>,
    nodeSelector: Option<Labels>,
    priority: string,
    annotations: Annotations,
    volumes: seq<Volume>)

  // --------------------------------------------------------------------------
  // Configuration.

  /** What the configuration may set on the app container; empty values set nothing. */
  datatype ContainerConfig = ContainerConfig(
    image: string,
    env: Envs,
    ports: seq<ContainerPort>,
    limits: Quantities,
    requests: Quantities,
    liveness: Option<Probe>,
    readiness: Option<Probe>,
    command: seq<string>,
    mounts: seq<VolumeMount>)

  datatype PodConfig = PodConfig(
    containers: seq<Container>,
    nodeSelector: Labels,
    priority: string,
    volumes: seq<Volume>)

  datatype Config = Config(
    port: int,
    replicas: int,
    health: string,
    env: Envs,
    limits: Quantities,
    requests: Quantities,
    nodeSelector: Labels,
    subDomain: string,
    podSpec: Option<PodConfig>,
    container: Option<ContainerConfig>,
    registry: string,
    appHealthPort: int,
    prometheusScrape: Option<bool>,
    sidecars: seq<Container>,
    operEnv: string)

  function ConfigMounts(cfg: Config): seq<VolumeMount> {
    if cfg.container.Some? then cfg.container.value.mounts else []
  }

  /** Both cpu and memory are given, or nothing at all. */
  predicate CompleteOrEmpty(m: Quantities) {
    |m| == 0 || (Quantity(Some(m), Cpu) > 0 && Quantity(Some(m), Memory) > 0)
  }

  /** The part of a well-formed configuration that the defaulter depends on. */
  predicate DefaultsWellFormed(cfg: Config) {
    && CompleteOrEmpty(cfg.limits)
    && CompleteOrEmpty(cfg.requests)
    && (forall k :: k in cfg.nodeSelector ==> cfg.nodeSelector[k] != "")
    && cfg.replicas >= 1
  }

  /** The container and pod parts of the configuration leave alone what the boot decides. */
  predicate OverridesWellFormed(cfg: Config) {
    && (cfg.container.Some? ==>
          var c := cfg.container.value;
          c.image == "" && c.env == [] && c.ports == [] && |c.limits| == 0 && |c.requests| == 0
          && c.liveness.None? && c.readiness.None? && c.command == [])
    && (cfg.podSpec.Some? ==>
          var p := cfg.podSpec.value;
          p.containers == [] && |p.nodeSelector| == 0 && p.priority == "")
  }

  ghost predicate WellFormedConfig(cfg: Config) {
    && DefaultsWellFormed(cfg)
    && OverridesWellFormed(cfg)
    && UniqueNames(cfg.env)
    && cfg.health != ""
    && cfg.prometheusScrape.Some?
  }
}
