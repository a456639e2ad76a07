/** The data the controller works on: the LinstorCSIDriver resource, the Kubernetes
    objects it synthesizes, and the constants and functions it takes from other packages. */
module Api {
  import opened Wrappers

  /** A namespaced name, the address of an object in the store. */
  datatype Key = Key(namespace: string, name: string)

  /** The client configuration of the resource; only the HTTPS client secret matters here. */
  datatype ClientConfig = ClientConfig(httpsClientSecret: string)

  datatype Toleration = Toleration(key: string, operator: string, value: string, effect: string)

  /** One pod (anti-)affinity term: pods matching these labels, grouped by this topology key. */
  datatype PodAffinityTerm = PodAffinityTerm(matchLabels: map<string, string>, topologyKey: string)

  /** The scheduling rules of a pod, reduced to their required parts. */
  datatype Affinity = Affinity(
    requiredPodAntiAffinity: seq<PodAffinityTerm>,
    requiredPodAffinity: seq<PodAffinityTerm>,
    requiredNodeSelectorTerms: seq<map<string, string>>)

  /** Resource limits and requests of a container. */
  datatype Resources = Resources(limits: map<string, string>, requests: map<string, string>)

  /** The zero value of Resources, which a container gets when none are set. */
  const NoResources := Resources(map[], map[])

  /** The desired state declared by the user. */
  datatype DriverSpec = DriverSpec(
    linstorPluginImage: string,
    csiAttacherImage: string,
    csiLivenessProbeImage: string,
    csiNodeDriverRegistrarImage: string,
    csiProvisionerImage: string,
    csiSnapshotterImage: string,
    csiResizerImage: string,
    controllerEndpoint: string,
    clientConfig: ClientConfig,
    csiNodeServiceAccountName: string,
    csiControllerServiceAccountName: string,
    kubeletPath: string,
    imagePullSecret: string,
    imagePullPolicy: string,
    priorityClassName: string,
    controllerReplicas: Option<int>,
    enableTopology: bool,
    nodeAffinity: Option<Affinity>,
    nodeTolerations: seq<Toleration>,
    controllerAffinity: Option<Affinity>,
    controllerTolerations: seq<Toleration>,
    resources: Resources)

  /** The observed state the controller reports. */
  datatype DriverStatus = DriverStatus(nodeReady: bool, controllerReady: bool, errors: seq<string>)

  /** A LinstorCSIDriver resource as a value: what the builders read. */
  datatype Resource = Resource(name: string, namespace: string, spec: DriverSpec, status: DriverStatus) {
    function Id(): Key { Key(namespace, name) }
  }

  /** The in-memory copy of a LinstorCSIDriver that one reconciliation fetches and then
      updates in place: first its spec (environment overrides, defaults), then its status. */
  class LinstorCSIDriver {
    const name: string
    const namespace: string
    var spec: DriverSpec
    var status: DriverStatus

    constructor (key: Key, spec: DriverSpec, status: DriverStatus)
      ensures Value() == Resource(key.name, key.namespace, spec, status)
    {
      this.name := key.name;
      this.namespace := key.namespace;
      this.spec := spec;
      this.status := status;
    }

    function Id(): Key { Key(namespace, name) }

    function Value(): (r: Resource)
      reads this
      ensures r.Id() == Id()
    {
      Resource(name, namespace, spec, status)
    }
  }

  // ---- Kubernetes objects, reduced to the fields the controller sets ----

  datatype ObjectMeta = ObjectMeta(name: string, namespace: string, labels: map<string, string>)

  /** Where an environment variable takes its value from. */
  datatype EnvSource = Literal(value: string) | FieldRef(fieldPath: string)
  datatype EnvVar = EnvVar(name: string, source: EnvSource)

  datatype VolumeMount = VolumeMount(name: string, mountPath: string, bidirectional: bool)

  datatype HostPathType = Unspecified | Directory | DirectoryOrCreate
  datatype VolumeSource = HostPath(path: string, kind: HostPathType) | EmptyDir
  datatype Volume = Volume(name: string, source: VolumeSource)

  datatype SecurityContext = SecurityContext(privileged: bool, addCapabilities: seq<string>, allowPrivilegeEscalation: Option<bool>)
  datatype HttpProbe = HttpProbe(path: string, port: int)

  datatype Container = Container(
    name: string,
    image: string,
    pullPolicy: string,
    args: seq<string>,
    env: seq<EnvVar>,
    mounts: seq<VolumeMount>,
    resources: Resources,
    security: Option<SecurityContext>,
    preStop: seq<string>,
    livenessProbe: Option<HttpProbe>)

  datatype PodSpec = PodSpec(
    priorityClassName: string,
    serviceAccountName: string,
    containers: seq<Container>,
    volumes: seq<Volume>,
    dnsPolicy: string,
    imagePullSecrets: seq<string>,
    affinity: Option<Affinity>,
    tolerations: seq<Toleration>)

  datatype PodTemplate = PodTemplate(meta: ObjectMeta, spec: PodSpec)

  datatype DaemonSet = DaemonSet(meta: ObjectMeta, selector: map<string, string>, template: PodTemplate)

  datatype Deployment = Deployment(meta: ObjectMeta, selector: map<string, string>, replicas: Option<int>, template: PodTemplate)

  datatype CSIDriver = CSIDriver(meta: ObjectMeta, attachRequired: bool, podInfoOnMount: bool)

  /** The status counters of the two scaled children that readiness is computed from. */
  datatype DaemonSetStatus = DaemonSetStatus(desiredNumberScheduled: int, numberReady: int)
  datatype DeploymentStatus = DeploymentStatus(replicas: int, readyReplicas: int)

  /** What the controller takes from outside its own file: the default sidecar images
      declared elsewhere in its own package, the label values and topology key of the
      operator's spec package, the functions of the LINSTOR client package, and the effect
      of the image overrides read from the process environment. */
  datatype Platform = Platform(
    attacherImage: string,
    livenessProbeImage: string,
    nodeDriverRegistrarImage: string,
    provisionerImage: string,
    snapshotterImage: string,
    resizerImage: string,
    controllerRole: string,
    operatorName: string,
    csiNodeRole: string,
    csiControllerRole: string,
    defaultTopologyKey: string,
    controllerServiceEndpoint: (Key, bool) -> string,
    apiResourceEnv: (string, ClientConfig) -> seq<EnvVar>,
    priorityClassFor: (string, string) -> string,
    envOverride: DriverSpec -> DriverSpec)
  {
    /** Every default the controller may write is non-empty. */
    ghost predicate Valid() {
      && attacherImage != ""
      && livenessProbeImage != ""
      && nodeDriverRegistrarImage != ""
      && provisionerImage != ""
      && snapshotterImage != ""
      && resizerImage != ""
      && forall k: Key, https: bool :: controllerServiceEndpoint(k, https) != ""
    }
  }
}
