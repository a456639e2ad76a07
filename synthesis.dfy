/** The child objects a LinstorCSIDriver implies: the node DaemonSet, the controller
    Deployment and the cluster-wide CSIDriver registration. */
module Synthesis {
  import opened Wrappers
  import opened Api
  import opened Paths
  import Defaulting

  /** The name the CSI plugin reports; the CSIDriver object must carry exactly this name. */
  const DriverName := "linstor.csi.linbit.com"

  /** A name template with one `%s`, at its start: the parent's name, then `suffix`. */
  datatype NameFormat = NameFormat(suffix: string)

  const NodeDaemonSet := NameFormat("-csi-node")
  const ControllerDeployment := NameFormat("-csi-controller")
  /** The bare `%s` template. */
  const ParentName := NameFormat("")

  function Format(f: NameFormat, name: string): string { name + f.suffix }

  const NameLabel := "app.kubernetes.io/name"
  const InstanceLabel := "app.kubernetes.io/instance"
  const ManagedByLabel := "app.kubernetes.io/managed-by"
  const ComponentLabel := "app.kubernetes.io/component"

  const ClusterConfigComponent := "cluster-config"
  const DefaultHealthPort := 9808
  const SocketDirPath := "/var/lib/csi/sockets/pluginproxy/"

  /** Name, namespace and labels of a child object of `r`. */
  function ObjectMetaFor(r: Resource, f: NameFormat, component: string, p: Platform): (m: ObjectMeta)
    ensures m.name == Format(f, r.name) && m.namespace == r.namespace
    ensures m.labels.Keys == {NameLabel, InstanceLabel, ManagedByLabel, ComponentLabel}
    ensures m.labels[InstanceLabel] == r.name && m.labels[ComponentLabel] == component
    ensures m.labels[NameLabel] == p.controllerRole && m.labels[ManagedByLabel] == p.operatorName
  {
    ObjectMeta(
      Format(f, r.name),
      r.namespace,
      map[NameLabel := p.controllerRole,
          InstanceLabel := r.name,
          ManagedByLabel := p.operatorName,
          ComponentLabel := component])
  }

  function NodeMeta(r: Resource, p: Platform): ObjectMeta {
    ObjectMetaFor(r, NodeDaemonSet, p.csiNodeRole, p)
  }

  function ControllerMeta(r: Resource, p: Platform): ObjectMeta {
    ObjectMetaFor(r, ControllerDeployment, p.csiControllerRole, p)
  }

  function KeyOf(m: ObjectMeta): Key { Key(m.namespace, m.name) }

  /** The image pull secrets of both workloads. */
  function PullSecrets(s: DriverSpec): (secrets: seq<string>)
    ensures |secrets| == (if s.imagePullSecret != "" then 1 else 0)
    ensures forall i | 0 <= i < |secrets| :: secrets[i] == s.imagePullSecret
  {
    if s.imagePullSecret != "" then [s.imagePullSecret] else []
  }

  /** The `%t` rendering of a boolean. */
  function BoolText(b: bool): string { if b then "true" else "false" }

  // ---- the node DaemonSet ----

  const RegistrarName := "csi-node-driver-registrar"
  const LivenessProbeName := "csi-livenessprobe"
  const NodePluginName := "csi-node-driver-linstor-plugin"

  const PluginsSubdir := "plugins"
  const RegistrySubdir := "plugins_registry"
  const SocketFile := "csi.sock"
  const DevPath := "/dev"
  const RegistrationMountPath := "/registration/"
  const RegistrationSocketVar := "DRIVER_REG_SOCK_PATH"
  const ClusterFirstWithHostNet := "ClusterFirstWithHostNet"

  const RegistrarArgs := ["--v=5", "--csi-address=$(CSI_ENDPOINT)", "--kubelet-registration-path=$(DRIVER_REG_SOCK_PATH)"]
  /** Removes the registration files when the registrar stops. */
  const RegistrarPreStop := ["/bin/sh", "-c", "rm -rf /registration/linstor.csi.linbit.com /registration/linstor.csi.linbit.com-reg.sock"]
  const CsiAddressNode := "--csi-address=$(CSI_ENDPOINT)"
  const NodePluginArgs := ["--csi-endpoint=unix://$(CSI_ENDPOINT)", "--node=$(KUBE_NODE_NAME)", "--linstor-endpoint=$(LS_CONTROLLERS)", "--log-level=debug"]

  const DeviceDir := "device-dir"
  const PluginDir := "plugin-dir"
  const PublishDir := "publish-dir"
  const RegistrationDir := "registration-dir"

  function PluginDirPath(s: DriverSpec): string { KubeletPath(s, [PluginsSubdir, DriverName]) }
  function RegistrationSocketPath(s: DriverSpec): string { KubeletPath(s, [PluginsSubdir, DriverName, SocketFile]) }

  function NodeVolumes(s: DriverSpec): (vs: seq<Volume>)
    ensures |vs| == 4
    ensures vs[0].name == DeviceDir && vs[1].name == PluginDir
    ensures vs[2] == Volume(PublishDir, HostPath(KubeletPath(s, []), Directory))
    ensures vs[3].name == RegistrationDir
    ensures vs[1].source == HostPath(PluginDirPath(s), DirectoryOrCreate)
  {
    [ Volume(DeviceDir, HostPath(DevPath, Unspecified)),
      Volume(PluginDir, HostPath(PluginDirPath(s), DirectoryOrCreate)),
      Volume(PublishDir, HostPath(KubeletPath(s, []), Directory)),
      Volume(RegistrationDir, HostPath(KubeletPath(s, [RegistrySubdir]), DirectoryOrCreate)) ]
  }

  const CsiEndpointVar := EnvVar("CSI_ENDPOINT", Literal("/csi/csi.sock"))
  const KubeNodeNameVar := EnvVar("KUBE_NODE_NAME", FieldRef("spec.nodeName"))

  /** Environment of the node registrar and plugin containers. */
  function NodeEnv(r: Resource, p: Platform): seq<EnvVar> {
    [ CsiEndpointVar,
      EnvVar(RegistrationSocketVar, Literal(RegistrationSocketPath(r.spec))),
      KubeNodeNameVar ]
    + p.apiResourceEnv(r.spec.controllerEndpoint, r.spec.clientConfig)
  }

  const PrivilegedAdmin := SecurityContext(true, ["SYS_ADMIN"], None)
  const HealthProbe := HttpProbe("/healthz", DefaultHealthPort)

  const PluginDirMount := VolumeMount(PluginDir, "/csi/", false)

  function NodeRegistrar(r: Resource, p: Platform): Container {
    Container(RegistrarName, r.spec.csiNodeDriverRegistrarImage, r.spec.imagePullPolicy,
      RegistrarArgs,
      NodeEnv(r, p),
      [PluginDirMount, VolumeMount(RegistrationDir, RegistrationMountPath, false)],
      r.spec.resources,
      Some(PrivilegedAdmin.(allowPrivilegeEscalation := Some(true))),
      RegistrarPreStop,
      None)
  }

  function NodeLivenessProbe(s: DriverSpec): Container {
    Container(LivenessProbeName, s.csiLivenessProbeImage, s.imagePullPolicy,
      [CsiAddressNode], [CsiEndpointVar], [PluginDirMount], NoResources, None, [], None)
  }

  function NodePlugin(r: Resource, p: Platform): Container {
    Container(NodePluginName, r.spec.linstorPluginImage, r.spec.imagePullPolicy,
      NodePluginArgs,
      NodeEnv(r, p),
      [PluginDirMount, VolumeMount(PublishDir, KubeletPath(r.spec, []), true), VolumeMount(DeviceDir, DevPath, false)],
      r.spec.resources,
      Some(PrivilegedAdmin),
      [],
      Some(HealthProbe))
  }

  /** Registrar, liveness probe and plugin, in that order. */
  function NodeContainers(r: Resource, p: Platform): (cs: seq<Container>)
    ensures |cs| == 3
    ensures cs[0].name == RegistrarName && cs[0].image == r.spec.csiNodeDriverRegistrarImage
    ensures cs[1].name == LivenessProbeName && cs[1].image == r.spec.csiLivenessProbeImage
    ensures cs[2].name == NodePluginName && cs[2].image == r.spec.linstorPluginImage
    ensures cs[0].pullPolicy == cs[1].pullPolicy == cs[2].pullPolicy == r.spec.imagePullPolicy
    ensures |cs[2].mounts| == 3 && cs[2].mounts[1] == VolumeMount(PublishDir, KubeletPath(r.spec, []), true)
    ensures |cs[0].env| >= 3 && cs[0].env[1] == EnvVar(RegistrationSocketVar, Literal(RegistrationSocketPath(r.spec)))
  {
    [NodeRegistrar(r, p), NodeLivenessProbe(r.spec), NodePlugin(r, p)]
  }

  /** Every volume a container of the pod mounts is declared by the pod. */
  predicate MountsDeclared(pod: PodSpec) {
    forall i, j | 0 <= i < |pod.containers| && 0 <= j < |pod.containers[i].mounts| ::
      exists k | 0 <= k < |pod.volumes| :: pod.volumes[k].name == pod.containers[i].mounts[j].name
  }

  /** A pod whose containers all mount one volume of the pod declares all its mounts. */
  lemma SharedVolumeDeclared(pod: PodSpec, v: Volume)
    requires v in pod.volumes
    requires forall c | c in pod.containers :: forall m | m in c.mounts :: m.name == v.name
    ensures MountsDeclared(pod)
  {
    forall i, j | 0 <= i < |pod.containers| && 0 <= j < |pod.containers[i].mounts|
      ensures exists k | 0 <= k < |pod.volumes| :: pod.volumes[k].name == pod.containers[i].mounts[j].name
    {
      assert pod.containers[i] in pod.containers;
      assert pod.containers[i].mounts[j] in pod.containers[i].mounts;
      var k :| 0 <= k < |pod.volumes| && pod.volumes[k] == v;
    }
  }

  /** The DaemonSet that runs the registrar, liveness probe and LINSTOR plugin on every node. */
  function NewNodeDaemonSet(r: Resource, p: Platform): (ds: DaemonSet)
    ensures ds.meta == NodeMeta(r, p)
    ensures ds.meta.name == Format(NodeDaemonSet, r.name) && ds.meta.namespace == r.namespace
    ensures ds.selector == ds.meta.labels && ds.template.meta == ds.meta
    ensures ds.template.spec.serviceAccountName == r.spec.csiNodeServiceAccountName
    ensures ds.template.spec.imagePullSecrets == PullSecrets(r.spec)
    ensures ds.template.spec.affinity == r.spec.nodeAffinity
    ensures ds.template.spec.tolerations == r.spec.nodeTolerations
    ensures ds.template.spec.containers == NodeContainers(r, p)
    ensures ds.template.spec.volumes == NodeVolumes(r.spec)
  {
    var meta := NodeMeta(r, p);
    var pod := PodSpec(
      p.priorityClassFor(r.spec.priorityClassName, r.namespace),
      r.spec.csiNodeServiceAccountName,
      NodeContainers(r, p),
      NodeVolumes(r.spec),
      ClusterFirstWithHostNet,
      PullSecrets(r.spec),
      r.spec.nodeAffinity,
      r.spec.nodeTolerations);
    DaemonSet(meta, meta.labels, PodTemplate(meta, pod))
  }

  /** Every volume the node containers mount is a volume of the node pod. */
  lemma NodeMountsDeclared(r: Resource, p: Platform)
    ensures MountsDeclared(NewNodeDaemonSet(r, p).template.spec)
  {
    var pod := NewNodeDaemonSet(r, p).template.spec;
    forall i, j | 0 <= i < |pod.containers| && 0 <= j < |pod.containers[i].mounts|
      ensures exists k | 0 <= k < |pod.volumes| :: pod.volumes[k].name == pod.containers[i].mounts[j].name
    {
      assert pod.containers[i] in pod.containers;
      assert pod.containers[i].mounts[j] in pod.containers[i].mounts;
      var n := pod.containers[i].mounts[j].name;
      if n == DeviceDir { assert pod.volumes[0].name == n; }
      else if n == PluginDir { assert pod.volumes[1].name == n; }
      else if n == PublishDir { assert pod.volumes[2].name == n; }
      else { assert pod.volumes[3].name == n; }
    }
  }

  // ---- the controller Deployment ----

  const AttacherName := "csi-attacher"
  const ProvisionerName := "csi-provisioner"
  const SnapshotterName := "csi-snapshotter"
  const ResizerName := "csi-resizer"
  const ControllerPluginName := "linstor-csi-plugin"

  const Verbose := "--v=5"
  const CsiAddress := "--csi-address=$(ADDRESS)"
  const OperationTimeout := "--timeout=1m"
  const LeaderElection := "--leader-election=true"
  const LeaderElectionNamespace := "--leader-election-namespace=$(NAMESPACE)"
  const DefaultFsType := "--default-fstype=ext4"
  const TopologyGate := "--feature-gates=Topology="
  const HandleVolumeInUse := "--handle-volume-inuse-error=false"
  const ControllerPluginArgs := ["--csi-endpoint=unix://$(ADDRESS)", "--node=$(KUBE_NODE_NAME)", "--linstor-endpoint=$(LS_CONTROLLERS)", "--log-level=debug"]

  const SocketAddressVar := EnvVar("ADDRESS", Literal(SocketDirPath + "./csi.sock"))
  const PodNamespaceVar := EnvVar("NAMESPACE", FieldRef("metadata.namespace"))
  const SocketDir := "socket-dir"
  const SocketMount := VolumeMount(SocketDir, SocketDirPath, false)
  const SocketVolume := Volume(SocketDir, EmptyDir)

  /** The arguments that make a sidecar elect a leader in the pod's namespace. */
  predicate LeaderElected(c: Container) {
    && LeaderElection in c.args
    && LeaderElectionNamespace in c.args
    && OperationTimeout in c.args
  }

  function TopologyFlag(enabled: bool): string { TopologyGate + BoolText(enabled) }

  /** A sidecar of the controller pod: socket address and namespace in its environment,
      the socket directory mounted, the spec's resources. */
  function Sidecar(name: string, image: string, s: DriverSpec, args: seq<string>): Container {
    Container(name, image, s.imagePullPolicy, args, [SocketAddressVar, PodNamespaceVar], [SocketMount],
      s.resources, None, [], None)
  }

  function ControllerContainers(r: Resource, p: Platform): (cs: seq<Container>)
    ensures |cs| == 6
    ensures cs[0].name == AttacherName && cs[0].image == r.spec.csiAttacherImage
    ensures cs[1].name == LivenessProbeName && cs[1].image == r.spec.csiLivenessProbeImage
    ensures cs[2].name == ProvisionerName && cs[2].image == r.spec.csiProvisionerImage
    ensures cs[3].name == SnapshotterName && cs[3].image == r.spec.csiSnapshotterImage
    ensures cs[4].name == ResizerName && cs[4].image == r.spec.csiResizerImage
    ensures cs[5].name == ControllerPluginName && cs[5].image == r.spec.linstorPluginImage
    ensures forall c | c in cs :: c.pullPolicy == r.spec.imagePullPolicy && c.mounts == [SocketMount]
    ensures LeaderElected(cs[0]) && LeaderElected(cs[2]) && LeaderElected(cs[3]) && LeaderElected(cs[4])
    ensures TopologyFlag(r.spec.enableTopology) in cs[2].args && DefaultFsType in cs[2].args
  {
    var s := r.spec;
    [ Sidecar(AttacherName, s.csiAttacherImage, s,
        [Verbose, CsiAddress, OperationTimeout, LeaderElection, LeaderElectionNamespace]),
      Container(LivenessProbeName, s.csiLivenessProbeImage, s.imagePullPolicy,
        [CsiAddress], [SocketAddressVar], [SocketMount], NoResources, None, [], None),
      Sidecar(ProvisionerName, s.csiProvisionerImage, s,
        [CsiAddress, Verbose, OperationTimeout, DefaultFsType, TopologyFlag(s.enableTopology),
         LeaderElection, LeaderElectionNamespace]),
      Sidecar(SnapshotterName, s.csiSnapshotterImage, s,
        [OperationTimeout, CsiAddress, LeaderElection, LeaderElectionNamespace]),
      Sidecar(ResizerName, s.csiResizerImage, s,
        [Verbose, CsiAddress, OperationTimeout, HandleVolumeInUse, LeaderElection, LeaderElectionNamespace]),
      Container(ControllerPluginName, s.linstorPluginImage, s.imagePullPolicy,
        ControllerPluginArgs,
        [SocketAddressVar, KubeNodeNameVar] + p.apiResourceEnv(s.controllerEndpoint, s.clientConfig),
        [SocketMount],
        s.resources,
        None,
        [],
        Some(HealthProbe)) ]
  }

  /** Where the controller pods may run: the user's affinity, or else a required
      anti-affinity that keeps two controller pods out of one topology domain. */
  function ControllerAffinity(r: Resource, p: Platform): (a: Affinity)
    ensures r.spec.controllerAffinity.Some? ==> a == r.spec.controllerAffinity.value
    ensures r.spec.controllerAffinity.None? ==>
      && a.requiredPodAntiAffinity == [PodAffinityTerm(ControllerMeta(r, p).labels, p.defaultTopologyKey)]
      && a.requiredPodAffinity == [] && a.requiredNodeSelectorTerms == []
  {
    var meta := ControllerMeta(r, p);
    match r.spec.controllerAffinity
    case None => Affinity([PodAffinityTerm(meta.labels, p.defaultTopologyKey)], [], [])
    case Some(a) => a
  }

  /** The Deployment that runs the CSI controller sidecars and the LINSTOR plugin. */
  function NewControllerDeployment(r: Resource, p: Platform): (d: Deployment)
    ensures d.meta == ControllerMeta(r, p)
    ensures d.meta.name == Format(ControllerDeployment, r.name) && d.meta.namespace == r.namespace
    ensures d.selector == d.meta.labels && d.template.meta == d.meta
    ensures d.replicas == r.spec.controllerReplicas
    ensures d.template.spec.serviceAccountName == r.spec.csiControllerServiceAccountName
    ensures d.template.spec.imagePullSecrets == PullSecrets(r.spec)
    ensures d.template.spec.affinity == Some(ControllerAffinity(r, p))
    ensures d.template.spec.tolerations == r.spec.controllerTolerations
    ensures d.template.spec.containers == ControllerContainers(r, p)
    ensures d.template.spec.volumes == [SocketVolume]
  {
    var meta := ControllerMeta(r, p);
    var pod := PodSpec(
      p.priorityClassFor(r.spec.priorityClassName, r.namespace),
      r.spec.csiControllerServiceAccountName,
      ControllerContainers(r, p),
      [SocketVolume],
      "",
      PullSecrets(r.spec),
      Some(ControllerAffinity(r, p)),
      r.spec.controllerTolerations);
    Deployment(meta, meta.labels, r.spec.controllerReplicas, PodTemplate(meta, pod))
  }

  /** Every container of the controller pod mounts the one socket volume it declares. */
  lemma ControllerMountsDeclared(r: Resource, p: Platform)
    ensures MountsDeclared(NewControllerDeployment(r, p).template.spec)
  {
    var pod := NewControllerDeployment(r, p).template.spec;
    assert SocketVolume in pod.volumes;
    assert SocketMount.name == SocketVolume.name;
    forall c, m | c in pod.containers && m in c.mounts
      ensures m.name == SocketVolume.name
    {
      assert c.mounts == [SocketMount];
    }
    SharedVolumeDeclared(pod, SocketVolume);
  }

  // ---- the CSIDriver registration ----

  /** The cluster-scoped registration of the driver: fixed name, no namespace. */
  function NewCSIDriver(r: Resource, p: Platform): (d: CSIDriver)
    ensures d.meta.name == DriverName && d.meta.namespace == ""
    ensures d.meta.labels == ObjectMetaFor(r, ParentName, ClusterConfigComponent, p).labels
    ensures d.meta.labels[InstanceLabel] == r.name
    ensures d.attachRequired && d.podInfoOnMount
  {
    var meta := ObjectMetaFor(r, ParentName, ClusterConfigComponent, p);
    CSIDriver(ObjectMeta(DriverName, "", meta.labels), true, true)
  }

  // ---- properties across the children ----

  /** The node and controller workloads never share a name. */
  lemma ChildNamesDistinct(r: Resource, p: Platform)
    ensures NodeMeta(r, p).name != ControllerMeta(r, p).name
  {
    var node := NodeMeta(r, p).name;
    var controller := ControllerMeta(r, p).name;
    assert node[|r.name| + 5] == 'n';
    assert controller[|r.name| + 5] == 'c';
  }

  /** With distinct roles, neither workload's selector picks the other's pods. */
  lemma SelectorsDistinct(r: Resource, p: Platform)
    requires p.csiNodeRole != p.csiControllerRole
    ensures NodeMeta(r, p).labels != ControllerMeta(r, p).labels
  {
    assert NodeMeta(r, p).labels[ComponentLabel] != ControllerMeta(r, p).labels[ComponentLabel];
  }

  /** The default anti-affinity repels exactly the Deployment's own pods. */
  lemma DefaultAntiAffinitySelectsControllerPods(r: Resource, p: Platform)
    requires r.spec.controllerAffinity.None?
    ensures var d := NewControllerDeployment(r, p);
      d.template.spec.affinity.Some?
      && d.template.spec.affinity.value.requiredPodAntiAffinity == [PodAffinityTerm(d.template.meta.labels, p.defaultTopologyKey)]
  {
  }

  /** The socket the registrar advertises to the kubelet lies in the plugin directory
      that the plugin serves it from. */
  lemma RegistrationSocketInPluginDir(s: DriverSpec)
    ensures RegistrationSocketPath(s) == PluginDirPath(s) + Separator + SocketFile
  {
    SubdirExtends(s, [PluginsSubdir, DriverName], SocketFile);
    assert [PluginsSubdir, DriverName] + [SocketFile] == [PluginsSubdir, DriverName, SocketFile];
    assert PluginDirPath(s) != "" by {
      assert [PluginsSubdir, DriverName][0] != "";
    }
  }
}
