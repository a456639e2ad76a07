/** Filling the blank fields of a LinstorCSIDriver spec with their defaults. */
module Defaulting {
  import opened Api

  /** Suffixes of the service-account names the controller used before they were configurable. */
  const NodeServiceAccount := "-csi-node"
  const ControllerServiceAccount := "-csi-controller"
  const DefaultKubeletPath := "/var/lib/kubelet"
  /** Suffix of the name of the LINSTOR controller service the default endpoint points at. */
  const ControllerServiceSuffix := "-cs"

  /** The fields that defaulting fills, in the order it visits them. */
  datatype Field =
    | AttacherImage | LivenessProbeImage | NodeDriverRegistrarImage
    | ProvisionerImage | SnapshotterImage | ResizerImage
    | ControllerEndpoint
    | NodeServiceAccountName | ControllerServiceAccountName
    | KubeletPath

  function Get(s: DriverSpec, f: Field): string {
    match f
    case AttacherImage => s.csiAttacherImage
    case LivenessProbeImage => s.csiLivenessProbeImage
    case NodeDriverRegistrarImage => s.csiNodeDriverRegistrarImage
    case ProvisionerImage => s.csiProvisionerImage
    case SnapshotterImage => s.csiSnapshotterImage
    case ResizerImage => s.csiResizerImage
    case ControllerEndpoint => s.controllerEndpoint
    case NodeServiceAccountName => s.csiNodeServiceAccountName
    case ControllerServiceAccountName => s.csiControllerServiceAccountName
    case KubeletPath => s.kubeletPath
  }

  /** The service the default endpoint addresses: `<name>-cs` in the resource's namespace. */
  function ControllerService(r: Resource): Key {
    Key(r.namespace, r.name + ControllerServiceSuffix)
  }

  /** The default of each field for this resource. */
  function DefaultValue(r: Resource, f: Field, p: Platform): string {
    match f
    case AttacherImage => p.attacherImage
    case LivenessProbeImage => p.livenessProbeImage
    case NodeDriverRegistrarImage => p.nodeDriverRegistrarImage
    case ProvisionerImage => p.provisionerImage
    case SnapshotterImage => p.snapshotterImage
    case ResizerImage => p.resizerImage
    case ControllerEndpoint =>
      p.controllerServiceEndpoint(ControllerService(r), r.spec.clientConfig.httpsClientSecret != "")
    case NodeServiceAccountName => r.name + NodeServiceAccount
    case ControllerServiceAccountName => r.name + ControllerServiceAccount
    case KubeletPath => DefaultKubeletPath
  }

  /** Some field that defaulting fills is blank. */
  predicate NeedsDefaults(s: DriverSpec) {
    exists f: Field :: Get(s, f) == ""
  }

  /** The blank fields, one by one: defaulting has work exactly when one of them is blank. */
  lemma BlankFields(s: DriverSpec)
    ensures NeedsDefaults(s) <==>
      || s.csiAttacherImage == "" || s.csiLivenessProbeImage == "" || s.csiNodeDriverRegistrarImage == ""
      || s.csiProvisionerImage == "" || s.csiSnapshotterImage == "" || s.csiResizerImage == ""
      || s.controllerEndpoint == ""
      || s.csiNodeServiceAccountName == "" || s.csiControllerServiceAccountName == ""
      || s.kubeletPath == ""
  {
    if s.csiAttacherImage == "" { assert Get(s, AttacherImage) == ""; }
    if s.csiLivenessProbeImage == "" { assert Get(s, LivenessProbeImage) == ""; }
    if s.csiNodeDriverRegistrarImage == "" { assert Get(s, NodeDriverRegistrarImage) == ""; }
    if s.csiProvisionerImage == "" { assert Get(s, ProvisionerImage) == ""; }
    if s.csiSnapshotterImage == "" { assert Get(s, SnapshotterImage) == ""; }
    if s.csiResizerImage == "" { assert Get(s, ResizerImage) == ""; }
    if s.controllerEndpoint == "" { assert Get(s, ControllerEndpoint) == ""; }
    if s.csiNodeServiceAccountName == "" { assert Get(s, NodeServiceAccountName) == ""; }
    if s.csiControllerServiceAccountName == "" { assert Get(s, ControllerServiceAccountName) == ""; }
    if s.kubeletPath == "" { assert Get(s, KubeletPath) == ""; }
  }

  /** `t` agrees with `s` on every field that defaulting does not fill. */
  predicate Untouched(s: DriverSpec, t: DriverSpec) {
    && t.linstorPluginImage == s.linstorPluginImage
    && t.clientConfig == s.clientConfig
    && t.imagePullSecret == s.imagePullSecret
    && t.imagePullPolicy == s.imagePullPolicy
    && t.priorityClassName == s.priorityClassName
    && t.controllerReplicas == s.controllerReplicas
    && t.enableTopology == s.enableTopology
    && t.nodeAffinity == s.nodeAffinity
    && t.nodeTolerations == s.nodeTolerations
    && t.controllerAffinity == s.controllerAffinity
    && t.controllerTolerations == s.controllerTolerations
    && t.resources == s.resources
  }

  function FillBlank(value: string, default: string): string {
    if value == "" then default else value
  }

  /** The spec of `r` with every blank field set to its default. */
  function Defaulted(r: Resource, p: Platform): (s: DriverSpec)
    ensures forall f: Field :: Get(r.spec, f) != "" ==> Get(s, f) == Get(r.spec, f)
    ensures forall f: Field :: Get(r.spec, f) == "" ==> Get(s, f) == DefaultValue(r, f, p)
    ensures Untouched(r.spec, s)
    ensures p.Valid() ==> forall f: Field :: Get(s, f) != ""
  {
    var t := r.spec;
    DriverSpec(
      t.linstorPluginImage,
      FillBlank(t.csiAttacherImage, p.attacherImage),
      FillBlank(t.csiLivenessProbeImage, p.livenessProbeImage),
      FillBlank(t.csiNodeDriverRegistrarImage, p.nodeDriverRegistrarImage),
      FillBlank(t.csiProvisionerImage, p.provisionerImage),
      FillBlank(t.csiSnapshotterImage, p.snapshotterImage),
      FillBlank(t.csiResizerImage, p.resizerImage),
      FillBlank(t.controllerEndpoint, DefaultValue(r, ControllerEndpoint, p)),
      t.clientConfig,
      FillBlank(t.csiNodeServiceAccountName, r.name + NodeServiceAccount),
      FillBlank(t.csiControllerServiceAccountName, r.name + ControllerServiceAccount),
      FillBlank(t.kubeletPath, DefaultKubeletPath),
      t.imagePullSecret,
      t.imagePullPolicy,
      t.priorityClassName,
      t.controllerReplicas,
      t.enableTopology,
      t.nodeAffinity,
      t.nodeTolerations,
      t.controllerAffinity,
      t.controllerTolerations,
      t.resources)
  }

  /** A second pass leaves the spec as the first pass left it, and, when every default is
      non-empty, finds nothing left to fill. */
  lemma DefaultedIdempotent(r: Resource, p: Platform)
    ensures Defaulted(r.(spec := Defaulted(r, p)), p) == Defaulted(r, p)
    ensures p.Valid() ==> !NeedsDefaults(Defaulted(r, p))
  {
  }

  /** Two specs that agree on the filled fields and on all the others are equal. */
  lemma SameFieldsSameSpec(s: DriverSpec, t: DriverSpec)
    requires forall f: Field :: Get(s, f) == Get(t, f)
    requires Untouched(s, t)
    ensures s == t
  {
    assert Get(s, AttacherImage) == Get(t, AttacherImage);
    assert Get(s, LivenessProbeImage) == Get(t, LivenessProbeImage);
    assert Get(s, NodeDriverRegistrarImage) == Get(t, NodeDriverRegistrarImage);
    assert Get(s, ProvisionerImage) == Get(t, ProvisionerImage);
    assert Get(s, SnapshotterImage) == Get(t, SnapshotterImage);
    assert Get(s, ResizerImage) == Get(t, ResizerImage);
    assert Get(s, ControllerEndpoint) == Get(t, ControllerEndpoint);
    assert Get(s, NodeServiceAccountName) == Get(t, NodeServiceAccountName);
    assert Get(s, ControllerServiceAccountName) == Get(t, ControllerServiceAccountName);
    assert Get(s, KubeletPath) == Get(t, KubeletPath);
  }

  /** A spec holding, field by field, what defaulting puts there is the defaulted spec. */
  lemma FieldwiseDefaulted(r: Resource, p: Platform, t: DriverSpec)
    requires t.csiAttacherImage == FillBlank(r.spec.csiAttacherImage, p.attacherImage)
    requires t.csiLivenessProbeImage == FillBlank(r.spec.csiLivenessProbeImage, p.livenessProbeImage)
    requires t.csiNodeDriverRegistrarImage == FillBlank(r.spec.csiNodeDriverRegistrarImage, p.nodeDriverRegistrarImage)
    requires t.csiProvisionerImage == FillBlank(r.spec.csiProvisionerImage, p.provisionerImage)
    requires t.csiSnapshotterImage == FillBlank(r.spec.csiSnapshotterImage, p.snapshotterImage)
    requires t.csiResizerImage == FillBlank(r.spec.csiResizerImage, p.resizerImage)
    requires t.controllerEndpoint == FillBlank(r.spec.controllerEndpoint, DefaultValue(r, ControllerEndpoint, p))
    requires t.csiNodeServiceAccountName == FillBlank(r.spec.csiNodeServiceAccountName, r.name + NodeServiceAccount)
    requires t.csiControllerServiceAccountName == FillBlank(r.spec.csiControllerServiceAccountName, r.name + ControllerServiceAccount)
    requires t.kubeletPath == FillBlank(r.spec.kubeletPath, DefaultKubeletPath)
    requires Untouched(r.spec, t)
    ensures t == Defaulted(r, p)
  {
  }

  /** A spec with no blank field is left as it is, whatever the defaults. */
  lemma CompleteIsFixpoint(r: Resource, p: Platform)
    requires !NeedsDefaults(r.spec)
    ensures Defaulted(r, p) == r.spec
  {
    var s := Defaulted(r, p);
    forall f: Field ensures Get(r.spec, f) == Get(s, f) {
      assert Get(r.spec, f) != "";
    }
    SameFieldsSameSpec(r.spec, s);
  }

  /** Defaulting changes the spec exactly when some field it fills is blank. */
  lemma ChangedIffBlank(r: Resource, p: Platform)
    requires p.Valid()
    ensures Defaulted(r, p) != r.spec <==> NeedsDefaults(r.spec)
  {
    if NeedsDefaults(r.spec) {
      var f: Field :| Get(r.spec, f) == "";
      assert Get(Defaulted(r, p), f) != "";
    } else {
      CompleteIsFixpoint(r, p);
    }
  }
}
