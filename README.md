# LINSTOR CSI driver controller, modelled in Dafny

This project models the reconciliation controller of the piraeus-operator for
`LinstorCSIDriver` objects. One reconciliation of a driver does the following, in order:

1. It fetches the driver. A driver that no longer exists ends the run with success.
2. It applies the operator's image overrides from the environment and stores them.
3. It fills the blank fields of the spec with defaults. Ten fields can be filled: six
   sidecar images, the LINSTOR controller endpoint, two service-account names and the
   kubelet path. It writes the spec back once when something was filled.
4. It creates or updates three children, stopping at the first error. Each child comes
   from a pure builder:
   - the node DaemonSet (registrar, liveness probe and plugin);
   - the controller Deployment (attacher, liveness probe, provisioner, snapshotter,
     resizer and plugin);
   - the cluster-wide CSIDriver registration.
5. It reads the two workloads back and writes their readiness to the driver's status,
   together with the apply error if there was one.
6. It returns the apply error if there was one, else the outcome of the status write.

Modules:

- `Api`: the resource, its spec and status, and the Kubernetes objects, reduced to the
  fields the controller sets. The `LinstorCSIDriver` class is the in-memory copy that one
  reconciliation updates in place. `Platform` collects what the file takes from other
  files of its package (the default sidecar images) and from other packages:
  - the role and label values and the default topology key;
  - the endpoint and environment-variable functions of the LINSTOR client;
  - the priority-class lookup;
  - the effect of the environment image overrides.
- `Paths`: `filepath.Join` without cleaning, and the kubelet sub-directories.
- `Defaulting`: the defaulted spec as a pure function, and its laws.
- `Synthesis`: the three child builders, object metadata, controller affinity and pull secrets.
- `Status`: the readiness predicates and the status written at the end of a run.
- `Store`: the cluster client as a class.
  - Stored drivers live in a map that the writes update.
  - The workload status counters are fixed inputs.
  - Each step may be made to fail with a given message.
  - Every call is appended to a log.
- `Controller`: two views of one reconciliation.
  - `Planned` states the whole run (calls made, result returned, stored drivers afterwards)
    as a function of the starting cluster.
  - The `Reconciler` class carries the run out step by step against a `Cluster`.
  - `Reconciler.Reconcile` is proved to do exactly what `Planned` states.
  - The properties of a reconciliation are lemmas about `Planned`.
  - The spec phase takes its children from the reconciler's `synth` field, which the
    constructor sets to the `Synthesis` builders. The orchestration lemmas therefore hold
    for any builders.
  - Two pieces of the source are split into smaller methods:
    - `reconcileResource`'s four defaulting groups (images, endpoint, service accounts,
      kubelet path) are the methods `FillImages`, `FillEndpoint`, `FillServiceAccounts`
      and `FillKubeletPath`;
    - the tail of `Reconcile` is `ReconcileOverridden` and `ReconcileSpecThenStatus`.

Three details of the code are worth stating plainly:

- Status is written only when the run gets past persisting the defaults. A failed fetch
  returns before it, and so does a failed environment override or a failed spec write
  (`Reconcile`, lines 126-160).
- The node pod lists its containers as registrar, liveness probe, plugin (lines 562-566).
- Defaulting fills ten fields: six images, the endpoint, two service accounts and the
  kubelet path (lines 184-267).

## Model

Every row cites the one source file, `pkg/controller/linstorcsidriver/linstorcsidriver_controller.go`.

| member | source | states |
|---|---|---|
| Paths.Join | pkg/controller/linstorcsidriver/linstorcsidriver_controller.go:823-825 | the joined path is empty exactly when every element is; a non-empty first element is a prefix of the path |
| Paths.JoinSnoc | pkg/controller/linstorcsidriver/linstorcsidriver_controller.go:823-825 | joining one more non-empty element appends one separator and that element |
| Paths.KubeletPath | pkg/controller/linstorcsidriver/linstorcsidriver_controller.go:823-825 | a set kubelet path is a prefix of every path below it; the result is empty only when the kubelet path and all sub-directories are |
| Paths.SubdirExtends | pkg/controller/linstorcsidriver/linstorcsidriver_controller.go:823-825 | a path one level deeper is the shallower path, a separator and the new element |
| Defaulting.BlankFields | pkg/controller/linstorcsidriver/linstorcsidriver_controller.go:184-267 | the spec needs defaults exactly when one of the ten fields is empty |
| Defaulting.Defaulted | pkg/controller/linstorcsidriver/linstorcsidriver_controller.go:172-277 | a non-empty field is kept and an empty field gets its default: the platform image, the endpoint of service `<name>-cs` (HTTPS when a client secret is set), `<name>-csi-node`, `<name>-csi-controller`, `/var/lib/kubelet`; every other field, the plugin image included, is untouched; with non-empty defaults no field is left empty |
| Defaulting.DefaultedIdempotent | pkg/controller/linstorcsidriver/linstorcsidriver_controller.go:184-267 | a second pass gives the same spec, and with non-empty defaults it finds nothing to fill |
| Defaulting.SameFieldsSameSpec | pkg/controller/linstorcsidriver/linstorcsidriver_controller.go:172-277 | two specs that agree on the ten defaulted fields and on all others are equal |
| Defaulting.FieldwiseDefaulted | pkg/controller/linstorcsidriver/linstorcsidriver_controller.go:184-267 | a spec that holds, field by field, what defaulting puts there is the defaulted spec |
| Defaulting.CompleteIsFixpoint | pkg/controller/linstorcsidriver/linstorcsidriver_controller.go:272-276 | a spec with no blank field is left exactly as it is |
| Defaulting.ChangedIffBlank | pkg/controller/linstorcsidriver/linstorcsidriver_controller.go:180-276 | with non-empty defaults, the spec changes exactly when some field was blank |
| Status.ErrorList | pkg/controller/linstorcsidriver/linstorcsidriver_controller.go:318-322 | the error list is empty exactly when there is no apply error; otherwise it holds that one error's message |
| Status.StatusOf | pkg/controller/linstorcsidriver/linstorcsidriver_controller.go:299-325 | the node side is ready iff its DaemonSet was read and all desired pods are ready; the controller side is ready iff its Deployment was read and all replicas are ready; an unread child is not ready; the errors are those of the apply error |
| Status.ReadinessIndependentOfError | pkg/controller/linstorcsidriver/linstorcsidriver_controller.go:299-325 | readiness does not depend on the reported error; two error lists are equal exactly when the errors are |
| Status.MixedReadiness | pkg/controller/linstorcsidriver/linstorcsidriver_controller.go:306-316 | three of three node pods and one of two replicas ready gives node ready, controller not ready, no errors |
| Store.StepOf | pkg/controller/linstorcsidriver/linstorcsidriver_controller.go:114-385 | a call is an apply, a status write or a spec write exactly when its step says so |
| Store.ReadNode | pkg/controller/linstorcsidriver/linstorcsidriver_controller.go:302-308 | the DaemonSet status is read exactly when the read does not fail and the DaemonSet exists |
| Store.ReadController | pkg/controller/linstorcsidriver/linstorcsidriver_controller.go:310-316 | the Deployment status is read exactly when the read does not fail and the Deployment exists |
| Store.Cluster.constructor | pkg/controller/linstorcsidriver/linstorcsidriver_controller.go:105-110 | the client starts on the given cluster with an empty log |
| Store.Cluster.State | pkg/controller/linstorcsidriver/linstorcsidriver_controller.go:105-110 | the snapshot holds the client's drivers and faults |
| Store.Cluster.Get | pkg/controller/linstorcsidriver/linstorcsidriver_controller.go:126-136 | logs the fetch; a fault gives that error, otherwise the stored driver or not-found |
| Store.Cluster.UpdateFromEnv | pkg/controller/linstorcsidriver/linstorcsidriver_controller.go:140-153 | logs the override; on success the spec is overridden and stored, on failure nothing changes |
| Store.Cluster.Update | pkg/controller/linstorcsidriver/linstorcsidriver_controller.go:274 | logs the spec write; on success the stored spec is replaced and the status kept |
| Store.Cluster.CreateOrUpdate | pkg/controller/linstorcsidriver/linstorcsidriver_controller.go:354 | logs the apply of the child with its owner; fails exactly when its step is faulted |
| Store.Cluster.GetDaemonSet | pkg/controller/linstorcsidriver/linstorcsidriver_controller.go:302-308 | logs the read and returns what `ReadNode` gives |
| Store.Cluster.GetDeployment | pkg/controller/linstorcsidriver/linstorcsidriver_controller.go:310-316 | logs the read and returns what `ReadController` gives |
| Store.Cluster.UpdateStatus | pkg/controller/linstorcsidriver/linstorcsidriver_controller.go:327-342 | logs the status write; on success only the stored status changes |
| Synthesis.ObjectMetaFor | pkg/controller/linstorcsidriver/linstorcsidriver_controller.go:810-821 | name from the template, the parent's namespace, exactly four labels: name role, instance = parent name, managed-by, component |
| Synthesis.PullSecrets | pkg/controller/linstorcsidriver/linstorcsidriver_controller.go:459-462 | one pull secret, the spec's, exactly when it is set; none otherwise |
| Synthesis.NodeVolumes | pkg/controller/linstorcsidriver/linstorcsidriver_controller.go:396-436 | device, plugin, publish and registration directories; the plugin directory is `<kubelet>/plugins/linstor.csi.linbit.com` and the publish directory the kubelet path |
| Synthesis.NodeContainers | pkg/controller/linstorcsidriver/linstorcsidriver_controller.go:466-548 | registrar, liveness probe and plugin with the spec's images and pull policy; the plugin mounts the kubelet path bidirectionally; the registrar advertises the plugin socket |
| Synthesis.SharedVolumeDeclared | pkg/controller/linstorcsidriver/linstorcsidriver_controller.go:601-722 | a pod whose containers all mount one declared volume declares every mount |
| Synthesis.NewNodeDaemonSet | pkg/controller/linstorcsidriver/linstorcsidriver_controller.go:395-581 | named `<name>-csi-node` in the parent's namespace; selector equals labels; node service account, pull secrets, node affinity and tolerations of the spec |
| Synthesis.NodeMountsDeclared | pkg/controller/linstorcsidriver/linstorcsidriver_controller.go:466-572 | every volume a node container mounts is declared by the node pod |
| Synthesis.ControllerContainers | pkg/controller/linstorcsidriver/linstorcsidriver_controller.go:615-754 | attacher, liveness probe, provisioner, snapshotter, resizer, plugin with their images; all mount the socket directory; four sidecars elect a leader with a one-minute timeout; the provisioner carries the topology flag and the default filesystem type |
| Synthesis.ControllerAffinity | pkg/controller/linstorcsidriver/linstorcsidriver_controller.go:765-781 | the user's affinity when set; otherwise one required anti-affinity on the controller labels with the default topology key |
| Synthesis.NewControllerDeployment | pkg/controller/linstorcsidriver/linstorcsidriver_controller.go:583-763 | named `<name>-csi-controller` in the parent's namespace; selector equals labels; replicas, controller service account, pull secrets, affinity and tolerations from the spec; one socket volume |
| Synthesis.ControllerMountsDeclared | pkg/controller/linstorcsidriver/linstorcsidriver_controller.go:601-756 | every volume a controller container mounts is declared by the controller pod |
| Synthesis.NewCSIDriver | pkg/controller/linstorcsidriver/linstorcsidriver_controller.go:783-800 | named `linstor.csi.linbit.com` with no namespace, the parent's labels, attach required and pod info on mount |
| Synthesis.ChildNamesDistinct | pkg/controller/linstorcsidriver/linstorcsidriver_controller.go:802-812 | the node and controller workloads never share a name |
| Synthesis.SelectorsDistinct | pkg/controller/linstorcsidriver/linstorcsidriver_controller.go:810-821 | with distinct roles, the two workloads' selectors differ |
| Synthesis.DefaultAntiAffinitySelectsControllerPods | pkg/controller/linstorcsidriver/linstorcsidriver_controller.go:765-781 | without a user affinity, the anti-affinity selects exactly the Deployment's own pod labels |
| Synthesis.RegistrationSocketInPluginDir | pkg/controller/linstorcsidriver/linstorcsidriver_controller.go:405-445 | the socket the registrar advertises is `csi.sock` in the plugin directory |
| Controller.ApplyCalls | pkg/controller/linstorcsidriver/linstorcsidriver_controller.go:279-296 | DaemonSet, Deployment, CSIDriver in that order; the first two owned by the driver, the CSIDriver unowned |
| Controller.ApplyChain | pkg/controller/linstorcsidriver/linstorcsidriver_controller.go:279-296 | calls are made in order until one fails; success iff all were made and none failed; a failure is that of the last call made, and every earlier call succeeded |
| Controller.Count | pkg/controller/linstorcsidriver/linstorcsidriver_controller.go:114-170 | the count of a step is zero exactly when no call is of that step |
| Controller.CountConcat | pkg/controller/linstorcsidriver/linstorcsidriver_controller.go:114-170 | counts add over concatenation |
| Controller.WorkloadKeys | pkg/controller/linstorcsidriver/linstorcsidriver_controller.go:302-312 | the workloads the status phase reads are the ones the builders name |
| Controller.StatusPhase | pkg/controller/linstorcsidriver/linstorcsidriver_controller.go:298-343 | two reads then the status write of `StatusOf`; the result is the write's outcome; only the stored status changes, and only on success |
| Controller.Planned | pkg/controller/linstorcsidriver/linstorcsidriver_controller.go:114-170 | every run starts with the fetch; a run that stops before the spec phase makes only fetch, override and spec-write calls |
| Controller.PlannedEarly | pkg/controller/linstorcsidriver/linstorcsidriver_controller.go:126-160 | a failed fetch returns its error, a deleted driver returns success, a failed override or spec write returns its error, each after exactly the calls made so far |
| Controller.PlannedOverridden | pkg/controller/linstorcsidriver/linstorcsidriver_controller.go:150-170 | past the environment overrides, the run continues as `Overridden` |
| Controller.OverriddenReached | pkg/controller/linstorcsidriver/linstorcsidriver_controller.go:157-169 | past persisting, the optional spec write is followed by the spec and status phases |
| Controller.OverriddenStops | pkg/controller/linstorcsidriver/linstorcsidriver_controller.go:157-160 | a failed spec write ends the run with its error |
| Controller.SpecThenStatusIgnoresDrivers | pkg/controller/linstorcsidriver/linstorcsidriver_controller.go:162-169 | the spec and status phases do not depend on the stored drivers seen at the start |
| Controller.PlannedReached | pkg/controller/linstorcsidriver/linstorcsidriver_controller.go:114-170 | a run that gets past persisting is fetch, override, the optional spec write, then the spec and status phases |
| Controller.DeletedDriverIsSuccess | pkg/controller/linstorcsidriver/linstorcsidriver_controller.go:126-133 | a driver that no longer exists: one fetch, success, nothing written |
| Controller.ReachedShape | pkg/controller/linstorcsidriver/linstorcsidriver_controller.go:114-170 | past persisting, the calls are fetch, override, the spec write when defaults were needed, the applies made, both workload reads and the status write; the result is the apply error, else the status write's outcome |
| Controller.ReachedDrivers | pkg/controller/linstorcsidriver/linstorcsidriver_controller.go:150-343 | past persisting, the store holds the overridden and defaulted spec, and the new status unless its write failed |
| Controller.OnlyOwnDriverWritten | pkg/controller/linstorcsidriver/linstorcsidriver_controller.go:114-343 | a run never adds or removes a driver and never changes a driver other than its own |
| Controller.CountLayout | pkg/controller/linstorcsidriver/linstorcsidriver_controller.go:114-170 | the step counts of a run laid out as prefix, spec write, applies and status phase, segment by segment |
| Controller.ReachedCount | pkg/controller/linstorcsidriver/linstorcsidriver_controller.go:114-170 | past persisting: one fetch and one override, one spec write iff defaults were needed, the applies made, one of each read and one status write |
| Controller.ChainOfThree | pkg/controller/linstorcsidriver/linstorcsidriver_controller.go:279-296 | three applies get as far as the first faulted step and return its error |
| Controller.CountPrefixOfThree | pkg/controller/linstorcsidriver/linstorcsidriver_controller.go:279-296 | the step counts of the first k of three calls |
| Controller.AppliesStopAtFirstFailure | pkg/controller/linstorcsidriver/linstorcsidriver_controller.go:279-296 | each child is applied at most once, and only past persisting; the Deployment only if the DaemonSet apply succeeded; the CSIDriver only if both did |
| Controller.StatusWrittenOnceIffReached | pkg/controller/linstorcsidriver/linstorcsidriver_controller.go:155-169 | status is written exactly once when the run gets past persisting, and never otherwise |
| Controller.PersistedOnceIffBlank | pkg/controller/linstorcsidriver/linstorcsidriver_controller.go:272-276 | the spec is written exactly once when a field of the fetched and overridden spec was blank, and never otherwise |
| Controller.ApplyErrorTakesPrecedence | pkg/controller/linstorcsidriver/linstorcsidriver_controller.go:162-169 | the result is the first apply error, else the status write's outcome; a written status carries that apply error |
| Controller.StoredSpecIsDefaulted | pkg/controller/linstorcsidriver/linstorcsidriver_controller.go:172-277 | past persisting, the stored spec is the defaulted spec; with non-empty defaults it has no blank field |
| Controller.StatusReflectsWorkloads | pkg/controller/linstorcsidriver/linstorcsidriver_controller.go:299-325 | the written readiness is that of `<name>-csi-node` and `<name>-csi-controller`; a workload that is absent or unreadable is not ready |
| Controller.SecondRunWritesNoSpec | pkg/controller/linstorcsidriver/linstorcsidriver_controller.go:184-276 | a second reconciliation, after a run that got past persisting, writes no spec, provided the environment overrides keep every complete spec complete (they may still change an image) |
| Controller.Reconciler.constructor | pkg/controller/linstorcsidriver/linstorcsidriver_controller.go:105-110 | the reconciler uses the given client and platform and builds children with the `Synthesis` builders |
| Controller.Reconciler.Reconcile | pkg/controller/linstorcsidriver/linstorcsidriver_controller.go:114-170 | the calls logged, the result and the stored drivers are exactly those of `Planned` |
| Controller.Reconciler.ReconcileOverridden | pkg/controller/linstorcsidriver/linstorcsidriver_controller.go:157-169 | after the overrides, the run is exactly `Overridden`: defaulting, then the spec and status phases; the in-memory spec ends defaulted, and its status is left alone when persisting fails and is otherwise the status computed from the workloads and the first apply error |
| Controller.Reconciler.ReconcileSpecThenStatus | pkg/controller/linstorcsidriver/linstorcsidriver_controller.go:162-169 | the spec phase then the status phase, with the apply error taking precedence; the in-memory spec is untouched and its status is the one computed from the workloads and the first apply error |
| Controller.Reconciler.ReconcileResource | pkg/controller/linstorcsidriver/linstorcsidriver_controller.go:172-277 | the spec becomes the defaulted spec; it is written once when a field was blank, with that write's outcome; otherwise nothing is called and the result is success |
| Controller.Reconciler.FillImages | pkg/controller/linstorcsidriver/linstorcsidriver_controller.go:182-226 | each blank sidecar image gets the platform's default; the flag is set iff one was blank |
| Controller.Reconciler.FillEndpoint | pkg/controller/linstorcsidriver/linstorcsidriver_controller.go:228-240 | a blank endpoint gets that of service `<name>-cs`, over HTTPS iff a client secret is set; the flag is set iff it was blank |
| Controller.Reconciler.FillServiceAccounts | pkg/controller/linstorcsidriver/linstorcsidriver_controller.go:242-258 | blank service accounts become `<name>-csi-node` and `<name>-csi-controller`; the flag is set iff one was blank |
| Controller.Reconciler.FillKubeletPath | pkg/controller/linstorcsidriver/linstorcsidriver_controller.go:260-269 | a blank kubelet path becomes `/var/lib/kubelet`; the flag is set iff it was blank |
| Controller.Reconciler.ReconcileNodeDaemonSet | pkg/controller/linstorcsidriver/linstorcsidriver_controller.go:345-357 | applies the node DaemonSet owned by the driver |
| Controller.Reconciler.ReconcileControllerDeployment | pkg/controller/linstorcsidriver/linstorcsidriver_controller.go:359-371 | applies the controller Deployment owned by the driver |
| Controller.Reconciler.ReconcileCSIDriver | pkg/controller/linstorcsidriver/linstorcsidriver_controller.go:373-385 | applies the CSIDriver without an owner |
| Controller.Reconciler.ReconcileSpec | pkg/controller/linstorcsidriver/linstorcsidriver_controller.go:279-296 | the log grows by exactly the applies `ApplyChain` makes, and the result is its error |
| Controller.Reconciler.ReconcileStatus | pkg/controller/linstorcsidriver/linstorcsidriver_controller.go:298-343 | reads both workloads, sets the status to `StatusOf` the reads and the apply error, writes it and returns the write's outcome |

## Left out

- Manager wiring, watch registration and the logging set-up (lines 51-99): framework
  bootstrap with no behaviour to state. Logging inside the reconciler is left out too.
- The one-minute and thirty-second deadlines and their contexts (lines 121, 328). Every
  store call simply succeeds or fails; cancellation is not modelled.
- `UpdateFromEnv`'s body is not part of this model. Its effect on the spec is the platform
  function `envOverride`, applied and stored when the call succeeds.
- Create-or-update, with its patch-or-recreate behaviour, is not part of this model. An
  apply is logged and succeeds or fails. It does not change the workload status counters,
  which are inputs of the cluster.
- The LINSTOR client's endpoint and environment-variable functions and the priority-class
  lookup are not part of this model. They are uninterpreted function fields of `Platform`.
- The default images come from other files of the `linstorcsidriver` package, and the
  operator's label values from other packages, so they are `Platform` fields too.
  `Platform.Valid` states only that every default is non-empty.
- Paths.Join does not clean the path as `filepath.Join` does, so `.` and `..` elements
  and repeated separators are kept.
- The Kubernetes types keep only the fields the controller sets. Security contexts, probes
  and lifecycle hooks are reduced to a few values.
- Resource versions and optimistic concurrency are not modelled; a conflict is one more
  failure of the write.
- Requeueing and retry with backoff belong to the framework that calls `Reconcile`, so
  they are left out. A run returns only its error.
