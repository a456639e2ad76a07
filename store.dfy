/** The cluster API as the reconciler sees it: the stored LinstorCSIDriver objects,
    the observed status of the child workloads, the calls made, and the calls that fail. */
module Store {
  import opened Wrappers
  import opened Api

  /** The kinds of call a reconciliation makes, one per step of its control flow. */
  datatype Step =
    | FetchStep | EnvStep | PersistStep
    | ApplyNodeStep | ApplyControllerStep | ApplyDriverStep
    | ReadNodeStep | ReadControllerStep | StatusStep

  /** A child object handed to create-or-update. */
  datatype Child = NodeSet(ds: DaemonSet) | ControllerSet(deployment: Deployment) | Registration(driver: CSIDriver)

  /** One call made against the cluster API. */
  datatype Call =
    | Fetch(key: Key)
    | EnvOverride(key: Key)
    | SpecWrite(key: Key, spec: DriverSpec)
    | Apply(child: Child, owner: Option<Key>)
    | DaemonSetRead(key: Key)
    | DeploymentRead(key: Key)
    | StatusWrite(key: Key, status: DriverStatus)

  function StepOf(c: Call): (step: Step)
    ensures c.Apply? <==> step in {ApplyNodeStep, ApplyControllerStep, ApplyDriverStep}
    ensures c.StatusWrite? <==> step == StatusStep
    ensures c.SpecWrite? <==> step == PersistStep
  {
    match c
    case Fetch(_) => FetchStep
    case EnvOverride(_) => EnvStep
    case SpecWrite(_, _) => PersistStep
    case Apply(NodeSet(_), _) => ApplyNodeStep
    case Apply(ControllerSet(_), _) => ApplyControllerStep
    case Apply(Registration(_), _) => ApplyDriverStep
    case DaemonSetRead(_) => ReadNodeStep
    case DeploymentRead(_) => ReadControllerStep
    case StatusWrite(_, _) => StatusStep
  }

  /** The outcome of a step under the injected faults: the fault's message, or success. */
  function OutcomeOf(step: Step, faults: map<Step, string>): (o: Outcome)
    ensures o.Fail? <==> step in faults
    ensures o.Fail? ==> o.message == faults[step]
  {
    if step in faults then Fail(faults[step]) else Pass
  }

  /** The error of a write to an object the store does not hold. */
  const NotFoundMessage := "not found"

  /** A LinstorCSIDriver object as the store keeps it. */
  datatype StoredDriver = StoredDriver(spec: DriverSpec, status: DriverStatus)

  /** The result of fetching a LinstorCSIDriver. */
  datatype Fetched = NotFound | FetchFailed(message: string) | Found(driver: StoredDriver)

  /** The result of reading a child workload's status. */
  datatype Read<T> = ReadOk(value: T) | ReadFailed

  /** Everything a reconciliation can observe of the cluster before it starts. */
  datatype Snapshot = Snapshot(
    drivers: map<Key, StoredDriver>,
    daemonSets: map<Key, DaemonSetStatus>,
    deployments: map<Key, DeploymentStatus>,
    faults: map<Step, string>)

  /** Reading a child's status: absent or failed reads yield nothing. */
  function ReadNode(s: Snapshot, key: Key): (st: Option<DaemonSetStatus>)
    ensures st.Some? <==> ReadNodeStep !in s.faults && key in s.daemonSets
    ensures st.Some? ==> st.value == s.daemonSets[key]
  {
    if ReadNodeStep !in s.faults && key in s.daemonSets then Some(s.daemonSets[key]) else None
  }

  function ReadController(s: Snapshot, key: Key): (st: Option<DeploymentStatus>)
    ensures st.Some? <==> ReadControllerStep !in s.faults && key in s.deployments
    ensures st.Some? ==> st.value == s.deployments[key]
  {
    if ReadControllerStep !in s.faults && key in s.deployments then Some(s.deployments[key]) else None
  }

  /** The client of the cluster API. Child workloads' status is observed, not changed,
      and every call is recorded in `log`. */
  class Cluster {
    var drivers: map<Key, StoredDriver>
    const daemonSets: map<Key, DaemonSetStatus>
    const deployments: map<Key, DeploymentStatus>
    const faults: map<Step, string>
    var log: seq<Call>

    constructor (s: Snapshot)
      ensures State() == s && log == []
    {
      drivers := s.drivers;
      daemonSets := s.daemonSets;
      deployments := s.deployments;
      faults := s.faults;
      log := [];
    }

    function State(): (s: Snapshot)
      reads this`drivers
      ensures s.drivers == drivers && s.faults == faults
    {
      Snapshot(drivers, daemonSets, deployments, faults)
    }

    /** Fetch a LinstorCSIDriver by key. */
    method Get(key: Key) returns (f: Fetched)
      modifies this`log
      ensures log == old(log) + [Fetch(key)]
      ensures FetchStep in faults ==> f == FetchFailed(faults[FetchStep])
      ensures FetchStep !in faults ==> f == if key in drivers then Found(drivers[key]) else NotFound
    {
      log := log + [Fetch(key)];
      if FetchStep in faults {
        f := FetchFailed(faults[FetchStep]);
      } else if key in drivers {
        f := Found(drivers[key]);
      } else {
        f := NotFound;
      }
    }

    /** Apply the image overrides of the operator's environment to the object and store it. */
    method UpdateFromEnv(res: LinstorCSIDriver, envOverride: DriverSpec -> DriverSpec) returns (err: Outcome)
      modifies this`log, this`drivers, res`spec
      ensures log == old(log) + [EnvOverride(res.Id())]
      ensures res.Id() !in old(drivers) ==> err == Fail(NotFoundMessage)
      ensures res.Id() in old(drivers) ==> err == OutcomeOf(EnvStep, faults)
      ensures err.Fail? ==> res.spec == old(res.spec) && drivers == old(drivers)
      ensures err.Pass? ==>
        && res.Id() in old(drivers)
        && res.spec == envOverride(old(res.spec))
        && drivers == old(drivers)[res.Id() := old(drivers)[res.Id()].(spec := res.spec)]
    {
      log := log + [EnvOverride(res.Id())];
      err := if res.Id() in drivers then OutcomeOf(EnvStep, faults) else Fail(NotFoundMessage);
      if err.Pass? {
        res.spec := envOverride(res.spec);
        drivers := drivers[res.Id() := drivers[res.Id()].(spec := res.spec)];
      }
    }

    /** Write the object's spec back to the store. */
    method Update(res: LinstorCSIDriver) returns (err: Outcome)
      modifies this`log, this`drivers
      ensures log == old(log) + [SpecWrite(res.Id(), res.spec)]
      ensures res.Id() !in old(drivers) ==> err == Fail(NotFoundMessage)
      ensures res.Id() in old(drivers) ==> err == OutcomeOf(PersistStep, faults)
      ensures err.Fail? ==> drivers == old(drivers)
      ensures err.Pass? ==>
        && res.Id() in old(drivers)
        && drivers == old(drivers)[res.Id() := old(drivers)[res.Id()].(spec := res.spec)]
    {
      log := log + [SpecWrite(res.Id(), res.spec)];
      err := if res.Id() in drivers then OutcomeOf(PersistStep, faults) else Fail(NotFoundMessage);
      if err.Pass? {
        drivers := drivers[res.Id() := drivers[res.Id()].(spec := res.spec)];
      }
    }

    /** Create the child, or patch it, or recreate it, with the given owner. */
    method CreateOrUpdate(child: Child, owner: Option<Key>) returns (err: Outcome)
      modifies this`log
      ensures log == old(log) + [Apply(child, owner)]
      ensures err == OutcomeOf(StepOf(Apply(child, owner)), faults)
    {
      log := log + [Apply(child, owner)];
      err := OutcomeOf(StepOf(Apply(child, owner)), faults);
    }

    method GetDaemonSet(key: Key) returns (r: Read<DaemonSetStatus>)
      modifies this`log
      ensures log == old(log) + [DaemonSetRead(key)]
      ensures r.ReadOk? <==> ReadNode(State(), key).Some?
      ensures r.ReadOk? ==> r.value == ReadNode(State(), key).value
    {
      log := log + [DaemonSetRead(key)];
      if ReadNodeStep !in faults && key in daemonSets {
        r := ReadOk(daemonSets[key]);
      } else {
        r := ReadFailed;
      }
    }

    method GetDeployment(key: Key) returns (r: Read<DeploymentStatus>)
      modifies this`log
      ensures log == old(log) + [DeploymentRead(key)]
      ensures r.ReadOk? <==> ReadController(State(), key).Some?
      ensures r.ReadOk? ==> r.value == ReadController(State(), key).value
    {
      log := log + [DeploymentRead(key)];
      if ReadControllerStep !in faults && key in deployments {
        r := ReadOk(deployments[key]);
      } else {
        r := ReadFailed;
      }
    }

    /** Write the object's status sub-resource; its spec in the store is left alone. */
    method UpdateStatus(res: LinstorCSIDriver) returns (err: Outcome)
      modifies this`log, this`drivers
      ensures log == old(log) + [StatusWrite(res.Id(), res.status)]
      ensures res.Id() !in old(drivers) ==> err == Fail(NotFoundMessage)
      ensures res.Id() in old(drivers) ==> err == OutcomeOf(StatusStep, faults)
      ensures err.Fail? ==> drivers == old(drivers)
      ensures err.Pass? ==>
        && res.Id() in old(drivers)
        && drivers == old(drivers)[res.Id() := old(drivers)[res.Id()].(status := res.status)]
    {
      log := log + [StatusWrite(res.Id(), res.status)];
      err := if res.Id() in drivers then OutcomeOf(StatusStep, faults) else Fail(NotFoundMessage);
      if err.Pass? {
        drivers := drivers[res.Id() := drivers[res.Id()].(status := res.status)];
      }
    }
  }
}
