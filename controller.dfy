/** One reconciliation of a LinstorCSIDriver: fetch, environment overrides, defaulting,
    persisting, applying the three children, reporting status. `Planned` states the whole
    run as a function of the cluster it starts from; `Reconciler` carries it out. */
module Controller {
  import opened Wrappers
  import opened Api
  import opened Store
  import Defaulting
  import Synthesis
  import Status

  // ---- the spec phase: three create-or-update calls, stopping at the first error ----

  /** The three children synthesized from one driver. */
  datatype Children = Children(node: DaemonSet, controller: Deployment, driver: CSIDriver)

  /** The synthesizer the controller uses. The orchestration below takes the synthesizer as
      a parameter: its properties hold whatever the children look like. */
  function Synthesize(r: Resource, p: Platform): Children {
    Children(Synthesis.NewNodeDaemonSet(r, p), Synthesis.NewControllerDeployment(r, p), Synthesis.NewCSIDriver(r, p))
  }

  function Synthesizer(p: Platform): Resource -> Children {
    r => Synthesize(r, p)
  }

  /** The children in the order the spec phase applies them: the node DaemonSet and the
      controller Deployment, both owned by the driver, then the cluster-wide CSIDriver,
      which has no owner. */
  function ApplyCalls(r: Resource, c: Children): (calls: seq<Call>)
    ensures |calls| == 3 && forall i | 0 <= i < 3 :: calls[i].Apply?
    ensures StepOf(calls[0]) == ApplyNodeStep && StepOf(calls[1]) == ApplyControllerStep
      && StepOf(calls[2]) == ApplyDriverStep
    ensures calls[0].owner == Some(r.Id()) && calls[1].owner == Some(r.Id()) && calls[2].owner == None
  {
    [ Apply(NodeSet(c.node), Some(r.Id())),
      Apply(ControllerSet(c.controller), Some(r.Id())),
      Apply(Registration(c.driver), None) ]
  }

  /** How far a chain of calls got, and how it ended. */
  datatype ChainResult = ChainResult(attempted: nat, err: Outcome)

  /** Make the calls in order until one fails. */
  function ApplyChain(calls: seq<Call>, faults: map<Step, string>): (c: ChainResult)
    ensures c.attempted <= |calls|
    ensures c.err.Pass? <==> c.attempted == |calls| && forall i | 0 <= i < |calls| :: StepOf(calls[i]) !in faults
    ensures c.err.Fail? ==>
      && 0 < c.attempted
      && c.err == OutcomeOf(StepOf(calls[c.attempted - 1]), faults)
      && forall i | 0 <= i < c.attempted - 1 :: StepOf(calls[i]) !in faults
    decreases |calls|
  {
    if |calls| == 0 then ChainResult(0, Pass)
    else if StepOf(calls[0]) in faults then ChainResult(1, OutcomeOf(StepOf(calls[0]), faults))
    else
      var rest := ApplyChain(calls[1..], faults);
      ChainResult(rest.attempted + 1, rest.err)
  }

  // ---- counting calls ----

  /** How many of the calls are of the given step. */
  function Count(calls: seq<Call>, step: Step): (n: nat)
    ensures n <= |calls|
    ensures n == 0 <==> forall i | 0 <= i < |calls| :: StepOf(calls[i]) != step
    decreases |calls|
  {
    if |calls| == 0 then 0
    else (if StepOf(calls[0]) == step then 1 else 0) + Count(calls[1..], step)
  }

  lemma {:induction false} CountConcat(a: seq<Call>, b: seq<Call>, step: Step)
    ensures Count(a + b, step) == Count(a, step) + Count(b, step)
    decreases |a|
  {
    if |a| == 0 {
      assert a + b == b;
    } else {
      assert (a + b)[1..] == a[1..] + b;
      CountConcat(a[1..], b, step);
    }
  }

  // ---- the whole reconciliation as a function of the starting cluster ----

  /** The calls made, the result returned, and the stored drivers afterwards. */
  datatype Run = Run(calls: seq<Call>, result: Outcome, drivers: map<Key, StoredDriver>)

  /** The spec after the environment overrides, as the defaulting sees it. */
  function EnvResource(key: Key, stored: StoredDriver, p: Platform): (r: Resource)
    ensures r.Id() == key && r.spec == p.envOverride(stored.spec) && r.status == stored.status
  {
    Resource(key.name, key.namespace, p.envOverride(stored.spec), stored.status)
  }

  /** The keys of the two workloads the status phase reads back: the names and namespace
      of their metadata. */
  function NodeKey(r: Resource): Key {
    Key(r.namespace, Synthesis.Format(Synthesis.NodeDaemonSet, r.name))
  }

  function ControllerKey(r: Resource): Key {
    Key(r.namespace, Synthesis.Format(Synthesis.ControllerDeployment, r.name))
  }

  lemma WorkloadKeys(r: Resource, p: Platform)
    ensures NodeKey(r) == Synthesis.KeyOf(Synthesis.NodeMeta(r, p))
    ensures ControllerKey(r) == Synthesis.KeyOf(Synthesis.ControllerMeta(r, p))
  {
  }

  /** The status phase: read both workloads, write the status, report the write's outcome.
      The status sub-resource is written alone; the stored spec is left as it is. */
  function StatusPhase(s: Snapshot, r: Resource, p: Platform, specErr: Outcome, drivers: map<Key, StoredDriver>): (run: Run)
    requires r.Id() in drivers
    ensures |run.calls| == 3 && run.calls[2].StatusWrite? && run.calls[2].key == r.Id()
    ensures run.calls[2].status == Status.StatusOf(ReadNode(s, NodeKey(r)), ReadController(s, ControllerKey(r)), specErr)
    ensures run.result == OutcomeOf(StatusStep, s.faults)
    ensures run.result.Fail? ==> run.drivers == drivers
    ensures run.result.Pass? ==> run.drivers == drivers[r.Id() := drivers[r.Id()].(status := run.calls[2].status)]
  {
    var st := Status.StatusOf(ReadNode(s, NodeKey(r)), ReadController(s, ControllerKey(r)), specErr);
    var written := OutcomeOf(StatusStep, s.faults);
    Run([DaemonSetRead(NodeKey(r)), DeploymentRead(ControllerKey(r)), StatusWrite(r.Id(), st)],
      written,
      if written.Pass? then drivers[r.Id() := drivers[r.Id()].(status := st)] else drivers)
  }

  /** The spec phase and then the status phase, whatever the spec phase's outcome; the spec
      phase's error takes precedence over the status write's. */
  function SpecThenStatus(s: Snapshot, r: Resource, p: Platform, synth: Resource -> Children,
                          drivers: map<Key, StoredDriver>): Run
    requires r.Id() in drivers
  {
    var applies := ApplyCalls(r, synth(r));
    var chain := ApplyChain(applies, s.faults);
    var report := StatusPhase(s, r, p, chain.err, drivers);
    Run(applies[..chain.attempted] + report.calls,
      if chain.err.Fail? then chain.err else report.result,
      report.drivers)
  }

  /** Whether a reconciliation of `key` gets past fetching, the environment overrides and
      persisting the defaults, so that it applies the children and reports status. */
  predicate Reaches(s: Snapshot, key: Key, p: Platform) {
    && FetchStep !in s.faults
    && key in s.drivers
    && EnvStep !in s.faults
    && !(Defaulting.NeedsDefaults(EnvResource(key, s.drivers[key], p).spec) && PersistStep in s.faults)
  }

  /** What follows the environment overrides of the driver `r`, with `s.drivers` holding
      the overridden spec: defaulting and persisting, then the spec and status phases. */
  function Overridden(s: Snapshot, r: Resource, p: Platform, synth: Resource -> Children): Run
    requires r.Id() in s.drivers
  {
    var spec := Defaulting.Defaulted(r, p);
    var changed := Defaulting.NeedsDefaults(r.spec);
    var persist := if changed then [SpecWrite(r.Id(), spec)] else [];
    if changed && PersistStep in s.faults then Run(persist, OutcomeOf(PersistStep, s.faults), s.drivers)
    else
      var specDrivers := if changed then s.drivers[r.Id() := s.drivers[r.Id()].(spec := spec)] else s.drivers;
      var rest := SpecThenStatus(s, r.(spec := spec), p, synth, specDrivers);
      Run(persist + rest.calls, rest.result, rest.drivers)
  }

  /** One reconciliation of `key` starting from `s`, with children built by `synth`. */
  function Planned(s: Snapshot, key: Key, p: Platform, synth: Resource -> Children): (run: Run)
    ensures |run.calls| >= 1 && run.calls[0] == Fetch(key)
    ensures !Reaches(s, key, p) ==>
      forall i | 0 <= i < |run.calls| :: StepOf(run.calls[i]) in {FetchStep, EnvStep, PersistStep}
  {
    if FetchStep in s.faults then Run([Fetch(key)], OutcomeOf(FetchStep, s.faults), s.drivers)
    else if key !in s.drivers then Run([Fetch(key)], Pass, s.drivers)
    else if EnvStep in s.faults then Run([Fetch(key), EnvOverride(key)], OutcomeOf(EnvStep, s.faults), s.drivers)
    else
      var stored := s.drivers[key];
      var r := EnvResource(key, stored, p);
      var tail := Overridden(s.(drivers := s.drivers[key := stored.(spec := r.spec)]), r, p, synth);
      Run([Fetch(key), EnvOverride(key)] + tail.calls, tail.result, tail.drivers)
  }

  /** The runs that stop before the spec phase: a failed fetch, a deleted driver, failed
      environment overrides, a failed write of the defaulted spec. */
  lemma PlannedEarly(s: Snapshot, key: Key, p: Platform, synth: Resource -> Children)
    ensures FetchStep in s.faults ==> Planned(s, key, p, synth) == Run([Fetch(key)], OutcomeOf(FetchStep, s.faults), s.drivers)
    ensures FetchStep !in s.faults && key !in s.drivers ==> Planned(s, key, p, synth) == Run([Fetch(key)], Pass, s.drivers)
    ensures FetchStep !in s.faults && key in s.drivers && EnvStep in s.faults ==>
      Planned(s, key, p, synth) == Run([Fetch(key), EnvOverride(key)], OutcomeOf(EnvStep, s.faults), s.drivers)
    ensures FetchStep !in s.faults && key in s.drivers && EnvStep !in s.faults && !Reaches(s, key, p) ==>
      var r1 := EnvResource(key, s.drivers[key], p);
      Planned(s, key, p, synth)
        == Run([Fetch(key), EnvOverride(key), SpecWrite(key, Defaulting.Defaulted(r1, p))], OutcomeOf(PersistStep, s.faults),
               s.drivers[key := s.drivers[key].(spec := r1.spec)])
  {
  }

  /** A run that gets past the environment overrides continues as `Overridden`. */
  lemma PlannedOverridden(s: Snapshot, key: Key, p: Platform, synth: Resource -> Children)
    requires FetchStep !in s.faults && key in s.drivers && EnvStep !in s.faults
    ensures var r := EnvResource(key, s.drivers[key], p);
      var tail := Overridden(s.(drivers := s.drivers[key := s.drivers[key].(spec := r.spec)]), r, p, synth);
      Planned(s, key, p, synth) == Run([Fetch(key), EnvOverride(key)] + tail.calls, tail.result, tail.drivers)
  {
  }

  /** Past persisting, `Overridden` is the optional spec write followed by the spec and
      status phases. */
  lemma OverriddenReached(s: Snapshot, r: Resource, p: Platform, synth: Resource -> Children)
    requires r.Id() in s.drivers
    requires !(Defaulting.NeedsDefaults(r.spec) && PersistStep in s.faults)
    ensures var spec := Defaulting.Defaulted(r, p);
      var changed := Defaulting.NeedsDefaults(r.spec);
      var specDrivers := if changed then s.drivers[r.Id() := s.drivers[r.Id()].(spec := spec)] else s.drivers;
      var rest := SpecThenStatus(s, r.(spec := spec), p, synth, specDrivers);
      Overridden(s, r, p, synth) == Run((if changed then [SpecWrite(r.Id(), spec)] else []) + rest.calls, rest.result, rest.drivers)
  {
  }

  /** A failed write of the defaulted spec ends the run. */
  lemma OverriddenStops(s: Snapshot, r: Resource, p: Platform, synth: Resource -> Children)
    requires r.Id() in s.drivers
    ensures Defaulting.NeedsDefaults(r.spec) && PersistStep in s.faults ==>
      Overridden(s, r, p, synth)
        == Run([SpecWrite(r.Id(), Defaulting.Defaulted(r, p))], OutcomeOf(PersistStep, s.faults), s.drivers)
  {
  }

  /** The spec and status phases do not look at the stored drivers of the snapshot. */
  lemma SpecThenStatusIgnoresDrivers(s: Snapshot, drivers: map<Key, StoredDriver>, r: Resource, p: Platform,
                                     synth: Resource -> Children, d: map<Key, StoredDriver>)
    requires r.Id() in d
    ensures SpecThenStatus(s.(drivers := drivers), r, p, synth, d) == SpecThenStatus(s, r, p, synth, d)
  {
    var t := s.(drivers := drivers);
    assert ReadNode(t, NodeKey(r)) == ReadNode(s, NodeKey(r));
    assert ReadController(t, ControllerKey(r)) == ReadController(s, ControllerKey(r));
  }

  /** The run once it gets past persisting: the prefix, then the spec and status phases. */
  lemma PlannedReached(s: Snapshot, key: Key, p: Platform, synth: Resource -> Children)
    requires Reaches(s, key, p)
    ensures var r1 := EnvResource(key, s.drivers[key], p);
      var spec := Defaulting.Defaulted(r1, p);
      var changed := Defaulting.NeedsDefaults(r1.spec);
      var persist := if changed then [SpecWrite(key, spec)] else [];
      var envDrivers := s.drivers[key := s.drivers[key].(spec := r1.spec)];
      var specDrivers := if changed then envDrivers[key := envDrivers[key].(spec := spec)] else envDrivers;
      var rest := SpecThenStatus(s, r1.(spec := spec), p, synth, specDrivers);
      Planned(s, key, p, synth) == Run([Fetch(key), EnvOverride(key)] + persist + rest.calls, rest.result, rest.drivers)
  {
    var r1 := EnvResource(key, s.drivers[key], p);
    var envDrivers := s.drivers[key := s.drivers[key].(spec := r1.spec)];
    var s1 := s.(drivers := envDrivers);
    var spec := Defaulting.Defaulted(r1, p);
    var persist := if Defaulting.NeedsDefaults(r1.spec) then [SpecWrite(key, spec)] else [];
    var specDrivers := if Defaulting.NeedsDefaults(r1.spec) then envDrivers[key := envDrivers[key].(spec := spec)] else envDrivers;
    var rest := SpecThenStatus(s, r1.(spec := spec), p, synth, specDrivers);
    PlannedOverridden(s, key, p, synth);
    OverriddenReached(s1, r1, p, synth);
    SpecThenStatusIgnoresDrivers(s, envDrivers, r1.(spec := spec), p, synth, specDrivers);
    AppendAssociates([Fetch(key), EnvOverride(key)], persist, rest.calls);
  }

  lemma AppendAssociates<T>(a: seq<T>, b: seq<T>, c: seq<T>)
    ensures a + (b + c) == a + b + c
  {
  }

  // ---- properties of a reconciliation ----

  /** A driver that no longer exists: one fetch, success, nothing written. */
  lemma DeletedDriverIsSuccess(s: Snapshot, key: Key, p: Platform, synth: Resource -> Children)
    requires FetchStep !in s.faults && key !in s.drivers
    ensures Planned(s, key, p, synth) == Run([Fetch(key)], Pass, s.drivers)
  {
  }

  /** The run once it gets past persisting: the prefix, the applies attempted, the status phase. */
  lemma ReachedShape(s: Snapshot, key: Key, p: Platform, synth: Resource -> Children)
    requires Reaches(s, key, p)
    ensures var r1 := EnvResource(key, s.drivers[key], p);
      var r2 := r1.(spec := Defaulting.Defaulted(r1, p));
      var applies := ApplyCalls(r2, synth(r2));
      var chain := ApplyChain(applies, s.faults);
      var persist := if Defaulting.NeedsDefaults(r1.spec) then [SpecWrite(key, r2.spec)] else [];
      var report := [DaemonSetRead(NodeKey(r2)), DeploymentRead(ControllerKey(r2)),
        StatusWrite(key, Status.StatusOf(ReadNode(s, NodeKey(r2)), ReadController(s, ControllerKey(r2)), chain.err))];
      var run := Planned(s, key, p, synth);
      && run.calls == [Fetch(key), EnvOverride(key)] + persist + applies[..chain.attempted] + report
      && run.result == if chain.err.Fail? then chain.err else OutcomeOf(StatusStep, s.faults)
  {
    var r1 := EnvResource(key, s.drivers[key], p);
    var r2 := r1.(spec := Defaulting.Defaulted(r1, p));
    var applies := ApplyCalls(r2, synth(r2));
    var chain := ApplyChain(applies, s.faults);
    var persist := if Defaulting.NeedsDefaults(r1.spec) then [SpecWrite(key, r2.spec)] else [];
    var envDrivers := s.drivers[key := s.drivers[key].(spec := r1.spec)];
    var specDrivers := if Defaulting.NeedsDefaults(r1.spec) then envDrivers[key := envDrivers[key].(spec := r2.spec)] else envDrivers;
    var report := StatusPhase(s, r2, p, chain.err, specDrivers);
    PlannedReached(s, key, p, synth);
    assert SpecThenStatus(s, r2, p, synth, specDrivers).calls == applies[..chain.attempted] + report.calls;
    AppendAssociates([Fetch(key), EnvOverride(key)] + persist, applies[..chain.attempted], report.calls);
  }

  /** The stored drivers after a run that gets past persisting: the overridden and
      defaulted spec, and the status unless its write failed. */
  lemma ReachedDrivers(s: Snapshot, key: Key, p: Platform, synth: Resource -> Children)
    requires Reaches(s, key, p)
    ensures var r1 := EnvResource(key, s.drivers[key], p);
      var r2 := r1.(spec := Defaulting.Defaulted(r1, p));
      var chain := ApplyChain(ApplyCalls(r2, synth(r2)), s.faults);
      var st := Status.StatusOf(ReadNode(s, NodeKey(r2)), ReadController(s, ControllerKey(r2)), chain.err);
      var stored := s.drivers[key].(spec := r2.spec);
      Planned(s, key, p, synth).drivers
        == s.drivers[key := if StatusStep in s.faults then stored else stored.(status := st)]
  {
    var r1 := EnvResource(key, s.drivers[key], p);
    var r2 := r1.(spec := Defaulting.Defaulted(r1, p));
    var chain := ApplyChain(ApplyCalls(r2, synth(r2)), s.faults);
    var envDrivers := s.drivers[key := s.drivers[key].(spec := r1.spec)];
    var specDrivers := if Defaulting.NeedsDefaults(r1.spec) then envDrivers[key := envDrivers[key].(spec := r2.spec)] else envDrivers;
    if !Defaulting.NeedsDefaults(r1.spec) {
      Defaulting.CompleteIsFixpoint(r1, p);
    }
    assert specDrivers == s.drivers[key := s.drivers[key].(spec := r2.spec)];
    PlannedReached(s, key, p, synth);
    assert SpecThenStatus(s, r2, p, synth, specDrivers).drivers == StatusPhase(s, r2, p, chain.err, specDrivers).drivers;
  }

  /** A reconciliation writes only the driver it reconciles, and never adds or removes one. */
  lemma OnlyOwnDriverWritten(s: Snapshot, key: Key, p: Platform, synth: Resource -> Children)
    ensures var run := Planned(s, key, p, synth);
      && run.drivers.Keys == s.drivers.Keys
      && forall k | k in s.drivers && k != key :: run.drivers[k] == s.drivers[k]
  {
    PlannedEarly(s, key, p, synth);
    if Reaches(s, key, p) {
      ReachedDrivers(s, key, p, synth);
    }
  }

  /** Counting the calls of a run laid out as fetch, environment overrides, an optional
      spec write, some applies and the status phase. */
  lemma CountLayout(key: Key, persist: seq<Call>, applied: seq<Call>, report: seq<Call>, step: Step)
    requires |persist| <= 1 && forall i | 0 <= i < |persist| :: persist[i].SpecWrite?
    requires forall i | 0 <= i < |applied| :: applied[i].Apply?
    requires |report| == 3 && report[0].DaemonSetRead? && report[1].DeploymentRead? && report[2].StatusWrite?
    ensures Count([Fetch(key), EnvOverride(key)] + persist + applied + report, step)
      == (if step == FetchStep || step == EnvStep then 1 else 0)
       + (if step == PersistStep then |persist| else 0)
       + Count(applied, step)
       + (if step in {ReadNodeStep, ReadControllerStep, StatusStep} then 1 else 0)
  {
    var head := [Fetch(key), EnvOverride(key)];
    CountConcat(head, persist, step);
    CountConcat(head + persist, applied, step);
    CountConcat(head + persist + applied, report, step);
    assert Count(head, step) == (if step == FetchStep || step == EnvStep then 1 else 0) by {
      assert head[1..] == [EnvOverride(key)];
    }
    assert Count(persist, step) == (if step == PersistStep then |persist| else 0) by {
      if |persist| == 1 {
        assert persist[1..] == [];
      }
    }
    assert Count(report, step) == (if step in {ReadNodeStep, ReadControllerStep, StatusStep} then 1 else 0) by {
      assert report[1..][1..] == [report[2]];
    }
  }

  /** Counting the calls of a run that gets past persisting, segment by segment. */
  lemma ReachedCount(s: Snapshot, key: Key, p: Platform, synth: Resource -> Children, step: Step)
    requires Reaches(s, key, p)
    ensures var r1 := EnvResource(key, s.drivers[key], p);
      var r2 := r1.(spec := Defaulting.Defaulted(r1, p));
      var applies := ApplyCalls(r2, synth(r2));
      var chain := ApplyChain(applies, s.faults);
      Count(Planned(s, key, p, synth).calls, step)
        == (if step == FetchStep || step == EnvStep then 1 else 0)
         + (if step == PersistStep && Defaulting.NeedsDefaults(r1.spec) then 1 else 0)
         + Count(applies[..chain.attempted], step)
         + (if step in {ReadNodeStep, ReadControllerStep, StatusStep} then 1 else 0)
  {
    var r1 := EnvResource(key, s.drivers[key], p);
    var r2 := r1.(spec := Defaulting.Defaulted(r1, p));
    var applies := ApplyCalls(r2, synth(r2));
    var chain := ApplyChain(applies, s.faults);
    var persist := if Defaulting.NeedsDefaults(r1.spec) then [SpecWrite(key, r2.spec)] else [];
    var report := [DaemonSetRead(NodeKey(r2)), DeploymentRead(ControllerKey(r2)),
      StatusWrite(key, Status.StatusOf(ReadNode(s, NodeKey(r2)), ReadController(s, ControllerKey(r2)), chain.err))];
    ReachedShape(s, key, p, synth);
    CountLayout(key, persist, applies[..chain.attempted], report, step);
  }

  /** The chain of three applies: how far it gets and how it ends, by the first faulted step. */
  lemma ChainOfThree(calls: seq<Call>, faults: map<Step, string>)
    requires |calls| == 3
    ensures var c := ApplyChain(calls, faults);
      && c.attempted == (if StepOf(calls[0]) in faults then 1 else if StepOf(calls[1]) in faults then 2 else 3)
      && c.err == (if StepOf(calls[0]) in faults then OutcomeOf(StepOf(calls[0]), faults)
                   else if StepOf(calls[1]) in faults then OutcomeOf(StepOf(calls[1]), faults)
                   else OutcomeOf(StepOf(calls[2]), faults))
  {
    var c := ApplyChain(calls, faults);
    if StepOf(calls[0]) !in faults && StepOf(calls[1]) !in faults && StepOf(calls[2]) !in faults {
      assert c.err.Pass?;
    }
  }

  /** Counting a prefix of three calls. */
  lemma {:induction false} CountPrefixOfThree(calls: seq<Call>, k: nat, step: Step)
    requires |calls| == 3 && k <= 3
    ensures Count(calls[..k], step)
      == (if k >= 1 && StepOf(calls[0]) == step then 1 else 0)
       + (if k >= 2 && StepOf(calls[1]) == step then 1 else 0)
       + (if k >= 3 && StepOf(calls[2]) == step then 1 else 0)
  {
    if k > 0 {
      CountPrefixOfThree(calls, k - 1, step);
      assert calls[..k] == calls[..k - 1] + [calls[k - 1]];
      CountConcat(calls[..k - 1], [calls[k - 1]], step);
      assert [calls[k - 1]][1..] == [];
    }
  }

  /** The children are applied in order, each at most once, and the first failure stops the
      chain: nothing is applied unless the run gets past persisting. */
  lemma AppliesStopAtFirstFailure(s: Snapshot, key: Key, p: Platform, synth: Resource -> Children)
    ensures var run := Planned(s, key, p, synth);
      && Count(run.calls, ApplyNodeStep) == (if Reaches(s, key, p) then 1 else 0)
      && Count(run.calls, ApplyControllerStep) == (if Reaches(s, key, p) && ApplyNodeStep !in s.faults then 1 else 0)
      && Count(run.calls, ApplyDriverStep)
         == (if Reaches(s, key, p) && ApplyNodeStep !in s.faults && ApplyControllerStep !in s.faults then 1 else 0)
  {
    if Reaches(s, key, p) {
      var r1 := EnvResource(key, s.drivers[key], p);
      var r2 := r1.(spec := Defaulting.Defaulted(r1, p));
      var applies := ApplyCalls(r2, synth(r2));
      var chain := ApplyChain(applies, s.faults);
      ChainOfThree(applies, s.faults);
      ReachedCount(s, key, p, synth, ApplyNodeStep);
      ReachedCount(s, key, p, synth, ApplyControllerStep);
      ReachedCount(s, key, p, synth, ApplyDriverStep);
      CountPrefixOfThree(applies, chain.attempted, ApplyNodeStep);
      CountPrefixOfThree(applies, chain.attempted, ApplyControllerStep);
      CountPrefixOfThree(applies, chain.attempted, ApplyDriverStep);
    }
  }

  /** Status is written exactly once when the run gets past persisting (as its last call,
      by `ReachedShape`), and never otherwise. */
  lemma StatusWrittenOnceIffReached(s: Snapshot, key: Key, p: Platform, synth: Resource -> Children)
    ensures Count(Planned(s, key, p, synth).calls, StatusStep) == if Reaches(s, key, p) then 1 else 0
  {
    if Reaches(s, key, p) {
      ReachedCount(s, key, p, synth, StatusStep);
    } else {
      PlannedEarly(s, key, p, synth);
    }
  }

  /** The spec is written back exactly once when defaulting filled a blank field of the
      fetched and overridden spec, and never otherwise. */
  lemma PersistedOnceIffBlank(s: Snapshot, key: Key, p: Platform, synth: Resource -> Children)
    ensures Count(Planned(s, key, p, synth).calls, PersistStep)
      == if FetchStep !in s.faults && key in s.drivers && EnvStep !in s.faults
            && Defaulting.NeedsDefaults(EnvResource(key, s.drivers[key], p).spec)
         then 1 else 0
  {
    if Reaches(s, key, p) {
      var r1 := EnvResource(key, s.drivers[key], p);
      var r2 := r1.(spec := Defaulting.Defaulted(r1, p));
      var applies := ApplyCalls(r2, synth(r2));
      var chain := ApplyChain(applies, s.faults);
      ReachedCount(s, key, p, synth, PersistStep);
      CountPrefixOfThree(applies, chain.attempted, PersistStep);
    } else {
      PlannedEarly(s, key, p, synth);
      if FetchStep !in s.faults && key in s.drivers && EnvStep !in s.faults {
        var r1 := EnvResource(key, s.drivers[key], p);
        var write := SpecWrite(key, Defaulting.Defaulted(r1, p));
        assert Planned(s, key, p, synth).calls == [Fetch(key), EnvOverride(key)] + [write];
        CountConcat([Fetch(key), EnvOverride(key)], [write], PersistStep);
        assert [write][1..] == [];
      }
    }
  }

  /** The first apply error is returned, and reported in the status when that is written;
      without one, the result is that of the status write. */
  lemma ApplyErrorTakesPrecedence(s: Snapshot, key: Key, p: Platform, synth: Resource -> Children)
    requires Reaches(s, key, p)
    ensures var run := Planned(s, key, p, synth);
      var specErr :=
        if ApplyNodeStep in s.faults then OutcomeOf(ApplyNodeStep, s.faults)
        else if ApplyControllerStep in s.faults then OutcomeOf(ApplyControllerStep, s.faults)
        else OutcomeOf(ApplyDriverStep, s.faults);
      && run.result == (if specErr.Fail? then specErr else OutcomeOf(StatusStep, s.faults))
      && (StatusStep !in s.faults ==> key in run.drivers && run.drivers[key].status.errors == Status.ErrorList(specErr))
  {
    var r1 := EnvResource(key, s.drivers[key], p);
    var r2 := r1.(spec := Defaulting.Defaulted(r1, p));
    var applies := ApplyCalls(r2, synth(r2));
    ChainOfThree(applies, s.faults);
    ReachedShape(s, key, p, synth);
    ReachedDrivers(s, key, p, synth);
  }

  /** After a run that gets past persisting, the store holds the defaulted spec; on a valid
      platform it has no blank field left. */
  lemma StoredSpecIsDefaulted(s: Snapshot, key: Key, p: Platform, synth: Resource -> Children)
    requires Reaches(s, key, p)
    ensures var run := Planned(s, key, p, synth);
      var r1 := EnvResource(key, s.drivers[key], p);
      && key in run.drivers
      && run.drivers[key].spec == Defaulting.Defaulted(r1, p)
      && (p.Valid() ==> !Defaulting.NeedsDefaults(run.drivers[key].spec))
  {
    var r1 := EnvResource(key, s.drivers[key], p);
    if p.Valid() {
      Defaulting.DefaultedIdempotent(r1, p);
    }
    ReachedDrivers(s, key, p, synth);
  }

  /** The readiness written to the status is that of the workloads named after the driver;
      a workload that is absent or cannot be read is not ready. */
  lemma StatusReflectsWorkloads(s: Snapshot, key: Key, p: Platform, synth: Resource -> Children)
    requires Reaches(s, key, p) && StatusStep !in s.faults
    ensures var st := Planned(s, key, p, synth).drivers[key].status;
      var nodeKey := Key(key.namespace, Synthesis.Format(Synthesis.NodeDaemonSet, key.name));
      var controllerKey := Key(key.namespace, Synthesis.Format(Synthesis.ControllerDeployment, key.name));
      && (st.nodeReady <==>
           ReadNodeStep !in s.faults && nodeKey in s.daemonSets && Status.NodeSetReady(s.daemonSets[nodeKey]))
      && (st.controllerReady <==>
           ReadControllerStep !in s.faults && controllerKey in s.deployments
           && Status.DeploymentReady(s.deployments[controllerKey]))
  {
    ReachedDrivers(s, key, p, synth);
  }

  /** Reconciling again, after a run that got past persisting, writes no spec: the first
      run left the stored spec complete, and overrides that keep a complete spec complete
      (they may still change an image, as after an upgrade of the operator) leave nothing
      to fill. */
  lemma SecondRunWritesNoSpec(s: Snapshot, key: Key, p: Platform, synth: Resource -> Children)
    requires p.Valid() && Reaches(s, key, p)
    requires key in Planned(s, key, p, synth).drivers
    requires forall sp: DriverSpec :: !Defaulting.NeedsDefaults(sp) ==> !Defaulting.NeedsDefaults(p.envOverride(sp))
    ensures Count(Planned(s.(drivers := Planned(s, key, p, synth).drivers), key, p, synth).calls, PersistStep) == 0
  {
    var t := Planned(s, key, p, synth).drivers;
    StoredSpecIsDefaulted(s, key, p, synth);
    assert !Defaulting.NeedsDefaults(t[key].spec);
    var s2 := s.(drivers := t);
    PersistedOnceIffBlank(s2, key, p, synth);
    assert EnvResource(key, s2.drivers[key], p).spec == p.envOverride(t[key].spec);
  }

  // ---- the reconciler ----

  /** Reconciles LinstorCSIDriver objects through a cluster client. */
  class Reconciler {
    const client: Cluster
    const platform: Platform
    /** Builds the children of a driver; the constructor wires in the builders of `Synthesis`. */
    const synth: Resource -> Children

    constructor (client: Cluster, platform: Platform)
      ensures this.client == client && this.platform == platform && synth == Synthesizer(platform)
    {
      this.client := client;
      this.platform := platform;
      this.synth := Synthesizer(platform);
    }

    /** One reconciliation of the driver at `key`, as `Planned` states it. */
    method Reconcile(key: Key) returns (result: Outcome)
      modifies client`log, client`drivers
      ensures var run := Planned(old(client.State()), key, platform, synth);
        && client.log == old(client.log) + run.calls
        && result == run.result
        && client.drivers == run.drivers
    {
      ghost var s := client.State();
      ghost var log0 := client.log;
      PlannedEarly(s, key, platform, synth);
      var fetched := client.Get(key);
      if fetched.FetchFailed? {
        return Fail(fetched.message);
      }
      if fetched.NotFound? {
        return Pass;
      }
      var res := new LinstorCSIDriver(key, fetched.driver.spec, fetched.driver.status);
      var err := client.UpdateFromEnv(res, platform.envOverride);
      AppendAssociates(log0, [Fetch(key)], [EnvOverride(key)]);
      assert [Fetch(key)] + [EnvOverride(key)] == [Fetch(key), EnvOverride(key)];
      if err.Fail? {
        return err;
      }
      PlannedOverridden(s, key, platform, synth);
      ghost var tail := Overridden(client.State(), res.Value(), platform, synth);
      result := ReconcileOverridden(res);
      AppendAssociates(log0, [Fetch(key), EnvOverride(key)], tail.calls);
    }

    /** The rest of a reconciliation once the environment overrides are stored: defaulting,
        the spec phase and the status phase; the spec phase's error takes precedence. */
    method ReconcileOverridden(res: LinstorCSIDriver) returns (result: Outcome)
      requires res.Id() in client.drivers
      modifies res`spec, res`status, client`log, client`drivers
      ensures var run := Overridden(old(client.State()), old(res.Value()), platform, synth);
        && client.log == old(client.log) + run.calls
        && result == run.result
        && client.drivers == run.drivers
      ensures res.spec == Defaulting.Defaulted(old(res.Value()), platform)
      ensures Defaulting.NeedsDefaults(old(res.spec)) && PersistStep in client.faults ==>
        res.status == old(res.status)
      ensures var r1 := old(res.Value());
        var r2 := r1.(spec := Defaulting.Defaulted(r1, platform));
        var s := old(client.State());
        !(Defaulting.NeedsDefaults(r1.spec) && PersistStep in s.faults) ==>
          res.status == Status.StatusOf(ReadNode(s, NodeKey(r2)), ReadController(s, ControllerKey(r2)),
                                        ApplyChain(ApplyCalls(r2, synth(r2)), s.faults).err)
    {
      ghost var s := client.State();
      ghost var log0 := client.log;
      ghost var r1 := res.Value();
      ghost var spec := Defaulting.Defaulted(r1, platform);
      ghost var persist := if Defaulting.NeedsDefaults(r1.spec) then [SpecWrite(res.Id(), spec)] else [];
      OverriddenStops(s, r1, platform, synth);
      var err := ReconcileResource(res);
      if err.Fail? {
        return err;
      }
      assert client.log == log0 + persist;
      OverriddenReached(s, r1, platform, synth);
      assert res.Value() == r1.(spec := spec);
      ghost var rest := SpecThenStatus(s, res.Value(), platform, synth, client.drivers);
      result := ReconcileSpecThenStatus(res);
      AppendAssociates(log0, persist, rest.calls);
    }

    /** Apply the children, then report status; the first apply error takes precedence
        over the status write's. */
    method ReconcileSpecThenStatus(res: LinstorCSIDriver) returns (result: Outcome)
      requires res.Id() in client.drivers
      modifies res`status, client`log, client`drivers
      ensures var run := SpecThenStatus(old(client.State()), old(res.Value()), platform, synth, old(client.drivers));
        && client.log == old(client.log) + run.calls
        && result == run.result
        && client.drivers == run.drivers
      ensures res.spec == old(res.spec)
      ensures var r := old(res.Value());
        var s := old(client.State());
        res.status == Status.StatusOf(ReadNode(s, NodeKey(r)), ReadController(s, ControllerKey(r)),
                                      ApplyChain(ApplyCalls(r, synth(r)), s.faults).err)
    {
      ghost var s := client.State();
      ghost var log0 := client.log;
      ghost var drivers := client.drivers;
      ghost var r := res.Value();
      ghost var applies := ApplyCalls(r, synth(r));
      ghost var chain := ApplyChain(applies, s.faults);
      var specErr := ReconcileSpec(res);
      var statusErr := ReconcileStatus(res, specErr);
      ghost var report := StatusPhase(s, r, platform, chain.err, drivers);
      AppendAssociates(log0, applies[..chain.attempted], report.calls);
      if specErr.Fail? {
        return specErr;
      }
      return statusErr;
    }

    /** Fill the blank fields of the driver's spec and write the spec back when one was blank. */
    method ReconcileResource(res: LinstorCSIDriver) returns (err: Outcome)
      modifies res`spec, client`log, client`drivers
      ensures res.spec == Defaulting.Defaulted(old(res.Value()), platform)
      ensures Defaulting.NeedsDefaults(old(res.spec)) ==>
        && client.log == old(client.log) + [SpecWrite(res.Id(), res.spec)]
        && (res.Id() in old(client.drivers) ==> err == OutcomeOf(PersistStep, client.faults))
        && (res.Id() !in old(client.drivers) ==> err == Fail(NotFoundMessage))
        && (err.Fail? ==> client.drivers == old(client.drivers))
        && (err.Pass? ==> client.drivers == old(client.drivers)[res.Id() := old(client.drivers)[res.Id()].(spec := res.spec)])
      ensures !Defaulting.NeedsDefaults(old(res.spec)) ==>
        client.log == old(client.log) && err == Pass && client.drivers == old(client.drivers)
    {
      ghost var r0 := res.Value();
      var imagesChanged := FillImages(res);
      var endpointChanged := FillEndpoint(res);
      var accountsChanged := FillServiceAccounts(res);
      var pathChanged := FillKubeletPath(res);
      Defaulting.FieldwiseDefaulted(r0, platform, res.spec);
      Defaulting.BlankFields(r0.spec);
      if imagesChanged || endpointChanged || accountsChanged || pathChanged {
        err := client.Update(res);
      } else {
        err := Pass;
      }
    }

    /** Step one of defaulting: the sidecar image names. */
    method FillImages(res: LinstorCSIDriver) returns (changed: bool)
      modifies res`spec
      ensures var s := old(res.spec);
        res.spec == s.(
          csiAttacherImage := Defaulting.FillBlank(s.csiAttacherImage, platform.attacherImage),
          csiLivenessProbeImage := Defaulting.FillBlank(s.csiLivenessProbeImage, platform.livenessProbeImage),
          csiNodeDriverRegistrarImage := Defaulting.FillBlank(s.csiNodeDriverRegistrarImage, platform.nodeDriverRegistrarImage),
          csiProvisionerImage := Defaulting.FillBlank(s.csiProvisionerImage, platform.provisionerImage),
          csiSnapshotterImage := Defaulting.FillBlank(s.csiSnapshotterImage, platform.snapshotterImage),
          csiResizerImage := Defaulting.FillBlank(s.csiResizerImage, platform.resizerImage))
      ensures var s := old(res.spec);
        changed <==>
          || s.csiAttacherImage == "" || s.csiLivenessProbeImage == "" || s.csiNodeDriverRegistrarImage == ""
          || s.csiProvisionerImage == "" || s.csiSnapshotterImage == "" || s.csiResizerImage == ""
    {
      changed := false;
      if res.spec.csiAttacherImage == "" {
        res.spec := res.spec.(csiAttacherImage := platform.attacherImage);
        changed := true;
      }
      if res.spec.csiLivenessProbeImage == "" {
        res.spec := res.spec.(csiLivenessProbeImage := platform.livenessProbeImage);
        changed := true;
      }
      if res.spec.csiNodeDriverRegistrarImage == "" {
        res.spec := res.spec.(csiNodeDriverRegistrarImage := platform.nodeDriverRegistrarImage);
        changed := true;
      }
      if res.spec.csiProvisionerImage == "" {
        res.spec := res.spec.(csiProvisionerImage := platform.provisionerImage);
        changed := true;
      }
      if res.spec.csiSnapshotterImage == "" {
        res.spec := res.spec.(csiSnapshotterImage := platform.snapshotterImage);
        changed := true;
      }
      if res.spec.csiResizerImage == "" {
        res.spec := res.spec.(csiResizerImage := platform.resizerImage);
        changed := true;
      }
    }

    /** Step two: the endpoint of the LINSTOR controller service `<name>-cs`, over HTTPS
        when a client secret is configured. */
    method FillEndpoint(res: LinstorCSIDriver) returns (changed: bool)
      modifies res`spec
      ensures res.spec == old(res.spec).(controllerEndpoint :=
        Defaulting.FillBlank(old(res.spec.controllerEndpoint),
          Defaulting.DefaultValue(old(res.Value()), Defaulting.ControllerEndpoint, platform)))
      ensures changed <==> old(res.spec.controllerEndpoint) == ""
    {
      changed := false;
      if res.spec.controllerEndpoint == "" {
        var serviceName := Key(res.namespace, res.name + Defaulting.ControllerServiceSuffix);
        var useHttps := res.spec.clientConfig.httpsClientSecret != "";
        res.spec := res.spec.(controllerEndpoint := platform.controllerServiceEndpoint(serviceName, useHttps));
        changed := true;
      }
    }

    /** Step three: the service-account names the workloads used before they were configurable. */
    method FillServiceAccounts(res: LinstorCSIDriver) returns (changed: bool)
      modifies res`spec
      ensures var s := old(res.spec);
        res.spec == s.(
          csiNodeServiceAccountName := Defaulting.FillBlank(s.csiNodeServiceAccountName, res.name + Defaulting.NodeServiceAccount),
          csiControllerServiceAccountName :=
            Defaulting.FillBlank(s.csiControllerServiceAccountName, res.name + Defaulting.ControllerServiceAccount))
      ensures changed <==> old(res.spec.csiNodeServiceAccountName) == "" || old(res.spec.csiControllerServiceAccountName) == ""
    {
      changed := false;
      if res.spec.csiNodeServiceAccountName == "" {
        res.spec := res.spec.(csiNodeServiceAccountName := res.name + Defaulting.NodeServiceAccount);
        changed := true;
      }
      if res.spec.csiControllerServiceAccountName == "" {
        res.spec := res.spec.(csiControllerServiceAccountName := res.name + Defaulting.ControllerServiceAccount);
        changed := true;
      }
    }

    /** Step four: the kubelet's state directory. */
    method FillKubeletPath(res: LinstorCSIDriver) returns (changed: bool)
      modifies res`spec
      ensures res.spec == old(res.spec).(kubeletPath := Defaulting.FillBlank(old(res.spec.kubeletPath), Defaulting.DefaultKubeletPath))
      ensures changed <==> old(res.spec.kubeletPath) == ""
    {
      changed := false;
      if res.spec.kubeletPath == "" {
        res.spec := res.spec.(kubeletPath := Defaulting.DefaultKubeletPath);
        changed := true;
      }
    }

    method ReconcileNodeDaemonSet(res: LinstorCSIDriver) returns (err: Outcome)
      modifies client`log
      ensures client.log == old(client.log) + [Apply(NodeSet(synth(res.Value()).node), Some(res.Id()))]
      ensures err == OutcomeOf(ApplyNodeStep, client.faults)
    {
      var nodeDaemonSet := synth(res.Value()).node;
      err := client.CreateOrUpdate(NodeSet(nodeDaemonSet), Some(res.Id()));
    }

    method ReconcileControllerDeployment(res: LinstorCSIDriver) returns (err: Outcome)
      modifies client`log
      ensures client.log == old(client.log) + [Apply(ControllerSet(synth(res.Value()).controller), Some(res.Id()))]
      ensures err == OutcomeOf(ApplyControllerStep, client.faults)
    {
      var controllerDeployment := synth(res.Value()).controller;
      err := client.CreateOrUpdate(ControllerSet(controllerDeployment), Some(res.Id()));
    }

    method ReconcileCSIDriver(res: LinstorCSIDriver) returns (err: Outcome)
      modifies client`log
      ensures client.log == old(client.log) + [Apply(Registration(synth(res.Value()).driver), None)]
      ensures err == OutcomeOf(ApplyDriverStep, client.faults)
    {
      var csiDriver := synth(res.Value()).driver;
      err := client.CreateOrUpdate(Registration(csiDriver), None);
    }

    /** Apply the three children in order, stopping at the first error. */
    method ReconcileSpec(res: LinstorCSIDriver) returns (err: Outcome)
      modifies client`log
      ensures var applies := ApplyCalls(res.Value(), synth(res.Value()));
        var chain := ApplyChain(applies, client.faults);
        client.log == old(client.log) + applies[..chain.attempted] && err == chain.err
    {
      ghost var applies := ApplyCalls(res.Value(), synth(res.Value()));
      ChainOfThree(applies, client.faults);
      err := ReconcileNodeDaemonSet(res);
      if err.Fail? {
        assert applies[..1] == [applies[0]];
        return;
      }
      err := ReconcileControllerDeployment(res);
      if err.Fail? {
        assert applies[..2] == [applies[0], applies[1]];
        return;
      }
      err := ReconcileCSIDriver(res);
      assert applies[..3] == [applies[0], applies[1], applies[2]];
    }

    /** Read both workloads back, and write readiness and the spec phase's error to the status. */
    method ReconcileStatus(res: LinstorCSIDriver, specErr: Outcome) returns (err: Outcome)
      modifies res`status, client`log, client`drivers
      ensures var r := old(res.Value());
        var s := old(client.State());
        && res.status == Status.StatusOf(ReadNode(s, NodeKey(r)), ReadController(s, ControllerKey(r)), specErr)
        && client.log == old(client.log)
             + [DaemonSetRead(NodeKey(r)), DeploymentRead(ControllerKey(r)), StatusWrite(res.Id(), res.status)]
      ensures res.Id() in old(client.drivers) ==> err == OutcomeOf(StatusStep, client.faults)
      ensures res.Id() !in old(client.drivers) ==> err == Fail(NotFoundMessage)
      ensures err.Fail? ==> client.drivers == old(client.drivers)
      ensures err.Pass? ==> client.drivers == old(client.drivers)[res.Id() := old(client.drivers)[res.Id()].(status := res.status)]
    {
      WorkloadKeys(res.Value(), platform);
      var nodeReady := false;
      var controllerReady := false;
      var dsMeta := Synthesis.NodeMeta(res.Value(), platform);
      var ds := client.GetDaemonSet(Synthesis.KeyOf(dsMeta));
      if ds.ReadOk? {
        nodeReady := ds.value.desiredNumberScheduled == ds.value.numberReady;
      }
      var deployMeta := Synthesis.ControllerMeta(res.Value(), platform);
      var deploy := client.GetDeployment(Synthesis.KeyOf(deployMeta));
      if deploy.ReadOk? {
        controllerReady := deploy.value.replicas == deploy.value.readyReplicas;
      }
      var errors := if specErr.Fail? then [specErr.message] else [];
      res.status := DriverStatus(nodeReady, controllerReady, errors);
      err := client.UpdateStatus(res);
    }
  }
}
