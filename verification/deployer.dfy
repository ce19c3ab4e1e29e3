/**
 * `main`: the deployment steps in their fixed order, the first exception that
 * escapes ending the run.
 */
module Deployer {
  import opened Cluster
  import opened Settings
  import opened Reconcile
  import opened Registry
  import opened Roles

  /** One step of `main`. */
  datatype Step =
    | NamespaceStep
    | ConfigMapStep
    | ServiceStep(name: string)
    | RegistryDaemonSetStep
    | RegistriesStep
    | WebconsoleStep
    | MetadataStep
    | DataStep
    | ClientStep
    | QmgmtStep

  /** The steps of `main`, in order. */
  const Plan: seq<Step> := [
    NamespaceStep, ConfigMapStep,
    ServiceStep(ServiceNames[0]), ServiceStep(ServiceNames[1]), ServiceStep(ServiceNames[2]),
    RegistryDaemonSetStep, RegistriesStep, WebconsoleStep,
    MetadataStep, DataStep, ClientStep, QmgmtStep]

  predicate Known(step: Step) {
    step.ServiceStep? ==> step.name in ServiceNames
  }

  /** What one step does, from `log`. */
  function StepRun(o: Oracle, log: seq<Call>, cfg: Config, files: Files, step: Step): Run
    requires Loadable(files) && Known(step)
  {
    var ns := cfg.namespace;
    match step
    case NamespaceStep => IfAbsentRun(o, log, NamespaceQuery(), NamespaceCreate(ns))
    case ConfigMapStep => IfAbsentRun(o, log, ConfigMapQuery(ns), Create(ConfigMap, ns, files.configMap))
    case ServiceStep(name) => IfAbsentRun(o, log, ServiceQuery(ns, name), Create(Service, ns, files.services[name]))
    case RegistryDaemonSetStep =>
      IfAbsentRun(o, log, DaemonSetQuery(ns, "registry"), DaemonSetCreate(ns, files.registryDs, cfg.version))
    case RegistriesStep => RegistryRun(o, log, ns, cfg.registry)
    case WebconsoleStep => WebconsoleRun(o, log, ns, files.webconsole, cfg.version)
    case MetadataStep => MetadataRun(o, log, ns, files.metadataDs, cfg.version, cfg.metadata)
    case DataStep => DataRun(o, log, ns, files.dataDs, cfg.version, cfg.data)
    case ClientStep => ClientRun(o, log, ns, files.clientDs, cfg.version, cfg.client)
    case QmgmtStep => IfAbsentRun(o, log, QmgmtQuery(ns), QmgmtCreate(ns, files.qmgmtPod, cfg.version))
  }

  /** What each step does, from the calls before it; `StepRun` on the steps of the plan. */
  function StepFn(o: Oracle, cfg: Config, files: Files): (seq<Call>, Step) -> Run
    requires Loadable(files)
  {
    (log: seq<Call>, step: Step) => if Known(step) then StepRun(o, log, cfg, files, step) else Run([], Ok)
  }

  lemma PlanKnown()
    ensures forall i :: 0 <= i < |Plan| ==> Known(Plan[i])
  {
  }

  /** The steps in turn, each run by `f`, stopping at the first that fails. */
  function StepsRun(f: (seq<Call>, Step) -> Run, log: seq<Call>, steps: seq<Step>): Run
    decreases |steps|
  {
    if steps == [] then Run([], Ok)
    else
      var first := f(log, steps[0]);
      if first.status.Fail? then first
      else Then(first.calls, StepsRun(f, log + first.calls, steps[1..]))
  }

  /** The whole deployment. */
  function DeployRun(o: Oracle, log: seq<Call>, cfg: Config, files: Files): Run
    requires Loadable(files)
  {
    StepsRun(StepFn(o, cfg, files), log, Plan)
  }

  /** The runs of the steps that were reached, in order. */
  function Trace(f: (seq<Call>, Step) -> Run, log: seq<Call>, steps: seq<Step>): seq<Run>
    decreases |steps|
  {
    if steps == [] then []
    else
      var first := f(log, steps[0]);
      if first.status.Fail? then [first]
      else [first] + Trace(f, log + first.calls, steps[1..])
  }

  function Flatten(t: seq<Run>): seq<Call>
    decreases |t|
  {
    if t == [] then [] else t[0].calls + Flatten(t[1..])
  }

  /**
   * The run's calls are those of the steps it reached, concatenated; every step
   * reached but the last succeeded. The run succeeds exactly when every step was
   * reached and succeeded; otherwise it fails as its last step did.
   */
  lemma {:induction false} TraceShape(f: (seq<Call>, Step) -> Run, log: seq<Call>, steps: seq<Step>)
    ensures var t := Trace(f, log, steps); var r := StepsRun(f, log, steps);
      && |t| <= |steps| && (steps != [] ==> t != [])
      && r.calls == Flatten(t)
      && (forall i :: 0 <= i < |t| - 1 ==> t[i].status.Ok?)
      && (r.status.Ok? <==> |t| == |steps| && (t == [] || t[|t| - 1].status.Ok?))
      && (r.status.Fail? ==> t != [] && r.status == t[|t| - 1].status)
    decreases |steps|
  {
    if steps != [] {
      var first := f(log, steps[0]);
      assert Flatten([first]) == first.calls + Flatten([]);
      if first.status.Ok? {
        var t' := Trace(f, log + first.calls, steps[1..]);
        TraceShape(f, log + first.calls, steps[1..]);
        var t := [first] + t';
        assert t[1..] == t';
        forall i | 0 <= i < |t| - 1
          ensures t[i].status.Ok?
        {
          if i > 0 {
            assert t[i] == t'[i - 1];
          }
        }
      }
    }
  }

  /** Each run of `t` is step `i` of `steps`, taken after the calls of the runs before it. */
  ghost predicate StepsFrom(f: (seq<Call>, Step) -> Run, log: seq<Call>, steps: seq<Step>, t: seq<Run>) {
    forall i :: 0 <= i < |t| ==> StepAt(f, log, steps, t, i)
  }

  ghost predicate StepAt(f: (seq<Call>, Step) -> Run, log: seq<Call>, steps: seq<Step>, t: seq<Run>, i: nat)
    requires i < |t|
  {
    i < |steps| && t[i] == f(log + Flatten(t[..i]), steps[i])
  }

  /** Step `i` of the run starts from the calls of the steps before it. */
  lemma {:induction false} TraceSteps(f: (seq<Call>, Step) -> Run, log: seq<Call>, steps: seq<Step>)
    ensures StepsFrom(f, log, steps, Trace(f, log, steps))
    decreases |steps|
  {
    var t := Trace(f, log, steps);
    if steps != [] {
      var first := f(log, steps[0]);
      assert t[..0] == [] && Flatten(t[..0]) == [] && log + Flatten(t[..0]) == log;
      if first.status.Fail? {
        assert t == [first];
      } else {
        var t' := Trace(f, log + first.calls, steps[1..]);
        TraceSteps(f, log + first.calls, steps[1..]);
        assert t == [first] + t';
        forall i | 0 <= i < |t|
          ensures StepAt(f, log, steps, t, i)
        {
          if i > 0 {
            TraceStepShift(f, log, steps, first, t', i);
          }
        }
        assert StepsFrom(f, log, steps, t);
      }
    }
  }

  /** Step `i > 0` of a trace, read off the trace of the steps after the first. */
  lemma TraceStepShift(f: (seq<Call>, Step) -> Run, log: seq<Call>, steps: seq<Step>, first: Run, t': seq<Run>, i: nat)
    requires steps != [] && 0 < i < 1 + |t'| && StepsFrom(f, log + first.calls, steps[1..], t')
    ensures StepAt(f, log, steps, [first] + t', i)
  {
    var t := [first] + t';
    assert StepAt(f, log + first.calls, steps[1..], t', i - 1);
    assert t[i] == t'[i - 1] && steps[i] == steps[1..][i - 1];
    assert t[..i] == [first] + t'[..i - 1];
    assert Flatten(t[..i]) == first.calls + Flatten(t'[..i - 1]);
    AppendAssoc(log, first.calls, Flatten(t'[..i - 1]));
  }

  /**
   * How one step can fail: the registries step with no bootstrap node or a
   * bootstrap registry that did not come up, the webconsole step with a pod that
   * did not come up, and any step through an exception nothing catches.
   */
  lemma StepFailures(o: Oracle, log: seq<Call>, cfg: Config, files: Files, step: Step)
    requires Loadable(files) && Known(step)
    ensures var r := StepRun(o, log, cfg, files, step);
      r.status.Fail? ==>
        || (step == RegistriesStep && r.status.failure in {NoBootstrapNode, RegistryTimeout})
        || (step == WebconsoleStep && r.status.failure == WebconsoleTimeout)
        || r.status.failure.Crashed?
  {
    var ns := cfg.namespace;
    match step
    case RegistriesStep =>
      RegistryNeedsBootstrap(o, log, ns, cfg.registry);
      if BootstrapEntries(cfg.registry) != [] {
        LeftoversAfterSuccess(o, log, ns, cfg.registry);
      }
    case WebconsoleStep => WebconsoleContract(o, log, ns, files.webconsole, cfg.version);
    case MetadataStep => MetadataContract(o, log, ns, files.metadataDs, cfg.version, cfg.metadata);
    case DataStep =>
      var ds := IfAbsentRun(o, log, DaemonSetQuery(ns, "data"), DaemonSetCreate(ns, files.dataDs, cfg.version));
      RoleNodesContract(o, log + ds.calls, cfg.data, DataKey, MetadataKey);
    case ClientStep =>
      var ds := IfAbsentRun(o, log, DaemonSetQuery(ns, "client"), DaemonSetCreate(ns, files.clientDs, cfg.version));
      RoleNodesContract(o, log + ds.calls, cfg.client, ClientKey, ClientKey);
    case _ =>
  }

  /**
   * A failed deployment stopped at the step its failure names: no bootstrap node
   * or a registry timeout at the registries step (the seventh), a webconsole
   * timeout at the webconsole step (the eighth); any other failure is a crash.
   * Every step before the one that failed succeeded.
   */
  lemma DeployFailures(o: Oracle, log: seq<Call>, cfg: Config, files: Files)
    requires Loadable(files)
    ensures var r := DeployRun(o, log, cfg, files); var t := Trace(StepFn(o, cfg, files), log, Plan);
      && 1 <= |t| <= |Plan|
      && (forall i :: 0 <= i < |t| ==> t[i] == StepRun(o, log + Flatten(t[..i]), cfg, files, Plan[i]))
      && (r.status.Ok? <==> |t| == |Plan| && t[|t| - 1].status.Ok?)
      && (forall i :: 0 <= i < |t| - 1 ==> t[i].status.Ok?)
      && (r.status.Fail? ==>
            || (r.status.failure in {NoBootstrapNode, RegistryTimeout} && Plan[|t| - 1] == RegistriesStep)
            || (r.status.failure == WebconsoleTimeout && Plan[|t| - 1] == WebconsoleStep)
            || r.status.failure.Crashed?)
  {
    var f := StepFn(o, cfg, files);
    TraceShape(f, log, Plan);
    TraceSteps(f, log, Plan);
    PlanKnown();
    var t := Trace(f, log, Plan);
    forall i | 0 <= i < |t|
      ensures t[i] == StepRun(o, log + Flatten(t[..i]), cfg, files, Plan[i])
    {
      assert StepAt(f, log, Plan, t, i);
    }
    var k := |t| - 1;
    StepFailures(o, log + Flatten(t[..k]), cfg, files, Plan[k]);
  }

  /**
   * Where every list is answered, a step only reads. Only the registries step
   * can still fail (no bootstrap entry, an empty first pod list, a timeout), and
   * the data and client steps on an empty node list.
   */
  lemma StepAnswered(o: Oracle, log: seq<Call>, cfg: Config, files: Files, step: Step)
    requires Loadable(files) && Known(step) && ListsAnswered(o)
    ensures var r := StepRun(o, log, cfg, files, step);
      && ReadOnly(r.calls)
      && (r.status.Fail? ==>
            || (step == RegistriesStep && r.status.failure in {NoBootstrapNode, RegistryTimeout, Crashed(IndexOutOfRange)})
            || (step == DataStep && cfg.data == [] && r.status.failure == Crashed(IndexOutOfRange))
            || (step == ClientStep && cfg.client == [] && r.status.failure == Crashed(IndexOutOfRange)))
  {
    var ns := cfg.namespace;
    match step
    case NamespaceStep => IfAbsentAnswered(o, log, NamespaceQuery(), NamespaceCreate(ns));
    case ConfigMapStep => IfAbsentAnswered(o, log, ConfigMapQuery(ns), Create(ConfigMap, ns, files.configMap));
    case ServiceStep(name) => IfAbsentAnswered(o, log, ServiceQuery(ns, name), Create(Service, ns, files.services[name]));
    case RegistryDaemonSetStep =>
      IfAbsentAnswered(o, log, DaemonSetQuery(ns, "registry"), DaemonSetCreate(ns, files.registryDs, cfg.version));
    case RegistriesStep => RegistryAnswered(o, log, ns, cfg.registry);
    case WebconsoleStep => WebconsoleAnswered(o, log, ns, files.webconsole, cfg.version);
    case MetadataStep => RolesAnswered(o, log, ns, files.metadataDs, cfg.version, cfg.metadata);
    case DataStep => RolesAnswered(o, log, ns, files.dataDs, cfg.version, cfg.data);
    case ClientStep => RolesAnswered(o, log, ns, files.clientDs, cfg.version, cfg.client);
    case QmgmtStep => IfAbsentAnswered(o, log, QmgmtQuery(ns), QmgmtCreate(ns, files.qmgmtPod, cfg.version));
  }

  lemma {:induction false} FlattenReadOnly(t: seq<Run>)
    requires forall i :: 0 <= i < |t| ==> ReadOnly(t[i].calls)
    ensures ReadOnly(Flatten(t))
    decreases |t|
  {
    if t != [] {
      FlattenReadOnly(t[1..]);
      ReadOnlyConcat(t[0].calls, Flatten(t[1..]));
    }
  }

  /**
   * Where every list is answered, the deployment issues only lists, and can fail
   * only at the registries step or on an empty data or client node list.
   */
  lemma DeployAnsweredCalls(o: Oracle, log: seq<Call>, cfg: Config, files: Files)
    requires Loadable(files) && ListsAnswered(o)
    ensures var r := DeployRun(o, log, cfg, files); var t := Trace(StepFn(o, cfg, files), log, Plan);
      && ReadOnly(r.calls)
      && 1 <= |t| <= |Plan|
      && (r.status.Fail? ==>
            || (Plan[|t| - 1] == RegistriesStep && r.status.failure in {NoBootstrapNode, RegistryTimeout, Crashed(IndexOutOfRange)})
            || (Plan[|t| - 1] == DataStep && cfg.data == [] && r.status.failure == Crashed(IndexOutOfRange))
            || (Plan[|t| - 1] == ClientStep && cfg.client == [] && r.status.failure == Crashed(IndexOutOfRange)))
  {
    var f := StepFn(o, cfg, files);
    TraceShape(f, log, Plan);
    TraceSteps(f, log, Plan);
    PlanKnown();
    var t := Trace(f, log, Plan);
    forall i | 0 <= i < |t|
      ensures ReadOnly(t[i].calls)
    {
      assert StepAt(f, log, Plan, t, i);
      StepAnswered(o, log + Flatten(t[..i]), cfg, files, Plan[i]);
    }
    FlattenReadOnly(t);
    var k := |t| - 1;
    assert StepAt(f, log, Plan, t, k);
    StepAnswered(o, log + Flatten(t[..k]), cfg, files, Plan[k]);
  }

  /**
   * Running the deployer again over a cluster where everything it looks for is
   * already there changes nothing: every call it issues is a list, so the objects
   * are as they were. It can then fail only at the registries step or on an empty
   * data or client node list.
   */
  lemma DeployAnswered(o: Oracle, log: seq<Call>, cfg: Config, files: Files)
    requires Loadable(files) && ListsAnswered(o)
    ensures var r := DeployRun(o, log, cfg, files); var t := Trace(StepFn(o, cfg, files), log, Plan);
      && ReadOnly(r.calls)
      && (forall s :: Replay(s, o, log + r.calls) == Replay(s, o, log))
      && 1 <= |t| <= |Plan|
      && (r.status.Fail? ==>
            || (Plan[|t| - 1] == RegistriesStep && r.status.failure in {NoBootstrapNode, RegistryTimeout, Crashed(IndexOutOfRange)})
            || (Plan[|t| - 1] == DataStep && cfg.data == [] && r.status.failure == Crashed(IndexOutOfRange))
            || (Plan[|t| - 1] == ClientStep && cfg.client == [] && r.status.failure == Crashed(IndexOutOfRange)))
  {
    DeployAnsweredCalls(o, log, cfg, files);
    var r := DeployRun(o, log, cfg, files);
    forall s
      ensures Replay(s, o, log + r.calls) == Replay(s, o, log)
    {
      ReplayReadOnly(s, o, log, r.calls);
    }
  }

  /** Taking one more step of a trace appends that step's calls. */
  lemma {:induction false} FlattenSnoc(t: seq<Run>, k: nat)
    requires k < |t|
    ensures Flatten(t[..k + 1]) == Flatten(t[..k]) + t[k].calls
    decreases k
  {
    if k == 0 {
      assert t[..1] == [t[0]] && t[..0] == [];
      assert Flatten([t[0]]) == t[0].calls + Flatten([]);
    } else {
      FlattenSnoc(t[1..], k - 1);
      assert t[..k + 1][1..] == t[1..][..k] && t[..k][1..] == t[1..][..k - 1];
      AppendAssoc(t[0].calls, Flatten(t[1..][..k - 1]), t[k].calls);
    }
  }

  /** The prefix of a trace that takes all of it. */
  lemma TraceCovers(t: seq<Run>)
    ensures Flatten(t[..|t|]) == Flatten(t)
  {
    assert t[..|t|] == t;
  }

  /** One step of `main`, by the procedure it calls. */
  method TakeStep(cp: ControlPlane, cfg: Config, files: Files, step: Step) returns (st: Status)
    requires cp.Valid() && Loadable(files) && Known(step)
    modifies cp
    ensures cp.Valid()
    ensures var r := StepRun(cp.oracle, old(cp.log), cfg, files, step);
      cp.log == old(cp.log) + r.calls && st == r.status
  {
    var ns := cfg.namespace;
    match step
    case NamespaceStep => st := CreateNamespace(cp, ns);
    case ConfigMapStep => st := CreateConfigMap(cp, ns, files.configMap);
    case ServiceStep(name) => st := CreateService(cp, ns, name, files.services[name]);
    case RegistryDaemonSetStep => st := CreateDaemonSet(cp, ns, "registry", files.registryDs, cfg.version);
    case RegistriesStep => st := DeployRegistries(cp, ns, cfg.registry);
    case WebconsoleStep => st := DeployApiWebconsole(cp, ns, files.webconsole, cfg.version);
    case MetadataStep => st := DeployMetadata(cp, ns, files.metadataDs, cfg.version, cfg.metadata);
    case DataStep => st := DeployData(cp, ns, files.dataDs, cfg.version, cfg.data);
    case ClientStep => st := DeployClient(cp, ns, files.clientDs, cfg.version, cfg.client);
    case QmgmtStep => st := DeployQmgmtPod(cp, ns, files.qmgmtPod, cfg.version);
  }

  /**
   * Step `k` of the plan, taken after the steps before it, as the
   * deployment's trace `t` records them: a failure ends the deployment, a success
   * either ends it (after the last step) or leaves step `k + 1` to be taken.
   */
  method RunStep(cp: ControlPlane, cfg: Config, files: Files, k: nat,
                 ghost log0: seq<Call>, ghost t: seq<Run>)
    returns (st: Status)
    requires cp.Valid() && Loadable(files) && k < |Plan|
    requires t == Trace(StepFn(cp.oracle, cfg, files), log0, Plan)
    requires k < |t| && cp.log == log0 + Flatten(t[..k])
    modifies cp
    ensures cp.Valid()
    ensures cp.log == log0 + Flatten(t[..k + 1]) && st == t[k].status
    ensures st.Fail? || k + 1 == |Plan| ==>
      var r := DeployRun(cp.oracle, log0, cfg, files); cp.log == log0 + r.calls && st == r.status
    ensures st.Ok? && k + 1 < |Plan| ==> k + 1 < |t|
  {
    var f := StepFn(cp.oracle, cfg, files);
    TraceShape(f, log0, Plan);
    TraceSteps(f, log0, Plan);
    PlanKnown();
    var step := Plan[k];
    assert StepAt(f, log0, Plan, t, k);
    assert t[k] == StepRun(cp.oracle, cp.log, cfg, files, step);
    FlattenSnoc(t, k);
    st := TakeStep(cp, cfg, files, step);
    AppendAssoc(log0, Flatten(t[..k]), t[k].calls);
    if st.Fail? || k + 1 == |Plan| {
      assert k + 1 == |t|;
      TraceCovers(t);
    }
  }

  /**
   * `main`, once the configuration and the manifest files are loaded: the steps
   * of the plan in order, the first one that fails ending the deployment.
   */
  method Deploy(cp: ControlPlane, cfg: Config, files: Files) returns (st: Status)
    requires cp.Valid() && Loadable(files)
    modifies cp
    ensures cp.Valid()
    ensures var r := DeployRun(cp.oracle, old(cp.log), cfg, files);
      cp.log == old(cp.log) + r.calls && st == r.status
  {
    ghost var log0 := cp.log;
    ghost var t := Trace(StepFn(cp.oracle, cfg, files), log0, Plan);
    TraceShape(StepFn(cp.oracle, cfg, files), log0, Plan);
    assert t[..0] == [] && log0 + [] == log0;
    var k := 0;
    st := Ok;
    while k < |Plan|
      invariant 0 <= k <= |Plan| && cp.Valid()
      invariant k < |Plan| ==> k < |t| && cp.log == log0 + Flatten(t[..k])
      invariant k == |Plan| ==>
        var r := DeployRun(cp.oracle, log0, cfg, files); cp.log == log0 + r.calls && st == r.status
    {
      st := RunStep(cp, cfg, files, k, log0, t);
      if st.Fail? { return; }
      k := k + 1;
    }
  }
}
