/**
 The configuration controller as it runs: one object in memory whose fields the ensures overwrite,
 a state struct they fill, and the cluster they write to.  Every method is proved against the
 function on values that specifies it, so the theorems about those functions hold of this code.
 */
module Reconciler {
  import opened Base
  import opened Labels
  import opened Jobs
  import opened Conditions
  import opened Cluster
  import opened Ensures
  import opened Runner
  import Decimal
  import Policies
  import ValueFrom

  class Controller {
    const owner: Owner
    const generation: nat
    const deleting: bool
    const labels: LabelMap
    const spec: Spec
    const faults: Faults

    // the object in memory
    var finalizers: seq<Finalizer>
    var annotations: Annotations
    var status: ConfigurationStatus

    // the state of this reconcile
    var state: Local

    // the cluster behind the client
    var cluster: World

    function InMemory(): (c: Configuration)
      reads this
    {
      Configuration(owner, generation, deleting, finalizers, labels, annotations, spec, status)
    }

    function View(): (r: Run)
      reads this
    {
      Run(InMemory(), cluster, state, faults)
    }

    constructor (w: World, c: Configuration, f: Faults)
      ensures View() == Start(w, c, f)
    {
      owner, generation, deleting, labels, spec := c.owner, c.generation, c.deleting, c.labels, c.spec;
      finalizers, annotations, status := c.finalizers, c.annotations, c.status;
      state := EMPTY_LOCAL;
      cluster := w;
      faults := f;
    }

    // ---- condition setters

    method FailReady(err: Option<Note>, m: Message)
      modifies this`status
      ensures View() == ReadyFail(old(View()), err, m)
    {
      var cond := new ConditionManager(status.ready, generation);
      cond.Overwrite(StatusFalse, Error, m, if err.Some? then err.value else status.ready.detail, cluster.now);
      status := status.(ready := cond.condition);
    }

    method ActReady(m: Message)
      modifies this`status
      ensures View() == ReadyAct(old(View()), m)
    {
      var cond := new ConditionManager(status.ready, generation);
      cond.Overwrite(StatusFalse, ActionRequired, m, NO_NOTE, cluster.now);
      status := status.(ready := cond.condition);
    }

    method FailPlan(err: Option<Note>, m: Message)
      modifies this`status
      ensures View() == PlanFail(old(View()), err, m)
    {
      var cond := new ConditionManager(status.plan, generation);
      cond.Overwrite(StatusFalse, Error, m, if err.Some? then err.value else status.plan.detail, cluster.now);
      status := status.(plan := cond.condition);
    }

    method FailApply(err: Option<Note>, m: Message)
      modifies this`status
      ensures View() == ApplyFail(old(View()), err, m)
    {
      var cond := new ConditionManager(status.apply, generation);
      cond.Overwrite(StatusFalse, Error, m, if err.Some? then err.value else status.apply.detail, cluster.now);
      status := status.(apply := cond.condition);
    }

    method FailPolicy(err: Option<Note>, m: Message)
      modifies this`status
      ensures View() == PolicyFail(old(View()), err, m)
    {
      var cond := new ConditionManager(status.policy, generation);
      cond.Overwrite(StatusFalse, Error, m, if err.Some? then err.value else status.policy.detail, cluster.now);
      status := status.(policy := cond.condition);
    }

    method FailProvider(err: Option<Note>, m: Message)
      modifies this`status
      ensures View() == ProviderFail(old(View()), err, m)
    {
      var cond := new ConditionManager(status.provider, generation);
      cond.Overwrite(StatusFalse, Error, m, if err.Some? then err.value else status.provider.detail, cluster.now);
      status := status.(provider := cond.condition);
    }

    // ---- preparation

    method EnsureGate(g: Gate, number: nat) returns (o: Outcome)
      modifies this`status
      ensures Step(View(), o) == PassGate(old(View()), g, number)
    {
      hide Set;
      match g
      case Open => o := Continue;
      case Awaited => ActReady(Unavailable(number)); o := Requeue;
      case Ignored => ActReady(Unavailable(number)); o := Ignore;
      case Broken(t) => FailReady(Some(t), Unavailable(number)); o := Failure(ApiError(false, t));
    }

    method EnsurePresent() returns (o: Outcome)
      modifies this`finalizers, this`cluster
      ensures Step(View(), o) == FinalizerPresent(old(View()))
    {
      if deleting || Ours in finalizers { return Continue; }
      finalizers := finalizers + [Ours];
      if AddFinalizer in faults { return Failure(faults[AddFinalizer]); }
      if cluster.stored.Some? {
        cluster := cluster.(stored := Some(cluster.stored.value.(finalizers := finalizers)));
      }
      o := Requeue;
    }

    method EnsureAllowed() returns (o: Outcome)
      modifies this`status
      ensures Step(View(), o) == ReconcileAllowed(old(View()))
    {
      hide Set;
      if Read(annotations, ReconcileAnnotation) == "false" {
        status := status.(ready := Warn(status.ready, generation, ReconcileDisabled, cluster.now));
        return Ignore;
      }
      o := Continue;
    }

    method EnsureCaptured() returns (o: Outcome)
      modifies this`status, this`state
      ensures Step(View(), o) == CapturedState(old(View()))
    {
      hide Set, PassGate;
      if !cluster.inputs.gates.captured.Open? {
        o := EnsureGate(cluster.inputs.gates.captured, 0);
        return;
      }
      if status.resourceStatus == UnknownStatus {
        status := status.(resourceStatus := OutOfSync);
      }
      state := state.(jobs := cluster.jobs, policies := cluster.inputs.policies);
      o := Continue;
    }

    /** Wait while a job of the configuration is running that does not carry its generation. */
    method EnsureIdle() returns (o: Outcome)
      ensures Step(View(), o) == NoActivity(View())
    {
      for i := 0 to |state.jobs|
        invariant forall k :: 0 <= k < i ==> !Blocks(InMemory(), state.jobs[k])
      {
        var j := state.jobs[i];
        if MatchesLabels(OwnerFilter(owner), j.labels) && !j.complete && !j.failed && j.metaGeneration != generation {
          assert j in state.jobs && Blocks(InMemory(), j);
          return Requeue;
        }
      }
      o := Continue;
    }

    method EnsureValues() returns (o: Outcome)
      modifies this`status, this`state
      ensures Step(View(), o) == ValuesResolved(old(View()))
    {
      hide Set, ValueFrom.Resolve, NoteUntyped, ReadyFail, ReadyAct;
      var broken := set i: nat | i < |spec.valueFrom| && ReadValueFrom(i) in faults;
      assert broken == BrokenEntries(View());
      var v := ValueFrom.ResolveAll(spec.valueFrom, cluster.inputs.store, broken);
      NoteEntries(v.untyped);
      match v.stop
      case None =>
        state := state.(valueFrom := v.values);
        o := Continue;
      case Some(found) =>
        match found.1 {
          case Exclusive =>
            FailReady(Some(EXCLUSIVE_NOTE), OptionsExclusive(found.0));
            o := Ignore;
          case Unmet =>
            ActReady(ValueMissing(found.0));
            o := Requeue;
          case _ =>
            var e := if ReadValueFrom(found.0) in faults then faults[ReadValueFrom(found.0)]
                     else ApiError(false, UNDECODABLE_NOTE);
            FailReady(Some(e.text), ValueBroken(found.0));
            o := Failure(e);
        }
    }

    /** Report each entry without a source, in order. */
    method NoteEntries(untyped: seq<nat>)
      modifies this`status
      ensures View() == NoteUntyped(old(View()), untyped)
    {
      hide ReadyFail;
      for i := 0 to |untyped|
        invariant View() == NoteUntyped(old(View()), untyped[..i])
      {
        assert untyped[..i + 1][..i] == untyped[..i];
        FailReady(Some(UNTYPED_NOTE), MissingType(untyped[i]));
      }
      assert untyped[..|untyped|] == untyped;
    }

    method EnsureTemplate() returns (o: Outcome)
      modifies this`status, this`state
      ensures Step(View(), o) == TemplateLoaded(old(View()))
    {
      hide ReadyAct, ReadyFail;
      if cluster.inputs.customTemplate && GetTemplate in faults {
        FailReady(Some(faults[GetTemplate].text), ApiCallFailed);
        return Failure(faults[GetTemplate]);
      }
      if cluster.inputs.template.None? {
        ActReady(TemplateMissing);
        return Ignore;
      }
      state := state.(templateHash := cluster.inputs.template.value);
      o := Continue;
    }

    method EnsureProvider() returns (o: Outcome)
      modifies this`status, this`state
      ensures Step(View(), o) == ProviderUsable(old(View()))
    {
      hide Set, ProviderFail;
      if GetProvider in faults {
        FailProvider(Some(faults[GetProvider].text), ApiCallFailed);
        return Failure(faults[GetProvider]);
      }
      if cluster.inputs.provider.None? {
        status := status.(provider := Act(status.provider, generation, ProviderMissing, cluster.now));
        return Requeue;
      }
      var p := cluster.inputs.provider.value;
      if !p.ready {
        status := status.(provider := Warn(status.provider, generation, ProviderNotReady, cluster.now));
        return Requeue;
      }
      state := state.(provider := Some(p));
      if p.selector.Selects? {
        if GetNamespace in faults {
          FailProvider(Some(faults[GetNamespace].text), ApiCallFailed);
          return Requeue;
        }
        if EvaluateSelector in faults {
          FailProvider(Some(faults[EvaluateSelector].text), ApiCallFailed);
          return Failure(faults[EvaluateSelector]);
        }
        if !p.selector.match_ {
          status := status.(provider := Act(status.provider, generation, ProviderForbidden, cluster.now));
          return Ignore;
        }
      }
      status := status.(provider := Success(status.provider, generation, ProviderReadyMessage, cluster.now));
      o := Continue;
    }

    method EnsureConfigSecret() returns (o: Outcome)
      modifies this`status, this`state, this`cluster
      ensures Step(View(), o) == ConfigSecretWritten(old(View()))
    {
      hide ReadyFail, PolicyFail, Policies.FindMatchingPolicy, JobVariables;
      if ReadConfigSecret in faults {
        FailReady(Some(faults[ReadConfigSecret].text), ApiCallFailed);
        return Failure(faults[ReadConfigSecret]);
      }
      if state.policies != [] && GetPolicyNamespace in faults {
        FailPolicy(Some(faults[GetPolicyNamespace].text), PolicyLookupFailed);
        return Failure(faults[GetPolicyNamespace]);
      }
      var m := Policies.Find(state.policies);
      if m.BadSelector? || m.Ambiguous? {
        FailPolicy(Some(POLICY_NOTE), PolicyLookupFailed);
        return Failure(ApiError(false, POLICY_NOTE));
      }
      var variables := JobVariables(View());
      state := state.(constraint := if m.Governing? then Some(m.constraint) else None);
      if WriteConfigSecret in faults {
        FailReady(Some(faults[WriteConfigSecret].text), ApiCallFailed);
        return Failure(faults[WriteConfigSecret]);
      }
      cluster := cluster.(secrets := cluster.secrets.(config := Some(variables)));
      o := Continue;
    }

    // ---- plan

    method CreateJobFor(stage: Stage, extra: LabelMap)
      modifies this`cluster
      ensures View() == Launch(old(View()), stage, extra)
    {
      hide JobLabels;
      var job := Job(cluster.nextJob, JobLabels(View(), stage, extra), 1, cluster.now, false, false);
      cluster := cluster.(jobs := cluster.jobs + [job],
                          nextJob := cluster.nextJob + 1,
                          log := cluster.log + [JobCreated(stage, generation, spec.autoApproval, cluster.nextJob)]);
    }

    /** The filter all stages share: generation, stage, and the configuration's name, namespace and UID. */
    method OwnFilter(stage: Stage) returns (filter: JobFilter)
      ensures fresh(filter) && filter.list == state.jobs
      ensures filter.View() == Filter(owner.namespace, owner.name, Decimal.Format(generation), owner.uid, StageName(stage), map[])
    {
      filter := new JobFilter(state.jobs);
      filter.WithGeneration(generation);
      filter.WithOwner(owner);
      filter.WithStage(stage);
    }

    method FindPlanJob() returns (job: Option<Job>)
      ensures job == FoundJob(View(), PlanStage, PlanExtra(View()))
    {
      hide Latest, StageName, Decimal.Format;
      var filter := OwnFilter(PlanStage);
      filter.WithLabel(DriftKey, Read(annotations, DriftAnnotation));
      filter.WithLabel(RetryKey, Read(annotations, RetryAnnotation));
      filter.WithLabel(TemplateHashKey, state.templateHash);
      assert filter.View() == StageFilter(owner, generation, PlanStage, PlanExtra(View()));
      job := filter.LatestJob();
    }

    method FindApplyJob() returns (job: Option<Job>)
      ensures job == FoundJob(View(), ApplyStage, ApplyExtra(View()))
    {
      hide Latest, StageName;
      var filter := OwnFilter(ApplyStage);
      filter.WithLabel(PlanIdKey, PlanId(View()));
      filter.WithLabel(TemplateHashKey, state.templateHash);
      assert filter.View() == StageFilter(owner, generation, ApplyStage, ApplyExtra(View()));
      job := filter.LatestJob();
    }

    method FindDestroyJob() returns (job: Option<Job>)
      ensures job == FoundJob(View(), DestroyStage, DestroyExtra(View()))
    {
      hide Latest, StageName;
      var filter := OwnFilter(DestroyStage);
      filter.WithLabel(RetryKey, Read(annotations, RetryAnnotation));
      assert filter.View() == StageFilter(owner, generation, DestroyStage, DestroyExtra(View()));
      job := filter.LatestJob();
    }

    method DetectError() returns (o: Outcome)
      modifies this`status
      ensures Step(View(), o) == DetectErrors(old(View()))
    {
      hide ReadyAct;
      match cluster.inputs.detection
      case Undetected => o := Ignore;
      case PodUnfinished => o := Requeue;
      case Detected(d) =>
        ActReady(DetectedError(d));
        o := Ignore;
    }

    method EnsurePlan() returns (o: Outcome)
      modifies this`status, this`annotations, this`cluster
      ensures Step(View(), o) == TerraformPlan(old(View()))
    {
      hide IsRetryable, RetryTime, PlanFail, Set, FoundJob, PlanExtra, AskApproval, DetectErrors, NewJob;
      var c := InMemory();
      if HasRetry(c) && RetryTime(c).None? {
        FailPlan(None, RetryInvalid);
        return Ignore;
      }
      if !IsRetryable(c) {
        if IsFailed(status.plan, generation) { return Ignore; }
        if IsComplete(status.plan, generation) {
          if !spec.driftDetection || Read(annotations, DriftAnnotation) == "" { return Continue; }
        }
      }
      if RenderJob(PlanStage) in faults {
        FailPlan(Some(faults[RenderJob(PlanStage)].text), PlanRenderFailed);
        return Failure(faults[RenderJob(PlanStage)]);
      }
      var extra := PlanExtra(View());
      var job := FindPlanJob();
      if job.None? {
        if !spec.autoApproval && !NeedsApproval(c) {
          o := Annotate();
          return;
        }
        if CreateJob(PlanStage) in faults {
          FailPlan(Some(faults[CreateJob(PlanStage)].text), PlanCreateFailed);
          return Failure(faults[CreateJob(PlanStage)]);
        }
        CreateJobFor(PlanStage, extra);
        status := status.(plan := Progress(status.plan, generation, PlanInProgress, cluster.now));
        return Requeue;
      }
      if job.value.complete {
        status := status.(plan := Success(status.plan, generation, PlanComplete, cluster.now));
        return Continue;
      }
      if job.value.failed {
        FailPlan(None, PlanFailed);
        o := DetectError();
        return;
      }
      status := status.(plan := Progress(status.plan, generation, PlanRunning, cluster.now));
      o := Requeue;
    }

    /** Put the approval mark on the object, and on the cloud resource that manages it. */
    method Annotate() returns (o: Outcome)
      modifies this`status, this`annotations, this`cluster
      ensures Step(View(), o) == AskApproval(old(View()))
    {
      hide PlanFail;
      annotations := annotations[ApplyAnnotation := "false"];
      if PatchApply in faults {
        FailPlan(Some(faults[PatchApply].text), PlanAnnotateFailed);
        return Failure(faults[PatchApply]);
      }
      if cluster.stored.Some? {
        cluster := cluster.(stored := Some(cluster.stored.value.(annotations := annotations)));
      }
      if cluster.inputs.management.ManagedBy? {
        if GetCloudResource in faults {
          FailPlan(Some(faults[GetCloudResource].text), ApiCallFailed);
          return Failure(faults[GetCloudResource]);
        }
        if !cluster.inputs.management.found {
          FailPlan(None, CloudResourceMissing);
          return Requeue;
        }
        if PatchCloudResource in faults {
          FailPlan(Some(faults[PatchCloudResource].text), ApiCallFailed);
          return Failure(faults[PatchCloudResource]);
        }
      }
      o := Requeue;
    }

    // ---- review

    method EnsurePlanSecret() returns (o: Outcome)
      modifies this`status, this`state
      ensures Step(View(), o) == PlanSecretRead(old(View()))
    {
      hide ReadyFail;
      if GetPlanSecret in faults {
        FailReady(Some(faults[GetPlanSecret].text), ApiCallFailed);
        return Failure(faults[GetPlanSecret]);
      }
      if cluster.secrets.planJson.None? {
        FailReady(None, PlanSecretMissing);
        return Ignore;
      }
      state := state.(plan := cluster.secrets.planJson);
      o := Continue;
    }

    method EnsureCosts() returns (o: Outcome)
      modifies this`status
      ensures Step(View(), o) == CostsRecorded(old(View()))
    {
      hide PassGate;
      if !cluster.inputs.gates.costStatus.Open? {
        o := EnsureGate(cluster.inputs.gates.costStatus, 5);
        return;
      }
      status := status.(costs := cluster.inputs.costs);
      o := Continue;
    }

    method EnsurePolicy() returns (o: Outcome)
      modifies this`status
      ensures Step(View(), o) == PolicyChecked(old(View()))
    {
      hide PolicyFail, Set;
      if state.constraint.None? {
        status := status.(policy := Success(status.policy, generation, PolicyNotConfigured, cluster.now));
        return Continue;
      }
      if GetReport in faults {
        FailPolicy(Some(faults[GetReport].text), ApiCallFailed);
        return Failure(faults[GetReport]);
      }
      if cluster.secrets.report.None? {
        status := status.(policy := Warn(status.policy, generation, ReportMissing, cluster.now));
        return Requeue;
      }
      var failures := 0;
      match cluster.secrets.report.value {
        case Summary(f) =>
          if !f.Count? {
            FailPolicy(Some(REPORT_NOTE), ReportInvalid);
            return Ignore;
          }
          failures := f.count;
        case Flat(passed, failed, zero) =>
          if passed.None? || failed.None? || zero != 0 {
            FailPolicy(Some(REPORT_NOTE), ReportInvalid);
            return Ignore;
          }
      }
      if CopyReport in faults {
        FailPolicy(Some(faults[CopyReport].text), ApiCallFailed);
        return Failure(faults[CopyReport]);
      }
      if failures > 0 {
        status := status.(policy := Act(status.policy, generation, PolicyViolated, cluster.now));
        return Ignore;
      }
      status := status.(policy := Success(status.policy, generation, PolicyPassed, cluster.now));
      o := Continue;
    }

    method EnsureDrift() returns (o: Outcome)
      modifies this`status, this`state
      ensures Step(View(), o) == DriftChecked(old(View()))
    {
      hide ReadyFail;
      if spec.driftDetection {
        status := status.(driftTimestamp := Read(annotations, DriftAnnotation));
      }
      if state.plan.None? || state.plan.value.GarbledPlan? {
        FailReady(Some(PLAN_NOTE), DocumentUndecodable);
        return Failure(ApiError(false, PLAN_NOTE));
      }
      state := state.(hasDrift := state.plan.value.needsApply);
      o := Continue;
    }

    // ---- apply

    method EnsureApply() returns (o: Outcome)
      modifies this`status, this`cluster
      ensures Step(View(), o) == TerraformApply(old(View()))
    {
      hide ApplyFail, Set, FoundJob, ApplyExtra, DetectErrors, NewJob;
      if GetStateForApply in faults {
        FailApply(Some(faults[GetStateForApply].text), ApiCallFailed);
        return Failure(faults[GetStateForApply]);
      }
      if !state.hasDrift && cluster.secrets.state.Some? {
        status := status.(resourceStatus := InSync,
                          apply := Success(status.apply, generation, NothingToApply, cluster.now));
        return Continue;
      }
      if NeedsApproval(InMemory()) && !spec.autoApproval {
        status := status.(apply := Act(status.apply, generation, AwaitingAnnotation, cluster.now),
                          ready := Progress(status.ready, generation, AwaitingApproval, cluster.now));
        status := status.(resourceStatus := OutOfSync);
        return Ignore;
      }
      if RenderJob(ApplyStage) in faults {
        FailApply(Some(faults[RenderJob(ApplyStage)].text), ApplyRenderFailed);
        return Failure(faults[RenderJob(ApplyStage)]);
      }
      var job := FindApplyJob();
      if job.None? {
        status := status.(resourceStatus := OutOfSync);
        if CreateJob(ApplyStage) in faults {
          FailApply(Some(faults[CreateJob(ApplyStage)].text), ApplyCreateFailed);
          return Failure(faults[CreateJob(ApplyStage)]);
        }
        CreateJobFor(ApplyStage, ApplyExtra(View()));
        status := status.(apply := Progress(status.apply, generation, ApplyStarted, cluster.now));
        return Requeue;
      }
      if job.value.complete {
        status := status.(resourceStatus := InSync,
                          apply := Success(status.apply, generation, ApplyComplete, cluster.now));
        return Continue;
      }
      if job.value.failed {
        FailApply(None, ApplyFailed);
        o := DetectError();
        return;
      }
      status := status.(apply := Progress(status.apply, generation, ApplyInProgress, cluster.now));
      o := Requeue;
    }

    method EnsureConnection() returns (o: Outcome)
      modifies this`status, this`state
      ensures Step(View(), o) == ConnectionWritten(old(View()))
    {
      hide ReadyFail, PassGate;
      if GetStateForConnection in faults {
        FailReady(Some(faults[GetStateForConnection].text), ApiCallFailed);
        return Failure(faults[GetStateForConnection]);
      }
      if cluster.secrets.state.None? {
        FailReady(None, StateSecretMissing);
        return Ignore;
      }
      state := state.(state := cluster.secrets.state);
      o := EnsureGate(cluster.inputs.gates.connection, 6);
    }

    method EnsureStatus() returns (o: Outcome)
      modifies this`status
      ensures Step(View(), o) == StatusRecorded(old(View()))
    {
      hide ReadyFail, Set;
      if state.state.None? || state.state.value.GarbledState? {
        FailReady(Some(STATE_NOTE), DocumentUndecodable);
        return Failure(ApiError(false, STATE_NOTE));
      }
      status := status.(resources := Some(state.state.value.resources));
      status := status.(terraformVersion := state.state.value.version);
      status := status.(ready := Success(status.ready, generation, ResourceReady, cluster.now));
      o := Continue;
    }

    // ---- deletion

    method EnsureDestroy() returns (o: Outcome)
      modifies this`status, this`cluster
      ensures Step(View(), o) == TerraformDestroy(old(View()))
    {
      hide ReadyFail, Set, FoundJob, DestroyExtra, NewJob;
      if Orphaned(InMemory()) { return Continue; }
      status := status.(resourceStatus := Destroying);
      if status.resources == Some(0) { return Continue; }
      if GetStateForDestroy in faults {
        FailReady(Some(faults[GetStateForDestroy].text), ApiCallFailed);
        return Failure(faults[GetStateForDestroy]);
      }
      if cluster.secrets.state.None? { return Continue; }
      if RenderJob(DestroyStage) in faults {
        FailReady(Some(faults[RenderJob(DestroyStage)].text), DestroyRenderFailed);
        return Failure(faults[RenderJob(DestroyStage)]);
      }
      var job := FindDestroyJob();
      if job.None? {
        if CreateJob(DestroyStage) in faults {
          FailReady(Some(faults[CreateJob(DestroyStage)].text), DestroyCreateFailed);
          return Failure(faults[CreateJob(DestroyStage)]);
        }
        CreateJobFor(DestroyStage, DestroyExtra(View()));
        status := status.(ready := Progress(status.ready, generation, DestroyRunning, cluster.now));
        return Requeue;
      }
      if job.value.complete {
        status := status.(ready := Success(status.ready, generation, DestroyComplete, cluster.now));
        return Continue;
      }
      if job.value.failed {
        FailReady(None, DestroyFailed);
        status := status.(resourceStatus := DestroyingFailed);
        return Ignore;
      }
      status := status.(ready := Progress(status.ready, generation, DestroyRunning, cluster.now));
      o := Requeue;
    }

    method EnsureSecretsGone() returns (o: Outcome)
      modifies this`status, this`cluster
      ensures Step(View(), o) == DeleteSecrets(old(View()), SIX_SECRETS)
    {
      hide ReadyFail, Without;
      for i := 0 to |SIX_SECRETS|
        invariant DeleteSecrets(View(), SIX_SECRETS[i..]) == DeleteSecrets(old(View()), SIX_SECRETS)
      {
        assert SIX_SECRETS[i..][1..] == SIX_SECRETS[i + 1..];
        var call := DeleteSecret(SIX_SECRETS[i]);
        if call in faults {
          FailReady(Some(faults[call].text), DeleteFailed);
          return Failure(faults[call]);
        }
        cluster := cluster.(secrets := Without(cluster.secrets, SIX_SECRETS[i]));
      }
      o := Continue;
    }

    method EnsureJobsGone() returns (o: Outcome)
      modifies this`status, this`cluster
      ensures Step(View(), o) == JobsDeleted(old(View()))
    {
      hide ReadyFail, LabelledJobs, Removed;
      if ListJobs in faults {
        FailReady(Some(faults[ListJobs].text), ApiCallFailed);
        return Failure(faults[ListJobs]);
      }
      var list := LabelledJobs(owner, cluster.jobs);
      for i := 0 to |list|
        invariant DeleteJobs(View(), list, i) == DeleteJobs(old(View()), list, 0)
      {
        if DeleteJob(i) in faults {
          FailReady(Some(faults[DeleteJob(i)].text), DeleteFailed);
          return Failure(faults[DeleteJob(i)]);
        }
        cluster := cluster.(jobs := Removed(cluster.jobs, list[i]));
      }
      o := Continue;
    }

    method EnsureReleased() returns (o: Outcome)
      modifies this`finalizers, this`cluster
      ensures Step(View(), o) == FinalizerRemoved(old(View()))
    {
      if Ours !in finalizers { return Continue; }
      var kept: seq<Finalizer> := [];
      for i := 0 to |finalizers|
        invariant kept == WithoutOurs(finalizers[..i])
      {
        assert finalizers[..i + 1][..i] == finalizers[..i];
        if finalizers[i] != Ours {
          kept := kept + [finalizers[i]];
        }
      }
      assert finalizers[..|finalizers|] == finalizers;
      finalizers := kept;
      if RemoveFinalizer in faults { return Failure(faults[RemoveFinalizer]); }
      cluster := cluster.(stored := StoreFinalizers(cluster.stored, kept));
      o := Continue;
    }

    // ---- the runner

    method EnsureOne(e: Ensure) returns (o: Outcome)
      modifies this
      ensures Step(View(), o) == Perform(e, old(View()))
    {
      hide FinalizerPresent, ReconcileAllowed, CapturedState, NoActivity, PassGate, ValuesResolved, TemplateLoaded,
           ProviderUsable, ConfigSecretWritten, TerraformPlan, PlanSecretRead, CostsRecorded, PolicyChecked,
           DriftChecked, TerraformApply, ConnectionWritten, StatusRecorded, TerraformDestroy, DeleteSecrets,
           JobsDeleted, FinalizerRemoved;
      match e
      case EnsureFinalizerPresent => o := EnsurePresent();
      case EnsureReconcileAnnotation => o := EnsureAllowed();
      case EnsureCapturedState => o := EnsureCaptured();
      case EnsureNoActivity => o := EnsureIdle();
      case EnsureCostSecret => o := EnsureGate(cluster.inputs.gates.costSecret, 1);
      case EnsureValueFromSecret => o := EnsureValues();
      case EnsureAuthenticationSecret => o := EnsureGate(cluster.inputs.gates.auth, 2);
      case EnsureCustomJobTemplate => o := EnsureTemplate();
      case EnsureProviderReady => o := EnsureProvider();
      case EnsureCustomBackendTemplate => o := EnsureGate(cluster.inputs.gates.backend, 3);
      case EnsurePolicyDefaultsExist => o := EnsureGate(cluster.inputs.gates.defaults, 4);
      case EnsureJobConfigurationSecret => o := EnsureConfigSecret();
      case EnsureTerraformPlan => o := EnsurePlan();
      case EnsureTerraformPlanSecret => o := EnsurePlanSecret();
      case EnsureCostStatus => o := EnsureCosts();
      case EnsurePolicyStatus => o := EnsurePolicy();
      case EnsureDriftDetection => o := EnsureDrift();
      case EnsureTerraformApply => o := EnsureApply();
      case EnsureConnectionSecret => o := EnsureConnection();
      case EnsureTerraformStatus => o := EnsureStatus();
      case EnsureTerraformDestroy => o := EnsureDestroy();
      case EnsureSecretsDeleted => o := EnsureSecretsGone();
      case EnsureJobsDeleted => o := EnsureJobsGone();
      case EnsureFinalizerRemoved => o := EnsureReleased();
    }

    /** The loop of the runner: stop at the first ensure that does not continue. */
    method RunEnsures(list: seq<Ensure>) returns (o: Outcome)
      modifies this
      ensures Step(View(), o) == RunAll(list, old(View()))
    {
      hide Perform;
      for i := 0 to |list|
        invariant RunAll(list[i..], View()) == RunAll(list, old(View()))
      {
        assert list[i..][1..] == list[i + 1..];
        o := EnsureOne(list[i]);
        if !o.Continue? { return; }
      }
      o := Continue;
    }

    /** After the last ensure has passed. */
    method Succeed(original: Configuration)
      modifies this`status
      ensures InMemory() == MarkReady(old(InMemory()), original, cluster.now)
    {
      hide Set;
      status := status.(ready := Success(status.ready, generation, ResourceReady, cluster.now));
      if !(status.lastSuccess.generation == generation && InMemory() == original) {
        status := status.(lastSuccess := Stamp(generation, cluster.now));
      }
    }

    /** The deferred block: stamp the status, then patch it. */
    method Finish(o: Outcome, original: Configuration) returns (failed: bool)
      modifies this`status, this`cluster
      ensures InMemory() == Conclude(Step(old(View()), o), original)
      ensures cluster == StoreStatus(old(cluster), InMemory(), faults)
      ensures failed == (old(cluster).stored.Some? && PatchStatus in faults)
    {
      hide MarkReady;
      if o.Continue? {
        Succeed(original);
      }
      if !(status.lastReconcile.generation == generation && InMemory() == original) {
        status := status.(lastReconcile := Stamp(generation, cluster.now));
      }
      failed := cluster.stored.Some? && PatchStatus in faults;
      if cluster.stored.Some? && !failed {
        cluster := cluster.(stored := Some(cluster.stored.value.(status := status)));
      }
    }
  }

  /** One reconcile, from the world it finds to the world it leaves. */
  method ReconcileOnce(w: World, faults: Faults) returns (v: World, r: Result)
    ensures v == Reconcile(w, faults) && r == ReconcileResult(w, faults)
  {
    hide RunAll, Conclude;
    if w.stored.None? { return w, Settled; }
    var original := w.stored.value;
    var controller := new Controller(w, original, faults);
    var o := controller.RunEnsures(if IsDeletionCandidate(original) then DELETION else NORMAL);
    assert Step(controller.View(), o) == Body(w, faults);
    ghost var x := Body(w, faults);
    assert controller.faults == faults;
    var failed := controller.Finish(o, original);
    v := controller.cluster;
    if failed {
      r := Errored(faults[PatchStatus].text);
    } else {
      match o
      case Continue => r := Settled;
      case Requeue => r := Requeued;
      case Ignore => r := Settled;
      case Failure(e) => r := if e.conflict then Requeued else Errored(e.text);
    }
  }
}
