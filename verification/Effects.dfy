/** What one reconcile can do to the jobs and secrets, and what must have held before it did. */
module Effects {
  import opened Base
  import opened Labels
  import opened Jobs
  import opened Conditions
  import opened Cluster
  import opened Ensures
  import opened Runner
  import opened Frames
  import opened Safety
  import opened Theorems
  import Policies
  import Decimal

  predicate SameJobs(v: World, w: World) {
    w.jobs == v.jobs && w.log == v.log && w.nextJob == v.nextJob
  }

  /** Exactly one job of this stage was created, and the log says so. */
  predicate Launched(v: World, w: World, c: Configuration, stage: Stage) {
    && w.nextJob == v.nextJob + 1
    && w.log == v.log + [JobCreated(stage, c.generation, c.spec.autoApproval, v.nextJob)]
    && |w.jobs| == |v.jobs| + 1
    && w.jobs[..|v.jobs|] == v.jobs
    && (var j := w.jobs[|v.jobs|];
        && j.id == v.nextJob
        && IsActive(j)
        && Get(j.labels, UidKey) == c.owner.uid
        && Get(j.labels, StageKey) == StageName(stage)
        && Get(j.labels, GenerationKey) == Decimal.Format(c.generation))
  }

  lemma LaunchLaunches(r: Run, stage: Stage, extra: LabelMap)
    requires ExtraFor(stage, extra)
    ensures Launched(r.w, Launch(r, stage, extra).w, r.c, stage)
    ensures Launch(r, stage, extra).w.secrets == r.w.secrets
  {
    hide RenderLabels, Additional, StageName, KeysOf;
    ExtraForIsExtra(stage, extra);
    RenderedLabels(r.c.owner, r.c.generation, stage, r.w.inputs.controllerLabels, ProviderLabels(r), r.c.labels, extra);
  }

  lemma DetectEffect(r: Run)
    ensures DetectErrors(r).run.w == r.w && !DetectErrors(r).outcome.Continue?
  {
    hide Set;
  }

  lemma LaunchStops(r: Run)
    ensures !LaunchPlan(r).outcome.Continue?
  {
    hide Set, Launch;
  }

  lemma SameBlocks(c: Configuration, d: Configuration, j: Job)
    requires c.owner == d.owner && c.generation == d.generation
    ensures Blocks(c, j) == Blocks(d, j)
  {
  }

  lemma AskEffect(r: Run)
    ensures var x := AskApproval(r);
            SameJobs(r.w, x.run.w) && x.run.w.secrets == r.w.secrets && !x.outcome.Continue?
  {
    hide Set;
  }

  /** The plan step creates a plan job or none. */
  lemma PlanEffect(r: Run)
    ensures var x := TerraformPlan(r);
            && x.run.w.secrets == r.w.secrets
            && (|| SameJobs(r.w, x.run.w)
                || (Launched(r.w, x.run.w, r.c, PlanStage) && !x.outcome.Continue?))
  {
    hide Set, AskApproval, DetectErrors, IsRetryable, RetryTime, FoundJob, Launch, Launched, PlanExtra;
    AskEffect(r);
    DetectEffect(PlanFail(r, None, PlanFailed));
    PlanExtraFits(r);
    LaunchLaunches(r, PlanStage, PlanExtra(r));
  }

  /** The apply step creates an apply job only when there is something to apply and it is approved. */
  lemma ApplyEffect(r: Run)
    ensures var x := TerraformApply(r);
            && x.run.w.secrets == r.w.secrets
            && (|| SameJobs(r.w, x.run.w)
                || (&& Launched(r.w, x.run.w, r.c, ApplyStage)
                    && !x.outcome.Continue?
                    && (r.s.hasDrift || r.w.secrets.state.None?)
                    && (r.c.spec.autoApproval || !NeedsApproval(r.c))))
  {
    hide Set, DetectErrors, FoundJob, Launch, Launched, ApplyExtra;
    DetectEffect(ApplyFail(r, None, ApplyFailed));
    var q := Update(r, r.c.status.(resourceStatus := OutOfSync));
    ApplyExtraFits(q);
    LaunchLaunches(q, ApplyStage, ApplyExtra(q));
    assert Launched(r.w, Launch(q, ApplyStage, ApplyExtra(q)).w, r.c, ApplyStage) by {
      LaunchedSame(r, q, Launch(q, ApplyStage, ApplyExtra(q)).w, ApplyStage);
    }
  }

  lemma LaunchedSame(r: Run, q: Run, w: World, stage: Stage)
    requires Launched(q.w, w, q.c, stage) && q.w == r.w && SameButStatus(r.c, q.c)
    ensures Launched(r.w, w, r.c, stage)
  {
  }

  // ---- what a passed step tells

  lemma Passed(list: seq<Ensure>, i: nat, r: Run)
    requires RunAll(list, r).outcome.Continue? && i < |list|
    ensures var x := RunAll(list[..i], r);
            x.outcome.Continue? && Perform(list[i], x.run).outcome.Continue?
  {
    hide Perform;
    assert list == list[..i] + list[i..];
    RunAllSplit(list[..i], list[i..], r);
  }

  predicate ProviderOk(inputs: Inputs) {
    && inputs.provider.Some?
    && inputs.provider.value.ready
    && (inputs.provider.value.selector.Selects? ==> inputs.provider.value.selector.match_)
  }

  lemma ProviderPassed(r: Run)
    requires Perform(EnsureProviderReady, r).outcome.Continue?
    ensures ProviderOk(r.w.inputs)
  {
    hide Set;
  }

  lemma ActivityPassed(r: Run)
    requires Perform(EnsureNoActivity, r).outcome.Continue?
    ensures forall j :: j in r.s.jobs ==> !Blocks(r.c, j)
  {
    hide Blocks;
  }

  /** At most one policy is most specific, and it is the one recorded. */
  predicate PolicyChosen(r: Run) {
    var m := Policies.FindMatchingPolicy(r.s.policies);
    && !m.BadSelector? && !m.Ambiguous?
    && (m.Governing? <==> r.s.constraint.Some?)
  }

  lemma SecretPassed(r: Run)
    requires Perform(EnsureJobConfigurationSecret, r).outcome.Continue?
    ensures PolicyChosen(Perform(EnsureJobConfigurationSecret, r).run)
  {
    hide Set, Policies.FindMatchingPolicy, JobVariables;
  }

  lemma PreparationPassed(r: Run)
    requires RunAll(PREPARATION, r).outcome.Continue?
    ensures var q := RunAll(PREPARATION, r).run;
            && Quiet(r, q)
            && ProviderOk(r.w.inputs)
            && PolicyChosen(q)
            && (forall j :: j in r.s.jobs ==> !Blocks(r.c, j))
  {
    hide Perform, RunAll, Quiet, ProviderOk, PolicyChosen, Blocks;
    AllBenign();
    BenignListIsQuiet(PREPARATION, r);
    Passed(PREPARATION, 0, r);
    EmptyRun(r);
    assert PREPARATION[..0] == [];
    ActivityPassed(r);
    Passed(PREPARATION, 5, r);
    var x := RunAll(PREPARATION[..5], r);
    ProviderPassed(x.run);
    assert forall e :: e in PREPARATION[..5] ==> e in PREPARATION;
    BenignListIsQuiet(PREPARATION[..5], r);
    SameInputs(r, x.run);
    Passed(PREPARATION, 8, r);
    var y := RunAll(PREPARATION[..8], r);
    SecretPassed(y.run);
    assert PREPARATION == PREPARATION[..8] + [EnsureJobConfigurationSecret];
    RunAllSplit(PREPARATION[..8], [EnsureJobConfigurationSecret], r);
    OneStep(EnsureJobConfigurationSecret, y.run);
  }

  lemma SameInputs(r: Run, q: Run)
    requires Quiet(r, q)
    ensures q.w.inputs == r.w.inputs
  {
  }

  lemma EmptyRun(r: Run)
    ensures RunAll([], r) == Step(r, Continue)
  {
    hide Perform;
  }

  lemma OneStep(e: Ensure, r: Run)
    ensures RunAll([e], r) == Perform(e, r)
  {
    hide Perform;
    assert [e][1..] == [];
    EmptyRun(Perform(e, r).run);
  }

  /** The security report, where a policy governs, is in order and counts no failure. */
  predicate PolicyOk(r: Run) {
    r.s.constraint.Some? ==>
      && r.w.secrets.report.Some?
      && WellFormed(r.w.secrets.report.value)
      && CountedFailures(r.w.secrets.report.value) <= 0
  }

  lemma PlanSecretPassed(r: Run)
    requires PlanSecretRead(r).outcome.Continue?
    ensures var q := PlanSecretRead(r).run; q == r.(s := r.s.(plan := r.w.secrets.planJson))
  {
    hide Set;
  }

  lemma CostsPassed(r: Run)
    requires CostsRecorded(r).outcome.Continue?
    ensures var q := CostsRecorded(r).run; q.s == r.s && q.w == r.w
  {
    hide Set;
  }

  lemma PolicyPassedStep(r: Run)
    requires PolicyChecked(r).outcome.Continue?
    ensures PolicyOk(r)
    ensures var q := PolicyChecked(r).run; q.s == r.s && q.w == r.w
  {
    hide Set;
  }

  lemma DriftPassed(r: Run)
    requires DriftChecked(r).outcome.Continue?
    ensures r.s.plan.Some? && r.s.plan.value.TfPlan?
    ensures var q := DriftChecked(r).run;
            q.s == r.s.(hasDrift := r.s.plan.value.needsApply) && q.w == r.w
  {
    hide Set;
  }

  function ReviewSteps(r: Run): (x: Step) {
    var a := PlanSecretRead(r);
    if !a.outcome.Continue? then a
    else
      var b := CostsRecorded(a.run);
      if !b.outcome.Continue? then b
      else
        var c := PolicyChecked(b.run);
        if !c.outcome.Continue? then c else DriftChecked(c.run)
  }

  lemma ReviewDispatch(r: Run)
    ensures Perform(EnsureTerraformPlanSecret, r) == PlanSecretRead(r)
    ensures Perform(EnsureCostStatus, r) == CostsRecorded(r)
    ensures Perform(EnsurePolicyStatus, r) == PolicyChecked(r)
    ensures Perform(EnsureDriftDetection, r) == DriftChecked(r)
  {
    hide FinalizerPresent, ReconcileAllowed, CapturedState, NoActivity, PassGate, ValuesResolved, TemplateLoaded,
         ProviderUsable, ConfigSecretWritten, TerraformPlan, PlanSecretRead, CostsRecorded, PolicyChecked,
         DriftChecked, TerraformApply, ConnectionWritten, StatusRecorded, TerraformDestroy, DeleteSecrets,
         JobsDeleted, FinalizerRemoved;
  }

  lemma ReviewUnfolds(r: Run)
    ensures RunAll(REVIEW, r) == ReviewSteps(r)
  {
    hide Perform, RunAll, PlanSecretRead, CostsRecorded, PolicyChecked, DriftChecked;
    var l3: seq<Ensure> := [EnsureDriftDetection] + [];
    var l2 := [EnsurePolicyStatus] + l3;
    var l1 := [EnsureCostStatus] + l2;
    assert REVIEW == [EnsureTerraformPlanSecret] + l1;
    ReviewDispatch(r);
    Peel(EnsureTerraformPlanSecret, l1, Step(r, Continue));
    var a := PlanSecretRead(r);
    ReviewDispatch(a.run);
    Peel(EnsureCostStatus, l2, a);
    var b := if a.outcome.Continue? then CostsRecorded(a.run) else a;
    ReviewDispatch(b.run);
    Peel(EnsurePolicyStatus, l3, b);
    var c := if b.outcome.Continue? then PolicyChecked(b.run) else b;
    ReviewDispatch(c.run);
    Peel(EnsureDriftDetection, [], c);
    NothingLeft(if c.outcome.Continue? then DriftChecked(c.run) else c);
  }

  lemma ReviewPassed(r: Run)
    requires RunAll(REVIEW, r).outcome.Continue?
    ensures var q := RunAll(REVIEW, r).run;
            && PolicyOk(r)
            && r.w.secrets.planJson.Some? && r.w.secrets.planJson.value.TfPlan?
            && q.w == r.w
            && q.s == r.s.(plan := r.w.secrets.planJson, hasDrift := r.w.secrets.planJson.value.needsApply)
  {
    hide Perform, RunAll, PlanSecretRead, CostsRecorded, PolicyChecked, DriftChecked, WellFormed, CountedFailures;
    ReviewUnfolds(r);
    var a := PlanSecretRead(r);
    PlanSecretPassed(r);
    var b := CostsRecorded(a.run);
    CostsPassed(a.run);
    var c := PolicyChecked(b.run);
    PolicyPassedStep(b.run);
    DriftPassed(c.run);
  }
}
