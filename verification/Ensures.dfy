/**
 The ensure steps of the configuration controller, each as a function from the state of a
 reconcile to the next one and an outcome (pkg/controller/configuration/ensure.go, delete.go).
 */
module Ensures {
  import opened Base
  import opened Labels
  import opened Jobs
  import opened Conditions
  import opened Cluster
  import Json
  import Policies
  import ValueFrom

  // The controller's own error texts.
  const UNTYPED_NOTE: Note := 1
  const EXCLUSIVE_NOTE: Note := 2
  const UNDECODABLE_NOTE: Note := 3
  const POLICY_NOTE: Note := 4
  const REPORT_NOTE: Note := 5
  const PLAN_NOTE: Note := 6
  const STATE_NOTE: Note := 7

  /** What a step tells the runner: go on, come back later, stop quietly, or stop with an error. */
  datatype Outcome = Continue | Requeue | Ignore | Failure(error: ApiError)

  /** The state struct that lives for one reconcile. */
  datatype Local = Local(
    jobs: seq<Job>,
    policies: seq<Policies.Policy>,
    valueFrom: map<string, Json.Value>,
    templateHash: string,
    provider: Option<Provider>,
    constraint: Option<Policies.Constraint>,
    plan: Option<TfPlan>,
    hasDrift: bool,
    state: Option<TfState>
  )

  const EMPTY_LOCAL := Local([], [], map[], "", None, None, None, false, None)

  /** `c` is the copy of the object held in memory; `w.stored` is the one the API server holds. */
  datatype Run = Run(c: Configuration, w: World, s: Local, faults: Faults)

  datatype Step = Step(run: Run, outcome: Outcome)

  function Update(r: Run, st: ConfigurationStatus): (q: Run) {
    r.(c := r.c.(status := st))
  }

  function SetReady(r: Run, d: Condition): (q: Run) { Update(r, r.c.status.(ready := d)) }
  function SetProvider(r: Run, d: Condition): (q: Run) { Update(r, r.c.status.(provider := d)) }
  function SetPlan(r: Run, d: Condition): (q: Run) { Update(r, r.c.status.(plan := d)) }
  function SetPolicy(r: Run, d: Condition): (q: Run) { Update(r, r.c.status.(policy := d)) }
  function SetApply(r: Run, d: Condition): (q: Run) { Update(r, r.c.status.(apply := d)) }

  function ReadyAct(r: Run, m: Message): (q: Run) { SetReady(r, Act(r.c.status.ready, r.c.generation, m, r.w.now)) }
  function ReadyFail(r: Run, err: Option<Note>, m: Message): (q: Run) {
    SetReady(r, Fail(r.c.status.ready, r.c.generation, err, m, r.w.now))
  }
  function PlanFail(r: Run, err: Option<Note>, m: Message): (q: Run) {
    SetPlan(r, Fail(r.c.status.plan, r.c.generation, err, m, r.w.now))
  }
  function ApplyFail(r: Run, err: Option<Note>, m: Message): (q: Run) {
    SetApply(r, Fail(r.c.status.apply, r.c.generation, err, m, r.w.now))
  }
  function PolicyFail(r: Run, err: Option<Note>, m: Message): (q: Run) {
    SetPolicy(r, Fail(r.c.status.policy, r.c.generation, err, m, r.w.now))
  }
  function ProviderFail(r: Run, err: Option<Note>, m: Message): (q: Run) {
    SetProvider(r, Fail(r.c.status.provider, r.c.generation, err, m, r.w.now))
  }

  function PassGate(r: Run, g: Gate, number: nat): (x: Step) {
    match g
    case Open => Step(r, Continue)
    case Awaited => Step(ReadyAct(r, Unavailable(number)), Requeue)
    case Ignored => Step(ReadyAct(r, Unavailable(number)), Ignore)
    case Broken(t) => Step(ReadyFail(r, Some(t), Unavailable(number)), Failure(ApiError(false, t)))
  }

  // ---- preparation

  function FinalizerPresent(r: Run): (x: Step) {
    if r.c.deleting || Ours in r.c.finalizers then Step(r, Continue)
    else
      var c := r.c.(finalizers := r.c.finalizers + [Ours]);
      if AddFinalizer in r.faults then Step(r.(c := c), Failure(r.faults[AddFinalizer]))
      else
        var stored := if r.w.stored.Some? then Some(r.w.stored.value.(finalizers := c.finalizers)) else None;
        Step(r.(c := c, w := r.w.(stored := stored)), Requeue)
  }

  function ReconcileAllowed(r: Run): (x: Step) {
    if Read(r.c.annotations, ReconcileAnnotation) == "false"
    then Step(SetReady(r, Warn(r.c.status.ready, r.c.generation, ReconcileDisabled, r.w.now)), Ignore)
    else Step(r, Continue)
  }

  function CapturedState(r: Run): (x: Step) {
    if !r.w.inputs.gates.captured.Open? then PassGate(r, r.w.inputs.gates.captured, 0)
    else
      var st := r.c.status;
      var r1 := if st.resourceStatus == UnknownStatus then Update(r, st.(resourceStatus := OutOfSync)) else r;
      Step(r1.(s := r1.s.(jobs := r.w.jobs, policies := r.w.inputs.policies)), Continue)
  }

  /** The jobs carrying the configuration's name, namespace and uid, of any generation or stage. */
  function OwnerFilter(o: Owner): (f: Filter) {
    Filter(o.namespace, o.name, "", o.uid, "", map[])
  }

  predicate Blocks(c: Configuration, j: Job) {
    MatchesLabels(OwnerFilter(c.owner), j.labels) && IsActive(j) && j.metaGeneration != c.generation
  }

  function NoActivity(r: Run): (x: Step) {
    if exists j :: j in r.s.jobs && Blocks(r.c, j) then Step(r, Requeue) else Step(r, Continue)
  }

  function NoteUntyped(r: Run, untyped: seq<nat>): (q: Run) {
    if untyped == [] then r
    else
      var q := NoteUntyped(r, untyped[..|untyped| - 1]);
      ReadyFail(q, Some(UNTYPED_NOTE), MissingType(untyped[|untyped| - 1]))
  }

  function BrokenEntries(r: Run): (b: set<nat>) {
    set i: nat | i < |r.c.spec.valueFrom| && ReadValueFrom(i) in r.faults
  }

  function ValuesResolved(r: Run): (x: Step) {
    var v := ValueFrom.Resolve(r.c.spec.valueFrom, r.w.inputs.store, BrokenEntries(r));
    var q := NoteUntyped(r, v.untyped);
    match v.stop
    case None => Step(q.(s := q.s.(valueFrom := v.values)), Continue)
    case Some((i, f)) =>
      if f.Exclusive? then Step(ReadyFail(q, Some(EXCLUSIVE_NOTE), OptionsExclusive(i)), Ignore)
      else if f.Unmet? then Step(ReadyAct(q, ValueMissing(i)), Requeue)
      else
        var e := if ReadValueFrom(i) in r.faults then r.faults[ReadValueFrom(i)] else ApiError(false, UNDECODABLE_NOTE);
        Step(ReadyFail(q, Some(e.text), ValueBroken(i)), Failure(e))
  }

  function TemplateLoaded(r: Run): (x: Step) {
    if r.w.inputs.customTemplate && GetTemplate in r.faults then
      Step(ReadyFail(r, Some(r.faults[GetTemplate].text), ApiCallFailed), Failure(r.faults[GetTemplate]))
    else match r.w.inputs.template
      case None => Step(ReadyAct(r, TemplateMissing), Ignore)
      case Some(h) => Step(r.(s := r.s.(templateHash := h)), Continue)
  }

  function ProviderUsable(r: Run): (x: Step) {
    var g, now, d := r.c.generation, r.w.now, r.c.status.provider;
    if GetProvider in r.faults then
      Step(ProviderFail(r, Some(r.faults[GetProvider].text), ApiCallFailed), Failure(r.faults[GetProvider]))
    else match r.w.inputs.provider
      case None => Step(SetProvider(r, Act(d, g, ProviderMissing, now)), Requeue)
      case Some(p) =>
        if !p.ready then Step(SetProvider(r, Warn(d, g, ProviderNotReady, now)), Requeue)
        else
          var q := r.(s := r.s.(provider := Some(p)));
          if p.selector.Selects? && GetNamespace in r.faults then
            Step(ProviderFail(q, Some(r.faults[GetNamespace].text), ApiCallFailed), Requeue)
          else if p.selector.Selects? && EvaluateSelector in r.faults then
            Step(ProviderFail(q, Some(r.faults[EvaluateSelector].text), ApiCallFailed), Failure(r.faults[EvaluateSelector]))
          else if p.selector.Selects? && !p.selector.match_ then
            Step(SetProvider(q, Act(d, g, ProviderForbidden, now)), Ignore)
          else
            Step(SetProvider(q, Success(d, g, ProviderReadyMessage, now)), Continue)
  }

  /** The variables handed to terraform: the spec's, overridden by resolved valueFrom entries. */
  function JobVariables(r: Run): (m: map<string, Json.Value>) {
    var v := r.c.spec.variables + r.s.valueFrom;
    if r.w.inputs.contextInjection
    then v["terranetes" := Json.Object(map["name" := Json.Text(r.c.owner.name), "namespace" := Json.Text(r.c.owner.namespace)])]
    else v
  }

  function ConfigSecretWritten(r: Run): (x: Step) {
    if ReadConfigSecret in r.faults then
      Step(ReadyFail(r, Some(r.faults[ReadConfigSecret].text), ApiCallFailed), Failure(r.faults[ReadConfigSecret]))
    else if r.s.policies != [] && GetPolicyNamespace in r.faults then
      Step(PolicyFail(r, Some(r.faults[GetPolicyNamespace].text), PolicyLookupFailed), Failure(r.faults[GetPolicyNamespace]))
    else
      var m := Policies.FindMatchingPolicy(r.s.policies);
      if m.BadSelector? || m.Ambiguous? then
        Step(PolicyFail(r, Some(POLICY_NOTE), PolicyLookupFailed), Failure(ApiError(false, POLICY_NOTE)))
      else
        var q := r.(s := r.s.(constraint := if m.Governing? then Some(m.constraint) else None));
        if WriteConfigSecret in r.faults then
          Step(ReadyFail(q, Some(r.faults[WriteConfigSecret].text), ApiCallFailed), Failure(r.faults[WriteConfigSecret]))
        else
          Step(q.(w := q.w.(secrets := q.w.secrets.(config := Some(JobVariables(r))))), Continue)
  }

  // ---- creating a job

  function ProviderLabels(r: Run): (m: LabelMap) {
    if r.s.provider.Some? then r.s.provider.value.jobLabels else map[]
  }

  function JobLabels(r: Run, stage: Stage, extra: LabelMap): (m: LabelMap) {
    RenderLabels(r.c.owner, r.c.generation, stage,
                 Additional(r.w.inputs.controllerLabels, ProviderLabels(r), r.c.labels, extra))
  }

  function NewJob(r: Run, stage: Stage, extra: LabelMap): (j: Job) {
    Job(r.w.nextJob, JobLabels(r, stage, extra), 1, r.w.now, false, false)
  }

  /** The API server stores the job; the history remembers it. */
  function Launch(r: Run, stage: Stage, extra: LabelMap): (q: Run) {
    r.(w := r.w.(
         jobs := r.w.jobs + [NewJob(r, stage, extra)],
         nextJob := r.w.nextJob + 1,
         log := r.w.log + [JobCreated(stage, r.c.generation, r.c.spec.autoApproval, r.w.nextJob)]))
  }

  function FoundJob(r: Run, stage: Stage, extra: LabelMap): (j: Option<Job>) {
    Latest(StageFilter(r.c.owner, r.c.generation, stage, extra), r.s.jobs)
  }

  function DetectErrors(r: Run): (x: Step) {
    match r.w.inputs.detection
    case Undetected => Step(r, Ignore)
    case PodUnfinished => Step(r, Requeue)
    case Detected(d) => Step(ReadyAct(r, DetectedError(d)), Ignore)
  }

  // ---- plan

  function PlanExtra(r: Run): (m: LabelMap) {
    map[
      DriftKey := Read(r.c.annotations, DriftAnnotation),
      RetryKey := Read(r.c.annotations, RetryAnnotation),
      TemplateHashKey := r.s.templateHash
    ]
  }

  /** The plan condition lets the step pass without consulting any job. */
  predicate PlanSettled(c: Configuration) {
    && !IsRetryable(c)
    && !IsFailed(c.status.plan, c.generation)
    && IsComplete(c.status.plan, c.generation)
    && (!c.spec.driftDetection || Read(c.annotations, DriftAnnotation) == "")
  }

  function TerraformPlan(r: Run): (x: Step) {
    if HasRetry(r.c) && RetryTime(r.c).None? then Step(PlanFail(r, None, RetryInvalid), Ignore)
    else if !IsRetryable(r.c) && IsFailed(r.c.status.plan, r.c.generation) then Step(r, Ignore)
    else if PlanSettled(r.c) then Step(r, Continue)
    else PlanByJob(r)
  }

  function PlanByJob(r: Run): (x: Step) {
    if RenderJob(PlanStage) in r.faults then
      Step(PlanFail(r, Some(r.faults[RenderJob(PlanStage)].text), PlanRenderFailed), Failure(r.faults[RenderJob(PlanStage)]))
    else match FoundJob(r, PlanStage, PlanExtra(r))
      case None =>
        if !r.c.spec.autoApproval && !NeedsApproval(r.c) then AskApproval(r) else LaunchPlan(r)
      case Some(j) =>
        var g, now, d := r.c.generation, r.w.now, r.c.status.plan;
        if j.complete then Step(SetPlan(r, Success(d, g, PlanComplete, now)), Continue)
        else if j.failed then DetectErrors(PlanFail(r, None, PlanFailed))
        else Step(SetPlan(r, Progress(d, g, PlanRunning, now)), Requeue)
  }

  /** Mark the object as waiting for approval before anything is planned. */
  function AskApproval(r: Run): (x: Step) {
    var q := r.(c := r.c.(annotations := r.c.annotations[ApplyAnnotation := "false"]));
    if PatchApply in r.faults then
      Step(PlanFail(q, Some(r.faults[PatchApply].text), PlanAnnotateFailed), Failure(r.faults[PatchApply]))
    else
      var stored := if q.w.stored.Some?
                    then Some(q.w.stored.value.(annotations := q.c.annotations)) else None;
      var p := q.(w := q.w.(stored := stored));
      match r.w.inputs.management
      case Unmanaged => Step(p, Requeue)
      case ManagedBy(found) =>
        if GetCloudResource in r.faults then
          Step(PlanFail(p, Some(r.faults[GetCloudResource].text), ApiCallFailed), Failure(r.faults[GetCloudResource]))
        else if !found then
          Step(PlanFail(p, None, CloudResourceMissing), Requeue)
        else if PatchCloudResource in r.faults then
          Step(PlanFail(p, Some(r.faults[PatchCloudResource].text), ApiCallFailed), Failure(r.faults[PatchCloudResource]))
        else Step(p, Requeue)
  }

  function LaunchPlan(r: Run): (x: Step) {
    if CreateJob(PlanStage) in r.faults then
      Step(PlanFail(r, Some(r.faults[CreateJob(PlanStage)].text), PlanCreateFailed), Failure(r.faults[CreateJob(PlanStage)]))
    else
      var q := Launch(r, PlanStage, PlanExtra(r));
      Step(SetPlan(q, Progress(r.c.status.plan, r.c.generation, PlanInProgress, r.w.now)), Requeue)
  }

  function PlanSecretRead(r: Run): (x: Step) {
    if GetPlanSecret in r.faults then
      Step(ReadyFail(r, Some(r.faults[GetPlanSecret].text), ApiCallFailed), Failure(r.faults[GetPlanSecret]))
    else if r.w.secrets.planJson.None? then Step(ReadyFail(r, None, PlanSecretMissing), Ignore)
    else Step(r.(s := r.s.(plan := r.w.secrets.planJson)), Continue)
  }

  function CostsRecorded(r: Run): (x: Step) {
    if !r.w.inputs.gates.costStatus.Open? then PassGate(r, r.w.inputs.gates.costStatus, 5)
    else Step(Update(r, r.c.status.(costs := r.w.inputs.costs)), Continue)
  }

  // ---- policy

  /** The report is of a form the step accepts. */
  predicate WellFormed(p: Report) {
    match p
    case Summary(f) => f.Count?
    case Flat(passed, failed, zero) => passed.Some? && failed.Some? && zero == 0
  }

  /** The number of failures the step reads out of the report: none from a flat one. */
  function CountedFailures(p: Report): (n: int) {
    if p.Summary? && p.failures.Count? then p.failures.count else 0
  }

  function PolicyChecked(r: Run): (x: Step) {
    var g, now, d := r.c.generation, r.w.now, r.c.status.policy;
    if r.s.constraint.None? then Step(SetPolicy(r, Success(d, g, PolicyNotConfigured, now)), Continue)
    else if GetReport in r.faults then
      Step(PolicyFail(r, Some(r.faults[GetReport].text), ApiCallFailed), Failure(r.faults[GetReport]))
    else match r.w.secrets.report
      case None => Step(SetPolicy(r, Warn(d, g, ReportMissing, now)), Requeue)
      case Some(p) =>
        if !WellFormed(p) then Step(PolicyFail(r, Some(REPORT_NOTE), ReportInvalid), Ignore)
        else if CopyReport in r.faults then
          Step(PolicyFail(r, Some(r.faults[CopyReport].text), ApiCallFailed), Failure(r.faults[CopyReport]))
        else if CountedFailures(p) > 0 then Step(SetPolicy(r, Act(d, g, PolicyViolated, now)), Ignore)
        else Step(SetPolicy(r, Success(d, g, PolicyPassed, now)), Continue)
  }

  // ---- drift and apply

  function DriftChecked(r: Run): (x: Step) {
    var st := r.c.status;
    var q := if r.c.spec.driftDetection
             then Update(r, st.(driftTimestamp := Read(r.c.annotations, DriftAnnotation))) else r;
    match r.s.plan
    case Some(TfPlan(id, needs)) => Step(q.(s := q.s.(hasDrift := needs)), Continue)
    case _ => Step(ReadyFail(q, Some(PLAN_NOTE), DocumentUndecodable), Failure(ApiError(false, PLAN_NOTE)))
  }

  function PlanId(r: Run): (id: string) {
    match r.s.plan
    case Some(TfPlan(id, _)) => id
    case _ => ""
  }

  function ApplyExtra(r: Run): (m: LabelMap) {
    map[PlanIdKey := PlanId(r), TemplateHashKey := r.s.templateHash]
  }

  function TerraformApply(r: Run): (x: Step) {
    var g, now, st := r.c.generation, r.w.now, r.c.status;
    if GetStateForApply in r.faults then
      Step(ApplyFail(r, Some(r.faults[GetStateForApply].text), ApiCallFailed), Failure(r.faults[GetStateForApply]))
    else if !r.s.hasDrift && r.w.secrets.state.Some? then
      Step(Update(r, st.(resourceStatus := InSync, apply := Success(st.apply, g, NothingToApply, now))), Continue)
    else if NeedsApproval(r.c) && !r.c.spec.autoApproval then
      Step(Update(r, st.(apply := Act(st.apply, g, AwaitingAnnotation, now),
                         ready := Progress(st.ready, g, AwaitingApproval, now),
                         resourceStatus := OutOfSync)), Ignore)
    else ApplyByJob(r)
  }

  function ApplyByJob(r: Run): (x: Step) {
    var g, now, st := r.c.generation, r.w.now, r.c.status;
    if RenderJob(ApplyStage) in r.faults then
      Step(ApplyFail(r, Some(r.faults[RenderJob(ApplyStage)].text), ApplyRenderFailed), Failure(r.faults[RenderJob(ApplyStage)]))
    else match FoundJob(r, ApplyStage, ApplyExtra(r))
      case None => LaunchApply(Update(r, st.(resourceStatus := OutOfSync)))
      case Some(j) =>
        if j.complete then
          Step(Update(r, st.(resourceStatus := InSync, apply := Success(st.apply, g, ApplyComplete, now))), Continue)
        else if j.failed then DetectErrors(ApplyFail(r, None, ApplyFailed))
        else Step(SetApply(r, Progress(st.apply, g, ApplyInProgress, now)), Requeue)
  }

  function LaunchApply(r: Run): (x: Step) {
    if CreateJob(ApplyStage) in r.faults then
      Step(ApplyFail(r, Some(r.faults[CreateJob(ApplyStage)].text), ApplyCreateFailed), Failure(r.faults[CreateJob(ApplyStage)]))
    else
      var q := Launch(r, ApplyStage, ApplyExtra(r));
      Step(SetApply(q, Progress(r.c.status.apply, r.c.generation, ApplyStarted, r.w.now)), Requeue)
  }

  // ---- after the apply

  function ConnectionWritten(r: Run): (x: Step) {
    if GetStateForConnection in r.faults then
      Step(ReadyFail(r, Some(r.faults[GetStateForConnection].text), ApiCallFailed), Failure(r.faults[GetStateForConnection]))
    else if r.w.secrets.state.None? then Step(ReadyFail(r, None, StateSecretMissing), Ignore)
    else PassGate(r.(s := r.s.(state := r.w.secrets.state)), r.w.inputs.gates.connection, 6)
  }

  function StatusRecorded(r: Run): (x: Step) {
    match r.s.state
    case Some(TfState(n, v)) =>
      var st := r.c.status;
      Step(Update(r, st.(resources := Some(n), terraformVersion := v,
                         ready := Success(st.ready, r.c.generation, ResourceReady, r.w.now))), Continue)
    case _ => Step(ReadyFail(r, Some(STATE_NOTE), DocumentUndecodable), Failure(ApiError(false, STATE_NOTE)))
  }

  // ---- deletion

  predicate Orphaned(c: Configuration) {
    Read(c.annotations, OrphanAnnotation) == "true"
  }

  function DestroyExtra(r: Run): (m: LabelMap) {
    map[RetryKey := Read(r.c.annotations, RetryAnnotation)]
  }

  function TerraformDestroy(r: Run): (x: Step) {
    if Orphaned(r.c) then Step(r, Continue)
    else
      var q := Update(r, r.c.status.(resourceStatus := Destroying));
      if q.c.status.resources == Some(0) then Step(q, Continue)
      else if GetStateForDestroy in r.faults then
        Step(ReadyFail(q, Some(r.faults[GetStateForDestroy].text), ApiCallFailed), Failure(r.faults[GetStateForDestroy]))
      else if q.w.secrets.state.None? then Step(q, Continue)
      else if RenderJob(DestroyStage) in r.faults then
        Step(ReadyFail(q, Some(r.faults[RenderJob(DestroyStage)].text), DestroyRenderFailed), Failure(r.faults[RenderJob(DestroyStage)]))
      else DestroyByJob(q)
  }

  function DestroyByJob(r: Run): (x: Step) {
    var g, now, st := r.c.generation, r.w.now, r.c.status;
    match FoundJob(r, DestroyStage, DestroyExtra(r))
    case None =>
      if CreateJob(DestroyStage) in r.faults then
        Step(ReadyFail(r, Some(r.faults[CreateJob(DestroyStage)].text), DestroyCreateFailed), Failure(r.faults[CreateJob(DestroyStage)]))
      else
        var q := Launch(r, DestroyStage, DestroyExtra(r));
        Step(SetReady(q, Progress(st.ready, g, DestroyRunning, now)), Requeue)
    case Some(j) =>
      if j.complete then Step(SetReady(r, Success(st.ready, g, DestroyComplete, now)), Continue)
      else if j.failed then
        Step(Update(ReadyFail(r, None, DestroyFailed), ReadyFail(r, None, DestroyFailed).c.status.(resourceStatus := DestroyingFailed)), Ignore)
      else Step(SetReady(r, Progress(st.ready, g, DestroyRunning, now)), Requeue)
  }

  const SIX_SECRETS: seq<SecretKind> :=
    [ConfigSecret, CostSecret, PolicySecret, StateSecret, PlanOutSecret, PlanJsonSecret]

  /** Delete the listed secrets in order, stopping at the first call that fails. */
  function DeleteSecrets(r: Run, kinds: seq<SecretKind>): (x: Step)
    decreases |kinds|
  {
    if kinds == [] then Step(r, Continue)
    else
      var call := DeleteSecret(kinds[0]);
      if call in r.faults then Step(ReadyFail(r, Some(r.faults[call].text), DeleteFailed), Failure(r.faults[call]))
      else DeleteSecrets(r.(w := r.w.(secrets := Without(r.w.secrets, kinds[0]))), kinds[1..])
  }

  /** Carries the configuration's name and namespace labels, whatever its uid. */
  predicate Labelled(o: Owner, j: Job) {
    && NameKey in j.labels && j.labels[NameKey] == o.name
    && NamespaceKey in j.labels && j.labels[NamespaceKey] == o.namespace
  }

  function LabelledJobs(o: Owner, jobs: seq<Job>): (r: seq<Job>) {
    if jobs == [] then []
    else
      var init := LabelledJobs(o, jobs[..|jobs| - 1]);
      if Labelled(o, jobs[|jobs| - 1]) then init + [jobs[|jobs| - 1]] else init
  }

  function Removed(jobs: seq<Job>, j: Job): (r: seq<Job>) {
    if jobs == [] then []
    else
      var init := Removed(jobs[..|jobs| - 1], j);
      if jobs[|jobs| - 1] == j then init else init + [jobs[|jobs| - 1]]
  }

  function DeleteJobs(r: Run, list: seq<Job>, i: nat): (x: Step)
    requires i <= |list|
    decreases |list| - i
  {
    if i == |list| then Step(r, Continue)
    else
      var call := DeleteJob(i);
      if call in r.faults then Step(ReadyFail(r, Some(r.faults[call].text), DeleteFailed), Failure(r.faults[call]))
      else DeleteJobs(r.(w := r.w.(jobs := Removed(r.w.jobs, list[i]))), list, i + 1)
  }

  function JobsDeleted(r: Run): (x: Step) {
    if ListJobs in r.faults then
      Step(ReadyFail(r, Some(r.faults[ListJobs].text), ApiCallFailed), Failure(r.faults[ListJobs]))
    else DeleteJobs(r, LabelledJobs(r.c.owner, r.w.jobs), 0)
  }

  function WithoutOurs(fs: seq<Finalizer>): (r: seq<Finalizer>) {
    if fs == [] then []
    else
      var init := WithoutOurs(fs[..|fs| - 1]);
      if fs[|fs| - 1] == Ours then init else init + [fs[|fs| - 1]]
  }

  /** Once an object being deleted has no finalizer left, the API server drops it. */
  function StoreFinalizers(stored: Option<Configuration>, fs: seq<Finalizer>): (r: Option<Configuration>) {
    if stored.None? || (stored.value.deleting && fs == []) then None
    else Some(stored.value.(finalizers := fs))
  }

  function FinalizerRemoved(r: Run): (x: Step) {
    if Ours !in r.c.finalizers then Step(r, Continue)
    else
      var fs := WithoutOurs(r.c.finalizers);
      var q := r.(c := r.c.(finalizers := fs));
      if RemoveFinalizer in r.faults then Step(q, Failure(r.faults[RemoveFinalizer]))
      else Step(q.(w := q.w.(stored := StoreFinalizers(q.w.stored, fs))), Continue)
  }

  // ---- the two ordered lists (pkg/controller/configuration/reconcile.go)

  datatype Ensure =
    | EnsureFinalizerPresent
    | EnsureReconcileAnnotation
    | EnsureCapturedState
    | EnsureNoActivity
    | EnsureCostSecret
    | EnsureValueFromSecret
    | EnsureAuthenticationSecret
    | EnsureCustomJobTemplate
    | EnsureProviderReady
    | EnsureCustomBackendTemplate
    | EnsurePolicyDefaultsExist
    | EnsureJobConfigurationSecret
    | EnsureTerraformPlan
    | EnsureTerraformPlanSecret
    | EnsureCostStatus
    | EnsurePolicyStatus
    | EnsureDriftDetection
    | EnsureTerraformApply
    | EnsureConnectionSecret
    | EnsureTerraformStatus
    | EnsureTerraformDestroy
    | EnsureSecretsDeleted
    | EnsureJobsDeleted
    | EnsureFinalizerRemoved

  const NORMAL: seq<Ensure> := [
    EnsureFinalizerPresent,
    EnsureReconcileAnnotation,
    EnsureCapturedState,
    EnsureNoActivity,
    EnsureCostSecret,
    EnsureValueFromSecret,
    EnsureAuthenticationSecret,
    EnsureCustomJobTemplate,
    EnsureProviderReady,
    EnsureCustomBackendTemplate,
    EnsurePolicyDefaultsExist,
    EnsureJobConfigurationSecret,
    EnsureTerraformPlan,
    EnsureTerraformPlanSecret,
    EnsureCostStatus,
    EnsurePolicyStatus,
    EnsureDriftDetection,
    EnsureTerraformApply,
    EnsureConnectionSecret,
    EnsureTerraformStatus
  ]

  const DELETION: seq<Ensure> := [
    EnsureCapturedState,
    EnsureProviderReady,
    EnsureCustomBackendTemplate,
    EnsurePolicyDefaultsExist,
    EnsureValueFromSecret,
    EnsureAuthenticationSecret,
    EnsureCustomJobTemplate,
    EnsureJobConfigurationSecret,
    EnsureTerraformDestroy,
    EnsureSecretsDeleted,
    EnsureJobsDeleted,
    EnsureFinalizerRemoved
  ]

  function Perform(e: Ensure, r: Run): (x: Step) {
    match e
    case EnsureFinalizerPresent => FinalizerPresent(r)
    case EnsureReconcileAnnotation => ReconcileAllowed(r)
    case EnsureCapturedState => CapturedState(r)
    case EnsureNoActivity => NoActivity(r)
    case EnsureCostSecret => PassGate(r, r.w.inputs.gates.costSecret, 1)
    case EnsureValueFromSecret => ValuesResolved(r)
    case EnsureAuthenticationSecret => PassGate(r, r.w.inputs.gates.auth, 2)
    case EnsureCustomJobTemplate => TemplateLoaded(r)
    case EnsureProviderReady => ProviderUsable(r)
    case EnsureCustomBackendTemplate => PassGate(r, r.w.inputs.gates.backend, 3)
    case EnsurePolicyDefaultsExist => PassGate(r, r.w.inputs.gates.defaults, 4)
    case EnsureJobConfigurationSecret => ConfigSecretWritten(r)
    case EnsureTerraformPlan => TerraformPlan(r)
    case EnsureTerraformPlanSecret => PlanSecretRead(r)
    case EnsureCostStatus => CostsRecorded(r)
    case EnsurePolicyStatus => PolicyChecked(r)
    case EnsureDriftDetection => DriftChecked(r)
    case EnsureTerraformApply => TerraformApply(r)
    case EnsureConnectionSecret => ConnectionWritten(r)
    case EnsureTerraformStatus => StatusRecorded(r)
    case EnsureTerraformDestroy => TerraformDestroy(r)
    case EnsureSecretsDeleted => DeleteSecrets(r, SIX_SECRETS)
    case EnsureJobsDeleted => JobsDeleted(r)
    case EnsureFinalizerRemoved => FinalizerRemoved(r)
  }
}
