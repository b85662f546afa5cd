/** Progress: every reconcile that acts brings the configuration closer to being applied. */
module Progress {
  import opened Base
  import opened Labels
  import opened Jobs
  import opened Conditions
  import opened Cluster
  import opened Ensures
  import opened Runner
  import opened Frames
  import opened Effects
  import opened Exact
  import opened Safety
  import opened Quiescence
  import Gating
  import RunTheorems
  import Deletion
  import Theorems

  // ---- the rank of a world

  function Hash(w: World): (h: string) {
    if w.inputs.template.Some? then w.inputs.template.value else ""
  }

  function PlanLabels(c: Configuration, hash: string): (m: LabelMap) {
    map[
      DriftKey := Read(c.annotations, DriftAnnotation),
      RetryKey := Read(c.annotations, RetryAnnotation),
      TemplateHashKey := hash
    ]
  }

  function ApplyLabels(w: World): (m: LabelMap) {
    map[PlanIdKey := DocumentId(w), TemplateHashKey := Hash(w)]
  }

  function DocumentId(w: World): (id: string) {
    match w.secrets.planJson
    case Some(TfPlan(id, _)) => id
    case _ => ""
  }

  function PlanJob(w: World, c: Configuration): (j: Option<Job>) {
    Latest(StageFilter(c.owner, c.generation, PlanStage, PlanLabels(c, Hash(w))), w.jobs)
  }

  function ApplyJob(w: World, c: Configuration): (j: Option<Job>) {
    Latest(StageFilter(c.owner, c.generation, ApplyStage, ApplyLabels(w)), w.jobs)
  }

  /** The plan still has to be made: its job is missing or has not finished. */
  predicate PlanPending(w: World, c: Configuration) {
    !PlanSettled(c) && (PlanJob(w, c).None? || IsActive(PlanJob(w, c).value))
  }

  /** Steps left before the plan job exists: ask for approval, create it. */
  function PlanSteps(w: World, c: Configuration): (n: nat)
    ensures n <= 2
  {
    if PlanJob(w, c).Some? then 0
    else if !c.spec.autoApproval && !NeedsApproval(c) then 2
    else 1
  }

  function ApplySteps(w: World, c: Configuration): (n: nat)
    ensures n <= 1
  {
    if ApplyJob(w, c).None? then 1 else 0
  }

  function Rank(w: World, c: Configuration): (n: nat)
    ensures n <= 4
  {
    (if Ours in c.finalizers then 0 else 1)
    + (if PlanPending(w, c) then PlanSteps(w, c) + 1 else ApplySteps(w, c))
  }

  predicate RetryReadable(c: Configuration) {
    HasRetry(c) ==> RetryTime(c).Some?
  }

  /** Jobs, annotations and finalizers are as they were. */
  predicate Idle(w: World, v: World) {
    && v.jobs == w.jobs
    && v.stored.Some? && w.stored.Some?
    && v.stored.value.annotations == w.stored.value.annotations
    && v.stored.value.finalizers == w.stored.value.finalizers
  }

  // ---- what each phase does to the plan condition of a settled configuration

  lemma SettledSame(c: Configuration, d: Configuration)
    requires PlanSettled(c) && c.annotations == d.annotations && c.spec == d.spec && c.generation == d.generation
    requires d.status.plan == c.status.plan
    requires c.status.lastReconcile.time != 0 && c.status.lastReconcile.time <= d.status.lastReconcile.time
    ensures PlanSettled(d)
  {
    RetryOnlyLapses(c, d);
  }

  lemma SettledPasses(r: Run)
    requires PlanSettled(r.c) && RetryReadable(r.c)
    ensures TerraformPlan(r) == Step(r, Continue)
  {
    hide IsRetryable, RetryTime, PlanByJob;
  }

  predicate KeepsPlan(c: Configuration, d: Configuration) {
    SameButStatus(c, d) && d.status.plan == c.status.plan && d.status.lastReconcile == c.status.lastReconcile
  }

  lemma SettersKeepPlan(r: Run)
    ensures forall d {:trigger SetReady(r, d)} :: KeepsPlan(r.c, SetReady(r, d).c)
    ensures forall d {:trigger SetApply(r, d)} :: KeepsPlan(r.c, SetApply(r, d).c)
    ensures forall st: ConfigurationStatus {:trigger Update(r, st)} ::
              st.plan == r.c.status.plan && st.lastReconcile == r.c.status.lastReconcile ==> KeepsPlan(r.c, Update(r, st).c)
    ensures KeepsPlan(r.c, r.c)
  {
  }

  lemma KeepsPlanTrans(a: Configuration, b: Configuration, c: Configuration)
    requires KeepsPlan(a, b) && KeepsPlan(b, c)
    ensures KeepsPlan(a, c)
  {
  }

  lemma DetectKeepsPlan(r: Run)
    ensures KeepsPlan(r.c, DetectErrors(r).run.c)
  {
    hide Set, SetReady, KeepsPlan;
    SettersKeepPlan(r);
  }

  lemma LaunchApplyKeepsPlan(r: Run)
    ensures KeepsPlan(r.c, LaunchApply(r).run.c)
  {
    hide Set, SetApply, KeepsPlan, Launch, ApplyExtra;
    SettersKeepPlan(r);
    var q := Launch(r, ApplyStage, ApplyExtra(r));
    SettersKeepPlan(q);
    Deletion.LaunchFrame(r, ApplyStage, ApplyExtra(r));
  }

  lemma ApplyKeepsPlan(r: Run)
    ensures KeepsPlan(r.c, TerraformApply(r).run.c)
  {
    hide Set, SetApply, Update, KeepsPlan, FoundJob, DetectErrors, LaunchApply, ApplyExtra;
    SettersKeepPlan(r);
    forall d ensures KeepsPlan(r.c, DetectErrors(SetApply(r, d)).run.c) {
      DetectKeepsPlan(SetApply(r, d));
      KeepsPlanTrans(r.c, SetApply(r, d).c, DetectErrors(SetApply(r, d)).run.c);
    }
    var q := Update(r, r.c.status.(resourceStatus := OutOfSync));
    LaunchApplyKeepsPlan(q);
    KeepsPlanTrans(r.c, q.c, LaunchApply(q).run.c);
  }

  lemma RecordKeepsPlan(r: Run)
    ensures KeepsPlan(r.c, ConnectionWritten(r).run.c)
    ensures KeepsPlan(r.c, StatusRecorded(r).run.c)
  {
    hide Set, SetReady, Update, KeepsPlan;
    SettersKeepPlan(r);
    SettersKeepPlan(r.(s := r.s.(state := r.w.secrets.state)));
  }

  /** All but the annotations and the conditions. */
  predicate SameIdentity(c: Configuration, d: Configuration) {
    && d.owner == c.owner && d.generation == c.generation && d.deleting == c.deleting
    && d.finalizers == c.finalizers && d.labels == c.labels && d.spec == c.spec
    && d.status.lastReconcile == c.status.lastReconcile
  }

  lemma SettersKeepIdentity(r: Run)
    ensures forall d {:trigger SetPlan(r, d)} :: SameIdentity(r.c, SetPlan(r, d).c)
    ensures forall d {:trigger SetReady(r, d)} :: SameIdentity(r.c, SetReady(r, d).c)
    ensures SameIdentity(r.c, r.c)
  {
  }

  lemma AskKeepsIdentity(r: Run)
    ensures SameIdentity(r.c, AskApproval(r).run.c)
  {
    hide Set, SetPlan;
    var q := r.(c := r.c.(annotations := r.c.annotations[ApplyAnnotation := "false"]));
    SettersKeepIdentity(q);
    if q.w.stored.Some? {
      SettersKeepIdentity(q.(w := q.w.(stored := Some(q.w.stored.value.(annotations := q.c.annotations)))));
    } else {
      SettersKeepIdentity(q.(w := q.w.(stored := None)));
    }
  }

  /** The plan step leaves the identity of the object alone. */
  lemma PlanKeepsIdentity(r: Run)
    ensures SameIdentity(r.c, TerraformPlan(r).run.c)
  {
    hide Set, SetPlan, SameIdentity, FoundJob, Launch, PlanExtra, IsRetryable, RetryTime, AskApproval, DetectErrors;
    SettersKeepIdentity(r);
    AskKeepsIdentity(r);
    LaunchC(r);
    SettersKeepIdentity(Launch(r, PlanStage, PlanExtra(r)));
    DetectKeepsIdentity(PlanFail(r, None, PlanFailed));
    IdentityTrans(r.c, PlanFail(r, None, PlanFailed).c, DetectErrors(PlanFail(r, None, PlanFailed)).run.c);
  }

  lemma DetectKeepsIdentity(r: Run)
    ensures SameIdentity(r.c, DetectErrors(r).run.c)
  {
    hide Set;
  }

  lemma IdentityTrans(a: Configuration, b: Configuration, c: Configuration)
    requires SameIdentity(a, b) && SameIdentity(b, c)
    ensures SameIdentity(a, c)
  {
  }

  lemma LaunchC(r: Run)
    ensures Launch(r, PlanStage, PlanExtra(r)).c == r.c
  {
    hide NewJob, PlanExtra;
  }

  // ---- the shapes a reconcile of a live object can take

  /** Facts about the prepared run, in terms of the world the reconcile started from. */
  lemma PlanStart(w: World, c: Configuration, faults: Faults)
    requires BeforePlan(Start(w, c, faults)).outcome.Continue?
    ensures var p := BeforePlan(Start(w, c, faults)).run;
            && EntryOpen(Start(w, c, faults))
            && SameButStatus(c, p.c)
            && p.c.status.plan == c.status.plan
            && p.c.status.lastReconcile == c.status.lastReconcile
            && p.s.jobs == w.jobs && p.w.jobs == w.jobs
            && p.s.templateHash == Hash(w)
            && p.w.stored == w.stored && p.w.inputs == w.inputs && p.w.now == w.now && p.faults == faults
            && p.w.secrets.planJson == w.secrets.planJson
            && FoundJob(p, PlanStage, PlanExtra(p)) == PlanJob(w, c)
            && PlanSettled(p.c) == PlanSettled(c)
            && IsRetryable(p.c) == IsRetryable(c)
  {
    hide RunAll, Set, EntryOpen, Values, ProviderReachable, PolicyReachable, ValuesDone, Blocks, GatesOpen, ChosenConstraint, JobVariables,
         AtCapture, NotedReady, VarsOf;
    var r := Start(w, c, faults);
    EntryExact(r);
    PreparationExact(Captured(r));
    CapturedTemplate(r);
    PreparedShape(r);
    SameRetry(c, PreparedRun(Captured(r)).c);
  }

  /** The ways a reconcile of a live object can change jobs, annotations or finalizers. */
  datatype Deed = Nothing | AddedFinalizer | AskedApproval | CreatedPlan(job: Job) | CreatedApply(job: Job)

  /** The stored object after a deed, its status apart. */
  function DeedObject(c: Configuration, d: Deed): (e: Configuration) {
    match d
    case AddedFinalizer => c.(finalizers := c.finalizers + [Ours])
    case AskedApproval => c.(annotations := c.annotations[ApplyAnnotation := "false"])
    case _ => c
  }

  function DeedJobs(jobs: seq<Job>, d: Deed): (r: seq<Job>) {
    match d
    case CreatedPlan(j) => jobs + [j]
    case CreatedApply(j) => jobs + [j]
    case _ => jobs
  }

  /** What must have held for a deed to be done. */
  predicate DeedDue(w: World, c: Configuration, d: Deed) {
    match d
    case Nothing => true
    case AddedFinalizer => Ours !in c.finalizers
    case AskedApproval =>
      !PlanSettled(c) && PlanJob(w, c).None? && !c.spec.autoApproval && !NeedsApproval(c)
    case CreatedPlan(j) =>
      && !PlanSettled(c) && PlanJob(w, c).None? && (c.spec.autoApproval || NeedsApproval(c))
      && IsActive(j)
      && MatchesLabels(StageFilter(c.owner, c.generation, PlanStage, PlanLabels(c, Hash(w))), j.labels)
    case CreatedApply(j) =>
      && (PlanSettled(c) || (PlanJob(w, c).Some? && PlanJob(w, c).value.complete))
      && ApplyJob(w, c).None?
      && IsActive(j)
      && Get(j.labels, StageKey) == StageName(ApplyStage)
      && MatchesLabels(StageFilter(c.owner, c.generation, ApplyStage, ApplyLabels(w)), j.labels)
  }

  predicate Did(w: World, c: Configuration, v: World, d: Deed) {
    && DeedDue(w, c, d)
    && v.stored == Some(DeedObject(c, d))
    && v.jobs == DeedJobs(w.jobs, d)
    && v.secrets.planJson == w.secrets.planJson
    && v.inputs == w.inputs
  }

  lemma NewJobMatches(r: Run, stage: Stage, extra: LabelMap)
    requires ExtraFor(stage, extra)
    ensures MatchesLabels(StageFilter(r.c.owner, r.c.generation, stage, extra), NewJob(r, stage, extra).labels)
    ensures Get(NewJob(r, stage, extra).labels, StageKey) == StageName(stage)
    ensures IsActive(NewJob(r, stage, extra))
  {
    hide RenderLabels, Additional, StageFilter, MatchesLabels, StageName, KeysOf;
    ExtraForIsExtra(stage, extra);
    RenderedJobIsFound(r.c.owner, r.c.generation, stage, r.w.inputs.controllerLabels, ProviderLabels(r), r.c.labels, extra);
    RenderedLabels(r.c.owner, r.c.generation, stage, r.w.inputs.controllerLabels, ProviderLabels(r), r.c.labels, extra);
  }

  /** What the plan step does to a run whose memory agrees with the stored object. */
  lemma PlanDeed(p: Run) returns (d: Deed)
    requires p.w.stored.Some? && p.w.stored.value.annotations == p.c.annotations
    ensures var x := TerraformPlan(p); var found := FoundJob(p, PlanStage, PlanExtra(p));
            && x.run.w.secrets == p.w.secrets && x.run.w.inputs == p.w.inputs && x.run.w.now == p.w.now
            && (d == Nothing || d == AskedApproval || d == CreatedPlan(NewJob(p, PlanStage, PlanExtra(p))))
            && x.run.w.jobs == DeedJobs(p.w.jobs, d)
            && x.run.w.stored == Some(DeedObject(p.w.stored.value, d))
            && (x.outcome.Continue? ==> d == Nothing)
            && (d != Nothing ==> !PlanSettled(p.c) && found.None?)
            && (d == AskedApproval ==> !p.c.spec.autoApproval && !NeedsApproval(p.c))
            && (d.CreatedPlan? ==> p.c.spec.autoApproval || NeedsApproval(p.c))
            && (d.CreatedPlan? ==> x.run.c.status.plan.status == StatusFalse)
  {
    hide Set, FoundJob, PlanExtra, IsRetryable, RetryTime, DetectErrors, NewJob, PlanSettled, LaunchPlan, AskApproval;
    DetectEffect(PlanFail(p, None, PlanFailed));
    LaunchDeed(p);
    AskDeed(p);
    if PlanByJobReached(p) && FoundJob(p, PlanStage, PlanExtra(p)).None? {
      if !p.c.spec.autoApproval && !NeedsApproval(p.c) {
        d := if PatchApply in p.faults then Nothing else AskedApproval;
      } else {
        d := if CreateJob(PlanStage) in p.faults then Nothing else CreatedPlan(NewJob(p, PlanStage, PlanExtra(p)));
      }
    } else {
      d := Nothing;
    }
  }

  lemma LaunchDeed(p: Run)
    requires p.w.stored.Some?
    ensures var x := LaunchPlan(p);
            && x.run.w.(jobs := p.w.jobs, nextJob := p.w.nextJob, log := p.w.log) == p.w
            && !x.outcome.Continue?
            && (CreateJob(PlanStage) in p.faults ==> x.run.w == p.w)
            && (CreateJob(PlanStage) !in p.faults ==>
                  x.run.w.jobs == p.w.jobs + [NewJob(p, PlanStage, PlanExtra(p))] && x.run.c.status.plan.status == StatusFalse)
  {
    hide PlanExtra, NewJob;
  }

  lemma AskDeed(p: Run)
    requires p.w.stored.Some? && p.w.stored.value.annotations == p.c.annotations
    ensures var x := AskApproval(p);
            && x.run.w.(stored := p.w.stored) == p.w
            && !x.outcome.Continue?
            && x.run.w.stored == Some(if PatchApply in p.faults then p.w.stored.value else DeedObject(p.w.stored.value, AskedApproval))
  {
    hide Set;
  }

  predicate PlanByJobReached(r: Run) {
    && !(HasRetry(r.c) && RetryTime(r.c).None?)
    && !(!IsRetryable(r.c) && IsFailed(r.c.status.plan, r.c.generation))
    && !PlanSettled(r.c)
    && RenderJob(PlanStage) !in r.faults
  }

  lemma ApplyDeed(p: Run) returns (d: Deed)
    ensures var x := TerraformApply(p);
            && x.run.w.secrets == p.w.secrets && x.run.w.inputs == p.w.inputs && x.run.w.now == p.w.now
            && x.run.w.stored == p.w.stored
            && (d == Nothing || d == CreatedApply(NewJob(p, ApplyStage, ApplyExtra(p))))
            && x.run.w.jobs == DeedJobs(p.w.jobs, d)
            && (d == Nothing ==> x.run.w == p.w)
            && (d != Nothing ==> FoundJob(p, ApplyStage, ApplyExtra(p)).None?)
  {
    hide Set, FoundJob, ApplyExtra, DetectErrors, NewJob;
    DetectEffect(ApplyFail(p, None, ApplyFailed));
    var q := Update(p, p.c.status.(resourceStatus := OutOfSync));
    assert NewJob(q, ApplyStage, ApplyExtra(p)) == NewJob(p, ApplyStage, ApplyExtra(p)) by {
      NewJobSame(p, q, ApplyStage, ApplyExtra(p));
    }
    UpdateKeepsFilters(p, p.c.status.(resourceStatus := OutOfSync));
    if && GetStateForApply !in p.faults && !NothingToDo(p)
       && (p.c.spec.autoApproval || !NeedsApproval(p.c)) && RenderJob(ApplyStage) !in p.faults
       && FoundJob(p, ApplyStage, ApplyExtra(p)).None? && CreateJob(ApplyStage) !in p.faults {
      d := CreatedApply(NewJob(p, ApplyStage, ApplyExtra(p)));
    } else {
      d := Nothing;
    }
  }

  lemma NewJobSame(p: Run, q: Run, stage: Stage, extra: LabelMap)
    requires q.w == p.w && q.s == p.s && SameButStatus(p.c, q.c)
    ensures NewJob(q, stage, extra) == NewJob(p, stage, extra)
  {
  }

  /** What every run of the normal list leaves as it was. */
  predicate Anchored(w: World, c: Configuration, x: Step) {
    && x.run.w.now == w.now
    && x.run.c.owner == c.owner && x.run.c.generation == c.generation
    && x.run.c.status.lastReconcile == c.status.lastReconcile
    && (PlanSettled(c) && RetryReadable(c) ==> x.run.c.status.plan == c.status.plan)
  }

  /** The finalizer step, when our finalizer is missing. */
  lemma FinalizerDeed(w: World, c: Configuration, faults: Faults) returns (d: Deed)
    requires w.stored == Some(c) && !c.deleting && Ours !in c.finalizers
    ensures var x := AtStatus(Start(w, c, faults));
            Did(w, c, x.run.w, d) && Anchored(w, c, x) && !d.CreatedPlan? && (faults == map[] ==> d == AddedFinalizer)
  {
    hide PlanSettled, PlanJob, ApplyJob, RetryReadable, RunAll, ReconcileAllowed, CapturedState, TerraformPlan, TerraformApply,
         ConnectionWritten, StatusRecorded;
    d := if AddFinalizer in faults then Nothing else AddedFinalizer;
  }

  /** A run that stops before the plan step does nothing of note. */
  lemma EarlyStop(w: World, c: Configuration, faults: Faults)
    requires w.stored == Some(c) && Ours in c.finalizers && !BeforePlan(Start(w, c, faults)).outcome.Continue?
    ensures var x := AtStatus(Start(w, c, faults));
            && x == BeforePlan(Start(w, c, faults))
            && Did(w, c, x.run.w, Nothing) && Anchored(w, c, x)
  {
    hide PlanSettled, PlanJob, ApplyJob, RetryReadable, RunAll, AtCapture, TerraformPlan, TerraformApply,
         ConnectionWritten, StatusRecorded;
    var r := Start(w, c, faults);
    AtCaptureEnters(r);
    RunTheorems.EnteringKeepsFinalizer(r);
    Theorems.AllBenign();
    ThenAllQuiet(AtCapture(r), PREPARATION);
  }

  /** The reconcile once the plan step has let it pass. */
  lemma ReviewStart(w: World, c: Configuration, faults: Faults)
    requires BeforePlan(Start(w, c, faults)).outcome.Continue? && AtPlan(Start(w, c, faults)).outcome.Continue?
    ensures var p := BeforePlan(Start(w, c, faults)).run; var q := AtPlan(Start(w, c, faults)).run;
            && PlanOpen(p) && q == PlanDone(p)
            && (PlanSettled(c) || (PlanJob(w, c).Some? && PlanJob(w, c).value.complete))
            && q.w.stored == w.stored && q.w.jobs == w.jobs && q.s.jobs == w.jobs && q.s.templateHash == Hash(w)
            && q.w.secrets.planJson == w.secrets.planJson && q.w.inputs == w.inputs && q.w.now == w.now && q.faults == faults
            && SameButStatus(c, q.c) && q.c.status.lastReconcile == c.status.lastReconcile
            && (PlanSettled(c) ==> q.c.status.plan == c.status.plan)
  {
    hide BeforePlan, TerraformPlan, PlanSettled, PlanJob, FoundJob, PlanExtra, IsRetryable, RetryTime, Set, EntryOpen, Hash, Start;
    PlanStart(w, c, faults);
    var p := BeforePlan(Start(w, c, faults)).run;
    PlanExact(p);
    PlanFrame(p);
  }

  lemma QuietStep(w: World, c: Configuration, q: Run, x: Step)
    requires Quiet(q, x.run)
    requires q.w.stored == Some(c) && q.w.jobs == w.jobs && q.w.secrets.planJson == w.secrets.planJson && q.w.inputs == w.inputs
    requires q.w.now == w.now && SameIdentity(c, q.c) && (PlanSettled(c) && RetryReadable(c) ==> q.c.status.plan == c.status.plan)
    ensures Did(w, c, x.run.w, Nothing) && Anchored(w, c, x)
  {
    hide PlanSettled, PlanJob, ApplyJob, RetryReadable;
  }

  lemma PlanLabelsSame(w: World, c: Configuration, p: Run)
    requires p.s.templateHash == Hash(w) && p.c.annotations == c.annotations
    ensures PlanExtra(p) == PlanLabels(c, Hash(w))
    ensures ExtraFor(PlanStage, PlanExtra(p))
  {
    PlanExtraFits(p);
  }

  /** The plan step stops the reconcile: approval was asked for, a job created, or neither. */
  lemma PlanStop(w: World, c: Configuration, faults: Faults) returns (d: Deed)
    requires w.stored == Some(c)
    requires BeforePlan(Start(w, c, faults)).outcome.Continue? && !AtPlan(Start(w, c, faults)).outcome.Continue?
    ensures var x := AtStatus(Start(w, c, faults));
            && x == AtPlan(Start(w, c, faults))
            && Did(w, c, x.run.w, d) && Anchored(w, c, x)
            && (d == Nothing || d == AskedApproval || d.CreatedPlan?)
            && (d.CreatedPlan? ==> x.run.c.status.plan.status == StatusFalse)
  {
    hide BeforePlan, TerraformPlan, TerraformApply, ConnectionWritten, StatusRecorded, PlanSettled, PlanJob, ApplyJob,
         RetryReadable, FoundJob, PlanExtra, IsRetryable, RetryTime, Set, EntryOpen, Hash, Start, NewJob, MatchesLabels, StageFilter,
         PlanLabels, ExtraFor;
    PlanStart(w, c, faults);
    var p := BeforePlan(Start(w, c, faults)).run;
    d := PlanDeed(p);
    PlanKeepsIdentity(p);
    PlanLabelsSame(w, c, p);
    NewJobMatches(p, PlanStage, PlanExtra(p));
    assert NeedsApproval(p.c) == NeedsApproval(c);
    assert PlanSettled(c) && RetryReadable(c) ==> TerraformPlan(p).outcome.Continue? by {
      if PlanSettled(c) && RetryReadable(c) {
        RetryReadableSame(c, p.c);
        SettledPasses(p);
      }
    }
  }

  lemma RetryReadableSame(c: Configuration, d: Configuration)
    requires c.annotations == d.annotations
    ensures RetryReadable(c) == RetryReadable(d)
  {
  }

  /** The reconcile as the apply step finds it. */
  lemma ApplyStart(w: World, c: Configuration, faults: Faults)
    requires w.stored == Some(c)
    requires AtPlan(Start(w, c, faults)).outcome.Continue? && BeforeApply(Start(w, c, faults)).outcome.Continue?
    ensures var v := BeforeApply(Start(w, c, faults)).run; var q := AtPlan(Start(w, c, faults)).run;
            && Reviewed(q) && v == ReviewedRun(q)
            && (PlanSettled(c) || (PlanJob(w, c).Some? && PlanJob(w, c).value.complete))
            && v.w == q.w && v.w.stored == w.stored && v.w.jobs == w.jobs && v.w.inputs == w.inputs && v.w.now == w.now
            && v.w.secrets.planJson == w.secrets.planJson && v.faults == faults
            && SameButStatus(c, v.c) && v.c.status.lastReconcile == c.status.lastReconcile
            && (PlanSettled(c) ==> v.c.status.plan == c.status.plan)
            && FoundJob(v, ApplyStage, ApplyExtra(v)) == ApplyJob(w, c)
            && ApplyExtra(v) == ApplyLabels(w) && ExtraFor(ApplyStage, ApplyExtra(v))
  {
    hide RunAll, AtPlan, BeforePlan, PlanSettled, PlanJob, Set, Hash, Start, ReportReachable, PlanOpen, PlanDone, ExtraFor, Latest, StageFilter,
         PolicyMessage;
    assert BeforePlan(Start(w, c, faults)).outcome.Continue? by { PlanReached(Start(w, c, faults)); }
    ReviewStart(w, c, faults);
    var q := AtPlan(Start(w, c, faults)).run;
    ReviewExact(q);
    ApplyExtraFits(ReviewedRun(q));
  }

  lemma PlanReached(r: Run)
    requires AtPlan(r).outcome.Continue?
    ensures BeforePlan(r).outcome.Continue?
  {
    hide BeforePlan, TerraformPlan;
  }

  /** From the apply step to the end. */
  lemma ApplyPhase(w: World, c: Configuration, faults: Faults) returns (d: Deed)
    requires w.stored == Some(c)
    requires AtPlan(Start(w, c, faults)).outcome.Continue? && BeforeApply(Start(w, c, faults)).outcome.Continue?
    ensures var x := AtStatus(Start(w, c, faults));
            && Did(w, c, x.run.w, d) && Anchored(w, c, x)
            && (d == Nothing || d.CreatedApply?)
            && (d == Nothing ==> AtApply(Start(w, c, faults)).run.w == BeforeApply(Start(w, c, faults)).run.w)
  {
    hide BeforeApply, AtPlan, TerraformApply, ConnectionWritten, StatusRecorded, PlanSettled, PlanJob, ApplyJob, Reviewed, ReviewedRun,
         RetryReadable, FoundJob, ApplyExtra, Set, Hash, Start, NewJob, MatchesLabels, StageFilter, ApplyLabels, ExtraFor, StageName;
    ApplyStart(w, c, faults);
    var r := Start(w, c, faults);
    var v := BeforeApply(r).run;
    d := ApplyDeed(v);
    ApplyKeepsPlan(v);
    NewJobMatches(v, ApplyStage, ApplyExtra(v));
    var a := AtApply(r);
    if a.outcome.Continue? {
      RecordKeepsPlan(a.run);
      RecordingQuiet(a.run);
      RecordKeepsPlan(ConnectionWritten(a.run).run);
      Gating.StatusFrame(ConnectionWritten(a.run).run);
    }
  }

  /**
   Every reconcile of a live object, whatever calls fail, does at most one thing: it adds the
   finalizer, marks the object as awaiting approval, creates the plan job or creates the apply
   job -- and each only when it was due.
   */
  lemma OneDeed(w: World, c: Configuration, faults: Faults) returns (d: Deed)
    requires w.stored == Some(c) && !c.deleting
    ensures Did(w, c, Body(w, faults).run.w, d)
    ensures Anchored(w, c, Body(w, faults))
    ensures d.CreatedPlan? ==> Body(w, faults).run.c.status.plan.status == StatusFalse
  {
    hide RunAll, AtStatus, BeforePlan, AtPlan, BeforeApply, Did, Anchored, Start, PlanSettled, RetryReadable, ReviewedRun;
    var r := Start(w, c, faults);
    NormalPhases(r);
    assert Body(w, faults) == AtStatus(r);
    if Ours !in c.finalizers {
      d := FinalizerDeed(w, c, faults);
    } else if !BeforePlan(r).outcome.Continue? {
      EarlyStop(w, c, faults);
      d := Nothing;
    } else if !AtPlan(r).outcome.Continue? {
      d := PlanStop(w, c, faults);
    } else if !BeforeApply(r).outcome.Continue? {
      ReviewStop(w, c, faults);
      d := Nothing;
    } else {
      d := ApplyPhase(w, c, faults);
    }
  }

  lemma ReviewStop(w: World, c: Configuration, faults: Faults)
    requires w.stored == Some(c)
    requires BeforePlan(Start(w, c, faults)).outcome.Continue?
    requires AtPlan(Start(w, c, faults)).outcome.Continue? && !BeforeApply(Start(w, c, faults)).outcome.Continue?
    ensures var x := AtStatus(Start(w, c, faults));
            Did(w, c, x.run.w, Nothing) && Anchored(w, c, x)
  {
    hide AtPlan, BeforePlan, RunAll, Did, Anchored, Start, PlanSettled, PlanJob, PlanOpen, PlanDone, Hash, RetryReadable,
         TerraformApply, ConnectionWritten, StatusRecorded, Quiet, SameIdentity;
    var r := Start(w, c, faults);
    ReviewStart(w, c, faults);
    Theorems.AllBenign();
    ThenAllQuiet(AtPlan(r), REVIEW);
    assert SameIdentity(c, AtPlan(r).run.c) by { SameIsIdentity(c, AtPlan(r).run.c); }
    QuietStep(w, c, AtPlan(r).run, BeforeApply(r));
  }

  lemma SameIsIdentity(c: Configuration, d: Configuration)
    requires SameButStatus(c, d) && d.status.lastReconcile == c.status.lastReconcile
    ensures SameIdentity(c, d)
  {
  }

  // ---- what a deed does to the rank

  /** A status the reconcile may leave behind: stamps only move forward and a settled plan stays. */
  predicate Follows(w: World, c: Configuration, st: ConfigurationStatus) {
    && c.status.lastReconcile.time <= st.lastReconcile.time <= w.now
    && (c.status.plan.status == StatusTrue || st.plan.status == StatusTrue ==> st.lastReconcile.time != 0)
    && (PlanSettled(c) && RetryReadable(c) ==> st.plan == c.status.plan)
  }

  lemma StatusFollows(w: World, c: Configuration, x: Step)
    requires Anchored(w, c, x) && Stamped(c, w.now)
    ensures Follows(w, c, c.status) && Follows(w, c, Conclude(x, c).status)
  {
    hide Set, PlanSettled, RetryReadable;
    var e := Conclude(x, c);
    assert e.status.plan == x.run.c.status.plan;
    assert e.status.lastReconcile == c.status.lastReconcile || e.status.lastReconcile.time == w.now;
    if e.status.lastReconcile.time != w.now {
      assert e.(status := e.status.(lastReconcile := c.status.lastReconcile)) == e;
      assert e.status.plan == c.status.plan;
    }
  }
}
