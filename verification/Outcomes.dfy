/** What a reconcile of a live object reports, and whether it comes back, wherever it stops. */
module Outcomes {
  import opened Base
  import opened Jobs
  import opened Conditions
  import opened Cluster
  import opened Ensures
  import opened Runner
  import opened Frames
  import opened Safety
  import opened Effects
  import opened Exact
  import opened Progress
  import Arrival
  import Policies
  import Quiescence
  import Teardown
  import Theorems
  import ValueFrom

  /** The stored object goes through the normal list, and its status gets stored. */
  predicate Reconcilable(w: World, c: Configuration, faults: Faults) {
    w.stored == Some(c) && !IsDeletionCandidate(c) && PatchStatus !in faults
  }

  /** What is stored and answered once the last step is done. */
  lemma NormalStores(w: World, c: Configuration, faults: Faults)
    requires Reconcilable(w, c, faults)
    ensures var x := AtStatus(Start(w, c, faults)); var v := Reconcile(w, faults);
            && v == x.run.w.(stored := v.stored)
            && (x.run.w.stored.None? <==> v.stored.None?)
            && (v.stored.Some? ==>
                  && v.stored.value == x.run.w.stored.value.(status := v.stored.value.status)
                  && v.stored.value.status.plan == x.run.c.status.plan
                  && v.stored.value.status.apply == x.run.c.status.apply
                  && v.stored.value.status.resourceStatus == x.run.c.status.resourceStatus)
            && (v.stored.Some? && !x.outcome.Continue? ==>
                  v.stored.value.status == x.run.c.status.(lastReconcile := v.stored.value.status.lastReconcile))
            && ReconcileResult(w, faults) == ResultOf(x.outcome)
  {
    hide RunAll, AtStatus, Set, ResultOf;
    NormalPhases(Start(w, c, faults));
  }

  /** The jobs and all of the object but its status are as they were. */
  predicate Unmoved(w: World, c: Configuration, v: World) {
    v.jobs == w.jobs && v.log == w.log && v.stored.Some? && SameButStatus(c, v.stored.value)
  }

  /** The logs of a failed job are looked at: an error found there is put on Ready, and an unfinished pod is awaited. */
  predicate Diagnosed(i: Inputs, ready: Condition, generation: nat, result: Result) {
    match i.detection
    case Undetected => result == Settled
    case PodUnfinished => result == Requeued
    case Detected(d) =>
      result == Settled && ready.message == DetectedError(d) && ready.reason == ActionRequired
      && ready.status == StatusFalse && ready.observed == generation
  }

  lemma DetectAnswers(r: Run)
    ensures var x := DetectErrors(r);
            && x.run.w == r.w && SameButStatus(r.c, x.run.c)
            && x.run.c.status == r.c.status.(ready := x.run.c.status.ready)
            && !x.outcome.Continue? && Diagnosed(r.w.inputs, x.run.c.status.ready, r.c.generation, ResultOf(x.outcome))
  {
  }

  /** What the setters of a condition leave in it. */
  lemma SettersLeave(c: Condition, g: nat, err: Option<Note>, m: Message, now: nat)
    ensures IsComplete(Success(c, g, m, now), g)
    ensures var d := Conditions.Progress(c, g, m, now); IsInProgress(d) && d.observed == g && d.status == StatusFalse
    ensures var d := Fail(c, g, err, m, now); IsFailed(d, g) && d.status == StatusFalse
  {
  }

  /** A condition that says no, at this generation, with this message. */
  predicate Denies(d: Condition, g: nat, m: Message) {
    d.status == StatusFalse && d.observed == g && d.message == m
  }

  lemma DenialsLeave(c: Condition, g: nat, err: Note, m: Message, now: nat)
    ensures var d := Fail(c, g, Some(err), m, now); Denies(d, g, m) && IsFailed(d, g) && d.detail == err
    ensures var d := Act(c, g, m, now); Denies(d, g, m) && d.reason == ActionRequired
    ensures var d := Warn(c, g, m, now); Denies(d, g, m) && d.reason == Warning
  {
  }

  /** Setting Ready or the provider condition sets that condition and leaves the world and the rest of the object alone. */
  lemma SettersSet(r: Run)
    ensures forall d {:trigger SetReady(r, d)} ::
              var q := SetReady(r, d); q.c.status.ready == d && q.w == r.w && SameButStatus(r.c, q.c)
    ensures forall d {:trigger SetProvider(r, d)} ::
              var q := SetProvider(r, d); q.c.status.provider == d && q.w == r.w && SameButStatus(r.c, q.c)
  {
  }

  // ---- the plan job

  lemma PlanAnswers(p: Run)
    requires PlanByJobReached(p) && FoundJob(p, PlanStage, PlanExtra(p)).Some?
    ensures var x := TerraformPlan(p); var st := x.run.c.status; var j := FoundJob(p, PlanStage, PlanExtra(p)).value;
            && x.run.w == p.w && SameButStatus(p.c, x.run.c)
            && (j.complete ==> x.outcome.Continue? && IsComplete(st.plan, p.c.generation))
            && (IsActive(j) ==>
                  x.outcome == Requeue && IsInProgress(st.plan) && st.plan.observed == p.c.generation && st.plan.status == StatusFalse)
            && (j.failed && !j.complete ==>
                  && IsFailed(st.plan, p.c.generation) && st.plan.status == StatusFalse
                  && !x.outcome.Continue? && Diagnosed(p.w.inputs, st.ready, p.c.generation, ResultOf(x.outcome)))
  {
    hide FoundJob, PlanExtra, IsRetryable, RetryTime, LaunchPlan, AskApproval, PlanSettled, DetectErrors, Diagnosed, ResultOf, Set,
         IsComplete, IsFailed, IsInProgress;
    var d, g, now := p.c.status.plan, p.c.generation, p.w.now;
    SettersLeave(d, g, None, PlanComplete, now);
    SettersLeave(d, g, None, PlanRunning, now);
    SettersLeave(d, g, None, PlanFailed, now);
    DetectAnswers(PlanFail(p, None, PlanFailed));
  }

  /** A retry token later than the last reconcile that was stamped. */
  predicate RetryIsDue(c: Configuration) {
    RetryTime(c).Some? && c.status.lastReconcile.time != 0 && c.status.lastReconcile.time < RetryTime(c).value
  }

  lemma FailedStays(p: Run)
    requires (HasRetry(p.c) ==> RetryTime(p.c).Some?) && IsFailed(p.c.status.plan, p.c.generation) && !RetryIsDue(p.c)
    ensures TerraformPlan(p) == Step(p, Ignore)
  {
    hide RetryTime, PlanByJob, PlanSettled;
  }

  /** A failed plan rests, jobs or not, until the spec changes or a later retry token comes. */
  lemma FailedPlanRests(w: World, c: Configuration, faults: Faults)
    requires Reconcilable(w, c, faults) && BeforePlan(Start(w, c, faults)).outcome.Continue?
    requires RetryReadable(c) && IsFailed(c.status.plan, c.generation) && !RetryIsDue(c)
    ensures var v := Reconcile(w, faults);
            Unmoved(w, c, v) && v.stored.value.status.plan == c.status.plan && ReconcileResult(w, faults) == Settled
  {
    hide Reconcile, ReconcileResult, BeforePlan, AtStatus, Start, TerraformPlan, FoundJob, PlanExtra, IsRetryable, RetryTime, Hash, PlanSettled,
         PlanJob, EntryOpen, IsDeletionCandidate, IsFailed;
    var r := Start(w, c, faults);
    NormalStores(w, c, faults);
    PlanStart(w, c, faults);
    var p := BeforePlan(r).run;
    Quiescence.SameRetry(c, p.c);
    FailedStays(p);
    PlanStepStops(r);
    LogKept(w, c, faults);
  }

  /** The reconcile comes to its plan step and has to look for a job there. */
  predicate AtPlanJob(w: World, c: Configuration, faults: Faults) {
    && Reconcilable(w, c, faults)
    && BeforePlan(Start(w, c, faults)).outcome.Continue?
    && RetryReadable(c) && (!IsFailed(c.status.plan, c.generation) || RetryIsDue(c))
    && !PlanSettled(c)
    && RenderJob(PlanStage) !in faults
  }

  lemma PlanJobReached(w: World, c: Configuration, faults: Faults)
    requires AtPlanJob(w, c, faults)
    ensures PlanByJobReached(BeforePlan(Start(w, c, faults)).run)
  {
    hide BeforePlan, Start, FoundJob, PlanExtra, RetryTime, Hash, PlanSettled, PlanJob, EntryOpen;
    PlanStart(w, c, faults);
    Quiescence.SameRetry(c, BeforePlan(Start(w, c, faults)).run.c);
    RetryReadableSame(c, BeforePlan(Start(w, c, faults)).run.c);
  }

  lemma PlanStepStops(r: Run)
    requires BeforePlan(r).outcome.Continue? && !TerraformPlan(BeforePlan(r).run).outcome.Continue?
    ensures AtStatus(r) == TerraformPlan(BeforePlan(r).run)
  {
    hide BeforePlan, TerraformPlan, TerraformApply, ConnectionWritten, StatusRecorded, RunAll;
  }

  /**
   The answer to a plan job: a running one is reported in progress and awaited, a failed one fails
   the plan condition, creates nothing, and stops as its logs say.
   */
  lemma PlanJobAnswered(w: World, c: Configuration, faults: Faults)
    requires AtPlanJob(w, c, faults) && PlanJob(w, c).Some? && !PlanJob(w, c).value.complete
    ensures var v := Reconcile(w, faults); var j := PlanJob(w, c).value;
            && Unmoved(w, c, v)
            && (IsActive(j) ==>
                  && IsInProgress(v.stored.value.status.plan) && v.stored.value.status.plan.observed == c.generation
                  && ReconcileResult(w, faults) == Requeued)
            && (j.failed ==>
                  && IsFailed(v.stored.value.status.plan, c.generation)
                  && Diagnosed(w.inputs, v.stored.value.status.ready, c.generation, ReconcileResult(w, faults)))
  {
    hide Reconcile, ReconcileResult, BeforePlan, AtStatus, Start, TerraformPlan, FoundJob, PlanExtra, IsRetryable, RetryTime, Hash, PlanSettled,
         PlanJob, EntryOpen, RetryReadable, IsDeletionCandidate, Diagnosed, IsFailed;
    var r := Start(w, c, faults);
    NormalStores(w, c, faults);
    PlanStart(w, c, faults);
    PlanJobReached(w, c, faults);
    PlanAnswers(BeforePlan(r).run);
    PlanStepStops(r);
    LogKept(w, c, faults);
  }

  lemma LogKept(w: World, c: Configuration, faults: Faults)
    requires BeforePlan(Start(w, c, faults)).outcome.Continue?
    ensures BeforePlan(Start(w, c, faults)).run.w.log == w.log
  {
    hide RunAll, AtCapture;
    var r := Start(w, c, faults);
    AtCaptureEnters(r);
    Theorems.AllBenign();
    ThenAllQuiet(AtCapture(r), PREPARATION);
  }

  // ---- the apply job

  lemma ApplyAnswers(r: Run)
    requires GetStateForApply !in r.faults && RenderJob(ApplyStage) !in r.faults && !NothingToDo(r)
    requires r.c.spec.autoApproval || !NeedsApproval(r.c)
    requires FoundJob(r, ApplyStage, ApplyExtra(r)).Some?
    ensures var x := TerraformApply(r); var st := x.run.c.status; var j := FoundJob(r, ApplyStage, ApplyExtra(r)).value;
            && x.run.w == r.w && SameButStatus(r.c, x.run.c)
            && (j.complete ==> x.outcome.Continue? && IsComplete(st.apply, r.c.generation) && st.resourceStatus == InSync)
            && (IsActive(j) ==>
                  x.outcome == Requeue && IsInProgress(st.apply) && st.apply.observed == r.c.generation && st.apply.status == StatusFalse)
            && (j.failed && !j.complete ==>
                  && IsFailed(st.apply, r.c.generation) && st.apply.status == StatusFalse
                  && !x.outcome.Continue? && Diagnosed(r.w.inputs, st.ready, r.c.generation, ResultOf(x.outcome)))
  {
    hide FoundJob, ApplyExtra, LaunchApply, DetectErrors, Diagnosed, ResultOf, Set, IsComplete, IsFailed, IsInProgress;
    var d, g, now := r.c.status.apply, r.c.generation, r.w.now;
    SettersLeave(d, g, None, ApplyComplete, now);
    SettersLeave(d, g, None, ApplyInProgress, now);
    SettersLeave(d, g, None, ApplyFailed, now);
    DetectAnswers(ApplyFail(r, None, ApplyFailed));
  }

  /** An apply that awaits its approval is told so, and the reconcile rests until the object changes. */
  lemma ApprovalAwaited(r: Run)
    requires GetStateForApply !in r.faults && !NothingToDo(r) && NeedsApproval(r.c) && !r.c.spec.autoApproval
    ensures var x := TerraformApply(r); var st := x.run.c.status;
            && x.run.w == r.w && SameButStatus(r.c, x.run.c) && x.outcome == Ignore
            && st.apply.reason == ActionRequired && st.apply.status == StatusFalse && st.apply.observed == r.c.generation
            && st.resourceStatus == OutOfSync && IsInProgress(st.ready)
  {
    hide FoundJob, ApplyExtra, LaunchApply;
  }

  /** The apply annotation is anything but the text "false". */
  predicate Approved(c: Configuration) {
    ApplyAnnotation in c.annotations ==> c.annotations[ApplyAnnotation] != "false"
  }

  /** The reconcile comes to its apply step, and something has to be applied. */
  predicate AtApplyJob(w: World, c: Configuration, faults: Faults) {
    && Reconcilable(w, c, faults)
    && BeforeApply(Start(w, c, faults)).outcome.Continue?
    && Arrival.NeedsApplying(w)
    && GetStateForApply !in faults
  }

  lemma ApplyReached(r: Run)
    requires BeforeApply(r).outcome.Continue?
    ensures AtPlan(r).outcome.Continue?
  {
    hide AtPlan, RunAll;
  }

  lemma ApplyStepStops(r: Run)
    requires BeforeApply(r).outcome.Continue? && !TerraformApply(BeforeApply(r).run).outcome.Continue?
    ensures AtStatus(r) == TerraformApply(BeforeApply(r).run)
  {
    hide BeforeApply, TerraformApply, ConnectionWritten, StatusRecorded;
  }

  /** The run as the apply step finds it, in terms of the world. */
  lemma ApplyJobReached(w: World, c: Configuration, faults: Faults)
    requires AtApplyJob(w, c, faults)
    ensures var v := BeforeApply(Start(w, c, faults)).run;
            && !NothingToDo(v) && v.faults == faults && SameButStatus(c, v.c)
            && v.w.jobs == w.jobs && v.w.stored == w.stored && v.w.inputs == w.inputs && v.w.log == w.log
            && v.w.secrets.state == w.secrets.state
            && FoundJob(v, ApplyStage, ApplyExtra(v)) == ApplyJob(w, c)
  {
    hide AtPlan, BeforeApply, Start, FoundJob, ApplyExtra, ApplyJob, ApplyLabels, Reviewed, PlanSettled, PlanJob, IsDeletionCandidate,
         ExtraFor, ReviewedStatus;
    var r := Start(w, c, faults);
    ApplyReached(r);
    ApplyStart(w, c, faults);
    StateKept(w, c, faults);
    assert AtPlan(r).run.w.secrets.planJson.Some? && AtPlan(r).run.w.secrets.planJson.value.TfPlan? by { ReviewedHas(AtPlan(r).run); }
  }

  lemma ReviewedHas(r: Run)
    requires Reviewed(r)
    ensures r.w.secrets.planJson.Some? && r.w.secrets.planJson.value.TfPlan?
  {
  }

  lemma StateKept(w: World, c: Configuration, faults: Faults)
    requires AtPlan(Start(w, c, faults)).outcome.Continue?
    ensures AtPlan(Start(w, c, faults)).run.w.secrets.state == w.secrets.state
    ensures AtPlan(Start(w, c, faults)).run.w.log == w.log
  {
    hide RunAll, AtCapture, BeforePlan, TerraformPlan, PlanDone, PlanOpen;
    var r := Start(w, c, faults);
    PlanReached(r);
    PreparationKeepsState(r);
    var p := BeforePlan(r).run;
    PlanExact(p);
    Quiescence.PlanFrame(p);
    LogKept(w, c, faults);
  }

  lemma PreparationKeepsState(r: Run)
    ensures BeforePlan(r).run.w.secrets.state == r.w.secrets.state
  {
    hide RunAll, AtCapture;
    AtCaptureEnters(r);
    Theorems.AllBenign();
    ThenAllQuiet(AtCapture(r), PREPARATION);
  }

  /**
   The answer to an apply job: a running one is reported in progress and awaited, a failed one fails
   the apply condition, creates nothing, and stops as its logs say; without approval nothing is
   looked for and the object waits.
   */
  lemma ApplyJobAnswered(w: World, c: Configuration, faults: Faults)
    requires AtApplyJob(w, c, faults) && RenderJob(ApplyStage) !in faults
    requires c.spec.autoApproval || Approved(c)
    requires ApplyJob(w, c).Some? && !ApplyJob(w, c).value.complete
    ensures var v := Reconcile(w, faults); var j := ApplyJob(w, c).value;
            && Unmoved(w, c, v)
            && (IsActive(j) ==>
                  && IsInProgress(v.stored.value.status.apply) && v.stored.value.status.apply.observed == c.generation
                  && ReconcileResult(w, faults) == Requeued)
            && (j.failed ==>
                  && IsFailed(v.stored.value.status.apply, c.generation)
                  && Diagnosed(w.inputs, v.stored.value.status.ready, c.generation, ReconcileResult(w, faults)))
  {
    hide Reconcile, ReconcileResult, BeforeApply, AtStatus, Start, TerraformApply, FoundJob, ApplyExtra, ApplyJob, NothingToDo,
         Arrival.NeedsApplying, IsDeletionCandidate, Diagnosed, IsFailed;
    var r := Start(w, c, faults);
    NormalStores(w, c, faults);
    ApplyJobReached(w, c, faults);
    ApplyAnswers(BeforeApply(r).run);
    ApplyStepStops(r);
  }

  lemma ApprovalAnswered(w: World, c: Configuration, faults: Faults)
    requires AtApplyJob(w, c, faults) && !Approved(c) && !c.spec.autoApproval
    ensures var v := Reconcile(w, faults);
            && Unmoved(w, c, v) && ReconcileResult(w, faults) == Settled
            && v.stored.value.status.apply.reason == ActionRequired && v.stored.value.status.apply.status == StatusFalse
            && v.stored.value.status.resourceStatus == OutOfSync
  {
    hide Reconcile, ReconcileResult, BeforeApply, AtStatus, Start, TerraformApply, FoundJob, ApplyExtra, ApplyJob, NothingToDo,
         Arrival.NeedsApplying, IsDeletionCandidate;
    var r := Start(w, c, faults);
    NormalStores(w, c, faults);
    ApplyJobReached(w, c, faults);
    ApprovalAwaited(BeforeApply(r).run);
    ApplyStepStops(r);
  }

  // ---- where there is no job yet

  /** One more job, running, which the filter of its stage finds. */
  predicate Adds(w: World, v: World, f: Filter) {
    && |v.jobs| == |w.jobs| + 1
    && v.jobs[..|w.jobs|] == w.jobs
    && MatchesLabels(f, v.jobs[|w.jobs|].labels)
    && IsActive(v.jobs[|w.jobs|])
  }

  lemma PlanLaunches(p: Run)
    requires PlanByJobReached(p) && FoundJob(p, PlanStage, PlanExtra(p)).None?
    requires p.c.spec.autoApproval || NeedsApproval(p.c)
    ensures CreateJob(PlanStage) !in p.faults ==>
              var x := TerraformPlan(p); var d := x.run.c.status.plan;
              && x.run.w.jobs == p.w.jobs + [NewJob(p, PlanStage, PlanExtra(p))] && x.run.w.stored == p.w.stored
              && x.outcome == Requeue && IsInProgress(d) && d.observed == p.c.generation
    ensures CreateJob(PlanStage) in p.faults ==>
              var x := TerraformPlan(p);
              && x.run.w == p.w && x.outcome == Failure(p.faults[CreateJob(PlanStage)])
              && IsFailed(x.run.c.status.plan, p.c.generation) && x.run.c.status.plan.detail == p.faults[CreateJob(PlanStage)].text
  {
    hide FoundJob, PlanExtra, IsRetryable, RetryTime, AskApproval, PlanSettled, NewJob, DetectErrors;
  }

  /** What the runner makes of a call that failed: a conflict is tried again, anything else is an error. */
  predicate Reported(e: ApiError, d: Condition, generation: nat, result: Result) {
    && IsFailed(d, generation) && d.detail == e.text
    && result == (if e.conflict then Requeued else Errored(e.text))
  }

  /** An approved or self-approving configuration without a plan job gets one, or the failure to create it is reported. */
  lemma PlanJobCreated(w: World, c: Configuration, faults: Faults)
    requires AtPlanJob(w, c, faults) && PlanJob(w, c).None? && (c.spec.autoApproval || !Approved(c))
    ensures var v := Reconcile(w, faults);
            && v.stored.Some? && SameButStatus(c, v.stored.value)
            && (CreateJob(PlanStage) !in faults ==>
                  && Adds(w, v, StageFilter(c.owner, c.generation, PlanStage, PlanLabels(c, Hash(w))))
                  && IsInProgress(v.stored.value.status.plan) && v.stored.value.status.plan.observed == c.generation
                  && ReconcileResult(w, faults) == Requeued)
            && (CreateJob(PlanStage) in faults ==>
                  && v.jobs == w.jobs
                  && Reported(faults[CreateJob(PlanStage)], v.stored.value.status.plan, c.generation, ReconcileResult(w, faults)))
  {
    hide Reconcile, ReconcileResult, BeforePlan, AtStatus, Start, TerraformPlan, FoundJob, PlanExtra, IsRetryable, RetryTime, Hash, PlanSettled,
         PlanJob, EntryOpen, RetryReadable, IsDeletionCandidate, IsFailed, NewJob, MatchesLabels, StageFilter, PlanLabels, ExtraFor;
    var r := Start(w, c, faults);
    NormalStores(w, c, faults);
    PlanStart(w, c, faults);
    PlanJobReached(w, c, faults);
    var p := BeforePlan(r).run;
    Quiescence.SameRetry(c, p.c);
    PlanLaunches(p);
    PlanLabelsSame(w, c, p);
    NewJobMatches(p, PlanStage, PlanExtra(p));
    PlanStepStops(r);
  }

  lemma Asks(p: Run)
    requires PlanByJobReached(p) && FoundJob(p, PlanStage, PlanExtra(p)).None?
    requires !p.c.spec.autoApproval && !NeedsApproval(p.c) && p.w.stored.Some? && PatchApply !in p.faults
    ensures var x := TerraformPlan(p);
            && !x.outcome.Continue?
            && x.run.w == p.w.(stored := Some(p.w.stored.value.(annotations := p.c.annotations[ApplyAnnotation := "false"])))
            && (p.w.inputs.management.Unmanaged? ==> x.outcome == Requeue)
            && (p.w.inputs.management == ManagedBy(true) && GetCloudResource !in p.faults && PatchCloudResource !in p.faults ==>
                  x.outcome == Requeue)
            && (p.w.inputs.management == ManagedBy(false) && GetCloudResource !in p.faults ==>
                  x.outcome == Requeue && IsFailed(x.run.c.status.plan, p.c.generation))
  {
    hide FoundJob, PlanExtra, IsRetryable, RetryTime, PlanSettled, LaunchPlan, DetectErrors;
  }

  /** One that is neither is first marked as awaiting approval, and comes back to be planned. */
  lemma ApprovalAsked(w: World, c: Configuration, faults: Faults)
    requires AtPlanJob(w, c, faults) && PlanJob(w, c).None? && !c.spec.autoApproval && Approved(c) && PatchApply !in faults
    ensures var v := Reconcile(w, faults);
            && v.jobs == w.jobs && v.stored.Some?
            && v.stored.value == c.(annotations := c.annotations[ApplyAnnotation := "false"], status := v.stored.value.status)
            && !Approved(v.stored.value)
            && (GetCloudResource !in faults && PatchCloudResource !in faults ==> ReconcileResult(w, faults) == Requeued)
            && (GetCloudResource !in faults && w.inputs.management == ManagedBy(false) ==>
                  IsFailed(v.stored.value.status.plan, c.generation))
  {
    hide Reconcile, ReconcileResult, BeforePlan, AtStatus, Start, TerraformPlan, FoundJob, PlanExtra, IsRetryable, RetryTime, Hash, PlanSettled,
         PlanJob, EntryOpen, RetryReadable, IsDeletionCandidate, IsFailed;
    var r := Start(w, c, faults);
    NormalStores(w, c, faults);
    PlanStart(w, c, faults);
    PlanJobReached(w, c, faults);
    var p := BeforePlan(r).run;
    Quiescence.SameRetry(c, p.c);
    Asks(p);
    PlanStepStops(r);
  }

  lemma ApplyLaunches(r: Run)
    requires GetStateForApply !in r.faults && RenderJob(ApplyStage) !in r.faults && !NothingToDo(r)
    requires r.c.spec.autoApproval || !NeedsApproval(r.c)
    requires FoundJob(r, ApplyStage, ApplyExtra(r)).None?
    ensures CreateJob(ApplyStage) !in r.faults ==>
              var x := TerraformApply(r); var st := x.run.c.status;
              && x.run.w.jobs == r.w.jobs + [NewJob(r, ApplyStage, ApplyExtra(r))] && x.run.w.stored == r.w.stored
              && x.outcome == Requeue && IsInProgress(st.apply) && st.apply.observed == r.c.generation
              && st.resourceStatus == OutOfSync
    ensures CreateJob(ApplyStage) in r.faults ==>
              var x := TerraformApply(r);
              && x.run.w == r.w && x.outcome == Failure(r.faults[CreateJob(ApplyStage)])
              && IsFailed(x.run.c.status.apply, r.c.generation) && x.run.c.status.apply.detail == r.faults[CreateJob(ApplyStage)].text
  {
    hide FoundJob, NewJob, DetectErrors, ApplyExtra;
    var q := Update(r, r.c.status.(resourceStatus := OutOfSync));
    UpdateKeepsFilters(r, r.c.status.(resourceStatus := OutOfSync));
    NewJobSame(r, q, ApplyStage, ApplyExtra(r));
  }

  /** An approved configuration with something to apply and no apply job for this plan gets one. */
  lemma ApplyJobCreated(w: World, c: Configuration, faults: Faults)
    requires AtApplyJob(w, c, faults) && RenderJob(ApplyStage) !in faults && ApplyJob(w, c).None?
    requires c.spec.autoApproval || Approved(c)
    ensures var v := Reconcile(w, faults);
            && v.stored.Some? && SameButStatus(c, v.stored.value)
            && (CreateJob(ApplyStage) !in faults ==>
                  && Adds(w, v, StageFilter(c.owner, c.generation, ApplyStage, ApplyLabels(w)))
                  && IsInProgress(v.stored.value.status.apply) && v.stored.value.status.apply.observed == c.generation
                  && v.stored.value.status.resourceStatus == OutOfSync
                  && ReconcileResult(w, faults) == Requeued)
            && (CreateJob(ApplyStage) in faults ==>
                  && v.jobs == w.jobs
                  && Reported(faults[CreateJob(ApplyStage)], v.stored.value.status.apply, c.generation, ReconcileResult(w, faults)))
  {
    hide Reconcile, ReconcileResult, BeforeApply, AtStatus, Start, TerraformApply, FoundJob, ApplyExtra, ApplyJob, NothingToDo,
         Arrival.NeedsApplying, IsDeletionCandidate, IsFailed, NewJob, MatchesLabels, StageFilter, ApplyLabels, ExtraFor, PlanSettled,
         PlanJob, Reviewed, ReviewedRun, AtPlan;
    var r := Start(w, c, faults);
    NormalStores(w, c, faults);
    ApplyJobReached(w, c, faults);
    ApplyReached(r);
    ApplyStart(w, c, faults);
    var q := BeforeApply(r).run;
    ApplyLaunches(q);
    NewJobMatches(q, ApplyStage, ApplyExtra(q));
    ApplyStepStops(r);
  }

  // ---- the security report

  lemma PolicyAnswers(r: Run)
    requires r.s.constraint.Some? && GetReport !in r.faults
    ensures var x := PolicyChecked(r); var d := x.run.c.status.policy;
            && x.run.w == r.w && SameButStatus(r.c, x.run.c)
            && (r.w.secrets.report.None? ==> x.outcome == Requeue && d.reason == Warning && d.status == StatusFalse)
            && (r.w.secrets.report.Some? && !WellFormed(r.w.secrets.report.value) ==>
                  x.outcome == Ignore && IsFailed(d, r.c.generation))
            && (r.w.secrets.report.Some? && WellFormed(r.w.secrets.report.value) && CopyReport !in r.faults
                && CountedFailures(r.w.secrets.report.value) > 0 ==>
                  x.outcome == Ignore && d.reason == ActionRequired && d.status == StatusFalse && d.observed == r.c.generation)
  {
    hide WellFormed, CountedFailures;
  }

  /** The reconcile comes to its policy step, and a security policy governs the configuration. */
  predicate AtReport(w: World, c: Configuration, faults: Faults) {
    && Reconcilable(w, c, faults)
    && AtPlan(Start(w, c, faults)).outcome.Continue?
    && GetPlanSecret !in faults && w.secrets.planJson.Some? && w.inputs.gates.costStatus.Open?
    && ChosenConstraint(w.inputs.policies).Some? && GetReport !in faults
  }

  lemma ReportSame(w: World, c: Configuration, faults: Faults)
    requires AtPlan(Start(w, c, faults)).outcome.Continue?
    ensures var q := AtPlan(Start(w, c, faults)).run;
            q.w.secrets.report == w.secrets.report && q.s.constraint == ChosenConstraint(w.inputs.policies)
  {
    hide RunAll, AtCapture, TerraformPlan, PlanDone, PlanOpen, EntryOpen, Captured, Prepared, PreparedRun, ChosenConstraint, Values;
    var r := Start(w, c, faults);
    PlanReached(r);
    PlanStart(w, c, faults);
    EntryExact(r);
    PreparationExact(Captured(r));
    Quiescence.CapturedTemplate(r);
    Quiescence.PreparedShape(r);
    PlanExact(BeforePlan(r).run);
    Quiescence.PlanFrame(BeforePlan(r).run);
  }

  lemma ReviewStops(r: Run)
    requires GetPlanSecret !in r.faults && r.w.secrets.planJson.Some? && r.w.inputs.gates.costStatus.Open?
    ensures var b := Update(r.(s := r.s.(plan := r.w.secrets.planJson)), r.c.status.(costs := r.w.inputs.costs));
            !PolicyChecked(b).outcome.Continue? ==> RunAll(REVIEW, r) == PolicyChecked(b)
  {
    hide RunAll, PlanSecretRead, CostsRecorded, PolicyChecked, DriftChecked;
    ReviewUnfolds(r);
    PlanSecretExact(r);
    CostsExact(PlanSecretRead(r).run);
  }

  lemma ReviewStopped(r: Run, x: Step)
    requires AtPlan(r).outcome.Continue? && RunAll(REVIEW, AtPlan(r).run) == x && !x.outcome.Continue?
    ensures AtStatus(r) == x
  {
    hide AtPlan, RunAll, TerraformApply, ConnectionWritten, StatusRecorded;
  }

  /**
   No report, a report of the wrong form, or one that counts failures holds the reconcile up before
   anything is applied: the first is awaited, the other two rest with the user.
   */
  lemma ReportAnswered(w: World, c: Configuration, faults: Faults)
    requires AtReport(w, c, faults)
    ensures var v := Reconcile(w, faults); var report := w.secrets.report;
            && (report.None? ==>
                  Unmoved(w, c, v) && ReconcileResult(w, faults) == Requeued && v.stored.value.status.policy.reason == Warning)
            && (report.Some? && !WellFormed(report.value) ==>
                  Unmoved(w, c, v) && ReconcileResult(w, faults) == Settled && IsFailed(v.stored.value.status.policy, c.generation))
            && (report.Some? && WellFormed(report.value) && CountedFailures(report.value) > 0 && CopyReport !in faults ==>
                  && Unmoved(w, c, v) && ReconcileResult(w, faults) == Settled
                  && v.stored.value.status.policy.reason == ActionRequired && v.stored.value.status.policy.status == StatusFalse)
  {
    hide Reconcile, ReconcileResult, AtPlan, BeforePlan, AtStatus, Start, RunAll, WellFormed, CountedFailures, ChosenConstraint, PolicyChecked,
         IsDeletionCandidate, IsFailed, PlanOpen, PlanDone, PlanSettled, PlanJob, Hash;
    var r := Start(w, c, faults);
    PlanReached(r);
    NormalStores(w, c, faults);
    ReviewStart(w, c, faults);
    StateKept(w, c, faults);
    ReportSame(w, c, faults);
    var q := AtPlan(r).run;
    ReviewStops(q);
    var b := Update(q.(s := q.s.(plan := q.w.secrets.planJson)), q.c.status.(costs := q.w.inputs.costs));
    PolicyAnswers(b);
    if !PolicyChecked(b).outcome.Continue? {
      ReviewStopped(r, PolicyChecked(b));
    }
  }

  // ---- before the plan step

  /** A list that stops early is the whole reconcile. */
  lemma EarlyStops(r: Run)
    requires !BeforePlan(r).outcome.Continue?
    ensures AtStatus(r) == BeforePlan(r)
  {
    hide BeforePlan, TerraformPlan, TerraformApply, ConnectionWritten, StatusRecorded, RunAll;
  }

  /** A new object gets the finalizer and nothing else, and comes back. */
  lemma FinalizerAdded(w: World, c: Configuration, faults: Faults)
    requires Reconcilable(w, c, faults) && !c.deleting && Ours !in c.finalizers && AddFinalizer !in faults
    ensures var v := Reconcile(w, faults);
            && v.jobs == w.jobs && v.log == w.log && v.stored.Some?
            && v.stored.value == c.(finalizers := c.finalizers + [Ours], status := v.stored.value.status)
            && ReconcileResult(w, faults) == Requeued
  {
    hide Reconcile, ReconcileResult, RunAll, AtStatus, ReconcileAllowed, CapturedState, IsDeletionCandidate;
    var r := Start(w, c, faults);
    NormalStores(w, c, faults);
    assert !BeforePlan(r).outcome.Continue?;
    EarlyStops(r);
  }

  /** An object that is not to be reconciled is told so and left alone. */
  lemma DisabledRests(w: World, c: Configuration, faults: Faults)
    requires Reconcilable(w, c, faults) && (c.deleting || Ours in c.finalizers)
    requires Read(c.annotations, ReconcileAnnotation) == "false"
    ensures var v := Reconcile(w, faults);
            && Unmoved(w, c, v) && v.secrets == w.secrets && ReconcileResult(w, faults) == Settled
            && v.stored.value.status.ready.reason == Warning
            && v.stored.value.status == c.status.(ready := v.stored.value.status.ready, lastReconcile := v.stored.value.status.lastReconcile)
  {
    hide Reconcile, ReconcileResult, RunAll, AtStatus, CapturedState, IsDeletionCandidate;
    var r := Start(w, c, faults);
    NormalStores(w, c, faults);
    assert !BeforePlan(r).outcome.Continue?;
    EarlyStops(r);
  }

  /** While a job of another generation runs, the reconcile waits and reports nothing. */
  lemma BlockedWaits(w: World, c: Configuration, faults: Faults, j: Job)
    requires Reconcilable(w, c, faults) && EntryOpen(Start(w, c, faults)) && j in w.jobs && Blocks(c, j)
    ensures var v := Reconcile(w, faults);
            && Unmoved(w, c, v) && v.secrets == w.secrets && ReconcileResult(w, faults) == Requeued
            && (c.status.resourceStatus != UnknownStatus ==>
                  v.stored.value.status == c.status.(lastReconcile := v.stored.value.status.lastReconcile))
  {
    hide Reconcile, ReconcileResult, RunAll, AtStatus, AtCapture, IsDeletionCandidate, Blocks, EntryOpen, Perform;
    var r := Start(w, c, faults);
    NormalStores(w, c, faults);
    EntryExact(r);
    var a := Captured(r);
    SameBlocks(c, a.c, j);
    PreparationDispatch(a);
    assert PREPARATION == [EnsureNoActivity] + PREPARATION[1..];
    Advance(EnsureNoActivity, PREPARATION[1..], a);
    assert BeforePlan(r) == Step(a, Requeue);
    EarlyStops(r);
  }

  /** Nothing holds the reconcile up before its valueFrom entries are resolved. */
  predicate AtValues(w: World, c: Configuration, faults: Faults) {
    && Reconcilable(w, c, faults) && EntryOpen(Start(w, c, faults))
    && Arrival.Unblocked(w, c)
    && w.inputs.gates.costSecret.Open?
  }

  /** The reconcile as the valueFrom step leaves it. */
  lemma ValuesReached(w: World, c: Configuration, faults: Faults)
    requires AtValues(w, c, faults)
    ensures var r := Start(w, c, faults); var x := ValuesResolved(Captured(r));
            && RunAll(PREPARATION, Captured(r)) == ThenAll(x, PREPARATION[3..])
            && BeforePlan(r) == ThenAll(x, PREPARATION[3..])
  {
    hide RunAll, AtCapture, IsDeletionCandidate, Blocks, EntryOpen, Perform, ValuesResolved, NoActivity, PassGate;
    var r := Start(w, c, faults);
    EntryExact(r);
    var a := Captured(r);
    forall j | j in a.s.jobs ensures !Blocks(a.c, j) { SameBlocks(c, a.c, j); }
    ActivityExact(a);
    PreparationDispatch(a);
    GateDispatch(a);
    var l3 := PREPARATION[3..];
    var l2 := [EnsureValueFromSecret] + l3;
    var l1 := [EnsureCostSecret] + l2;
    assert PREPARATION == [EnsureNoActivity] + l1;
    Advance(EnsureNoActivity, l1, a);
    GateInList(EnsureCostSecret, l2, a, a.w.inputs.gates.costSecret, 1);
    Advance(EnsureValueFromSecret, l3, a);
  }

  /**
   A valueFrom entry that names two sources rests with the user, a required one that cannot be found
   is awaited, one that cannot be read or decoded is an error; Ready names the entry.
   */
  lemma ValuesAnswered(w: World, c: Configuration, faults: Faults)
    requires AtValues(w, c, faults) && Values(Start(w, c, faults)).stop.Some?
    ensures var v := Reconcile(w, faults); var (i, f) := Values(Start(w, c, faults)).stop.value;
            && Unmoved(w, c, v) && v.secrets == w.secrets
            && (var d := v.stored.value.status.ready; var result := ReconcileResult(w, faults);
                && (f.Exclusive? ==> result == Settled && Denies(d, c.generation, OptionsExclusive(i)))
                && (f.Unmet? ==> result == Requeued && Denies(d, c.generation, ValueMissing(i)) && d.reason == ActionRequired)
                && (!f.Exclusive? && !f.Unmet? ==>
                      Denies(d, c.generation, ValueBroken(i)) && (ReadValueFrom(i) in faults ==> Reported(faults[ReadValueFrom(i)], d, c.generation, result))))
  {
    hide Reconcile, ReconcileResult, RunAll, AtStatus, AtCapture, IsDeletionCandidate, Blocks, EntryOpen, Perform, ValueFrom.Resolve,
         Arrival.Unblocked, NoteUntyped, BrokenEntries, ValuesResolved;
    var r := Start(w, c, faults);
    NormalStores(w, c, faults);
    ValuesReached(w, c, faults);
    EntryExact(r);
    var a := Captured(r);
    Quiescence.ValuesSame(r, a);
    ValuesStop(a);
    EarlyStops(r);
  }

  lemma ValuesStop(r: Run)
    requires Values(r).stop.Some?
    ensures var x := ValuesResolved(r); var d := x.run.c.status.ready; var (i, f) := Values(r).stop.value;
            && !x.outcome.Continue? && x.run.w == r.w && SameButStatus(r.c, x.run.c)
            && (f.Exclusive? ==> x.outcome == Ignore && Denies(d, r.c.generation, OptionsExclusive(i)))
            && (f.Unmet? ==> x.outcome == Requeue && Denies(d, r.c.generation, ValueMissing(i)) && d.reason == ActionRequired)
            && (!f.Exclusive? && !f.Unmet? ==>
                  && Denies(d, r.c.generation, ValueBroken(i))
                  && (ReadValueFrom(i) in r.faults ==>
                        Reported(r.faults[ReadValueFrom(i)], d, r.c.generation, ResultOf(x.outcome))))
  {
    hide ValueFrom.Resolve, NoteUntyped, BrokenEntries, Set, Act, Fail, IsFailed, SetReady, Denies;
    NoteFrame(r, Values(r).untyped);
    var q, i := NoteUntyped(r, Values(r).untyped), Values(r).stop.value.0;
    SettersSet(q);
    var e := if ReadValueFrom(i) in r.faults then r.faults[ReadValueFrom(i)] else ApiError(false, UNDECODABLE_NOTE);
    var d, g, now := q.c.status.ready, r.c.generation, r.w.now;
    DenialsLeave(d, g, EXCLUSIVE_NOTE, OptionsExclusive(i), now);
    DenialsLeave(d, g, NO_NOTE, ValueMissing(i), now);
    DenialsLeave(d, g, e.text, ValueBroken(i), now);
  }

  /** Nothing holds the reconcile up before it loads the job template. */
  predicate AtTemplate(w: World, c: Configuration, faults: Faults) {
    && AtValues(w, c, faults)
    && Values(Start(w, c, faults)).stop.None?
    && w.inputs.gates.auth.Open?
  }

  /** The reconcile as the template step finds it. */
  lemma TemplateReached(w: World, c: Configuration, faults: Faults) returns (v: Run)
    requires AtTemplate(w, c, faults)
    ensures v.w == w && v.faults == faults && SameButStatus(c, v.c) && v.s.policies == w.inputs.policies
    ensures BeforePlan(Start(w, c, faults)) == ThenAll(TemplateLoaded(v), PREPARATION[5..])
  {
    hide RunAll, AtCapture, IsDeletionCandidate, Blocks, EntryOpen, Perform, ValuesResolved, PassGate, TemplateLoaded,
         ValuesDone, Values, AtValues, BeforePlan;
    var r := Start(w, c, faults);
    var a := Captured(r);
    ValuesReached(w, c, faults);
    Quiescence.ValuesSame(r, a);
    ValuesExact(a);
    ValuesFrame(a);
    v := ValuesDone(a);
    PreparationDispatch(v);
    GateDispatch(v);
    var l5 := PREPARATION[5..];
    var l4 := [EnsureCustomJobTemplate] + l5;
    assert PREPARATION[3..] == [EnsureAuthenticationSecret] + l4;
    GateInList(EnsureAuthenticationSecret, l4, v, v.w.inputs.gates.auth, 2);
    Advance(EnsureCustomJobTemplate, l5, v);
  }

  lemma TemplateAnswers(r: Run)
    requires r.w.inputs.template.None? && (r.w.inputs.customTemplate ==> GetTemplate !in r.faults)
    ensures var x := TemplateLoaded(r);
            && x.outcome == Ignore && x.run.w == r.w && SameButStatus(r.c, x.run.c)
            && Denies(x.run.c.status.ready, r.c.generation, TemplateMissing)
  {
  }

  /** A job template that is missing, or misses its key, rests with the administrator. */
  lemma TemplateAnswered(w: World, c: Configuration, faults: Faults)
    requires AtTemplate(w, c, faults) && w.inputs.template.None? && (w.inputs.customTemplate ==> GetTemplate !in faults)
    ensures var v := Reconcile(w, faults);
            && Unmoved(w, c, v) && v.secrets == w.secrets && ReconcileResult(w, faults) == Settled
            && Denies(v.stored.value.status.ready, c.generation, TemplateMissing)
  {
    hide Reconcile, ReconcileResult, RunAll, AtStatus, BeforePlan, IsDeletionCandidate, EntryOpen, TemplateLoaded, Values, Arrival.Unblocked;
    NormalStores(w, c, faults);
    var t := TemplateReached(w, c, faults);
    TemplateAnswers(t);
    EarlyStops(Start(w, c, faults));
  }

  /** Nothing holds the reconcile up before it looks at the provider. */
  predicate AtProvider(w: World, c: Configuration, faults: Faults) {
    && AtTemplate(w, c, faults)
    && TemplateReachable(Start(w, c, faults))
    && GetProvider !in faults
  }

  /** The reconcile as the provider step finds it. */
  lemma ProviderReached(w: World, c: Configuration, faults: Faults) returns (t: Run)
    requires AtProvider(w, c, faults)
    ensures t.w == w && t.faults == faults && SameButStatus(c, t.c) && t.s.policies == w.inputs.policies
    ensures BeforePlan(Start(w, c, faults)) == ThenAll(ProviderUsable(t), PREPARATION[6..])
  {
    hide RunAll, Perform, TemplateLoaded, ProviderUsable, AtTemplate, BeforePlan;
    var v := TemplateReached(w, c, faults);
    TemplateExact(v);
    var l6 := PREPARATION[6..];
    assert PREPARATION[5..] == [EnsureProviderReady] + l6;
    t := TemplateDone(v);
    PreparationDispatch(t);
    Advance(EnsureProviderReady, l6, t);
  }

  lemma ProviderAnswers(r: Run)
    requires GetProvider !in r.faults
    ensures var x := ProviderUsable(r); var d := x.run.c.status.provider; var p := r.w.inputs.provider;
            && x.run.w == r.w && SameButStatus(r.c, x.run.c)
            && (p.None? ==> x.outcome == Requeue && Denies(d, r.c.generation, ProviderMissing) && d.reason == ActionRequired)
            && (p.Some? && !p.value.ready ==>
                  x.outcome == Requeue && Denies(d, r.c.generation, ProviderNotReady) && d.reason == Warning)
            && (p.Some? && p.value.ready && p.value.selector == Selects(false)
                && GetNamespace !in r.faults && EvaluateSelector !in r.faults ==>
                  x.outcome == Ignore && Denies(d, r.c.generation, ProviderForbidden) && d.reason == ActionRequired)
            && (p.Some? && p.value.ready && p.value.selector.Selects? && GetNamespace in r.faults ==>
                  x.outcome == Requeue && Denies(d, r.c.generation, ApiCallFailed) && IsFailed(d, r.c.generation))
  {
    hide Set, Success, Act, Warn, Fail, IsFailed, SetProvider, Denies;
    var d, g, now := r.c.status.provider, r.c.generation, r.w.now;
    DenialsLeave(d, g, NO_NOTE, ProviderMissing, now);
    DenialsLeave(d, g, NO_NOTE, ProviderNotReady, now);
    DenialsLeave(d, g, NO_NOTE, ProviderForbidden, now);
    DenialsLeave(d, g, if GetNamespace in r.faults then r.faults[GetNamespace].text else NO_NOTE, ApiCallFailed, now);
    SettersSet(r);
    SettersSet(r.(s := r.s.(provider := r.w.inputs.provider)));
  }

  /**
   A provider that is missing or not ready is awaited, and so is a namespace that cannot be read; one
   that does not permit the configuration rests with the user.
   */
  lemma ProviderAnswered(w: World, c: Configuration, faults: Faults)
    requires AtProvider(w, c, faults)
    ensures var v := Reconcile(w, faults); var p := w.inputs.provider;
            && (p.None? || !p.value.ready ==>
                  && Unmoved(w, c, v) && v.secrets == w.secrets && ReconcileResult(w, faults) == Requeued
                  && Denies(v.stored.value.status.provider, c.generation, if p.None? then ProviderMissing else ProviderNotReady))
            && (p.Some? && p.value.ready && p.value.selector == Selects(false)
                && GetNamespace !in faults && EvaluateSelector !in faults ==>
                  && Unmoved(w, c, v) && v.secrets == w.secrets && ReconcileResult(w, faults) == Settled
                  && Denies(v.stored.value.status.provider, c.generation, ProviderForbidden))
            && (p.Some? && p.value.ready && p.value.selector.Selects? && GetNamespace in faults ==>
                  && Unmoved(w, c, v) && v.secrets == w.secrets && ReconcileResult(w, faults) == Requeued
                  && IsFailed(v.stored.value.status.provider, c.generation))
  {
    hide Reconcile, ReconcileResult, RunAll, AtStatus, BeforePlan, IsDeletionCandidate, EntryOpen, ProviderUsable, Values, Arrival.Unblocked,
         IsFailed;
    var r := Start(w, c, faults);
    NormalStores(w, c, faults);
    var t := ProviderReached(w, c, faults);
    ProviderAnswers(t);
    if !ProviderUsable(t).outcome.Continue? {
      EarlyStops(r);
    }
  }

  lemma GateAnswers(r: Run, g: Gate, n: nat)
    requires !g.Open?
    ensures var x := PassGate(r, g, n); var q := x.run;
            && !x.outcome.Continue? && q.w == r.w && SameButStatus(r.c, q.c) && Denies(q.c.status.ready, r.c.generation, Unavailable(n))
            && ResultOf(x.outcome) == match g case Awaited => Requeued case Ignored => Settled case Broken(t) => Errored(t) case Open => Settled
  {
    hide Set, Act, Fail, SetReady, Denies, IsFailed;
    SettersSet(r);
    DenialsLeave(r.c.status.ready, r.c.generation, if g.Broken? then g.text else NO_NOTE, Unavailable(n), r.w.now);
  }

  /** A prerequisite that is awaited brings the reconcile back, an ignored one does not, and a broken one is an error. */
  lemma GateAnswered(w: World, c: Configuration, faults: Faults)
    requires Reconcilable(w, c, faults) && (c.deleting || Ours in c.finalizers)
    requires Read(c.annotations, ReconcileAnnotation) != "false" && !w.inputs.gates.captured.Open?
    ensures var v := Reconcile(w, faults);
            && Unmoved(w, c, v) && v.secrets == w.secrets
            && Denies(v.stored.value.status.ready, c.generation, Unavailable(0))
            && ReconcileResult(w, faults) == match w.inputs.gates.captured
                                             case Awaited => Requeued
                                             case Broken(t) => Errored(t)
                                             case _ => Settled
  {
    hide Reconcile, ReconcileResult, RunAll, AtStatus, IsDeletionCandidate, PassGate, Denies, ResultOf;
    var r := Start(w, c, faults);
    NormalStores(w, c, faults);
    GateAnswers(r, w.inputs.gates.captured, 0);
    assert BeforePlan(r) == PassGate(r, w.inputs.gates.captured, 0);
    EarlyStops(r);
  }

  /** A reconcile that runs to the end rests. */
  lemma EndRests(w: World, c: Configuration, faults: Faults)
    requires Reconcilable(w, c, faults) && RunsThrough(Start(w, c, faults))
    ensures ReconcileResult(w, faults) == Settled
  {
    hide Reconcile, ReconcileResult, RunAll, AtStatus, IsDeletionCandidate, RunsThrough, Final;
    NormalStores(w, c, faults);
    NormalPhases(Start(w, c, faults));
    NormalExact(Start(w, c, faults));
  }

  // ---- other stops on the way

  lemma RetryStops(p: Run)
    requires HasRetry(p.c) && RetryTime(p.c).None?
    ensures var x := TerraformPlan(p);
            x.outcome == Ignore && x.run.w == p.w && SameButStatus(p.c, x.run.c) && IsFailed(x.run.c.status.plan, p.c.generation)
  {
    hide RetryTime, PlanByJob, PlanSettled, IsRetryable;
  }

  /** A retry token that is no number fails the plan and rests. */
  lemma RetryUnreadable(w: World, c: Configuration, faults: Faults)
    requires Reconcilable(w, c, faults) && BeforePlan(Start(w, c, faults)).outcome.Continue? && !RetryReadable(c)
    ensures var v := Reconcile(w, faults);
            Unmoved(w, c, v) && IsFailed(v.stored.value.status.plan, c.generation) && ReconcileResult(w, faults) == Settled
  {
    hide Reconcile, ReconcileResult, BeforePlan, AtStatus, Start, TerraformPlan, FoundJob, PlanExtra, IsRetryable, RetryTime, Hash, PlanSettled,
         PlanJob, EntryOpen, IsDeletionCandidate, IsFailed;
    var r := Start(w, c, faults);
    NormalStores(w, c, faults);
    PlanStart(w, c, faults);
    Quiescence.SameRetry(c, BeforePlan(r).run.c);
    RetryStops(BeforePlan(r).run);
    PlanStepStops(r);
    LogKept(w, c, faults);
  }

  lemma PlanSecretStops(r: Run)
    requires GetPlanSecret !in r.faults && r.w.secrets.planJson.None?
    ensures var x := RunAll(REVIEW, r);
            x.outcome == Ignore && x.run.w == r.w && SameButStatus(r.c, x.run.c) && IsFailed(x.run.c.status.ready, r.c.generation)
  {
    hide RunAll, CostsRecorded, PolicyChecked, DriftChecked;
    ReviewUnfolds(r);
  }

  /** A plan job that left no plan document fails Ready and rests. */
  lemma PlanSecretAnswered(w: World, c: Configuration, faults: Faults)
    requires Reconcilable(w, c, faults) && AtPlan(Start(w, c, faults)).outcome.Continue?
    requires GetPlanSecret !in faults && w.secrets.planJson.None?
    ensures var v := Reconcile(w, faults);
            Unmoved(w, c, v) && IsFailed(v.stored.value.status.ready, c.generation) && ReconcileResult(w, faults) == Settled
  {
    hide Reconcile, ReconcileResult, AtPlan, BeforePlan, AtStatus, Start, RunAll, IsDeletionCandidate, IsFailed, PlanOpen, PlanDone, PlanSettled,
         PlanJob, Hash;
    var r := Start(w, c, faults);
    PlanReached(r);
    NormalStores(w, c, faults);
    ReviewStart(w, c, faults);
    StateKept(w, c, faults);
    var q := AtPlan(r).run;
    PlanSecretStops(q);
    ReviewStopped(r, RunAll(REVIEW, q));
  }

  lemma ConnectionStops(r: Run)
    requires GetStateForConnection !in r.faults && r.w.secrets.state.None?
    ensures var x := ConnectionWritten(r);
            x.outcome == Ignore && x.run.w == r.w && SameButStatus(r.c, x.run.c) && IsFailed(x.run.c.status.ready, r.c.generation)
  {
    hide PassGate;
  }

  lemma GarbledStops(r: Run)
    requires GetStateForConnection !in r.faults && r.w.secrets.state == Some(GarbledState) && r.w.inputs.gates.connection.Open?
    ensures var x := RecordSteps(r);
            && x.outcome == Failure(ApiError(false, STATE_NOTE)) && x.run.w == r.w && SameButStatus(r.c, x.run.c)
            && IsFailed(x.run.c.status.ready, r.c.generation)
  {
    hide ConnectionWritten;
    ConnectionExact(r);
  }

  lemma ApplyPassed(r: Run)
    requires AtApply(r).outcome.Continue?
    ensures BeforeApply(r).outcome.Continue? && AtPlan(r).outcome.Continue? && AtStatus(r) == RecordSteps(AtApply(r).run)
  {
    hide AtPlan, RunAll, TerraformApply, ConnectionWritten, StatusRecorded;
  }

  /** An apply that left no terraform state, or one that cannot be decoded, is not Ready: the first rests, the second is an error. */
  lemma StateAnswered(w: World, c: Configuration, faults: Faults)
    requires Reconcilable(w, c, faults) && AtApply(Start(w, c, faults)).outcome.Continue? && GetStateForConnection !in faults
    requires w.secrets.state.None? || (w.secrets.state == Some(GarbledState) && w.inputs.gates.connection.Open?)
    ensures var v := Reconcile(w, faults);
            && Unmoved(w, c, v) && IsFailed(v.stored.value.status.ready, c.generation)
            && ReconcileResult(w, faults) == if w.secrets.state.None? then Settled else Errored(STATE_NOTE)
  {
    hide Reconcile, ReconcileResult, AtPlan, BeforeApply, AtStatus, Start, TerraformApply, ConnectionWritten, StatusRecorded, IsDeletionCandidate,
         IsFailed, PlanSettled, PlanJob, ReviewedRun, Reviewed, ApplyOpen, ApplyDone, FoundJob, ApplyExtra, ApplyJob, ApplyLabels, ExtraFor;
    var r := Start(w, c, faults);
    NormalStores(w, c, faults);
    ApplyPassed(r);
    ApplyStart(w, c, faults);
    StateKept(w, c, faults);
    var a := BeforeApply(r).run;
    ApplyExact(a);
    ApplyDoneFrame(a);
    var q := AtApply(r).run;
    if w.secrets.state.None? {
      ConnectionStops(q);
    } else {
      GarbledStops(q);
    }
  }

  lemma ApplyDoneFrame(r: Run)
    ensures ApplyDone(r).w == r.w && ApplyDone(r).faults == r.faults && SameButStatus(r.c, ApplyDone(r).c)
  {
    hide Set;
  }

  /** A status that cannot be stored is an error, whatever the run came to. */
  lemma LostStatusReported(w: World, c: Configuration, faults: Faults)
    requires w.stored == Some(c) && !c.deleting && PatchStatus in faults
    ensures ReconcileResult(w, faults) == Errored(faults[PatchStatus].text)
    ensures Reconcile(w, faults).stored.Some? && Reconcile(w, faults).stored.value.status == c.status
  {
    hide Body, DeedDue, Conclude, ResultOf;
    var d := OneDeed(w, c, faults);
  }

  lemma LookupStops(r: Run)
    requires ReadConfigSecret !in r.faults && GetPolicyNamespace !in r.faults
    requires Policies.FindMatchingPolicy(r.s.policies).BadSelector? || Policies.FindMatchingPolicy(r.s.policies).Ambiguous?
    ensures var x := ConfigSecretWritten(r);
            && x.outcome == Failure(ApiError(false, POLICY_NOTE)) && x.run.w == r.w && SameButStatus(r.c, x.run.c)
            && IsFailed(x.run.c.status.policy, r.c.generation)
  {
    hide Policies.FindMatchingPolicy, JobVariables;
  }

  /** Policies with an improper selector, or two that tie, are an error before anything is planned, and no variables are written. */
  lemma LookupAnswered(w: World, c: Configuration, faults: Faults)
    requires AtProvider(w, c, faults) && ProviderReachable(Start(w, c, faults))
    requires w.inputs.gates.backend.Open? && w.inputs.gates.defaults.Open?
    requires ReadConfigSecret !in faults && GetPolicyNamespace !in faults
    requires Policies.FindMatchingPolicy(w.inputs.policies).BadSelector? || Policies.FindMatchingPolicy(w.inputs.policies).Ambiguous?
    ensures var v := Reconcile(w, faults);
            && Unmoved(w, c, v) && v.secrets == w.secrets
            && IsFailed(v.stored.value.status.policy, c.generation) && ReconcileResult(w, faults) == Errored(POLICY_NOTE)
  {
    hide Reconcile, ReconcileResult, RunAll, AtStatus, BeforePlan, IsDeletionCandidate, EntryOpen, ProviderUsable, ConfigSecretWritten, PassGate,
         Values, Arrival.Unblocked, AtTemplate, Policies.FindMatchingPolicy, ProviderDone, Perform, IsFailed;
    assert Reconcilable(w, c, faults) by { AtTemplateIs(w, c, faults); }
    NormalStores(w, c, faults);
    var t := ProviderReached(w, c, faults);
    ProviderExact(t);
    Teardown.ProviderFrame(t);
    var p := ProviderDone(t);
    PreparationDispatch(p);
    GateDispatch(p);
    var l8: seq<Ensure> := [EnsureJobConfigurationSecret] + [];
    var l7 := [EnsurePolicyDefaultsExist] + l8;
    assert PREPARATION[6..] == [EnsureCustomBackendTemplate] + l7;
    GateInList(EnsureCustomBackendTemplate, l7, p, p.w.inputs.gates.backend, 3);
    GateInList(EnsurePolicyDefaultsExist, l8, p, p.w.inputs.gates.defaults, 4);
    LookupStops(p);
    Advance(EnsureJobConfigurationSecret, [], p);
    EarlyStops(Start(w, c, faults));
  }

  lemma AtTemplateIs(w: World, c: Configuration, faults: Faults)
    requires AtTemplate(w, c, faults)
    ensures Reconcilable(w, c, faults)
  {
    hide Values, EntryOpen, Arrival.Unblocked;
  }
}
