/** With healthy dependencies and an environment that answers, a configuration arrives. */
module Arrival {
  import opened Base
  import opened Labels
  import opened Jobs
  import opened Conditions
  import opened Cluster
  import opened Ensures
  import opened Runner
  import opened Runs
  import opened Frames
  import opened Safety
  import opened Effects
  import opened Exact
  import opened Quiescence
  import opened Progress
  import opened Liveness
  import Decimal
  import Policies
  import Theorems
  import ValueFrom

  // ---- what healthy means

  predicate AllOpen(g: Gates) {
    && g.captured.Open? && g.costSecret.Open? && g.auth.Open? && g.backend.Open? && g.defaults.Open?
    && g.costStatus.Open? && g.connection.Open?
  }

  predicate HealthyInputs(c: Configuration, i: Inputs) {
    && AllOpen(i.gates)
    && ValueFrom.Resolve(c.spec.valueFrom, i.store, {}).stop.None?
    && i.template.Some?
    && ProviderOk(i)
    && !Policies.FindMatchingPolicy(i.policies).BadSelector?
    && !Policies.FindMatchingPolicy(i.policies).Ambiguous?
    && i.management != ManagedBy(false)
  }

  /** No running job of the configuration holds it up; what other jobs came to does not matter. */
  predicate Unblocked(w: World, c: Configuration) {
    forall j :: j in w.jobs ==> !Blocks(c, j)
  }

  /** Besides, the plan job still consulted, if there is one, has succeeded. */
  predicate JobsDone(w: World, c: Configuration) {
    Unblocked(w, c) && (!PlanSettled(c) && PlanJob(w, c).Some? ==> PlanJob(w, c).value.complete)
  }

  /** The plan of the document has to be applied, or nothing has ever been. */
  predicate NeedsApplying(w: World) {
    w.secrets.state.None? || (w.secrets.planJson.Some? && w.secrets.planJson.value.TfPlan? && w.secrets.planJson.value.needsApply)
  }

  predicate ReportFine(w: World) {
    ChosenConstraint(w.inputs.policies).Some? ==>
      && w.secrets.report.Some?
      && WellFormed(w.secrets.report.value)
      && CountedFailures(w.secrets.report.value) <= 0
  }

  /** Once the plan is made: it is approved, its documents are there, and its apply job, if any, left a state. */
  predicate Documented(w: World, c: Configuration) {
    !PlanPending(w, c) ==>
      && (c.spec.autoApproval || !NeedsApproval(c))
      && w.secrets.planJson.Some? && w.secrets.planJson.value.TfPlan?
      && ReportFine(w)
      && (w.secrets.state.Some? ==> w.secrets.state.value.TfState?)
      && (NeedsApplying(w) && ApplyJob(w, c).Some? ==> ApplyJob(w, c).value.complete && w.secrets.state.Some?)
  }

  predicate Sound(w: World, c: Configuration) {
    && w.stored == Some(c) && !c.deleting
    && RetryReadable(c) && Stamped(c, w.now)
    && Read(c.annotations, ReconcileAnnotation) != "false"
    && !IsFailed(c.status.plan, c.generation)
    && HealthyInputs(c, w.inputs)
  }

  predicate Healthy(w: World, c: Configuration) {
    Sound(w, c) && JobsDone(w, c) && Documented(w, c)
  }

  /** The goal: Ready at this generation, in sync, resources recorded. */
  predicate Arrived(w: World) {
    && w.stored.Some?
    && (var c := w.stored.value;
        && IsComplete(c.status.ready, c.generation)
        && IsComplete(c.status.apply, c.generation)
        && c.status.resourceStatus == InSync
        && c.status.resources.Some?)
  }

  // ---- a healthy world is never stuck

  /** No call of the run fails; the status patch after it may. */
  predicate OnlyStatus(faults: Faults) {
    forall x :: x in faults ==> x == PatchStatus
  }

  lemma HealthyPrepared(w: World, c: Configuration, faults: Faults)
    requires Read(c.annotations, ReconcileAnnotation) != "false" && HealthyInputs(c, w.inputs) && Unblocked(w, c)
    requires Ours in c.finalizers && OnlyStatus(faults)
    ensures EntryOpen(Start(w, c, faults)) && Prepared(Captured(Start(w, c, faults)))
    ensures BeforePlan(Start(w, c, faults)).outcome.Continue?
  {
    hide RunAll, Set, AtCapture, Policies.FindMatchingPolicy, ValueFrom.Resolve, MatchesLabels, Blocks;
    var r := Start(w, c, faults);
    EntryExact(r);
    var a := Captured(r);
    assert BrokenEntries(a) == {};
    forall j | j in a.s.jobs ensures !Blocks(a.c, j) {
      SameBlocks(c, a.c, j);
    }
    PreparationExact(a);
  }

  /** Without faults, a due plan job is created, or approval asked for first. */
  lemma PlanActs(p: Run)
    requires p.faults == map[] && PlanByJobReached(p) && FoundJob(p, PlanStage, PlanExtra(p)).None?
    requires p.w.inputs.management != ManagedBy(false) && !IsFailed(p.c.status.plan, p.c.generation)
    requires p.w.stored.Some? && p.w.stored.value.annotations == p.c.annotations
    ensures var x := TerraformPlan(p);
            && !x.outcome.Continue?
            && x.run.w.stored.Some?
            && (x.run.w.jobs != p.w.jobs || x.run.w.stored.value.annotations != p.c.annotations)
            && !IsFailed(x.run.c.status.plan, p.c.generation)
            && PlanOpenStill(p.c.status.plan, x.run.c.status.plan)
  {
    hide FoundJob, PlanExtra, IsRetryable, RetryTime, DetectErrors, NewJob, LaunchPlan, AskApproval, PlanSettled;
    LaunchDeed(p);
    LaunchRuns(p);
    AskDeed(p);
    AskWaits(p);
  }

  lemma LaunchRuns(p: Run)
    requires p.faults == map[]
    ensures var d := LaunchPlan(p).run.c.status.plan; d.status == StatusFalse && d.reason == InProgress
  {
    hide PlanExtra, NewJob;
  }

  lemma AskWaits(p: Run)
    requires p.faults == map[] && p.w.inputs.management != ManagedBy(false)
    ensures AskApproval(p).run.c.status.plan == p.c.status.plan
  {
  }

  /** The plan condition did not become complete. */
  predicate PlanOpenStill(c: Condition, d: Condition) {
    d == c || d.status == StatusFalse
  }

  /** The reconcile changed a job, an annotation or a finalizer. */
  predicate Acted(w: World, c: Configuration, v: World) {
    && v.stored.Some?
    && (|| v.jobs != w.jobs
        || v.stored.value.annotations != c.annotations
        || v.stored.value.finalizers != c.finalizers)
  }

  lemma PlanRound(w: World, c: Configuration)
    requires Healthy(w, c) && Ours in c.finalizers && PlanPending(w, c)
    ensures var x := AtStatus(Start(w, c, map[]));
            && Acted(w, c, x.run.w) && !IsFailed(x.run.c.status.plan, c.generation)
            && PlanOpenStill(c.status.plan, x.run.c.status.plan)
  {
    hide BeforePlan, AtStatus, Start, TerraformPlan, FoundJob, PlanExtra, IsRetryable, RetryTime, Hash, Stamped, PlanSettled, Latest,
         StageFilter, HealthyInputs, Unblocked, Documented, EntryOpen, Captured, Prepared, IsFailed, Anchored, Did, PlanLabels;
    HealthyPrepared(w, c, map[]);
    PlanStart(w, c, map[]);
    var p := BeforePlan(Start(w, c, map[])).run;
    assert PlanByJobReached(p) by { SameRetry(c, p.c); }
    assert p.w.inputs.management != ManagedBy(false) by { Managed(c, w.inputs); }
    PlanActs(p);
    assert AtPlan(Start(w, c, map[])) == TerraformPlan(p);
    var d := PlanStop(w, c, map[]);
  }

  lemma Managed(c: Configuration, i: Inputs)
    requires HealthyInputs(c, i)
    ensures i.management != ManagedBy(false) && i.gates.costStatus.Open? && i.gates.connection.Open? && i.template.Some?
  {
  }

  lemma HealthyPlanOpen(w: World, c: Configuration)
    requires Healthy(w, c) && Ours in c.finalizers && !PlanPending(w, c)
    ensures BeforePlan(Start(w, c, map[])).outcome.Continue?
    ensures PlanOpen(BeforePlan(Start(w, c, map[])).run)
  {
    hide BeforePlan, Start, FoundJob, PlanExtra, IsRetryable, RetryTime, Hash, Stamped, PlanSettled, Latest,
         StageFilter, HealthyInputs, Unblocked, Documented, EntryOpen, Captured, Prepared, IsFailed, PlanLabels;
    HealthyPrepared(w, c, map[]);
    PlanStart(w, c, map[]);
    var p := BeforePlan(Start(w, c, map[])).run;
    SameRetry(c, p.c);
  }

  /** The prepared run of a healthy world, and the parts of it the later steps look at. */
  lemma HealthyReviewed(w: World, c: Configuration)
    requires Healthy(w, c) && Ours in c.finalizers && !PlanPending(w, c)
    ensures w.secrets.planJson.Some? && w.secrets.planJson.value.TfPlan?
    ensures var r := Start(w, c, map[]); var p := BeforePlan(r).run;
            && EntryOpen(r) && Prepared(Captured(r)) && Captured(r).w.inputs.template.Some? && p == PreparedRun(Captured(r))
            && PlanOpen(p) && Reviewed(PlanDone(p))
            && AtPlan(r) == Step(PlanDone(p), Continue)
            && BeforeApply(r) == Step(ReviewedRun(PlanDone(p)), Continue)
            && ReviewedRun(PlanDone(p)).w.secrets.state == w.secrets.state
            && ReviewedRun(PlanDone(p)).s.hasDrift == w.secrets.planJson.value.needsApply
            && !IsFailed(ReviewedRun(PlanDone(p)).c.status.plan, c.generation)
  {
    hide RunAll, AtCapture, EntryOpen, Captured, Prepared, PlanOpen, FoundJob, PlanExtra, IsRetryable, RetryTime, Hash, Stamped, PlanSettled,
         Latest, StageFilter, PlanPending, HealthyInputs, Unblocked, VarsOf, NotedReady, Values, ChosenConstraint, Set, TerraformPlan, PreparedRun,
         PlanDone, WellFormed, CountedFailures, RetryReadable, ApplyJob;
    var r := Start(w, c, map[]);
    HealthyPrepared(w, c, map[]);
    HealthyPlanOpen(w, c);
    EntryExact(r);
    PreparationExact(Captured(r));
    CapturedTemplate(r);
    PreparedShape(r);
    Managed(c, w.inputs);
    var p := BeforePlan(r).run;
    PlanExact(p);
    PlanFrame(p);
    SuccessIs(p.c.status.plan, p.c.generation, PlanComplete, p.w.now);
    ReviewExact(PlanDone(p));
  }

  lemma ApplyActs(v: Run)
    requires v.faults == map[] && !ApplyOpen(v) && (v.c.spec.autoApproval || !NeedsApproval(v.c))
    requires !NothingToDo(v) && FoundJob(v, ApplyStage, ApplyExtra(v)).Some? ==> FoundJob(v, ApplyStage, ApplyExtra(v)).value.complete
    ensures var x := TerraformApply(v);
            x.run.w.jobs != v.w.jobs && x.run.w.stored == v.w.stored && !x.outcome.Continue?
  {
    hide Set, FoundJob, ApplyExtra, DetectErrors, NewJob;
    UpdateKeepsFilters(v, v.c.status.(resourceStatus := OutOfSync));
  }

  lemma ApplyRound(w: World, c: Configuration)
    requires Healthy(w, c) && Ours in c.finalizers && !PlanPending(w, c)
    ensures var x := AtStatus(Start(w, c, map[]));
            && !IsFailed(x.run.c.status.plan, c.generation)
            && (Acted(w, c, x.run.w) || RunsThrough(Start(w, c, map[])))
  {
    hide BeforePlan, AtPlan, BeforeApply, Start, TerraformApply, FoundJob, ApplyExtra, Hash, Stamped, PlanSettled, Latest, PlanDone,
         StageFilter, PlanPending, HealthyInputs, JobsDone, EntryOpen, Captured, Prepared, PreparedRun, PlanOpen, Reviewed, ReviewedRun,
         ConnectionWritten, StatusRecorded, RetryReadable, ReportFine, ApplyLabels, PlanJob, ApplyJob,
         Recordable, ApplyDone, NothingToDo, NeedsApplying;
    var r := Start(w, c, map[]);
    HealthyReviewed(w, c);
    ApplyStart(w, c, map[]);
    var v := BeforeApply(r).run;
    HealthyApply(w, c, v);
    ApplyKeepsPlan(v);
    if ApplyOpen(v) {
      ApplyExact(v);
      HealthyRecordable(w, c, v);
      AfterApplyKeepsPlan(r);
    } else {
      ApplyActs(v);
    }
  }

  /** An apply job that matters has succeeded. */
  lemma HealthyApply(w: World, c: Configuration, v: Run)
    requires Healthy(w, c) && !PlanPending(w, c)
    requires v.w.secrets.state == w.secrets.state && w.secrets.planJson.value.needsApply == v.s.hasDrift
    requires FoundJob(v, ApplyStage, ApplyExtra(v)) == ApplyJob(w, c)
    ensures !NothingToDo(v) && ApplyJob(w, c).Some? ==> ApplyJob(w, c).value.complete && w.secrets.state.Some?
  {
    hide FoundJob, ApplyExtra, PlanPending, ApplyJob, Stamped, RetryReadable, JobsDone, ReportFine;
  }

  lemma HealthyRecordable(w: World, c: Configuration, v: Run)
    requires Healthy(w, c) && !PlanPending(w, c) && ApplyOpen(v) && v.faults == map[]
    requires v.w.inputs == w.inputs && v.w.secrets.state == w.secrets.state
    requires w.secrets.planJson.Some? && w.secrets.planJson.value.TfPlan? && w.secrets.planJson.value.needsApply == v.s.hasDrift
    requires FoundJob(v, ApplyStage, ApplyExtra(v)) == ApplyJob(w, c)
    ensures Recordable(ApplyDone(v))
  {
    hide FoundJob, ApplyExtra, PlanPending, ApplyJob, Set, Stamped, RetryReadable, JobsDone, ReportFine;
    Managed(c, w.inputs);
  }

  lemma AfterApplyKeepsPlan(r: Run)
    requires AtApply(r).outcome.Continue?
    ensures AtStatus(r).run.c.status.plan == AtApply(r).run.c.status.plan
  {
    hide AtApply, ConnectionWritten, StatusRecorded;
    RecordKeepsPlan(AtApply(r).run);
    RecordKeepsPlan(ConnectionWritten(AtApply(r).run).run);
  }

  lemma ReconcileStores(w: World, c: Configuration)
    requires w.stored == Some(c) && !c.deleting
    requires AtStatus(Start(w, c, map[])).run.w.stored.Some?
    ensures var x := AtStatus(Start(w, c, map[])); var u := Reconcile(w, map[]);
            && Body(w, map[]) == x
            && u.stored == Some(x.run.w.stored.value.(status := Conclude(x, c).status))
            && u.jobs == x.run.w.jobs
            && Conclude(x, c).status.plan == x.run.c.status.plan
  {
    hide RunAll, AtStatus, Set;
    NormalPhases(Start(w, c, map[]));
  }

  /** One reconcile of a healthy world makes a move or arrives, and never fails the plan. */
  lemma HealthyRound(w: World, c: Configuration)
    requires Healthy(w, c)
    ensures var u := Reconcile(w, map[]);
            && u.stored.Some?
            && (!Idle(w, u) || Arrived(u))
            && !IsFailed(u.stored.value.status.plan, c.generation)
  {
    hide Reconcile, Body, AtStatus, Start, JobsDone, Documented, HealthyInputs, RetryReadable, Stamped, PlanPending, RunsThrough,
         Did, Anchored, IsFailed, Conclude, PlanSettled, Final, VarsOf;
    var x := AtStatus(Start(w, c, map[]));
    if Ours !in c.finalizers {
      var d := FinalizerDeed(w, c, map[]);
      FinalizerMoves(w, c);
      ReconcileStores(w, c);
    } else {
      var d := OneDeed(w, c, map[]);
      StatusIsBody(w, c);
      DidStores(w, c, x.run.w, d);
      ReconcileStores(w, c);
      if PlanPending(w, c) {
        PlanRound(w, c);
      } else {
        ApplyRound(w, c);
        if RunsThrough(Start(w, c, map[])) {
          ThroughArrives(w, c);
        }
      }
    }
  }

  lemma StatusIsBody(w: World, c: Configuration)
    requires w.stored == Some(c) && !c.deleting
    ensures Body(w, map[]) == AtStatus(Start(w, c, map[]))
  {
    hide RunAll, AtStatus;
    NormalPhases(Start(w, c, map[]));
  }

  lemma DidStores(w: World, c: Configuration, v: World, d: Deed)
    requires Did(w, c, v, d)
    ensures v.stored.Some?
  {
    hide DeedDue;
  }

  lemma FinalizerMoves(w: World, c: Configuration)
    requires w.stored == Some(c) && !c.deleting && Ours !in c.finalizers
    ensures var x := AtStatus(Start(w, c, map[]));
            && x.run.w.stored == Some(c.(finalizers := c.finalizers + [Ours]))
            && x.run.c.status == c.status
  {
    hide RunAll, ReconcileAllowed, CapturedState, TerraformPlan, TerraformApply, ConnectionWritten, StatusRecorded;
  }

  lemma FinalArrives(r: Run)
    requires r.w.secrets.state.Some? && r.w.secrets.state.value.TfState? && RunsThrough(r)
    ensures var st := FinalStatus(r, AtReview(r), AtEnd(r));
            && IsComplete(st.ready, r.c.generation) && IsComplete(st.apply, r.c.generation)
            && st.resourceStatus == InSync && st.resources.Some?
  {
    hide RunsThrough, AtReview, AtEnd, NotedReady, PlanSettled, PolicyMessage, NothingToDo, Captured, Set;
    SuccessIs(NotedReady(Captured(r)), r.c.generation, ResourceReady, r.w.now);
    SuccessIs(r.c.status.apply, r.c.generation, if NothingToDo(AtEnd(r)) then NothingToApply else ApplyComplete, r.w.now);
  }

  lemma ThroughArrives(w: World, c: Configuration)
    requires w.stored == Some(c) && !c.deleting && RunsThrough(Start(w, c, map[]))
    ensures Arrived(Reconcile(w, map[]))
  {
    hide RunAll, RunsThrough, Reconcile, Quiescence.Settled, VarsOf, AtReview, AtEnd, FinalStatus, Final;
    var r := Start(w, c, map[]);
    NormalExact(r);
    StampedReconciles(w, map[]);
    SettledShape(r);
    FinalArrives(r);
  }

  // ---- the environment answers

  /**
   What the environment does between two reconciles: jobs end so that none blocks the configuration
   and the plan job it still consults is complete, the executors have left their documents, and once
   the plan is made -- not before -- it is approved.  Nothing else about the object or its
   dependencies changes.
   */
  predicate Answers(u: World, v: World) {
    && u.stored.Some? && v.stored.Some?
    && (var e, c := u.stored.value, v.stored.value;
        && c == e.(annotations := c.annotations)
        && c.annotations - {ApplyAnnotation} == e.annotations - {ApplyAnnotation}
        && (PlanPending(v, c) ==> c.annotations == e.annotations)
        && (PlanPending(u, e) || v.secrets.planJson == u.secrets.planJson)
        && JobsDone(v, c) && Documented(v, c))
    && v.inputs == u.inputs && u.now <= v.now
    && Aged(u.jobs, v.jobs)
  }

  lemma SameRead(a: Annotations, b: Annotations, k: AnnotationKey)
    requires a - {ApplyAnnotation} == b - {ApplyAnnotation} && k != ApplyAnnotation
    ensures Read(a, k) == Read(b, k) && (k in a <==> k in b)
  {
    var x, y := a - {ApplyAnnotation}, b - {ApplyAnnotation};
    assert k in x <==> k in a;
    assert k in y <==> k in b;
    assert k in x ==> x[k] == y[k];
  }

  lemma AnswerKeepsRank(u: World, v: World)
    requires Answers(u, v)
    ensures RankOf(v) <= RankOf(u)
    ensures RetryReadable(v.stored.value) == RetryReadable(u.stored.value)
  {
    hide Rank, RetryReadable, JobsDone, Documented, PlanPending, PlanSettled;
    var e, c := u.stored.value, v.stored.value;
    SameRead(e.annotations, c.annotations, DriftAnnotation);
    SameRead(e.annotations, c.annotations, RetryAnnotation);
    var u1 := u.(secrets := v.secrets);
    SecretsKeepRank(u, e, v.secrets);
    RankOfAged(u1, v, e);
    PendingSame(v, e, c);
    EditKeepsRank(v, e, c);
  }

  lemma PendingSame(v: World, e: Configuration, c: Configuration)
    requires c == e.(annotations := c.annotations)
    requires c.annotations - {ApplyAnnotation} == e.annotations - {ApplyAnnotation}
    ensures PlanPending(v, e) == PlanPending(v, c)
  {
    hide Latest, StageFilter;
    SameRead(e.annotations, c.annotations, DriftAnnotation);
    SameRead(e.annotations, c.annotations, RetryAnnotation);
    assert RetryTime(e) == RetryTime(c);
    assert PlanLabels(e, Hash(v)) == PlanLabels(c, Hash(v));
  }

  lemma HealthyAgain(w: World, c: Configuration, v: World)
    requires Healthy(w, c) && Answers(Reconcile(w, map[]), v)
    ensures Healthy(v, v.stored.value)
  {
    hide Reconcile, JobsDone, Documented, RetryReadable, Stamped, PlanPending, IsFailed, Idle, Arrived, Follows, DeedDue, Conclude, Body;
    var u := Reconcile(w, map[]);
    HealthyRound(w, c);
    var d, e := AfterReconcile(w, c, map[]);
    DeedKeepsLabels(c, d, e);
    StillStamped(w, c, e);
    AnswerKeepsRank(u, v);
    SameRead(e.annotations, v.stored.value.annotations, ReconcileAnnotation);
    DeedKeepsGuard(c, d, e);
    LaterStamped(e, v.stored.value, w.now, v.now);
  }

  lemma DeedKeepsGuard(c: Configuration, d: Deed, e: Configuration)
    requires e == DeedObject(c, d).(status := e.status)
    ensures Read(e.annotations, ReconcileAnnotation) == Read(c.annotations, ReconcileAnnotation)
  {
  }

  lemma LaterStamped(c: Configuration, d: Configuration, now: nat, later: nat)
    requires Stamped(c, now) && d.status == c.status && now <= later
    ensures Stamped(d, later)
  {
  }

  /**
   Arrival.  Take a live configuration in a healthy world whose plan has not failed at its present
   generation.  If between any two reconciles the environment answers -- jobs succeed, the plan is
   approved once made -- then one of the first Rank + 1 reconciles, at most five, leaves the
   configuration Ready and in sync at its generation.
   */
  lemma {:induction false} Arrives(ws: seq<World>) returns (k: nat)
    requires |ws| > 0 && ws[0].stored.Some? && Healthy(ws[0], ws[0].stored.value)
    requires |ws| == RankOf(ws[0]) + 1
    requires forall i :: 0 <= i < |ws| - 1 ==> Answers(Reconcile(ws[i], map[]), ws[i + 1])
    ensures k < |ws| <= 5 && Arrived(Reconcile(ws[k], map[]))
  {
    k := ArrivesBy(ws);
  }

  lemma {:induction false} ArrivesBy(ws: seq<World>) returns (k: nat)
    requires |ws| > 0 && ws[0].stored.Some? && Healthy(ws[0], ws[0].stored.value)
    requires |ws| > RankOf(ws[0])
    requires forall i :: 0 <= i < |ws| - 1 ==> Answers(Reconcile(ws[i], map[]), ws[i + 1])
    ensures k < |ws| && Arrived(Reconcile(ws[k], map[]))
    decreases |ws|
  {
    hide Healthy, RankOf, Answers, Reconcile, Idle, Arrived;
    var w := ws[0];
    HealthyRound(w, w.stored.value);
    if Arrived(Reconcile(w, map[])) {
      k := 0;
    } else {
      RoundLowersRank(w);
      assert |ws| > 1;
      assert Answers(Reconcile(ws[0], map[]), ws[1]);
      AnswerStored(Reconcile(w, map[]), ws[1]);
      AnswerKeepsRank(Reconcile(w, map[]), ws[1]);
      HealthyAgain(w, w.stored.value, ws[1]);
      var rest := ws[1..];
      forall i | 0 <= i < |rest| - 1 ensures Answers(Reconcile(rest[i], map[]), rest[i + 1]) {
        assert rest[i] == ws[i + 1] && rest[i + 1] == ws[i + 1 + 1];
      }
      k := ArrivesBy(rest);
      k := k + 1;
    }
  }

  lemma AnswerStored(u: World, v: World)
    requires Answers(u, v)
    ensures v.stored.Some?
  {
  }

  lemma RoundLowersRank(w: World)
    requires w.stored.Some? && Healthy(w, w.stored.value) && !Idle(w, Reconcile(w, map[]))
    ensures Reconcile(w, map[]).stored.Some? && RankOf(Reconcile(w, map[])) < RankOf(w)
  {
    hide RankOf, Reconcile, Idle, RetryReadable, Stamped, HealthyInputs, JobsDone, Documented;
    ActsOrWaits(w.stored.value.owner, w, map[]);
  }

  // ---- the environment can always answer

  /** With no retry due, a plan that is pending before a reconcile is pending after it. */
  lemma StaysPending(w: World, c: Configuration, d: Deed, e: Configuration)
    requires Healthy(w, c) && !IsRetryable(c) && PlanPending(w, c)
    requires e == DeedObject(c, d).(status := e.status) && DeedDue(w, c, d)
    requires Reconcile(w, map[]).jobs == DeedJobs(w.jobs, d) && Reconcile(w, map[]).stored == Some(e)
    requires Reconcile(w, map[]).inputs == w.inputs
    ensures PlanPending(Reconcile(w, map[]), e)
  {
    hide Reconcile, AtStatus, Start, HealthyInputs, Unblocked, Documented, RetryReadable, Stamped, StageFilter, MatchesLabels, Latest, PlanLabels,
         Acted, Conclude, IsFailed, RunAll, Did, Anchored, IsRetryable, PlanSettled;
    var x := AtStatus(Start(w, c, map[]));
    var f := StageFilter(c.owner, c.generation, PlanStage, PlanLabels(c, Hash(w)));
    DeedKeepsLabels(c, d, e);
    DeedKeepsDrift(c, d, e);
    if Ours in c.finalizers {
      PlanRound(w, c);
      var d' := OneDeed(w, c, map[]);
      StatusIsBody(w, c);
      DidStores(w, c, x.run.w, d');
    } else {
      FinalizerMoves(w, c);
    }
    ReconcileStores(w, c);
    Unsettled(c, e);
    if d.CreatedPlan? {
      LatestAppended(f, w.jobs, d.job);
    }
  }

  lemma DeedKeepsDrift(c: Configuration, d: Deed, e: Configuration)
    requires e == DeedObject(c, d).(status := e.status)
    ensures Read(e.annotations, DriftAnnotation) == Read(c.annotations, DriftAnnotation)
  {
  }

  lemma Unsettled(c: Configuration, e: Configuration)
    requires !PlanSettled(c) && !IsRetryable(c) && e.generation == c.generation && e.spec == c.spec
    requires !IsFailed(c.status.plan, c.generation)
    requires Read(e.annotations, DriftAnnotation) == Read(c.annotations, DriftAnnotation)
    requires PlanOpenStill(c.status.plan, e.status.plan)
    ensures !PlanSettled(e)
  {
    hide IsRetryable;
  }

  function Ended(j: Job): (k: Job) {
    if IsActive(j) then j.(complete := true) else j
  }

  function EndedAll(jobs: seq<Job>): (r: seq<Job>) {
    seq(|jobs|, i requires 0 <= i < |jobs| => Ended(jobs[i]))
  }

  lemma {:induction false} SelectEnded(f: Filter, jobs: seq<Job>)
    ensures Select(f, EndedAll(jobs)) == EndedAll(Select(f, jobs))
  {
    hide MatchesLabels;
    if jobs != [] {
      var n := |jobs| - 1;
      SelectEnded(f, jobs[..n]);
      assert EndedAll(jobs)[..n] == EndedAll(jobs[..n]);
    }
  }

  lemma {:induction false} YoungestEnded(jobs: seq<Job>)
    ensures Youngest(EndedAll(jobs)) == if Youngest(jobs).Some? then Some(Ended(Youngest(jobs).value)) else None
  {
    if jobs != [] {
      var n := |jobs| - 1;
      YoungestEnded(jobs[..n]);
      assert EndedAll(jobs)[..n] == EndedAll(jobs[..n]);
    }
  }

  lemma LatestEnded(f: Filter, jobs: seq<Job>)
    ensures Latest(f, EndedAll(jobs)) == if Latest(f, jobs).Some? then Some(Ended(Latest(f, jobs).value)) else None
  {
    hide MatchesLabels;
    SelectEnded(f, jobs);
    YoungestEnded(Select(f, jobs));
  }

  /** Running jobs have succeeded, all documents are there; nothing else changed yet. */
  function Supplied(u: World, plan: Option<TfPlan>): (v: World) {
    u.(jobs := EndedAll(u.jobs),
       secrets := u.secrets.(planJson := plan, report := Some(Summary(Count(0))), state := Some(TfState(0, 0))))
  }

  function Approved(v: World, e: Configuration): (c: Configuration) {
    if PlanPending(v, e) then e else e.(annotations := e.annotations[ApplyAnnotation := "true"])
  }

  lemma EndedAges(jobs: seq<Job>, c: Configuration)
    ensures Aged(jobs, EndedAll(jobs))
    ensures forall j :: j in EndedAll(jobs) ==> !Blocks(c, j)
  {
  }

  lemma ApprovedDiffers(v: World, e: Configuration)
    ensures var c := Approved(v, e);
            && c == e.(annotations := c.annotations)
            && c.annotations - {ApplyAnnotation} == e.annotations - {ApplyAnnotation}
            && PlanPending(v, c) == PlanPending(v, e) && PlanJob(v, c) == PlanJob(v, e) && PlanSettled(c) == PlanSettled(e)
            && (PlanPending(v, e) ==> c == e)
            && (!PlanPending(v, e) ==> !NeedsApproval(c))
  {
    hide Latest, StageFilter;
    var c := Approved(v, e);
    assert c.annotations - {ApplyAnnotation} == e.annotations - {ApplyAnnotation};
    SameRead(e.annotations, c.annotations, DriftAnnotation);
    SameRead(e.annotations, c.annotations, RetryAnnotation);
    assert RetryTime(e) == RetryTime(c);
    assert PlanLabels(e, Hash(v)) == PlanLabels(c, Hash(v));
  }

  /** After a deed, the jobs the controller consults have succeeded once the running ones have. */
  lemma ConsultedEnd(w: World, c: Configuration, u: World, d: Deed, e: Configuration)
    requires Healthy(w, c) && DeedDue(w, c, d) && e == DeedObject(c, d).(status := e.status) && Follows(w, c, e.status)
    requires u.jobs == DeedJobs(w.jobs, d) && u.inputs == w.inputs && u.secrets.planJson == w.secrets.planJson
    ensures !PlanSettled(e) && PlanJob(u, e).Some? ==> Ended(PlanJob(u, e).value).complete
    ensures !PlanPending(w, c) && NeedsApplying(w) && ApplyJob(u, e).Some? ==> Ended(ApplyJob(u, e).value).complete
  {
    hide PlanSettled, Follows, RetryReadable, Stamped, StageFilter, MatchesLabels, Latest, PlanLabels, StageName, HealthyInputs,
         Unblocked, ReportFine, NeedsApproval, IsFailed;
    DeedKeepsLabels(c, d, e);
    if PlanSettled(c) { SettledAfter(w, c, d, e); }
    var f := StageFilter(c.owner, c.generation, PlanStage, PlanLabels(c, Hash(w)));
    var g := StageFilter(c.owner, c.generation, ApplyStage, ApplyLabels(w));
    if d.CreatedPlan? || d.CreatedApply? {
      LatestAppended(f, w.jobs, d.job);
      LatestAppended(g, w.jobs, d.job);
    }
    if d.CreatedApply? {
      ApplyIsNoPlan(c, PlanLabels(c, Hash(w)), d.job);
    }
  }

  /** The plan document the executor leaves: one to apply, unless an apply job of that name has failed. */
  function NewDocument(u: World, e: Configuration): (p: TfPlan) {
    var j := ApplyJob(u.(secrets := u.secrets.(planJson := Some(TfPlan("", true)))), e);
    TfPlan("", j.None? || !j.value.failed || j.value.complete)
  }

  lemma DocumentFits(u: World, e: Configuration, plan: Option<TfPlan>)
    requires plan == Some(NewDocument(u, e))
    ensures var s := Supplied(u, plan);
            && plan.value.TfPlan?
            && (plan.value.needsApply && ApplyJob(s, e).Some? ==> ApplyJob(s, e).value.complete)
  {
    hide Latest, StageFilter;
    LatestEnded(StageFilter(e.owner, e.generation, ApplyStage, map[PlanIdKey := "", TemplateHashKey := Hash(u)]), u.jobs);
  }

  lemma SameApplyJob(s: World, v: World, e: Configuration, c: Configuration)
    requires v.jobs == s.jobs && v.inputs == s.inputs && v.secrets.planJson == s.secrets.planJson
    requires c.owner == e.owner && c.generation == e.generation
    ensures ApplyJob(v, c) == ApplyJob(s, e)
  {
  }

  lemma SamePlanJob(s: World, v: World, c: Configuration)
    requires v.jobs == s.jobs && v.inputs == s.inputs
    ensures PlanJob(v, c) == PlanJob(s, c) && PlanPending(v, c) == PlanPending(s, c)
  {
    hide Latest, StageFilter, PlanSettled;
  }

  lemma SuppliedJobs(u: World, e: Configuration, plan: Option<TfPlan>)
    ensures var s := Supplied(u, plan);
            && (PlanJob(s, e).Some? ==> PlanJob(u, e).Some? && PlanJob(s, e).value == Ended(PlanJob(u, e).value))
            && (plan == u.secrets.planJson && ApplyJob(s, e).Some? ==>
                  ApplyJob(u, e).Some? && ApplyJob(s, e).value == Ended(ApplyJob(u, e).value))
            && (!PlanPending(u, e) ==> !PlanPending(s, e))
  {
    hide Latest, StageFilter, PlanSettled, PlanLabels;
    LatestEnded(StageFilter(e.owner, e.generation, PlanStage, PlanLabels(e, Hash(u))), u.jobs);
    LatestEnded(StageFilter(e.owner, e.generation, ApplyStage, ApplyLabels(u)), u.jobs);
  }

  /** The plan is still to be made, or its document is there and its apply job, where one matters, has not failed. */
  predicate Answerable(u: World, e: Configuration) {
    || PlanPending(u, e)
    || (&& u.secrets.planJson.Some? && u.secrets.planJson.value.TfPlan?
        && (u.secrets.planJson.value.needsApply && ApplyJob(u, e).Some? ==> Ended(ApplyJob(u, e).value).complete))
  }

  lemma AnswerFrom(u: World, e: Configuration) returns (v: World)
    requires u.stored == Some(e) && Answerable(u, e)
    requires !PlanSettled(e) && PlanJob(u, e).Some? ==> Ended(PlanJob(u, e).value).complete
    ensures Answers(u, v)
  {
    hide Blocks, PlanPending, PlanSettled, PlanJob, ApplyJob, EndedAll, Ended, Aged, Approved, NewDocument, ChosenConstraint;
    var plan := if PlanPending(u, e) then Some(NewDocument(u, e)) else u.secrets.planJson;
    var s := Supplied(u, plan);
    var b := Approved(s, e);
    v := s.(stored := Some(b));
    EndedAges(u.jobs, b);
    ApprovedDiffers(s, e);
    SuppliedJobs(u, e, plan);
    SamePlanJob(s, v, b);
    SameApplyJob(s, v, e, b);
    if PlanPending(u, e) {
      DocumentFits(u, e, plan);
    }
  }

  /** A settled or finished plan stays so, and a failed apply job stays failed. */
  lemma AnswerNeeds(u: World, v: World)
    requires Answers(u, v)
    ensures Answerable(u, u.stored.value)
  {
    hide Latest, StageFilter, PlanSettled, PlanLabels, ReportFine, Unblocked, NeedsApproval;
    var e, c := u.stored.value, v.stored.value;
    PendingSame(v, e, c);
    LatestAged(StageFilter(e.owner, e.generation, PlanStage, PlanLabels(e, Hash(u))), u.jobs, v.jobs);
    LatestAged(StageFilter(e.owner, e.generation, ApplyStage, ApplyLabels(u)), u.jobs, v.jobs);
  }

  /**
   Exactly when the environment has an answer to what a healthy configuration's reconcile leaves.
   The way it can have none: a retry was due, the approval mark or the finalizer restamped the
   object, and the plan is settled again on a document that is gone or an apply that failed.
   */
  lemma AnswerExact(w: World, c: Configuration)
    requires Healthy(w, c)
    ensures Reconcile(w, map[]).stored.Some?
    ensures var u := Reconcile(w, map[]); (exists v :: Answers(u, v)) <==> Answerable(u, u.stored.value)
  {
    hide Reconcile, HealthyInputs, RetryReadable, Stamped, IsFailed, DeedDue, Follows, PlanSettled, PlanJob, Ended, Answers, Answerable,
         Documented, JobsDone, Conclude, Body;
    var u := Reconcile(w, map[]);
    var d, e := AfterReconcile(w, c, map[]);
    ConsultedEnd(w, c, u, d, e);
    if Answerable(u, e) {
      var v := AnswerFrom(u, e);
    }
    forall v | Answers(u, v) ensures Answerable(u, e) {
      AnswerNeeds(u, v);
    }
  }

  /** As long as no retry is due, it always has one. */
  lemma AnswerExists(w: World, c: Configuration) returns (v: World)
    requires Healthy(w, c) && !IsRetryable(c)
    ensures Answers(Reconcile(w, map[]), v)
  {
    hide Reconcile, HealthyInputs, RetryReadable, Stamped, IsFailed, DeedDue, Follows, IsRetryable, Blocks,
         PlanPending, PlanSettled, PlanJob, ApplyJob, Ended, Aged, Conclude, Body, Answers, ReportFine;
    var u := Reconcile(w, map[]);
    var d, e := AfterReconcile(w, c, map[]);
    if PlanPending(w, c) {
      StaysPending(w, c, d, e);
    }
    ConsultedEnd(w, c, u, d, e);
    v := AnswerFrom(u, e);
  }

  // ---- why the plan must not have failed: a retry can be lost

  /** A reconcile of a live object whose failed plan is not to be retried creates no job and keeps the failure. */
  lemma FailedStays(w: World, c: Configuration, faults: Faults)
    requires w.stored == Some(c) && !c.deleting && Ours in c.finalizers
    requires IsFailed(c.status.plan, c.generation) && !IsRetryable(c) && RetryReadable(c)
    ensures Reconcile(w, faults).jobs == w.jobs
    ensures Body(w, faults).run.c.status.plan == c.status.plan
  {
    hide RunAll, BeforePlan, TerraformPlan, TerraformApply, ConnectionWritten, StatusRecorded, Set, IsRetryable, IsFailed, RetryTime,
         PlanSettled, FoundJob, PlanExtra, Conclude, Hash, EntryOpen, PlanJob;
    var r := Start(w, c, faults);
    NormalPhases(r);
    if BeforePlan(r).outcome.Continue? {
      PlanStart(w, c, faults);
      SameRetry(c, BeforePlan(r).run.c);
      FailedStops(BeforePlan(r).run);
    } else {
      EarlyStop(w, c, faults);
      EarlyKeepsPlan(r);
    }
  }

  lemma EarlyKeepsPlan(r: Run)
    ensures BeforePlan(r).run.c.status.plan == r.c.status.plan
  {
    hide RunAll, AtCapture;
    AtCaptureEnters(r);
    Theorems.AllBenign();
    ThenAllQuiet(AtCapture(r), PREPARATION);
  }

  lemma FailedStops(p: Run)
    requires IsFailed(p.c.status.plan, p.c.generation) && !IsRetryable(p.c) && !(HasRetry(p.c) && RetryTime(p.c).None?)
    ensures TerraformPlan(p) == Step(p, Ignore)
  {
    hide IsRetryable, RetryTime, PlanByJob;
  }

  /** A retry that is due: the plan failed, and the token is newer than the last reconcile. */
  predicate RetryDue(w: World, c: Configuration) {
    && w.stored == Some(c) && !c.deleting && Ours in c.finalizers && Stamped(c, w.now)
    && IsFailed(c.status.plan, c.generation)
    && IsRetryable(c) && RetryTime(c).value <= w.now
    && PlanJob(w, c).None?
    && Read(c.annotations, ReconcileAnnotation) != "false"
    && HealthyInputs(c, w.inputs) && Unblocked(w, c)
  }

  lemma RetryPlans(p: Run)
    requires p.faults == map[] && IsRetryable(p.c) && FoundJob(p, PlanStage, PlanExtra(p)).None?
    requires p.w.inputs.management != ManagedBy(false)
    ensures var x := TerraformPlan(p);
            && !x.outcome.Continue?
            && x.run.w.now == p.w.now
            && (p.c.spec.autoApproval || NeedsApproval(p.c) ==> |x.run.w.jobs| == |p.w.jobs| + 1)
            && (!p.c.spec.autoApproval && !NeedsApproval(p.c) ==>
                  && x.run.w.jobs == p.w.jobs && x.run.c == p.c.(annotations := p.c.annotations[ApplyAnnotation := "false"]))
  {
    hide FoundJob, PlanExtra, DetectErrors, NewJob, Decimal.ParseInt;
  }

  lemma StopsAtPlan(r: Run)
    requires BeforePlan(r).outcome.Continue? && !TerraformPlan(BeforePlan(r).run).outcome.Continue?
    ensures AtStatus(r) == TerraformPlan(BeforePlan(r).run)
  {
    hide BeforePlan, TerraformPlan, TerraformApply, ConnectionWritten, StatusRecorded, RunAll;
  }

  lemma StatusOnly(w: World, c: Configuration)
    requires w.stored == Some(c)
    ensures Reconcile(w, map[]).jobs == Body(w, map[]).run.w.jobs
  {
    hide Body, Conclude;
  }

  lemma RestampedNow(x: Step, c: Configuration)
    requires x.run.c.annotations != c.annotations && !x.outcome.Continue?
    ensures Conclude(x, c).status.lastReconcile.time == x.run.w.now
    ensures Conclude(x, c).status.plan == x.run.c.status.plan
  {
  }

  lemma RetryLapsed(c: Configuration, e: Configuration)
    requires IsRetryable(c) && RetryTime(e) == RetryTime(c) && RetryTime(c).value <= e.status.lastReconcile.time
    ensures !IsRetryable(e) && RetryReadable(e)
  {
    hide Decimal.ParseInt;
  }

  // ---- stuck for good

  function Token(a: Annotations): (t: Option<string>) {
    if RetryAnnotation in a then Some(a[RetryAnnotation]) else None
  }

  /** A live object whose plan has failed, with a retry token that is no longer due. */
  predicate Stuck(w: World, token: Option<string>) {
    && w.stored.Some?
    && (var c := w.stored.value;
        && !c.deleting && Ours in c.finalizers && Token(c.annotations) == token
        && Stamped(c, w.now) && c.status.lastReconcile.time != 0
        && IsFailed(c.status.plan, c.generation) && !IsRetryable(c) && RetryReadable(c))
  }

  /** Anything but a new spec, a new retry token or a deletion. */
  predicate LeavesToken(a: Action, token: Option<string>) {
    && !a.SpecEdited? && !a.DeletionRequested?
    && (a.Annotated? ==> Token(a.annotations) == token)
  }

  lemma TokenIs(c: Configuration, e: Configuration)
    requires Token(c.annotations) == Token(e.annotations)
    ensures RetryTime(c) == RetryTime(e) && HasRetry(c) == HasRetry(e) && RetryReadable(c) == RetryReadable(e)
  {
    hide Decimal.ParseInt;
  }

  lemma StaysLapsed(c: Configuration, e: Configuration)
    requires !IsRetryable(c) && Token(e.annotations) == Token(c.annotations)
    requires 0 != c.status.lastReconcile.time <= e.status.lastReconcile.time
    ensures !IsRetryable(e)
  {
    hide RetryTime;
    TokenIs(c, e);
  }

  lemma DeedKeepsToken(c: Configuration, d: Deed, e: Configuration)
    requires e == DeedObject(c, d).(status := e.status)
    ensures Token(e.annotations) == Token(c.annotations)
  {
  }

  lemma StoredPlan(w: World, c: Configuration, faults: Faults, e: Configuration)
    requires w.stored == Some(c) && !c.deleting && Reconcile(w, faults).stored == Some(e)
    requires Body(w, faults).run.c.status.plan == c.status.plan
    ensures e.status.plan == c.status.plan
  {
    hide Body, DeedDue, Anchored;
    var d := OneDeed(w, c, faults);
    PlanOfConclusion(Body(w, faults), c);
  }

  lemma PlanOfConclusion(x: Step, c: Configuration)
    ensures Conclude(x, c).status.plan == x.run.c.status.plan
  {
    hide Set;
  }

  lemma ReconcileStuck(w: World, token: Option<string>, faults: Faults)
    requires Stuck(w, token)
    ensures Stuck(Reconcile(w, faults), token) && Reconcile(w, faults).jobs == w.jobs
  {
    hide Reconcile, Body, IsRetryable, RetryReadable, Stamped, DeedDue, Conclude, RetryTime;
    var c := w.stored.value;
    FailedStays(w, c, faults);
    var d, e := AfterReconcile(w, c, faults);
    StoredPlan(w, c, faults, e);
    DeedKeepsLabels(c, d, e);
    DeedKeepsToken(c, d, e);
    StillStamped(w, c, e);
    FollowsTime(w, c, e);
    StaysLapsed(c, e);
  }

  lemma FollowsTime(w: World, c: Configuration, e: Configuration)
    requires Follows(w, c, e.status)
    ensures c.status.lastReconcile.time <= e.status.lastReconcile.time
  {
    hide PlanSettled, RetryReadable;
  }

  lemma NextStuck(o: Owner, w: World, token: Option<string>, a: Action)
    requires Stuck(w, token) && LeavesToken(a, token)
    ensures Stuck(Next(o, w, a), token)
  {
    hide Reconcile, IsRetryable, RetryReadable, RetryTime, Decimal.Format;
    var c := w.stored.value;
    var v := Next(o, w, a);
    if a.Reconciles? {
      ReconcileStuck(w, token, a.faults);
    } else {
      TokenIs(c, v.stored.value);
      StaysLapsed(c, v.stored.value);
    }
  }

  /**
   Whatever happens to a stuck configuration short of a new spec, a new token or a deletion -- jobs
   ending or reaped, secrets, dependencies, approval, drift, time, reconciles with any faults -- it
   stays stuck, and no reconcile on the way creates a job.
   */
  lemma {:induction false} StuckForGood(o: Owner, w: World, token: Option<string>, actions: seq<Action>, faults: Faults)
    requires Stuck(w, token) && forall i :: 0 <= i < |actions| ==> LeavesToken(actions[i], token)
    ensures var v := Execute(o, w, actions); Stuck(v, token) && Reconcile(v, faults).jobs == v.jobs
  {
    hide Stuck, LeavesToken, Next, Reconcile;
    if actions != [] {
      var n := |actions| - 1;
      StuckForGood(o, w, token, actions[..n], faults);
      NextStuck(o, Execute(o, w, actions[..n]), token, actions[n]);
    }
    ReconcileStuck(Execute(o, w, actions), token, faults);
  }

  /**
   A due retry, taken up by a reconcile without faults, gets its plan job exactly when the object
   is auto approved or already marked as awaiting approval.  Otherwise the reconcile only puts
   that mark on, and the time stamp it leaves makes the token look old: in every run that follows,
   until someone edits the spec, changes the token or deletes the object, no reconcile creates any
   job, whatever the faults.
   */
  lemma RetryHonoured(o: Owner, w: World, c: Configuration, actions: seq<Action>, faults: Faults)
    requires RetryDue(w, c)
    requires forall i :: 0 <= i < |actions| ==> LeavesToken(actions[i], Token(c.annotations))
    ensures var u := Reconcile(w, map[]);
            && (|u.jobs| == |w.jobs| + 1 <==> c.spec.autoApproval || NeedsApproval(c))
            && (!c.spec.autoApproval && !NeedsApproval(c) ==>
                  && u.jobs == w.jobs
                  && Stuck(u, Token(c.annotations))
                  && (var v := Execute(o, u, actions); Reconcile(v, faults).jobs == v.jobs))
  {
    hide Reconcile, Body, BeforePlan, Start, TerraformPlan, FoundJob, PlanExtra, Hash, Stamped, PlanSettled, IsRetryable, RetryTime,
         HealthyInputs, EntryOpen, Captured, Prepared, IsFailed, Anchored, Did, PlanJob, Conclude, Follows, DeedDue, LeavesToken, Execute;
    HealthyPrepared(w, c, map[]);
    PlanStart(w, c, map[]);
    var r := Start(w, c, map[]);
    var p := BeforePlan(r).run;
    SameRetry(c, p.c);
    Managed(c, w.inputs);
    RetryPlans(p);
    var d, e := AfterReconcile(w, c, map[]);
    StopsAtPlan(r);
    StatusIsBody(w, c);
    StatusOnly(w, c);
    if !c.spec.autoApproval && !NeedsApproval(c) {
      DeedKeepsLabels(c, d, e);
      DeedKeepsToken(c, d, e);
      StillStamped(w, c, e);
      RestampedNow(Body(w, map[]), c);
      RetryLapsed(c, e);
      NowIsPositive(c, w.now);
      StuckForGood(o, Reconcile(w, map[]), Token(c.annotations), actions, faults);
    }
  }

  lemma NowIsPositive(c: Configuration, now: nat)
    requires Stamped(c, now)
    ensures now != 0
  {
  }
}
