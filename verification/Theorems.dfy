/** Safety over every run: the invariant is inductive, and what follows from it. */
module Theorems {
  import opened Labels
  import opened Jobs
  import opened Conditions
  import opened Cluster
  import opened Ensures
  import opened Runner
  import opened Frames
  import opened History
  import opened Runs
  import opened Safety
  import Decimal

  // ---- one reconcile

  lemma StartGood(o: Owner, w: World, faults: Faults)
    requires GoodWorld(o, w) && w.stored.Some?
    ensures GoodRun(o, Start(w, w.stored.value, faults))
  {
    hide Lawful, NoTwins, Recorded;
  }

  lemma AllBenign()
    ensures forall e :: e in PREPARATION ==> Benign(e)
    ensures forall e :: e in REVIEW ==> Benign(e)
    ensures forall e :: e in UNDOING ==> Benign(e)
  {
  }

  lemma UpToPlanKeeps(o: Owner, r: Run)
    requires GoodRun(o, r)
    ensures GoodRun(o, BeforePlan(r).run)
    ensures BeforePlan(r).outcome.Continue? ==> Snapshot(BeforePlan(r).run)
  {
    hide GoodRun, Entering, AtCapture, ThenAll, Quiet;
    AllBenign();
    AtCaptureEnters(r);
    EnteringKeeps(o, r, AtCapture(r).run);
    ThenAllQuiet(AtCapture(r), PREPARATION);
    QuietKeeps(o, AtCapture(r).run, BeforePlan(r).run);
    if BeforePlan(r).outcome.Continue? {
      PhaseContinues(AtCapture(r), PREPARATION);
      QuietSnapshot(AtCapture(r).run, BeforePlan(r).run);
    }
  }

  lemma PhaseContinues(x: Step, list: seq<Ensure>)
    requires ThenAll(x, list).outcome.Continue?
    ensures x.outcome.Continue?
  {
  }

  lemma QuietSnapshot(r: Run, q: Run)
    requires Quiet(r, q)
    ensures Snapshot(r) ==> Snapshot(q)
    ensures IsComplete(r.c.status.plan, r.c.generation) ==> IsComplete(q.c.status.plan, q.c.generation)
  {
  }

  lemma UpToApplyKeeps(o: Owner, r: Run)
    requires GoodRun(o, r)
    ensures GoodEnd(o, BeforeApply(r).run)
    ensures BeforeApply(r).outcome.Continue? ==>
              && GoodRun(o, BeforeApply(r).run)
              && Snapshot(BeforeApply(r).run)
              && IsComplete(BeforeApply(r).run.c.status.plan, BeforeApply(r).run.c.generation)
  {
    hide GoodRun, GoodEnd, BeforePlan, TerraformPlan, ThenAll, Quiet;
    AllBenign();
    UpToPlanKeeps(o, r);
    var b := BeforePlan(r);
    GoodRunEnds(o, b.run);
    if b.outcome.Continue? {
      PlanKeeps(o, b.run);
    }
    var p := AtPlan(r);
    if p.outcome.Continue? {
      ThenAllQuiet(p, REVIEW);
      QuietKeeps(o, p.run, BeforeApply(r).run);
      QuietSnapshot(p.run, BeforeApply(r).run);
      GoodRunEnds(o, BeforeApply(r).run);
    } else {
      StopsAt(p, REVIEW);
    }
  }

  lemma StopsAt(x: Step, list: seq<Ensure>)
    requires !x.outcome.Continue?
    ensures ThenAll(x, list) == x
  {
  }

  lemma RecordingKeeps(o: Owner, r: Run)
    requires GoodRun(o, r)
    ensures GoodRun(o, ConnectionWritten(r).run)
    ensures GoodRun(o, StatusRecorded(r).run)
  {
    hide GoodRun, Set, Quiet, ConnectionWritten, Update;
    RecordingQuiet(r);
    QuietKeeps(o, r, ConnectionWritten(r).run);
    SettersKeep(o, r);
  }

  lemma NormalKeeps(o: Owner, r: Run)
    requires GoodRun(o, r)
    ensures GoodEnd(o, RunAll(NORMAL, r).run)
  {
    hide GoodRun, GoodEnd, BeforeApply, TerraformApply, RunAll, ConnectionWritten, StatusRecorded;
    NormalPhases(r);
    UpToApplyKeeps(o, r);
    if BeforeApply(r).outcome.Continue? {
      ApplyKeeps(o, BeforeApply(r).run);
    }
    if AtApply(r).outcome.Continue? {
      RecordingKeeps(o, AtApply(r).run);
      GoodRunEnds(o, AtConnection(r).run);
      RecordingKeeps(o, AtConnection(r).run);
      GoodRunEnds(o, StatusRecorded(AtConnection(r).run).run);
    }
  }

  lemma UpToDestroyKeeps(o: Owner, r: Run)
    requires GoodRun(o, r)
    ensures GoodRun(o, BeforeDestroy(r).run)
    ensures BeforeDestroy(r).outcome.Continue? ==> Snapshot(BeforeDestroy(r).run)
  {
    hide GoodRun, Entering, CapturedState, ThenAll, Quiet;
    AllBenign();
    CaptureEnters(r);
    EnteringKeeps(o, r, CapturedState(r).run);
    ThenAllQuiet(CapturedState(r), UNDOING);
    QuietKeeps(o, CapturedState(r).run, BeforeDestroy(r).run);
    if BeforeDestroy(r).outcome.Continue? {
      PhaseContinues(CapturedState(r), UNDOING);
      QuietSnapshot(CapturedState(r).run, BeforeDestroy(r).run);
    }
  }

  lemma DeletionKeeps(o: Owner, r: Run)
    requires GoodRun(o, r)
    ensures GoodEnd(o, RunAll(DELETION, r).run)
  {
    hide GoodRun, GoodEnd, BeforeDestroy, TerraformDestroy, DeleteSecrets, JobsDeleted, FinalizerRemoved, RunAll;
    DeletionPhases(r);
    UpToDestroyKeeps(o, r);
    GoodRunEnds(o, BeforeDestroy(r).run);
    if BeforeDestroy(r).outcome.Continue? {
      DestroyKeeps(o, BeforeDestroy(r).run);
    }
    if AtDestroy(r).outcome.Continue? {
      SecretsKeep(o, AtDestroy(r).run, SIX_SECRETS);
      GoodRunEnds(o, AtSecrets(r).run);
    }
    if AtSecrets(r).outcome.Continue? {
      JobsDeletedKeeps(o, AtSecrets(r).run);
      GoodRunEnds(o, AtJobs(r).run);
    }
    if AtJobs(r).outcome.Continue? {
      ReleaseKeeps(o, AtJobs(r).run);
    }
  }

  lemma StoreKeeps(o: Owner, x: Step, original: Configuration, faults: Faults)
    requires GoodEnd(o, x.run)
    ensures GoodWorld(o, StoreStatus(x.run.w, Conclude(x, original), faults))
  {
    hide Lawful, NoTwins, Traced, Set, Restamp, Evident;
    assert Conclude(x, original).status.plan == x.run.c.status.plan;
  }

  /** A reconcile, with any faults, keeps the invariant. */
  lemma ReconcileKeeps(o: Owner, w: World, faults: Faults)
    requires GoodWorld(o, w)
    ensures GoodWorld(o, Reconcile(w, faults))
  {
    hide GoodWorld, GoodRun, GoodEnd, RunAll, StoreStatus, Conclude;
    if w.stored.Some? {
      var r := Start(w, w.stored.value, faults);
      StartGood(o, w, faults);
      NormalKeeps(o, r);
      DeletionKeeps(o, r);
      StoreKeeps(o, Body(w, faults), w.stored.value, faults);
    }
  }

  // ---- the other actions

  lemma JobEndKeeps(o: Owner, w: World, i: nat, ok: bool)
    requires GoodWorld(o, w) && i < |w.jobs|
    ensures GoodWorld(o, EndJob(w, i, ok))
  {
    hide Lawful, GoodObject, Traced;
    var v := EndJob(w, i, ok);
    var e := JobFinished(w.jobs[i].id, ok);
    LawfulExtends(w.log, e);
    forall j | j in v.jobs && Owned(o, j) ensures Traced(o, v.log, j) {
      var k :| 0 <= k < |v.jobs| && v.jobs[k] == j;
      assert w.jobs[k] in w.jobs;
      TracedGrows(o, w.log, e, w.jobs[k]);
      if k == i {
        TracedEnd(o, w.log, w.jobs[i], ok);
      }
    }
    assert forall k :: 0 <= k < |v.jobs| ==> v.jobs[k].labels == w.jobs[k].labels && v.jobs[k].id == w.jobs[k].id;
    assert forall k :: 0 <= k < |w.jobs| ==> w.jobs[k] in w.jobs;
    if w.stored.Some? {
      QuietEventKeeps(o, w.stored.value, w.log, e);
    }
  }

  lemma TracedEnd(o: Owner, log: seq<Event>, j: Job, ok: bool)
    requires Traced(o, log + [JobFinished(j.id, ok)], j)
    ensures Traced(o, log + [JobFinished(j.id, ok)], j.(complete := ok, failed := !ok))
  {
    hide StageName, Decimal.Format;
    var l := log + [JobFinished(j.id, ok)];
    var stage, g, auto :| TracedAs(l, j, stage, g, auto);
    assert l[|log|] == JobFinished(j.id, ok);
    assert TracedAs(l, j.(complete := ok, failed := !ok), stage, g, auto);
  }

  /** The end of a job changes nothing the object's invariant speaks of. */
  lemma QuietEventKeeps(o: Owner, c: Configuration, log: seq<Event>, e: Event)
    requires GoodObject(o, c, log) && e.JobFinished?
    ensures GoodObject(o, c, log + [e])
  {
    hide PlanSucceeded, PlanSeen, ApprovedSince, Evident;
    EvidentGrows(c.status.plan, log, e);
    PlanSeenExtends(log, e, c.generation);
    ApprovedSinceExtends(log, e, c.generation);
  }

  lemma ReapKeeps(o: Owner, w: World, i: nat)
    requires GoodWorld(o, w) && i < |w.jobs|
    ensures GoodWorld(o, w.(jobs := w.jobs[..i] + w.jobs[i + 1..]))
  {
    hide Lawful, GoodObject, Traced, SameKey;
    var jobs := w.jobs[..i] + w.jobs[i + 1..];
    assert forall k :: 0 <= k < |jobs| ==> jobs[k] == w.jobs[if k < i then k else k + 1];
    assert forall j :: j in jobs ==> j in w.jobs;
  }

  lemma ForeignKeeps(o: Owner, w: World, j: Job)
    requires GoodWorld(o, w) && !Owned(o, j) && j.id == w.nextJob
    ensures GoodWorld(o, w.(jobs := w.jobs + [j], nextJob := w.nextJob + 1))
  {
    hide Lawful, GoodObject, Traced, SameKey;
  }

  lemma AnnotateKeeps(o: Owner, w: World, a: Annotations)
    requires GoodWorld(o, w) && w.stored.Some?
    ensures GoodWorld(o, EditAnnotations(w, w.stored.value, a))
  {
    hide Lawful, NoTwins, Traced, PlanSucceeded, PlanSeen, ApprovedSince;
    var c := w.stored.value;
    var v := EditAnnotations(w, c, a);
    if v.log != w.log {
      LawfulExtends(w.log, ApprovalMoved);
      forall j | j in w.jobs && Owned(o, j) ensures Traced(o, v.log, j) {
        TracedGrows(o, w.log, ApprovalMoved, j);
      }
      EvidentGrows(c.status.plan, w.log, ApprovalMoved);
      PlanSeenExtends(w.log, ApprovalMoved, c.generation);
      ApprovedSinceExtends(w.log, ApprovalMoved, c.generation);
    }
  }

  lemma NewGenerationUnplanned(c: Configuration, log: seq<Event>)
    requires Bounded(c, log)
    ensures !PlanSeen(log, c.generation + 1)
  {
    assert forall i :: 0 <= i < |log| ==> !IsPlanOf(log[i], c.generation + 1);
  }

  lemma EditKeeps(o: Owner, w: World, a: Action)
    requires GoodWorld(o, w) && w.stored.Some?
    ensures GoodWorld(o, EditObject(w, w.stored.value, a))
  {
    hide Lawful, NoTwins, Traced, PlanSucceeded, PlanSeen, ApprovedSince;
    if a.Annotated? {
      AnnotateKeeps(o, w, a.annotations);
    } else {
      NewGenerationUnplanned(w.stored.value, w.log);
    }
  }

  lemma NextKeeps(o: Owner, w: World, a: Action)
    requires GoodWorld(o, w)
    ensures GoodWorld(o, Next(o, w, a))
  {
    hide GoodWorld, Reconcile, EditObject;
    match a
    case Reconciles(f) => ReconcileKeeps(o, w, f);
    case JobEnds(i, ok) =>
      if i < |w.jobs| { JobEndKeeps(o, w, i, ok); }
    case JobReaped(i) =>
      if i < |w.jobs| { ReapKeeps(o, w, i); }
    case ForeignJob(l, m) =>
      if Get(l, UidKey) != o.uid { ForeignKeeps(o, w, Job(w.nextJob, l, m, w.now, false, false)); }
    case SecretsWritten(s) => SameJobsAndLog(o, w, Next(o, w, a));
    case InputsChanged(i) => SameJobsAndLog(o, w, Next(o, w, a));
    case TimePasses(d) => SameJobsAndLog(o, w, Next(o, w, a));
    case _ =>
      if w.stored.Some? { EditKeeps(o, w, a); }
  }

  lemma SameJobsAndLog(o: Owner, w: World, v: World)
    requires GoodWorld(o, w)
    requires v.jobs == w.jobs && v.log == w.log && v.nextJob == w.nextJob && v.stored == w.stored
    ensures GoodWorld(o, v)
  {
    hide Lawful, NoTwins, Traced, GoodObject;
  }

  lemma InitialGood(o: Owner, w: World)
    requires Initial(o, w) && o.uid != ""
    ensures GoodWorld(o, w)
  {
    assert Lawful([]);
  }

  /** Every world a run can reach satisfies the invariant. */
  lemma {:induction false} RunsAreGood(o: Owner, w: World, actions: seq<Action>)
    requires Initial(o, w) && o.uid != ""
    ensures GoodWorld(o, Execute(o, w, actions))
  {
    hide GoodWorld, Next;
    if actions == [] {
      InitialGood(o, w);
    } else {
      var init := actions[..|actions| - 1];
      RunsAreGood(o, w, init);
      NextKeeps(o, Execute(o, w, init), actions[|actions| - 1]);
    }
  }

  // ---- what follows

  /**
   Approval before apply.  In every run, every apply job of a generation is preceded by a plan job
   of that generation that finished successfully; and where the spec has auto approval off, then
   after the latest plan job of the generation some actor other than the controller moved the
   apply annotation away from "false".
   */
  lemma ApprovalBeforeApply(o: Owner, w: World, actions: seq<Action>, i: nat)
    requires Initial(o, w) && o.uid != ""
    requires i < |Execute(o, w, actions).log| && IsApply(Execute(o, w, actions).log[i])
    ensures var log := Execute(o, w, actions).log; var g := log[i].generation;
            && (exists auto, id :: JobCreated(PlanStage, g, auto, id) in log[..i] && JobFinished(id, true) in log[..i])
            && (!log[i].auto ==>
                  exists j, k :: 0 <= j < k < i && IsPlanOf(log[j], g) && log[k].ApprovalMoved?
                                 && forall m :: j < m < i ==> !IsPlanOf(log[m], g))
  {
    hide Recorded, NoTwins, GoodObject, Execute;
    RunsAreGood(o, w, actions);
    var log := Execute(o, w, actions).log;
    var g := log[i].generation;
    LawfulAt(log, i);
    if !log[i].auto {
      ApprovedSinceMeans(log[..i], g);
      var j, k :| 0 <= j < k < |log[..i]| && IsPlanOf(log[..i][j], g) && log[..i][k].ApprovalMoved?
        && forall m :: j < m < |log[..i]| ==> !IsPlanOf(log[..i][m], g);
      assert log[j] == log[..i][j] && log[k] == log[..i][k];
      assert forall m :: j < m < i ==> log[m] == log[..i][m];
    }
  }

  /**
   No duplicate jobs.  In every reachable world no two jobs of the configuration agree on stage,
   generation and that stage's distinguishing labels: drift mark, retry token and template hash
   for a plan; plan id and template hash for an apply; retry token for a destroy.
   */
  lemma NoDuplicateJobs(o: Owner, w: World, actions: seq<Action>, i: nat, k: nat)
    requires Initial(o, w) && o.uid != ""
    requires var jobs := Execute(o, w, actions).jobs;
             i < k < |jobs| && Owned(o, jobs[i]) && Owned(o, jobs[k])
    ensures var a, b := Execute(o, w, actions).jobs[i].labels, Execute(o, w, actions).jobs[k].labels;
            Get(a, StageKey) == Get(b, StageKey) && Get(a, GenerationKey) == Get(b, GenerationKey) ==>
              exists x :: x in KeysOf(Get(a, StageKey)) && Get(a, x) != Get(b, x)
  {
    hide Recorded, GoodObject, Lawful, Execute;
    RunsAreGood(o, w, actions);
  }
}
