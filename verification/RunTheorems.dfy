/** The guarantees over all runs, stated action by action. */
module RunTheorems {
  import opened Base
  import opened Jobs
  import opened Conditions
  import opened Cluster
  import opened Ensures
  import opened Runner
  import opened Frames
  import opened History
  import opened Runs
  import opened Safety
  import opened Theorems
  import opened Effects
  import opened Gating
  import opened Deletion

  /** What one reconcile does, seen from outside. */
  ghost predicate ReconcileOutcome(o: Owner, w: World, v: World, c: Configuration) {
    if IsDeletionCandidate(c) then DeletionOutcome(w, v.(stored := w.stored), c)
    else NormalOutcome(o, w, v, c)
  }

  lemma StatusPatchIsHarmless(w: World, c: Configuration, faults: Faults)
    ensures var v := StoreStatus(w, c, faults);
            && v.(stored := w.stored) == w
            && v.stored.Some? == w.stored.Some?
            && (w.stored.Some? ==> v.stored.value.finalizers == w.stored.value.finalizers)
  {
  }

  lemma ReconcileEffects(o: Owner, w: World, faults: Faults)
    requires GoodWorld(o, w) && w.stored.Some?
    ensures ReconcileOutcome(o, w, Reconcile(w, faults), w.stored.value)
  {
    hide GoodWorld, RunAll, StoreStatus, Conclude, CommonGates, ApplyGates, Launched, MayDropState, NoSecrets, Labelled;
    var c := w.stored.value;
    var x := Body(w, faults);
    StatusPatchIsHarmless(x.run.w, Conclude(x, c), faults);
    if IsDeletionCandidate(c) {
      DeletionEffects(w, c, faults);
      assert LaunchedIgnoresStored(w, x.run.w, Reconcile(w, faults), c, DestroyStage) by {
        SameLaunch(w, x.run.w, Reconcile(w, faults).(stored := w.stored), c, DestroyStage);
      }
    } else {
      NormalEffects(o, w, faults);
      SameLaunch(w, x.run.w, Reconcile(w, faults), c, PlanStage);
      SameLaunch(w, x.run.w, Reconcile(w, faults), c, ApplyStage);
    }
  }

  predicate LaunchedIgnoresStored(w: World, u: World, v: World, c: Configuration, stage: Stage) {
    Launched(w, u, c, stage) ==> Launched(w, v.(stored := w.stored), c, stage)
  }

  lemma SameLaunch(w: World, u: World, v: World, c: Configuration, stage: Stage)
    requires v.jobs == u.jobs && v.log == u.log && v.nextJob == u.nextJob
    ensures Launched(w, u, c, stage) ==> Launched(w, v, c, stage)
  {
    hide StageName;
  }

  /**
   Every job of the configuration that appears in a run appears in a reconcile, as the only new
   job of that reconcile, and the log records it.  A plan or apply job appears only while the
   object is not being torn down, its provider exists, is ready and lets the configuration use
   it, at most one policy is most specific, and no job labelled with another generation runs.
   For an apply job, besides, a plan job of the generation has succeeded, approval is not
   pending, the plan needs applying or there is no state yet, and where a policy governs, its
   report is in order and counts no failure.
   */
  lemma EveryJobIsGated(o: Owner, w0: World, actions: seq<Action>, a: Action, j: Job)
    requires Initial(o, w0) && o.uid != ""
    requires var w := Execute(o, w0, actions);
             j in Next(o, w, a).jobs && Owned(o, j) && w.nextJob <= j.id
    ensures var w := Execute(o, w0, actions); var v := Next(o, w, a);
            && a.Reconciles?
            && w.stored.Some?
            && (var c := w.stored.value;
                || (IsDeletionCandidate(c) && Launched(w, v, c, DestroyStage))
                || (&& !IsDeletionCandidate(c)
                    && CommonGates(o, w, c)
                    && (Launched(w, v, c, PlanStage) || (Launched(w, v, c, ApplyStage) && ApplyGates(w, c)))))
  {
    hide CommonGates, ApplyGates, Launched, Execute, MayDropState, NoSecrets, Labelled, Body, StoreStatus, Conclude,
         GoodObject, Lawful, Traced, NoTwins, SameKey, EditObject;
    RunsAreGood(o, w0, actions);
    var w := Execute(o, w0, actions);
    assert forall x :: x in w.jobs ==> x.id < w.nextJob;
    EndKeepsIds(w, a);
    match a
    case Reconciles(f) =>
      if w.stored.Some? {
        ReconcileEffects(o, w, f);
        var v := Reconcile(w, f);
        SameLaunch(w, v.(stored := w.stored), v, w.stored.value, DestroyStage);
      }
    case JobEnds(i, ok) =>
    case JobReaped(i) =>
    case ForeignJob(l, m) =>
    case SecretsWritten(s) =>
    case InputsChanged(x) =>
    case TimePasses(d) =>
    case _ =>
      if w.stored.Some? {
        EditKeepsJobs(w, w.stored.value, a);
      }
  }

  lemma EndKeepsIds(w: World, a: Action)
    requires forall x :: x in w.jobs ==> x.id < w.nextJob
    ensures a.JobEnds? && a.index < |w.jobs| ==>
              forall x :: x in EndJob(w, a.index, a.succeeded).jobs ==> x.id < w.nextJob
  {
    if a.JobEnds? && a.index < |w.jobs| {
      var v := EndJob(w, a.index, a.succeeded);
      assert forall k :: 0 <= k < |v.jobs| ==> v.jobs[k].id == w.jobs[k].id && w.jobs[k] in w.jobs;
    }
  }

  lemma EditKeepsJobs(w: World, c: Configuration, a: Action)
    ensures EditObject(w, c, a).jobs == w.jobs
    ensures EditObject(w, c, a).secrets == w.secrets
  {
  }

  /**
   No terraform state is lost: in every run, with faults at any call, a reconcile that removes an
   existing terraform state reconciles an object being deleted that is orphaned, records zero
   resources, or whose destroy job for the current generation and retry token is complete.
   */
  lemma StateIsDroppedOnlyAfterDestroy(o: Owner, w0: World, actions: seq<Action>, faults: Faults)
    requires Initial(o, w0) && o.uid != ""
    requires var w := Execute(o, w0, actions);
             w.secrets.state.Some? && Reconcile(w, faults).secrets.state.None?
    ensures var w := Execute(o, w0, actions);
            && w.stored.Some?
            && IsDeletionCandidate(w.stored.value)
            && MayDropState(w.stored.value, w.jobs)
  {
    hide CommonGates, ApplyGates, Launched, Execute, MayDropState, NoSecrets, Labelled, GoodWorld, RunAll;
    RunsAreGood(o, w0, actions);
    var w := Execute(o, w0, actions);
    if w.stored.Some? {
      ReconcileEffects(o, w, faults);
    }
  }

  // ---- the finalizer

  lemma EnteringKeepsFinalizer(r: Run)
    requires r.w.stored == Some(r.c) && Ours in r.c.finalizers
    ensures AtCapture(r).run.w.stored == r.w.stored
  {
    hide Set;
  }

  lemma AskKeepsFinalizers(r: Run)
    requires r.w.stored.Some?
    ensures AskApproval(r).run.w.stored.Some?
    ensures AskApproval(r).run.w.stored.value.finalizers == r.w.stored.value.finalizers
  {
    hide Set;
  }

  lemma PlanKeepsFinalizers(r: Run)
    requires r.w.stored.Some?
    ensures TerraformPlan(r).run.w.stored.Some?
    ensures TerraformPlan(r).run.w.stored.value.finalizers == r.w.stored.value.finalizers
  {
    hide Set, AskApproval, DetectErrors, IsRetryable, RetryTime, FoundJob, Launch, PlanExtra;
    AskKeepsFinalizers(r);
    DetectEffect(PlanFail(r, None, PlanFailed));
    LaunchFrame(r, PlanStage, PlanExtra(r));
  }

  lemma ApplyKeepsStored(r: Run)
    ensures TerraformApply(r).run.w.stored == r.w.stored
  {
    hide Set, DetectErrors, FoundJob, Launch, ApplyExtra;
    DetectEffect(ApplyFail(r, None, ApplyFailed));
    var q := Update(r, r.c.status.(resourceStatus := OutOfSync));
    LaunchFrame(q, ApplyStage, ApplyExtra(q));
  }

  lemma NormalKeepsFinalizer(w: World, c: Configuration, faults: Faults)
    requires w.stored == Some(c) && Ours in c.finalizers
    ensures var v := RunAll(NORMAL, Start(w, c, faults)).run.w;
            v.stored.Some? && v.stored.value.finalizers == c.finalizers
  {
    hide RunAll, AtCapture, TerraformPlan, TerraformApply, ConnectionWritten, StatusRecorded, Start;
    var r := Start(w, c, faults);
    StartShape(w, c, faults);
    NormalPhases(r);
    EnteringKeepsFinalizer(r);
    AllBenign();
    ThenAllQuiet(AtCapture(r), PREPARATION);
    var b := BeforePlan(r);
    if b.outcome.Continue? {
      PlanKeepsFinalizers(b.run);
    }
    ThenAllQuiet(AtPlan(r), REVIEW);
    var a := BeforeApply(r);
    if a.outcome.Continue? {
      ApplyKeepsStored(a.run);
    }
    if AtApply(r).outcome.Continue? {
      RecordingQuiet(AtApply(r).run);
      StatusFrame(ConnectionWritten(AtApply(r).run).run);
    }
  }

  /**
   The finalizer goes last: in every run, a reconcile after which the object is gone, or no longer
   carries the finalizer it carried, leaves none of the six secrets and no job with the
   configuration's name and namespace labels.
   */
  lemma FinalizerGoesLast(o: Owner, w0: World, actions: seq<Action>, faults: Faults)
    requires Initial(o, w0) && o.uid != ""
    requires var w := Execute(o, w0, actions); var v := Reconcile(w, faults);
             && w.stored.Some? && Ours in w.stored.value.finalizers
             && (v.stored.None? || Ours !in v.stored.value.finalizers)
    ensures var v := Reconcile(Execute(o, w0, actions), faults);
            && NoSecrets(v.secrets)
            && forall j :: j in v.jobs ==> !Labelled(o, j)
  {
    hide Execute, MayDropState, NoSecrets, Labelled, GoodWorld, RunAll, Launched, StoreStatus, Conclude;
    RunsAreGood(o, w0, actions);
    var w := Execute(o, w0, actions);
    var c := w.stored.value;
    GoodOwner(o, w);
    var x := Body(w, faults);
    StatusPatchIsHarmless(x.run.w, Conclude(x, c), faults);
    if IsDeletionCandidate(c) {
      DeletionEffects(w, c, faults);
    } else {
      NormalKeepsFinalizer(w, c, faults);
    }
  }
}
