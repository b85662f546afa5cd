/** In every run, a plan condition that is True was left by a reconcile that stamped the object. */
module Stamps {
  import opened Base
  import opened Jobs
  import opened Conditions
  import opened Cluster
  import opened Ensures
  import opened Runner
  import opened Runs
  import opened Frames
  import opened Effects
  import opened Quiescence
  import opened Progress
  import Theorems
  import Gating
  import ValueFrom

  /** The clock and the stamp of the last reconcile are as they were. */
  predicate Timeless(r: Run, q: Run) {
    q.w.now == r.w.now && q.c.generation == r.c.generation && q.c.status.lastReconcile == r.c.status.lastReconcile
  }

  /** What is stored, if anything, still carries the status it had, and is being deleted if it was. */
  predicate StatusKept(r: Run, q: Run) {
    q.w.stored.Some? ==>
      && r.w.stored.Some?
      && q.w.stored.value.status == r.w.stored.value.status
      && q.w.stored.value.deleting == r.w.stored.value.deleting
  }

  /** The condition is as it was, or bears the present time. */
  predicate Moves(c: Condition, d: Condition, now: nat) {
    d == c || d.transition == now
  }

  predicate Steady(r: Run, q: Run) {
    && Timeless(r, q) && StatusKept(r, q)
    && Moves(r.c.status.plan, q.c.status.plan, r.w.now)
    && Moves(r.c.status.apply, q.c.status.apply, r.w.now)
  }

  lemma SteadyTrans(a: Run, b: Run, c: Run)
    requires Steady(a, b) && Steady(b, c)
    ensures Steady(a, c)
  {
  }

  lemma QuietIsSteady(r: Run, q: Run)
    ensures Quiet(r, q) ==> Steady(r, q)
    ensures Entering(r, q) ==> Steady(r, q)
  {
  }

  lemma PlanSteady(r: Run)
    ensures Steady(r, TerraformPlan(r).run)
  {
    hide Set, FoundJob, PlanExtra, IsRetryable, RetryTime, NewJob, PlanSettled, AskApproval, DetectErrors, SameIdentity;
    AskSteady(r);
    DetectEffect(PlanFail(r, None, PlanFailed));
    PlanKeepsIdentity(r);
    IdentityTimes(r.c, TerraformPlan(r).run.c);
    PlanTimed(r);
    PlanKeepsApply(r);
  }

  lemma SetTimed(c: Condition, now: nat)
    ensures forall g, s, re, m, note {:trigger Set(c, g, s, re, m, note, now)} :: Moves(c, Set(c, g, s, re, m, note, now), now)
  {
  }

  lemma SetPlanIs(r: Run)
    ensures forall d {:trigger SetPlan(r, d)} :: SetPlan(r, d).c.status.plan == d
  {
  }

  lemma AskTimed(r: Run)
    ensures Moves(r.c.status.plan, AskApproval(r).run.c.status.plan, r.w.now)
  {
    hide Set;
    SetTimed(r.c.status.plan, r.w.now);
  }

  lemma LaunchTimed(r: Run)
    ensures Moves(r.c.status.plan, LaunchPlan(r).run.c.status.plan, r.w.now)
  {
    hide Set, NewJob, PlanExtra;
    SetTimed(r.c.status.plan, r.w.now);
  }

  lemma PlanTimed(r: Run)
    ensures Moves(r.c.status.plan, TerraformPlan(r).run.c.status.plan, r.w.now)
  {
    hide Set, FoundJob, PlanExtra, IsRetryable, RetryTime, PlanSettled, AskApproval, DetectErrors, LaunchPlan, SetPlan;
    SetTimed(r.c.status.plan, r.w.now);
    SetPlanIs(r);
    AskTimed(r);
    LaunchTimed(r);
    DetectKeepsPlan(PlanFail(r, None, PlanFailed));
  }

  lemma AskKeepsApply(r: Run)
    ensures AskApproval(r).run.c.status.apply == r.c.status.apply
  {
    hide Set;
  }

  /** The plan step leaves the apply condition alone. */
  lemma PlanKeepsApply(r: Run)
    ensures TerraformPlan(r).run.c.status.apply == r.c.status.apply
  {
    hide Set, FoundJob, PlanExtra, IsRetryable, RetryTime, PlanSettled, AskApproval, NewJob;
    AskKeepsApply(r);
  }

  lemma SetApplyIs(r: Run)
    ensures forall d {:trigger SetApply(r, d)} :: SetApply(r, d).c.status.apply == d
  {
  }

  lemma DetectKeepsApply(r: Run)
    ensures DetectErrors(r).run.c.status.apply == r.c.status.apply
  {
    hide Set;
  }

  lemma LaunchApplyTimed(r: Run)
    ensures Moves(r.c.status.apply, LaunchApply(r).run.c.status.apply, r.w.now)
  {
    hide Set, NewJob, ApplyExtra;
    SetTimed(r.c.status.apply, r.w.now);
  }

  lemma ApplyTimed(r: Run)
    ensures Moves(r.c.status.apply, TerraformApply(r).run.c.status.apply, r.w.now)
  {
    hide Set, FoundJob, ApplyExtra, LaunchApply, SetApply, DetectErrors;
    SetTimed(r.c.status.apply, r.w.now);
    SetApplyIs(r);
    LaunchApplyTimed(Update(r, r.c.status.(resourceStatus := OutOfSync)));
    DetectKeepsApply(ApplyFail(r, None, ApplyFailed));
  }

  lemma RecordKeepsApply(r: Run)
    ensures ConnectionWritten(r).run.c.status.apply == r.c.status.apply
    ensures StatusRecorded(r).run.c.status.apply == r.c.status.apply
  {
    hide Set;
  }

  lemma IdentityTimes(c: Configuration, d: Configuration)
    requires SameIdentity(c, d)
    ensures d.generation == c.generation && d.status.lastReconcile == c.status.lastReconcile
  {
  }

  lemma AskSteady(r: Run)
    ensures var q := AskApproval(r).run; q.w.now == r.w.now && StatusKept(r, q)
  {
    hide Set;
  }

  lemma ApplySteady(r: Run)
    ensures Steady(r, TerraformApply(r).run)
  {
    hide TerraformApply;
    var d := ApplyDeed(r);
    ApplyKeepsPlan(r);
    ApplyTimed(r);
  }

  lemma RecordSteady(r: Run)
    ensures Steady(r, ConnectionWritten(r).run) && Steady(r, StatusRecorded(r).run)
  {
    hide ConnectionWritten, StatusRecorded;
    RecordKeepsPlan(r);
    RecordKeepsApply(r);
    RecordingQuiet(r);
    Gating.StatusFrame(r);
  }

  lemma NormalSteady(r: Run)
    ensures Steady(r, RunAll(NORMAL, r).run)
  {
    hide RunAll, Steady, AtCapture, TerraformPlan, TerraformApply, ConnectionWritten, StatusRecorded, Quiet, Entering;
    NormalPhases(r);
    Theorems.AllBenign();
    AtCaptureEnters(r);
    QuietIsSteady(r, AtCapture(r).run);
    ThenAllQuiet(AtCapture(r), PREPARATION);
    var b := BeforePlan(r);
    QuietIsSteady(AtCapture(r).run, b.run);
    SteadyTrans(r, AtCapture(r).run, b.run);
    PlanSteady(b.run);
    SteadyTrans(r, b.run, TerraformPlan(b.run).run);
    var p := AtPlan(r);
    ThenAllQuiet(p, REVIEW);
    var v := BeforeApply(r);
    QuietIsSteady(p.run, v.run);
    SteadyTrans(r, p.run, v.run);
    ApplySteady(v.run);
    SteadyTrans(r, v.run, TerraformApply(v.run).run);
    var a := AtApply(r);
    RecordSteady(a.run);
    SteadyTrans(r, a.run, ConnectionWritten(a.run).run);
    var k := AtConnection(r);
    RecordSteady(k.run);
    SteadyTrans(r, k.run, StatusRecorded(k.run).run);
  }

  lemma DestroySteady(r: Run)
    ensures Steady(r, TerraformDestroy(r).run)
  {
    hide Set, DestroyByJob, Steady;
    var q := Update(r, r.c.status.(resourceStatus := Destroying));
    ReadySteady(r);
    ReadySteady(q);
    DestroyJobSteady(q);
    forall d ensures Steady(r, SetReady(q, d)) { SteadyTrans(r, q, SetReady(q, d)); }
    SteadyTrans(r, q, DestroyByJob(q).run);
  }

  lemma ReadySteady(r: Run)
    ensures forall d {:trigger SetReady(r, d)} :: Steady(r, SetReady(r, d))
    ensures forall s: ResourceStatus {:trigger r.c.status.(resourceStatus := s)} :: Steady(r, Update(r, r.c.status.(resourceStatus := s)))
    ensures Steady(r, r)
  {
  }

  lemma DestroyJobSteady(r: Run)
    ensures Steady(r, DestroyByJob(r).run)
  {
    hide Set, FoundJob, DestroyExtra, NewJob;
  }

  lemma {:induction false} SecretsSteady(r: Run, kinds: seq<SecretKind>)
    ensures Steady(r, DeleteSecrets(r, kinds).run)
    decreases |kinds|
  {
    hide Set, Without;
    if kinds != [] && DeleteSecret(kinds[0]) !in r.faults {
      SecretsSteady(r.(w := r.w.(secrets := Without(r.w.secrets, kinds[0]))), kinds[1..]);
    }
  }

  lemma {:induction false} JobsSteady(r: Run, list: seq<Job>, i: nat)
    requires i <= |list|
    ensures Steady(r, DeleteJobs(r, list, i).run)
    decreases |list| - i
  {
    hide Set, Removed;
    if i < |list| && DeleteJob(i) !in r.faults {
      JobsSteady(r.(w := r.w.(jobs := Removed(r.w.jobs, list[i]))), list, i + 1);
    }
  }

  lemma ReleaseSteady(r: Run)
    ensures Steady(r, JobsDeleted(r).run) && Steady(r, FinalizerRemoved(r).run)
  {
    hide Set, LabelledJobs, DeleteJobs, WithoutOurs;
    JobsSteady(r, LabelledJobs(r.c.owner, r.w.jobs), 0);
  }

  lemma DeletionSteady(r: Run)
    ensures Steady(r, RunAll(DELETION, r).run)
  {
    hide RunAll, Steady, CapturedState, TerraformDestroy, DeleteSecrets, JobsDeleted, FinalizerRemoved, Quiet, Entering;
    DeletionPhases(r);
    Theorems.AllBenign();
    CaptureEnters(r);
    QuietIsSteady(r, CapturedState(r).run);
    ThenAllQuiet(CapturedState(r), UNDOING);
    var b := BeforeDestroy(r);
    QuietIsSteady(CapturedState(r).run, b.run);
    SteadyTrans(r, CapturedState(r).run, b.run);
    DestroySteady(b.run);
    SteadyTrans(r, b.run, TerraformDestroy(b.run).run);
    var d := AtDestroy(r);
    SecretsSteady(d.run, SIX_SECRETS);
    SteadyTrans(r, d.run, DeleteSecrets(d.run, SIX_SECRETS).run);
    var s := AtSecrets(r);
    ReleaseSteady(s.run);
    SteadyTrans(r, s.run, JobsDeleted(s.run).run);
    var j := AtJobs(r);
    ReleaseSteady(j.run);
    SteadyTrans(r, j.run, FinalizerRemoved(j.run).run);
  }

  // ---- over runs

  predicate StampedWorld(w: World) {
    w.now >= 1 && (w.stored.Some? ==> Stamped(w.stored.value, w.now))
  }

  lemma ConcludeStamped(w: World, c: Configuration, x: Step)
    requires Stamped(c, w.now) && x.run.w.now == w.now && x.run.c.status.lastReconcile == c.status.lastReconcile
    ensures forall d: Configuration :: d.status == Conclude(x, c).status ==> Stamped(d, w.now)
  {
    hide Set;
    var e := Conclude(x, c);
    assert e.status.plan == x.run.c.status.plan;
    if e.status.lastReconcile.time != w.now {
      assert e.status.lastReconcile == c.status.lastReconcile;
      assert e.status.plan == c.status.plan;
    }
  }

  lemma ReconcileStamped(w: World, faults: Faults)
    requires StampedWorld(w)
    ensures StampedWorld(Reconcile(w, faults))
  {
    hide RunAll, Conclude;
    if w.stored.Some? {
      var c := w.stored.value;
      var r := Start(w, c, faults);
      NormalSteady(r);
      DeletionSteady(r);
      var x := Body(w, faults);
      ConcludeStamped(w, c, x);
    }
  }

  lemma NextStamped(o: Owner, w: World, a: Action)
    requires StampedWorld(w)
    ensures StampedWorld(Next(o, w, a))
  {
    hide Reconcile;
    if a.Reconciles? {
      ReconcileStamped(w, a.faults);
    }
  }

  /** Stamps are in order in every world a run can reach. */
  lemma {:induction false} RunsAreStamped(o: Owner, w: World, actions: seq<Action>)
    requires Initial(o, w)
    ensures StampedWorld(Execute(o, w, actions))
  {
    hide Next, StampedWorld;
    if actions == [] {
      InitialStamped(o, w);
    } else {
      var n := |actions| - 1;
      RunsAreStamped(o, w, actions[..n]);
      NextStamped(o, Execute(o, w, actions[..n]), actions[n]);
    }
  }

  lemma InitialStamped(o: Owner, w: World)
    requires Initial(o, w)
    ensures StampedWorld(w)
  {
  }

  /** So in every run, a reconcile that runs to the end is the last to change anything. */
  lemma ReachableQuiescent(o: Owner, w0: World, actions: seq<Action>, faults: Faults, later: nat)
    requires Initial(o, w0)
    requires var w := Execute(o, w0, actions);
             && w.stored.Some? && !IsDeletionCandidate(w.stored.value) && PatchStatus !in faults
             && Body(w, faults).outcome.Continue? && w.now < later
             && forall e :: e in w.stored.value.spec.valueFrom ==> !e.source.NoSource?
    ensures var v := Reconcile(Execute(o, w0, actions), faults).(now := later);
            Reconcile(v, map[]) == v
  {
    hide Body, Execute, Reconcile, Initial, IsDeletionCandidate;
    RunsAreStamped(o, w0, actions);
    Quiescent(Execute(o, w0, actions), faults, later);
  }

  /** For an object as admission lets it pass, there is no condition left. */
  lemma AdmittedQuiescent(o: Owner, w0: World, actions: seq<Action>, faults: Faults, later: nat)
    requires Initial(o, w0)
    requires var w := Execute(o, w0, actions);
             && w.stored.Some? && !IsDeletionCandidate(w.stored.value) && PatchStatus !in faults
             && Body(w, faults).outcome.Continue? && w.now < later
             && forall e :: e in w.stored.value.spec.valueFrom ==> ValueFrom.IsValid(e)
    ensures var v := Reconcile(Execute(o, w0, actions), faults).(now := later);
            Reconcile(v, map[]) == v
  {
    hide Body, Execute, Reconcile, Initial, IsDeletionCandidate;
    ReachableQuiescent(o, w0, actions, faults, later);
  }

  // ---- how the conditions and the deletion mark move

  /** The object is still there, with plan and apply conditions that were kept or bear this time. */
  predicate Moved(w: World, v: World) {
    && w.now <= v.now
    && (v.stored.Some? ==>
          && w.stored.Some?
          && Moves(w.stored.value.status.plan, v.stored.value.status.plan, w.now)
          && Moves(w.stored.value.status.apply, v.stored.value.status.apply, w.now)
          && (w.stored.value.deleting ==> v.stored.value.deleting))
  }

  lemma ReconcileMoves(w: World, faults: Faults)
    ensures Moved(w, Reconcile(w, faults))
  {
    hide RunAll, Set;
    if w.stored.Some? {
      var r := Start(w, w.stored.value, faults);
      NormalSteady(r);
      DeletionSteady(r);
    }
  }

  lemma NextMoves(o: Owner, w: World, a: Action)
    ensures Moved(w, Next(o, w, a))
  {
    hide Reconcile;
    if a.Reconciles? {
      ReconcileMoves(w, a.faults);
    }
  }
}
