/** The drift controller (pkg/controller/drift/ensure.go): how often and how widely it triggers plans. */
module Drift {
  import opened Base
  import opened Labels
  import opened Jobs
  import opened Conditions
  import opened Cluster
  import opened Ensures
  import opened Runner
  import opened Runs
  import opened Frames
  import opened Safety
  import opened Exact
  import opened Quiescence
  import opened Progress
  import opened Stamps
  import opened Arrival
  import Decimal

  // ---- how many may run at once

  /** Another configuration, as far as its conditions are registered. */
  datatype Peer = Peer(plan: Option<Condition>, apply: Option<Condition>)

  /** The source looks at the apply condition only where there is no plan condition. */
  predicate IsRunning(p: Peer) {
    if p.plan.Some? then IsInProgress(p.plan.value) else p.apply.Some? && IsInProgress(p.apply.value)
  }

  function Running(peers: seq<Peer>): (n: nat) {
    if peers == [] then 0
    else Running(peers[..|peers| - 1]) + (if IsRunning(peers[|peers| - 1]) then 1 else 0)
  }

  method CountRunning(peers: seq<Peer>) returns (n: nat)
    ensures n == Running(peers)
  {
    n := 0;
    for i := 0 to |peers|
      invariant n == Running(peers[..i])
    {
      assert peers[..i + 1][..i] == peers[..i];
      var x := peers[i];
      if x.plan.None? && x.apply.None? { continue; }
      if x.plan.Some? {
        if x.plan.value.reason == InProgress { n := n + 1; }
      } else if x.apply.Some? {
        if x.apply.value.reason == InProgress { n := n + 1; }
      }
    }
    assert peers[..|peers|] == peers;
  }

  predicate IsWhole(x: real) {
    x.Floor as real == x
  }

  function Ceil(x: real): (n: int) {
    if IsWhole(x) then x.Floor else x.Floor + 1
  }

  /**
   The product is taken in floating point: some monotone rounding that keeps the integers up to n
   and keeps positive numbers positive.
   */
  ghost predicate Rounds(round: real -> real, n: nat) {
    && (forall x, y :: x <= y ==> round(x) <= round(y))
    && (forall x :: 0.0 <= x <= n as real && IsWhole(x) ==> round(x) == x)
    && (forall x :: x > 0.0 ==> round(x) > 0.0)
  }

  function Allowance(n: nat, threshold: real, round: real -> real): (a: int) {
    Ceil(round(n as real * threshold))
  }

  /**
   With a threshold strictly between 0 and 1, which the server insists on, a cluster of n >= 1
   configurations has an allowance between 1 and n; and fewer running than the allowance means
   strictly fewer than the threshold's share, however the product is rounded.
   */
  lemma AllowanceInRange(n: nat, threshold: real, round: real -> real, running: nat)
    requires 0.0 < threshold < 1.0 && n >= 1 && Rounds(round, n)
    ensures 1 <= Allowance(n, threshold, round) <= n
    ensures running < Allowance(n, threshold, round) ==> running as real < n as real * threshold
  {
    var x := n as real * threshold;
    assert 0.0 < x by { Positive(n as real, threshold); }
    assert x < n as real by { Positive(n as real, 1.0 - threshold); }
    assert round(x) <= round(n as real) == n as real;
    if x <= running as real && running <= n {
      assert round(x) <= round(running as real) == running as real;
    }
  }

  lemma Positive(a: real, b: real)
    requires a > 0.0 && b > 0.0
    ensures a * b > 0.0
  {
  }

  // ---- when a configuration is due

  /** Planned and applied at its generation, and both conditions at rest for an interval. */
  predicate Rested(c: Configuration, now: nat, interval: nat) {
    && IsComplete(c.status.plan, c.generation) && IsComplete(c.status.apply, c.generation)
    && c.status.plan.transition + interval <= now
    && c.status.apply.transition + interval <= now
  }

  predicate Due(c: Configuration, now: nat, interval: nat, running: nat, allowed: int) {
    && c.spec.driftDetection && !c.deleting
    && !IsFailed(c.status.plan, c.generation) && !IsFailed(c.status.apply, c.generation)
    && !IsInProgress(c.status.plan) && !IsInProgress(c.status.apply)
    && Rested(c, now, interval)
    && running < allowed
  }

  /** The cases of the source, in order. */
  method CheckDue(c: Configuration, now: nat, interval: nat, peers: seq<Peer>, threshold: real, round: real -> real)
    returns (due: bool)
    ensures due == Due(c, now, interval, Running(peers), Allowance(|peers|, threshold, round))
    ensures due && 0.0 < threshold < 1.0 && |peers| >= 1 && Rounds(round, |peers|) ==>
              Running(peers) as real < |peers| as real * threshold
  {
    hide Rounds, Ceil, IsComplete, IsFailed;
    var running := CountRunning(peers);
    var allowed := Ceil(round(|peers| as real * threshold));
    due := false;
    if !c.spec.driftDetection || c.deleting { return; }
    if IsFailed(c.status.plan, c.generation) { return; }
    if IsFailed(c.status.apply, c.generation) { return; }
    if IsInProgress(c.status.plan) { return; }
    if IsInProgress(c.status.apply) { return; }
    if !IsComplete(c.status.plan, c.generation) { return; }
    if !IsComplete(c.status.apply, c.generation) { return; }
    if c.status.plan.transition + interval > now { return; }
    if c.status.apply.transition + interval > now { return; }
    if running >= allowed { return; }
    due := true;
    ghost var n := |peers|;
    if 0.0 < threshold < 1.0 && n >= 1 && Rounds(round, n) {
      AllowanceInRange(n, threshold, round, running);
    }
  }

  // ---- how far apart triggers are

  /** Since the time `t`: each condition is still the one of `st`, or it has moved. */
  predicate Since(w: World, t: nat, st: ConfigurationStatus) {
    && t <= w.now
    && (w.stored.Some? ==>
          && (w.stored.value.status.plan == st.plan || t <= w.stored.value.status.plan.transition)
          && (w.stored.value.status.apply == st.apply || t <= w.stored.value.status.apply.transition))
  }

  predicate PlanMovedSince(w: World, t: nat) {
    t <= w.now && (w.stored.Some? ==> t <= w.stored.value.status.plan.transition)
  }

  predicate ApplyMovedSince(w: World, t: nat) {
    t <= w.now && (w.stored.Some? ==> t <= w.stored.value.status.apply.transition)
  }

  lemma {:induction false} SinceStays(o: Owner, w: World, actions: seq<Action>, t: nat, st: ConfigurationStatus)
    ensures Since(w, t, st) ==> Since(Execute(o, w, actions), t, st)
    ensures PlanMovedSince(w, t) ==> PlanMovedSince(Execute(o, w, actions), t)
    ensures ApplyMovedSince(w, t) ==> ApplyMovedSince(Execute(o, w, actions), t)
    ensures var v := Execute(o, w, actions); v.stored.Some? ==> w.stored.Some? && (w.stored.value.deleting ==> v.stored.value.deleting)
  {
    hide Next;
    if actions != [] {
      var n := |actions| - 1;
      SinceStays(o, w, actions[..n], t, st);
      NextMoves(o, Execute(o, w, actions[..n]), actions[n]);
    }
  }

  /**
   A configuration is never due within the interval of a move of its plan or apply condition,
   whatever happens before and after the move.
   */
  lemma MovesAreSpaced(o: Owner, w: World, before: seq<Action>, after: seq<Action>,
                       interval: nat, running: nat, allowed: int)
    requires w.stored.Some?
    requires var u := Execute(o, w, before); var v := Execute(o, u, after);
             && u.stored.Some?
             && (u.stored.value.status.plan != w.stored.value.status.plan || u.stored.value.status.apply != w.stored.value.status.apply)
             && v.stored.Some? && Due(v.stored.value, v.now, interval, running, allowed)
    ensures w.now + interval <= Execute(o, Execute(o, w, before), after).now
  {
    hide Execute;
    var st := w.stored.value.status;
    SinceStays(o, w, before, w.now, st);
    SinceStays(o, Execute(o, w, before), after, w.now, st);
  }

  /** The world after a trigger. */
  function Triggered(o: Owner, w: World): (v: World) {
    Next(o, w, DriftReconciled(true))
  }

  /**
   Two drift triggers on one configuration are at least the drift interval apart, whatever else
   happens before, between and after, if at some point between them the API server held a plan or
   apply condition other than the one the first trigger saw.
   */
  lemma TriggersAreSpaced(o: Owner, w: World, before: seq<Action>, after: seq<Action>,
                          interval: nat, running: nat, allowed: int)
    requires w.stored.Some?
    requires var u := Execute(o, Triggered(o, w), before); var v := Execute(o, u, after);
             && u.stored.Some?
             && (u.stored.value.status.plan != w.stored.value.status.plan || u.stored.value.status.apply != w.stored.value.status.apply)
             && v.stored.Some? && Due(v.stored.value, v.now, interval, running, allowed)
    ensures w.now + interval <= Execute(o, Execute(o, Triggered(o, w), before), after).now
  {
    hide Reconcile, Execute;
    MovesAreSpaced(o, Triggered(o, w), before, after, interval, running, allowed);
  }

  /**
   And only then: where the plan condition is still the one the first trigger saw, and the rest of
   what the controller looks at as well, the configuration is due again however early.
   */
  lemma UnmovedIsDue(w: World, v: World, interval: nat, running: nat, allowed: int)
    requires w.stored.Some? && v.stored.Some? && w.now <= v.now
    requires Due(w.stored.value, w.now, interval, running, allowed)
    requires var c, d := w.stored.value, v.stored.value;
             && d.status.plan == c.status.plan && d.status.apply == c.status.apply
             && d.generation == c.generation && d.spec == c.spec && d.deleting == c.deleting
    ensures Due(v.stored.value, v.now, interval, running, allowed)
  {
  }

  // ---- which reconciles move the stored plan condition

  /** The reconcile created a plan job. */
  predicate PlansAnew(w: World, v: World) {
    && |v.jobs| == |w.jobs| + 1
    && Get(v.jobs[|w.jobs|].labels, StageKey) == StageName(PlanStage)
  }

  /** One that created the plan job and stored its status does. */
  lemma CreationIsSeen(w: World, c: Configuration, faults: Faults)
    requires w.stored == Some(c) && !c.deleting && PatchStatus !in faults && PlansAnew(w, Reconcile(w, faults))
    ensures Reconcile(w, faults).stored.Some? && Reconcile(w, faults).stored.value.status.plan.status == StatusFalse
  {
    hide Body, DeedDue, StageName, Anchored;
    var d := OneDeed(w, c, faults);
    PlanOfConclusion(Body(w, faults), c);
    if d.CreatedApply? {
      ApplyIsApply(w, c, d);
      StageNameInjective(ApplyStage, PlanStage);
    }
  }

  lemma ApplyIsApply(w: World, c: Configuration, d: Deed)
    requires d.CreatedApply? && DeedDue(w, c, d)
    ensures Get(d.job.labels, StageKey) == StageName(ApplyStage)
  {
  }

  /** So does any later one that finds the plan job still running and stores its status. */
  lemma RunningIsSeen(w: World, c: Configuration, faults: Faults)
    requires w.stored == Some(c) && !c.deleting && PatchStatus !in faults
    requires BeforePlan(Start(w, c, faults)).outcome.Continue? && PlanByJobReached(BeforePlan(Start(w, c, faults)).run)
    requires PlanJob(w, c).Some? && IsActive(PlanJob(w, c).value)
    ensures Reconcile(w, faults).stored.Some? && Reconcile(w, faults).stored.value.status.plan.status == StatusFalse
  {
    hide RunAll, BeforePlan, TerraformPlan, FoundJob, PlanExtra, IsRetryable, RetryTime, Hash, PlanSettled, EntryOpen, Start, PlanJob,
         TerraformApply, ConnectionWritten, StatusRecorded, PlanByJobReached, Conclude, Did, Anchored;
    var r := Start(w, c, faults);
    NormalPhases(r);
    PlanStart(w, c, faults);
    RunningPlan(BeforePlan(r).run);
    StopsAtPlan(r);
    var d := OneDeed(w, c, faults);
    DidStores(w, c, Body(w, faults).run.w, d);
    PlanOfConclusion(Body(w, faults), c);
  }

  lemma RunningPlan(p: Run)
    requires PlanByJobReached(p) && FoundJob(p, PlanStage, PlanExtra(p)).Some? && IsActive(FoundJob(p, PlanStage, PlanExtra(p)).value)
    ensures !TerraformPlan(p).outcome.Continue? && TerraformPlan(p).run.c.status.plan.status == StatusFalse
  {
    hide FoundJob, PlanExtra, IsRetryable, RetryTime, DetectErrors, LaunchPlan, AskApproval;
  }

  /** The reconcile creates the plan job, or comes to its plan step and finds it running. */
  predicate SeesPlanJob(w: World, c: Configuration, faults: Faults) {
    || PlansAnew(w, Reconcile(w, faults))
    || (&& BeforePlan(Start(w, c, faults)).outcome.Continue? && PlanByJobReached(BeforePlan(Start(w, c, faults)).run)
        && PlanJob(w, c).Some? && IsActive(PlanJob(w, c).value))
  }

  /**
   So two drift triggers between which a plan job is created are at least the interval apart if the
   reconcile that created it, or any that found it running, got its status stored.
   */
  lemma SpacedByPlanJob(o: Owner, w: World, before: seq<Action>, faults: Faults, after: seq<Action>,
                        interval: nat, running: nat, allowed: int)
    requires w.stored.Some? && w.stored.value.status.plan.status == StatusTrue && PatchStatus !in faults
    requires var u := Execute(o, Triggered(o, w), before);
             && u.stored.Some? && SeesPlanJob(u, u.stored.value, faults)
             && (var v := Execute(o, Reconcile(u, faults), after);
                 v.stored.Some? && Due(v.stored.value, v.now, interval, running, allowed))
    ensures var u := Execute(o, Triggered(o, w), before);
            w.now + interval <= Execute(o, Reconcile(u, faults), after).now
  {
    hide Reconcile, BeforePlan, PlanJob, PlansAnew, Start, PlanByJobReached;
    var start := Triggered(o, w);
    var u := Execute(o, start, before);
    var c := u.stored.value;
    var m := Reconcile(u, faults);
    SinceStays(o, m, after, 0, c.status);
    ReconcileMoves(u, faults);
    if PlansAnew(u, m) {
      CreationIsSeen(u, c, faults);
    } else {
      RunningIsSeen(u, c, faults);
    }
    var all := before + [Reconciles(faults)];
    assert all[..|before|] == before;
    assert Execute(o, start, all) == m;
    TriggersAreSpaced(o, w, all, after, interval, running, allowed);
  }

  // ---- a run in which the spacing fails

  /** Any reconcile that loses its status patch leaves a configuration that was due still due. */
  lemma LostStatusStaysDue(w: World, c: Configuration, faults: Faults, interval: nat, running: nat, allowed: int)
    requires w.stored == Some(c) && Due(c, w.now, interval, running, allowed) && PatchStatus in faults
    ensures var v := Reconcile(w, faults);
            && v.stored.Some? && v.now == w.now
            && Due(v.stored.value, v.now, interval, running, allowed)
  {
    hide Body, DeedDue, Conclude, PlanSettled, RetryReadable;
    var d := OneDeed(w, c, faults);
  }

  /** Marked for drift, a configuration is not settled. */
  lemma MarkUnsettles(c: Configuration, now: nat)
    requires c.spec.driftDetection
    ensures !PlanSettled(DriftStamped(c, true, now))
  {
    hide IsRetryable, Decimal.Format;
  }

  /** The plan job is created even if the status will be lost. */
  lemma LostCreation(p: Run)
    requires PlanByJobReached(p) && FoundJob(p, PlanStage, PlanExtra(p)).None?
    requires (p.c.spec.autoApproval || NeedsApproval(p.c)) && OnlyStatus(p.faults) && p.w.stored.Some?
    ensures TerraformPlan(p).run.w.jobs == p.w.jobs + [NewJob(p, PlanStage, PlanExtra(p))] && !TerraformPlan(p).outcome.Continue?
  {
    hide FoundJob, PlanExtra, IsRetryable, RetryTime, DetectErrors, LaunchPlan, AskApproval, NewJob, PlanSettled;
    LaunchDeed(p);
  }

  /** A due configuration, reconcilable, with no plan job yet for the mark the trigger will put on it. */
  predicate Ripe(o: Owner, w: World, interval: nat, running: nat, allowed: int) {
    && w.stored.Some?
    && (var c, start := w.stored.value, Triggered(o, w);
        && Due(c, w.now, interval, running, allowed)
        && c.spec.autoApproval && Ours in c.finalizers && !HasRetry(c)
        && Read(c.annotations, ReconcileAnnotation) != "false"
        && HealthyInputs(c, w.inputs)
        && start.stored.Some? && Unblocked(start, start.stored.value) && PlanJob(start, start.stored.value).None?)
  }

  /**
   Without the status the spacing fails: trigger, then a reconcile that creates the plan job and
   loses its status patch, and the configuration is due again at that very moment.
   */
  lemma LostStatusBreaksSpacing(o: Owner, w: World, e: ApiError, interval: nat, running: nat, allowed: int)
    requires Ripe(o, w, interval, running, allowed)
    ensures var start := Triggered(o, w); var v := Reconcile(start, map[PatchStatus := e]);
            && PlansAnew(start, v)
            && v.now == w.now
            && v.stored.Some? && Due(v.stored.value, v.now, interval, running, allowed)
  {
    hide RunAll, BeforePlan, TerraformPlan, FoundJob, PlanExtra, IsRetryable, RetryTime, Hash, PlanSettled, EntryOpen, Start, PlanJob, NewJob,
         TerraformApply, ConnectionWritten, StatusRecorded, Conclude, HealthyInputs, Unblocked, Captured, Prepared, ExtraFor, MatchesLabels,
         StageFilter, DeedDue, StageName, RetryReadable, DriftStamped;
    var start := Triggered(o, w);
    var c := start.stored.value;
    var faults := map[PatchStatus := e];
    TriggeredIs(o, w);
    MarkUnsettles(w.stored.value, w.now);
    HealthyPrepared(start, c, faults);
    PlanStart(start, c, faults);
    var r := Start(start, c, faults);
    var p := BeforePlan(r).run;
    SameRetry(c, p.c);
    LostCreation(p);
    StopsAtPlan(r);
    NormalPhases(r);
    PlanLabelsSame(start, c, p);
    NewJobMatches(p, PlanStage, PlanExtra(p));
    var d := OneDeed(start, c, faults);
  }

  lemma TriggeredIs(o: Owner, w: World)
    requires w.stored.Some?
    ensures var c, d := w.stored.value, DriftStamped(w.stored.value, true, w.now);
            && Triggered(o, w) == w.(stored := Some(d))
            && d.status.plan == c.status.plan && d.status.apply == c.status.apply
            && d.generation == c.generation && d.spec == c.spec && d.deleting == c.deleting && d.finalizers == c.finalizers
            && HasRetry(d) == HasRetry(c)
            && Read(d.annotations, ReconcileAnnotation) == Read(c.annotations, ReconcileAnnotation)
            && (HealthyInputs(c, w.inputs) ==> HealthyInputs(d, w.inputs))
  {
    hide Decimal.Format;
  }
}
