/** A settled configuration stays as it is: reconciling it again changes nothing at all. */
module Quiescence {
  import opened Base
  import opened Jobs
  import opened Conditions
  import opened Cluster
  import opened Ensures
  import opened Runner
  import opened Frames
  import opened Effects
  import opened Exact
  import Json
  import Policies
  import ValueFrom

  // ---- the status at the end of a run that passed every step

  function NotedReady(r: Run): (d: Condition) {
    NoteUntyped(r, Values(r).untyped).c.status.ready
  }

  function FinalStatus(r: Run, p: Run, v: Run): (st: ConfigurationStatus)
    requires r.w.secrets.state.Some? && r.w.secrets.state.value.TfState?
  {
    var st, g, now := r.c.status, r.c.generation, r.w.now;
    st.(provider := Success(st.provider, g, ProviderReadyMessage, now),
        plan := if PlanSettled(p.c) then st.plan else Success(st.plan, g, PlanComplete, now),
        policy := Success(st.policy, g, PolicyMessage(v), now),
        apply := Success(st.apply, g, if NothingToDo(v) then NothingToApply else ApplyComplete, now),
        ready := Success(NotedReady(Captured(r)), g, ResourceReady, now),
        costs := r.w.inputs.costs,
        driftTimestamp := if r.c.spec.driftDetection then Read(r.c.annotations, DriftAnnotation) else st.driftTimestamp,
        resources := Some(r.w.secrets.state.value.resources),
        terraformVersion := r.w.secrets.state.value.version,
        resourceStatus := InSync)
  }

  function ConfigWritten(w: World, vars: map<string, Json.Value>): (v: World) {
    w.(secrets := w.secrets.(config := Some(vars)))
  }

  function AtReview(r: Run): (p: Run)
    requires RunsThrough(r)
  {
    PreparedRun(Captured(r))
  }

  function AtEnd(r: Run): (v: Run)
    requires RunsThrough(r)
  {
    ReviewedRun(PlanDone(AtReview(r)))
  }

  function FinalLocal(r: Run): (s: Local)
    requires r.w.inputs.template.Some? && r.w.secrets.planJson.Some? && r.w.secrets.planJson.value.TfPlan?
  {
    Local(r.w.jobs, r.w.inputs.policies, Values(r).values, r.w.inputs.template.value, r.w.inputs.provider,
          ChosenConstraint(r.w.inputs.policies), r.w.secrets.planJson, r.w.secrets.planJson.value.needsApply, None)
  }

  /** The prepared run, field by field. */
  lemma PreparedShape(r: Run)
    requires r.s == EMPTY_LOCAL && EntryOpen(r) && Prepared(Captured(r))
    ensures var p := PreparedRun(Captured(r)); var st := r.c.status;
            && p.w == ConfigWritten(r.w, VarsOf(r))
            && p.faults == r.faults
            && SameButStatus(r.c, p.c)
            && p.c.status == st.(provider := Success(st.provider, r.c.generation, ProviderReadyMessage, r.w.now),
                                 ready := NotedReady(Captured(r)),
                                 resourceStatus := if st.resourceStatus == UnknownStatus then OutOfSync else st.resourceStatus)
            && p.s == Local(r.w.jobs, r.w.inputs.policies, Values(r).values, r.w.inputs.template.value,
                            r.w.inputs.provider, ChosenConstraint(r.w.inputs.policies), None, false, None)
  {
    hide Set, Policies.FindMatchingPolicy, ValueFrom.Resolve, NoteUntyped, BrokenEntries, Blocks, EntryOpen, Prepared;
    assert r.w.inputs.template.Some? by { PreparedTemplate(Captured(r)); }
    var a := Captured(r);
    ValuesSame(r, a);
    ValuesFrame(a);
    NoteFrame(a, Values(a).untyped);
  }

  lemma PreparedTemplate(r: Run)
    requires Prepared(r)
    ensures r.w.inputs.template.Some?
  {
  }

  lemma ValuesSame(r: Run, a: Run)
    requires a.c.spec == r.c.spec && a.w.inputs == r.w.inputs && a.faults == r.faults
    ensures Values(a) == Values(r)
  {
    hide ValueFrom.Resolve;
    assert BrokenEntries(a) == BrokenEntries(r);
  }

  function VarsOf(r: Run): (m: map<string, Json.Value>) {
    JobVariables(r.(s := r.s.(valueFrom := Values(r).values)))
  }

  lemma FinalShape(r: Run)
    requires r.s == EMPTY_LOCAL && RunsThrough(r)
    ensures r.w.secrets.state.Some? && r.w.secrets.state.value.TfState?
    ensures r.w.secrets.planJson.Some? && r.w.secrets.planJson.value.TfPlan? && r.w.inputs.template.Some?
    ensures AtEnd(r).s == FinalLocal(r)
    ensures var q := Final(r);
            && q.w == ConfigWritten(r.w, VarsOf(r))
            && SameButStatus(r.c, q.c)
            && q.c.status == FinalStatus(r, AtReview(r), AtEnd(r))
  {
    hide Set, EntryOpen, Prepared, Captured, PreparedRun, PlanOpen, PlanSettled, ApplyOpen, NothingToDo, VarsOf,
         Values, NotedReady, ReportReachable, ChosenConstraint, SameButStatus;
    CapturedTemplate(r);
    PreparedShape(r);
    SameTrans(r.c, PreparedRun(Captured(r)).c, Final(r).c);
  }

  lemma CapturedTemplate(r: Run)
    requires Prepared(Captured(r))
    ensures r.w.inputs.template.Some? && Captured(r).w.inputs.template.Some?
  {
  }

  lemma SameTrans(a: Configuration, b: Configuration, c: Configuration)
    requires SameButStatus(a, b) && c == b.(status := c.status)
    ensures SameButStatus(a, c)
  {
  }

  // ---- reconciling again

  /** The configuration after the first reconcile, as the API server holds it. */
  function Settled(r: Run): (c: Configuration)
    requires RunsThrough(r)
  {
    Conclude(Step(Final(r), Continue), r.c)
  }

  /** The second reconcile starts where the first one ended, later and without faults. */
  function Again(r: Run, later: nat): (q: Run)
    requires RunsThrough(r)
  {
    Run(Settled(r), ConfigWritten(r.w, VarsOf(r)).(stored := Some(Settled(r)), now := later), EMPTY_LOCAL, map[])
  }

  /** A plan condition that is True was stored by an earlier, stamped reconcile. */
  predicate Stamped(c: Configuration, now: nat) {
    && 1 <= now
    && c.status.lastReconcile.time <= now
    && (c.status.plan.status == StatusTrue ==> c.status.lastReconcile.time != 0)
  }

  lemma SettledShape(r: Run)
    requires r.s == EMPTY_LOCAL && RunsThrough(r)
    ensures r.w.secrets.state.Some? && r.w.secrets.state.value.TfState?
    ensures var c := Settled(r); var st := FinalStatus(r, AtReview(r), AtEnd(r));
            && SameButStatus(r.c, c)
            && c.status.(lastReconcile := st.lastReconcile, lastSuccess := st.lastSuccess) == st
            && c.status.lastReconcile.generation == c.generation
            && c.status.lastSuccess.generation == c.generation
            && (c.status.lastReconcile == r.c.status.lastReconcile || c.status.lastReconcile.time == r.w.now)
  {
    hide Set, RunsThrough, Final, AtReview, AtEnd, SameButStatus, PolicyMessage, NothingToDo, NotedReady, PlanSettled;
    FinalShape(r);
    var q := Final(r);
    SuccessFixed(NotedReady(Captured(r)), r.c.generation, ResourceReady, r.w.now, r.w.now);
    SameTrans(r.c, q.c, Settled(r));
    assert q.c.generation == r.c.generation by { SameGeneration(r.c, q.c); }
  }

  lemma SameGeneration(c: Configuration, d: Configuration)
    requires SameButStatus(c, d)
    ensures c.generation == d.generation
  {
  }

  lemma SuccessFixed(d: Condition, g: nat, m: Message, now: nat, later: nat)
    ensures Success(Success(d, g, m, now), g, m, later) == Success(d, g, m, now)
  {
  }

  lemma {:induction false} UnbrokenAnyway(entries: seq<ValueFrom.Entry>, store: ValueFrom.Store, broken: set<nat>)
    requires ValueFrom.Resolve(entries, store, broken).stop.None?
    ensures ValueFrom.Resolve(entries, store, {}) == ValueFrom.Resolve(entries, store, broken)
  {
    if entries != [] {
      UnbrokenAnyway(entries[..|entries| - 1], store, broken);
    }
  }

  lemma AgainValues(r: Run, q: Run)
    requires Values(r).stop.None?
    requires q.c.spec == r.c.spec && q.w.inputs == r.w.inputs && q.faults == map[]
    ensures Values(q) == Values(r)
  {
    hide ValueFrom.Resolve;
    UnbrokenAnyway(r.c.spec.valueFrom, r.w.inputs.store, BrokenEntries(r));
    assert BrokenEntries(q) == {};
  }

  lemma AgainPrepared(r: Run, later: nat)
    requires r.s == EMPTY_LOCAL && RunsThrough(r)
    ensures var q := Again(r, later);
            EntryOpen(q) && Prepared(Captured(q)) && Values(q) == Values(r)
  {
    hide Set, PlanOpen, ApplyOpen, ApplyDone, PlanDone, PreparedRun, ReviewedRun, Reviewed, Recordable, Settled, Final,
         Policies.FindMatchingPolicy, ValueFrom.Resolve, Blocks, VarsOf, FinalStatus, AtReview, AtEnd;
    SettledShape(r);
    var q := Again(r, later);
    var a, b := Captured(r), Captured(q);
    ValuesSame(r, a);
    AgainValues(r, q);
    ValuesSame(q, b);
    forall j | j in b.s.jobs ensures !Blocks(b.c, j) {
      assert j in a.s.jobs;
      SameBlocks(a.c, b.c, j);
    }
  }

  /** Whether a retry is due can only change from yes to no as time goes by. */
  lemma RetryOnlyLapses(c: Configuration, d: Configuration)
    requires c.annotations == d.annotations
    requires c.status.lastReconcile.time <= d.status.lastReconcile.time
    requires c.status.lastReconcile.time != 0
    ensures IsRetryable(d) ==> IsRetryable(c)
  {
  }

  lemma SameRetry(c: Configuration, d: Configuration)
    requires c.annotations == d.annotations
    ensures HasRetry(c) == HasRetry(d) && RetryTime(c) == RetryTime(d) && NeedsApproval(c) == NeedsApproval(d)
  {
  }

  /** The same plan job is found again. */
  lemma SameFound(p: Run, q: Run)
    requires SameButStatus(p.c, q.c) && p.s.jobs == q.s.jobs && p.s.templateHash == q.s.templateHash
    ensures FoundJob(p, PlanStage, PlanExtra(p)) == FoundJob(q, PlanStage, PlanExtra(q))
    ensures PlanId(p) == PlanId(q) ==> FoundJob(p, ApplyStage, ApplyExtra(p)) == FoundJob(q, ApplyStage, ApplyExtra(q))
  {
  }

  /** A plan step that passes with the condition settled passes again. */
  lemma AgainSettled(p: Configuration, q: Configuration, now: nat)
    requires PlanSettled(p) && SameButStatus(p, q) && q.status.plan == p.status.plan
    requires Stamped(p, now) && p.status.lastReconcile.time <= q.status.lastReconcile.time
    ensures PlanSettled(q)
  {
    hide RetryTime;
    RetryOnlyLapses(p, q);
  }

  /** The plan step of the second reconcile passes and leaves the plan condition alone. */
  lemma AgainPlan(p: Run, q: Run)
    requires PlanOpen(p)
    requires SameButStatus(p.c, q.c) && p.s.jobs == q.s.jobs && p.s.templateHash == q.s.templateHash && q.faults == map[]
    requires Stamped(p.c, p.w.now) && p.c.status.lastReconcile.time <= q.c.status.lastReconcile.time
    requires q.c.status.plan == PlanDone(p).c.status.plan
    ensures PlanOpen(q)
    ensures PlanDone(q) == q
  {
    hide FoundJob, PlanExtra, RetryTime, IsRetryable, Set, PlanSettled, Stamped;
    SameFound(p, q);
    SameRetry(p.c, q.c);
    SettledIs(p.c);
    SettledIs(q.c);
    if PlanSettled(p.c) {
      AgainSettled(p.c, q.c, p.w.now);
    } else {
      var d, g := p.c.status.plan, p.c.generation;
      SuccessFixed(d, g, PlanComplete, p.w.now, q.w.now);
      SuccessIs(d, g, PlanComplete, p.w.now);
      PlanFrame(q);
      assert PlanDone(q).c.status == q.c.status;
    }
  }

  lemma SettledIs(c: Configuration)
    ensures PlanSettled(c) ==> !IsFailed(c.status.plan, c.generation)
  {
    hide IsRetryable;
  }

  lemma SuccessIs(d: Condition, g: nat, m: Message, now: nat)
    ensures var e := Success(d, g, m, now);
            e.status == StatusTrue && e.reason == Ready && e.observed == g && e.message == m
  {
  }

  // ---- the second run, to its end

  lemma ThroughParts(r: Run)
    requires RunsThrough(r)
    ensures EntryOpen(r) && Prepared(Captured(r))
    ensures PlanOpen(AtReview(r)) && Reviewed(PlanDone(AtReview(r)))
    ensures ApplyOpen(AtEnd(r)) && Recordable(ApplyDone(AtEnd(r)))
  {
    hide EntryOpen, Prepared, Captured, PreparedRun, PlanOpen, PlanDone, Reviewed, ReviewedRun, ApplyOpen, ApplyDone, Recordable;
  }

  lemma ReviewIs(r: Run)
    requires RunsThrough(r)
    ensures Captured(r).w.inputs.template.Some? && AtReview(r) == PreparedRun(Captured(r))
    ensures Reviewed(PlanDone(AtReview(r))) && AtEnd(r) == ReviewedRun(PlanDone(AtReview(r)))
  {
    hide PreparedRun, PlanOpen, PlanDone, ReviewedRun, ApplyOpen, ApplyDone, Recordable;
    CapturedTemplate(r);
  }

  lemma PlanFrame(p: Run)
    ensures var d := PlanDone(p);
            && d.w == p.w && d.s == p.s && d.faults == p.faults
            && SameButStatus(p.c, d.c)
            && d.c.status.(plan := p.c.status.plan) == p.c.status
            && d.c.status.plan == if PlanSettled(p.c) then p.c.status.plan
                                  else Success(p.c.status.plan, p.c.generation, PlanComplete, p.w.now)
  {
    hide Set, PlanSettled;
  }

  lemma AgainReview(p: Run, q: Run)
    requires Reviewed(PlanDone(p))
    requires p.s.constraint == q.s.constraint && p.w.inputs == q.w.inputs && q.faults == map[]
    requires p.w.secrets.planJson == q.w.secrets.planJson && p.w.secrets.report == q.w.secrets.report
    ensures Reviewed(q)
  {
    hide PlanDone, WellFormed, CountedFailures;
    PlanFrame(p);
  }

  /** Two runs that agree on all the apply step looks at. */
  predicate AlikeForApply(v: Run, w: Run) {
    && SameButStatus(v.c, w.c)
    && v.s.jobs == w.s.jobs && v.s.templateHash == w.s.templateHash
    && v.s.plan == w.s.plan && v.s.hasDrift == w.s.hasDrift
    && v.w.secrets.state == w.w.secrets.state
    && v.w.inputs == w.w.inputs
  }

  lemma AgainApply(v: Run, w: Run)
    requires ApplyOpen(v) && Recordable(ApplyDone(v)) && AlikeForApply(v, w) && w.faults == map[]
    ensures ApplyOpen(w) && Recordable(ApplyDone(w))
    ensures NothingToDo(v) == NothingToDo(w)
  {
    hide FoundJob, ApplyExtra, Set;
    assert PlanId(v) == PlanId(w);
    SameFound(v, w);
  }

  lemma ReviewedFrame(p: Run)
    requires Reviewed(p)
    ensures p.w.secrets.planJson.Some? && p.w.secrets.planJson.value.TfPlan?
    ensures var v := ReviewedRun(p);
            && v.w == p.w && v.faults == p.faults
            && SameButStatus(p.c, v.c)
            && v.s == p.s.(plan := p.w.secrets.planJson, hasDrift := p.w.secrets.planJson.value.needsApply)
  {
    hide Set, ReportReachable, ReviewedStatus;
  }

  lemma ThroughFrom(q: Run)
    requires EntryOpen(q) && Prepared(Captured(q))
    requires Captured(q).w.inputs.template.Some?
    requires var p := PreparedRun(Captured(q));
             && PlanOpen(p) && PlanDone(p) == p && Reviewed(p)
             && ApplyOpen(ReviewedRun(p)) && Recordable(ApplyDone(ReviewedRun(p)))
    ensures RunsThrough(q)
    ensures AtReview(q) == PreparedRun(Captured(q)) && AtEnd(q) == ReviewedRun(AtReview(q))
  {
    hide EntryOpen, Prepared, Captured, PreparedRun, PlanOpen, PlanDone, Reviewed, ReviewedRun, ApplyOpen, ApplyDone, Recordable;
  }

  /** The second reconcile passes every step, up to its last state. */
  lemma AgainSteps(r: Run, later: nat)
    requires r.s == EMPTY_LOCAL && RunsThrough(r) && Stamped(r.c, r.w.now) && r.w.now <= later
    ensures var q := Again(r, later);
            && RunsThrough(q)
            && AtEnd(q) == ReviewedRun(AtReview(q)) && PlanDone(AtReview(q)) == AtReview(q)
            && NothingToDo(AtEnd(q)) == NothingToDo(AtEnd(r))
            && AtEnd(q).s.constraint == AtEnd(r).s.constraint
            && Values(q) == Values(r)
  {
    hide Set, RunsThrough, PlanSettled, EntryOpen, Prepared, Captured, PreparedRun, PlanOpen, ApplyOpen, Settled, Final,
         VarsOf, Values, NotedReady, ChosenConstraint, FinalStatus, AtReview, AtEnd, FoundJob, PlanExtra, ApplyExtra, PlanDone,
         WellFormed, CountedFailures, Reviewed, ReviewedRun, Recordable, ApplyDone, NothingToDo, FinalLocal;
    var q := Again(r, later);
    SettledShape(r);
    ThroughParts(r);
    ReviewIs(r);
    AgainPrepared(r, later);
    PreparedShape(r);
    PreparedShape(q);
    CapturedTemplate(q);
    var p, pq := PreparedRun(Captured(r)), PreparedRun(Captured(q));
    PlanFrame(p);
    FinalPlanIs(r, p);
    AgainPlan(p, pq);
    AgainReview(p, pq);
    ReviewedFrame(PlanDone(p));
    ReviewedFrame(pq);
    AgainApply(AtEnd(r), ReviewedRun(pq));
    ThroughFrom(q);
  }

  lemma FinalPlanIs(r: Run, p: Run)
    requires r.w.secrets.state.Some? && r.w.secrets.state.value.TfState? && RunsThrough(r)
    requires AtReview(r) == p && p.c.status.plan == r.c.status.plan && p.c.generation == r.c.generation && p.w.now == r.w.now
    ensures FinalStatus(r, p, AtEnd(r)).plan == PlanDone(p).c.status.plan
  {
    hide Set, RunsThrough, PlanSettled, AtReview, AtEnd, NotedReady, PolicyMessage, NothingToDo;
  }

  /** The status it ends with is the one it started from, but for the Ready condition. */
  lemma AgainStatus(r: Run, later: nat)
    requires r.s == EMPTY_LOCAL && RunsThrough(r) && Stamped(r.c, r.w.now) && r.w.now <= later
    ensures RunsThrough(Again(r, later))
    ensures var q := Again(r, later);
            && Final(q).w == q.w
            && SameButStatus(q.c, Final(q).c)
            && Final(q).c.status == q.c.status.(ready := Success(NotedReady(Captured(q)), q.c.generation, ResourceReady, later))
  {
    hide Set, Success, RunsThrough, PlanSettled, EntryOpen, Prepared, Captured, PreparedRun, Settled, Final,
         VarsOf, Values, NotedReady, AtReview, AtEnd, FoundJob, PlanDone, Reviewed, ReviewedRun, NothingToDo, FinalLocal;
    var q := Again(r, later);
    AgainSteps(r, later);
    FinalShape(q);
    SettledShape(r);
    var st, g, now := r.c.status, r.c.generation, r.w.now;
    SuccessFixed(st.provider, g, ProviderReadyMessage, now, later);
    SuccessFixed(st.policy, g, PolicyMessage(AtEnd(r)), now, later);
    SuccessFixed(st.apply, g, if NothingToDo(AtEnd(r)) then NothingToApply else ApplyComplete, now, later);
    PreparedPlan(q);
    PlanFrame(AtReview(q));
    AgainVars(r, q);
  }

  lemma PreparedPlan(q: Run)
    requires q.s == EMPTY_LOCAL && RunsThrough(q)
    ensures var p := AtReview(q);
            p.c.status.plan == q.c.status.plan && p.c.generation == q.c.generation && p.w.now == q.w.now
  {
    hide RunsThrough, Set, EntryOpen, Prepared, Captured, PreparedRun, VarsOf, NotedReady, Values, ChosenConstraint;
    ThroughParts(q);
    ReviewIs(q);
    PreparedShape(q);
  }

  lemma AgainVars(r: Run, q: Run)
    requires r.s == q.s && q.c.spec == r.c.spec && q.c.owner == r.c.owner && q.w.inputs == r.w.inputs && Values(q) == Values(r)
    ensures VarsOf(q) == VarsOf(r)
  {
    hide Values;
  }

  // ---- the theorem

  lemma {:induction false} NotedIsError(r: Run, untyped: seq<nat>)
    requires untyped != []
    ensures NoteUntyped(r, untyped).c.status.ready.reason == Error
  {
    var n := |untyped| - 1;
    NoteFrame(r, untyped[..n]);
  }

  /** An entry without a source turns Ready to Error and back on every reconcile. */
  lemma ReadyToggles(r: Run)
    requires Values(r).untyped != []
    ensures Success(NotedReady(Captured(r)), r.c.generation, ResourceReady, r.w.now).transition == r.w.now
  {
    hide ValueFrom.Resolve, BrokenEntries, NoteUntyped;
    ValuesSame(r, Captured(r));
    NotedIsError(Captured(r), Values(r).untyped);
  }

  lemma ReadyRests(r: Run)
    requires Values(r).untyped == []
    ensures NotedReady(Captured(r)) == r.c.status.ready
  {
    hide ValueFrom.Resolve, BrokenEntries;
    ValuesSame(r, Captured(r));
  }

  lemma StampedReconciles(w: World, faults: Faults)
    requires w.stored.Some? && !IsDeletionCandidate(w.stored.value) && PatchStatus !in faults
    requires Body(w, faults).outcome.Continue?
    ensures var r := Start(w, w.stored.value, faults);
            && r.s == EMPTY_LOCAL
            && RunsThrough(r)
            && Reconcile(w, faults) == ConfigWritten(w, VarsOf(r)).(stored := Some(Settled(r)))
  {
    hide RunAll, RunsThrough, Final, VarsOf, Conclude;
    var c := w.stored.value;
    var r := Start(w, c, faults);
    NormalExact(r);
    FinalShape(r);
    assert SameButStatus(c, Conclude(Step(Final(r), Continue), c)) by {
      ConcludeShape(Step(Final(r), Continue), c);
    }
  }

  lemma ConcludeShape(x: Step, original: Configuration)
    requires SameButStatus(original, x.run.c)
    ensures SameButStatus(original, Conclude(x, original))
  {
    hide Set, Restamp;
  }

  /**
   Quiescence.  After a reconcile that ran to the end, one at a later time with nothing else
   changed creates no job and leaves the whole world equal -- every condition with its transition
   time, LastReconcile, LastSuccess, annotations, secrets -- exactly when every valueFrom entry
   names a source.  An entry that names none, which the loop reports and then skips, makes the
   Ready condition fall to Error and recover on every reconcile, so its time never rests.
   */
  lemma Quiescent(w: World, faults: Faults, later: nat)
    requires w.stored.Some? && !IsDeletionCandidate(w.stored.value) && PatchStatus !in faults
    requires Stamped(w.stored.value, w.now) && w.now < later
    requires Body(w, faults).outcome.Continue?
    ensures var v := Reconcile(w, faults).(now := later);
            && Reconcile(v, map[]).jobs == v.jobs && Reconcile(v, map[]).log == v.log
            && (Reconcile(v, map[]) == v <==> forall e :: e in w.stored.value.spec.valueFrom ==> !e.source.NoSource?)
  {
    hide RunAll, RunsThrough, Final, VarsOf, Set, Success, NotedReady, Captured, Settled, Values, Body, Conclude;
    var r := Start(w, w.stored.value, faults);
    StampedReconciles(w, faults);
    SettledShape(r);
    var q := Again(r, later);
    var v := Reconcile(w, faults).(now := later);
    assert v == q.w;
    AgainStatus(r, later);
    SecondReconcile(q);
    UntypedIs(r);
    AgainReady(r, q, later);
  }

  lemma UntypedIs(r: Run)
    requires RunsThrough(r) && r.s == EMPTY_LOCAL
    ensures Values(r).untyped == [] <==> forall e :: e in r.c.spec.valueFrom ==> !e.source.NoSource?
  {
    hide ValueFrom.Resolve, BrokenEntries, PlanOpen, PreparedRun, PlanDone, Reviewed, ReviewedRun, ApplyOpen, ApplyDone, Recordable;
    ValuesSame(r, Captured(r));
    ValueFrom.UntypedReported(r.c.spec.valueFrom, r.w.inputs.store, BrokenEntries(r));
  }

  lemma AgainReady(r: Run, q: Run, later: nat)
    requires r.s == EMPTY_LOCAL && RunsThrough(r) && Stamped(r.c, r.w.now) && r.w.now < later && q == Again(r, later)
    ensures Values(q) == Values(r)
    ensures var ready := Success(NotedReady(Captured(q)), q.c.generation, ResourceReady, later);
            ready == q.c.status.ready <==> Values(r).untyped == []
  {
    hide RunsThrough, Final, VarsOf, NotedReady, Captured, Settled, Values, Set, Success, FinalStatus, AtReview, AtEnd;
    AgainSteps(r, later);
    SettledShape(r);
    FinalReady(r);
    if Values(r).untyped == [] {
      ReadyRests(q);
      SuccessFixed(NotedReady(Captured(r)), r.c.generation, ResourceReady, r.w.now, later);
    } else {
      ReadyToggles(r);
      ReadyToggles(q);
    }
  }

  lemma FinalReady(r: Run)
    requires r.w.secrets.state.Some? && r.w.secrets.state.value.TfState? && RunsThrough(r)
    ensures FinalStatus(r, AtReview(r), AtEnd(r)).ready == Success(NotedReady(Captured(r)), r.c.generation, ResourceReady, r.w.now)
  {
    hide Set, Success, RunsThrough, PlanSettled, AtReview, AtEnd, NotedReady, PolicyMessage, NothingToDo;
  }

  lemma SecondReconcile(q: Run)
    requires RunsThrough(q) && q == Start(q.w, q.c, map[]) && q.w.stored == Some(q.c) && !IsDeletionCandidate(q.c)
    requires Final(q).w == q.w && SameButStatus(q.c, Final(q).c)
    requires Final(q).c.status == q.c.status.(ready := Success(NotedReady(Captured(q)), q.c.generation, ResourceReady, q.w.now))
    requires q.c.status.lastReconcile.generation == q.c.generation && q.c.status.lastSuccess.generation == q.c.generation
    ensures var u := Reconcile(q.w, map[]);
            && u.(stored := q.w.stored) == q.w
            && u.stored.Some?
            && (u == q.w <==> Final(q).c.status.ready == q.c.status.ready)
  {
    hide RunAll, RunsThrough, Final, NotedReady, Captured, IsDeletionCandidate;
    NormalExact(q);
    var f := Final(q);
    var g := f.c.generation;
    assert Body(q.w, map[]) == Step(f, Continue);
    SuccessFixed(NotedReady(Captured(q)), g, ResourceReady, q.w.now, q.w.now);
    if f.c.status.ready == q.c.status.ready {
      assert f.c == q.c;
    }
  }
}
