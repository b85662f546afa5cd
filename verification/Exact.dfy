/** For each step, exactly when it lets the next one start, and what the reconcile looks like then. */
module Exact {
  import opened Base
  import opened Jobs
  import opened Conditions
  import opened Cluster
  import opened Ensures
  import opened Runner
  import opened Frames
  import opened Effects
  import Policies
  import ValueFrom

  // ---- preparation

  predicate EntryOpen(r: Run) {
    && (r.c.deleting || Ours in r.c.finalizers)
    && Read(r.c.annotations, ReconcileAnnotation) != "false"
    && r.w.inputs.gates.captured.Open?
  }

  /** After the captured state: an unknown resource status has become out of sync. */
  function Captured(r: Run): (q: Run) {
    var st := r.c.status;
    Update(r, st.(resourceStatus := if st.resourceStatus == UnknownStatus then OutOfSync else st.resourceStatus))
      .(s := r.s.(jobs := r.w.jobs, policies := r.w.inputs.policies))
  }

  lemma EntryExact(r: Run)
    ensures AtCapture(r).outcome.Continue? <==> EntryOpen(r)
    ensures EntryOpen(r) ==> AtCapture(r).run == Captured(r)
  {
    hide Set;
  }

  function Values(r: Run): (v: ValueFrom.Resolution) {
    ValueFrom.Resolve(r.c.spec.valueFrom, r.w.inputs.store, BrokenEntries(r))
  }

  predicate ProviderReachable(r: Run) {
    && GetProvider !in r.faults
    && ProviderOk(r.w.inputs)
    && (r.w.inputs.provider.value.selector.Selects? ==> GetNamespace !in r.faults && EvaluateSelector !in r.faults)
  }

  predicate PolicyReachable(r: Run) {
    && ReadConfigSecret !in r.faults
    && (r.s.policies != [] ==> GetPolicyNamespace !in r.faults)
    && !Policies.FindMatchingPolicy(r.s.policies).BadSelector?
    && !Policies.FindMatchingPolicy(r.s.policies).Ambiguous?
    && WriteConfigSecret !in r.faults
  }

  predicate GatesOpen(r: Run) {
    && r.w.inputs.gates.costSecret.Open?
    && r.w.inputs.gates.auth.Open?
    && r.w.inputs.gates.backend.Open?
    && r.w.inputs.gates.defaults.Open?
  }

  predicate TemplateReachable(r: Run) {
    && (r.w.inputs.customTemplate ==> GetTemplate !in r.faults)
    && r.w.inputs.template.Some?
  }

  predicate Prepared(r: Run) {
    && !(exists j :: j in r.s.jobs && Blocks(r.c, j))
    && GatesOpen(r)
    && Values(r).stop.None?
    && TemplateReachable(r)
    && ProviderReachable(r)
    && PolicyReachable(r)
  }

  function ChosenConstraint(policies: seq<Policies.Policy>): (k: Option<Policies.Constraint>) {
    var m := Policies.FindMatchingPolicy(policies);
    if m.Governing? then Some(m.constraint) else None
  }

  function ValuesDone(r: Run): (q: Run) {
    var q := NoteUntyped(r, Values(r).untyped);
    q.(s := q.s.(valueFrom := Values(r).values))
  }

  function ProviderDone(r: Run): (q: Run) {
    SetProvider(r.(s := r.s.(provider := r.w.inputs.provider)),
                Success(r.c.status.provider, r.c.generation, ProviderReadyMessage, r.w.now))
  }

  function SecretDone(r: Run): (q: Run) {
    r.(s := r.s.(constraint := ChosenConstraint(r.s.policies)),
       w := r.w.(secrets := r.w.secrets.(config := Some(JobVariables(r)))))
  }

  function TemplateDone(r: Run): (q: Run)
    requires r.w.inputs.template.Some?
  {
    r.(s := r.s.(templateHash := r.w.inputs.template.value))
  }

  /** The reconcile as the plan step finds it. */
  function PreparedRun(r: Run): (q: Run)
    requires r.w.inputs.template.Some?
  {
    var v := ValuesDone(r);
    if v.w.inputs.template.Some? then SecretDone(ProviderDone(TemplateDone(v))) else v
  }

  lemma GateExact(r: Run, g: Gate, n: nat)
    ensures PassGate(r, g, n).outcome.Continue? <==> g.Open?
    ensures g.Open? ==> PassGate(r, g, n) == Step(r, Continue)
  {
    hide Set;
  }

  lemma ActivityExact(r: Run)
    ensures NoActivity(r).outcome.Continue? <==> !(exists j :: j in r.s.jobs && Blocks(r.c, j))
    ensures NoActivity(r).run == r
  {
    hide Blocks;
  }

  lemma ValuesExact(r: Run)
    ensures ValuesResolved(r).outcome.Continue? <==> Values(r).stop.None?
    ensures Values(r).stop.None? ==> ValuesResolved(r).run == ValuesDone(r)
  {
    hide Set, ValueFrom.Resolve, NoteUntyped, BrokenEntries;
  }

  lemma TemplateExact(r: Run)
    ensures TemplateLoaded(r).outcome.Continue? <==> TemplateReachable(r)
    ensures TemplateReachable(r) ==> TemplateLoaded(r).run == TemplateDone(r)
  {
    hide Set;
  }

  lemma ProviderExact(r: Run)
    ensures ProviderUsable(r).outcome.Continue? <==> ProviderReachable(r)
    ensures ProviderReachable(r) ==> ProviderUsable(r).run == ProviderDone(r)
  {
    hide Set;
  }

  lemma SecretExact(r: Run)
    ensures ConfigSecretWritten(r).outcome.Continue? <==> PolicyReachable(r)
    ensures PolicyReachable(r) ==> ConfigSecretWritten(r).run == SecretDone(r)
  {
    hide Set, Policies.FindMatchingPolicy, JobVariables;
  }

  lemma PreparationDispatch(r: Run)
    ensures Perform(EnsureNoActivity, r) == NoActivity(r)
    ensures Perform(EnsureValueFromSecret, r) == ValuesResolved(r)
    ensures Perform(EnsureCustomJobTemplate, r) == TemplateLoaded(r)
    ensures Perform(EnsureProviderReady, r) == ProviderUsable(r)
    ensures Perform(EnsureJobConfigurationSecret, r) == ConfigSecretWritten(r)
  {
    hide FinalizerPresent, ReconcileAllowed, CapturedState, NoActivity, PassGate, ValuesResolved, TemplateLoaded,
         ProviderUsable, ConfigSecretWritten, TerraformPlan, PlanSecretRead, CostsRecorded, PolicyChecked,
         DriftChecked, TerraformApply, ConnectionWritten, StatusRecorded, TerraformDestroy, DeleteSecrets,
         JobsDeleted, FinalizerRemoved;
  }

  lemma GateDispatch(r: Run)
    ensures Perform(EnsureCostSecret, r) == PassGate(r, r.w.inputs.gates.costSecret, 1)
    ensures Perform(EnsureAuthenticationSecret, r) == PassGate(r, r.w.inputs.gates.auth, 2)
    ensures Perform(EnsureCustomBackendTemplate, r) == PassGate(r, r.w.inputs.gates.backend, 3)
    ensures Perform(EnsurePolicyDefaultsExist, r) == PassGate(r, r.w.inputs.gates.defaults, 4)
  {
    hide FinalizerPresent, ReconcileAllowed, CapturedState, NoActivity, PassGate, ValuesResolved, TemplateLoaded,
         ProviderUsable, ConfigSecretWritten, TerraformPlan, PlanSecretRead, CostsRecorded, PolicyChecked,
         DriftChecked, TerraformApply, ConnectionWritten, StatusRecorded, TerraformDestroy, DeleteSecrets,
         JobsDeleted, FinalizerRemoved;
  }

  /** One step of a list: it stops the list, or the list goes on from where it left. */
  lemma Advance(e: Ensure, rest: seq<Ensure>, r: Run)
    ensures var x := Perform(e, r);
            && (!x.outcome.Continue? ==> RunAll([e] + rest, r) == x)
            && (x.outcome.Continue? ==> RunAll([e] + rest, r) == RunAll(rest, x.run))
  {
    hide Perform;
    assert ([e] + rest)[1..] == rest;
  }

  /** A gate in a list stops it or is passed without a trace. */
  lemma GateInList(e: Ensure, rest: seq<Ensure>, r: Run, g: Gate, n: nat)
    requires Perform(e, r) == PassGate(r, g, n)
    ensures RunAll([e] + rest, r).outcome.Continue? <==> g.Open? && RunAll(rest, r).outcome.Continue?
    ensures g.Open? ==> RunAll([e] + rest, r) == RunAll(rest, r)
  {
    hide Perform, RunAll, PassGate;
    GateExact(r, g, n);
    Advance(e, rest, r);
  }

  lemma ValuesFrame(r: Run)
    ensures var q := ValuesDone(r);
            && q.w == r.w && q.faults == r.faults
            && q.s == r.s.(valueFrom := Values(r).values)
            && SameButStatus(r.c, q.c)
            && q.c.status.(ready := r.c.status.ready) == r.c.status
            && (Values(r).untyped == [] ==> q.c == r.c)
  {
    hide ValueFrom.Resolve, BrokenEntries;
    NoteFrame(r, Values(r).untyped);
  }

  lemma {:induction false} NoteFrame(r: Run, untyped: seq<nat>)
    ensures var q := NoteUntyped(r, untyped);
            && q.w == r.w && q.faults == r.faults && q.s == r.s
            && SameButStatus(r.c, q.c)
            && q.c.status.(ready := r.c.status.ready) == r.c.status
            && (untyped == [] ==> q.c == r.c)
  {
    hide Set;
    if untyped != [] {
      NoteFrame(r, untyped[..|untyped| - 1]);
    }
  }

  lemma PreparationExact(r: Run)
    ensures RunAll(PREPARATION, r).outcome.Continue? <==> Prepared(r)
    ensures Prepared(r) ==> RunAll(PREPARATION, r).run == PreparedRun(r)
  {
    hide Perform, RunAll, NoActivity, PassGate, ValuesResolved, TemplateLoaded, ProviderUsable, ConfigSecretWritten,
         ValuesDone, ProviderDone, SecretDone, Values, ProviderReachable, PolicyReachable, Blocks;
    var l9 := [EnsureJobConfigurationSecret];
    var l8 := [EnsurePolicyDefaultsExist] + l9;
    var l7 := [EnsureCustomBackendTemplate] + l8;
    var l6 := [EnsureProviderReady] + l7;
    var l5 := [EnsureCustomJobTemplate] + l6;
    var l4 := [EnsureAuthenticationSecret] + l5;
    var l3 := [EnsureValueFromSecret] + l4;
    var l2 := [EnsureCostSecret] + l3;
    assert PREPARATION == [EnsureNoActivity] + l2;
    PreparationDispatch(r);
    GateDispatch(r);
    ActivityExact(r);
    Advance(EnsureNoActivity, l2, r);
    GateInList(EnsureCostSecret, l3, r, r.w.inputs.gates.costSecret, 1);
    ValuesExact(r);
    Advance(EnsureValueFromSecret, l4, r);
    var v := ValuesDone(r);
    ValuesFrame(r);
    PreparationDispatch(v);
    GateDispatch(v);
    GateInList(EnsureAuthenticationSecret, l5, v, r.w.inputs.gates.auth, 2);
    TemplateExact(v);
    Advance(EnsureCustomJobTemplate, l6, v);
    if r.w.inputs.template.Some? {
      TailExact(r, TemplateDone(v), l7, l8, l9);
    }
  }

  lemma TailExact(r: Run, t: Run, l7: seq<Ensure>, l8: seq<Ensure>, l9: seq<Ensure>)
    requires l9 == [EnsureJobConfigurationSecret] && l8 == [EnsurePolicyDefaultsExist] + l9
    requires l7 == [EnsureCustomBackendTemplate] + l8
    requires t.w == r.w && t.faults == r.faults && t.s.policies == r.s.policies
    ensures RunAll([EnsureProviderReady] + l7, t).outcome.Continue? <==>
              && ProviderReachable(r)
              && r.w.inputs.gates.backend.Open? && r.w.inputs.gates.defaults.Open?
              && PolicyReachable(r)
    ensures RunAll([EnsureProviderReady] + l7, t).outcome.Continue? ==>
              RunAll([EnsureProviderReady] + l7, t).run == SecretDone(ProviderDone(t))
  {
    hide Perform, RunAll, PassGate, ProviderUsable, ConfigSecretWritten, SecretDone;
    PreparationDispatch(t);
    ProviderExact(t);
    Advance(EnsureProviderReady, l7, t);
    var p := ProviderDone(t);
    PreparationDispatch(p);
    GateDispatch(p);
    GateInList(EnsureCustomBackendTemplate, l8, p, r.w.inputs.gates.backend, 3);
    GateInList(EnsurePolicyDefaultsExist, l9, p, r.w.inputs.gates.defaults, 4);
    SecretExact(p);
    OneStep(EnsureJobConfigurationSecret, p);
  }

  // ---- plan, review, apply

  /** The plan step consults a job, and the job it finds is complete. */
  predicate PlanJobDone(r: Run) {
    && RenderJob(PlanStage) !in r.faults
    && FoundJob(r, PlanStage, PlanExtra(r)).Some?
    && FoundJob(r, PlanStage, PlanExtra(r)).value.complete
  }

  predicate PlanOpen(r: Run) {
    && !(HasRetry(r.c) && RetryTime(r.c).None?)
    && (IsRetryable(r.c) || !IsFailed(r.c.status.plan, r.c.generation))
    && (PlanSettled(r.c) || PlanJobDone(r))
  }

  function PlanDone(r: Run): (q: Run) {
    if PlanSettled(r.c) then r
    else SetPlan(r, Success(r.c.status.plan, r.c.generation, PlanComplete, r.w.now))
  }

  lemma PlanExact(r: Run)
    ensures TerraformPlan(r).outcome.Continue? <==> PlanOpen(r)
    ensures PlanOpen(r) ==> TerraformPlan(r).run == PlanDone(r)
  {
    hide Set, AskApproval, LaunchPlan, DetectErrors, IsRetryable, RetryTime, FoundJob, PlanExtra;
    AskEffect(r);
    DetectEffect(PlanFail(r, None, PlanFailed));
    assert !LaunchPlan(r).outcome.Continue? by { LaunchStops(r); }
  }

  predicate ReportReachable(r: Run) {
    r.s.constraint.Some? ==>
      && GetReport !in r.faults && CopyReport !in r.faults
      && r.w.secrets.report.Some?
      && WellFormed(r.w.secrets.report.value)
      && CountedFailures(r.w.secrets.report.value) <= 0
  }

  predicate Reviewed(r: Run) {
    && GetPlanSecret !in r.faults
    && r.w.secrets.planJson.Some? && r.w.secrets.planJson.value.TfPlan?
    && r.w.inputs.gates.costStatus.Open?
    && ReportReachable(r)
  }

  function PolicyMessage(r: Run): (m: Message) {
    if r.s.constraint.None? then PolicyNotConfigured else PolicyPassed
  }

  function ReviewedStatus(r: Run): (st: ConfigurationStatus) {
    var st := r.c.status;
    st.(costs := r.w.inputs.costs,
        policy := Success(st.policy, r.c.generation, PolicyMessage(r), r.w.now),
        driftTimestamp := if r.c.spec.driftDetection then Read(r.c.annotations, DriftAnnotation) else st.driftTimestamp)
  }

  function ReviewedRun(r: Run): (q: Run)
    requires r.w.secrets.planJson.Some? && r.w.secrets.planJson.value.TfPlan?
  {
    Update(r, ReviewedStatus(r))
      .(s := r.s.(plan := r.w.secrets.planJson, hasDrift := r.w.secrets.planJson.value.needsApply))
  }

  lemma PlanSecretExact(r: Run)
    ensures PlanSecretRead(r).outcome.Continue? <==> GetPlanSecret !in r.faults && r.w.secrets.planJson.Some?
    ensures PlanSecretRead(r).outcome.Continue? ==>
              PlanSecretRead(r).run == r.(s := r.s.(plan := r.w.secrets.planJson))
  {
    hide Set;
  }

  lemma CostsExact(r: Run)
    ensures CostsRecorded(r).outcome.Continue? <==> r.w.inputs.gates.costStatus.Open?
    ensures r.w.inputs.gates.costStatus.Open? ==>
              CostsRecorded(r).run == Update(r, r.c.status.(costs := r.w.inputs.costs))
  {
    hide Set;
  }

  /**
   The security gate, exactly: the step lets an apply through when no policy governs, or when the
   report can be read and copied, is well formed, and counts no failure.
   */
  lemma PolicyExact(r: Run)
    ensures PolicyChecked(r).outcome.Continue? <==> ReportReachable(r)
    ensures ReportReachable(r) ==>
              PolicyChecked(r).run == SetPolicy(r, Success(r.c.status.policy, r.c.generation, PolicyMessage(r), r.w.now))
  {
    hide Set;
  }

  /**
   Read off the report: one with a summary passes if and only if its number of failures is a number
   and not above zero, one without if and only if it has both fields and no number under "zero".
   */
  lemma ReportByFields(r: Run)
    requires r.s.constraint.Some? && GetReport !in r.faults && CopyReport !in r.faults && r.w.secrets.report.Some?
    ensures PolicyChecked(r).outcome.Continue? <==>
              match r.w.secrets.report.value
              case Summary(Count(n)) => n <= 0
              case Summary(_) => false
              case Flat(passed, failed, zero) => passed.Some? && failed.Some? && zero == 0
  {
    PolicyExact(r);
  }

  /**
   A flat report is never held against a configuration for the failures it counts: the step looks
   at the key "zero" instead, so a report of seven failures passes.
   */
  lemma FlatReportPasses(r: Run)
    requires r.s.constraint.Some? && GetReport !in r.faults && CopyReport !in r.faults
    requires r.w.secrets.report == Some(Flat(Some(0), Some(7), 0))
    ensures PolicyChecked(r).outcome.Continue?
  {
    PolicyExact(r);
  }

  lemma DriftExact(r: Run)
    ensures DriftChecked(r).outcome.Continue? <==> r.s.plan.Some? && r.s.plan.value.TfPlan?
    ensures DriftChecked(r).outcome.Continue? ==>
              DriftChecked(r).run ==
                Update(r, r.c.status.(driftTimestamp := if r.c.spec.driftDetection then Read(r.c.annotations, DriftAnnotation)
                                                        else r.c.status.driftTimestamp))
                  .(s := r.s.(hasDrift := r.s.plan.value.needsApply))
  {
    hide Set;
  }

  lemma ReviewExact(r: Run)
    ensures RunAll(REVIEW, r).outcome.Continue? <==> Reviewed(r)
    ensures Reviewed(r) ==> RunAll(REVIEW, r).run == ReviewedRun(r)
  {
    hide RunAll, PlanSecretRead, CostsRecorded, PolicyChecked, DriftChecked, Set, WellFormed, CountedFailures;
    ReviewUnfolds(r);
    PlanSecretExact(r);
    var a := PlanSecretRead(r).run;
    CostsExact(a);
    var b := CostsRecorded(a).run;
    PolicyExact(b);
    var c := PolicyChecked(b).run;
    DriftExact(c);
  }

  predicate NothingToDo(r: Run) {
    !r.s.hasDrift && r.w.secrets.state.Some?
  }

  predicate ApplyJobDone(r: Run) {
    && (r.c.spec.autoApproval || !NeedsApproval(r.c))
    && RenderJob(ApplyStage) !in r.faults
    && FoundJob(r, ApplyStage, ApplyExtra(r)).Some?
    && FoundJob(r, ApplyStage, ApplyExtra(r)).value.complete
  }

  predicate ApplyOpen(r: Run) {
    && GetStateForApply !in r.faults
    && (NothingToDo(r) || ApplyJobDone(r))
  }

  function ApplyDone(r: Run): (q: Run) {
    var st := r.c.status;
    Update(r, st.(resourceStatus := InSync,
                  apply := Success(st.apply, r.c.generation, if NothingToDo(r) then NothingToApply else ApplyComplete, r.w.now)))
  }

  lemma ApplyExact(r: Run)
    ensures TerraformApply(r).outcome.Continue? <==> ApplyOpen(r)
    ensures ApplyOpen(r) ==> TerraformApply(r).run == ApplyDone(r)
  {
    hide Set, DetectErrors, FoundJob, Launch, ApplyExtra;
    DetectEffect(ApplyFail(r, None, ApplyFailed));
  }

  predicate Recordable(r: Run) {
    && GetStateForConnection !in r.faults
    && r.w.secrets.state.Some? && r.w.secrets.state.value.TfState?
    && r.w.inputs.gates.connection.Open?
  }

  function RecordedRun(r: Run): (q: Run)
    requires r.w.secrets.state.Some? && r.w.secrets.state.value.TfState?
  {
    var st, tf := r.c.status, r.w.secrets.state.value;
    Update(r, st.(resources := Some(tf.resources), terraformVersion := tf.version,
                  ready := Success(st.ready, r.c.generation, ResourceReady, r.w.now)))
      .(s := r.s.(state := r.w.secrets.state))
  }

  function RecordSteps(r: Run): (x: Step) {
    var a := ConnectionWritten(r);
    if a.outcome.Continue? then StatusRecorded(a.run) else a
  }

  lemma ConnectionExact(r: Run)
    ensures ConnectionWritten(r).outcome.Continue? <==>
              GetStateForConnection !in r.faults && r.w.secrets.state.Some? && r.w.inputs.gates.connection.Open?
    ensures ConnectionWritten(r).outcome.Continue? ==>
              ConnectionWritten(r).run == r.(s := r.s.(state := r.w.secrets.state))
  {
    hide Set, PassGate;
    GateExact(r.(s := r.s.(state := r.w.secrets.state)), r.w.inputs.gates.connection, 6);
  }

  lemma RecordExact(r: Run)
    ensures RecordSteps(r).outcome.Continue? <==> Recordable(r)
    ensures Recordable(r) ==> RecordSteps(r).run == RecordedRun(r)
  {
    hide Set, ConnectionWritten;
    ConnectionExact(r);
  }

  // ---- the whole normal list

  predicate RunsThrough(r: Run) {
    && EntryOpen(r)
    && Prepared(Captured(r))
    && (var p := PreparedRun(Captured(r));
        && PlanOpen(p)
        && Reviewed(PlanDone(p))
        && (var v := ReviewedRun(PlanDone(p));
            && ApplyOpen(v)
            && Recordable(ApplyDone(v))))
  }

  function Final(r: Run): (q: Run)
    requires RunsThrough(r)
  {
    RecordedRun(ApplyDone(ReviewedRun(PlanDone(PreparedRun(Captured(r))))))
  }

  /** A live object is reconciled to the end exactly when every step's condition holds in turn. */
  lemma NormalExact(r: Run)
    ensures RunAll(NORMAL, r).outcome.Continue? <==> RunsThrough(r)
    ensures RunsThrough(r) ==> RunAll(NORMAL, r) == Step(Final(r), Continue)
  {
    hide RunAll, AtGuard, CapturedState, TerraformPlan, TerraformApply, ConnectionWritten, StatusRecorded,
         EntryOpen, Captured, PreparedRun, PlanOpen, PlanDone, ReviewedRun, ApplyOpen, ApplyDone, RecordedRun, AtCapture,
         Blocks, GatesOpen, Values, ProviderReachable, PolicyReachable, ReportReachable;
    NormalPhases(r);
    EntryExact(r);
    var a := Captured(r);
    PreparationExact(a);
    if EntryOpen(r) && Prepared(a) {
      var p := PreparedRun(a);
      PlanExact(p);
      if PlanOpen(p) {
        var d := PlanDone(p);
        ReviewExact(d);
        if Reviewed(d) {
          var v := ReviewedRun(d);
          ApplyExact(v);
          if ApplyOpen(v) {
            RecordExact(ApplyDone(v));
          }
        }
      }
    }
  }
}
