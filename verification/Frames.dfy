/** What the steps of a reconcile leave alone, and how the two lists fall into phases. */
module Frames {
  import opened Base
  import opened Conditions
  import opened Cluster
  import opened Ensures
  import opened Runner
  import Policies
  import ValueFrom
  import Json

  /** Steps that create no job, delete nothing and touch neither annotations nor finalizers. */
  predicate Benign(e: Ensure) {
    && !e.EnsureFinalizerPresent? && !e.EnsureCapturedState?
    && !e.EnsureTerraformPlan? && !e.EnsureTerraformApply? && !e.EnsureTerraformDestroy?
    && !e.EnsureTerraformStatus? && !e.EnsureSecretsDeleted? && !e.EnsureJobsDeleted? && !e.EnsureFinalizerRemoved?
  }

  /** Only the status (not the plan or apply condition), the local state and the config secret move. */
  predicate Quiet(r: Run, q: Run) {
    && SameButSecrets(r.w, q.w)
    && SameButConfig(r.w.secrets, q.w.secrets)
    && SameButStatus(r.c, q.c)
    && q.c.status.plan == r.c.status.plan
    && q.c.status.apply == r.c.status.apply
    && q.c.status.resources == r.c.status.resources
    && q.c.status.lastReconcile == r.c.status.lastReconcile
    && q.s.jobs == r.s.jobs && q.s.policies == r.s.policies
    && q.faults == r.faults
  }

  predicate SameButSecrets(v: World, w: World) {
    && w.stored == v.stored && w.jobs == v.jobs && w.inputs == v.inputs
    && w.now == v.now && w.nextJob == v.nextJob && w.log == v.log
  }

  predicate SameButConfig(s: Secrets, t: Secrets) {
    && t.costs == s.costs && t.report == s.report && t.state == s.state
    && t.planOut == s.planOut && t.planJson == s.planJson
  }

  predicate SameButStatus(c: Configuration, d: Configuration) {
    && d.owner == c.owner && d.generation == c.generation && d.deleting == c.deleting
    && d.finalizers == c.finalizers && d.labels == c.labels && d.annotations == c.annotations
    && d.spec == c.spec
  }

  lemma {:induction false} NoteUntypedQuiet(r: Run, untyped: seq<nat>)
    ensures Quiet(r, NoteUntyped(r, untyped))
    ensures NoteUntyped(r, untyped).s == r.s && NoteUntyped(r, untyped).w == r.w
  {
    if untyped != [] {
      NoteUntypedQuiet(r, untyped[..|untyped| - 1]);
    }
  }

  lemma GateQuiet(r: Run, g: Gate, n: nat)
    ensures Quiet(r, PassGate(r, g, n).run)
  {
    hide Set, Quiet, SetReady;
    SettersQuiet(r);
  }

  lemma ValuesQuiet(r: Run)
    ensures Quiet(r, ValuesResolved(r).run)
  {
    hide Set, ValueFrom.Resolve, BrokenEntries, NoteUntyped, Quiet, SetReady;
    var v := ValueFrom.Resolve(r.c.spec.valueFrom, r.w.inputs.store, BrokenEntries(r));
    NoteUntypedQuiet(r, v.untyped);
    var q := NoteUntyped(r, v.untyped);
    SettersQuiet(q);
    forall d ensures Quiet(r, SetReady(q, d)) { QuietTransitive(r, q, SetReady(q, d)); }
    LocalQuiet(q, q.s.(valueFrom := v.values));
    QuietTransitive(r, q, q.(s := q.s.(valueFrom := v.values)));
  }

  lemma SettersQuiet(r: Run)
    ensures forall d {:trigger SetReady(r, d)} :: Quiet(r, SetReady(r, d))
    ensures forall d {:trigger SetProvider(r, d)} :: Quiet(r, SetProvider(r, d))
    ensures forall d {:trigger SetPolicy(r, d)} :: Quiet(r, SetPolicy(r, d))
    ensures Quiet(r, r)
  {
  }

  lemma ProviderQuiet(r: Run)
    ensures Quiet(r, ProviderUsable(r).run)
  {
    hide Set, Quiet, SetProvider;
    SettersQuiet(r);
    if r.w.inputs.provider.Some? {
      var q := r.(s := r.s.(provider := r.w.inputs.provider));
      LocalQuiet(r, q.s);
      SettersQuiet(q);
      forall d ensures Quiet(r, SetProvider(q, d)) {
        QuietTransitive(r, q, SetProvider(q, d));
      }
    }
  }

  lemma LocalQuiet(r: Run, s: Local)
    requires s.jobs == r.s.jobs && s.policies == r.s.policies
    ensures Quiet(r, r.(s := s))
  {
  }
  lemma ConfigSecretQuiet(r: Run)
    ensures Quiet(r, ConfigSecretWritten(r).run)
  {
    hide Set, Policies.FindMatchingPolicy, JobVariables, Quiet, SetReady, SetPolicy;
    SettersQuiet(r);
    var m := Policies.FindMatchingPolicy(r.s.policies);
    var q := r.(s := r.s.(constraint := if m.Governing? then Some(m.constraint) else None));
    LocalQuiet(r, q.s);
    SettersQuiet(q);
    forall d ensures Quiet(r, SetReady(q, d)) { QuietTransitive(r, q, SetReady(q, d)); }
    ConfigQuiet(q, JobVariables(r));
    QuietTransitive(r, q, q.(w := q.w.(secrets := q.w.secrets.(config := Some(JobVariables(r))))));
  }

  lemma ConfigQuiet(r: Run, v: map<string, Json.Value>)
    ensures Quiet(r, r.(w := r.w.(secrets := r.w.secrets.(config := Some(v)))))
  {
  }

  lemma PolicyQuiet(r: Run)
    ensures Quiet(r, PolicyChecked(r).run)
  {
    hide Set, Quiet, SetPolicy, CountedFailures, WellFormed;
    SettersQuiet(r);
  }

  lemma RecordingQuiet(r: Run)
    ensures Quiet(r, ConnectionWritten(r).run)
  {
    hide Set, Quiet, SetReady, PassGate;
    SettersQuiet(r);
    var q := r.(s := r.s.(state := r.w.secrets.state));
    LocalQuiet(r, q.s);
    GateQuiet(q, r.w.inputs.gates.connection, 6);
    QuietTransitive(r, q, PassGate(q, r.w.inputs.gates.connection, 6).run);
  }

  lemma StatusQuiet(r: Run)
    ensures forall st: ConfigurationStatus {:trigger Update(r, st)} ::
              && st.plan == r.c.status.plan && st.apply == r.c.status.apply
              && st.resources == r.c.status.resources && st.lastReconcile == r.c.status.lastReconcile
              ==> Quiet(r, Update(r, st))
  {
  }

  lemma ReviewQuiet(r: Run)
    ensures Quiet(r, PlanSecretRead(r).run)
    ensures Quiet(r, CostsRecorded(r).run)
  {
    hide Set, Quiet, SetReady, Update;
    SettersQuiet(r);
    StatusQuiet(r);
    LocalQuiet(r, r.s.(plan := r.w.secrets.planJson));
  }

  lemma DriftQuiet(r: Run)
    ensures Quiet(r, DriftChecked(r).run)
  {
    hide Set, Quiet, SetReady, Update;
    SettersQuiet(r);
    StatusQuiet(r);
    var q := if r.c.spec.driftDetection
             then Update(r, r.c.status.(driftTimestamp := Read(r.c.annotations, DriftAnnotation))) else r;
    SettersQuiet(q);
    forall d ensures Quiet(r, SetReady(q, d)) { QuietTransitive(r, q, SetReady(q, d)); }
    forall b ensures Quiet(r, q.(s := q.s.(hasDrift := b))) {
      LocalQuiet(q, q.s.(hasDrift := b));
      QuietTransitive(r, q, q.(s := q.s.(hasDrift := b)));
    }
  }

  lemma GuardsQuiet(r: Run)
    ensures Quiet(r, ReconcileAllowed(r).run)
    ensures Quiet(r, NoActivity(r).run)
    ensures Quiet(r, TemplateLoaded(r).run)
  {
    hide Set, Blocks, Quiet, SetReady;
    SettersQuiet(r);
    forall h ensures Quiet(r, r.(s := r.s.(templateHash := h))) {
      LocalQuiet(r, r.s.(templateHash := h));
    }
  }

  lemma BenignIsQuiet(e: Ensure, r: Run)
    requires Benign(e)
    ensures Quiet(r, Perform(e, r).run)
  {
    hide Quiet;
    match e
    case EnsureValueFromSecret => ValuesQuiet(r);
    case EnsureProviderReady => ProviderQuiet(r);
    case EnsureJobConfigurationSecret => ConfigSecretQuiet(r);
    case EnsurePolicyStatus => PolicyQuiet(r);
    case EnsureConnectionSecret => RecordingQuiet(r);
    case EnsureTerraformPlanSecret => ReviewQuiet(r);
    case EnsureCostStatus => ReviewQuiet(r);
    case EnsureDriftDetection => DriftQuiet(r);
    case EnsureReconcileAnnotation => GuardsQuiet(r);
    case EnsureNoActivity => GuardsQuiet(r);
    case EnsureCustomJobTemplate => GuardsQuiet(r);
    case EnsureCostSecret => GateQuiet(r, r.w.inputs.gates.costSecret, 1);
    case EnsureAuthenticationSecret => GateQuiet(r, r.w.inputs.gates.auth, 2);
    case EnsureCustomBackendTemplate => GateQuiet(r, r.w.inputs.gates.backend, 3);
    case EnsurePolicyDefaultsExist => GateQuiet(r, r.w.inputs.gates.defaults, 4);
  }

  lemma QuietTransitive(a: Run, b: Run, c: Run)
    requires Quiet(a, b) && Quiet(b, c)
    ensures Quiet(a, c)
  {
  }

  lemma QuietReflexive(r: Run)
    ensures Quiet(r, r)
  {
  }

  lemma {:induction false} BenignListIsQuiet(list: seq<Ensure>, r: Run)
    requires forall e :: e in list ==> Benign(e)
    ensures Quiet(r, RunAll(list, r).run)
    decreases |list|
  {
    hide Perform, Quiet;
    QuietReflexive(r);
    if list != [] {
      assert list[0] in list;
      BenignIsQuiet(list[0], r);
      var x := Perform(list[0], r);
      if x.outcome.Continue? {
        BenignListIsQuiet(list[1..], x.run);
        QuietTransitive(r, x.run, RunAll(list[1..], x.run).run);
      }
    }
  }

  // ---- phases

  const PREPARATION: seq<Ensure> := [
    EnsureNoActivity, EnsureCostSecret, EnsureValueFromSecret, EnsureAuthenticationSecret,
    EnsureCustomJobTemplate, EnsureProviderReady, EnsureCustomBackendTemplate,
    EnsurePolicyDefaultsExist, EnsureJobConfigurationSecret
  ]

  const REVIEW: seq<Ensure> := [
    EnsureTerraformPlanSecret, EnsureCostStatus, EnsurePolicyStatus, EnsureDriftDetection
  ]

  const UNDOING: seq<Ensure> := [
    EnsureProviderReady, EnsureCustomBackendTemplate, EnsurePolicyDefaultsExist, EnsureValueFromSecret,
    EnsureAuthenticationSecret, EnsureCustomJobTemplate, EnsureJobConfigurationSecret
  ]

  function ThenAll(x: Step, list: seq<Ensure>): (y: Step) {
    if x.outcome.Continue? then RunAll(list, x.run) else x
  }

  // The normal list up to each of its steps with an effect.

  function AtFinalizer(r: Run): (x: Step) { FinalizerPresent(r) }

  function AtGuard(r: Run): (x: Step) {
    if AtFinalizer(r).outcome.Continue? then ReconcileAllowed(AtFinalizer(r).run) else AtFinalizer(r)
  }

  function AtCapture(r: Run): (x: Step) {
    if AtGuard(r).outcome.Continue? then CapturedState(AtGuard(r).run) else AtGuard(r)
  }

  function BeforePlan(r: Run): (x: Step) { ThenAll(AtCapture(r), PREPARATION) }

  function AtPlan(r: Run): (x: Step) {
    if BeforePlan(r).outcome.Continue? then TerraformPlan(BeforePlan(r).run) else BeforePlan(r)
  }

  function BeforeApply(r: Run): (x: Step) { ThenAll(AtPlan(r), REVIEW) }

  function AtApply(r: Run): (x: Step) {
    if BeforeApply(r).outcome.Continue? then TerraformApply(BeforeApply(r).run) else BeforeApply(r)
  }

  function AtConnection(r: Run): (x: Step) {
    if AtApply(r).outcome.Continue? then ConnectionWritten(AtApply(r).run) else AtApply(r)
  }

  function AtStatus(r: Run): (x: Step) {
    if AtConnection(r).outcome.Continue? then StatusRecorded(AtConnection(r).run) else AtConnection(r)
  }

  // The deletion list likewise.

  function BeforeDestroy(r: Run): (x: Step) { ThenAll(CapturedState(r), UNDOING) }

  function AtDestroy(r: Run): (x: Step) {
    if BeforeDestroy(r).outcome.Continue? then TerraformDestroy(BeforeDestroy(r).run) else BeforeDestroy(r)
  }

  function AtSecrets(r: Run): (x: Step) {
    if AtDestroy(r).outcome.Continue? then DeleteSecrets(AtDestroy(r).run, SIX_SECRETS) else AtDestroy(r)
  }

  function AtJobs(r: Run): (x: Step) {
    if AtSecrets(r).outcome.Continue? then JobsDeleted(AtSecrets(r).run) else AtSecrets(r)
  }

  function AtRelease(r: Run): (x: Step) {
    if AtJobs(r).outcome.Continue? then FinalizerRemoved(AtJobs(r).run) else AtJobs(r)
  }

  /** One step at the head of a list. */
  lemma Peel(e: Ensure, rest: seq<Ensure>, x: Step)
    ensures ThenAll(x, [e] + rest) ==
            ThenAll(if x.outcome.Continue? then Perform(e, x.run) else x, rest)
  {
    hide Perform;
    if x.outcome.Continue? {
      assert ([e] + rest)[1..] == rest;
    }
  }

  /** A stretch of steps at the head of a list. */
  lemma PeelAll(a: seq<Ensure>, rest: seq<Ensure>, x: Step)
    ensures ThenAll(x, a + rest) == ThenAll(ThenAll(x, a), rest)
  {
    hide Perform, RunAll;
    if x.outcome.Continue? {
      RunAllSplit(a, rest, x.run);
    }
  }

  lemma DispatchEntry(r: Run)
    ensures Perform(EnsureFinalizerPresent, r) == FinalizerPresent(r)
    ensures Perform(EnsureReconcileAnnotation, r) == ReconcileAllowed(r)
    ensures Perform(EnsureCapturedState, r) == CapturedState(r)
  {
    hide FinalizerPresent, ReconcileAllowed, CapturedState, NoActivity, PassGate, ValuesResolved, TemplateLoaded,
         ProviderUsable, ConfigSecretWritten, TerraformPlan, PlanSecretRead, CostsRecorded, PolicyChecked,
         DriftChecked, TerraformApply, ConnectionWritten, StatusRecorded, TerraformDestroy, DeleteSecrets,
         JobsDeleted, FinalizerRemoved;
  }

  lemma DispatchNormal(r: Run)
    ensures Perform(EnsureTerraformPlan, r) == TerraformPlan(r)
    ensures Perform(EnsureTerraformApply, r) == TerraformApply(r)
    ensures Perform(EnsureConnectionSecret, r) == ConnectionWritten(r)
    ensures Perform(EnsureTerraformStatus, r) == StatusRecorded(r)
  {
    hide FinalizerPresent, ReconcileAllowed, CapturedState, NoActivity, PassGate, ValuesResolved, TemplateLoaded,
         ProviderUsable, ConfigSecretWritten, TerraformPlan, PlanSecretRead, CostsRecorded, PolicyChecked,
         DriftChecked, TerraformApply, ConnectionWritten, StatusRecorded, TerraformDestroy, DeleteSecrets,
         JobsDeleted, FinalizerRemoved;
  }

  lemma DispatchDeletion(r: Run)
    ensures Perform(EnsureTerraformDestroy, r) == TerraformDestroy(r)
    ensures Perform(EnsureSecretsDeleted, r) == DeleteSecrets(r, SIX_SECRETS)
    ensures Perform(EnsureJobsDeleted, r) == JobsDeleted(r)
    ensures Perform(EnsureFinalizerRemoved, r) == FinalizerRemoved(r)
  {
    hide FinalizerPresent, ReconcileAllowed, CapturedState, NoActivity, PassGate, ValuesResolved, TemplateLoaded,
         ProviderUsable, ConfigSecretWritten, TerraformPlan, PlanSecretRead, CostsRecorded, PolicyChecked,
         DriftChecked, TerraformApply, ConnectionWritten, StatusRecorded, TerraformDestroy, DeleteSecrets,
         JobsDeleted, FinalizerRemoved;
  }

  /** The whole normal list, read through its phases. */
  lemma NormalPhases(r: Run)
    ensures RunAll(NORMAL, r) == AtStatus(r)
  {
    hide Perform, RunAll, FinalizerPresent, ReconcileAllowed, CapturedState, TerraformPlan, TerraformApply,
         ConnectionWritten, StatusRecorded;
    var e5: seq<Ensure> := [EnsureTerraformStatus] + [];
    var e4 := [EnsureConnectionSecret] + e5;
    var e3 := [EnsureTerraformApply] + e4;
    var e2 := REVIEW + e3;
    var e1 := [EnsureTerraformPlan] + e2;
    var d2 := PREPARATION + e1;
    var d1 := [EnsureCapturedState] + d2;
    var d0 := [EnsureReconcileAnnotation] + d1;
    assert NORMAL == [EnsureFinalizerPresent] + d0;
    var x := Step(r, Continue);
    DispatchEntry(r);
    Peel(EnsureFinalizerPresent, d0, x);
    DispatchEntry(AtFinalizer(r).run);
    Peel(EnsureReconcileAnnotation, d1, AtFinalizer(r));
    DispatchEntry(AtGuard(r).run);
    Peel(EnsureCapturedState, d2, AtGuard(r));
    PeelAll(PREPARATION, e1, AtCapture(r));
    DispatchNormal(BeforePlan(r).run);
    Peel(EnsureTerraformPlan, e2, BeforePlan(r));
    PeelAll(REVIEW, e3, AtPlan(r));
    DispatchNormal(BeforeApply(r).run);
    Peel(EnsureTerraformApply, e4, BeforeApply(r));
    DispatchNormal(AtApply(r).run);
    Peel(EnsureConnectionSecret, e5, AtApply(r));
    DispatchNormal(AtConnection(r).run);
    Peel(EnsureTerraformStatus, [], AtConnection(r));
    NothingLeft(AtStatus(r));
  }

  /** The whole deletion list, read through its phases. */
  lemma DeletionPhases(r: Run)
    ensures RunAll(DELETION, r) == AtRelease(r)
  {
    hide Perform, RunAll, CapturedState, TerraformDestroy, DeleteSecrets, JobsDeleted, FinalizerRemoved;
    var d3: seq<Ensure> := [EnsureFinalizerRemoved] + [];
    var d2 := [EnsureJobsDeleted] + d3;
    var d1 := [EnsureSecretsDeleted] + d2;
    var d0 := [EnsureTerraformDestroy] + d1;
    assert DELETION == [EnsureCapturedState] + (UNDOING + d0);
    var x := Step(r, Continue);
    DispatchEntry(r);
    Peel(EnsureCapturedState, UNDOING + d0, x);
    PeelAll(UNDOING, d0, CapturedState(r));
    DispatchDeletion(BeforeDestroy(r).run);
    Peel(EnsureTerraformDestroy, d1, BeforeDestroy(r));
    DispatchDeletion(AtDestroy(r).run);
    Peel(EnsureSecretsDeleted, d2, AtDestroy(r));
    DispatchDeletion(AtSecrets(r).run);
    Peel(EnsureJobsDeleted, d3, AtSecrets(r));
    DispatchDeletion(AtJobs(r).run);
    Peel(EnsureFinalizerRemoved, [], AtJobs(r));
    NothingLeft(AtRelease(r));
  }

  lemma NothingLeft(x: Step)
    ensures ThenAll(x, []) == x
  {
    hide Perform;
  }

  lemma ThenAllQuiet(x: Step, list: seq<Ensure>)
    requires forall e :: e in list ==> Benign(e)
    ensures Quiet(x.run, ThenAll(x, list).run)
  {
    hide Perform, Quiet, RunAll;
    QuietReflexive(x.run);
    if x.outcome.Continue? {
      BenignListIsQuiet(list, x.run);
    }
  }

  // ---- entering the list: finalizer, guard, captured state

  /** Nothing but finalizers, the status and the local snapshot moved. */
  predicate Entering(r: Run, q: Run) {
    && q.w.jobs == r.w.jobs && q.w.inputs == r.w.inputs && q.w.secrets == r.w.secrets
    && q.w.now == r.w.now && q.w.nextJob == r.w.nextJob && q.w.log == r.w.log
    && SameButStatus(r.c, q.c.(finalizers := r.c.finalizers))
    && q.c.status.plan == r.c.status.plan
    && q.c.status.apply == r.c.status.apply
    && q.c.status.lastReconcile == r.c.status.lastReconcile
    && q.c.status.resources == r.c.status.resources
    && q.faults == r.faults
    && (r.w.stored.None? ==> q.w.stored.None?)
    && (r.w.stored.Some? ==>
          && q.w.stored.Some?
          && q.w.stored.value == r.w.stored.value.(finalizers := q.w.stored.value.finalizers))
  }

  lemma FinalizerEnters(r: Run)
    ensures var x := FinalizerPresent(r);
            && Entering(r, x.run)
            && (x.outcome.Continue? ==> x.run == r)
  {
  }

  lemma GuardEnters(r: Run)
    ensures var x := ReconcileAllowed(r);
            && Entering(r, x.run)
            && (x.outcome.Continue? ==> x.run == r)
  {
    hide Set;
  }

  lemma StatusEnters(r: Run, st: ConfigurationStatus, s: Local)
    requires st.plan == r.c.status.plan && st.apply == r.c.status.apply
    requires st.resources == r.c.status.resources && st.lastReconcile == r.c.status.lastReconcile
    ensures var q := Update(r, st).(s := s);
            Entering(r, q) && q.w == r.w && SameButStatus(r.c, q.c)
  {
  }

  lemma CaptureEnters(r: Run)
    ensures var x := CapturedState(r);
            && Entering(r, x.run)
            && x.run.w == r.w
            && SameButStatus(r.c, x.run.c)
            && (x.outcome.Continue? ==> x.run.s == r.s.(jobs := r.w.jobs, policies := r.w.inputs.policies))
  {
    hide Set, Entering;
    var st := r.c.status;
    if r.w.inputs.gates.captured.Open? {
      var s := r.s.(jobs := r.w.jobs, policies := r.w.inputs.policies);
      StatusEnters(r, st, s);
      StatusEnters(r, st.(resourceStatus := OutOfSync), s);
      assert r == Update(r, st);
    } else {
      StatusEnters(r, PassGate(r, r.w.inputs.gates.captured, 0).run.c.status, r.s);
    }
  }

  lemma AtCaptureEnters(r: Run)
    ensures var x := AtCapture(r);
            && Entering(r, x.run)
            && (x.outcome.Continue? ==>
                  && AtGuard(r).outcome.Continue?
                  && AtGuard(r).run == r
                  && x.run.w == r.w
                  && SameButStatus(r.c, x.run.c)
                  && x.run.s == r.s.(jobs := r.w.jobs, policies := r.w.inputs.policies))
  {
    hide Entering, FinalizerPresent, ReconcileAllowed, CapturedState;
    FinalizerEnters(r);
    if AtFinalizer(r).outcome.Continue? {
      GuardEnters(r);
      if AtGuard(r).outcome.Continue? {
        CaptureEnters(r);
      }
    }
  }
}
