/** Deletion that gets done: the destroy job is created, its end is answered, and the object goes. */
module Teardown {
  import opened Base
  import opened Labels
  import opened Jobs
  import opened Conditions
  import opened Cluster
  import opened Ensures
  import opened Runner
  import opened Runs
  import opened Frames
  import opened Safety
  import opened Effects
  import opened Exact
  import opened Deletion
  import opened Progress
  import Decimal
  import Gating
  import Policies
  import Theorems
  import ValueFrom

  // ---- exactly when the deletion list comes to its destroy step

  predicate Undoable(r: Run) {
    && ProviderReachable(r)
    && r.w.inputs.gates.backend.Open? && r.w.inputs.gates.defaults.Open?
    && Values(r).stop.None?
    && r.w.inputs.gates.auth.Open?
    && TemplateReachable(r)
    && PolicyReachable(r)
  }

  lemma ProviderFrame(r: Run)
    ensures ProviderDone(r).w == r.w && ProviderDone(r).faults == r.faults && SameButStatus(r.c, ProviderDone(r).c)
    ensures ProviderDone(r).s.policies == r.s.policies
  {
    hide Set;
  }

  lemma SameValues(r: Run, q: Run)
    requires q.w == r.w && q.faults == r.faults && q.c.spec == r.c.spec
    ensures Values(q) == Values(r)
  {
    hide ValueFrom.Resolve;
  }

  lemma UndoingExact(r: Run)
    ensures RunAll(UNDOING, r).outcome.Continue? <==> Undoable(r)
  {
    hide Perform, RunAll, PassGate, ValuesResolved, TemplateLoaded, ProviderUsable, ConfigSecretWritten,
         ValuesDone, ProviderDone, SecretDone, Values, ProviderReachable;
    var l7 := [EnsureJobConfigurationSecret];
    var l6 := [EnsureCustomJobTemplate] + l7;
    var l5 := [EnsureAuthenticationSecret] + l6;
    var l4 := [EnsureValueFromSecret] + l5;
    var l3 := [EnsurePolicyDefaultsExist] + l4;
    var l2 := [EnsureCustomBackendTemplate] + l3;
    assert UNDOING == [EnsureProviderReady] + l2;
    PreparationDispatch(r);
    ProviderExact(r);
    Advance(EnsureProviderReady, l2, r);
    var p := ProviderDone(r);
    ProviderFrame(r);
    SameValues(r, p);
    PreparationDispatch(p);
    GateDispatch(p);
    GateInList(EnsureCustomBackendTemplate, l3, p, r.w.inputs.gates.backend, 3);
    GateInList(EnsurePolicyDefaultsExist, l4, p, r.w.inputs.gates.defaults, 4);
    ValuesExact(p);
    Advance(EnsureValueFromSecret, l5, p);
    var v := ValuesDone(p);
    ValuesFrame(p);
    PreparationDispatch(v);
    GateDispatch(v);
    GateInList(EnsureAuthenticationSecret, l6, v, r.w.inputs.gates.auth, 2);
    TemplateExact(v);
    Advance(EnsureCustomJobTemplate, l7, v);
    if r.w.inputs.template.Some? {
      var t := TemplateDone(v);
      PreparationDispatch(t);
      SecretExact(t);
      OneStep(EnsureJobConfigurationSecret, t);
    }
  }

  /** What the deletion needs of everything it reads. */
  predicate UndoInputs(c: Configuration, i: Inputs) {
    && i.gates.captured.Open? && i.gates.auth.Open? && i.gates.backend.Open? && i.gates.defaults.Open?
    && ValueFrom.Resolve(c.spec.valueFrom, i.store, {}).stop.None?
    && i.template.Some?
    && ProviderOk(i)
    && !Policies.FindMatchingPolicy(i.policies).BadSelector?
    && !Policies.FindMatchingPolicy(i.policies).Ambiguous?
  }

  lemma UndoingPasses(w: World, c: Configuration)
    ensures BeforeDestroy(Start(w, c, map[])).outcome.Continue? <==> UndoInputs(c, w.inputs)
  {
    hide RunAll, Set, Policies.FindMatchingPolicy, ValueFrom.Resolve;
    var r := Start(w, c, map[]);
    GateExact(r, w.inputs.gates.captured, 0);
    if w.inputs.gates.captured.Open? {
      assert CapturedState(r) == Step(Captured(r), Continue);
      UndoingExact(Captured(r));
      assert BrokenEntries(Captured(r)) == {};
    }
  }

  // ---- the destroy job, by its labels

  /** Carries this owner, generation, the destroy stage, and the retry token where there is one. */
  predicate IsDestroyOf(c: Configuration, j: Job) {
    && Get(j.labels, StageKey) == StageName(DestroyStage)
    && Get(j.labels, GenerationKey) == Decimal.Format(c.generation)
    && Field(c.owner.namespace, j.labels, NamespaceKey)
    && Field(c.owner.name, j.labels, NameKey)
    && Field(c.owner.uid, j.labels, UidKey)
    && Field(Read(c.annotations, RetryAnnotation), j.labels, RetryKey)
  }

  lemma DestroyFilter(c: Configuration, j: Job)
    ensures MatchesLabels(StageFilter(c.owner, c.generation, DestroyStage, RetryLabel(c)), j.labels) <==> IsDestroyOf(c, j)
  {
    var f := StageFilter(c.owner, c.generation, DestroyStage, RetryLabel(c));
    var token := Read(c.annotations, RetryAnnotation);
    assert token == "" ==> f.labels == map[];
    assert token != "" ==> f.labels == map[RetryKey := token];
    FormatNonEmpty(c.generation);
    assert StageName(DestroyStage) != "";
    assert j.labels == map[] ==> Get(j.labels, StageKey) == "";
  }

  lemma FormatNonEmpty(n: nat)
    ensures Decimal.Format(n) != ""
  {
  }

  lemma DestroyJobIs(c: Configuration, jobs: seq<Job>)
    ensures DestroyJob(c, jobs).None? <==> forall j :: j in jobs ==> !IsDestroyOf(c, j)
    ensures DestroyJob(c, jobs).Some? ==> DestroyJob(c, jobs).value in jobs && IsDestroyOf(c, DestroyJob(c, jobs).value)
  {
    hide IsDestroyOf, MatchesLabels, StageFilter, Latest;
    LatestIsYoungestMatch(StageFilter(c.owner, c.generation, DestroyStage, RetryLabel(c)), jobs);
    forall j: Job ensures MatchesLabels(StageFilter(c.owner, c.generation, DestroyStage, RetryLabel(c)), j.labels) <==> IsDestroyOf(c, j) {
      DestroyFilter(c, j);
    }
  }

  // ---- what the destroy step answers

  /** Something may be left to destroy: not orphaned, resources not recorded as none, a state to destroy them by. */
  predicate MustDestroy(w: World, c: Configuration) {
    && (OrphanAnnotation in c.annotations ==> c.annotations[OrphanAnnotation] != "true")
    && c.status.resources != Some(0) && w.secrets.state.Some?
  }

  /** The destroy job was created: one more job, this one, running. */
  predicate Destroys(w: World, v: World, c: Configuration) {
    && |v.jobs| == |w.jobs| + 1
    && v.jobs[..|w.jobs|] == w.jobs
    && IsDestroyOf(c, v.jobs[|w.jobs|])
    && IsActive(v.jobs[|w.jobs|])
  }

  lemma NewDestroyJob(r: Run)
    ensures var j := NewJob(r, DestroyStage, DestroyExtra(r)); IsDestroyOf(r.c, j) && IsActive(j)
  {
    hide StageFilter, MatchesLabels, IsDestroyOf, JobLabels;
    DestroyExtraFits(r);
    NewJobMatches(r, DestroyStage, DestroyExtra(r));
    DestroyFilter(r.c, NewJob(r, DestroyStage, DestroyExtra(r)));
  }

  lemma DestroyAnswers(r: Run)
    requires MustDestroy(r.w, r.c) && r.faults == map[]
    ensures var x := TerraformDestroy(r); var st := x.run.c.status; var found := DestroyJob(r.c, r.s.jobs);
            && (found.None? ==>
                  Destroys(r.w, x.run.w, r.c) && x.outcome == Requeue && IsInProgress(st.ready) && st.resourceStatus == Destroying)
            && (found.Some? ==> x.run.w == r.w)
            && (found.Some? && IsActive(found.value) ==>
                  x.outcome == Requeue && IsInProgress(st.ready) && st.resourceStatus == Destroying)
            && (found.Some? && found.value.failed && !found.value.complete ==>
                  x.outcome == Ignore && IsFailed(st.ready, r.c.generation) && st.resourceStatus == DestroyingFailed)
            && x.run.w.secrets == r.w.secrets && x.run.w.stored == r.w.stored
  {
    hide NewJob, Latest, StageFilter, IsDestroyOf;
    var q := Update(r, r.c.status.(resourceStatus := Destroying));
    assert FoundJob(q, DestroyStage, DestroyExtra(q)) == DestroyJob(r.c, r.s.jobs);
    NewDestroyJob(q);
    SameDestroyOf(r.c, q.c, NewJob(q, DestroyStage, DestroyExtra(q)));
  }

  lemma SameDestroyOf(c: Configuration, d: Configuration, j: Job)
    requires SameButStatus(c, d)
    ensures IsDestroyOf(c, j) == IsDestroyOf(d, j)
  {
  }

  // ---- over the world

  predicate TeardownBegun(w: World, c: Configuration) {
    w.stored == Some(c) && IsDeletionCandidate(c) && UndoInputs(c, w.inputs)
  }

  /** The reconcile of an object being deleted, where it stops. */
  lemma DeletionStores(w: World, c: Configuration)
    requires w.stored == Some(c) && IsDeletionCandidate(c)
    ensures var x := AtRelease(Start(w, c, map[])); var v := Reconcile(w, map[]);
            && v == x.run.w.(stored := v.stored)
            && (x.run.w.stored.None? <==> v.stored.None?)
            && (v.stored.Some? ==> v.stored.value == x.run.w.stored.value.(status := v.stored.value.status))
            && (v.stored.Some? && !x.outcome.Continue? ==>
                  v.stored.value.status == x.run.c.status.(lastReconcile := v.stored.value.status.lastReconcile))
            && ReconcileResult(w, map[]) == ResultOf(x.outcome)
  {
    hide RunAll, AtRelease, Set, ResultOf;
    DeletionPhases(Start(w, c, map[]));
  }

  /** The run as the destroy step finds it. */
  lemma AtDestroyStep(w: World, c: Configuration)
    requires TeardownBegun(w, c)
    ensures var b := BeforeDestroy(Start(w, c, map[]));
            && b.outcome.Continue? && b.run.faults == map[]
            && b.run.w == w.(secrets := b.run.w.secrets) && SameButConfig(w.secrets, b.run.w.secrets)
            && SameButStatus(c, b.run.c) && b.run.c.status.resources == c.status.resources
            && b.run.s.jobs == w.jobs
            && Orphaned(b.run.c) == Orphaned(c)
            && DestroyJob(b.run.c, b.run.s.jobs) == DestroyJob(c, w.jobs)
  {
    hide RunAll, CapturedState, DestroyJob, Orphaned, UndoInputs;
    var r := Start(w, c, map[]);
    UndoingPasses(w, c);
    UndoingFacts(w, c, map[]);
    CaptureEnters(r);
    Theorems.AllBenign();
    ThenAllQuiet(CapturedState(r), UNDOING);
    SameDestroyJob(c, BeforeDestroy(r).run.c, w.jobs);
  }

  /** Nothing but the status of the object moved. */
  predicate Stays(c: Configuration, v: World) {
    v.stored.Some? && SameButStatus(c, v.stored.value) && v.stored.value.status.resources == c.status.resources
  }

  /**
   While something may be left to destroy, a reconcile without faults creates a destroy job if and
   only if no job of this owner, generation, stage and retry token is listed; it then comes back,
   and the object and the terraform state stay.
   */
  lemma DestroyIsLaunched(w: World, c: Configuration)
    requires TeardownBegun(w, c) && MustDestroy(w, c)
    ensures var v := Reconcile(w, map[]); var free := forall j :: j in w.jobs ==> !IsDestroyOf(c, j);
            && (free ==>
                  && Destroys(w, v, c) && Stays(c, v) && v.secrets.state == w.secrets.state && v.inputs == w.inputs
                  && IsInProgress(v.stored.value.status.ready) && v.stored.value.status.resourceStatus == Destroying
                  && ReconcileResult(w, map[]) == Requeued)
            && (!free ==> v.log == w.log && forall j :: j in v.jobs ==> j in w.jobs)
  {
    hide RunAll, BeforeDestroy, TerraformDestroy, Start, UndoInputs, Orphaned, DestroyJob, IsDestroyOf,
         Reconcile, ReconcileResult, DeleteSecrets, JobsDeleted, FinalizerRemoved, IsDeletionCandidate;
    var r := Start(w, c, map[]);
    DeletionStores(w, c);
    AtDestroyStep(w, c);
    DestroyJobIs(c, w.jobs);
    var b := BeforeDestroy(r).run;
    DestroyAnswers(b);
    DestroyKeeps(b);
    if DestroyJob(c, w.jobs).None? {
      var n := |w.jobs|;
      SameDestroyOf(c, b.c, TerraformDestroy(b).run.w.jobs[n]);
    } else {
      DeletionPhases(r);
      LaterOnlyRemoves(r);
    }
  }

  predicate Kept(r: Run, q: Run) {
    && SameButStatus(r.c, q.c) && q.c.status.resources == r.c.status.resources
    && q.w.inputs == r.w.inputs && q.faults == r.faults
  }

  lemma SettersKeep(r: Run)
    ensures forall d {:trigger SetReady(r, d)} :: Kept(r, SetReady(r, d))
    ensures forall st: ConfigurationStatus {:trigger Update(r, st)} ::
              st.resources == r.c.status.resources ==> Kept(r, Update(r, st))
    ensures Kept(r, r)
  {
  }

  lemma KeptTrans(a: Run, b: Run, c: Run)
    requires Kept(a, b) && Kept(b, c)
    ensures Kept(a, c)
  {
  }

  lemma LaunchKeeps(r: Run, d: Condition)
    ensures Kept(r, SetReady(Launch(r, DestroyStage, DestroyExtra(r)), d))
  {
    hide NewJob, DestroyExtra;
  }

  lemma DestroyJobKeeps(r: Run)
    ensures Kept(r, DestroyByJob(r).run)
  {
    hide Set, SetReady, Update, Kept, FoundJob, Launch, DestroyExtra;
    SettersKeep(r);
    forall d ensures Kept(r, SetReady(Launch(r, DestroyStage, DestroyExtra(r)), d)) { LaunchKeeps(r, d); }
    var f := ReadyFail(r, None, DestroyFailed);
    SettersKeep(f);
    var g := Update(f, f.c.status.(resourceStatus := DestroyingFailed));
    KeptTrans(r, f, g);
  }

  lemma DestroyKeeps(r: Run)
    ensures Kept(r, TerraformDestroy(r).run)
  {
    hide Set, SetReady, Update, Kept, DestroyByJob, Orphaned;
    SettersKeep(r);
    var q := Update(r, r.c.status.(resourceStatus := Destroying));
    SettersKeep(q);
    forall d ensures Kept(r, SetReady(q, d)) { KeptTrans(r, q, SetReady(q, d)); }
    DestroyJobKeeps(q);
    KeptTrans(r, q, DestroyByJob(q).run);
  }

  /** After the destroy step jobs only disappear. */
  lemma LaterOnlyRemoves(r: Run)
    ensures AtRelease(r).run.w.log == AtDestroy(r).run.w.log
    ensures forall j :: j in AtRelease(r).run.w.jobs ==> j in AtDestroy(r).run.w.jobs
  {
    hide AtDestroy, DeleteSecrets, JobsDeleted, FinalizerRemoved, Gone;
    SecretsGone(AtDestroy(r).run, SIX_SECRETS, {});
    JobsDeletedEffect(AtSecrets(r).run);
    ReleaseEffect(AtJobs(r).run);
  }

  /** A destroy job that runs is waited for; one that failed is reported, and the object stays until there is a new retry token. */
  lemma DestroyJobAnswered(w: World, c: Configuration)
    requires TeardownBegun(w, c) && MustDestroy(w, c) && DestroyJob(c, w.jobs).Some?
    ensures var v := Reconcile(w, map[]); var j := DestroyJob(c, w.jobs).value;
            && (!j.complete ==> v.jobs == w.jobs && Stays(c, v) && v.secrets.state == w.secrets.state)
            && (IsActive(j) ==>
                  IsInProgress(v.stored.value.status.ready) && ReconcileResult(w, map[]) == Requeued)
            && (j.failed && !j.complete ==>
                  && IsFailed(v.stored.value.status.ready, c.generation)
                  && v.stored.value.status.resourceStatus == DestroyingFailed
                  && ReconcileResult(w, map[]) == Settled)
  {
    hide RunAll, BeforeDestroy, TerraformDestroy, Start, UndoInputs, Orphaned, DestroyJob,
         Reconcile, ReconcileResult, DeleteSecrets, JobsDeleted, FinalizerRemoved, IsDeletionCandidate, IsFailed;
    DeletionStores(w, c);
    AtDestroyStep(w, c);
    var b := BeforeDestroy(Start(w, c, map[])).run;
    DestroyAnswers(b);
    DestroyKeeps(b);
  }

  // ---- nothing left to destroy

  lemma {:induction false} SecretsPass(r: Run, kinds: seq<SecretKind>)
    requires r.faults == map[]
    ensures DeleteSecrets(r, kinds).outcome.Continue? && DeleteSecrets(r, kinds).run.faults == map[]
    decreases |kinds|
  {
    hide Set, Without;
    if kinds != [] {
      SecretsPass(r.(w := r.w.(secrets := Without(r.w.secrets, kinds[0]))), kinds[1..]);
    }
  }

  lemma {:induction false} JobsPass(r: Run, list: seq<Job>, i: nat)
    requires r.faults == map[] && i <= |list|
    ensures DeleteJobs(r, list, i).outcome.Continue? && DeleteJobs(r, list, i).run.faults == map[]
    decreases |list| - i
  {
    hide Set, Removed;
    if i < |list| {
      JobsPass(r.(w := r.w.(jobs := Removed(r.w.jobs, list[i]))), list, i + 1);
    }
  }

  lemma JobsDeletedPass(r: Run)
    requires r.faults == map[]
    ensures JobsDeleted(r).outcome.Continue? && JobsDeleted(r).run.faults == map[]
  {
    hide DeleteJobs, LabelledJobs;
    JobsPass(r, LabelledJobs(r.c.owner, r.w.jobs), 0);
  }

  lemma {:induction false} OthersRemain(fs: seq<Finalizer>)
    ensures forall f :: f in WithoutOurs(fs) <==> f in fs && f != Ours
    ensures Ours in fs ==> |WithoutOurs(fs)| < |fs|
    ensures |WithoutOurs(fs)| <= |fs|
  {
    if fs != [] {
      var n := |fs| - 1;
      OthersRemain(fs[..n]);
      assert fs == fs[..n] + [fs[n]];
    }
  }

  /**
   An object being deleted is taken down, if it lists no finalizer twice, if and only if it has none,
   or ours and besides at most the garbage collector's.
   */
  lemma CandidateExact(c: Configuration)
    requires forall i, k :: 0 <= i < k < |c.finalizers| ==> c.finalizers[i] != c.finalizers[k]
    ensures IsDeletionCandidate(c) <==>
              && c.deleting
              && (c.finalizers != [] ==> Ours in c.finalizers)
              && forall f :: f in c.finalizers ==> f == Ours || f == DeleteDependents
  {
    var fs := c.finalizers;
    if |fs| == 1 {
      assert fs == [fs[0]];
      assert fs[0] in fs;
    } else if |fs| == 2 {
      assert fs == [fs[0], fs[1]];
      assert fs[0] in fs && fs[1] in fs && fs[0] != fs[1];
    } else if |fs| > 2 {
      assert fs[0] in fs && fs[1] in fs && fs[2] in fs;
      assert fs[0] != fs[1] && fs[0] != fs[2] && fs[1] != fs[2];
    }
  }

  /** What is left of a candidate's finalizers: nothing, or the garbage collector's. */
  lemma CandidateReleased(c: Configuration)
    requires IsDeletionCandidate(c) && Ours in c.finalizers
    ensures WithoutOurs(c.finalizers) == if DeleteDependents in c.finalizers then [DeleteDependents] else []
  {
    var fs := WithoutOurs(c.finalizers);
    OthersRemain(c.finalizers);
    assert c.finalizers == [Ours] || (|c.finalizers| == 2 && Ours in c.finalizers && DeleteDependents in c.finalizers);
    if DeleteDependents !in c.finalizers {
      assert |fs| == 0;
    } else {
      assert DeleteDependents in fs;
      assert |fs| == 1 && fs[0] == DeleteDependents;
    }
  }

  lemma ReleasePasses(r: Run)
    requires r.faults == map[] && IsDeletionCandidate(r.c) && Ours in r.c.finalizers
    requires r.w.stored.Some? && r.w.stored.value.deleting
    ensures var x := FinalizerRemoved(r);
            && x.outcome.Continue?
            && (x.run.w.stored.None? <==> DeleteDependents !in r.c.finalizers)
            && (x.run.w.stored.Some? ==> x.run.w.stored.value.finalizers == [DeleteDependents])
  {
    hide WithoutOurs, IsDeletionCandidate;
    CandidateReleased(r.c);
  }

  /** All six secrets and every job labelled with the object's name are gone, all other jobs are there. */
  ghost predicate Cleared(w: World, c: Configuration, v: World) {
    && NoSecrets(v.secrets)
    && (forall j :: j in v.jobs <==> j in w.jobs && !Labelled(c.owner, j))
  }

  /** The object is gone, or left to the garbage collector whose finalizer is on it. */
  predicate Released(c: Configuration, v: World) {
    if DeleteDependents in c.finalizers then v.stored.Some? && v.stored.value.finalizers == [DeleteDependents]
    else v.stored.None?
  }

  /** With nothing left to destroy, one reconcile without faults clears up and lets the object go. */
  lemma TornDown(w: World, c: Configuration)
    requires TeardownBegun(w, c) && Ours in c.finalizers
    requires MustDestroy(w, c) ==> DestroyJob(c, w.jobs).Some? && DestroyJob(c, w.jobs).value.complete
    ensures var v := Reconcile(w, map[]); Cleared(w, c, v) && Released(c, v) && ReconcileResult(w, map[]) == Settled
  {
    hide RunAll, BeforeDestroy, TerraformDestroy, Start, UndoInputs, DestroyJob, Gone, Labelled,
         Reconcile, ReconcileResult, DeleteSecrets, JobsDeleted, FinalizerRemoved, IsDeletionCandidate, NoSecrets;
    var r := Start(w, c, map[]);
    DeletionStores(w, c);
    AtDestroyStep(w, c);
    var b := BeforeDestroy(r).run;
    DestroyStepExact(b);
    DestroyEffect(b);
    DestroyKeeps(b);
    var d := TerraformDestroy(b).run;
    assert AtDestroy(r) == Step(d, Continue);
    SecretsPass(d, SIX_SECRETS);
    SecretsGone(d, SIX_SECRETS, {});
    var s := DeleteSecrets(d, SIX_SECRETS).run;
    AllGone(s.w.secrets);
    JobsDeletedPass(s);
    JobsDeletedEffect(s);
    var j := JobsDeleted(s).run;
    SameCandidate(c, j.c);
    ReleasePasses(j);
    ReleaseEffect(j);
  }

  lemma SameCandidate(c: Configuration, d: Configuration)
    requires SameButStatus(c, d)
    ensures IsDeletionCandidate(c) ==> IsDeletionCandidate(d) && c.deleting
  {
  }

  // ---- the whole way

  /** Every destroy job of the object has succeeded. */
  predicate DestroysDone(w: World, c: Configuration) {
    forall j :: j in w.jobs && IsDestroyOf(c, j) ==> j.complete
  }

  /** The environment let the destroy job that is listed succeed, and left the object and its dependencies alone. */
  predicate LetsFinish(u: World, v: World) {
    && v.stored == u.stored && v.inputs == u.inputs
    && |u.jobs| <= |v.jobs|
    && (forall i :: 0 <= i < |u.jobs| ==> v.jobs[i].labels == u.jobs[i].labels)
    && (u.stored.Some? ==> DestroysDone(v, u.stored.value))
  }

  /**
   Deletion arrives: where destroy jobs succeed, the first reconcile lets the object go, or it
   creates the destroy job and the next reconcile does.
   */
  lemma TeardownArrives(w: World, c: Configuration, v: World)
    requires TeardownBegun(w, c) && Ours in c.finalizers && DestroysDone(w, c)
    requires LetsFinish(Reconcile(w, map[]), v)
    ensures Released(c, Reconcile(w, map[])) || Released(c, Reconcile(v, map[]))
  {
    hide Reconcile, UndoInputs, Orphaned, DestroyJob, IsDestroyOf, IsDeletionCandidate, IsInProgress;
    DestroyJobIs(c, w.jobs);
    if MustDestroy(w, c) && DestroyJob(c, w.jobs).None? {
      DestroyIsLaunched(w, c);
      var u := Reconcile(w, map[]);
      var d, n := u.stored.value, |w.jobs|;
      SameUndoing(c, d, w.inputs);
      SameLabels(u.jobs[n], v.jobs[n], c);
      SameDestroyOf(c, d, v.jobs[n]);
      assert v.jobs[n] in v.jobs;
      DestroyJobIs(d, v.jobs);
      TornDown(v, d);
    } else {
      TornDown(w, c);
    }
  }

  lemma SameUndoing(c: Configuration, d: Configuration, i: Inputs)
    requires SameButStatus(c, d)
    ensures UndoInputs(c, i) == UndoInputs(d, i)
    ensures IsDeletionCandidate(c) == IsDeletionCandidate(d)
  {
    hide ValueFrom.Resolve, Policies.FindMatchingPolicy;
  }

  lemma SameLabels(j: Job, k: Job, c: Configuration)
    requires j.labels == k.labels
    ensures IsDestroyOf(c, j) == IsDestroyOf(c, k)
  {
  }

  /** As a run: reconcile, the job succeeds, reconcile, and the object is no more. */
  lemma TeardownInThree(o: Owner, w: World, c: Configuration)
    requires TeardownBegun(w, c) && c.finalizers == [Ours] && MustDestroy(w, c)
    requires forall j :: j in w.jobs ==> !IsDestroyOf(c, j)
    ensures var u := Next(o, w, Reconciles(map[]));
            var v := Next(o, u, JobEnds(|w.jobs|, true));
            Next(o, v, Reconciles(map[])).stored.None?
  {
    hide Reconcile, UndoInputs, Orphaned, DestroyJob, IsDestroyOf, IsDeletionCandidate, IsInProgress, MustDestroy;
    DestroyIsLaunched(w, c);
    var u := Reconcile(w, map[]);
    var n := |w.jobs|;
    var v := EndJob(u, n, true);
    var d := u.stored.value;
    forall i | 0 <= i < n ensures v.jobs[i] in w.jobs {
      assert v.jobs[i] == u.jobs[..n][i];
    }
    forall j | j in v.jobs && IsDestroyOf(d, j) ensures j.complete {
      SameDestroyOf(c, d, j);
    }
    assert LetsFinish(u, v);
    TeardownArrives(w, c, v);
  }

  // ---- other configurations

  /** The job's labels name another configuration, or none. */
  predicate IsNeighbours(o: Owner, j: Job) {
    Get(j.labels, NameKey) != o.name || Get(j.labels, NamespaceKey) != o.namespace
  }

  lemma DeletionSpares(w: World, c: Configuration, faults: Faults, j: Job)
    requires j in w.jobs && IsNeighbours(c.owner, j)
    ensures j in RunAll(DELETION, Start(w, c, faults)).run.w.jobs
  {
    hide RunAll, BeforeDestroy, TerraformDestroy, DeleteSecrets, JobsDeleted, FinalizerRemoved, Start, Gone, Launched;
    var r := Start(w, c, faults);
    DeletionPhases(r);
    UndoingFacts(w, c, faults);
    var b := BeforeDestroy(r);
    DestroyEffect(b.run);
    LaunchedKeeps(b.run.w, TerraformDestroy(b.run).run.w, b.run.c, DestroyStage);
    var d := AtDestroy(r);
    SecretsGone(d.run, SIX_SECRETS, {});
    var s := AtSecrets(r);
    JobsDeletedEffect(s.run);
    var k := AtJobs(r);
    ReleaseEffect(k.run);
    SecretsOwner(w, c, faults);
  }

  lemma SecretsOwner(w: World, c: Configuration, faults: Faults)
    ensures AtSecrets(Start(w, c, faults)).run.c.owner == c.owner
  {
    hide BeforeDestroy, TerraformDestroy, DeleteSecrets, Start, Gone, Launched;
    var r := Start(w, c, faults);
    UndoingFacts(w, c, faults);
    DestroyEffect(BeforeDestroy(r).run);
    SecretsGone(AtDestroy(r).run, SIX_SECRETS, {});
  }

  lemma LaunchedKeeps(v: World, w: World, c: Configuration, stage: Stage)
    ensures Launched(v, w, c, stage) ==> forall j :: j in v.jobs ==> j in w.jobs
  {
    if Launched(v, w, c, stage) {
      forall j | j in v.jobs ensures j in w.jobs {
        assert j in w.jobs[..|v.jobs|];
      }
    }
  }

  /** The normal list only adds jobs. */
  lemma NormalAdds(w: World, c: Configuration, faults: Faults, j: Job)
    requires j in w.jobs
    ensures j in RunAll(NORMAL, Start(w, c, faults)).run.w.jobs
  {
    hide RunAll, AtCapture, TerraformPlan, TerraformApply, ConnectionWritten, StatusRecorded, Launched, Start;
    var r := Start(w, c, faults);
    NormalPhases(r);
    Theorems.AllBenign();
    AtCaptureEnters(r);
    ThenAllQuiet(AtCapture(r), PREPARATION);
    var b := BeforePlan(r);
    PlanEffect(b.run);
    LaunchedKeeps(b.run.w, TerraformPlan(b.run).run.w, b.run.c, PlanStage);
    var p := AtPlan(r);
    ThenAllQuiet(p, REVIEW);
    var v := BeforeApply(r);
    ApplyEffect(v.run);
    LaunchedKeeps(v.run.w, TerraformApply(v.run).run.w, v.run.c, ApplyStage);
    RecordingQuiet(AtApply(r).run);
    Gating.StatusFrame(AtConnection(r).run);
    assert Start(w, c, faults).w == w by { Begin(w, c, faults); }
  }

  lemma Begin(w: World, c: Configuration, faults: Faults)
    ensures Start(w, c, faults).w == w
  {
  }

  /** No reconcile, whatever calls fail, removes a job whose labels name another configuration. */
  lemma NeighboursKept(w: World, faults: Faults, j: Job)
    requires w.stored.Some? && j in w.jobs && IsNeighbours(w.stored.value.owner, j)
    ensures j in Reconcile(w, faults).jobs
  {
    hide RunAll, Conclude, IsDeletionCandidate, IsNeighbours;
    var c := w.stored.value;
    if IsDeletionCandidate(c) {
      DeletionSpares(w, c, faults, j);
    } else {
      NormalAdds(w, c, faults, j);
    }
  }
}
