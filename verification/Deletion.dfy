/** Deletion: when the terraform state may go, and what is gone once the finalizer is. */
module Deletion {
  import opened Base
  import opened Labels
  import opened Jobs
  import opened Conditions
  import opened Cluster
  import opened Ensures
  import opened Runner
  import opened Frames
  import opened Safety
  import opened Theorems
  import opened Effects

  function RetryLabel(c: Configuration): (m: LabelMap) {
    map[RetryKey := Read(c.annotations, RetryAnnotation)]
  }

  /** The destroy job of the current generation and retry token, the youngest if several. */
  function DestroyJob(c: Configuration, jobs: seq<Job>): (j: Option<Job>) {
    Latest(StageFilter(c.owner, c.generation, DestroyStage, RetryLabel(c)), jobs)
  }

  /** Nothing is left to destroy, as far as the controller can know. */
  predicate MayDropState(c: Configuration, jobs: seq<Job>) {
    || Orphaned(c)
    || c.status.resources == Some(0)
    || (DestroyJob(c, jobs).Some? && DestroyJob(c, jobs).value.complete)
  }

  /**
   The destroy step lets the deletion of secrets begin exactly when the configuration is orphaned
   or records zero resources, or, all calls succeeding, there is no terraform state or the
   destroy job of this generation and retry token is complete.
   */
  lemma DestroyStepExact(r: Run)
    ensures TerraformDestroy(r).outcome.Continue? <==>
              || Orphaned(r.c)
              || r.c.status.resources == Some(0)
              || (&& GetStateForDestroy !in r.faults
                  && (|| r.w.secrets.state.None?
                      || (&& RenderJob(DestroyStage) !in r.faults
                          && DestroyJob(r.c, r.s.jobs).Some?
                          && DestroyJob(r.c, r.s.jobs).value.complete)))
  {
    hide Set, Launch, Latest, StageFilter;
  }

  lemma DestroyEffect(r: Run)
    ensures var x := TerraformDestroy(r);
            && x.run.w.secrets == r.w.secrets
            && x.run.w.stored == r.w.stored
            && x.run.c.owner == r.c.owner && x.run.c.finalizers == r.c.finalizers
            && (|| SameJobs(r.w, x.run.w)
                || (Launched(r.w, x.run.w, r.c, DestroyStage) && !x.outcome.Continue?))
  {
    hide Set, FoundJob, Launch, Launched, DestroyExtra, Update, Orphaned;
    var q := Update(r, r.c.status.(resourceStatus := Destroying));
    UpdateFrame(r, r.c.status.(resourceStatus := Destroying));
    DestroyJobEffect(q);
    if Launched(q.w, DestroyByJob(q).run.w, q.c, DestroyStage) {
      LaunchedSame(r, q, DestroyByJob(q).run.w, DestroyStage);
    }
    forall st ensures Update(q, st).w == q.w && SameButStatus(q.c, Update(q, st).c) {
      UpdateFrame(q, st);
    }
  }

  lemma DestroyJobEffect(r: Run)
    ensures var x := DestroyByJob(r);
            && x.run.w.secrets == r.w.secrets
            && x.run.w.stored == r.w.stored
            && x.run.c.owner == r.c.owner && x.run.c.finalizers == r.c.finalizers
            && (|| SameJobs(r.w, x.run.w)
                || (Launched(r.w, x.run.w, r.c, DestroyStage) && !x.outcome.Continue?))
  {
    hide Set, FoundJob, Launch, Launched, DestroyExtra, Update;
    DestroyExtraFits(r);
    LaunchLaunches(r, DestroyStage, DestroyExtra(r));
    var q := Launch(r, DestroyStage, DestroyExtra(r));
    LaunchFrame(r, DestroyStage, DestroyExtra(r));
    forall st ensures Update(r, st).w == r.w && SameButStatus(r.c, Update(r, st).c) { UpdateFrame(r, st); }
    forall st ensures Update(q, st).w == q.w && SameButStatus(q.c, Update(q, st).c) { UpdateFrame(q, st); }
    var f := ReadyFail(r, None, DestroyFailed);
    forall st ensures Update(f, st).w == f.w && SameButStatus(f.c, Update(f, st).c) { UpdateFrame(f, st); }
  }

  lemma LaunchFrame(r: Run, stage: Stage, extra: LabelMap)
    ensures Launch(r, stage, extra).w.stored == r.w.stored && Launch(r, stage, extra).c == r.c
  {
    hide NewJob;
  }

  // ---- deleting the secrets

  predicate Gone(s: Secrets, k: SecretKind) {
    Without(s, k) == s
  }

  lemma WithoutIsGone(s: Secrets, k: SecretKind, l: SecretKind)
    ensures Gone(Without(s, k), k)
    ensures Gone(s, l) ==> Gone(Without(s, k), l)
  {
  }

  lemma {:induction false} SecretsGone(r: Run, kinds: seq<SecretKind>, done: set<SecretKind>)
    requires forall k :: k in done ==> Gone(r.w.secrets, k)
    ensures var x := DeleteSecrets(r, kinds);
            && x.run.w.(secrets := r.w.secrets) == r.w
            && SameButStatus(r.c, x.run.c)
            && (x.outcome.Continue? ==> x.run.c == r.c)
            && (x.outcome.Continue? ==> forall k :: k in done || k in kinds ==> Gone(x.run.w.secrets, k))
    decreases |kinds|
  {
    hide Set, Without, Gone;
    if kinds != [] && !(DeleteSecret(kinds[0]) in r.faults) {
      var s := Without(r.w.secrets, kinds[0]);
      forall k | k in done + {kinds[0]} ensures Gone(s, k) {
        WithoutIsGone(r.w.secrets, kinds[0], k);
      }
      SecretsGone(r.(w := r.w.(secrets := s)), kinds[1..], done + {kinds[0]});
      assert kinds == [kinds[0]] + kinds[1..];
    }
  }

  lemma AllGone(s: Secrets)
    requires forall k :: k in SIX_SECRETS ==> Gone(s, k)
    ensures NoSecrets(s)
  {
    assert SIX_SECRETS[0] == ConfigSecret && SIX_SECRETS[1] == CostSecret && SIX_SECRETS[2] == PolicySecret;
    assert SIX_SECRETS[3] == StateSecret && SIX_SECRETS[4] == PlanOutSecret && SIX_SECRETS[5] == PlanJsonSecret;
    assert Gone(s, ConfigSecret) && Gone(s, CostSecret) && Gone(s, PolicySecret);
    assert Gone(s, StateSecret) && Gone(s, PlanOutSecret) && Gone(s, PlanJsonSecret);
  }

  // ---- deleting the jobs

  lemma {:induction false} LabelledJobsAre(o: Owner, jobs: seq<Job>)
    ensures forall j :: j in LabelledJobs(o, jobs) <==> j in jobs && Labelled(o, j)
  {
    if jobs != [] {
      var n := |jobs| - 1;
      LabelledJobsAre(o, jobs[..n]);
      assert jobs == jobs[..n] + [jobs[n]];
    }
  }

  lemma {:induction false} JobsGone(r: Run, list: seq<Job>, i: nat)
    requires i <= |list|
    ensures var x := DeleteJobs(r, list, i);
            && x.run.w.(jobs := r.w.jobs) == r.w
            && SameButStatus(r.c, x.run.c)
            && (forall j :: j in x.run.w.jobs ==> j in r.w.jobs)
            && (x.outcome.Continue? ==> x.run.c == r.c)
            && (x.outcome.Continue? ==> forall k :: i <= k < |list| ==> list[k] !in x.run.w.jobs)
            && (forall j :: j in r.w.jobs && j !in list ==> j in x.run.w.jobs)
    decreases |list| - i
  {
    hide Set, Removed;
    if i < |list| && !(DeleteJob(i) in r.faults) {
      RemovedSubset(r.w.jobs, list[i]);
      JobsGone(r.(w := r.w.(jobs := Removed(r.w.jobs, list[i]))), list, i + 1);
    }
  }

  lemma JobsDeletedEffect(r: Run)
    ensures var x := JobsDeleted(r);
            && x.run.w.(jobs := r.w.jobs) == r.w
            && SameButStatus(r.c, x.run.c)
            && (forall j :: j in x.run.w.jobs ==> j in r.w.jobs)
            && (x.outcome.Continue? ==> x.run.c == r.c)
            && (x.outcome.Continue? ==> forall j :: j in x.run.w.jobs ==> !Labelled(r.c.owner, j))
            && (forall j :: j in r.w.jobs && !Labelled(r.c.owner, j) ==> j in x.run.w.jobs)
  {
    hide Set, DeleteJobs, LabelledJobs, Labelled;
    var list := LabelledJobs(r.c.owner, r.w.jobs);
    LabelledJobsAre(r.c.owner, r.w.jobs);
    JobsGone(r, list, 0);
  }

  // ---- the whole list

  lemma ReleaseEffect(r: Run)
    ensures var x := FinalizerRemoved(r); x.run.w.(stored := r.w.stored) == r.w
  {
    hide WithoutOurs, StoreFinalizers;
  }

  /** All a reconcile of an object being deleted can do. */
  predicate DeletionOutcome(w: World, v: World, c: Configuration) {
    // an existing terraform state goes only when nothing is left to destroy
    && (v.secrets.state == w.secrets.state || (v.secrets.state.None? && MayDropState(c, w.jobs)))
    // at most a destroy job is created; otherwise jobs only disappear
    && (|| Launched(w, v, c, DestroyStage)
        || (v.log == w.log && v.nextJob == w.nextJob && forall j :: j in v.jobs ==> j in w.jobs))
    // the object lets go only of an empty house
    && (v.stored == w.stored || (NoSecrets(v.secrets) && forall j :: j in v.jobs ==> !Labelled(c.owner, j)))
  }

  lemma UndoingFacts(w: World, c: Configuration, faults: Faults)
    ensures var r := Start(w, c, faults); var b := BeforeDestroy(r);
            && SameJobs(w, b.run.w)
            && b.run.w.stored == w.stored
            && SameButConfig(w.secrets, b.run.w.secrets)
            && SameButStatus(c, b.run.c)
            && b.run.c.status.resources == c.status.resources
            && (b.outcome.Continue? ==> b.run.s.jobs == w.jobs)
  {
    hide RunAll, CapturedState;
    var r := Start(w, c, faults);
    AllBenign();
    CaptureEnters(r);
    ThenAllQuiet(CapturedState(r), UNDOING);
  }

  lemma DeletionEffects(w: World, c: Configuration, faults: Faults)
    ensures DeletionOutcome(w, RunAll(DELETION, Start(w, c, faults)).run.w, c)
  {
    hide RunAll, BeforeDestroy, TerraformDestroy, DeleteSecrets, JobsDeleted, FinalizerRemoved, Launched,
         Start, Gone, NoSecrets, Labelled, DestroyJob, Orphaned;
    var r := Start(w, c, faults);
    DeletionPhases(r);
    UndoingFacts(w, c, faults);
    var b := BeforeDestroy(r);
    if b.outcome.Continue? {
      DestroyEffect(b.run);
      DestroyStepExact(b.run);
      SameDestroyJob(c, b.run.c, w.jobs);
      var d := TerraformDestroy(b.run);
      if Launched(b.run.w, d.run.w, b.run.c, DestroyStage) {
        Relaunched(w, c, b.run, d.run.w);
      }
      if d.outcome.Continue? {
        SecretsGone(d.run, SIX_SECRETS, {});
        var s := DeleteSecrets(d.run, SIX_SECRETS);
        assert s.run.w.secrets.state == w.secrets.state || s.run.w.secrets.state.None? by {
          StateShrinks(d.run, SIX_SECRETS);
        }
        if s.outcome.Continue? {
          AllGone(s.run.w.secrets);
          JobsDeletedEffect(s.run);
          var j := JobsDeleted(s.run);
          if j.outcome.Continue? {
            ReleaseEffect(j.run);
          }
        }
      }
    }
  }

  lemma Relaunched(w: World, c: Configuration, r: Run, v: World)
    requires Launched(r.w, v, r.c, DestroyStage) && SameJobs(w, r.w) && SameButStatus(c, r.c)
    ensures Launched(w, v, c, DestroyStage)
  {
    hide StageName;
  }

  lemma SameDestroyJob(c: Configuration, d: Configuration, jobs: seq<Job>)
    requires SameButStatus(c, d)
    ensures DestroyJob(c, jobs) == DestroyJob(d, jobs)
    ensures Orphaned(c) == Orphaned(d)
  {
  }

  lemma {:induction false} StateShrinks(r: Run, kinds: seq<SecretKind>)
    ensures var v := DeleteSecrets(r, kinds).run.w;
            v.secrets.state == r.w.secrets.state || v.secrets.state.None?
    decreases |kinds|
  {
    hide Set;
    if kinds != [] && !(DeleteSecret(kinds[0]) in r.faults) {
      StateShrinks(r.(w := r.w.(secrets := Without(r.w.secrets, kinds[0]))), kinds[1..]);
    }
  }
}
