/** When jobs are created: the gates in front of plan and apply jobs, in every run. */
module Gating {
  import opened Base
  import opened Labels
  import opened Jobs
  import opened Conditions
  import opened Cluster
  import opened Ensures
  import opened Runner
  import opened Frames
  import opened History
  import opened Safety
  import opened Theorems
  import opened Effects
  import Policies
  import Decimal

  /** No job of the configuration that carries another generation's label is still running. */
  predicate NoOtherGenerationActive(o: Owner, w: World, g: nat) {
    forall j :: j in w.jobs && Owned(o, j) && IsActive(j) ==> Get(j.labels, GenerationKey) == Decimal.Format(g)
  }

  /** What holds of the world, before the reconcile, whenever it creates a plan or apply job. */
  predicate CommonGates(o: Owner, w: World, c: Configuration) {
    && ProviderOk(w.inputs)
    && !Policies.FindMatchingPolicy(w.inputs.policies).BadSelector?
    && !Policies.FindMatchingPolicy(w.inputs.policies).Ambiguous?
    && NoOtherGenerationActive(o, w, c.generation)
  }

  /** What holds besides whenever it creates an apply job. */
  ghost predicate ApplyGates(w: World, c: Configuration) {
    && PlanSucceeded(w.log, c.generation)
    && (c.spec.autoApproval || !NeedsApproval(c))
    && w.secrets.planJson.Some? && w.secrets.planJson.value.TfPlan?
    && (w.secrets.planJson.value.needsApply || w.secrets.state.None?)
    && (Policies.FindMatchingPolicy(w.inputs.policies).Governing? ==>
          && w.secrets.report.Some?
          && WellFormed(w.secrets.report.value)
          && CountedFailures(w.secrets.report.value) <= 0)
  }

  // ---- no overlap of generations

  lemma OwnedMatchesOwner(o: Owner, log: seq<Event>, j: Job)
    requires Owned(o, j) && Traced(o, log, j)
    ensures MatchesLabels(OwnerFilter(o), j.labels)
  {
  }

  lemma LabelledOne(o: Owner, c: Configuration, log: seq<Event>, j: Job)
    requires Traced(o, log, j) && Bounded(c, log) && c.generation == 1
    ensures Get(j.labels, GenerationKey) == Decimal.Format(1)
  {
    hide Decimal.Format, StageName;
    var stage, g, auto :| TracedAs(log, j, stage, g, auto);
    var e := JobCreated(stage, g, auto, j.id);
    var i :| 0 <= i < |log| && log[i] == e;
  }

  /**
   The controller compares a job's own metadata.generation, which is 1 for every batch job, with
   the configuration's; together with generations starting at 1 that is enough: once nothing
   blocks, no job labelled with another generation is running.
   */
  lemma NothingBlocksMeans(o: Owner, w: World, c: Configuration)
    requires GoodWorld(o, w) && w.stored.Some? && c.owner == o && c.generation == w.stored.value.generation
    requires forall j :: j in w.jobs ==> !Blocks(c, j)
    ensures NoOtherGenerationActive(o, w, c.generation)
  {
    hide Lawful, NoTwins, Evident, Approvals, Decimal.Format, StageName, MatchesLabels, TracedAs;
    forall j | j in w.jobs && Owned(o, j) && IsActive(j)
      ensures Get(j.labels, GenerationKey) == Decimal.Format(c.generation)
    {
      assert !Blocks(c, j);
      OwnedMatchesOwner(o, w.log, j);
      assert j.metaGeneration == 1;
      LabelledOne(o, w.stored.value, w.log, j);
    }
  }

  // ---- the normal list, phase by phase

  /** Facts about the state in which the plan step starts. */
  lemma AtPlanFacts(o: Owner, w: World, faults: Faults)
    requires GoodWorld(o, w) && w.stored.Some?
    ensures var r := Start(w, w.stored.value, faults); var b := BeforePlan(r);
            && b.run.w.secrets.state == w.secrets.state
            && SameJobs(w, b.run.w)
            && (b.outcome.Continue? ==>
                  && SameButConfig(w.secrets, b.run.w.secrets)
                  && b.run.w.inputs == w.inputs
                  && SameButStatus(w.stored.value, b.run.c)
                  && b.run.s.policies == w.inputs.policies
                  && CommonGates(o, w, w.stored.value)
                  && PolicyChosen(b.run))
  {
    hide RunAll, AtCapture, GoodWorld, ProviderOk, Blocks, Policies.FindMatchingPolicy, Start, NoOtherGenerationActive;
    var c := w.stored.value;
    var r := Start(w, c, faults);
    StartShape(w, c, faults);
    AllBenign();
    AtCaptureEnters(r);
    var a := AtCapture(r);
    ThenAllQuiet(a, PREPARATION);
    var b := BeforePlan(r);
    if b.outcome.Continue? {
      PreparationPassed(a.run);
      GoodOwner(o, w);
      assert forall j :: j in w.jobs ==> !Blocks(c, j) by {
        forall j | j in w.jobs ensures !Blocks(c, j) {
          assert !Blocks(a.run.c, j);
          SameBlocks(a.run.c, c, j);
        }
      }
      NothingBlocksMeans(o, w, c);
    }
  }

  lemma StartShape(w: World, c: Configuration, faults: Faults)
    ensures var r := Start(w, c, faults); r.w == w && r.c == c && r.s == EMPTY_LOCAL && r.faults == faults
  {
  }

  lemma GoodOwner(o: Owner, w: World)
    requires GoodWorld(o, w) && w.stored.Some?
    ensures w.stored.value.owner == o
  {
    hide Lawful, NoTwins, Recorded, Evident, Approvals;
  }

  /** Facts about the state in which the apply step starts. */
  lemma AtApplyFacts(o: Owner, w: World, faults: Faults)
    requires GoodWorld(o, w) && w.stored.Some?
    requires BeforeApply(Start(w, w.stored.value, faults)).outcome.Continue?
    ensures var c := w.stored.value; var b := BeforeApply(Start(w, c, faults));
            && SameJobs(w, b.run.w)
            && b.run.c.generation == c.generation && b.run.c.spec == c.spec && b.run.c.owner == c.owner
            && b.run.c.annotations == c.annotations
            && b.run.w.secrets.state == w.secrets.state
            && CommonGates(o, w, c)
            && PlanSucceeded(w.log, c.generation)
            && w.secrets.planJson.Some? && w.secrets.planJson.value.TfPlan?
            && b.run.s.hasDrift == w.secrets.planJson.value.needsApply
            && (Policies.FindMatchingPolicy(w.inputs.policies).Governing? ==>
                  && w.secrets.report.Some?
                  && WellFormed(w.secrets.report.value)
                  && CountedFailures(w.secrets.report.value) <= 0)
  {
    hide RunAll, BeforePlan, TerraformPlan, GoodWorld, GoodRun, CommonGates, Policies.FindMatchingPolicy,
         Start, PlanSucceeded, WellFormed, CountedFailures;
    var c := w.stored.value;
    var r := Start(w, c, faults);
    AtPlanFacts(o, w, faults);
    StartGood(o, w, faults);
    UpToPlanKeeps(o, r);
    var b := BeforePlan(r).run;
    PlanKeeps(o, b);
    PlanStepFrame(b);
    var p := TerraformPlan(b).run;
    assert PolicyChosen(p);
    ReviewPassed(p);
    UpToApplyKeeps(o, r);
    EvidenceOf(o, BeforeApply(r).run);
    AllBenign();
    BenignListIsQuiet(REVIEW, p);
  }

  lemma EvidenceOf(o: Owner, r: Run)
    requires GoodRun(o, r) && IsComplete(r.c.status.plan, r.c.generation)
    ensures PlanSucceeded(r.w.log, r.c.generation)
  {
    hide GoodWorld, PlanSucceeded;
  }

  lemma PlanStepFrame(r: Run)
    requires TerraformPlan(r).outcome.Continue?
    ensures SameButStatus(r.c, TerraformPlan(r).run.c)
  {
    hide Set, AskApproval, LaunchPlan, IsRetryable, RetryTime, FoundJob, PlanExtra, DetectErrors, PlanSettled;
    AskEffect(r);
    DetectEffect(PlanFail(r, None, PlanFailed));
    assert !LaunchPlan(r).outcome.Continue? by { LaunchStops(r); }
  }

  /** All a reconcile of a live object can do to the jobs and to the terraform state. */
  ghost predicate NormalOutcome(o: Owner, w: World, v: World, c: Configuration) {
    && v.secrets.state == w.secrets.state
    && (|| SameJobs(w, v)
        || (Launched(w, v, c, PlanStage) && CommonGates(o, w, c))
        || (Launched(w, v, c, ApplyStage) && CommonGates(o, w, c) && ApplyGates(w, c)))
  }

  lemma NormalEffects(o: Owner, w: World, faults: Faults)
    requires GoodWorld(o, w) && w.stored.Some?
    ensures NormalOutcome(o, w, RunAll(NORMAL, Start(w, w.stored.value, faults)).run.w, w.stored.value)
  {
    hide RunAll, BeforePlan, TerraformPlan, TerraformApply, GoodWorld, CommonGates, Launched,
         Start, PlanSucceeded, ConnectionWritten, StatusRecorded, Policies.FindMatchingPolicy, WellFormed, CountedFailures;
    var c := w.stored.value;
    var r := Start(w, c, faults);
    NormalPhases(r);
    AtPlanFacts(o, w, faults);
    var b := BeforePlan(r);
    if b.outcome.Continue? {
      PlanEffect(b.run);
      var p := TerraformPlan(b.run);
      if Launched(b.run.w, p.run.w, b.run.c, PlanStage) {
        LaunchedAgree(w, c, b.run, p.run.w, PlanStage);
      }
      AllBenign();
      if p.outcome.Continue? {
        BenignListIsQuiet(REVIEW, p.run);
        var a := BeforeApply(r);
        if a.outcome.Continue? {
          AtApplyFacts(o, w, faults);
          ApplyEffect(a.run);
          var z := TerraformApply(a.run);
          if Launched(a.run.w, z.run.w, a.run.c, ApplyStage) {
            LaunchedAgree(w, c, a.run, z.run.w, ApplyStage);
          }
          if z.outcome.Continue? {
            RecordingQuiet(z.run);
            StatusFrame(ConnectionWritten(z.run).run);
          }
        }
      }
    }
  }

  lemma StatusFrame(r: Run)
    ensures StatusRecorded(r).run.w == r.w
  {
    hide Set;
  }

  lemma LaunchedAgree(w: World, c: Configuration, r: Run, v: World, stage: Stage)
    requires Launched(r.w, v, r.c, stage) && SameJobs(w, r.w)
    requires r.c.generation == c.generation && r.c.spec == c.spec && r.c.owner == c.owner
    ensures Launched(w, v, c, stage)
  {
    hide StageName, Decimal.Format;
  }
}
