/** The invariant of every run, and what it says about jobs, plans and approvals. */
module Safety {
  import opened Base
  import opened Labels
  import opened Jobs
  import opened Conditions
  import opened Cluster
  import opened Ensures
  import opened Frames
  import opened History
  import Decimal

  predicate Owned(o: Owner, j: Job) {
    Get(j.labels, UidKey) == o.uid
  }

  /** The job's labels tell the stage and generation the log recorded for it. */
  ghost predicate TracedAs(log: seq<Event>, j: Job, stage: Stage, g: nat, auto: bool) {
    && g >= 1
    && JobCreated(stage, g, auto, j.id) in log
    && Get(j.labels, StageKey) == StageName(stage)
    && Get(j.labels, GenerationKey) == Decimal.Format(g)
  }

  ghost predicate Traced(o: Owner, log: seq<Event>, j: Job) {
    && j.metaGeneration == 1
    && j.labels != map[]
    && Get(j.labels, NameKey) == o.name
    && Get(j.labels, NamespaceKey) == o.namespace
    && (j.complete ==> JobFinished(j.id, true) in log)
    && exists stage, g, auto :: TracedAs(log, j, stage, g, auto)
  }

  /** Every job of ours is accounted for in the log, under an id no later job will get. */
  ghost predicate Recorded(o: Owner, w: World) {
    && (forall j :: j in w.jobs ==> j.id < w.nextJob)
    && (forall j :: j in w.jobs && Owned(o, j) ==> Traced(o, w.log, j))
  }

  /** No job was created for a generation the object has not reached. */
  predicate Bounded(c: Configuration, log: seq<Event>) {
    && c.generation >= 1
    && forall i :: 0 <= i < |log| && log[i].JobCreated? ==> log[i].generation <= c.generation
  }

  /** The labels besides stage and generation that tell jobs of one stage apart. */
  function KeysOf(stage: string): (s: set<Key>) {
    if stage == StageName(PlanStage) then {DriftKey, RetryKey, TemplateHashKey}
    else if stage == StageName(ApplyStage) then {PlanIdKey, TemplateHashKey}
    else {RetryKey}
  }

  predicate SameKey(a: LabelMap, b: LabelMap) {
    && Get(a, StageKey) == Get(b, StageKey)
    && Get(a, GenerationKey) == Get(b, GenerationKey)
    && forall k :: k in KeysOf(Get(a, StageKey)) ==> Get(a, k) == Get(b, k)
  }

  predicate NoTwins(o: Owner, jobs: seq<Job>) {
    forall i, k :: 0 <= i < k < |jobs| && Owned(o, jobs[i]) && Owned(o, jobs[k]) ==>
      !SameKey(jobs[i].labels, jobs[k].labels)
  }

  /** A plan condition that is True has a successful plan job behind it. */
  ghost predicate Evident(plan: Condition, log: seq<Event>) {
    plan.status == StatusTrue ==> PlanSucceeded(log, plan.observed)
  }

  /** Without auto approval, an annotation other than "false" has been moved since the last plan. */
  ghost predicate Approvals(c: Configuration, log: seq<Event>) {
    !c.spec.autoApproval && PlanSeen(log, c.generation) && !NeedsApproval(c) ==> ApprovedSince(log, c.generation)
  }

  ghost predicate GoodObject(o: Owner, c: Configuration, log: seq<Event>) {
    && c.owner == o
    && Bounded(c, log)
    && Evident(c.status.plan, log)
    && Approvals(c, log)
  }

  ghost predicate GoodWorld(o: Owner, w: World) {
    && o.uid != ""
    && Recorded(o, w)
    && NoTwins(o, w.jobs)
    && Lawful(w.log)
    && (w.stored.Some? ==> GoodObject(o, w.stored.value, w.log))
  }

  /** The copy in memory agrees with the stored object on all that approval depends on. */
  predicate InStep(c: Configuration, d: Configuration) {
    c.generation == d.generation && c.spec == d.spec && c.annotations == d.annotations && c.owner == d.owner
  }

  ghost predicate GoodRun(o: Owner, r: Run) {
    && GoodWorld(o, r.w)
    && r.w.stored.Some?
    && r.c.owner == o
    && InStep(r.c, r.w.stored.value)
    && Evident(r.c.status.plan, r.w.log)
  }

  // ---- steps that create no job

  lemma QuietKeeps(o: Owner, r: Run, q: Run)
    requires GoodRun(o, r) && Quiet(r, q)
    ensures GoodRun(o, q)
  {
    hide Lawful, NoTwins, Evident, GoodObject, Traced;
  }

  lemma EnteringKeeps(o: Owner, r: Run, q: Run)
    requires GoodRun(o, r) && Entering(r, q)
    ensures GoodRun(o, q)
  {
    hide Lawful, NoTwins, Evident, Traced;
  }

  // ---- creating a job

  predicate ExtraFor(stage: Stage, extra: LabelMap) {
    extra.Keys == KeysOf(StageName(stage))
  }

  lemma ExtraForIsExtra(stage: Stage, extra: LabelMap)
    requires ExtraFor(stage, extra)
    ensures ExtraKeys(extra)
  {
  }

  /** An owned job with the new job's key would have been found. */
  lemma TwinIsFound(o: Owner, log: seq<Event>, j: Job, g: nat, stage: Stage, extra: LabelMap, labels: LabelMap)
    requires Owned(o, j) && Traced(o, log, j) && ExtraFor(stage, extra)
    requires Get(labels, StageKey) == StageName(stage)
    requires Get(labels, GenerationKey) == Decimal.Format(g)
    requires forall k :: k in extra ==> Get(labels, k) == extra[k]
    requires SameKey(j.labels, labels)
    ensures MatchesLabels(StageFilter(o, g, stage, extra), j.labels)
  {
    hide StageName;
    forall k | k in extra ensures Get(j.labels, k) == extra[k] {
      assert k in KeysOf(Get(j.labels, StageKey));
    }
  }

  lemma LaunchNoTwins(o: Owner, r: Run, stage: Stage, extra: LabelMap)
    requires GoodRun(o, r) && ExtraFor(stage, extra)
    requires r.s.jobs == r.w.jobs && FoundJob(r, stage, extra).None?
    ensures NoTwins(o, r.w.jobs + [NewJob(r, stage, extra)])
  {
    hide Lawful, GoodObject, Latest, MatchesLabels, SameKey, RenderLabels, Additional, StageFilter, Traced, KeysOf;
    var n := NewJob(r, stage, extra);
    var f := StageFilter(o, r.c.generation, stage, extra);
    LatestIsYoungestMatch(f, r.w.jobs);
    ExtraForIsExtra(stage, extra);
    RenderedLabels(o, r.c.generation, stage, r.w.inputs.controllerLabels, ProviderLabels(r), r.c.labels, extra);
    forall i | 0 <= i < |r.w.jobs| && Owned(o, r.w.jobs[i])
      ensures !SameKey(r.w.jobs[i].labels, n.labels)
    {
      var j := r.w.jobs[i];
      assert j in r.w.jobs;
      if SameKey(j.labels, n.labels) {
        TwinIsFound(o, r.w.log, j, r.c.generation, stage, extra, n.labels);
        assert false;
      }
    }
  }

  lemma TracedGrows(o: Owner, log: seq<Event>, e: Event, j: Job)
    requires Traced(o, log, j)
    ensures Traced(o, log + [e], j)
  {
    hide StageName, Decimal.Format;
    var stage, g, auto :| TracedAs(log, j, stage, g, auto);
    assert TracedAs(log + [e], j, stage, g, auto);
  }

  lemma LaunchRecorded(o: Owner, r: Run, stage: Stage, extra: LabelMap)
    requires GoodRun(o, r) && ExtraFor(stage, extra)
    ensures Recorded(o, Launch(r, stage, extra).w)
  {
    hide Lawful, GoodObject, NoTwins, RenderLabels, Additional, Traced, KeysOf, Evident;
    var q := Launch(r, stage, extra);
    var n := NewJob(r, stage, extra);
    var e := JobCreated(stage, r.c.generation, r.c.spec.autoApproval, r.w.nextJob);
    ExtraForIsExtra(stage, extra);
    RenderedLabels(o, r.c.generation, stage, r.w.inputs.controllerLabels, ProviderLabels(r), r.c.labels, extra);
    NewIsTraced(o, r, n, stage, e);
    forall j | j in q.w.jobs && Owned(o, j) ensures Traced(o, q.w.log, j) {
      if j in r.w.jobs {
        TracedGrows(o, r.w.log, e, j);
      }
    }
  }

  lemma NewIsTraced(o: Owner, r: Run, n: Job, stage: Stage, e: Event)
    requires GoodRun(o, r)
    requires e == JobCreated(stage, r.c.generation, r.c.spec.autoApproval, n.id)
    requires n.metaGeneration == 1 && !n.complete
    requires n.labels != map[] && Get(n.labels, NameKey) == o.name && Get(n.labels, NamespaceKey) == o.namespace
    requires Get(n.labels, StageKey) == StageName(stage)
    requires Get(n.labels, GenerationKey) == Decimal.Format(r.c.generation)
    ensures Traced(o, r.w.log + [e], n)
  {
    hide Lawful, NoTwins, Recorded, Evident, StageName, Decimal.Format;
    assert TracedAs(r.w.log + [e], n, stage, r.c.generation, r.c.spec.autoApproval);
  }

  /** When a job may be created: plans only while approval is pending, applies only once granted. */
  ghost predicate Permitted(r: Run, stage: Stage) {
    && (stage == PlanStage ==> r.c.spec.autoApproval || NeedsApproval(r.c))
    && (stage == ApplyStage ==>
          && IsComplete(r.c.status.plan, r.c.generation)
          && (r.c.spec.autoApproval || !NeedsApproval(r.c)))
  }

  lemma LaunchLaw(o: Owner, r: Run, stage: Stage)
    requires GoodRun(o, r) && Permitted(r, stage)
    ensures var c := r.w.stored.value;
            var log := r.w.log + [JobCreated(stage, r.c.generation, r.c.spec.autoApproval, r.w.nextJob)];
            && Lawful(log)
            && GoodObject(o, c, log)
            && Evident(r.c.status.plan, log)
  {
    hide Lawful, NoTwins, Recorded, PlanSucceeded, PlanSeen, ApprovedSince;
    var c, log, g := r.w.stored.value, r.w.log, r.c.generation;
    var e := JobCreated(stage, g, r.c.spec.autoApproval, r.w.nextJob);
    if stage == ApplyStage {
      PlanSucceededIsSeen(log, g);
    }
    LawfulExtends(log, e);
    EvidentGrows(c.status.plan, log, e);
    EvidentGrows(r.c.status.plan, log, e);
    PlanSeenExtends(log, e, g);
    ApprovedSinceExtends(log, e, g);
  }

  lemma EvidentGrows(plan: Condition, log: seq<Event>, e: Event)
    requires Evident(plan, log)
    ensures Evident(plan, log + [e])
  {
    hide PlanSucceeded;
    if plan.status == StatusTrue {
      PlanSucceededGrows(log, e, plan.observed);
    }
  }

  lemma LaunchKeeps(o: Owner, r: Run, stage: Stage, extra: LabelMap)
    requires GoodRun(o, r) && ExtraFor(stage, extra) && Permitted(r, stage)
    requires r.s.jobs == r.w.jobs && FoundJob(r, stage, extra).None?
    ensures GoodRun(o, Launch(r, stage, extra))
  {
    hide Lawful, NoTwins, Recorded, GoodObject, Evident, FoundJob, Permitted, ExtraFor, NewJob;
    LaunchNoTwins(o, r, stage, extra);
    LaunchRecorded(o, r, stage, extra);
    LaunchLaw(o, r, stage);
  }

  // ---- the steps of a reconcile

  /** What every run leaves behind, however it ended. */
  ghost predicate GoodEnd(o: Owner, r: Run) {
    GoodWorld(o, r.w) && Evident(r.c.status.plan, r.w.log)
  }

  lemma CompletePlanJob(o: Owner, r: Run, extra: LabelMap)
    requires GoodRun(o, r) && r.s.jobs == r.w.jobs
    requires FoundJob(r, PlanStage, extra).Some? && FoundJob(r, PlanStage, extra).value.complete
    ensures PlanSucceeded(r.w.log, r.c.generation)
  {
    hide Lawful, NoTwins, GoodObject, Evident, Latest, StageName, Decimal.Format;
    var f := StageFilter(o, r.c.generation, PlanStage, extra);
    LatestIsYoungestMatch(f, r.w.jobs);
    var j := FoundJob(r, PlanStage, extra).value;
    assert Owned(o, j);
    assert Decimal.Format(r.c.generation) != "" && StageName(PlanStage) != "";
    var stage, g, auto :| TracedAs(r.w.log, j, stage, g, auto);
    StageNameInjective(stage, PlanStage);
    Decimal.FormatInjective(g, r.c.generation);
  }

  /** Setters of the conditions other than the plan's keep everything. */
  lemma SettersKeep(o: Owner, r: Run)
    requires GoodRun(o, r)
    ensures forall d {:trigger SetReady(r, d)} :: GoodRun(o, SetReady(r, d))
    ensures forall d {:trigger SetApply(r, d)} :: GoodRun(o, SetApply(r, d))
    ensures forall st: ConfigurationStatus {:trigger Update(r, st)} :: st.plan == r.c.status.plan ==> GoodRun(o, Update(r, st))
  {
    hide Lawful, NoTwins, GoodObject, Recorded, Evident;
  }

  lemma PlanSetterKeeps(o: Owner, r: Run, d: Condition)
    requires GoodRun(o, r) && Evident(d, r.w.log)
    ensures GoodRun(o, SetPlan(r, d))
  {
    hide Lawful, NoTwins, GoodObject, Recorded, Evident;
  }

  lemma PlanFailKeeps(o: Owner, r: Run)
    requires GoodRun(o, r)
    ensures forall e, m {:trigger PlanFail(r, e, m)} :: GoodRun(o, PlanFail(r, e, m))
  {
    hide GoodRun;
    forall e, m ensures GoodRun(o, PlanFail(r, e, m)) {
      PlanSetterKeeps(o, r, Fail(r.c.status.plan, r.c.generation, e, m, r.w.now));
    }
  }

  lemma DetectKeeps(o: Owner, r: Run)
    requires GoodRun(o, r)
    ensures GoodRun(o, DetectErrors(r).run)
    ensures !DetectErrors(r).outcome.Continue?
  {
    hide GoodRun, Set, SetReady;
    SettersKeep(o, r);
  }

  /** Approval is asked for: the stored annotation becomes "false", nothing else of note changes. */
  lemma AskKeeps(o: Owner, r: Run)
    requires GoodRun(o, r)
    ensures GoodEnd(o, AskApproval(r).run)
    ensures !AskApproval(r).outcome.Continue?
  {
    hide GoodRun, PlanFail, GoodWorld;
    GoodRunEnds(o, r);
    var q := r.(c := r.c.(annotations := r.c.annotations[ApplyAnnotation := "false"]));
    assert GoodEnd(o, q) by { AskInMemory(o, r, q); }
    FailEnds(o, q);
    if !(PatchApply in r.faults) {
      var p := q.(w := q.w.(stored := if q.w.stored.Some? then Some(q.w.stored.value.(annotations := q.c.annotations)) else None));
      AskStored(o, r, p);
      FailEnds(o, p);
    }
  }

  lemma AskInMemory(o: Owner, r: Run, q: Run)
    requires GoodRun(o, r) && q.w == r.w && q.c.status == r.c.status
    ensures GoodEnd(o, q)
  {
    hide GoodWorld;
  }

  lemma AskStored(o: Owner, r: Run, p: Run)
    requires GoodRun(o, r)
    requires p.c == r.c.(annotations := r.c.annotations[ApplyAnnotation := "false"])
    requires p.w == r.w.(stored := Some(r.w.stored.value.(annotations := p.c.annotations)))
    ensures GoodRun(o, p) && GoodEnd(o, p)
  {
    hide Lawful, NoTwins, Recorded, Evident;
    assert NeedsApproval(p.w.stored.value);
    assert Recorded(o, p.w) by { RecordedSame(o, r.w, p.w); }
  }

  lemma RecordedSame(o: Owner, v: World, w: World)
    requires Recorded(o, v) && w.jobs == v.jobs && w.nextJob == v.nextJob && w.log == v.log
    ensures Recorded(o, w)
  {
    hide Traced;
  }

  lemma FailEnds(o: Owner, r: Run)
    requires GoodEnd(o, r)
    ensures forall e, m {:trigger PlanFail(r, e, m)} :: GoodEnd(o, PlanFail(r, e, m))
  {
    hide GoodWorld;
  }

  lemma GoodRunEnds(o: Owner, r: Run)
    requires GoodRun(o, r)
    ensures GoodEnd(o, r) && r.w.stored.Some? && r.c.owner == o
  {
    hide GoodWorld;
  }

  predicate Snapshot(r: Run) {
    r.s.jobs == r.w.jobs
  }

  lemma PlanKeeps(o: Owner, r: Run)
    requires GoodRun(o, r) && Snapshot(r)
    ensures var x := TerraformPlan(r);
            && GoodEnd(o, x.run)
            && (x.outcome.Continue? ==>
                  && GoodRun(o, x.run)
                  && x.run.w == r.w && x.run.s == r.s
                  && IsComplete(x.run.c.status.plan, x.run.c.generation))
  {
    hide GoodRun, GoodEnd, PlanFail, AskApproval, DetectErrors, FoundJob, PlanExtra, IsRetryable, RetryTime, LaunchPlan;
    GoodRunEnds(o, r);
    PlanFailKeeps(o, r);
    forall e, m ensures GoodEnd(o, PlanFail(r, e, m)) {
      GoodRunEnds(o, PlanFail(r, e, m));
    }
    AskKeeps(o, r);
    DetectKeeps(o, PlanFail(r, None, PlanFailed));
    GoodRunEnds(o, DetectErrors(PlanFail(r, None, PlanFailed)).run);
    var found := FoundJob(r, PlanStage, PlanExtra(r));
    if found.Some? {
      if found.value.complete {
        PlanSuccess(o, r);
      } else {
        PlanRunningKeeps(o, r);
      }
    } else if r.c.spec.autoApproval || NeedsApproval(r.c) {
      LaunchPlanKeeps(o, r);
    }
  }

  lemma PlanSuccess(o: Owner, r: Run)
    requires GoodRun(o, r) && Snapshot(r)
    requires FoundJob(r, PlanStage, PlanExtra(r)).Some? && FoundJob(r, PlanStage, PlanExtra(r)).value.complete
    ensures var q := SetPlan(r, Success(r.c.status.plan, r.c.generation, PlanComplete, r.w.now));
            GoodRun(o, q) && GoodEnd(o, q) && IsComplete(q.c.status.plan, q.c.generation)
  {
    hide GoodRun, FoundJob, PlanExtra, PlanSucceeded, GoodEnd;
    CompletePlanJob(o, r, PlanExtra(r));
    var d := Success(r.c.status.plan, r.c.generation, PlanComplete, r.w.now);
    PlanSetterKeeps(o, r, d);
    GoodRunEnds(o, SetPlan(r, d));
  }

  lemma PlanRunningKeeps(o: Owner, r: Run)
    requires GoodRun(o, r)
    ensures GoodEnd(o, SetPlan(r, Progress(r.c.status.plan, r.c.generation, PlanRunning, r.w.now)))
  {
    hide GoodRun, GoodEnd;
    var d := Progress(r.c.status.plan, r.c.generation, PlanRunning, r.w.now);
    PlanSetterKeeps(o, r, d);
    GoodRunEnds(o, SetPlan(r, d));
  }

  lemma LaunchPlanKeeps(o: Owner, r: Run)
    requires GoodRun(o, r) && Snapshot(r)
    requires FoundJob(r, PlanStage, PlanExtra(r)).None?
    requires r.c.spec.autoApproval || NeedsApproval(r.c)
    ensures GoodEnd(o, LaunchPlan(r).run) && !LaunchPlan(r).outcome.Continue?
  {
    hide GoodRun, GoodEnd, FoundJob, PlanFail, Launch;
    if CreateJob(PlanStage) in r.faults {
      PlanFailKeeps(o, r);
      GoodRunEnds(o, PlanFail(r, Some(r.faults[CreateJob(PlanStage)].text), PlanCreateFailed));
    } else {
      PlanExtraFits(r);
      LaunchKeeps(o, r, PlanStage, PlanExtra(r));
      var q := Launch(r, PlanStage, PlanExtra(r));
      var d := Progress(r.c.status.plan, r.c.generation, PlanInProgress, r.w.now);
      PlanSetterKeeps(o, q, d);
      GoodRunEnds(o, SetPlan(q, d));
    }
  }

  lemma PlanExtraFits(r: Run)
    ensures ExtraFor(PlanStage, PlanExtra(r))
  {
  }

  lemma ApplyExtraFits(r: Run)
    ensures ExtraFor(ApplyStage, ApplyExtra(r))
  {
    assert |StageName(ApplyStage)| != |StageName(PlanStage)|;
  }

  lemma DestroyExtraFits(r: Run)
    ensures ExtraFor(DestroyStage, DestroyExtra(r))
  {
    assert |StageName(DestroyStage)| != |StageName(PlanStage)|;
    assert |StageName(DestroyStage)| != |StageName(ApplyStage)|;
  }

  lemma ApplyKeeps(o: Owner, r: Run)
    requires GoodRun(o, r) && Snapshot(r) && IsComplete(r.c.status.plan, r.c.generation)
    ensures var x := TerraformApply(r);
            && GoodEnd(o, x.run)
            && (x.outcome.Continue? ==> GoodRun(o, x.run) && x.run.w == r.w)
  {
    hide GoodRun, GoodEnd, ApplyByJob, Set, Update, SetApply;
    SettersKeep(o, r);
    GoodRunEnds(o, r);
    forall st: ConfigurationStatus | st.plan == r.c.status.plan ensures GoodEnd(o, Update(r, st)) && Update(r, st).w == r.w {
      GoodRunEnds(o, Update(r, st));
      assert Update(r, st).w == r.w by { UpdateFrame(r, st); }
    }
    forall d ensures GoodEnd(o, SetApply(r, d)) {
      GoodRunEnds(o, SetApply(r, d));
    }
    if r.c.spec.autoApproval || !NeedsApproval(r.c) {
      ApplyByJobKeeps(o, r);
    }
  }

  lemma UpdateFrame(r: Run, st: ConfigurationStatus)
    ensures var q := Update(r, st);
            q.w == r.w && q.s == r.s && q.faults == r.faults && SameButStatus(r.c, q.c) && q.c.status == st
  {
  }

  lemma ApplyByJobKeeps(o: Owner, r: Run)
    requires GoodRun(o, r) && Snapshot(r) && IsComplete(r.c.status.plan, r.c.generation)
    requires r.c.spec.autoApproval || !NeedsApproval(r.c)
    ensures var x := ApplyByJob(r);
            && GoodEnd(o, x.run)
            && (x.outcome.Continue? ==> GoodRun(o, x.run) && x.run.w == r.w)
  {
    hide GoodRun, GoodEnd, Set, SetApply, FoundJob, DetectErrors, LaunchApply, ApplyExtra, Update;
    SettersKeep(o, r);
    forall d ensures GoodEnd(o, SetApply(r, d)) && GoodRun(o, DetectErrors(SetApply(r, d)).run)
                     && GoodEnd(o, DetectErrors(SetApply(r, d)).run) && !DetectErrors(SetApply(r, d)).outcome.Continue? {
      GoodRunEnds(o, SetApply(r, d));
      DetectKeeps(o, SetApply(r, d));
      GoodRunEnds(o, DetectErrors(SetApply(r, d)).run);
    }
    var found := FoundJob(r, ApplyStage, ApplyExtra(r));
    if found.Some? {
      var st := r.c.status.(resourceStatus := InSync,
                            apply := Success(r.c.status.apply, r.c.generation, ApplyComplete, r.w.now));
      UpdateFrame(r, st);
      GoodRunEnds(o, Update(r, st));
    } else {
      var st := r.c.status.(resourceStatus := OutOfSync);
      UpdateFrame(r, st);
      UpdateKeepsFilters(r, st);
      LaunchApplyKeeps(o, Update(r, st));
    }
  }

  lemma UpdateKeepsFilters(r: Run, st: ConfigurationStatus)
    ensures ApplyExtra(Update(r, st)) == ApplyExtra(r)
    ensures forall stage, extra :: FoundJob(Update(r, st), stage, extra) == FoundJob(r, stage, extra)
  {
  }

  lemma LaunchApplyKeeps(o: Owner, r: Run)
    requires GoodRun(o, r) && Snapshot(r) && IsComplete(r.c.status.plan, r.c.generation)
    requires r.c.spec.autoApproval || !NeedsApproval(r.c)
    requires FoundJob(r, ApplyStage, ApplyExtra(r)).None?
    ensures GoodEnd(o, LaunchApply(r).run) && !LaunchApply(r).outcome.Continue?
  {
    hide GoodRun, GoodEnd, FoundJob, SetApply, Set, Launch, ApplyExtra;
    if CreateJob(ApplyStage) in r.faults {
      SettersKeep(o, r);
      GoodRunEnds(o, LaunchApply(r).run);
    } else {
      ApplyExtraFits(r);
      LaunchKeeps(o, r, ApplyStage, ApplyExtra(r));
      SettersKeep(o, Launch(r, ApplyStage, ApplyExtra(r)));
      GoodRunEnds(o, LaunchApply(r).run);
    }
  }

  // ---- deletion

  lemma DestroyKeeps(o: Owner, r: Run)
    requires GoodRun(o, r) && Snapshot(r)
    ensures var x := TerraformDestroy(r);
            && GoodEnd(o, x.run)
            && (x.outcome.Continue? ==> GoodRun(o, x.run) && x.run.w == r.w)
  {
    hide GoodRun, GoodEnd, Set, SetReady, DestroyByJob, Update;
    GoodRunEnds(o, r);
    SettersKeep(o, r);
    var st := r.c.status.(resourceStatus := Destroying);
    UpdateFrame(r, st);
    var q := Update(r, st);
    GoodRunEnds(o, q);
    SettersKeep(o, q);
    forall d ensures GoodEnd(o, SetReady(q, d)) { GoodRunEnds(o, SetReady(q, d)); }
    DestroyByJobKeeps(o, q);
  }

  lemma DestroyByJobKeeps(o: Owner, r: Run)
    requires GoodRun(o, r) && Snapshot(r)
    ensures var x := DestroyByJob(r);
            && GoodEnd(o, x.run)
            && (x.outcome.Continue? ==> GoodRun(o, x.run) && x.run.w == r.w)
  {
    hide GoodRun, GoodEnd, Set, FoundJob, DestroyExtra, Launch, Update;
    SettersKeep(o, r);
    forall d ensures GoodEnd(o, SetReady(r, d)) && SetReady(r, d).w == r.w {
      GoodRunEnds(o, SetReady(r, d));
      UpdateFrame(r, r.c.status.(ready := d));
    }
    var f := ReadyFail(r, None, DestroyFailed);
    SettersKeep(o, f);
    forall st: ConfigurationStatus | st.plan == f.c.status.plan ensures GoodEnd(o, Update(f, st)) {
      GoodRunEnds(o, Update(f, st));
    }
    if FoundJob(r, DestroyStage, DestroyExtra(r)).None? {
      DestroyExtraFits(r);
      LaunchKeeps(o, r, DestroyStage, DestroyExtra(r));
      var q := Launch(r, DestroyStage, DestroyExtra(r));
      SettersKeep(o, q);
      forall d ensures GoodEnd(o, SetReady(q, d)) { GoodRunEnds(o, SetReady(q, d)); }
    }
  }

  lemma {:induction false} SecretsKeep(o: Owner, r: Run, kinds: seq<SecretKind>)
    requires GoodRun(o, r)
    ensures GoodRun(o, DeleteSecrets(r, kinds).run)
    decreases |kinds|
  {
    hide GoodRun, Set, SetReady, Without;
    if kinds != [] {
      if DeleteSecret(kinds[0]) in r.faults {
        SettersKeep(o, r);
      } else {
        var q := r.(w := r.w.(secrets := Without(r.w.secrets, kinds[0])));
        SecretsIrrelevant(o, r, Without(r.w.secrets, kinds[0]));
        SecretsKeep(o, q, kinds[1..]);
      }
    }
  }

  lemma SecretsIrrelevant(o: Owner, r: Run, s: Secrets)
    requires GoodRun(o, r)
    ensures GoodRun(o, r.(w := r.w.(secrets := s)))
  {
    hide Lawful, NoTwins, GoodObject, Evident, Traced;
  }

  lemma {:induction false} RemovedSubset(jobs: seq<Job>, j: Job)
    ensures forall x :: x in Removed(jobs, j) <==> x in jobs && x != j
  {
    if jobs != [] {
      var n := |jobs| - 1;
      RemovedSubset(jobs[..n], j);
      assert jobs == jobs[..n] + [jobs[n]];
    }
  }

  lemma {:induction false} RemovedNoTwins(o: Owner, jobs: seq<Job>, j: Job)
    requires NoTwins(o, jobs)
    ensures NoTwins(o, Removed(jobs, j))
  {
    hide SameKey;
    if jobs != [] {
      var n := |jobs| - 1;
      var init := jobs[..n];
      assert forall i :: 0 <= i < n ==> init[i] == jobs[i];
      RemovedNoTwins(o, init, j);
      RemovedSubset(init, j);
      var rest := Removed(init, j);
      forall i | 0 <= i < |rest| && Owned(o, rest[i]) && Owned(o, jobs[n])
        ensures !SameKey(rest[i].labels, jobs[n].labels)
      {
        assert rest[i] in rest;
        var k :| 0 <= k < n && jobs[k] == rest[i];
      }
    }
  }

  lemma JobRemovedKeeps(o: Owner, r: Run, j: Job)
    requires GoodRun(o, r)
    ensures GoodRun(o, r.(w := r.w.(jobs := Removed(r.w.jobs, j))))
  {
    hide Lawful, NoTwins, GoodObject, Evident, Traced, Removed;
    RemovedSubset(r.w.jobs, j);
    RemovedNoTwins(o, r.w.jobs, j);
  }

  lemma {:induction false} JobsKeep(o: Owner, r: Run, list: seq<Job>, i: nat)
    requires GoodRun(o, r) && i <= |list|
    ensures GoodRun(o, DeleteJobs(r, list, i).run)
    decreases |list| - i
  {
    hide GoodRun, Set, SetReady, Removed;
    if i < |list| {
      if DeleteJob(i) in r.faults {
        SettersKeep(o, r);
      } else {
        JobRemovedKeeps(o, r, list[i]);
        JobsKeep(o, r.(w := r.w.(jobs := Removed(r.w.jobs, list[i]))), list, i + 1);
      }
    }
  }

  lemma JobsDeletedKeeps(o: Owner, r: Run)
    requires GoodRun(o, r)
    ensures GoodRun(o, JobsDeleted(r).run)
  {
    hide GoodRun, Set, SetReady, DeleteJobs, LabelledJobs;
    SettersKeep(o, r);
    JobsKeep(o, r, LabelledJobs(r.c.owner, r.w.jobs), 0);
  }

  lemma ReleaseKeeps(o: Owner, r: Run)
    requires GoodRun(o, r)
    ensures GoodEnd(o, FinalizerRemoved(r).run)
  {
    hide Lawful, NoTwins, Evident, Traced, WithoutOurs;
  }
}
