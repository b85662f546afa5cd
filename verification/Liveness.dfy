/** Finitely many steps to go: the rank bounds what reconciles can still do, and it reaches the end. */
module Liveness {
  import opened Base
  import opened Labels
  import opened Jobs
  import opened Conditions
  import opened Cluster
  import opened Ensures
  import opened Runner
  import opened Runs
  import opened Safety
  import opened Quiescence
  import opened Progress
  import Decimal

  // ---- finding jobs in a list that grows or ages

  lemma LatestAppended(f: Filter, jobs: seq<Job>, j: Job)
    ensures !MatchesLabels(f, j.labels) ==> Latest(f, jobs + [j]) == Latest(f, jobs)
    ensures MatchesLabels(f, j.labels) && Latest(f, jobs).None? ==> Latest(f, jobs + [j]) == Some(j)
    ensures MatchesLabels(f, j.labels) ==> Latest(f, jobs + [j]).Some?
  {
    hide MatchesLabels;
    assert (jobs + [j])[..|jobs|] == jobs;
    YoungestIsMaximal(Select(f, jobs));
    var s := Select(f, jobs);
    assert (s + [j])[..|s|] == s;
  }

  /** The same jobs later on: labels and creation times stay, a finished job stays as it is. */
  predicate Aged(a: seq<Job>, b: seq<Job>) {
    && |a| == |b|
    && forall k :: 0 <= k < |a| ==>
         && b[k].labels == a[k].labels && b[k].created == a[k].created
         && (IsActive(a[k]) || b[k] == a[k])
  }

  lemma {:induction false} SelectAged(f: Filter, a: seq<Job>, b: seq<Job>)
    requires Aged(a, b)
    ensures Aged(Select(f, a), Select(f, b))
  {
    hide MatchesLabels;
    if a != [] {
      var n := |a| - 1;
      SelectAged(f, a[..n], b[..n]);
    }
  }

  lemma {:induction false} YoungestAged(a: seq<Job>, b: seq<Job>)
    requires Aged(a, b)
    ensures Youngest(a).Some? == Youngest(b).Some?
    ensures Youngest(a).Some? ==> Aged([Youngest(a).value], [Youngest(b).value])
  {
    if a != [] {
      var n := |a| - 1;
      YoungestAged(a[..n], b[..n]);
    }
  }

  lemma LatestAged(f: Filter, a: seq<Job>, b: seq<Job>)
    requires Aged(a, b)
    ensures Latest(f, a).Some? == Latest(f, b).Some?
    ensures Latest(f, a).Some? && !IsActive(Latest(f, a).value) ==> Latest(f, b) == Latest(f, a)
  {
    SelectAged(f, a, b);
    YoungestAged(Select(f, a), Select(f, b));
    if Latest(f, a).Some? {
      assert [Latest(f, a).value][0] == Latest(f, a).value && [Latest(f, b).value][0] == Latest(f, b).value;
    }
  }

  lemma {:induction false} SelectParts(f: Filter, a: seq<Job>, b: seq<Job>)
    ensures Select(f, a + b) == Select(f, a) + Select(f, b)
  {
    hide MatchesLabels;
    if b == [] {
      assert a + b == a;
    } else {
      var n := |b| - 1;
      SelectParts(f, a, b[..n]);
      assert (a + b)[..|a + b| - 1] == a + b[..n];
    }
  }

  lemma LatestRemoved(f: Filter, jobs: seq<Job>, i: nat)
    requires i < |jobs| && !MatchesLabels(f, jobs[i].labels)
    ensures Latest(f, jobs[..i] + jobs[i + 1..]) == Latest(f, jobs)
  {
    hide MatchesLabels;
    assert jobs == jobs[..i + 1] + jobs[i + 1..];
    SelectParts(f, jobs[..i + 1], jobs[i + 1..]);
    SelectParts(f, jobs[..i], jobs[i + 1..]);
    assert jobs[..i + 1][..i] == jobs[..i];
  }

  // ---- one reconcile

  lemma AfterReconcile(w: World, c: Configuration, faults: Faults) returns (d: Deed, e: Configuration)
    requires w.stored == Some(c) && !c.deleting && Stamped(c, w.now)
    ensures var v := Reconcile(w, faults);
            && v.stored == Some(e) && e == DeedObject(c, d).(status := e.status)
            && Follows(w, c, e.status)
            && DeedDue(w, c, d) && v.jobs == DeedJobs(w.jobs, d)
            && v.secrets.planJson == w.secrets.planJson && v.inputs == w.inputs && v.now == w.now
            && (PatchStatus !in faults ==> e.status == Conclude(Body(w, faults), c).status)
  {
    hide Body, DeedDue, Follows, Conclude;
    d := OneDeed(w, c, faults);
    StatusFollows(w, c, Body(w, faults));
    e := Reconcile(w, faults).stored.value;
  }

  lemma DeedKeepsLabels(c: Configuration, d: Deed, e: Configuration)
    requires e == DeedObject(c, d).(status := e.status)
    ensures e.owner == c.owner && e.generation == c.generation && e.spec == c.spec && e.deleting == c.deleting
    ensures forall hash :: PlanLabels(e, hash) == PlanLabels(c, hash)
    ensures RetryReadable(e) == RetryReadable(c) && HasRetry(e) == HasRetry(c) && RetryTime(e) == RetryTime(c)
    ensures d != AskedApproval ==> NeedsApproval(e) == NeedsApproval(c)
    ensures d == AskedApproval ==> NeedsApproval(e)
    ensures d != AddedFinalizer ==> e.finalizers == c.finalizers
    ensures d == AddedFinalizer ==> Ours in e.finalizers
  {
    if d == AddedFinalizer {
      assert e.finalizers[|c.finalizers|] == Ours;
    }
  }

  lemma SettledAfter(w: World, c: Configuration, d: Deed, e: Configuration)
    requires e == DeedObject(c, d).(status := e.status) && Follows(w, c, e.status)
    requires Stamped(c, w.now) && RetryReadable(c) && PlanSettled(c)
    ensures PlanSettled(e)
  {
    hide RetryTime, Decimal.ParseInt;
    DeedKeepsLabels(c, d, e);
  }

  /** A deed lowers the rank; doing nothing does not raise it. */
  lemma DeedLowersRank(w: World, c: Configuration, v: World, d: Deed, e: Configuration)
    requires Stamped(c, w.now) && RetryReadable(c)
    requires e == DeedObject(c, d).(status := e.status) && Follows(w, c, e.status)
    requires DeedDue(w, c, d) && v.jobs == DeedJobs(w.jobs, d)
    requires v.secrets.planJson == w.secrets.planJson && v.inputs == w.inputs
    ensures d == Nothing ==> Rank(v, e) <= Rank(w, c)
    ensures d != Nothing ==> Rank(v, e) < Rank(w, c)
  {
    hide PlanSettled, Follows, RetryReadable, Stamped, StageFilter, MatchesLabels, Latest, PlanLabels, StageName, Rank, NeedsApproval;
    DeedKeepsLabels(c, d, e);
    if PlanSettled(c) { SettledAfter(w, c, d, e); }
    var f := StageFilter(c.owner, c.generation, PlanStage, PlanLabels(c, Hash(w)));
    var g := StageFilter(c.owner, c.generation, ApplyStage, ApplyLabels(w));
    if d.CreatedPlan? || d.CreatedApply? {
      LatestAppended(f, w.jobs, d.job);
      LatestAppended(g, w.jobs, d.job);
    }
    if d.CreatedApply? {
      ApplyIsNoPlan(c, PlanLabels(c, Hash(w)), d.job);
    }
    RankIs(w, c);
    RankIs(v, e);
  }

  lemma RankIs(w: World, c: Configuration)
    ensures Rank(w, c) == (if Ours in c.finalizers then 0 else 1)
                          + (if PlanPending(w, c) then PlanSteps(w, c) + 1 else ApplySteps(w, c))
  {
    hide PlanPending, PlanSteps, ApplySteps;
  }

  lemma ApplyIsNoPlan(c: Configuration, extra: LabelMap, j: Job)
    requires Get(j.labels, StageKey) == StageName(ApplyStage)
    ensures !MatchesLabels(StageFilter(c.owner, c.generation, PlanStage, extra), j.labels)
  {
    hide StageName;
    if StageName(ApplyStage) == StageName(PlanStage) {
      StageNameInjective(ApplyStage, PlanStage);
    }
  }

  /** An object the progress argument speaks of: live, with a readable retry token. */
  predicate Live(o: Owner, w: World) {
    && w.stored.Some?
    && (var c := w.stored.value;
        c.owner == o && !c.deleting && RetryReadable(c) && Stamped(c, w.now))
  }

  function RankOf(w: World): (n: nat)
    requires w.stored.Some?
    ensures n <= 4
  {
    Rank(w, w.stored.value)
  }

  /**
   Progress.  A reconcile of a live object, whatever calls fail and whatever its dependencies
   answer, either leaves all jobs, annotations and finalizers as they are and does not raise the
   rank, or strictly lowers it.
   */
  lemma ActsOrWaits(o: Owner, w: World, faults: Faults)
    requires Live(o, w)
    ensures var v := Reconcile(w, faults);
            && Live(o, v)
            && (Idle(w, v) ==> RankOf(v) <= RankOf(w))
            && (!Idle(w, v) ==> RankOf(v) < RankOf(w))
  {
    hide Reconcile, Rank, DeedDue, Follows, RetryReadable, Stamped;
    var c := w.stored.value;
    var d, e := AfterReconcile(w, c, faults);
    DeedLowersRank(w, c, Reconcile(w, faults), d, e);
    DeedKeepsLabels(c, d, e);
    StillStamped(w, c, e);
  }

  lemma StillStamped(w: World, c: Configuration, e: Configuration)
    requires Stamped(c, w.now) && Follows(w, c, e.status)
    ensures Stamped(e, w.now)
  {
    hide PlanSettled, RetryReadable;
  }

  // ---- runs

  /**
   What other actors may do meanwhile: no new generation, drift mark, retry token or template, no
   approval while the plan is still being made, and the plan document stays once it is made.
   Jobs may fail or succeed, dependencies come and go, other secrets change, time passes.
   */
  predicate Calm(o: Owner, w: World, a: Action)
    requires w.stored.Some?
  {
    var c := w.stored.value;
    match a
    case Reconciles(_) => true
    case JobEnds(_, _) => true
    case SecretsWritten(s) => PlanPending(w, c) || s.planJson == w.secrets.planJson
    case Annotated(x) =>
      && Read(x, DriftAnnotation) == Read(c.annotations, DriftAnnotation)
      && (RetryAnnotation in x <==> HasRetry(c))
      && Read(x, RetryAnnotation) == Read(c.annotations, RetryAnnotation)
      && (PlanPending(w, c) ==> Read(x, ApplyAnnotation) == Read(c.annotations, ApplyAnnotation))
    case DriftReconciled(triggers) => !triggers
    case Relabelled(_) => true
    case FinalizersEdited(_) => true
    case JobReaped(i) => i < |w.jobs| ==> !Consulted(w, c, w.jobs[i])
    case ForeignJob(_, _) => true
    case InputsChanged(i) => i.template == w.inputs.template
    case TimePasses(_) => true
    case SpecEdited(_) => false
    case DeletionRequested => false
  }

  /** The controller still looks for this job: the present plan's, unless it is settled, or the present apply's. */
  predicate Consulted(w: World, c: Configuration, j: Job) {
    || (!PlanSettled(c) && MatchesLabels(StageFilter(c.owner, c.generation, PlanStage, PlanLabels(c, Hash(w))), j.labels))
    || (!PlanPending(w, c) && MatchesLabels(StageFilter(c.owner, c.generation, ApplyStage, ApplyLabels(w)), j.labels))
  }

  lemma UnownedIsNoMatch(o: Owner, g: nat, stage: Stage, extra: LabelMap, j: Job)
    requires o.uid != "" && !Owned(o, j)
    ensures !MatchesLabels(StageFilter(o, g, stage, extra), j.labels)
  {
  }

  /** Worlds in which the rank is the same or lower: the same object, jobs at most older. */
  lemma RankOfAged(w: World, v: World, c: Configuration)
    requires Aged(w.jobs, v.jobs) && v.inputs.template == w.inputs.template && v.secrets.planJson == w.secrets.planJson
    ensures Rank(v, c) <= Rank(w, c)
  {
    hide PlanSettled, StageFilter, Latest, PlanLabels, NeedsApproval;
    LatestAged(StageFilter(c.owner, c.generation, PlanStage, PlanLabels(c, Hash(w))), w.jobs, v.jobs);
    LatestAged(StageFilter(c.owner, c.generation, ApplyStage, ApplyLabels(w)), w.jobs, v.jobs);
  }

  lemma EditKeepsRank(w: World, c: Configuration, e: Configuration)
    requires e.owner == c.owner && e.generation == c.generation && e.spec == c.spec && e.status == c.status
    requires (Ours in e.finalizers) == (Ours in c.finalizers)
    requires Read(e.annotations, DriftAnnotation) == Read(c.annotations, DriftAnnotation)
    requires HasRetry(e) == HasRetry(c) && Read(e.annotations, RetryAnnotation) == Read(c.annotations, RetryAnnotation)
    requires PlanPending(w, c) ==> NeedsApproval(e) == NeedsApproval(c)
    ensures Rank(w, e) == Rank(w, c) && RetryReadable(e) == RetryReadable(c) && PlanPending(w, e) == PlanPending(w, c)
  {
    hide StageFilter, Latest;
    assert RetryTime(e) == RetryTime(c);
    assert PlanLabels(e, Hash(w)) == PlanLabels(c, Hash(w));
  }

  lemma SecretsKeepRank(w: World, c: Configuration, s: Secrets)
    requires PlanPending(w, c) || s.planJson == w.secrets.planJson
    ensures Rank(w.(secrets := s), c) == Rank(w, c)
  {
    hide StageFilter, Latest, PlanSettled;
  }

  lemma JobsKeepRank(o: Owner, w: World, a: Action, c: Configuration)
    requires o.uid != "" && c.owner == o
    requires a.JobEnds? || a.JobReaped? || a.ForeignJob?
    requires a.JobReaped? && a.index < |w.jobs| ==> !Consulted(w, c, w.jobs[a.index])
    ensures Rank(Next(o, w, a), c) <= Rank(w, c)
  {
    hide PlanSettled, StageFilter, Latest, PlanLabels, MatchesLabels, EditObject, Reconcile, NeedsApproval;
    var extra, more := PlanLabels(c, Hash(w)), ApplyLabels(w);
    var f, g := StageFilter(o, c.generation, PlanStage, extra), StageFilter(o, c.generation, ApplyStage, more);
    var v := Next(o, w, a);
    match a
    case JobEnds(i, ok) => RankOfAged(w, v, c);
    case JobReaped(i) =>
      if i < |w.jobs| {
        if !PlanSettled(c) { LatestRemoved(f, w.jobs, i); }
        if !PlanPending(w, c) { LatestRemoved(g, w.jobs, i); }
      }
    case ForeignJob(l, m) =>
      var j := Job(w.nextJob, l, m, w.now, false, false);
      if !Owned(o, j) {
        UnownedIsNoMatch(o, c.generation, PlanStage, extra, j);
        UnownedIsNoMatch(o, c.generation, ApplyStage, more, j);
        LatestAppended(f, w.jobs, j);
        LatestAppended(g, w.jobs, j);
      }
  }

  lemma CalmKeepsRank(o: Owner, w: World, a: Action)
    requires o.uid != "" && Live(o, w) && Calm(o, w, a) && !a.Reconciles?
    ensures Live(o, Next(o, w, a)) && RankOf(Next(o, w, a)) <= RankOf(w)
  {
    hide Rank, RetryReadable, Reconcile, PlanPending, PlanSettled;
    var c := w.stored.value;
    var v := Next(o, w, a);
    match a
    case JobEnds(i, ok) => JobsKeepRank(o, w, a, c);
    case JobReaped(i) => JobsKeepRank(o, w, a, c);
    case ForeignJob(l, m) => JobsKeepRank(o, w, a, c);
    case SecretsWritten(s) => SecretsKeepRank(w, c, s);
    case Annotated(x) => EditKeepsRank(w, c, c.(annotations := x)); LogIrrelevant(w, v, v.stored.value);
    case Relabelled(l) => EditKeepsRank(w, c, c.(labels := l)); LogIrrelevant(w, v, v.stored.value);
    case FinalizersEdited(fs) =>
      if (Ours in fs) == OwnsFinalizer(c) {
        EditKeepsRank(w, c, c.(finalizers := fs));
        LogIrrelevant(w, v, v.stored.value);
      }
    case DriftReconciled(_) => StampKeepsRank(w, c, v.stored.value); LogIrrelevant(w, v, v.stored.value);
    case InputsChanged(i) => LogIrrelevant(w, v, c);
    case TimePasses(t) => LogIrrelevant(w, v, c);
  }

  lemma StampKeepsRank(w: World, c: Configuration, e: Configuration)
    requires Stamped(c, w.now) && e == c.(status := c.status.(lastReconcile := e.status.lastReconcile))
    requires c.status.lastReconcile.time <= e.status.lastReconcile.time
    ensures Rank(w, e) <= Rank(w, c) && RetryReadable(e) == RetryReadable(c)
  {
    hide StageFilter, Latest, PlanSettled;
    if PlanSettled(c) {
      SettledComplete(c);
      SettledSame(c, e);
    }
    assert PlanLabels(e, Hash(w)) == PlanLabels(c, Hash(w));
  }

  lemma SettledComplete(c: Configuration)
    requires PlanSettled(c)
    ensures c.status.plan.status == StatusTrue
  {
    hide IsRetryable;
  }

  lemma LogIrrelevant(w: World, v: World, c: Configuration)
    requires v.jobs == w.jobs && v.inputs.template == w.inputs.template && v.secrets == w.secrets
    ensures Rank(v, c) == Rank(w, c)
  {
    hide StageFilter, Latest, PlanSettled;
  }

  /** Every action of the run is calm where it happens, and the object stays. */
  predicate CalmRun(o: Owner, w: World, actions: seq<Action>) {
    actions == [] ||
    (var n := |actions| - 1;
     && CalmRun(o, w, actions[..n])
     && Execute(o, w, actions[..n]).stored.Some?
     && Calm(o, Execute(o, w, actions[..n]), actions[n]))
  }

  lemma NextReconciles(o: Owner, w: World, a: Action)
    ensures a.Reconciles? ==> Next(o, w, a) == Reconcile(w, a.faults)
  {
    hide Reconcile, EditObject;
  }

  /** How many reconciles of the run changed a job, an annotation or a finalizer. */
  function Acts(o: Owner, w: World, actions: seq<Action>): (n: nat) {
    if actions == [] then 0
    else
      var n := |actions| - 1;
      var v := Execute(o, w, actions[..n]);
      Acts(o, w, actions[..n])
      + (if actions[n].Reconciles? && !Idle(v, Reconcile(v, actions[n].faults)) then 1 else 0)
  }

  /**
   In every calm run, with any faults and any mixture of failing and succeeding jobs, the
   reconciles that act number at most the rank of the world it started from -- never more than
   four: finalizer, approval mark, plan job, apply job.
   */
  lemma {:induction false} ActsAreBounded(o: Owner, w: World, actions: seq<Action>)
    requires o.uid != "" && Live(o, w) && CalmRun(o, w, actions)
    ensures Live(o, Execute(o, w, actions))
    ensures Acts(o, w, actions) + RankOf(Execute(o, w, actions)) <= RankOf(w) <= 4
  {
    hide RetryReadable, Stamped, Rank, Calm, Idle, Next, Reconcile;
    if actions != [] {
      var n := |actions| - 1;
      ActsAreBounded(o, w, actions[..n]);
      var v, a := Execute(o, w, actions[..n]), actions[n];
      NextReconciles(o, v, a);
      if a.Reconciles? {
        ActsOrWaits(o, v, a.faults);
      } else {
        CalmKeepsRank(o, v, a);
      }
    }
  }
}
