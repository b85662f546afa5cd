/** Concrete worlds: the premises of the main results are met, and where the code falls short, how. */
module Witness {
  import opened Base
  import opened Labels
  import opened Jobs
  import opened Conditions
  import opened Cluster
  import opened Runner
  import opened Runs
  import opened Frames
  import opened Exact
  import opened Progress
  import opened Arrival
  import Defaulting
  import CloudResources
  import Precedence
  import Drift
  import Decimal
  import Json
  import ValueFrom

  // ---- the parts

  const OWNER := Owner("name", "space", "uid")

  const GATES := Gates(Open, Open, Open, Open, Open, Open, Open)

  const NO_STORE := ValueFrom.Store(map[], map[])

  function Around(store: ValueFrom.Store): (i: Inputs) {
    Inputs(GATES, map[], Some(Provider(true, NoSelector, map[])), false, Some("hash"), [], store, Unmanaged, Undetected, 0, false)
  }

  const UNKNOWN := Condition(StatusFalse, 0, NotDetermined, NoMessage, NO_NOTE, 0)

  const DONE := Condition(StatusTrue, 1, Ready, PlanComplete, NO_NOTE, 0)

  const FAILED := Condition(StatusFalse, 1, Error, PlanFailed, NO_NOTE, 0)

  function StatusWith(plan: Condition, apply: Condition): (st: ConfigurationStatus) {
    ConfigurationStatus(UNKNOWN, UNKNOWN, plan, UNKNOWN, apply, 0, "", None, OutOfSync, 0, Stamp(1, 3), Stamp(0, 0))
  }

  function Object(g: nat, annotations: Annotations, spec: Spec, st: ConfigurationStatus): (c: Configuration) {
    Configuration(OWNER, g, false, [Ours], map[], annotations, spec, st)
  }

  const NO_SECRETS := Secrets(None, false, None, None, false, None)

  function At(c: Configuration, jobs: seq<Job>, store: ValueFrom.Store): (w: World) {
    World(Some(c), jobs, NO_SECRETS, Around(store), 10, 1, [])
  }

  /** A plan job of generation 1 that failed and is still there. */
  const FAILED_JOB := Job(0, OwnLabels(OWNER, 1, PlanStage), 1, 2, false, true)

  lemma InputsAreHealthy(c: Configuration)
    requires c.spec.valueFrom == []
    ensures HealthyInputs(c, Around(NO_STORE))
  {
  }

  lemma FailedBlocksNothing(c: Configuration, w: World)
    requires w.jobs == [FAILED_JOB]
    ensures Unblocked(w, c)
  {
  }

  // ---- a retry that is lost

  const RETRIED := Object(1, map[RetryAnnotation := Decimal.Format(5)], Spec(false, false, [], map[]), StatusWith(FAILED, UNKNOWN))

  lemma NoRetriedJob(w: World)
    requires w.jobs == [FAILED_JOB]
    ensures PlanJob(w, RETRIED).None?
  {
    hide Decimal.Format, StageName;
    var f := StageFilter(OWNER, 1, PlanStage, PlanLabels(RETRIED, Hash(w)));
    LatestIsYoungestMatch(f, w.jobs);
    assert RetryKey in f.labels;
    assert Get(FAILED_JOB.labels, RetryKey) == "";
  }

  /**
   The plan failed, its job is still listed, and the user asks for a retry: the retry is due, and is
   lost -- in no run that follows, short of a new spec, a new token or a deletion, does a reconcile
   create a job, whatever the faults.
   */
  lemma RetryIsLost(actions: seq<Action>, faults: Faults)
    requires forall i :: 0 <= i < |actions| ==> LeavesToken(actions[i], Some(Decimal.Format(5)))
    ensures var w := At(RETRIED, [FAILED_JOB], NO_STORE); var u := Reconcile(w, map[]); var v := Execute(OWNER, u, actions);
            && RetryDue(w, RETRIED)
            && u.jobs == w.jobs
            && Stuck(u, Some(Decimal.Format(5)))
            && Reconcile(v, faults).jobs == v.jobs
  {
    hide Reconcile, Execute, HealthyInputs, Unblocked, PlanJob, Stuck, LeavesToken, Decimal.Format, Decimal.ParseInt;
    var w := At(RETRIED, [FAILED_JOB], NO_STORE);
    InputsAreHealthy(RETRIED);
    FailedBlocksNothing(RETRIED, w);
    NoRetriedJob(w);
    Decimal.ParseOfFormat(5);
    RetryHonoured(OWNER, w, RETRIED, actions, faults);
  }

  // ---- a healthy world with an old failure in it

  const REPAIRED := Object(2, map[], Spec(true, false, [], map[]), StatusWith(FAILED, UNKNOWN))

  lemma NoRepairedJob(w: World)
    requires w.jobs == [FAILED_JOB]
    ensures PlanJob(w, REPAIRED).None?
  {
    hide Decimal.Format, StageName;
    var f := StageFilter(OWNER, 2, PlanStage, PlanLabels(REPAIRED, Hash(w)));
    LatestIsYoungestMatch(f, w.jobs);
    if Decimal.Format(1) == Decimal.Format(2) {
      Decimal.FormatInjective(1, 2);
    }
  }

  /** A plan failed at generation 1, the spec was repaired, the failed job is still listed: healthy. */
  lemma RepairedIsHealthy()
    ensures Healthy(At(REPAIRED, [FAILED_JOB], NO_STORE), REPAIRED)
  {
    hide HealthyInputs, Unblocked, PlanJob, ReportFine, ApplyJob;
    var w := At(REPAIRED, [FAILED_JOB], NO_STORE);
    InputsAreHealthy(REPAIRED);
    FailedBlocksNothing(REPAIRED, w);
    NoRepairedJob(w);
  }

  // ---- two drift triggers at one moment

  const DRIFTING := Object(1, map[], Spec(true, true, [], map[]), StatusWith(DONE, DONE))

  lemma NoJobs(w: World, c: Configuration)
    requires w.jobs == []
    ensures PlanJob(w, c).None? && Unblocked(w, c)
  {
  }

  /** The plan job of the first trigger is created, its status lost, and the second trigger is due at once. */
  lemma TriggeredTwice(e: ApiError)
    ensures var w := At(DRIFTING, [], NO_STORE); var start := Drift.Triggered(OWNER, w); var v := Reconcile(start, map[PatchStatus := e]);
            && Drift.Due(DRIFTING, w.now, 1, 0, 1)
            && Drift.PlansAnew(start, v)
            && v.now == w.now
            && v.stored.Some? && Drift.Due(v.stored.value, v.now, 1, 0, 1)
  {
    hide Reconcile, HealthyInputs, Unblocked, PlanJob, DriftStamped;
    var w := At(DRIFTING, [], NO_STORE);
    InputsAreHealthy(DRIFTING);
    Drift.TriggeredIs(OWNER, w);
    var start := Drift.Triggered(OWNER, w);
    NoJobs(start, start.stored.value);
    Drift.LostStatusBreaksSpacing(OWNER, w, e, 1, 0, 1);
  }

  // ---- a value that does not reach terraform

  const REVISION := CloudResources.Revision([CloudResources.Input("k", "a key", Some(true), CloudResources.Undefined)], map[], [])

  const ENTRY := ValueFrom.Entry(ValueFrom.FromSecret("secret"), "field", "k", false)

  const RESOURCE := CloudResources.CloudResource(None, [ENTRY])

  const STORE := ValueFrom.Store(map["secret" := Some(map["field" := "v"])], map[])

  const SUBMITTED := Defaulting.Subject(map[], Some("provider"), None, None, None)

  const NO_POLICIES := Defaulting.Surroundings(Some([]), Some([]), true)

  const BUILT := Object(1, map[], Spec(true, false, [ENTRY], map[]), StatusWith(UNKNOWN, UNKNOWN))

  lemma EntryBinds()
    ensures ValueFrom.Resolve([ENTRY], STORE, {}).stop.None?
    ensures ValueFrom.LastBound([ENTRY], STORE, {}, "k") == Some(Json.Text("v"))
  {
    assert [ENTRY][..0] == [];
    assert ValueFrom.Look(ENTRY, STORE, false) == ValueFrom.Bound(Json.Text("v"));
  }

  lemma Admissible()
    ensures CloudResources.RevisionAdmitted(REVISION) && CloudResources.ResourceAdmitted(REVISION, RESOURCE)
  {
    assert REVISION.inputs[0].key == ENTRY.name;
    assert CloudResources.Permitted(REVISION, "k");
    assert RESOURCE.valueFrom[0].name == "k";
    assert CloudResources.Names(RESOURCE.valueFrom, "k");
  }

  /**
   A revision with one required input, a cloud resource that supplies it by valueFrom, no policy:
   both are admitted, the reconcile reaches its plan step and the secret holds the value, but
   terraform is not given it.
   */
  lemma ValueIsWithheld()
    ensures CloudResources.RevisionAdmitted(REVISION) && CloudResources.ResourceAdmitted(REVISION, RESOURCE)
    ensures var w := At(BUILT, [], STORE);
            var secret := BeforePlan(Start(w, BUILT, map[])).run.w.secrets.config;
            && BeforePlan(Start(w, BUILT, map[])).outcome.Continue?
            && secret.Some? && Precedence.At(secret.value, "k") == Some(Json.Text("v"))
            && Precedence.At(Precedence.Given(BUILT, secret), "k").None?
  {
    hide BeforePlan, Start, EntryOpen, Captured, Prepared, ValueFrom.LastBound, ValueFrom.Resolve, Unblocked, Defaulting.Fold,
         CloudResources.RevisionAdmitted, CloudResources.ResourceAdmitted;
    var w := At(BUILT, [], STORE);
    Admissible();
    EntryBinds();
    NoJobs(w, BUILT);
    HealthyPrepared(w, BUILT, map[]);
    Submission(w);
    Precedence.EndToEnd(REVISION, RESOURCE, SUBMITTED, NO_POLICIES, w, map[], "k");
    assert [] + [ENTRY] == [ENTRY];
  }

  lemma Submission(w: World)
    requires w == At(BUILT, [], STORE)
    ensures Precedence.StoredFrom(w, REVISION, RESOURCE, SUBMITTED, NO_POLICIES)
    ensures Precedence.AppliedDefaults(NO_POLICIES) == [] && Precedence.Plain([])
  {
    assert REVISION.inputs[..0] == [];
    assert CloudResources.Overlay(map[], REVISION.inputs) == map[];
  }
}
