/**
 The cluster as one configuration sees it: the stored object, the jobs of the controller's
 namespace, the configuration's six secrets, the clock, and everything the reconcile reads but
 never writes.
 */
module Cluster {
  import opened Base
  import opened Labels
  import opened Jobs
  import opened Conditions
  import Json
  import Policies
  import ValueFrom
  import Decimal

  // ---- the Configuration object (pkg/apis/terraform/v1alpha1/configuration_types.go)

  datatype Finalizer = Ours | DeleteDependents | Foreign(name: string)

  datatype AnnotationKey =
    | ApplyAnnotation
    | DriftAnnotation
    | ReconcileAnnotation
    | RetryAnnotation
    | OrphanAnnotation
    | OtherAnnotation(text: string)

  type Annotations = map<AnnotationKey, string>

  function Read(a: Annotations, k: AnnotationKey): (v: string) {
    if k in a then a[k] else ""
  }

  datatype Spec = Spec(
    autoApproval: bool,
    driftDetection: bool,
    valueFrom: seq<ValueFrom.Entry>,
    variables: map<string, Json.Value>
  )

  datatype Stamp = Stamp(generation: int, time: nat)

  datatype ResourceStatus = UnknownStatus | InSync | OutOfSync | Destroying | DestroyingFailed

  datatype ConfigurationStatus = ConfigurationStatus(
    ready: Condition,
    provider: Condition,
    plan: Condition,
    policy: Condition,
    apply: Condition,
    costs: nat,
    driftTimestamp: string,
    resources: Option<nat>,
    resourceStatus: ResourceStatus,
    terraformVersion: nat,
    lastReconcile: Stamp,
    lastSuccess: Stamp
  )

  datatype Configuration = Configuration(
    owner: Owner,
    generation: nat,
    deleting: bool,
    finalizers: seq<Finalizer>,
    labels: LabelMap,
    annotations: Annotations,
    spec: Spec,
    status: ConfigurationStatus
  )

  predicate NeedsApproval(c: Configuration) {
    Read(c.annotations, ApplyAnnotation) == "false"
  }

  predicate HasRetry(c: Configuration) {
    RetryAnnotation in c.annotations
  }

  function RetryTime(c: Configuration): (t: Option<int>) {
    if HasRetry(c) then Decimal.ParseInt(c.annotations[RetryAnnotation]) else None
  }

  predicate IsRetryable(c: Configuration) {
    && RetryTime(c).Some?
    && c.status.lastReconcile.time != 0
    && RetryTime(c).value > c.status.lastReconcile.time
  }

  // ---- what executor jobs leave in secrets

  datatype TfPlan = GarbledPlan | TfPlan(id: string, needsApply: bool)

  datatype TfState = GarbledState | TfState(resources: nat, version: nat)

  datatype SummaryField = FieldMissing | NotNumeric | Count(count: int)

  /** A security report: with a summary, or flat (`zero` is the number under the key "zero"). */
  datatype Report = Summary(failures: SummaryField) | Flat(passed: Option<int>, failed: Option<int>, zero: int)

  datatype SecretKind = ConfigSecret | CostSecret | PolicySecret | StateSecret | PlanOutSecret | PlanJsonSecret

  datatype Secrets = Secrets(
    config: Option<map<string, Json.Value>>,
    costs: bool,
    report: Option<Report>,
    state: Option<TfState>,
    planOut: bool,
    planJson: Option<TfPlan>
  )

  function Without(s: Secrets, k: SecretKind): (t: Secrets) {
    match k
    case ConfigSecret => s.(config := None)
    case CostSecret => s.(costs := false)
    case PolicySecret => s.(report := None)
    case StateSecret => s.(state := None)
    case PlanOutSecret => s.(planOut := false)
    case PlanJsonSecret => s.(planJson := None)
  }

  predicate NoSecrets(s: Secrets) {
    s == Secrets(None, false, None, None, false, None)
  }

  // ---- what the reconcile only reads

  /** A prerequisite looked up by one ensure: fine, awaited, ignored until changed, or broken. */
  datatype Gate = Open | Awaited | Ignored | Broken(text: Note)

  datatype Gates = Gates(
    captured: Gate,
    costSecret: Gate,
    auth: Gate,
    backend: Gate,
    defaults: Gate,
    costStatus: Gate,
    connection: Gate
  )

  datatype ProviderSelector = NoSelector | Selects(match_: bool)

  datatype Provider = Provider(ready: bool, selector: ProviderSelector, jobLabels: LabelMap)

  datatype Management = Unmanaged | ManagedBy(found: bool)

  datatype Detection = Undetected | PodUnfinished | Detected(detector: nat)

  datatype Inputs = Inputs(
    gates: Gates,
    controllerLabels: LabelMap,
    provider: Option<Provider>,
    customTemplate: bool,          // the job template comes from a config map
    template: Option<string>,      // its hash, None where the config map or its key is missing
    policies: seq<Policies.Policy>,
    store: ValueFrom.Store,
    management: Management,
    detection: Detection,
    costs: nat,
    contextInjection: bool
  )

  // ---- history

  datatype Event =
    | JobCreated(stage: Stage, generation: nat, auto: bool, job: nat)
    | JobFinished(job: nat, succeeded: bool)
    | ApprovalMoved   // an actor other than the controller moved the apply annotation off "false"

  datatype World = World(
    stored: Option<Configuration>,
    jobs: seq<Job>,
    secrets: Secrets,
    inputs: Inputs,
    now: nat,
    nextJob: nat,
    log: seq<Event>
  )

  // ---- calls that can fail

  datatype Call =
    | AddFinalizer
    | GetProvider
    | GetNamespace
    | EvaluateSelector
    | ReadValueFrom(entry: nat)
    | GetTemplate
    | ReadConfigSecret
    | GetPolicyNamespace
    | WriteConfigSecret
    | RenderJob(stage: Stage)
    | PatchApply
    | GetCloudResource
    | PatchCloudResource
    | CreateJob(stage: Stage)
    | GetPlanSecret
    | GetReport
    | CopyReport
    | GetStateForApply
    | GetStateForConnection
    | GetStateForDestroy
    | DeleteSecret(kind: SecretKind)
    | ListJobs
    | DeleteJob(index: nat)
    | RemoveFinalizer
    | PatchStatus

  datatype ApiError = ApiError(conflict: bool, text: Note)

  type Faults = map<Call, ApiError>
}
