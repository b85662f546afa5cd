# Terranetes controller: a verified model

The Terranetes controller runs Terraform in a Kubernetes cluster. A *Configuration* object names a
module; the controller plans it in a batch job, waits for approval, applies it in another job, and
tears it down again when the object is deleted. Around it sit *Policies* that gate what may be
applied and fill in default variables, *Providers* with credentials, and a catalogue of *Revisions*
and *Plans* from which a *CloudResource* is compiled into a Configuration.

The project models that logic and proves what it guarantees. The main results:

- **The Configuration lifecycle, over all runs** (`Runs`, `Safety`, `Theorems`, `RunTheorems`). A run
  is any interleaving of reconciles, each with faults at any of its API calls, with job ends, secret
  writes, edits of spec, annotations, labels and finalizers, drift reconciles, deletion, reaped and
  foreign jobs, changing dependencies and time. In every run: no apply without a successful plan of
  that generation and, without auto approval, an approval after the latest plan; no two jobs with one
  key; every job behind its gates; no job while another generation's job runs; the terraform state
  goes only after a destroy, and the finalizer goes last.
- **Progress and arrival** (`Progress`, `Liveness`, `Arrival`, `Teardown`). A reconcile either waits or
  lowers a rank of at most four; with an environment that answers, at most five reconciles reach
  Ready. An object being deleted gets its destroy job, and once that has succeeded it is gone.
- **What is reported** (`Outcomes`, `Teardown`). Wherever a reconcile stops -- a job that runs or
  failed, a missing approval, a report, the provider, a value, a running job of another generation --
  the conditions it stores and whether it comes back, over the world it started from.
- **Quiescence** (`Quiescence`, `Stamps`). Once every step has passed, reconciling again changes
  nothing at all, exactly when every valueFrom entry names a source.
- **Admission and variables** (`Json`, `Defaulting`, `Providers`, `CloudResources`, `Precedence`).
  Defaulting is idempotent at any nesting; at most one provider is ever the default; required inputs
  are always bound; the order of precedence from cloud resource to terraform.
- **Policies, catalogue, executor, drift** (`Policies`, `Semver`, `Catalogue`, `Steps`, `Drift`). The
  governing policy by its selectors alone; precedence of versions against the standard; a sound
  catalogue whose highest, used and young revisions survive; how a step turns out, told by its world;
  how far apart drift triggers are.

`Ensures` and `Runner` hold the steps of a reconcile as functions on values; `Reconciler` holds the
same steps as the source has them -- one class whose methods overwrite fields, with early returns and
loops -- each proved equal to its function, so every theorem about the functions is one about the
class. The other stateful parts likewise come as classes or loops proved against a function.

Where the code differs from what its comments or a reader would expect, the code is followed and the
difference is a lemma, with a concrete input in `Witness` where it is a shortcoming:
`FlatReportPasses` (a policy report without a summary is not held to its failures), `RetryHonoured`
and `RetryIsLost` (a retry can be lost to the approval mark), `EndToEnd` and `ValueIsWithheld` (a
Configuration without variables of its own hands neither context nor valueFrom values to terraform),
`EntryExact` (an optional key its secret lacks is bound to the empty text), `Quiescent` (an
untyped valueFrom entry, which admission refuses, would keep the Ready condition moving),
`SingleDefaultStable`, `NullDefaultUnstable` and `ArrayDefaultUnstable` (defaults holding nulls),
`FollowsStandard` (where the merge library leaves RFC 7396), `CompareFlip` and `EachBelowTheOther` (the
version library puts 1.0.0-1 and 1.0.0-01 below one another), `LostStatusBreaksSpacing` and
`TriggeredTwice` (drift spacing needs the status patch), and `NothingBlocksMeans` (the activity check
reads a job's own generation, and still suffices).

Check the project with `dafny verify dfyconfig.toml`.

## Model

| member | source | states |
|---|---|---|
| Theorems.RunsAreGood | pkg/controller/configuration/reconcile.go:70-156 | the invariant behind all safety results holds in every world any run can reach |
| Theorems.ReconcileKeeps | pkg/controller/ensure.go:77-125 | one reconcile, with faults at any calls and either list of ensures, keeps the invariant |
| Theorems.ApprovalBeforeApply | pkg/controller/configuration/ensure.go:930-993 | in every run each apply job follows a successful plan job of its generation and, without auto approval, an approval moved by another actor after the latest plan job of that generation |
| Theorems.NoDuplicateJobs | pkg/controller/configuration/ensure.go:919-928 | in every reachable world no two jobs of a configuration share stage, generation and that stage's distinguishing labels |
| RunTheorems.EveryJobIsGated | pkg/controller/configuration/reconcile.go:125-148 | every job appears as the only one of a reconcile; plan and apply jobs only with provider, policy and activity gates open; apply jobs only with a successful plan, approval, something to apply, and a report without failures |
| RunTheorems.StateIsDroppedOnlyAfterDestroy | pkg/controller/configuration/delete.go:46-169 | in every run with any faults the terraform state is removed only from an object being deleted that is orphaned, records zero resources, or has its destroy job complete |
| RunTheorems.FinalizerGoesLast | pkg/controller/configuration/reconcile.go:97-112 | a reconcile that drops the finalizer or the object leaves none of the six secrets and no labelled job |
| RunTheorems.ReconcileEffects | pkg/controller/configuration/reconcile.go:97-148 | all that one reconcile can do to jobs, log, state and finalizer, for both lists |
| Gating.NothingBlocksMeans | pkg/controller/configuration/ensure.go:194-226 | although the check compares a job's own metadata.generation, once it passes no job labelled with another generation is running |
| Gating.NormalEffects | pkg/controller/configuration/reconcile.go:125-148 | the normal list keeps the state and creates no job, a gated plan job or a gated apply job |
| Deletion.DestroyStepExact | pkg/controller/configuration/delete.go:46-169 | the destroy step passes if and only if orphaned, zero resources recorded, or, the calls succeeding, no state or a complete destroy job of this generation and retry token |
| Deletion.DeletionEffects | pkg/controller/configuration/delete.go:172-229 | what the deletion list can do: state dropped only when it may be, and once the object goes no secret and no labelled job is left |
| Teardown.UndoingPasses | pkg/controller/configuration/reconcile.go:99-108 | without faults a deletion comes to its destroy step if and only if provider, template, values, policy choice and gates are in order |
| Teardown.DestroyIsLaunched | pkg/controller/configuration/delete.go:79-150 | with resources possibly left and a state to destroy them by, a reconcile creates one running destroy job and comes back if and only if no job of this owner, generation, stage and retry token is listed |
| Teardown.DestroyJobAnswered | pkg/controller/configuration/delete.go:152-167 | a running destroy job is awaited; a failed one fails Ready, marks the resources as failing to be destroyed, keeps object and state, and rests |
| Teardown.TornDown | pkg/controller/configuration/delete.go:172-241 | with nothing left to destroy one reconcile removes six secrets and all labelled jobs, keeps all others, and lets the object go |
| Teardown.CandidateExact | pkg/controller/finalizers.go:79-102 | with no finalizer listed twice: taken down if and only if being deleted with no finalizer, or with ours and at most the garbage collector's besides |
| Teardown.TeardownArrives | pkg/controller/configuration/reconcile.go:97-112 | where destroy jobs succeed, one of two reconciles lets the object go |
| Teardown.TeardownInThree | pkg/controller/configuration/reconcile.go:97-112 | as a run: reconcile, the destroy job succeeds, reconcile, and the object is no more |
| Teardown.NeighboursKept | pkg/controller/configuration/delete.go:206-229 | no reconcile, whatever calls fail, removes a job whose labels name another configuration |
| Deletion.SecretsGone | pkg/controller/configuration/delete.go:172-199 | the loop that runs through has removed every listed secret |
| Deletion.JobsDeletedEffect | pkg/controller/configuration/delete.go:202-229 | the loop that runs through has removed exactly the jobs labelled with name and namespace |
| History.LawfulAt | pkg/controller/configuration/ensure.go:1281-1302 | what the run's log guarantees of each apply in it |
| History.ApprovedSinceMeans | pkg/controller/configuration/ensure.go:930-993 | the recursive reading of the log yields a plan, a later approval and no plan after it |
| Safety.LaunchNoTwins | pkg/controller/configuration/ensure.go:919-928 | a job created because the filter found none has a key no other job has |
| Safety.CompletePlanJob | pkg/controller/configuration/ensure.go:996-1001 | a complete job found by the plan filter is a successful plan of this generation in the log |
| Exact.NormalExact | pkg/controller/configuration/reconcile.go:125-148 | a live object is reconciled to the end if and only if each step's condition holds in turn, and then its final state |
| Exact.PreparationExact | pkg/controller/configuration/ensure.go:194-831 | the nine preparation steps pass if and only if nothing blocks, the gates are open, the values resolve, template, provider and policy are there; and the state they leave |
| Exact.ProviderExact | pkg/controller/configuration/ensure.go:552-605 | the provider gate passes if and only if the provider is found, ready, and selects the configuration |
| Exact.PlanExact | pkg/controller/configuration/ensure.go:836-1014 | the plan step passes if and only if the retry token is readable, the plan not failed or due again, and the condition settled or the found job complete |
| Exact.PolicyExact | pkg/controller/configuration/ensure.go:1141-1234 | the security gate passes if and only if no policy governs or the report is read, well formed and counts no failure |
| Exact.ReportByFields | pkg/controller/configuration/ensure.go:1169-1232 | read off the report: a summary passes if and only if its failures are a number not above zero, a flat one if and only if it has both fields and no number under "zero" |
| Exact.FlatReportPasses | pkg/controller/configuration/ensure.go:1182-1200 | a report without a summary that counts seven failures is let through |
| Exact.ApplyExact | pkg/controller/configuration/ensure.go:1266-1406 | the apply step passes if and only if there is nothing to do or an approved apply job of this plan is complete |
| Exact.RecordExact | pkg/controller/configuration/ensure.go:1409-1514 | the last two steps pass if and only if the state is there and decodes, and what they record |
| Progress.OneDeed | pkg/controller/configuration/reconcile.go:125-148 | every reconcile of a live object, whatever fails, does at most one thing -- finalizer, approval mark, plan job, apply job -- and only when due |
| Progress.PlanDeed | pkg/controller/configuration/ensure.go:919-993 | what the plan step can do to jobs and annotations, and when |
| Progress.ApplyDeed | pkg/controller/configuration/ensure.go:1266-1406 | what the apply step can do to jobs, and when |
| Liveness.DeedLowersRank | pkg/controller/configuration/ensure.go:836-1014 | each of the four deeds strictly lowers the rank, doing nothing never raises it |
| Liveness.ActsOrWaits | pkg/controller/configuration/ensure.go:836-1406 | any reconcile of a live object is idle without raising the rank, or strictly lowers it |
| Liveness.ActsAreBounded | pkg/controller/finalizers.go:121-133 | in every calm run, with any faults and job outcomes and with jobs reaped that are no longer consulted, the acting reconciles number at most the initial rank, never more than four |
| Arrival.HealthyRound | pkg/controller/configuration/ensure.go:836-1406 | a reconcile of a healthy world, whatever became of jobs it no longer consults, moves or arrives, and never fails the plan |
| Arrival.Arrives | pkg/controller/configuration/ensure.go:1387-1393 | with an answering environment one of the first rank + 1 reconciles leaves the configuration Ready and InSync at its generation |
| Arrival.AnswerExact | pkg/controller/configuration/ensure.go:930-1014 | such an environment exists if and only if the plan is still to be made, or its document is there and no apply job that matters has failed |
| Arrival.AnswerExists | pkg/controller/configuration/ensure.go:930-1014 | and it always exists as long as no retry is due |
| Arrival.RetryHonoured | pkg/controller/configuration/ensure.go:842-865 | a due retry, with the failed job still there or not, gets its plan job if and only if auto approved or already marked; otherwise, in every run that follows without a new spec, a new token or a deletion, no reconcile creates any job |
| Arrival.StuckForGood | pkg/controller/configuration/ensure.go:842-865 | a failed plan whose token is no longer due stays so through every such run, and no reconcile of it, whatever the faults, creates a job |
| Witness.RetryIsLost | pkg/controller/configuration/ensure.go:930-993 | a world with the failed plan job listed and a fresh token in which the retry is due and lost, over every such run |
| Witness.RepairedIsHealthy | pkg/controller/configuration/ensure.go:836-1014 | a spec repaired after a failed plan, the failed job still listed, is healthy |
| Outcomes.PlanJobAnswered | pkg/controller/configuration/ensure.go:996-1012 | a reconcile that finds its plan job running reports it in progress and comes back; one that finds it failed fails the plan condition, creates nothing and stops as the logs say |
| Outcomes.PlanJobCreated | pkg/controller/configuration/ensure.go:985-994 | with no plan job, an approved or self-approving configuration gets one and comes back, or the failed call is reported, a conflict tried again |
| Outcomes.ApprovalAsked | pkg/controller/configuration/ensure.go:930-973 | without either it is first marked as awaiting approval, no job is created, and it comes back |
| Outcomes.ApplyJobAnswered | pkg/controller/configuration/ensure.go:1387-1404 | the same for the apply job and the apply condition |
| Outcomes.ApplyJobCreated | pkg/controller/configuration/ensure.go:1364-1385 | with something to apply, approval and no apply job of this plan, one is created and the configuration is out of sync |
| Outcomes.ApprovalAnswered | pkg/controller/configuration/ensure.go:1294-1301 | without approval nothing is created, the apply condition asks for it, and the reconcile rests |
| Outcomes.DetectAnswers | pkg/controller/configuration/detect_errors.go:42-126 | a failed job whose pod is unfinished is looked at again; an error found in its logs goes on Ready; either way the failed condition stays |
| Outcomes.ReportAnswered | pkg/controller/configuration/ensure.go:1152-1232 | under a security policy a missing report is awaited, a malformed one and one that counts failures hold the apply up and rest with the user |
| Outcomes.ProviderAnswered | pkg/controller/configuration/ensure.go:559-600 | a missing or unready provider is awaited, as is a namespace that cannot be read; one that does not permit the configuration rests with the user; the provider condition says which |
| Outcomes.ValuesAnswered | pkg/controller/configuration/ensure.go:347-433 | a valueFrom entry with two sources rests, an unmet one is awaited, a broken one is an error, and Ready names the entry |
| Outcomes.TemplateAnswered | pkg/controller/configuration/ensure.go:441-489 | a missing job template, or one without its key, rests with the administrator and Ready says so |
| Outcomes.LookupAnswered | pkg/controller/configuration/ensure.go:799-805 | policies with an improper selector, or two that tie, are an error before anything is planned |
| Outcomes.FailedPlanRests | pkg/controller/configuration/ensure.go:848-858 | a failed plan rests, jobs or not, unless a retry token later than the last stamped reconcile is there |
| Outcomes.RetryUnreadable | pkg/controller/configuration/ensure.go:840-846 | a retry token that is no number fails the plan and rests |
| Outcomes.PlanSecretAnswered | pkg/controller/configuration/ensure.go:1018-1043 | a plan job that left no plan document fails Ready and rests |
| Outcomes.StateAnswered | pkg/controller/configuration/ensure.go:1409-1514 | an apply that left no terraform state rests, one whose state cannot be decoded is an error, and neither is Ready |
| Outcomes.LostStatusReported | pkg/controller/ensure.go:83-96 | a status that cannot be stored is an error, whatever the run came to, and the old one stays |
| Outcomes.BlockedWaits | pkg/controller/configuration/ensure.go:206-222 | while a job of another generation runs the reconcile comes back and changes nothing |
| Outcomes.DisabledRests | pkg/controller/configuration/ensure.go:52-66 | an object not to be reconciled gets a warning and nothing else |
| Outcomes.FinalizerAdded | pkg/controller/finalizers.go:121-133 | a new object gets the finalizer and nothing else, and comes back |
| Outcomes.GateAnswered | pkg/controller/ensure.go:98-117 | an awaited prerequisite brings the reconcile back, an ignored one does not, a broken one is an error |
| Outcomes.EndRests | pkg/controller/ensure.go:119-125 | a reconcile that runs to the end does not come back |
| Quiescence.Quiescent | pkg/controller/ensure.go:77-142 | after a reconcile through to the end a later one creates no job, and leaves the world equal if and only if every valueFrom entry names a source |
| Stamps.RunsAreStamped | pkg/controller/ensure.go:130-142 | in every reachable world a True plan condition comes with a reconcile stamp not in the future |
| Stamps.ReachableQuiescent | pkg/controller/ensure.go:77-142 | quiescence in every reachable world |
| Stamps.AdmittedQuiescent | pkg/apis/terraform/v1alpha1/configuration_types.go:286-320 | for objects whose valueFrom entries admission accepts, quiescence without a side condition |
| Stamps.ReconcileMoves | pkg/controller/status.go:63-69 | a reconcile keeps the stored plan condition or leaves one that bears its time |
| Runner.RunAllSplit | pkg/controller/ensure.go:98-117 | running a list is running a prefix and, if it passes, the rest |
| Conditions.ConditionManager.Overwrite | pkg/controller/status.go:63-157 | the setters overwrite the fields and move the time only on a change |
| Conditions.SetMovesTime | pkg/controller/status.go:63-69 | the time moves to now exactly when some other field changed; the same outcome again changes nothing |
| Reconciler.Controller.constructor | pkg/controller/configuration/reconcile.go:70-96 | the state a reconcile starts from |
| Reconciler.Controller.EnsurePresent | pkg/controller/finalizers.go:121-133 | equals the specified finalizer step |
| Reconciler.Controller.EnsureAllowed | pkg/controller/configuration/ensure.go:52-65 | equals the specified guard on the reconcile annotation |
| Reconciler.Controller.EnsureCaptured | pkg/controller/configuration/ensure.go:69-150 | equals the specified capture of jobs and policies |
| Reconciler.Controller.EnsureIdle | pkg/controller/configuration/ensure.go:194-226 | the loop waits if and only if some running job of the configuration has another metadata generation |
| Reconciler.Controller.EnsureValues | pkg/controller/configuration/ensure.go:338-436 | equals the specified resolution of valueFrom, its reports and its stops |
| Reconciler.Controller.EnsureTemplate | pkg/controller/configuration/ensure.go:441-489 | equals the specified template step: failing call, missing template, hash |
| Reconciler.Controller.EnsureProvider | pkg/controller/configuration/ensure.go:552-605 | equals the specified provider gate, branch by branch |
| Reconciler.Controller.EnsureConfigSecret | pkg/controller/configuration/ensure.go:706-831 | equals the specified choice of policy and writing of variables |
| Reconciler.Controller.FindPlanJob | pkg/controller/configuration/ensure.go:919-928 | the chain of filter calls finds the job the specification looks for |
| Reconciler.Controller.FindApplyJob | pkg/controller/configuration/ensure.go:1354-1362 | the same for the apply job |
| Reconciler.Controller.FindDestroyJob | pkg/controller/configuration/delete.go:80-88 | the same for the destroy job |
| Reconciler.Controller.EnsurePlan | pkg/controller/configuration/ensure.go:836-1014 | equals the specified plan step |
| Reconciler.Controller.Annotate | pkg/controller/configuration/ensure.go:930-968 | equals the specified request for approval |
| Reconciler.Controller.EnsurePlanSecret | pkg/controller/configuration/ensure.go:1018-1043 | equals the specified reading of the plan |
| Reconciler.Controller.EnsurePolicy | pkg/controller/configuration/ensure.go:1141-1234 | equals the specified security gate |
| Reconciler.Controller.EnsureDrift | pkg/controller/configuration/ensure.go:1237-1262 | equals the specified drift step |
| Reconciler.Controller.EnsureApply | pkg/controller/configuration/ensure.go:1266-1406 | equals the specified apply step |
| Reconciler.Controller.EnsureConnection | pkg/controller/configuration/ensure.go:1409-1487 | equals the specified connection step, its outcome a gate |
| Reconciler.Controller.EnsureStatus | pkg/controller/configuration/ensure.go:1491-1514 | equals the specified recording of resources and version |
| Reconciler.Controller.EnsureDestroy | pkg/controller/configuration/delete.go:42-169 | equals the specified destroy step |
| Reconciler.Controller.EnsureSecretsGone | pkg/controller/configuration/delete.go:172-199 | the loop equals deleting the six secrets in order up to a failing call |
| Reconciler.Controller.EnsureJobsGone | pkg/controller/configuration/delete.go:202-229 | the loop equals deleting the labelled jobs in order up to a failing call |
| Reconciler.Controller.EnsureReleased | pkg/controller/finalizers.go:136-154 | equals removing our finalizer and, with it, the object once none is left |
| Reconciler.Controller.RunEnsures | pkg/controller/ensure.go:98-117 | the runner's loop equals running the list |
| Reconciler.Controller.Succeed | pkg/controller/ensure.go:119-122 | equals marking Ready and stamping LastSuccess |
| Reconciler.Controller.Finish | pkg/controller/ensure.go:83-96 | equals stamping LastReconcile and patching the status |
| Reconciler.ReconcileOnce | pkg/controller/configuration/reconcile.go:70-156 | one reconcile leaves the world, and returns the result, that the specification gives |
| Labels.MergeStringMaps | pkg/utils/maps.go:33-51 | the nested loops give the merge in which later maps win |
| Labels.MergeIsLastWriter | pkg/utils/maps.go:33-51 | each key has the value of the last map that binds it other than as a blank pair |
| Jobs.RenderedJobIsFound | pkg/utils/jobs/jobs.go:212-218 | whatever other labels are merged in, a rendered job is matched by the filter built from the same owner, generation, stage and labels |
| Jobs.LabelOrder | pkg/utils/jobs/jobs.go:211-217 | own labels win over extra ones, these over the user's, the provider's and the controller's, in this order |
| Jobs.LatestIsYoungestMatch | pkg/utils/filters/jobs.go:110-126 | nothing found if and only if nothing matches; else a match that no match is younger than |
| Jobs.JobFilter.WithLabel | pkg/utils/filters/jobs.go:69-79 | an empty value leaves the filter alone |
| Jobs.JobFilter.WithOwner | pkg/utils/filters/jobs.go:62-108 | sets namespace, name and UID and nothing else |
| Jobs.JobFilter.WithStage | pkg/utils/filters/jobs.go:89-93 | sets the stage and nothing else |
| Jobs.JobFilter.WithGeneration | pkg/utils/filters/jobs.go:96-100 | sets the generation and nothing else |
| Jobs.JobFilter.List | pkg/utils/filters/jobs.go:153-191 | exactly the matching jobs, in order, and whether there are any |
| Jobs.JobFilter.LatestJob | pkg/utils/filters/jobs.go:110-126 | the running maximum equals the youngest match |
| Decimal.FormatInjective | pkg/controller/configuration/ensure.go:838-838 | generations are told apart by the text of their label |
| Decimal.ParseOfFormat | pkg/apis/terraform/v1alpha1/configuration_types.go:562-597 | a time stamp written as a token is read back |
| ValueFrom.ResolveAll | pkg/controller/configuration/ensure.go:347-434 | the loop equals the specified resolution |
| ValueFrom.EntryExact | pkg/controller/configuration/ensure.go:347-433 | one entry by the store alone: what it holds is bound under name or key; without it a required entry is unmet, an optional one skipped, but bound to the empty text where its secret has data |
| ValueFrom.LastEntryWins | pkg/controller/configuration/ensure.go:347-434 | a variable has the value of the last entry that binds it, and none if no entry does |
| ValueFrom.LastBoundIsLast | pkg/controller/configuration/ensure.go:347-434 | that entry binds the name and no later one does |
| ValueFrom.UntypedReported | pkg/controller/configuration/ensure.go:347-434 | entries are reported as untyped if and only if they name no source |
| ValueFrom.ValidateAll | pkg/apis/terraform/v1alpha1/configuration_types.go:286-320 | accepts if and only if every entry has one source and the name or key that source needs |
| Policies.FindsUniqueMostSpecific | pkg/utils/policies/find.go:70-128 | an error if and only if some selector is improper or two policies tie at the top; none if and only if nothing applies; else the one policy that outranks all others that apply |
| Policies.JudgedBySelectors | pkg/utils/policies/find.go:86-115 | by the selectors alone: a policy is improper, applies or is skipped; an empty namespace selector fits |
| Policies.WeighedBySelectors | pkg/utils/policies/find.go:88-117 | of two that apply, one with a resource selector outranks one without; alike in that, one with a namespace selector outranks one without; else they tie |
| Policies.OrderIrrelevant | pkg/utils/policies/find.go:70-128 | the order of the policy list does not matter |
| Policies.Find | pkg/utils/policies/find.go:70-128 | the loop computes the match, never indexing an empty list |
| Policies.Weights.Add | pkg/utils/weights/weights.go:84-92 | an object added again has its weights added up |
| Policies.Weights.Max | pkg/utils/weights/weights.go:70-80 | the greatest weight, at least zero |
| Policies.Weights.HighestOnes | pkg/utils/weights/weights.go:40-51 | the objects of greatest weight, in order |
| Json.MergeAllIdempotent | vendor/github.com/evanphx/json-patch/merge.go:10-51 | folding any list of merge patches twice equals folding it once, for any target and nesting, nulls included, where no array holds objects with nulls |
| Json.MergeTwice | vendor/github.com/evanphx/json-patch/merge.go:10-51 | merging one patch twice equals once if and only if it nowhere puts an array with nulls inside where the target has an object |
| Json.PruneKeeps | vendor/github.com/evanphx/json-patch/merge.go:53-91 | pruning leaves a value as it is if and only if no object in it, inside arrays too, has a null member |
| Json.FollowsStandard | vendor/github.com/evanphx/json-patch/merge.go:10-91 | the library computes the merge of section 2 of RFC 7396 for every target if and only if no array of the patch has nulls inside |
| Json.MergeIntoEmpty | vendor/github.com/evanphx/json-patch/merge.go:28-51 | a null-free patch merged into nothing is itself |
| Json.MergeIntoItself | vendor/github.com/evanphx/json-patch/merge.go:10-91 | a patch merged into itself is its pruned form |
| Defaulting.FoldIdempotent | pkg/handlers/configurations/mutation.go:147-191 | null-free defaults folded twice, seeding included, equal those folded once |
| Defaulting.AdmissionIdempotent | pkg/handlers/configurations/mutation.go:47-72 | an object that came out of the webhook comes out again unchanged, for null-free defaults |
| Defaulting.SingleDefaultStable | pkg/handlers/configurations/mutation.go:178-191 | one default is stable if and only if: with variables there, they are not emptied and it does not clash with them; without, it holds no null |
| Defaulting.ListStable | pkg/handlers/configurations/mutation.go:147-191 | a list of defaults with nulls is stable if none that holds one meets empty variables on either admission |
| Defaulting.WipedSeedStable | pkg/handlers/configurations/mutation.go:178-191 | that condition is not necessary: a list that seeds a null and wipes it out again on every admission |
| Defaulting.ArrayDefaultUnstable | pkg/handlers/configurations/mutation.go:178-191 | a default with a null inside an array that is not stable |
| Defaulting.NullDefaultUnstable | pkg/handlers/configurations/mutation.go:178-191 | a default that is not |
| Defaulting.MatchingAdmits | pkg/handlers/configurations/mutation.go:148-197 | rejected if and only if a default with variables has an improper selector or is no object where it fits |
| Defaulting.MatchingPicks | pkg/handlers/configurations/mutation.go:148-197 | else exactly the defaults that fit are merged, in order, and their policies named |
| Defaulting.AppliesExact | pkg/handlers/configurations/mutation.go:205-232 | a default applies if and only if every selector it has says yes, the first module that does not say no deciding |
| Defaulting.AdmittedObject | pkg/handlers/configurations/mutation.go:47-127 | admission fills in a missing provider with the chosen default, puts the labels of plan and revision over the object's, and keeps the rest |
| Defaulting.Mutator.MutateOnPolicyDefaults | pkg/handlers/configurations/mutation.go:130-202 | the nested loops equal the fold of the matching defaults, or reject as specified |
| Defaulting.Mutator.MutateOnPlan | pkg/handlers/configurations/mutation.go:75-87 | equals merging the plan labels over the object's |
| Defaulting.Mutator.MutateOnProviderDefault | pkg/handlers/configurations/mutation.go:90-127 | equals filling in the one default provider |
| Defaulting.Mutator.Default | pkg/handlers/configurations/mutation.go:47-72 | equals the three in order |
| Providers.OtherDefault | pkg/handlers/providers/validation.go:94-101 | the loop finds another default if and only if there is one |
| Providers.Validate | pkg/handlers/providers/validation.go:59-117 | admits if and only if source and preload are complete, the secret is in the controller's namespace, and no second default would arise |
| Providers.AtMostOneDefault | pkg/handlers/providers/validation.go:85-102 | over every sequence of admitted changes at most one provider is the default |
| Providers.PickDefault | pkg/handlers/cloudresources/mutation.go:96-133 | the counting loop of both webhooks equals the choice |
| Providers.ChoiceIsDetermined | pkg/handlers/configurations/mutation.go:90-127 | the error of several defaults is unreachable and the choice does not depend on list order |
| CloudResources.ValidateRevision | pkg/handlers/revisions/validation.go:120-134 | accepts if and only if every input has description, key and, where it has a default, a value |
| CloudResources.ValidateResource | pkg/handlers/cloudresources/validation.go:146-198 | accepts if and only if only permitted keys are given and every required input without a default is |
| CloudResources.BuildConfiguration | pkg/controller/cloudresource/ensure.go:187-251 | the loops equal revision variables, overlaid with input defaults, overlaid with the resource's |
| CloudResources.InputsComplete | pkg/controller/cloudresource/ensure.go:187-251 | for admitted objects the build succeeds, binds every required input, and binds nothing but the revision's own keys and its inputs |
| Precedence.EndToEnd | pkg/utils/jobs/jobs.go:198-232 | the secret holds the injected context, else the last resolved valueFrom, else the last policy default, else the cloud resource's, else the input default, else the revision's value; terraform is given it if and only if the spec has variables or neither context nor valueFrom binds the name |
| Precedence.AllReach | pkg/utils/jobs/jobs.go:198-232 | all variables reach terraform as expected if and only if the spec has some or neither context nor valueFrom binds any |
| Precedence.DefaultedVariables | pkg/handlers/configurations/mutation.go:47-72 | the defaults spoken of are those the webhook folds in |
| Precedence.SecretHolds | pkg/controller/configuration/ensure.go:752-769 | the secret's variables are the spec's under the resolved valueFrom entries, under the injected context |
| Witness.ValueIsWithheld | pkg/utils/jobs/jobs.go:198-232 | an admitted revision and resource whose one required input is in the secret and not given to terraform |
| Precedence.AdmittedAt | pkg/handlers/configurations/mutation.go:147-191 | for plain policy values the last matching default wins over the Configuration's own |
| Semver.CompareExact | vendor/github.com/Masterminds/semver/version.go:265-293 | the verdict is that of section 11 of Semantic Versioning 2.0.0 -- the first differing number, then no pre-release above any, then the first differing identifier, then the longer list -- but of two that clash each is below the other |
| Semver.FieldsExact | vendor/github.com/Masterminds/semver/version.go:331-372 | identifier lists: the first that differs decides, else the longer is higher; except a clash of equal numbers written differently |
| Semver.IdentifiersExact | vendor/github.com/Masterminds/semver/version.go:374-425 | numbers as numbers, numbers below texts, texts in ASCII order |
| Semver.CompareFlip | vendor/github.com/Masterminds/semver/version.go:265-293 | the two verdicts on a pair agree if and only if the versions do not clash |
| Semver.EachBelowTheOther | vendor/github.com/Masterminds/semver/version.go:374-425 | two versions that are each below the other |
| Semver.PrecedesChain | vendor/github.com/Masterminds/semver/version.go:265-293 | precedence is a strict order, leading zeros or not |
| Semver.TidyNeverClash | vendor/github.com/Masterminds/semver/version.go:331-425 | without leading zeros, of any two versions one precedes the other or they are the same |
| Semver.SortVersions | pkg/utils/semver.go:38-55 | a permutation in which no version precedes one before it, or an error if and only if some text is no version |
| Semver.LatestVersion | pkg/utils/semver.go:28-35 | a listed version that precedes no other |
| Semver.HighestIsUnique | pkg/utils/semver.go:28-35 | among distinct versions without leading zeros there is one such version |
| Catalogue.Plan.HasRevision | pkg/apis/terraform/v1alpha1/plan_types.go:101-109 | whether an entry has the version |
| Catalogue.Plan.GetRevision | pkg/apis/terraform/v1alpha1/plan_types.go:90-98 | an entry with the version, if there is one |
| Catalogue.Plan.RemoveRevision | pkg/apis/terraform/v1alpha1/plan_types.go:112-122 | all entries but those with the version stay, in order |
| Catalogue.Plan.EnsureLatest | pkg/controller/plan/ensure.go:32-61 | Latest becomes an entry no entry exceeds; unchanged for an empty plan or one that does not parse |
| Catalogue.IndexIsSound | pkg/controller/revision/ensure.go:33-81 | in every interleaving each plan entry names an existing revision of that plan and version, and no version is listed twice |
| Catalogue.DeletedKeeps | pkg/controller/revision/delete.go:34-71 | the deletion reconcile, failing at any call, keeps the index sound |
| Catalogue.LiveKeeps | pkg/controller/revision/reconcile.go:59-82 | the normal reconcile, failing at any call, keeps the index sound |
| Catalogue.CreateKeeps | pkg/handlers/revisions/validation.go:136-153 | an admitted creation keeps plan and version unique |
| Catalogue.ReconciledIsIndexed | pkg/controller/revision/ensure.go:33-81 | a live revision reconciled without faults is in its plan's index under its own name |
| Catalogue.PublishedIsListed | pkg/controller/revision/reconcile.go:59-82 | a new revision with a version its plan lacks is admitted, and listed by its plan after two reconciles without faults |
| Catalogue.WithdrawnIsGone | pkg/controller/revision/delete.go:34-71 | one asked to go is gone from cluster and plan after a reconcile without faults, and everything else stays |
| Catalogue.YoungSurvives | pkg/controller/expire/ensure.go:34-50 | in every run a revision younger than the expiry age is there unless its deletion was asked for |
| Catalogue.OutdatedExpires | pkg/controller/expire/ensure.go:53-163 | an unused revision of that age goes once one of its plan is above it |
| Catalogue.DecideExpiry | pkg/controller/expire/ensure.go:33-163 | expires if and only if old enough, not alone, not the maximum and not in use; never the top or a used one |
| Catalogue.ExpirySpares | pkg/controller/expire/ensure.go:81-142 | expiry leaves the top revision and used revisions alone |
| Catalogue.HighestSurvives | pkg/controller/expire/ensure.go:53-163 | no sequence of expiries, reconciles, other deletions and creations of lower versions removes the highest version of a plan |
| Catalogue.UsedSurvives | pkg/controller/expire/ensure.go:114-142 | nor one a cloud resource is labelled with throughout |
| Steps.Run | cmd/step/main.go:96-247 | told by the world alone: the log; the error file if and only if some command exhausts its attempts after all before it passed; success if and only if the signal came, all commands pass, all uploads work and the file can be touched |
| Steps.Retry | cmd/step/main.go:143-215 | passes if and only if the command works within retries + 1 attempts after failures only, fails if and only if all of them fail; the exact attempts made |
| Steps.Await | cmd/step/main.go:118-141 | found if and only if some poll sees the signal and none up to it the failure above |
| Steps.RunsAccount | cmd/step/main.go:143-247 | attempts at most (retries + 1) per command; the error file means one command failed exactly that often and none later began; success means all done; never both |
| Steps.ChainInOrder | cmd/step/main.go:118-141 | in every interleaving of a chain a step that attempted anything follows full success of all earlier steps |
| Drift.CountRunning | pkg/controller/drift/ensure.go:46-62 | the loop counts the plans in progress, an apply only where there is no plan condition |
| Drift.CheckDue | pkg/controller/drift/ensure.go:67-119 | triggers if and only if due; and then fewer run than the threshold's share, however the product is rounded |
| Drift.AllowanceInRange | pkg/server/server.go:68-73 | for a threshold between 0 and 1 and any monotone rounding that keeps integers the allowance lies in 1..n, and fewer running than it means strictly fewer than threshold times n |
| Drift.TriggersAreSpaced | pkg/controller/drift/ensure.go:126-146 | in every run two triggers between which the stored plan or apply condition was ever another than at the first are at least the interval apart |
| Drift.MovesAreSpaced | pkg/controller/drift/ensure.go:108-114 | in every run no configuration is due within the interval of a move of its plan or apply condition |
| Drift.UnmovedIsDue | pkg/controller/drift/ensure.go:67-119 | with the conditions unmoved a configuration that was due is due again however early |
| Drift.SpacedByPlanJob | pkg/controller/status.go:63-69 | in particular triggers with a plan job created between them, if the creating reconcile or any that found it running got its status stored |
| Drift.LostStatusBreaksSpacing | pkg/controller/ensure.go:83-96 | trigger, plan job created, status lost: due again at that moment |
| Witness.TriggeredTwice | pkg/controller/ensure.go:83-96 | a world in which that happens |
| Drift.LostStatusStaysDue | pkg/controller/ensure.go:83-96 | any reconcile that loses its status leaves a due configuration due |

## Left out

- Stale caches, patch conflicts and parallel workers: a reconcile reads fresh state and is one action; every API call of it may fail.
- A Patch or Update that rewrites the object in memory from the server's reply: the model keeps the memory as the code left it.
- Watcher jobs, ConfigurationThreshold, events, metrics, log streaming and the cost report's content.
- Job, backend and provider templates, hashing, gzip and JSON decoding: decoded plan, state and report are given values, and rendered labels are taken to reach the job.
- The lookups behind cost secret, authentication, backend template, policy defaults, cost status and connection secret: each is a gate that is open, awaited, ignored or broken.
- Regular expressions and label selectors: their answers are inputs, invalid ones included.
- Missing conditions and nil pointers: the conditions are taken to be registered, a provider reference to be present.
- Texts of messages and errors: messages are told apart by what they report, errors by a number.
- Defaulting.ListStable: goes one way; WipedSeedStable is a list whose seeded null its own later entry wipes out again, which is stable too.
- CloudResources: keys with JSON path characters, auth and connection references, and the patch of an existing Configuration.
- Catalogue: a revision whose spec.plan is edited, or that carries foreign finalizers, can leave a stale plan entry; the API server's answers apart from these are as modelled.
- Catalogue.HighestSurvives: a version counts against others until its object is gone, so one that is already being deleted can still make a lower one expire.
- Semver.SortVersions: sorts by insertion; the source's in-place sort does so for up to twelve versions, and for more the order of versions that clash is left to its partitioning, which is not modelled.
- Semver.IdentifiersExact: an identifier of digits beyond 64 bits, which the library treats as a text, comes as a text from the parser.
- Steps: the backoff between attempts, the shell, and the retries within one upload, whose outcome is an input.
- Liveness.ActsAreBounded: reaping a job that is still consulted is not calm, since a reaped apply job is created anew.
- Exact.PreparationExact: the lookups behind cost secret, authentication, backend and policy defaults are gates given as inputs.
- Exact.RecordExact: decoding and writing the connection secret is a gate given as an input.
- Reconciler.Controller.EnsureCaptured: the lookups of plan, revision and lists are one gate.
- Reconciler.Controller.EnsureConfigSecret: errors of rendering backend, provider and checkov files, the raw tfvars text and copied authentication data are not modelled.
- Reconciler.Controller.EnsureConnection: decoding and writing the connection secret is a gate.
- Reconciler.Controller.EnsureTemplate: the error of hashing the template is not modelled; the hash of the standard library returns none.
- Precedence.EndToEnd: the raw tfvars text of a Configuration, a second file given to terraform before the variables, is not modelled.
- tnctl, search, preloading, conversion, the API server, similarity search and generated code.
