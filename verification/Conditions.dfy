/** Conditions tagged with a generation (pkg/apis/core/v1alpha1, pkg/controller/status.go). */
module Conditions {
  import opened Base

  datatype Status = StatusTrue | StatusFalse

  datatype Reason =
    | NotDetermined
    | Warning
    | Error
    | InProgress
    | Ready
    | ActionRequired

  /** The messages the configuration controller writes, by what they report. */
  datatype Message =
    | NoMessage
    | ResourceReady
    | ReconcileDisabled
    | ApiCallFailed
    | Unavailable(gate: nat)
    | OptionsExclusive(entry: nat)
    | ValueMissing(entry: nat)
    | ValueBroken(entry: nat)
    | MissingType(entry: nat)
    | TemplateMissing
    | ProviderMissing
    | ProviderNotReady
    | ProviderForbidden
    | ProviderReadyMessage
    | PolicyLookupFailed
    | RetryInvalid
    | PlanRenderFailed
    | PlanCreateFailed
    | PlanAnnotateFailed
    | CloudResourceMissing
    | PlanInProgress
    | PlanRunning
    | PlanComplete
    | PlanFailed
    | DetectedError(detector: nat)
    | PlanSecretMissing
    | PolicyNotConfigured
    | ReportMissing
    | ReportInvalid
    | PolicyViolated
    | PolicyPassed
    | DocumentUndecodable
    | NothingToApply
    | AwaitingAnnotation
    | AwaitingApproval
    | ApplyRenderFailed
    | ApplyCreateFailed
    | ApplyStarted
    | ApplyInProgress
    | ApplyComplete
    | ApplyFailed
    | StateSecretMissing
    | DestroyRenderFailed
    | DestroyCreateFailed
    | DestroyRunning
    | DestroyComplete
    | DestroyFailed
    | DeleteFailed

  /** Error texts, told apart by number; the empty text is NO_NOTE. */
  type Note = nat

  const NO_NOTE: Note := 0

  datatype Condition = Condition(
    status: Status,
    observed: nat,
    reason: Reason,
    message: Message,
    detail: Note,
    transition: nat
  )

  predicate IsComplete(c: Condition, generation: nat) {
    c.status == StatusTrue && c.observed == generation
  }

  predicate IsFailed(c: Condition, generation: nat) {
    c.reason == Error && c.observed == generation
  }

  predicate IsInProgress(c: Condition) {
    c.reason == InProgress
  }

  /** A change of any field moves the transition time. */
  function Transition(old_: Condition, new_: Condition, now: nat): (c: Condition) {
    if old_ == new_ then new_ else new_.(transition := now)
  }

  function Set(c: Condition, g: nat, s: Status, r: Reason, m: Message, detail: Note, now: nat): (d: Condition) {
    Transition(c, Condition(s, g, r, m, detail, c.transition), now)
  }

  function Success(c: Condition, g: nat, m: Message, now: nat): (d: Condition) {
    Set(c, g, StatusTrue, Ready, m, NO_NOTE, now)
  }

  function Act(c: Condition, g: nat, m: Message, now: nat): (d: Condition) {
    Set(c, g, StatusFalse, ActionRequired, m, NO_NOTE, now)
  }

  function Warn(c: Condition, g: nat, m: Message, now: nat): (d: Condition) {
    Set(c, g, StatusFalse, Warning, m, NO_NOTE, now)
  }

  function Progress(c: Condition, g: nat, m: Message, now: nat): (d: Condition) {
    Set(c, g, StatusFalse, InProgress, m, NO_NOTE, now)
  }

  /** Failed without an error keeps the detail of whatever was reported before. */
  function Fail(c: Condition, g: nat, err: Option<Note>, m: Message, now: nat): (d: Condition) {
    Set(c, g, StatusFalse, Error, m, if err.Some? then err.value else c.detail, now)
  }

  /** The manager of one condition: every setter overwrites its fields in place. */
  class ConditionManager {
    var condition: Condition
    const generation: nat

    constructor (c: Condition, g: nat)
      ensures condition == c && generation == g
    {
      condition := c;
      generation := g;
    }

    method Overwrite(s: Status, r: Reason, m: Message, detail: Note, now: nat)
      modifies this
      ensures condition == Set(old(condition), generation, s, r, m, detail, now)
    {
      var original := condition;
      condition := condition.(observed := generation);
      condition := condition.(status := s);
      condition := condition.(reason := r);
      condition := condition.(message := m);
      condition := condition.(detail := detail);
      if original != condition {
        condition := condition.(transition := now);
      }
    }
  }

  /**
   What the time stamp of a condition tells: it moves to `now` exactly when some other field
   changed, and setting the same outcome again leaves the condition as it is.
   */
  lemma SetMovesTime(c: Condition, g: nat, s: Status, r: Reason, m: Message, detail: Note, now: nat)
    ensures var d := Set(c, g, s, r, m, detail, now);
            && (d.status, d.observed, d.reason, d.message, d.detail) == (s, g, r, m, detail)
            && (c.(transition := 0) == d.(transition := 0) ==> d == c)
            && (c.(transition := 0) != d.(transition := 0) ==> d.transition == now)
            && (forall later :: Set(d, g, s, r, m, detail, later) == d)
  {
    var d := Set(c, g, s, r, m, detail, now);
    if c.(transition := 0) == d.(transition := 0) {
      assert c == Condition(s, g, r, m, detail, c.transition);
    }
  }
}
