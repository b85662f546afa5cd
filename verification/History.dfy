/** What the event log of a run says about plans, approvals and applies. */
module History {
  import opened Jobs
  import opened Cluster

  /** A plan job was created for this generation. */
  ghost predicate PlanSeen(log: seq<Event>, g: nat) {
    exists auto, id :: JobCreated(PlanStage, g, auto, id) in log
  }

  /** A plan job created for this generation finished successfully. */
  ghost predicate PlanSucceeded(log: seq<Event>, g: nat) {
    exists auto, id :: JobCreated(PlanStage, g, auto, id) in log && JobFinished(id, true) in log
  }

  predicate IsPlanOf(e: Event, g: nat) {
    e.JobCreated? && e.stage == PlanStage && e.generation == g
  }

  predicate IsApply(e: Event) {
    e.JobCreated? && e.stage == ApplyStage
  }

  /** Since the latest plan job of this generation, somebody moved the annotation off "false". */
  ghost predicate ApprovedSince(log: seq<Event>, g: nat) {
    if log == [] then false
    else
      var init, last := log[..|log| - 1], log[|log| - 1];
      if IsPlanOf(last, g) then false
      else if last.ApprovalMoved? then PlanSeen(init, g)
      else ApprovedSince(init, g)
  }

  /** Every apply job came after a successful plan and, without auto approval, after an approval. */
  ghost predicate Lawful(log: seq<Event>) {
    if log == [] then true
    else
      var init, last := log[..|log| - 1], log[|log| - 1];
      && Lawful(init)
      && (IsApply(last) ==>
            && PlanSucceeded(init, last.generation)
            && (!last.auto ==> ApprovedSince(init, last.generation)))
  }

  lemma LastOf(log: seq<Event>, e: Event)
    ensures (log + [e])[..|log|] == log
    ensures (log + [e])[|log|] == e
  {
  }

  lemma PlanSucceededGrows(log: seq<Event>, e: Event, g: nat)
    requires PlanSucceeded(log, g)
    ensures PlanSucceeded(log + [e], g)
  {
    var auto, id :| JobCreated(PlanStage, g, auto, id) in log && JobFinished(id, true) in log;
    assert JobCreated(PlanStage, g, auto, id) in log + [e];
  }

  lemma PlanSucceededIsSeen(log: seq<Event>, g: nat)
    requires PlanSucceeded(log, g)
    ensures PlanSeen(log, g)
  {
  }

  lemma PlanSeenExtends(log: seq<Event>, e: Event, g: nat)
    ensures PlanSeen(log + [e], g) <==> PlanSeen(log, g) || IsPlanOf(e, g)
  {
    if PlanSeen(log + [e], g) && !IsPlanOf(e, g) {
      var auto, id :| JobCreated(PlanStage, g, auto, id) in log + [e];
      assert JobCreated(PlanStage, g, auto, id) in log;
    }
    if PlanSeen(log, g) {
      var auto, id :| JobCreated(PlanStage, g, auto, id) in log;
      assert JobCreated(PlanStage, g, auto, id) in log + [e];
    }
    if IsPlanOf(e, g) {
      assert e == JobCreated(PlanStage, g, e.auto, e.job);
      assert e in log + [e];
    }
  }

  lemma ApprovedSinceExtends(log: seq<Event>, e: Event, g: nat)
    ensures ApprovedSince(log + [e], g) <==>
              (if IsPlanOf(e, g) then false else if e.ApprovalMoved? then PlanSeen(log, g) else ApprovedSince(log, g))
  {
    LastOf(log, e);
  }

  lemma LawfulExtends(log: seq<Event>, e: Event)
    requires Lawful(log)
    requires IsApply(e) ==> PlanSucceeded(log, e.generation) && (!e.auto ==> ApprovedSince(log, e.generation))
    ensures Lawful(log + [e])
  {
    LastOf(log, e);
  }

  /** Unfolded: a plan job at j, an approval at k after it, and no later plan job of the generation. */
  lemma {:induction false} ApprovedSinceMeans(log: seq<Event>, g: nat)
    requires ApprovedSince(log, g)
    ensures exists j, k :: 0 <= j < k < |log| && IsPlanOf(log[j], g) && log[k].ApprovalMoved?
              && forall i :: j < i < |log| ==> !IsPlanOf(log[i], g)
  {
    var n := |log| - 1;
    var init, last := log[..n], log[n];
    if last.ApprovalMoved? {
      var j := LatestPlan(init, g);
      assert IsPlanOf(log[j], g) && forall i :: j < i < |log| ==> !IsPlanOf(log[i], g);
      assert 0 <= j < n < |log| && log[n].ApprovalMoved?;
    } else {
      ApprovedSinceMeans(init, g);
      var j, k :| 0 <= j < k < |init| && IsPlanOf(init[j], g) && init[k].ApprovalMoved?
        && forall i :: j < i < |init| ==> !IsPlanOf(init[i], g);
      assert log[j] == init[j] && log[k] == init[k];
      assert forall i :: j < i < |log| ==> !IsPlanOf(log[i], g) by {
        forall i | j < i < |log| ensures !IsPlanOf(log[i], g) {
          if i < n { assert log[i] == init[i]; }
        }
      }
    }
  }

  lemma {:induction false} LatestPlan(log: seq<Event>, g: nat) returns (j: nat)
    requires PlanSeen(log, g)
    ensures j < |log| && IsPlanOf(log[j], g) && forall i :: j < i < |log| ==> !IsPlanOf(log[i], g)
  {
    var n := |log| - 1;
    var init := log[..n];
    assert log == init + [log[n]];
    PlanSeenExtends(init, log[n], g);
    if IsPlanOf(log[n], g) {
      j := n;
    } else {
      j := LatestPlan(init, g);
      assert forall i :: 0 <= i < n ==> log[i] == init[i];
    }
  }

  /** Lawfulness speaks of every apply in the log. */
  lemma {:induction false} LawfulAt(log: seq<Event>, i: nat)
    requires Lawful(log) && i < |log| && IsApply(log[i])
    ensures PlanSucceeded(log[..i], log[i].generation)
    ensures !log[i].auto ==> ApprovedSince(log[..i], log[i].generation)
  {
    var n := |log| - 1;
    if i < n {
      LawfulAt(log[..n], i);
      assert log[..n][..i] == log[..i];
    }
  }
}
