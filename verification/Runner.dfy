/**
 The ensure runner (pkg/controller/ensure.go) and the reconcile built on it
 (pkg/controller/configuration/reconcile.go).
 */
module Runner {
  import opened Base
  import opened Conditions
  import opened Cluster
  import opened Ensures

  datatype Result = Settled | Requeued | Errored(text: Note)

  /** Run the ensures in order until one does not let the next one start. */
  function RunAll(ensures_: seq<Ensure>, r: Run): (x: Step)
    decreases |ensures_|
  {
    if ensures_ == [] then Step(r, Continue)
    else
      var x := Perform(ensures_[0], r);
      if x.outcome.Continue? then RunAll(ensures_[1..], x.run) else x
  }

  /** A time stamp only moves when the object changed or was never seen at this generation. */
  function Restamp(last: Stamp, c: Configuration, original: Configuration, now: nat): (s: Stamp) {
    if last.generation == c.generation && c == original then last else Stamp(c.generation, now)
  }

  /** The end of a run that let every ensure pass. */
  function MarkReady(c: Configuration, original: Configuration, now: nat): (d: Configuration) {
    var d := c.(status := c.status.(ready := Success(c.status.ready, c.generation, ResourceReady, now)));
    d.(status := d.status.(lastSuccess := Restamp(d.status.lastSuccess, d, original, now)))
  }

  function Conclude(x: Step, original: Configuration): (c: Configuration) {
    var c := if x.outcome.Continue? then MarkReady(x.run.c, original, x.run.w.now) else x.run.c;
    c.(status := c.status.(lastReconcile := Restamp(c.status.lastReconcile, c, original, x.run.w.now)))
  }

  function ResultOf(o: Outcome): (r: Result) {
    match o
    case Continue => Settled
    case Requeue => Requeued
    case Ignore => Settled
    case Failure(e) => if e.conflict then Requeued else Errored(e.text)
  }

  /** The deferred status patch; when it fails, whatever the run did to the status is lost. */
  function StoreStatus(w: World, c: Configuration, faults: Faults): (v: World) {
    if w.stored.None? || PatchStatus in faults then w
    else w.(stored := Some(w.stored.value.(status := c.status)))
  }

  /** Only our finalizer, possibly with the garbage collector's, is left. */
  predicate IsDeletionCandidate(c: Configuration) {
    && c.deleting
    && (|| c.finalizers == []
        || c.finalizers == [Ours]
        || (|c.finalizers| == 2 && Ours in c.finalizers && DeleteDependents in c.finalizers))
  }

  function Plan(c: Configuration): (list: seq<Ensure>) {
    if IsDeletionCandidate(c) then DELETION else NORMAL
  }

  function Start(w: World, c: Configuration, faults: Faults): (r: Run) {
    Run(c, w, EMPTY_LOCAL, faults)
  }

  /** The state in which the last ensure left the reconcile. */
  function Body(w: World, faults: Faults): (x: Step)
    requires w.stored.Some?
  {
    RunAll(Plan(w.stored.value), Start(w, w.stored.value, faults))
  }

  function Reconcile(w: World, faults: Faults): (v: World) {
    if w.stored.None? then w
    else
      var x := Body(w, faults);
      StoreStatus(x.run.w, Conclude(x, w.stored.value), faults)
  }

  function ReconcileResult(w: World, faults: Faults): (r: Result) {
    if w.stored.None? then Settled
    else
      var x := Body(w, faults);
      if x.run.w.stored.Some? && PatchStatus in faults then Errored(faults[PatchStatus].text)
      else ResultOf(x.outcome)
  }

  /** Running a list is running a prefix and, if it passes, the rest. */
  lemma {:induction false} RunAllSplit(a: seq<Ensure>, b: seq<Ensure>, r: Run)
    ensures RunAll(a + b, r) == (var x := RunAll(a, r); if x.outcome.Continue? then RunAll(b, x.run) else x)
    decreases |a|
  {
    hide Perform;
    if a == [] {
      assert a + b == b;
    } else {
      assert (a + b)[1..] == a[1..] + b;
      var x := Perform(a[0], r);
      if x.outcome.Continue? {
        RunAllSplit(a[1..], b, x.run);
      }
    }
  }
}
