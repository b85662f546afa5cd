/**
 Runs: every interleaving of reconciles, with faults at any call, and of what other actors do to
 the cluster in between.
 */
module Runs {
  import opened Base
  import opened Labels
  import opened Jobs
  import opened Conditions
  import opened Cluster
  import opened Ensures
  import opened Runner
  import Decimal

  datatype Action =
    | Reconciles(faults: Faults)
    | JobEnds(index: nat, succeeded: bool)       // an executor job completes or fails
    | SecretsWritten(secrets: Secrets)           // executors or operators rewrite the six secrets
    | SpecEdited(spec: Spec)
    | Annotated(annotations: Annotations)        // users and the cloudresource controller
    | DriftReconciled(triggers: bool)            // the drift controller, with or without a new mark
    | Relabelled(labels: LabelMap)
    | FinalizersEdited(finalizers: seq<Finalizer>)
    | DeletionRequested
    | JobReaped(index: nat)                      // a finished job outlives its time to live
    | ForeignJob(labels: LabelMap, metaGeneration: int)
    | InputsChanged(inputs: Inputs)
    | TimePasses(seconds: nat)

  function OwnsFinalizer(c: Configuration): (b: bool) {
    Ours in c.finalizers
  }

  function EditAnnotations(w: World, c: Configuration, a: Annotations): (v: World) {
    var moved := NeedsApproval(c) && Read(a, ApplyAnnotation) != "false";
    w.(stored := Some(c.(annotations := a)), log := if moved then w.log + [ApprovalMoved] else w.log)
  }

  /** The drift controller may mark the object for a new plan; its runner stamps the status like any other. */
  function DriftStamped(c: Configuration, triggers: bool, now: nat): (d: Configuration) {
    var m := if triggers then c.(annotations := c.annotations[DriftAnnotation := Decimal.Format(now)]) else c;
    m.(status := m.status.(lastReconcile := Restamp(c.status.lastReconcile, m, c, now)))
  }

  function EndJob(w: World, i: nat, ok: bool): (v: World)
    requires i < |w.jobs|
  {
    var j := w.jobs[i];
    w.(jobs := w.jobs[i := j.(complete := ok, failed := !ok)], log := w.log + [JobFinished(j.id, ok)])
  }

  /** One action; an action that does not apply to the present world changes nothing. */
  function Next(o: Owner, w: World, a: Action): (v: World) {
    match a
    case Reconciles(faults) => Reconcile(w, faults)
    case JobEnds(i, ok) => if i < |w.jobs| && IsActive(w.jobs[i]) then EndJob(w, i, ok) else w
    case SecretsWritten(s) => w.(secrets := s)
    case JobReaped(i) =>
      if i < |w.jobs| && !IsActive(w.jobs[i]) then w.(jobs := w.jobs[..i] + w.jobs[i + 1..]) else w
    case ForeignJob(labels, m) =>
      if Get(labels, UidKey) == o.uid then w
      else w.(jobs := w.jobs + [Job(w.nextJob, labels, m, w.now, false, false)], nextJob := w.nextJob + 1)
    case InputsChanged(i) => w.(inputs := i)
    case TimePasses(d) => w.(now := w.now + d)
    case _ => if w.stored.None? then w else EditObject(w, w.stored.value, a)
  }

  /** Edits of the stored object; a change of the spec, and a deletion, raise its generation. */
  function EditObject(w: World, c: Configuration, a: Action): (v: World) {
    match a
    case SpecEdited(s) => w.(stored := Some(c.(spec := s, generation := c.generation + 1)))
    case Annotated(x) => EditAnnotations(w, c, x)
    case DriftReconciled(triggers) => w.(stored := Some(DriftStamped(c, triggers, w.now)))
    case Relabelled(l) => w.(stored := Some(c.(labels := l)))
    case FinalizersEdited(fs) =>
      if (Ours in fs) != OwnsFinalizer(c) then w else w.(stored := StoreFinalizers(w.stored, fs))
    case DeletionRequested =>
      if c.deleting then w
      else if c.finalizers == [] then w.(stored := None)
      else w.(stored := Some(c.(deleting := true, generation := c.generation + 1)))
    case _ => w
  }

  function Execute(o: Owner, w: World, actions: seq<Action>): (v: World) {
    if actions == [] then w
    else Next(o, Execute(o, w, actions[..|actions| - 1]), actions[|actions| - 1])
  }

  /** A configuration just created, in a cluster that holds none of its jobs yet. */
  predicate Initial(o: Owner, w: World) {
    && w.stored.Some?
    && w.log == []
    && w.now >= 1
    && (var c := w.stored.value;
        && c.owner == o
        && c.generation == 1
        && c.status.plan.status == StatusFalse
        && c.status.apply.status == StatusFalse
        && c.status.resources == None
        && c.status.lastReconcile == Stamp(0, 0))
    && (forall j :: j in w.jobs ==> Get(j.labels, UidKey) != o.uid)
    && (forall j :: j in w.jobs ==> j.id < w.nextJob)
  }
}
