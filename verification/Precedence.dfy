/** Which value a variable has when terraform sees it, from the cloud resource to the job's secret. */
module Precedence {
  import opened Base
  import opened Jobs
  import opened Cluster
  import opened Ensures
  import opened Runner
  import opened Frames
  import opened Exact
  import opened Quiescence
  import opened CloudResources
  import opened Defaulting
  import Json
  import ValueFrom

  function LastDefault(inputs: seq<Input>, k: string): (v: Option<Json.Value>) {
    if inputs == [] then None
    else
      var n := |inputs| - 1;
      if inputs[n].key == k && DefaultOf(inputs[n]).Some? then DefaultOf(inputs[n]) else LastDefault(inputs[..n], k)
  }

  function LastPatch(patches: seq<Json.Value>, k: string): (v: Option<Json.Value>) {
    if patches == [] then None
    else
      var n := |patches| - 1;
      if k in Json.Members(patches[n]) then Some(Json.Members(patches[n])[k]) else LastPatch(patches[..n], k)
  }

  function At(m: map<string, Json.Value>, k: string): (v: Option<Json.Value>) {
    if k in m then Some(m[k]) else None
  }

  function Or(a: Option<Json.Value>, b: Option<Json.Value>): (v: Option<Json.Value>) {
    if a.Some? then a else b
  }

  /** The order of precedence, from the last word to the first. */
  function Expected(r: Revision, c: CloudResource, patches: seq<Json.Value>, store: ValueFrom.Store, k: string): (v: Option<Json.Value>) {
    Or(ValueFrom.LastBound(r.valueFrom + c.valueFrom, store, {}, k),
       Or(LastPatch(patches, k),
          Or(At(CloudResources.Given(c), k), Or(LastDefault(r.inputs, k), At(r.variables, k)))))
  }

  /** Policy values at the top level are plain: no objects, and no nulls anywhere. */
  predicate Plain(patches: seq<Json.Value>) {
    && Mergeable(patches)
    && forall i, k :: 0 <= i < |patches| && k in Json.Members(patches[i]) ==> !Json.Members(patches[i])[k].Object?
  }

  lemma {:induction false} OverlayAt(base: map<string, Json.Value>, inputs: seq<Input>, k: string)
    ensures At(Overlay(base, inputs), k) == Or(LastDefault(inputs, k), At(base, k))
  {
    if inputs != [] {
      OverlayAt(base, inputs[..|inputs| - 1], k);
    }
  }

  lemma PlainPut(cell: Option<Json.Value>, v: Json.Value)
    requires !v.Object? && Json.NullFree(v)
    ensures Json.EditCell(cell, Json.Put(v)) == Some(v)
  {
    Json.PruneKeeps(v);
  }

  lemma {:induction false} EditsAt(cell: Option<Json.Value>, patches: seq<Json.Value>, k: string)
    requires Plain(patches)
    ensures Json.EditAll(cell, Json.EditsOf(patches, k)) == Or(LastPatch(patches, k), cell)
  {
    if patches != [] {
      var n := |patches| - 1;
      var init := patches[..n];
      EditsAt(cell, init, k);
      assert Json.EditsOf(patches, k)[..n] == Json.EditsOf(init, k);
      if k in Json.Members(patches[n]) {
        var v := Json.Members(patches[n])[k];
        assert Json.NullFree(patches[n]) && Json.NullFree(v);
        PlainPut(Json.EditAll(cell, Json.EditsOf(init, k)), v);
      }
    }
  }

  // ---- from the cloud resource to the stored Configuration

  /** The Configuration as it is submitted: without a variables document where nothing is bound. */
  predicate Submits(b: Built, o: Subject) {
    o.variables == Some(Json.Object(b.variables)) || (b.variables == map[] && o.variables.None?)
  }

  /** The defaults the webhook folds in, in order. */
  function AppliedDefaults(s: Surroundings): (patches: seq<Json.Value>) {
    if s.policies.None? || s.policies.value == [] then []
    else match Matching(Pairs(s.policies.value))
      case Admit(m) => m.patches
      case Reject(_) => []
  }

  lemma DefaultedVariables(o: Subject, s: Surroundings)
    requires Defaulted(o, s).Admit?
    ensures Defaulted(o, s).value.variables == Fold(o.variables, AppliedDefaults(s))
  {
    hide Matching, Fold, Providers.Choose;
    if s.policies.value == [] {
      assert Fold(o.variables, []) == o.variables by { FoldNothing(o.variables); }
    }
  }

  lemma FoldNothing(v: Option<Json.Value>)
    ensures Fold(v, []) == v
  {
  }

  function AdmittedVariables(o: Subject, s: Surroundings): (m: map<string, Json.Value>)
    requires Defaulted(o, s).Admit?
  {
    Json.Members(Ground(Defaulted(o, s).value.variables))
  }

  lemma AdmittedAt(b: Built, o: Subject, s: Surroundings, k: string)
    requires Submits(b, o) && Defaulted(o, s).Admit? && Plain(AppliedDefaults(s))
    ensures At(AdmittedVariables(o, s), k) == Or(LastPatch(AppliedDefaults(s), k), At(b.variables, k))
  {
    hide Json.MergePatch, Fold, Json.EditAll, LastPatch, Defaulted, AppliedDefaults;
    var patches := AppliedDefaults(s);
    DefaultedVariables(o, s);
    FoldIsMerge(o.variables, patches);
    Json.MergeAllMember(Ground(o.variables), patches, k);
    EditsAt(Json.Lookup(Ground(o.variables), k), patches, k);
  }

  // ---- from the stored Configuration to terraform

  /** The job mounts the variables, and names them on the command line, only where the spec has some. */
  function Given(c: Configuration, secret: Option<map<string, Json.Value>>): (m: map<string, Json.Value>) {
    if c.spec.variables != map[] && secret.Some? then secret.value else map[]
  }

  /** The context: where injection is on, one variable holds the object's name and namespace. */
  function Injected(w: World, o: Owner, k: string): (v: Option<Json.Value>) {
    if w.inputs.contextInjection && k == "terranetes"
    then Some(Json.Object(map["name" := Json.Text(o.name), "namespace" := Json.Text(o.namespace)])) else None
  }

  /** The stored Configuration is what the webhook admitted of the one built. */
  predicate StoredFrom(w: World, r: Revision, c: CloudResource, o: Subject, s: Surroundings) {
    && Build(r, c).Some? && Submits(Build(r, c).value, o)
    && Defaulted(o, s).Admit?
    && w.stored.Some?
    && w.stored.value.spec.variables == AdmittedVariables(o, s)
    && w.stored.value.spec.valueFrom == Build(r, c).value.valueFrom
  }

  /**
   End-to-end precedence.  Take a cloud resource, the revision it uses, the Configuration built
   from them as the webhook admitted it, and any reconcile of it that reaches its plan step.  The
   job's secret holds, for every variable, the injected context where that is on, else the last
   resolved valueFrom entry's value, else the last matching policy default's, else the cloud
   resource's, else the input's default, else the revision's, else none.  Terraform is given that
   value if and only if the Configuration has variables at all or neither context nor a valueFrom
   entry binds the name: a Configuration whose only values come from there hands none of them over.
   */
  lemma EndToEnd(r: Revision, c: CloudResource, o: Subject, s: Surroundings, w: World, faults: Faults, k: string)
    requires StoredFrom(w, r, c, o, s) && Plain(AppliedDefaults(s))
    requires BeforePlan(Start(w, w.stored.value, faults)).outcome.Continue?
    ensures var d := w.stored.value;
            var secret := BeforePlan(Start(w, d, faults)).run.w.secrets.config;
            && secret.Some?
            && At(secret.value, k) == Or(Injected(w, d.owner, k), Expected(r, c, AppliedDefaults(s), w.inputs.store, k))
            && (Reaches(r, c, s, w, secret, k) <==> d.spec.variables != map[] || Unresolved(r, c, w, k))
  {
    hide RunAll, AtCapture, Captured, PreparedRun, EntryOpen, Prepared, NotedReady, ValueFrom.Resolve, ValueFrom.LastBound, LastPatch,
         LastDefault, AdmittedVariables, AppliedDefaults, Defaulted, Overlay, Plain, BrokenEntries, ChosenConstraint, Conditions.Set;
    var q := Start(w, w.stored.value, faults);
    EntryExact(q);
    PreparationExact(Captured(q));
    PreparedShape(q);
    SecretHolds(q, k);
    AdmittedAt(Build(r, c).value, o, s, k);
    OverlayAt(r.variables, r.inputs, k);
  }

  /** All variables reach terraform as expected exactly when the spec has some or nothing is injected and no valueFrom entry binds any. */
  lemma AllReach(r: Revision, c: CloudResource, o: Subject, s: Surroundings, w: World, faults: Faults)
    requires StoredFrom(w, r, c, o, s) && Plain(AppliedDefaults(s))
    requires BeforePlan(Start(w, w.stored.value, faults)).outcome.Continue?
    ensures var d := w.stored.value;
            var secret := BeforePlan(Start(w, d, faults)).run.w.secrets.config;
            (forall k :: Reaches(r, c, s, w, secret, k)) <==> d.spec.variables != map[] || forall k :: Unresolved(r, c, w, k)
  {
    hide BeforePlan, StoredFrom, Plain, AppliedDefaults, Expected, ValueFrom.LastBound, Start;
    assert w.stored.Some? by { StoredSome(w, r, c, o, s); }
    var d := w.stored.value;
    var secret := BeforePlan(Start(w, d, faults)).run.w.secrets.config;
    forall k ensures Reaches(r, c, s, w, secret, k) <==> d.spec.variables != map[] || Unresolved(r, c, w, k) {
      EndToEnd(r, c, o, s, w, faults, k);
    }
    hide Reaches, Unresolved;
    if k :| d.spec.variables == map[] && !Unresolved(r, c, w, k) {
      assert !Reaches(r, c, s, w, secret, k);
    }
  }

  /** Terraform is given the expected value. */
  predicate Reaches(r: Revision, c: CloudResource, s: Surroundings, w: World, secret: Option<map<string, Json.Value>>, k: string)
    requires w.stored.Some?
  {
    At(Given(w.stored.value, secret), k) ==
    Or(Injected(w, w.stored.value.owner, k), Expected(r, c, AppliedDefaults(s), w.inputs.store, k))
  }

  /** Neither the context nor a valueFrom entry binds the variable. */
  predicate Unresolved(r: Revision, c: CloudResource, w: World, k: string) {
    && !(w.inputs.contextInjection && k == "terranetes")
    && ValueFrom.LastBound(r.valueFrom + c.valueFrom, w.inputs.store, {}, k).None?
  }

  lemma StoredSome(w: World, r: Revision, c: CloudResource, o: Subject, s: Surroundings)
    requires StoredFrom(w, r, c, o, s)
    ensures w.stored.Some?
  {
  }

  /** The secret holds the spec's variables under the resolved valueFrom entries, under the context. */
  lemma SecretHolds(q: Run, k: string)
    requires Prepared(Captured(q))
    ensures At(VarsOf(q), k) ==
            Or(Injected(q.w, q.c.owner, k),
               Or(ValueFrom.LastBound(q.c.spec.valueFrom, q.w.inputs.store, {}, k), At(q.c.spec.variables, k)))
  {
    hide ValueFrom.Resolve, ValueFrom.LastBound, BrokenEntries, ProviderReachable, PolicyReachable, GatesOpen, Blocks;
    ValuesSame(q, Captured(q));
    UnbrokenAnyway(q.c.spec.valueFrom, q.w.inputs.store, BrokenEntries(q));
    ValueFrom.LastEntryWins(q.c.spec.valueFrom, q.w.inputs.store, {}, k);
  }
}
