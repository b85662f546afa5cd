/** The defaulting webhook of configurations (pkg/handlers/configurations/mutation.go). */
module Defaulting {
  import opened Base
  import opened Labels
  import opened Json
  import Providers

  // ---- policies

  /** A selector evaluated against the namespace's labels or the configuration's module. */
  datatype Answer = Invalid | Yes | No

  datatype Selector = Selector(namespace: Option<Answer>, modules: seq<Answer>)

  datatype Default = Default(selector: Selector, variables: Option<Value>)

  datatype Policy = Policy(name: string, defaults: seq<Default>)

  /** Modules are tried in order: the first that matches, or does not compile, decides. */
  function ModulesMatch(modules: seq<Answer>): (a: Answer) {
    if modules == [] then No
    else if !modules[0].No? then modules[0]
    else ModulesMatch(modules[1..])
  }

  predicate HasSelectors(s: Selector) {
    s.namespace.Some? || |s.modules| > 0
  }

  function IsMatch(s: Selector): (a: Answer) {
    if |s.modules| > 0 && s.namespace.Some? then
      if s.namespace.value.Invalid? then Invalid
      else if ModulesMatch(s.modules).Invalid? then Invalid
      else if s.namespace.value.Yes? && ModulesMatch(s.modules).Yes? then Yes
      else No
    else if |s.modules| > 0 then ModulesMatch(s.modules)
    else if s.namespace.Some? then s.namespace.value
    else No
  }

  function Applies(s: Selector): (a: Answer) {
    if HasSelectors(s) then IsMatch(s) else Yes
  }

  const EMPTY := Object(map[])

  predicate HasVariables(v: Option<Value>) {
    v.Some? && v.value != EMPTY
  }

  // ---- the object

  datatype Subject = Subject(
    labels: LabelMap,
    provider: Option<string>,
    plan: Option<(string, string)>,
    variables: Option<Value>,
    defaultedBy: Option<seq<string>>
  )

  const PLAN_LABEL := OtherKey("terraform.appvia.io/plan")
  const REVISION_LABEL := OtherKey("terranetes.appvia.io/revision-version")

  datatype Reason = TooManyProviders | ListFailed | NamespaceMissing | SelectorInvalid | PatchInvalid

  datatype Result<+T> = Admit(value: T) | Reject(reason: Reason)

  /** What the webhook reads: the providers, the policies, and whether the namespace is there. */
  datatype Surroundings = Surroundings(
    providers: Option<seq<Providers.Provider>>,
    policies: Option<seq<Policy>>,
    namespaceFound: bool
  )

  // ---- the specification

  function Pairs(policies: seq<Policy>): (r: seq<(string, Default)>) {
    if policies == [] then []
    else
      var p := policies[|policies| - 1];
      Pairs(policies[..|policies| - 1]) + seq(|p.defaults|, i requires 0 <= i < |p.defaults| => (p.name, p.defaults[i]))
  }

  /** The policies whose defaults apply, with the variables to merge, in order. */
  datatype Matches = Matches(names: seq<string>, patches: seq<Value>)

  function Matching(pairs: seq<(string, Default)>): (r: Result<Matches>) {
    if pairs == [] then Admit(Matches([], []))
    else
      var init := Matching(pairs[..|pairs| - 1]);
      var (name, d) := pairs[|pairs| - 1];
      if init.Reject? || !HasVariables(d.variables) then init
      else match Applies(d.selector)
        case Invalid => Reject(SelectorInvalid)
        case No => init
        case Yes =>
          if d.variables.value.Object?
          then Admit(Matches(init.value.names + [name], init.value.patches + [d.variables.value]))
          else Reject(PatchInvalid)
  }

  /** One default on top of the variables: it seeds empty ones and is merged into others. */
  function Patched(v: Option<Value>, patch: Value): (r: Value) {
    if HasVariables(v) then MergePatch(v.value, patch) else patch
  }

  function Fold(v: Option<Value>, patches: seq<Value>): (r: Option<Value>) {
    if patches == [] then v
    else Some(Patched(Fold(v, patches[..|patches| - 1]), patches[|patches| - 1]))
  }

  function OnProvider(o: Subject, s: Surroundings): (r: Result<Subject>) {
    if o.provider.Some? then Admit(o)
    else if s.providers.None? then Reject(ListFailed)
    else match Providers.Choose(s.providers.value)
      case NoDefault => Admit(o)
      case TooMany => Reject(TooManyProviders)
      case Chosen(n) => Admit(o.(provider := Some(n)))
  }

  function OnPlan(o: Subject): (r: Subject) {
    if o.plan.None? then o
    else o.(labels := Merge([o.labels, map[PLAN_LABEL := o.plan.value.0, REVISION_LABEL := o.plan.value.1]]))
  }

  function OnPolicies(o: Subject, policies: seq<Policy>, namespaceFound: bool): (r: Result<Subject>) {
    if policies == [] then Admit(o)
    else if !namespaceFound then Reject(NamespaceMissing)
    else match Matching(Pairs(policies))
      case Reject(e) => Reject(e)
      case Admit(m) =>
        Admit(o.(variables := Fold(o.variables, m.patches),
                 defaultedBy := if m.names == [] then o.defaultedBy else Some(m.names)))
  }

  function Defaulted(o: Subject, s: Surroundings): (r: Result<Subject>) {
    match OnProvider(o, s)
    case Reject(e) => Reject(e)
    case Admit(p) =>
      if s.policies.None? then Reject(ListFailed)
      else OnPolicies(OnPlan(p), s.policies.value, s.namespaceFound)
  }

  // ---- which defaults apply, by their selectors

  /** The first module entry that says anything but no. */
  predicate Decides(modules: seq<Answer>, i: nat) {
    i < |modules| && !modules[i].No? && forall k :: 0 <= k < i ==> modules[k].No?
  }

  /** Every selector there is says yes. */
  ghost predicate Fits(s: Selector) {
    && (s.namespace.Some? ==> s.namespace.value.Yes?)
    && (s.modules != [] ==> exists i: nat :: Decides(s.modules, i) && s.modules[i].Yes?)
  }

  ghost predicate Improper(s: Selector) {
    s.namespace == Some(Invalid) || exists i: nat :: Decides(s.modules, i) && s.modules[i].Invalid?
  }

  lemma {:induction false} FirstDecides(modules: seq<Answer>)
    ensures ModulesMatch(modules).No? <==> forall i :: 0 <= i < |modules| ==> modules[i].No?
    ensures forall i: nat :: Decides(modules, i) ==> ModulesMatch(modules) == modules[i]
    ensures !ModulesMatch(modules).No? ==> exists i: nat :: Decides(modules, i)
  {
    if modules != [] {
      var rest := modules[1..];
      FirstDecides(rest);
      if modules[0].No? {
        forall i: nat | Decides(modules, i) ensures ModulesMatch(modules) == modules[i] {
          assert forall k :: 0 <= k < i - 1 ==> rest[k] == modules[k + 1];
          assert Decides(rest, i - 1);
        }
        if !ModulesMatch(rest).No? {
          var j: nat :| Decides(rest, j);
          assert forall k :: 0 < k < j + 1 ==> modules[k] == rest[k - 1];
          assert Decides(modules, j + 1);
        }
      } else {
        assert Decides(modules, 0);
      }
    }
  }

  lemma AppliesExact(s: Selector)
    ensures Applies(s).Yes? <==> Fits(s)
    ensures Applies(s).Invalid? <==> Improper(s)
  {
    hide Decides;
    FirstDecides(s.modules);
    if !ModulesMatch(s.modules).No? {
      var i: nat :| Decides(s.modules, i);
    }
    NothingDecides(s.modules);
  }

  lemma NothingDecides(modules: seq<Answer>)
    ensures modules == [] ==> forall i: nat :: !Decides(modules, i)
    ensures (forall i :: 0 <= i < |modules| ==> modules[i].No?) ==> forall i: nat :: !Decides(modules, i)
  {
  }

  /** The default has variables, so its selector is looked at, and the selector fits. */
  ghost predicate Counts(d: Default) {
    HasVariables(d.variables) && Fits(d.selector)
  }

  predicate Ascending(at: seq<nat>) {
    forall i, k :: 0 <= i < k < |at| ==> at[i] < at[k]
  }

  lemma StillAscending(at: seq<nat>, n: nat)
    requires Ascending(at) && forall k :: 0 <= k < |at| ==> at[k] < n
    ensures Ascending(at + [n])
  {
  }

  /** These places of the list, and no others, hold the defaults that count. */
  ghost predicate Picks(pairs: seq<(string, Default)>, at: seq<nat>) {
    && Ascending(at)
    && (forall k :: 0 <= k < |at| ==> at[k] < |pairs| && Counts(pairs[at[k]].1))
    && (forall i: nat :: i < |pairs| && Counts(pairs[i].1) ==> i in at)
  }

  /** Names and patches are those of these places, in order. */
  ghost predicate Merges(pairs: seq<(string, Default)>, at: seq<nat>, m: Matches) {
    && |m.names| == |at| && |m.patches| == |at|
    && forall k :: 0 <= k < |at| ==>
         && at[k] < |pairs| && Counts(pairs[at[k]].1)
         && m.names[k] == pairs[at[k]].0 && m.patches[k] == pairs[at[k]].1.variables.value
  }

  /** A default that is looked at has a proper selector and, where it counts, is an object. */
  ghost predicate Acceptable(d: Default) {
    HasVariables(d.variables) ==> !Improper(d.selector) && (Counts(d) ==> d.variables.value.Object?)
  }

  /** The webhook rejects the defaults if and only if one of them is not acceptable. */
  lemma {:induction false} MatchingAdmits(pairs: seq<(string, Default)>)
    ensures Matching(pairs).Admit? <==> forall i :: 0 <= i < |pairs| ==> Acceptable(pairs[i].1)
  {
    if pairs != [] {
      hide Applies, Fits, Improper, HasVariables;
      var n := |pairs| - 1;
      var init := pairs[..n];
      MatchingAdmits(init);
      AppliesExact(pairs[n].1.selector);
      assert forall i :: 0 <= i < n ==> pairs[i] == init[i];
    }
  }

  /** Otherwise it merges the variables of exactly the defaults that count, in order, and names their policies. */
  lemma {:induction false} MatchingPicks(pairs: seq<(string, Default)>) returns (at: seq<nat>)
    ensures Picks(pairs, at)
    ensures Matching(pairs).Admit? ==> Merges(pairs, at, Matching(pairs).value)
  {
    at := [];
    if pairs != [] {
      hide Applies, Fits, HasVariables, Picks, Merges;
      var n := |pairs| - 1;
      var init, last := pairs[..n], pairs[n];
      at := MatchingPicks(init);
      PicksGrow(pairs, at);
      AppliesExact(last.1.selector);
      if Matching(pairs).Admit? {
        MergesGrow(pairs, at, Matching(init).value);
      }
      if Counts(last.1) {
        at := at + [n];
      }
    }
  }

  lemma MergesGrow(pairs: seq<(string, Default)>, at: seq<nat>, m: Matches)
    requires pairs != [] && Merges(pairs[..|pairs| - 1], at, m)
    ensures var n := |pairs| - 1;
            if Counts(pairs[n].1)
            then Merges(pairs, at + [n], Matches(m.names + [pairs[n].0], m.patches + [pairs[n].1.variables.value]))
            else Merges(pairs, at, m)
  {
    var n := |pairs| - 1;
    assert forall i :: 0 <= i < n ==> pairs[i] == pairs[..n][i];
  }

  lemma PicksGrow(pairs: seq<(string, Default)>, at: seq<nat>)
    requires pairs != [] && Picks(pairs[..|pairs| - 1], at)
    ensures var n := |pairs| - 1; Picks(pairs, if Counts(pairs[n].1) then at + [n] else at)
  {
    hide Ascending, Counts;
    var n := |pairs| - 1;
    assert forall i :: 0 <= i < n ==> pairs[i] == pairs[..n][i];
    StillAscending(at, n);
    if Counts(pairs[n].1) {
      assert (at + [n])[|at|] == n;
    }
  }

  /**
   Variables and the note of who defaulted them apart, admission keeps the object as it is, but for two
   things: a missing provider is filled in with the chosen default, if there is one, and the labels of
   a plan and its revision are put over the object's own.
   */
  lemma AdmittedObject(o: Subject, s: Surroundings)
    requires Defaulted(o, s).Admit?
    ensures var p := Defaulted(o, s).value;
            && p.plan == o.plan
            && (o.provider.Some? ==> p.provider == o.provider)
            && (o.provider.None? ==>
                  && s.providers.Some? && Providers.Choose(s.providers.value) != Providers.TooMany
                  && forall n :: p.provider == Some(n) <==> Providers.Choose(s.providers.value) == Providers.Chosen(n))
            && Labelled(o.labels, o.plan, p.labels)
  {
    hide Matching, Fold, Providers.Choose, Merge, Labelled;
    PlanLabels(o);
    PlanLabels(o.(provider := Defaulted(o, s).value.provider));
  }

  /** The labels with those of a plan and its revision, where there is one, put over them. */
  ghost predicate Labelled(before: LabelMap, plan: Option<(string, string)>, after: LabelMap) {
    && (plan.None? ==> after == before)
    && (plan.Some? ==>
          && Get(after, PLAN_LABEL) == plan.value.0 && Get(after, REVISION_LABEL) == plan.value.1
          && forall k :: k != PLAN_LABEL && k != REVISION_LABEL && k != OtherKey("") ==> Get(after, k) == Get(before, k))
  }

  lemma PlanLabels(o: Subject)
    ensures OnPlan(o) == o.(labels := OnPlan(o).labels) && Labelled(o.labels, o.plan, OnPlan(o).labels)
  {
    hide Merge;
    if o.plan.Some? {
      MergePair(o.labels, map[PLAN_LABEL := o.plan.value.0, REVISION_LABEL := o.plan.value.1]);
    }
  }

  // ---- repeating a fold

  predicate Mergeable(patches: seq<Value>) {
    forall i :: 0 <= i < |patches| ==> patches[i].Object? && NullFree(patches[i])
  }

  ghost function MaxDepth(patches: seq<Value>): (d: nat)
    ensures forall i :: 0 <= i < |patches| ==> Depth(patches[i]) <= d
  {
    if patches == [] then 0
    else
      var rest, last := MaxDepth(patches[..|patches| - 1]), Depth(patches[|patches| - 1]);
      if last > rest then last else rest
  }

  function Ground(v: Option<Value>): (r: Value) {
    if HasVariables(v) then v.value else EMPTY
  }

  /** For null-free patches, seeding is merging into the empty object. */
  lemma {:induction false} FoldIsMerge(v: Option<Value>, patches: seq<Value>)
    requires Mergeable(patches)
    ensures Ground(Fold(v, patches)) == MergeAll(Ground(v), patches)
    ensures patches != [] ==> Fold(v, patches) == Some(MergeAll(Ground(v), patches))
  {
    if patches != [] {
      var n := |patches| - 1;
      FoldIsMerge(v, patches[..n]);
      if !HasVariables(Fold(v, patches[..n])) {
        MergeIntoEmpty(EMPTY, patches[n]);
      }
    }
  }

  /** Folding null-free defaults twice equals folding them once, whatever variables they meet. */
  lemma FoldIdempotent(v: Option<Value>, patches: seq<Value>)
    requires Mergeable(patches)
    ensures Fold(Fold(v, patches), patches) == Fold(v, patches)
  {
    FoldIsMerge(v, patches);
    FoldIsMerge(Fold(v, patches), patches);
    forall i | 0 <= i < |patches| ensures CleanArrays(patches[i]) { NullFreeIsClean(patches[i]); }
    MergeAllIdempotent(Ground(v), patches, MaxDepth(patches));
  }

  /** All the defaults of these policies are free of nulls. */
  predicate NullFreePolicies(policies: seq<Policy>) {
    forall i, k :: 0 <= i < |policies| && 0 <= k < |policies[i].defaults| && policies[i].defaults[k].variables.Some? ==>
      NullFree(policies[i].defaults[k].variables.value)
  }

  predicate NullFreePair(p: (string, Default)) {
    p.1.variables.Some? ==> NullFree(p.1.variables.value)
  }

  lemma {:induction false} PairsNullFree(policies: seq<Policy>)
    requires NullFreePolicies(policies)
    ensures forall i :: 0 <= i < |Pairs(policies)| ==> NullFreePair(Pairs(policies)[i])
  {
    hide NullFree;
    if policies != [] {
      PairsNullFree(policies[..|policies| - 1]);
    }
  }

  lemma {:induction false} MatchingMergeable(pairs: seq<(string, Default)>)
    requires forall i :: 0 <= i < |pairs| ==> NullFreePair(pairs[i])
    ensures Matching(pairs).Admit? ==> Mergeable(Matching(pairs).value.patches)
  {
    hide NullFree;
    if pairs != [] {
      MatchingMergeable(pairs[..|pairs| - 1]);
    }
  }

  lemma CleanTwice(a: LabelMap, b: LabelMap)
    ensures Merge([Merge([a, b]), b]) == Merge([a, b])
  {
    MergePair(a, b);
    MergePair(Merge([a, b]), b);
    assert Clean(Clean(a) + Clean(b)) + Clean(b) == Clean(a) + Clean(b);
  }

  /**
   Admission is idempotent: with the same providers, policies and namespace, and defaults free of
   nulls, an object that came out of the webhook comes out of it again unchanged -- provider,
   labels, variables at any depth and annotation.
   */
  lemma AdmissionIdempotent(o: Subject, s: Surroundings)
    requires Defaulted(o, s).Admit?
    requires s.policies.Some? ==> NullFreePolicies(s.policies.value)
    ensures Defaulted(Defaulted(o, s).value, s) == Defaulted(o, s)
  {
    hide Matching, Merge, Fold, Providers.Choose, NullFreePolicies;
    var p := OnProvider(o, s).value;
    if p.plan.Some? {
      CleanTwice(p.labels, map[PLAN_LABEL := p.plan.value.0, REVISION_LABEL := p.plan.value.1]);
    }
    var policies := s.policies.value;
    if policies != [] {
      PairsNullFree(policies);
      MatchingMergeable(Pairs(policies));
      FoldIdempotent(p.variables, Matching(Pairs(policies)).value.patches);
    }
  }

  // ---- defaults with nulls

  /**
   One default on its own is stable under repetition exactly when: there were variables for it to
   be merged into, something is left of them, and it puts no array with nulls inside where they
   hold an object; or there were none, and it holds no null.  A default that is seeded keeps its
   nulls, and the next admission strips them.
   */
  lemma SingleDefaultStable(v: Option<Value>, patch: Value)
    requires patch.Object? && patch != EMPTY
    ensures Fold(Fold(v, [patch]), [patch]) == Fold(v, [patch]) <==>
              if HasVariables(v) then MergePatch(v.value, patch) != EMPTY && !Clash(v.value, patch) else NullFree(patch)
  {
    hide MergePatch, NullFree, Clash;
    OneFold(v, patch);
    var once := Patched(v, patch);
    OneFold(Some(once), patch);
    if HasVariables(v) {
      MergeTwice(v.value, patch);
    } else {
      MergeIntoItself(patch);
      PruneKeeps(patch);
    }
  }

  /** Every default that meets empty variables on the way holds no null. */
  predicate SeedsClean(v: Option<Value>, patches: seq<Value>) {
    forall i :: 0 <= i < |patches| && !HasVariables(Fold(v, patches[..i])) ==> NullFree(patches[i])
  }

  lemma {:induction false} CleanSeedsMerge(v: Option<Value>, patches: seq<Value>)
    requires SeedsClean(v, patches) && forall i :: 0 <= i < |patches| ==> patches[i].Object?
    ensures Ground(Fold(v, patches)) == MergeAll(Ground(v), patches)
    ensures patches != [] ==> Fold(v, patches) == Some(MergeAll(Ground(v), patches))
  {
    hide MergePatch;
    if patches != [] {
      var n := |patches| - 1;
      var init := patches[..n];
      assert forall i :: 0 <= i < n ==> init[..i] == patches[..i];
      CleanSeedsMerge(v, init);
      if !HasVariables(Fold(v, init)) {
        MergeIntoEmpty(EMPTY, patches[n]);
      }
    }
  }

  /**
   Lists of defaults may hold nulls too, outside arrays, as long as none that holds one meets empty
   variables, on the first admission or the second.
   */
  lemma ListStable(v: Option<Value>, patches: seq<Value>)
    requires SeedsClean(v, patches) && SeedsClean(Fold(v, patches), patches)
    requires forall i :: 0 <= i < |patches| ==> patches[i].Object? && CleanArrays(patches[i])
    ensures Fold(Fold(v, patches), patches) == Fold(v, patches)
  {
    hide MergePatch;
    CleanSeedsMerge(v, patches);
    CleanSeedsMerge(Fold(v, patches), patches);
    MergeAllIdempotent(Ground(v), patches, MaxDepth(patches));
  }

  /**
   The condition is not necessary: {"b": null} twice seeds a null into empty variables and wipes it
   out again, on every admission.
   */
  lemma WipedSeedStable()
    ensures var p := Object(map["b" := Null]);
            !SeedsClean(None, [p, p]) && Fold(Fold(None, [p, p]), [p, p]) == Fold(None, [p, p])
  {
    var p := Object(map["b" := Null]);
    assert !NullFree(p) by { assert "b" in p.members; }
    assert MergePatch(p, p) == EMPTY by { MergeIntoItself(p); }
    assert [p, p][..0] == [] && [p, p][..1] == [p];
    OneFold(None, p);
    OneFold(Some(EMPTY), p);
    assert Fold(None, [p, p]) == Some(EMPTY) == Fold(Some(EMPTY), [p, p]);
  }

  lemma OneFold(v: Option<Value>, patch: Value)
    ensures Fold(v, [patch]) == Some(Patched(v, patch))
  {
    hide Patched;
    assert [patch][..0] == [];
  }

  /** An array hides its nulls from the first admission only: {"a": [{"b": null}]} becomes {"a": [{}]}. */
  lemma ArrayDefaultUnstable()
    ensures var patch := Object(map["a" := Array([Object(map["b" := Null])])]);
            Fold(Fold(None, [patch]), [patch]) != Fold(None, [patch])
  {
    var inner := Object(map["b" := Null]);
    assert !NullFree(inner) by { assert "b" in inner.members; }
    var list := Array([inner]);
    assert !NullFree(list) by { assert !inner.Null? && list.items[0] == inner; }
    var patch := Object(map["a" := list]);
    assert !NullFree(patch) by { assert "a" in patch.members; }
    SingleDefaultStable(None, patch);
  }

  /** A default of {"a": null} gives {"a": null} the first time and {} after that. */
  lemma NullDefaultUnstable()
    ensures var patch := Object(map["a" := Null]);
            Fold(Fold(None, [patch]), [patch]) != Fold(None, [patch])
  {
    var patch := Object(map["a" := Null]);
    assert !NullFree(patch) by { assert "a" in patch.members; }
    SingleDefaultStable(None, patch);
  }

  // ---- the webhook itself, which overwrites the object's fields

  class Mutator {
    const plan: Option<(string, string)>
    var labels: LabelMap
    var provider: Option<string>
    var variables: Option<Value>
    var defaultedBy: Option<seq<string>>

    constructor (o: Subject)
      ensures Object() == o
    {
      plan, labels, provider, variables, defaultedBy := o.plan, o.labels, o.provider, o.variables, o.defaultedBy;
    }

    ghost function Object(): (o: Subject)
      reads this
    {
      Subject(labels, provider, plan, variables, defaultedBy)
    }

    method MutateOnProviderDefault(s: Surroundings) returns (err: Option<Reason>)
      modifies this`provider
      ensures var r := OnProvider(old(Object()), s);
              && (err.None? ==> r == Admit(Object()))
              && (err.Some? ==> r == Reject(err.value))
    {
      if provider.Some? { return None; }
      if s.providers.None? { return Some(ListFailed); }
      var choice := Providers.PickDefault(s.providers.value);
      match choice
      case NoDefault => err := None;
      case TooMany => err := Some(TooManyProviders);
      case Chosen(n) =>
        provider := Some(n);
        err := None;
    }

    method MutateOnPlan()
      modifies this`labels
      ensures Object() == OnPlan(old(Object()))
    {
      if plan.None? { return; }
      labels := MergeStringMaps([labels, map[PLAN_LABEL := plan.value.0, REVISION_LABEL := plan.value.1]]);
    }

    /** The two nested loops over policies and their defaults. */
    method MutateOnPolicyDefaults(policies: seq<Policy>, namespaceFound: bool) returns (err: Option<Reason>)
      modifies this`variables, this`defaultedBy
      ensures var r := OnPolicies(old(Object()), policies, namespaceFound);
              && (err.None? ==> r == Admit(Object()))
              && (err.Some? ==> r == Reject(err.value))
    {
      hide Applies, MergePatch;
      if |policies| == 0 { return None; }
      if !namespaceFound { return Some(NamespaceMissing); }
      var names := [];
      ghost var patches := [];
      ghost var all := Pairs(policies);
      ghost var n := 0;
      for i := 0 to |policies|
        invariant n == |Pairs(policies[..i])| && n <= |all| && all[..n] == Pairs(policies[..i])
        invariant Matching(all[..n]) == Admit(Matches(names, patches))
        invariant variables == Fold(old(variables), patches) && defaultedBy == old(defaultedBy)
      {
        var p := policies[i];
        ghost var m := n;
        PairsPrefix(policies, i);
        for k := 0 to |p.defaults|
          invariant n == m + k <= |all|
          invariant Matching(all[..n]) == Admit(Matches(names, patches))
          invariant variables == Fold(old(variables), patches) && defaultedBy == old(defaultedBy)
        {
          var x := p.defaults[k];
          assert all[n] == (p.name, x);
          MatchingStep(all, n);
          n := n + 1;
          if !HasVariables(x.variables) { continue; }
          var answer := Applies(x.selector);
          if answer.Invalid? {
            RejectStays(all, n);
            return Some(SelectorInvalid);
          }
          if answer.No? { continue; }
          if !x.variables.value.Object? {
            RejectStays(all, n);
            return Some(PatchInvalid);
          }
          names := names + [p.name];
          FoldStep(old(variables), patches, x.variables.value);
          patches := patches + [x.variables.value];
          if !HasVariables(variables) {
            variables := Some(x.variables.value);
            continue;
          }
          variables := Some(MergePatch(variables.value, x.variables.value));
        }
      }
      assert policies[..|policies|] == policies && all[..n] == all;
      if |names| > 0 {
        defaultedBy := Some(names);
      }
      err := None;
    }

    method Default(s: Surroundings) returns (err: Option<Reason>)
      modifies this
      ensures var r := Defaulted(old(Object()), s);
              && (err.None? ==> r == Admit(Object()))
              && (err.Some? ==> r == Reject(err.value))
    {
      hide OnProvider, OnPlan, OnPolicies;
      err := MutateOnProviderDefault(s);
      if err.Some? { return; }
      MutateOnPlan();
      if s.policies.None? { return Some(ListFailed); }
      err := MutateOnPolicyDefaults(s.policies.value, s.namespaceFound);
    }
  }

  lemma {:induction false} PairsPrefix(policies: seq<Policy>, i: nat)
    requires i < |policies|
    ensures var all, before := Pairs(policies), Pairs(policies[..i]); var p := policies[i];
            && |before| + |p.defaults| <= |all| && all[..|before|] == before
            && |Pairs(policies[..i + 1])| == |before| + |p.defaults|
            && all[..|before| + |p.defaults|] == Pairs(policies[..i + 1])
            && forall k :: 0 <= k < |p.defaults| ==> all[|before| + k] == (p.name, p.defaults[k])
  {
    var n := |policies| - 1;
    assert policies[..i + 1][..i] == policies[..i];
    if i < n {
      PairsPrefix(policies[..n], i);
      assert policies[..n][..i] == policies[..i] && policies[..n][..i + 1] == policies[..i + 1];
    } else {
      assert policies[..i + 1] == policies;
    }
  }

  lemma MatchingStep(all: seq<(string, Default)>, n: nat)
    requires n < |all| && Matching(all[..n]).Admit?
    ensures var init := Matching(all[..n]).value; var (name, d) := all[n];
            Matching(all[..n + 1]) ==
              if !HasVariables(d.variables) then Admit(init)
              else match Applies(d.selector)
                case Invalid => Reject(SelectorInvalid)
                case No => Admit(init)
                case Yes => if d.variables.value.Object? then Admit(Matches(init.names + [name], init.patches + [d.variables.value]))
                            else Reject(PatchInvalid)
  {
    hide Applies;
    assert all[..n + 1][..n] == all[..n];
  }

  lemma FoldStep(v: Option<Value>, patches: seq<Value>, patch: Value)
    ensures Fold(v, patches + [patch]) == Some(Patched(Fold(v, patches), patch))
  {
    hide MergePatch;
    assert (patches + [patch])[..|patches|] == patches;
  }

  lemma {:induction false} RejectStays(all: seq<(string, Default)>, n: nat)
    requires n <= |all| && Matching(all[..n]).Reject?
    ensures Matching(all) == Matching(all[..n])
    decreases |all|
  {
    if n == |all| {
      assert all[..n] == all;
    } else {
      var init := all[..|all| - 1];
      assert init[..n] == all[..n];
      RejectStays(init, n);
    }
  }
}
