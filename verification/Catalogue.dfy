/**
 The catalogue: Revision objects, the Plan objects that index them, and the expiry of old revisions
 (pkg/controller/revision, pkg/controller/plan, pkg/controller/expire, pkg/handlers/revisions).
 */
module Catalogue {
  import opened Base
  import Semver

  datatype Entry = Entry(name: string, version: string)

  /** `guarded` says that the revision controller's finalizer is on the object. */
  datatype Revision = Revision(plan: string, version: string, created: nat, guarded: bool, deleting: bool)

  type Index = seq<Entry>

  // ---- the index kept by a Plan

  predicate Has(index: Index, version: string) {
    exists i :: 0 <= i < |index| && index[i].version == version
  }

  function Without(index: Index, version: string): (r: Index) {
    if index == [] then []
    else
      var init := Without(index[..|index| - 1], version);
      if index[|index| - 1].version != version then init + [index[|index| - 1]] else init
  }

  predicate Unique(index: Index) {
    forall i, k :: 0 <= i < k < |index| ==> index[i].version != index[k].version
  }

  class Plan {
    var revisions: Index
    var latest: Option<Entry>

    method HasRevision(version: string) returns (found: bool)
      ensures found == Has(revisions, version)
    {
      for i := 0 to |revisions|
        invariant forall k :: 0 <= k < i ==> revisions[k].version != version
      {
        if revisions[i].version == version { return true; }
      }
      found := false;
    }

    method GetRevision(version: string) returns (r: Option<Entry>)
      ensures r.None? <==> !Has(revisions, version)
      ensures r.Some? ==> r.value in revisions && r.value.version == version
    {
      for i := 0 to |revisions|
        invariant forall k :: 0 <= k < i ==> revisions[k].version != version
      {
        if revisions[i].version == version { return Some(revisions[i]); }
      }
      r := None;
    }

    method RemoveRevision(version: string)
      modifies this`revisions
      ensures revisions == Without(old(revisions), version)
    {
      var kept: Index := [];
      for i := 0 to |revisions|
        invariant revisions == old(revisions) && kept == Without(revisions[..i], version)
      {
        assert revisions[..i + 1][..i] == revisions[..i];
        if revisions[i].version != version {
          kept := kept + [revisions[i]];
        }
      }
      assert revisions[..|revisions|] == revisions;
      revisions := kept;
    }

    method ListRevisions() returns (list: seq<string>)
      ensures list == Versions(revisions)
    {
      list := [];
      for i := 0 to |revisions|
        invariant list == Versions(revisions)[..i]
      {
        list := list + [revisions[i].version];
      }
    }

    /**
     Record the latest revision: an entry of the plan that no entry exceeds.  An empty plan keeps
     what it had; so does one with an entry that is no version.
     */
    method EnsureLatest(parse: Semver.Parser) returns (ok: bool)
      modifies this`latest
      ensures ok <==> revisions == [] || Semver.Parses(parse, Versions(revisions))
      ensures !ok || revisions == [] ==> latest == old(latest)
      ensures ok && revisions != [] ==>
                && latest.Some? && latest.value in revisions
                && Semver.Highest(parse, Versions(revisions), latest.value.version)
    {
      hide Semver.AtMost;
      if |revisions| == 0 { return true; }
      var list := ListRevisions();
      var top := Semver.LatestVersion(parse, list);
      if top.None? { return false; }
      var found: Option<Entry> := None;
      for i := 0 to |revisions|
        invariant latest == old(latest)
        invariant found.Some? ==> found.value in revisions && found.value.version == top.value
        invariant (exists k :: 0 <= k < i && revisions[k].version == top.value) ==> found.Some?
      {
        if revisions[i].version == top.value {
          found := Some(revisions[i]);
        }
      }
      assert exists k :: 0 <= k < |list| && list[k] == top.value;
      latest := found;
      ok := true;
    }
  }

  function Versions(index: Index): (r: seq<string>) {
    seq(|index|, i requires 0 <= i < |index| => index[i].version)
  }

  // ---- the catalogue and what happens to it

  /** The plan and revision labels of a CloudResource. */
  datatype Use = Use(plan: string, version: string)

  datatype State = State(
    revisions: map<string, Revision>,
    plans: map<string, Index>,
    uses: multiset<Use>,
    now: nat
  )

  /** The API call of a revision reconcile that fails, if any. */
  datatype Fault = NoFault | AddingFinalizer | WritingPlan | RemovingFinalizer

  datatype Action =
    | Created(name: string, plan: string, version: string)
    | DeleteAsked(name: string)
    | Reconciled(name: string, fault: Fault)
    | PlanGone(plan: string)
    | UseAdded(use: Use)
    | UseRemoved(use: Use)
    | Expires(name: string, listing: seq<string>, latest: string)
    | TimePasses(seconds: nat)

  /** Admission of a new revision: a proper version, and no other revision has this plan and version. */
  predicate Admitted(parse: Semver.Parser, s: State, name: string, plan: string, version: string) {
    && plan != "" && version != "" && parse(version).Some?
    && name !in s.revisions
    && forall n :: n in s.revisions ==> s.revisions[n].plan != plan || s.revisions[n].version != version
  }

  /** A revision being deleted leaves its plan's index first, and loses its finalizer only then. */
  function ReconcileDeleted(s: State, name: string, r: Revision, fault: Fault): (t: State) {
    if r.plan in s.plans && Has(s.plans[r.plan], r.version) && fault == WritingPlan then s
    else
      var t := if r.plan in s.plans then s.(plans := s.plans[r.plan := Without(s.plans[r.plan], r.version)]) else s;
      if fault == RemovingFinalizer then t else t.(revisions := t.revisions - {name})
  }

  /** A live one gets its finalizer first, and enters the index only with it. */
  function ReconcileLive(s: State, name: string, r: Revision, fault: Fault): (t: State) {
    if !r.guarded then
      if fault == AddingFinalizer then s else s.(revisions := s.revisions[name := r.(guarded := true)])
    else if fault == WritingPlan then s
    else if r.plan !in s.plans then s.(plans := s.plans[r.plan := [Entry(name, r.version)]])
    else if Has(s.plans[r.plan], r.version) then s
    else s.(plans := s.plans[r.plan := s.plans[r.plan] + [Entry(name, r.version)]])
  }

  /** The names of all revisions of a plan, in some order. */
  predicate Lists(s: State, plan: string, listing: seq<string>) {
    && (forall n :: n in listing ==> n in s.revisions && s.revisions[n].plan == plan)
    && (forall n :: n in s.revisions && s.revisions[n].plan == plan ==> n in listing)
  }

  function VersionsOf(s: State, listing: seq<string>): (r: seq<string>)
    requires forall n :: n in listing ==> n in s.revisions
  {
    seq(|listing|, i requires 0 <= i < |listing| => s.revisions[listing[i]].version)
  }

  /** `latest` is what the semver maximum of this listing may be. */
  predicate IsLatest(parse: Semver.Parser, s: State, plan: string, listing: seq<string>, latest: string) {
    && Lists(s, plan, listing)
    && Semver.Parses(parse, VersionsOf(s, listing))
    && Semver.Highest(parse, VersionsOf(s, listing), latest)
  }

  /** The expiry reconcile: old enough, not alone, not the latest, not in use. */
  predicate Expired(s: State, age: nat, r: Revision, listing: seq<string>, latest: string) {
    && !r.deleting
    && s.now - r.created >= age
    && |listing| > 1
    && latest != r.version
    && Use(r.plan, r.version) !in s.uses
  }

  function AskDelete(s: State, name: string, r: Revision): (t: State) {
    if r.guarded then s.(revisions := s.revisions[name := r.(deleting := true)])
    else s.(revisions := s.revisions - {name})
  }

  function Next(parse: Semver.Parser, age: nat, s: State, a: Action): (t: State) {
    match a
    case Created(n, p, v) =>
      if Admitted(parse, s, n, p, v) then s.(revisions := s.revisions[n := Revision(p, v, s.now, false, false)]) else s
    case DeleteAsked(n) => if n in s.revisions then AskDelete(s, n, s.revisions[n]) else s
    case Reconciled(n, f) =>
      if n !in s.revisions then s
      else if s.revisions[n].deleting then ReconcileDeleted(s, n, s.revisions[n], f)
      else ReconcileLive(s, n, s.revisions[n], f)
    case PlanGone(p) => s.(plans := s.plans - {p})
    case UseAdded(u) => s.(uses := s.uses + multiset{u})
    case UseRemoved(u) => s.(uses := s.uses - multiset{u})
    case Expires(n, listing, latest) =>
      if && n in s.revisions && IsLatest(parse, s, s.revisions[n].plan, listing, latest)
         && Expired(s, age, s.revisions[n], listing, latest)
      then AskDelete(s, n, s.revisions[n]) else s
    case TimePasses(d) => s.(now := s.now + d)
  }

  function Execute(parse: Semver.Parser, age: nat, s: State, actions: seq<Action>): (t: State) {
    if actions == [] then s
    else Next(parse, age, Execute(parse, age, s, actions[..|actions| - 1]), actions[|actions| - 1])
  }

  // ---- the index is sound

  /** The entry names a guarded revision of this plan and version. */
  predicate Backed(s: State, plan: string, e: Entry) {
    && e.name in s.revisions
    && s.revisions[e.name].plan == plan && s.revisions[e.name].version == e.version
    && s.revisions[e.name].guarded
  }

  predicate NoTwins(s: State) {
    forall m, n :: m in s.revisions && n in s.revisions && m != n ==>
      s.revisions[m].plan != s.revisions[n].plan || s.revisions[m].version != s.revisions[n].version
  }

  predicate Sound(s: State) {
    && NoTwins(s)
    && (forall n :: n in s.revisions && s.revisions[n].deleting ==> s.revisions[n].guarded)
    && (forall p :: p in s.plans ==> Unique(s.plans[p]))
    && (forall p, i :: p in s.plans && 0 <= i < |s.plans[p]| ==> Backed(s, p, s.plans[p][i]))
  }

  lemma {:induction false} WithoutIs(index: Index, version: string)
    ensures forall e :: e in Without(index, version) <==> e in index && e.version != version
  {
    if index != [] {
      var n := |index| - 1;
      WithoutIs(index[..n], version);
      assert index == index[..n] + [index[n]];
    }
  }

  lemma {:induction false} WithoutUnique(index: Index, version: string)
    requires Unique(index)
    ensures Unique(Without(index, version))
  {
    if index != [] {
      var n := |index| - 1;
      var init := index[..n];
      WithoutUnique(init, version);
      WithoutIs(init, version);
      var w := Without(init, version);
      forall i | 0 <= i < |w| ensures w[i].version != index[n].version {
        assert w[i] in w;
        var k :| 0 <= k < n && init[k] == w[i];
        assert index[k].version != index[n].version;
      }
    }
  }

  lemma DeletedKeeps(s: State, name: string, fault: Fault)
    requires Sound(s) && name in s.revisions && s.revisions[name].deleting
    ensures Sound(ReconcileDeleted(s, name, s.revisions[name], fault))
  {
    hide Has, Unique, Without;
    var r := s.revisions[name];
    var t := ReconcileDeleted(s, name, r, fault);
    if r.plan in s.plans {
      WithoutIs(s.plans[r.plan], r.version);
      WithoutUnique(s.plans[r.plan], r.version);
    }
    forall p, i | p in t.plans && 0 <= i < |t.plans[p]| ensures Backed(t, p, t.plans[p][i]) {
      var e := t.plans[p][i];
      assert e in t.plans[p];
      assert e in s.plans[p];
      var k :| 0 <= k < |s.plans[p]| && s.plans[p][k] == e;
      assert Backed(s, p, s.plans[p][k]);
    }
  }

  lemma GuardKeeps(s: State, name: string)
    requires Sound(s) && name in s.revisions
    ensures Sound(s.(revisions := s.revisions[name := s.revisions[name].(guarded := true)]))
  {
    hide Unique;
    var t := s.(revisions := s.revisions[name := s.revisions[name].(guarded := true)]);
    forall p, i | p in t.plans && 0 <= i < |t.plans[p]| ensures Backed(t, p, t.plans[p][i]) {
      assert Backed(s, p, s.plans[p][i]);
    }
  }

  lemma EnterKeeps(s: State, name: string, index: Index)
    requires Sound(s) && name in s.revisions && s.revisions[name].guarded
    requires var r := s.revisions[name];
             index == (if r.plan in s.plans then s.plans[r.plan] else []) && !Has(index, r.version)
    ensures var r := s.revisions[name]; Sound(s.(plans := s.plans[r.plan := index + [Entry(name, r.version)]]))
  {
    hide NoTwins;
    var r := s.revisions[name];
    var t := s.(plans := s.plans[r.plan := index + [Entry(name, r.version)]]);
    assert NoTwins(t) by { SameTwins(s, t); }
    forall p, i | p in t.plans && 0 <= i < |t.plans[p]| ensures Backed(t, p, t.plans[p][i]) {
      if p in s.plans && i < |s.plans[p]| {
        assert Backed(s, p, s.plans[p][i]);
      }
    }
  }

  lemma SameTwins(s: State, t: State)
    requires NoTwins(s) && t.revisions == s.revisions
    ensures NoTwins(t)
  {
  }

  lemma LiveKeeps(s: State, name: string, fault: Fault)
    requires Sound(s) && name in s.revisions && !s.revisions[name].deleting
    ensures Sound(ReconcileLive(s, name, s.revisions[name], fault))
  {
    hide Sound;
    var r := s.revisions[name];
    if !r.guarded {
      GuardKeeps(s, name);
    } else if r.plan !in s.plans {
      EnterKeeps(s, name, []);
      assert [] + [Entry(name, r.version)] == [Entry(name, r.version)];
    } else if !Has(s.plans[r.plan], r.version) {
      EnterKeeps(s, name, s.plans[r.plan]);
    }
  }

  lemma AskKeeps(s: State, name: string)
    requires Sound(s) && name in s.revisions
    ensures Sound(AskDelete(s, name, s.revisions[name]))
  {
    var t := AskDelete(s, name, s.revisions[name]);
    forall p, i | p in t.plans && 0 <= i < |t.plans[p]| ensures Backed(t, p, t.plans[p][i]) {
      assert Backed(s, p, s.plans[p][i]);
    }
  }

  lemma CreateKeeps(parse: Semver.Parser, s: State, n: string, p: string, v: string)
    requires Sound(s) && Admitted(parse, s, n, p, v)
    ensures Sound(s.(revisions := s.revisions[n := Revision(p, v, s.now, false, false)]))
  {
    var t := s.(revisions := s.revisions[n := Revision(p, v, s.now, false, false)]);
    forall q, i | q in t.plans && 0 <= i < |t.plans[q]| ensures Backed(t, q, t.plans[q][i]) {
      assert Backed(s, q, s.plans[q][i]);
    }
  }

  lemma SameRevisions(s: State, t: State)
    requires Sound(s) && t.revisions == s.revisions
    requires forall p :: p in t.plans ==> p in s.plans && t.plans[p] == s.plans[p]
    ensures Sound(t)
  {
    forall p, i | p in t.plans && 0 <= i < |t.plans[p]| ensures Backed(t, p, t.plans[p][i]) {
      assert Backed(s, p, s.plans[p][i]);
    }
  }

  lemma NextKeeps(parse: Semver.Parser, age: nat, s: State, a: Action)
    requires Sound(s)
    ensures Sound(Next(parse, age, s, a))
  {
    hide Sound, ReconcileDeleted, ReconcileLive, AskDelete, IsLatest, Expired, Admitted;
    match a
    case Created(n, p, v) => if Admitted(parse, s, n, p, v) { CreateKeeps(parse, s, n, p, v); }
    case DeleteAsked(n) => if n in s.revisions { AskKeeps(s, n); }
    case Reconciled(n, f) =>
      if n in s.revisions {
        if s.revisions[n].deleting { DeletedKeeps(s, n, f); } else { LiveKeeps(s, n, f); }
      }
    case Expires(n, listing, latest) => if n in s.revisions { AskKeeps(s, n); }
    case _ => SameRevisions(s, Next(parse, age, s, a));
  }

  const EMPTY := State(map[], map[], multiset{}, 0)

  lemma {:induction false} ExecuteKeeps(parse: Semver.Parser, age: nat, s: State, actions: seq<Action>)
    requires Sound(s)
    ensures Sound(Execute(parse, age, s, actions))
  {
    hide Sound, Next;
    if actions != [] {
      var n := |actions| - 1;
      ExecuteKeeps(parse, age, s, actions[..n]);
      NextKeeps(parse, age, Execute(parse, age, s, actions[..n]), actions[n]);
    }
  }

  /**
   Soundness of the plan index.  In every interleaving of creations, deletions, reconciles that
   fail at any call, expiry and the loss of whole plans, each entry of a plan names an existing
   revision of that plan and version, and no version is listed twice.
   */
  lemma IndexIsSound(parse: Semver.Parser, age: nat, actions: seq<Action>, plan: string, i: nat, k: nat)
    requires var s := Execute(parse, age, EMPTY, actions); plan in s.plans && i < |s.plans[plan]| && k < |s.plans[plan]|
    ensures var s := Execute(parse, age, EMPTY, actions); var e := s.plans[plan][i];
            && e.name in s.revisions
            && s.revisions[e.name].plan == plan && s.revisions[e.name].version == e.version
            && (i != k ==> s.plans[plan][k].version != e.version)
  {
    hide Execute;
    assert Sound(EMPTY);
    ExecuteKeeps(parse, age, EMPTY, actions);
    var s := Execute(parse, age, EMPTY, actions);
    assert Backed(s, plan, s.plans[plan][i]);
    assert Unique(s.plans[plan]);
  }

  /** A live revision that is reconciled without faults is in its plan's index, under its own name. */
  lemma ReconciledIsIndexed(s: State, name: string)
    requires Sound(s) && name in s.revisions && !s.revisions[name].deleting && s.revisions[name].guarded
    ensures var r := s.revisions[name]; var t := ReconcileLive(s, name, r, NoFault);
            r.plan in t.plans && Entry(name, r.version) in t.plans[r.plan]
  {
    var r := s.revisions[name];
    if r.plan in s.plans && Has(s.plans[r.plan], r.version) {
      var i :| 0 <= i < |s.plans[r.plan]| && s.plans[r.plan][i].version == r.version;
      assert Backed(s, r.plan, s.plans[r.plan][i]);
      assert s.plans[r.plan][i] == Entry(name, r.version);
    } else if r.plan in s.plans {
      var t := ReconcileLive(s, name, r, NoFault);
      assert t.plans[r.plan][|s.plans[r.plan]|] == Entry(name, r.version);
    }
  }

  /** What a plan lists. */
  predicate Listed(s: State, plan: string, e: Entry) {
    plan in s.plans && e in s.plans[plan]
  }

  /**
   A revision with a proper version that no revision of the plan has is created, and after two
   reconciles without faults, one for the finalizer and one for the index, its plan lists it.
   */
  lemma PublishedIsListed(parse: Semver.Parser, age: nat, s: State, name: string, plan: string, version: string)
    requires Sound(s) && name !in s.revisions && plan != "" && version != "" && parse(version).Some?
    requires forall m :: m in s.revisions && s.revisions[m].plan == plan ==> s.revisions[m].version != version
    ensures var a := Next(parse, age, s, Created(name, plan, version));
            var b := Next(parse, age, a, Reconciled(name, NoFault));
            var t := Next(parse, age, b, Reconciled(name, NoFault));
            && t.revisions == s.revisions[name := Revision(plan, version, s.now, true, false)]
            && Listed(t, plan, Entry(name, version))
            && forall p, e :: Listed(s, p, e) ==> Listed(t, p, e)
  {
    hide Sound, ReconcileLive;
    var a := s.(revisions := s.revisions[name := Revision(plan, version, s.now, false, false)]);
    assert Next(parse, age, s, Created(name, plan, version)) == a;
    CreateKeeps(parse, s, name, plan, version);
    GuardKeeps(a, name);
    LiveSteps(a, name);
    var b := a.(revisions := a.revisions[name := a.revisions[name].(guarded := true)]);
    LiveSteps(b, name);
    ReconciledIsIndexed(b, name);
  }

  /** What a reconcile without faults does to a live revision: first the finalizer, then the index, which only grows. */
  lemma LiveSteps(s: State, name: string)
    requires name in s.revisions && !s.revisions[name].deleting
    ensures var t := ReconcileLive(s, name, s.revisions[name], NoFault);
            && (!s.revisions[name].guarded ==> t == s.(revisions := s.revisions[name := s.revisions[name].(guarded := true)]))
            && (s.revisions[name].guarded ==> t.revisions == s.revisions && forall p, e :: Listed(s, p, e) ==> Listed(t, p, e))
  {
    hide Has;
  }

  /**
   A revision asked to go and reconciled without faults is gone, from the cluster and from its
   plan, and everything else stays.
   */
  lemma WithdrawnIsGone(parse: Semver.Parser, age: nat, s: State, name: string)
    requires Sound(s) && name in s.revisions
    ensures var t := Next(parse, age, Next(parse, age, s, DeleteAsked(name)), Reconciled(name, NoFault));
            && t.revisions == s.revisions - {name}
            && forall p, e :: Listed(t, p, e) <==> Listed(s, p, e) && e.name != name
  {
    hide Unique, Without, Has;
    var r := s.revisions[name];
    var a := Next(parse, age, s, DeleteAsked(name));
    var t := Next(parse, age, a, Reconciled(name, NoFault));
    if r.plan in s.plans {
      WithoutIs(s.plans[r.plan], r.version);
    }
    forall p, e | Listed(s, p, e) ensures Backed(s, p, e) {
      var i :| 0 <= i < |s.plans[p]| && s.plans[p][i] == e;
      assert Backed(s, p, s.plans[p][i]);
    }
    forall p, e ensures Listed(t, p, e) <==> Listed(s, p, e) && e.name != name {
      if Listed(s, p, e) {
        assert Backed(s, p, e);
      }
    }
  }

  // ---- expiry

  /** Its precedence is strictly above that of every other revision of the plan. */
  predicate Top(parse: Semver.Parser, s: State, name: string) {
    && name in s.revisions
    && parse(s.revisions[name].version).Some?
    && forall m :: m in s.revisions && m != name && s.revisions[m].plan == s.revisions[name].plan ==>
         && parse(s.revisions[m].version).Some?
         && Semver.Precedes(parse(s.revisions[m].version).value, parse(s.revisions[name].version).value)
  }

  /** Whatever the order of the listing, the maximum is the top revision's version. */
  lemma TopIsLatest(parse: Semver.Parser, s: State, name: string, listing: seq<string>, latest: string)
    requires Top(parse, s, name) && IsLatest(parse, s, s.revisions[name].plan, listing, latest)
    ensures latest == s.revisions[name].version
  {
    hide Semver.Precedes;
    var versions := VersionsOf(s, listing);
    var k :| 0 <= k < |versions| && versions[k] == latest;
    assert listing[k] in listing;
    var i :| 0 <= i < |listing| && listing[i] == name;
    assert Semver.AtMost(parse, versions[i], latest);
  }

  /** Expiry leaves alone the top revision of a plan and every revision a cloud resource is labelled with. */
  lemma ExpirySpares(parse: Semver.Parser, age: nat, s: State, name: string, listing: seq<string>, latest: string)
    requires name in s.revisions
    requires Top(parse, s, name) || Use(s.revisions[name].plan, s.revisions[name].version) in s.uses
    ensures Next(parse, age, s, Expires(name, listing, latest)) == s
  {
    hide Top;
    if Top(parse, s, name) && IsLatest(parse, s, s.revisions[name].plan, listing, latest) {
      TopIsLatest(parse, s, name, listing, latest);
    }
  }

  /** The ensures of the expiry reconcile, in order. */
  method DecideExpiry(parse: Semver.Parser, age: nat, s: State, name: string, listing: seq<string>)
    returns (expire: bool, latest: Option<string>)
    requires name in s.revisions && Lists(s, s.revisions[name].plan, listing)
    ensures latest.Some? ==> IsLatest(parse, s, s.revisions[name].plan, listing, latest.value)
    ensures expire <==> latest.Some? && Expired(s, age, s.revisions[name], listing, latest.value)
    ensures Top(parse, s, name) || Use(s.revisions[name].plan, s.revisions[name].version) in s.uses ==> !expire
  {
    hide Semver.Highest, Semver.Parses, Top;
    var r := s.revisions[name];
    latest := None;
    if r.deleting { return false, None; }
    if s.now - r.created < age { return false, None; }
    if |listing| <= 1 { return false, None; }
    var versions := [];
    for i := 0 to |listing|
      invariant versions == VersionsOf(s, listing)[..i]
    {
      versions := versions + [s.revisions[listing[i]].version];
    }
    assert versions == VersionsOf(s, listing);
    latest := Semver.LatestVersion(parse, versions);
    if latest.None? { return false, None; }
    if Top(parse, s, name) {
      TopIsLatest(parse, s, name, listing, latest.value);
    }
    if latest.value == r.version { return false, latest; }
    if Use(r.plan, r.version) in s.uses { return false, latest; }
    expire := true;
  }

  /** Actions that neither ask for this revision's deletion nor create one of its plan that is not below it. */
  predicate Undisturbed(parse: Semver.Parser, a: Action, name: string, r: Revision)
    requires parse(r.version).Some?
  {
    && a != DeleteAsked(name)
    && (a.Created? && a.plan == r.plan && parse(a.version).Some? ==>
          Semver.Precedes(parse(a.version).value, parse(r.version).value))
  }

  /** Present, not being deleted, and the same revision as before but for its finalizer. */
  predicate Alive(s: State, t: State, name: string) {
    && name in s.revisions && name in t.revisions
    && !t.revisions[name].deleting
    && t.revisions[name] == s.revisions[name].(guarded := t.revisions[name].guarded)
  }

  /** No revision came up, and none changed its plan or version. */
  predicate SameSpecs(s: State, t: State) {
    forall m :: m in t.revisions ==>
      m in s.revisions && t.revisions[m].plan == s.revisions[m].plan && t.revisions[m].version == s.revisions[m].version
  }

  lemma AskAddsNone(s: State, n: string)
    requires n in s.revisions
    ensures SameSpecs(s, AskDelete(s, n, s.revisions[n]))
  {
  }

  lemma ReconcileAddsNone(s: State, n: string, fault: Fault)
    requires n in s.revisions
    ensures SameSpecs(s, if s.revisions[n].deleting then ReconcileDeleted(s, n, s.revisions[n], fault)
                         else ReconcileLive(s, n, s.revisions[n], fault))
  {
    hide Has, Without;
  }

  /** What one action can do to a revision other than the one under consideration. */
  lemma OthersStay(parse: Semver.Parser, age: nat, s: State, a: Action, m: string)
    requires m in Next(parse, age, s, a).revisions
    ensures m in s.revisions ||
              (&& a.Created? && m == a.name && parse(a.version).Some?
               && Next(parse, age, s, a).revisions[m].plan == a.plan && Next(parse, age, s, a).revisions[m].version == a.version)
    ensures m in s.revisions ==>
              var r, q := s.revisions[m], Next(parse, age, s, a).revisions[m];
              r.plan == q.plan && r.version == q.version
  {
    hide IsLatest, Expired, AskDelete, ReconcileDeleted, ReconcileLive;
    match a
    case DeleteAsked(n) => if n in s.revisions { AskAddsNone(s, n); }
    case Reconciled(n, f) => if n in s.revisions { ReconcileAddsNone(s, n, f); }
    case Expires(n, _, _) => if n in s.revisions { AskAddsNone(s, n); }
    case _ =>
  }

  lemma TopKept(parse: Semver.Parser, age: nat, s: State, a: Action, name: string)
    requires Top(parse, s, name) && !s.revisions[name].deleting && Undisturbed(parse, a, name, s.revisions[name])
    ensures var t := Next(parse, age, s, a); Alive(s, t, name) && Top(parse, t, name)
  {
    hide Semver.Precedes, Next;
    var t := Next(parse, age, s, a);
    StaysAlive(parse, age, s, a, name);
    forall m | m in t.revisions && m != name && t.revisions[m].plan == t.revisions[name].plan
      ensures parse(t.revisions[m].version).Some?
      ensures Semver.Precedes(parse(t.revisions[m].version).value, parse(s.revisions[name].version).value)
    {
      OthersStay(parse, age, s, a, m);
    }
  }

  lemma StaysAlive(parse: Semver.Parser, age: nat, s: State, a: Action, name: string)
    requires name in s.revisions && !s.revisions[name].deleting && a != DeleteAsked(name)
    requires Top(parse, s, name) || Use(s.revisions[name].plan, s.revisions[name].version) in s.uses
    ensures Alive(s, Next(parse, age, s, a), name)
  {
    hide IsLatest, Expired, Has, Without, Top;
    if a.Expires? && a.name == name {
      ExpirySpares(parse, age, s, name, a.listing, a.latest);
    }
  }

  /**
   No sequence of expiries, reconciles, other deletions, creations of lower versions and passing time
   removes the revision whose version is the highest of its plan: it can only be deleted by request,
   or outgrown by one that is not below it.
   */
  lemma {:induction false} HighestSurvives(parse: Semver.Parser, age: nat, s: State, actions: seq<Action>, name: string)
    requires Top(parse, s, name) && !s.revisions[name].deleting
    requires forall i :: 0 <= i < |actions| ==> Undisturbed(parse, actions[i], name, s.revisions[name])
    ensures var t := Execute(parse, age, s, actions); Alive(s, t, name) && Top(parse, t, name)
  {
    hide Top, Next, Semver.Precedes;
    if actions == [] {
      TopPresent(parse, s, name);
    } else {
      var n := |actions| - 1;
      HighestSurvives(parse, age, s, actions[..n], name);
      TopKept(parse, age, Execute(parse, age, s, actions[..n]), actions[n], name);
    }
  }

  lemma TopPresent(parse: Semver.Parser, s: State, name: string)
    requires Top(parse, s, name)
    ensures name in s.revisions
  {
  }

  /** A revision that a cloud resource is labelled with all along is not deleted either. */
  lemma {:induction false} UsedSurvives(parse: Semver.Parser, age: nat, s: State, actions: seq<Action>, name: string)
    requires name in s.revisions && !s.revisions[name].deleting
    requires Use(s.revisions[name].plan, s.revisions[name].version) in s.uses
    requires forall i :: 0 <= i < |actions| ==> actions[i] != DeleteAsked(name)
    requires forall i :: 0 <= i < |actions| ==> actions[i] != UseRemoved(Use(s.revisions[name].plan, s.revisions[name].version))
    ensures var t := Execute(parse, age, s, actions);
            Alive(s, t, name) && Use(s.revisions[name].plan, s.revisions[name].version) in t.uses
  {
    hide Next, Top;
    if actions != [] {
      var n := |actions| - 1;
      UsedSurvives(parse, age, s, actions[..n], name);
      var t := Execute(parse, age, s, actions[..n]);
      StaysAlive(parse, age, t, actions[n], name);
      UsesKept(parse, age, t, actions[n], Use(s.revisions[name].plan, s.revisions[name].version));
    }
  }

  lemma UsesKept(parse: Semver.Parser, age: nat, s: State, a: Action, u: Use)
    requires u in s.uses && a != UseRemoved(u)
    ensures u in Next(parse, age, s, a).uses
  {
    hide IsLatest, Expired, Has, Without, Admitted;
  }

  /** A revision that is young after an action was not removed by it, unless that was asked. */
  lemma YoungKept(parse: Semver.Parser, age: nat, s: State, a: Action, name: string)
    requires name in s.revisions && !s.revisions[name].deleting && a != DeleteAsked(name)
    ensures Next(parse, age, s, a).now - s.revisions[name].created < age ==> Alive(s, Next(parse, age, s, a), name)
  {
    hide IsLatest, Has, Without;
  }

  /** In every run a revision younger than the expiry age is there unless its deletion was asked for. */
  lemma {:induction false} YoungSurvives(parse: Semver.Parser, age: nat, s: State, actions: seq<Action>, name: string)
    requires name in s.revisions && !s.revisions[name].deleting
    requires forall i :: 0 <= i < |actions| ==> actions[i] != DeleteAsked(name)
    requires Execute(parse, age, s, actions).now - s.revisions[name].created < age
    ensures Alive(s, Execute(parse, age, s, actions), name)
  {
    hide Next;
    if actions != [] {
      var n := |actions| - 1;
      ClockAdvances(parse, age, Execute(parse, age, s, actions[..n]), actions[n]);
      YoungSurvives(parse, age, s, actions[..n], name);
      YoungKept(parse, age, Execute(parse, age, s, actions[..n]), actions[n], name);
    }
  }

  lemma ClockAdvances(parse: Semver.Parser, age: nat, s: State, a: Action)
    ensures s.now <= Next(parse, age, s, a).now
  {
    hide IsLatest, Expired, Has, Without, Admitted;
  }

  /**
   And expiry does its work: an unused revision of that age goes, or is marked to go, once a
   revision of its plan is above it, whatever the order of the listing.
   */
  lemma OutdatedExpires(parse: Semver.Parser, age: nat, s: State, name: string, above: string, listing: seq<string>, latest: string)
    requires name in s.revisions && !s.revisions[name].deleting && s.now - s.revisions[name].created >= age
    requires above in s.revisions && s.revisions[above].plan == s.revisions[name].plan
    requires IsLatest(parse, s, s.revisions[name].plan, listing, latest)
    requires parse(s.revisions[name].version).Some? && parse(s.revisions[above].version).Some?
    requires Semver.Precedes(parse(s.revisions[name].version).value, parse(s.revisions[above].version).value)
    requires Use(s.revisions[name].plan, s.revisions[name].version) !in s.uses
    ensures var t := Next(parse, age, s, Expires(name, listing, latest));
            name !in t.revisions || t.revisions[name].deleting
  {
    hide Semver.Precedes;
    var versions := VersionsOf(s, listing);
    var i :| 0 <= i < |listing| && listing[i] == name;
    var k :| 0 <= k < |listing| && listing[k] == above;
    assert Semver.AtMost(parse, versions[k], latest);
    Semver.CompareAsymmetric(parse(versions[i]).value, parse(versions[k]).value);
  }
}
