/**
 Default providers: admission keeps at most one (pkg/handlers/providers/validation.go), and the two
 defaulting webhooks rely on it (pkg/handlers/configurations, pkg/handlers/cloudresources).
 */
module Providers {
  import opened Base

  datatype SecretRef = SecretRef(name: string, namespace: string)

  datatype Source = FromSecret(ref: Option<SecretRef>) | Injected(account: Option<string>) | Unsupported

  datatype Preload = Preload(context: string, cluster: string, region: string)

  /** What admission looks at; `annotation` is the default-provider annotation, None when absent. */
  datatype Provider = Provider(name: string, annotation: Option<string>, source: Source, preload: Option<Preload>)

  predicate IsDefault(p: Provider) {
    p.annotation == Some("true")
  }

  // ---- admission

  /** A secret in the controller's own namespace, or a service account. */
  predicate SourceOk(s: Source, controller: string) {
    match s
    case FromSecret(ref) => ref.Some? && ref.value.name != "" && ref.value.namespace != "" && ref.value.namespace == controller
    case Injected(account) => account.Some? && account.value != ""
    case Unsupported => false
  }

  predicate PreloadOk(p: Option<Preload>) {
    p.Some? ==> p.value.context != "" && p.value.cluster != "" && p.value.region != ""
  }

  /** The search of the validator: is some other provider the default already? */
  method OtherDefault(p: Provider, list: seq<Provider>) returns (found: bool)
    ensures found <==> exists q :: q in list && q.name != p.name && IsDefault(q)
  {
    for i := 0 to |list|
      invariant forall k :: 0 <= k < i ==> list[k].name == p.name || !IsDefault(list[k])
    {
      if list[i].name == p.name { continue; }
      if list[i].annotation == Some("true") {
        assert list[i] in list;
        return true;
      }
    }
    found := false;
  }

  /** A create or an update is admitted when the spec is valid and no second default would arise. */
  predicate Admitted(p: Provider, controller: string, list: seq<Provider>) {
    && SourceOk(p.source, controller) && PreloadOk(p.preload)
    && (IsDefault(p) ==> forall q :: q in list && q.name != p.name ==> !IsDefault(q))
  }

  method Validate(p: Provider, controller: string, list: seq<Provider>) returns (ok: bool)
    ensures ok == Admitted(p, controller, list)
  {
    match p.source {
      case FromSecret(ref) =>
        if ref.None? { return false; }
        if ref.value.name == "" { return false; }
        if ref.value.namespace == "" { return false; }
        if ref.value.namespace != controller { return false; }
      case Injected(account) =>
        if account.None? { return false; }
        if account.value == "" { return false; }
      case Unsupported => return false;
    }
    if p.annotation == Some("true") {
      var clash := OtherDefault(p, list);
      if clash { return false; }
    }
    if p.preload.Some? {
      if p.preload.value.context == "" { return false; }
      if p.preload.value.cluster == "" { return false; }
      if p.preload.value.region == "" { return false; }
    }
    ok := true;
  }

  // ---- runs of the API server

  type Registry = map<string, Provider>

  predicate Named(r: Registry) {
    forall n :: n in r ==> r[n].name == n
  }

  /** A listing holds every registered provider once, in any order. */
  ghost predicate Lists(r: Registry, list: seq<Provider>) {
    && (forall p :: p in list <==> p.name in r && r[p.name] == p)
    && Distinct(list)
  }

  predicate Distinct(list: seq<Provider>) {
    forall i, k :: 0 <= i < k < |list| ==> list[i].name != list[k].name
  }

  /** A submission carries the listing the webhook got, in whatever order. */
  datatype Change = Submitted(provider: Provider, listing: seq<Provider>) | Deleted(name: string)

  function Apply(controller: string, r: Registry, c: Change): (s: Registry) {
    match c
    case Submitted(p, listing) => if Admitted(p, controller, listing) then r[p.name := p] else r
    case Deleted(n) => r - {n}
  }

  function Registered(controller: string, changes: seq<Change>): (r: Registry) {
    if changes == [] then map[] else Apply(controller, Registered(controller, changes[..|changes| - 1]), changes[|changes| - 1])
  }

  ghost predicate FreshListings(controller: string, changes: seq<Change>) {
    forall i :: 0 <= i < |changes| && changes[i].Submitted? ==> Lists(Registered(controller, changes[..i]), changes[i].listing)
  }

  predicate OneDefault(r: Registry) {
    forall a, b :: a in r && b in r && IsDefault(r[a]) && IsDefault(r[b]) ==> a == b
  }

  lemma ApplyKeepsOne(controller: string, r: Registry, c: Change)
    requires Named(r) && OneDefault(r) && (c.Submitted? ==> Lists(r, c.listing))
    ensures Named(Apply(controller, r, c)) && OneDefault(Apply(controller, r, c))
  {
    if c.Submitted? && Admitted(c.provider, controller, c.listing) && IsDefault(c.provider) {
      forall a | a in r && a != c.provider.name ensures !IsDefault(r[a]) {
        assert r[a] in c.listing;
      }
    }
  }

  lemma {:induction false} AtMostOneDefault(controller: string, changes: seq<Change>)
    requires FreshListings(controller, changes)
    ensures Named(Registered(controller, changes)) && OneDefault(Registered(controller, changes))
  {
    if changes != [] {
      var n := |changes| - 1;
      var init := changes[..n];
      assert forall i :: 0 <= i < n ==> init[..i] == changes[..i];
      AtMostOneDefault(controller, init);
      ApplyKeepsOne(controller, Registered(controller, init), changes[n]);
    }
  }

  // ---- the choice both webhooks make

  datatype Choice = NoDefault | Chosen(name: string) | TooMany

  function Defaults(list: seq<Provider>): (r: seq<Provider>) {
    if list == [] then []
    else
      var init := Defaults(list[..|list| - 1]);
      if IsDefault(list[|list| - 1]) then init + [list[|list| - 1]] else init
  }

  function Choose(list: seq<Provider>): (c: Choice) {
    var d := Defaults(list);
    if |d| == 0 then NoDefault else if |d| > 1 then TooMany else Chosen(d[0].name)
  }

  /** The counting loop of the webhooks. */
  method PickDefault(list: seq<Provider>) returns (c: Choice)
    ensures c == Choose(list)
  {
    var count := 0;
    var provider := None;
    for i := 0 to |list|
      invariant count == |Defaults(list[..i])|
      invariant count > 0 ==> provider == Some(Defaults(list[..i])[count - 1])
    {
      assert list[..i + 1][..i] == list[..i];
      if list[i].annotation.None? { continue; }
      if list[i].annotation.value == "true" {
        count := count + 1;
        provider := Some(list[i]);
      }
    }
    assert list[..|list|] == list;
    if count == 0 { return NoDefault; }
    if count > 1 { return TooMany; }
    c := Chosen(provider.value.name);
  }

  lemma {:induction false} DefaultsAre(list: seq<Provider>)
    ensures forall p :: p in Defaults(list) <==> p in list && IsDefault(p)
  {
    if list != [] {
      var n := |list| - 1;
      DefaultsAre(list[..n]);
      assert list == list[..n] + [list[n]];
    }
  }

  lemma {:induction false} DefaultsDistinct(list: seq<Provider>)
    requires Distinct(list)
    ensures Distinct(Defaults(list))
  {
    hide IsDefault;
    if list != [] {
      var n := |list| - 1;
      var init := list[..n];
      DefaultsDistinct(init);
      DefaultsAre(init);
      forall p | p in Defaults(init) ensures p.name != list[n].name {
        var i :| 0 <= i < n && init[i] == p;
        assert list[i].name != list[n].name;
      }
      var d := Defaults(init);
      assert forall i :: 0 <= i < |d| ==> d[i] in d;
    }
  }

  lemma TwoListed(d: seq<Provider>)
    requires Distinct(d) && |d| > 1
    ensures exists p, q :: p in d && q in d && p.name != q.name
  {
    assert d[0] in d && d[1] in d && d[0].name != d[1].name;
  }

  /** In a registry with at most one default, the choice is that default, however it is listed. */
  lemma ChooseFinds(r: Registry, list: seq<Provider>)
    requires Named(r) && OneDefault(r) && Lists(r, list)
    ensures Choose(list) != TooMany
    ensures forall n :: Choose(list) == Chosen(n) <==> n in r && IsDefault(r[n])
    ensures Choose(list) == NoDefault <==> forall n :: n in r ==> !IsDefault(r[n])
  {
    var d := Defaults(list);
    DefaultsAre(list);
    DefaultsDistinct(list);
    if |d| > 1 {
      TwoListed(d);
    }
    forall n | n in r && IsDefault(r[n]) ensures r[n] in d && r[n].name == n {
      assert r[n] in list;
    }
    assert d != [] ==> d[0] in d;
  }

  /**
   Over every sequence of admitted creates and updates, and of deletes, the error "only one
   provider can be default" of the webhooks cannot arise, and the provider they fill in does not
   depend on the order in which the API server lists the providers.
   */
  lemma ChoiceIsDetermined(controller: string, changes: seq<Change>, a: seq<Provider>, b: seq<Provider>)
    requires FreshListings(controller, changes)
    requires Lists(Registered(controller, changes), a) && Lists(Registered(controller, changes), b)
    ensures Choose(a) == Choose(b) && Choose(a) != TooMany
  {
    var r := Registered(controller, changes);
    AtMostOneDefault(controller, changes);
    ChooseFinds(r, a);
    ChooseFinds(r, b);
  }
}
