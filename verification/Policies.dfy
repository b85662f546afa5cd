/**
 Choice of the security policy that governs a configuration (pkg/utils/policies/find.go) by
 weights (pkg/utils/weights/weights.go).
 */
module Policies {
  import opened Base

  /** A label selector, already evaluated against the labels it is asked about. */
  datatype Selector = Selector(valid: bool, empty: bool, matches: bool)

  datatype PolicySelector = PolicySelector(namespace: Option<Selector>, resource: Option<Selector>)

  datatype Constraint = Constraint(source: string)

  datatype Checkov = Checkov(constraint: Constraint, selector: Option<PolicySelector>)

  datatype Policy = Policy(name: string, checkov: Option<Checkov>)

  /** What one policy contributes: an invalid selector, nothing, or itself with a weight. */
  datatype Verdict = Invalid | Skipped | Weighted(weight: int)

  function NamespaceVerdict(s: PolicySelector): (v: Verdict) {
    match s.namespace
    case None => Weighted(0)
    case Some(n) =>
      if !n.valid then Invalid
      else if !n.empty && !n.matches then Skipped
      else Weighted(10)
  }

  function Judge(p: Policy): (v: Verdict) {
    if p.checkov.None? then Skipped
    else if p.checkov.value.selector.None? then Weighted(0)
    else
      var s := p.checkov.value.selector.value;
      var n := NamespaceVerdict(s);
      if !n.Weighted? || s.resource.None? then n
      else if !s.resource.value.valid then Invalid
      else if !s.resource.value.matches then Skipped
      else Weighted(n.weight + 20)
  }

  // ---- what the selectors say

  predicate HasNamespace(p: Policy) {
    p.checkov.Some? && p.checkov.value.selector.Some? && p.checkov.value.selector.value.namespace.Some?
  }

  predicate HasResource(p: Policy) {
    p.checkov.Some? && p.checkov.value.selector.Some? && p.checkov.value.selector.value.resource.Some?
  }

  /** Its namespace selector, if it has one, is proper and empty or matching. */
  predicate NamespaceFits(p: Policy) {
    HasNamespace(p) ==>
      var n := p.checkov.value.selector.value.namespace.value;
      n.valid && (n.empty || n.matches)
  }

  predicate ResourceFits(p: Policy) {
    HasResource(p) ==>
      var x := p.checkov.value.selector.value.resource.value;
      x.valid && x.matches
  }

  /** A security policy all of whose selectors fit. */
  predicate AppliesTo(p: Policy) {
    p.checkov.Some? && NamespaceFits(p) && ResourceFits(p)
  }

  /** Its namespace selector is improper, or fits and the resource selector is improper. */
  predicate Improper(p: Policy) {
    || (HasNamespace(p) && !p.checkov.value.selector.value.namespace.value.valid)
    || (NamespaceFits(p) && HasResource(p) && !p.checkov.value.selector.value.resource.value.valid)
  }

  /** The more specific: a resource selector counts before a namespace selector. */
  predicate Outranks(p: Policy, q: Policy) {
    if HasResource(p) != HasResource(q) then HasResource(p)
    else HasNamespace(p) && !HasNamespace(q)
  }

  /** The weights say what the selectors say. */
  lemma JudgedBySelectors(p: Policy)
    ensures Judge(p).Invalid? <==> Improper(p)
    ensures Judge(p).Weighted? <==> AppliesTo(p)
    ensures AppliesTo(p) ==> Judge(p).weight >= 0
  {
  }

  lemma WeighedBySelectors(p: Policy, q: Policy)
    requires AppliesTo(p) && AppliesTo(q)
    ensures Judge(p).Weighted? && Judge(q).Weighted?
    ensures Judge(p).weight > Judge(q).weight <==> Outranks(p, q)
  {
  }

  function Weight(p: Policy): (w: int)
    requires AppliesTo(p)
  {
    Judge(p).weight
  }

  datatype Item = Item(weight: int, policy: Policy)

  /** Adding an object a second time adds up its weights. */
  function AddItem(items: seq<Item>, p: Policy, w: int): (r: seq<Item>) {
    if items == [] then [Item(w, p)]
    else if items[0].policy.name == p.name then [items[0].(weight := items[0].weight + w)] + items[1..]
    else [items[0]] + AddItem(items[1..], p, w)
  }

  function MaxWeight(items: seq<Item>): (m: int) {
    if items == [] then 0
    else
      var m := MaxWeight(items[..|items| - 1]);
      var w := items[|items| - 1].weight;
      if w > m then w else m
  }

  function OfWeight(items: seq<Item>, w: int): (r: seq<Policy>) {
    if items == [] then []
    else
      var init := OfWeight(items[..|items| - 1], w);
      var last := items[|items| - 1];
      if last.weight == w then init + [last.policy] else init
  }

  function Highest(items: seq<Item>): (r: seq<Policy>) {
    OfWeight(items, MaxWeight(items))
  }

  datatype Match =
    | NoPolicy
    | Governing(constraint: Constraint)
    | Ambiguous(names: seq<string>)
    | BadSelector

  /** The weighing loop, None when it meets an invalid selector. */
  function Weigh(list: seq<Policy>): (r: Option<seq<Item>>) {
    if list == [] then Some([])
    else
      var init := Weigh(list[..|list| - 1]);
      var p := list[|list| - 1];
      if init.None? || Judge(p).Invalid? then None
      else if Judge(p).Skipped? then init
      else Some(AddItem(init.value, p, Judge(p).weight))
  }

  function Names(ps: seq<Policy>): (r: seq<string>) {
    seq(|ps|, i requires 0 <= i < |ps| => ps[i].name)
  }

  function FindMatchingPolicy(list: seq<Policy>): (r: Match) {
    match Weigh(list)
    case None => BadSelector
    case Some(items) =>
      if items == [] then NoPolicy
      else
        var top := Highest(items);
        if |top| == 1 && top[0].checkov.Some? then Governing(top[0].checkov.value.constraint)
        else Ambiguous(Names(top))
  }

  // ---- the reference notion: the one most specific policy

  predicate DistinctNames(list: seq<Policy>) {
    forall i, j :: 0 <= i < j < |list| ==> list[i].name != list[j].name
  }

  predicate ValidSelectors(list: seq<Policy>) {
    forall p :: p in list ==> !Improper(p)
  }

  /** p applies and no other applicable policy is as specific. */
  predicate SoleMostSpecific(p: Policy, list: seq<Policy>) {
    && p in list
    && AppliesTo(p)
    && forall q :: q in list && AppliesTo(q) && q != p ==> Outranks(p, q)
  }

  /** p applies and no applicable policy is more specific. */
  predicate MostSpecific(p: Policy, list: seq<Policy>) {
    && p in list
    && AppliesTo(p)
    && forall q :: q in list && AppliesTo(q) ==> !Outranks(q, p)
  }

  // ---- proofs

  predicate ItemsOf(items: seq<Item>, list: seq<Policy>) {
    && (forall x :: x in items ==> x.policy in list && Judge(x.policy) == Weighted(x.weight))
    && (forall p :: p in list && AppliesTo(p) ==> Item(Weight(p), p) in items)
    && (forall i, j :: 0 <= i < j < |items| ==> items[i].policy.name != items[j].policy.name)
  }

  lemma {:induction false} AddFresh(items: seq<Item>, p: Policy, w: int)
    requires forall i :: 0 <= i < |items| ==> items[i].policy.name != p.name
    ensures AddItem(items, p, w) == items + [Item(w, p)]
  {
    if items != [] {
      AddFresh(items[1..], p, w);
      assert items == [items[0]] + items[1..];
    }
  }

  lemma {:induction false} AddAt(items: seq<Item>, p: Policy, w: int, i: nat)
    requires i < |items| && items[i].policy.name == p.name
    requires forall k :: 0 <= k < i ==> items[k].policy.name != p.name
    ensures AddItem(items, p, w) == items[i := items[i].(weight := items[i].weight + w)]
  {
    if i > 0 {
      var rest := items[1..];
      AddAt(rest, p, w, i - 1);
      assert items[i := items[i].(weight := items[i].weight + w)] ==
             [items[0]] + rest[i - 1 := items[i].(weight := items[i].weight + w)];
    }
  }

  lemma ItemsGrow(items: seq<Item>, init: seq<Policy>, p: Policy)
    requires ItemsOf(items, init) && DistinctNames(init + [p])
    ensures !AppliesTo(p) ==> ItemsOf(items, init + [p])
    ensures AppliesTo(p) ==> AddItem(items, p, Weight(p)) == items + [Item(Weight(p), p)]
    ensures AppliesTo(p) ==> ItemsOf(items + [Item(Weight(p), p)], init + [p])
  {
    hide Judge, AppliesTo, Improper, DistinctNames;
    JudgedBySelectors(p);
    if AppliesTo(p) {
      forall i | 0 <= i < |items| ensures items[i].policy.name != p.name {
        assert items[i] in items;
        FreshName(init, p, items[i].policy);
      }
      AddFresh(items, p, Weight(p));
      var more := items + [Item(Weight(p), p)];
      assert more[|items|] == Item(Weight(p), p);
    }
  }

  lemma FreshName(init: seq<Policy>, p: Policy, q: Policy)
    requires DistinctNames(init + [p]) && q in init
    ensures q.name != p.name
  {
    var i :| 0 <= i < |init| && init[i] == q;
    var list := init + [p];
    assert list[i] == q && list[|init|] == p;
  }

  lemma {:induction false} WeighCollects(list: seq<Policy>)
    requires DistinctNames(list) && ValidSelectors(list)
    ensures Weigh(list).Some? && ItemsOf(Weigh(list).value, list)
  {
    if list != [] {
      hide Judge, AppliesTo, Improper, ItemsOf, AddItem;
      var n := |list| - 1;
      var init, p := list[..n], list[n];
      assert list == init + [p];
      WeighCollects(init);
      JudgedBySelectors(p);
      ItemsGrow(Weigh(init).value, init, p);
    }
  }

  lemma {:induction false} WeighRejects(list: seq<Policy>)
    ensures Weigh(list).None? <==> !ValidSelectors(list)
  {
    if list != [] {
      var n := |list| - 1;
      assert list == list[..n] + [list[n]];
      WeighRejects(list[..n]);
      JudgedBySelectors(list[n]);
    }
  }

  lemma {:induction false} MaxWeightBounds(items: seq<Item>)
    requires forall x :: x in items ==> x.weight >= 0
    ensures MaxWeight(items) >= 0
    ensures forall i :: 0 <= i < |items| ==> items[i].weight <= MaxWeight(items)
    ensures items != [] ==> exists i :: 0 <= i < |items| && items[i].weight == MaxWeight(items)
  {
    if items != [] {
      var n := |items| - 1;
      var init := items[..n];
      assert forall x :: x in init ==> x in items;
      assert items[n] in items;
      MaxWeightBounds(init);
      if MaxWeight(items) == MaxWeight(init) && init != [] {
        var i :| 0 <= i < n && init[i].weight == MaxWeight(init);
        assert items[i].weight == MaxWeight(items);
      } else {
        assert items[n].weight == MaxWeight(items);
      }
    }
  }

  lemma {:induction false} OfWeightSelects(items: seq<Item>, w: int)
    requires forall i, j :: 0 <= i < j < |items| ==> items[i].policy.name != items[j].policy.name
    ensures forall p :: p in OfWeight(items, w) <==> Item(w, p) in items
    ensures DistinctNames(OfWeight(items, w))
  {
    if items != [] {
      var n := |items| - 1;
      var init, last := items[..n], items[n];
      assert items == init + [last];
      OfWeightSelects(init, w);
      var r := OfWeight(init, w);
      forall i | 0 <= i < |r| ensures r[i].name != last.policy.name {
        assert r[i] in r;
        assert Item(w, r[i]) in init;
        var k :| 0 <= k < |init| && init[k] == Item(w, r[i]);
        assert items[k].policy.name != items[n].policy.name;
      }
    }
  }

  lemma TopItem(items: seq<Item>, list: seq<Policy>, p: Policy)
    requires ItemsOf(items, list) && items != []
    requires forall x :: x in items ==> x.weight <= MaxWeight(items)
    requires exists x :: x in items && x.weight == MaxWeight(items)
    ensures Item(MaxWeight(items), p) in items <==> MostSpecific(p, list)
  {
    hide Judge, AppliesTo, Outranks;
    var m := MaxWeight(items);
    if Item(m, p) in items {
      JudgedBySelectors(p);
      forall q | q in list && AppliesTo(q) ensures !Outranks(q, p) {
        assert Item(Weight(q), q) in items;
        WeighedBySelectors(q, p);
      }
    }
    if MostSpecific(p, list) {
      assert Item(Weight(p), p) in items;
      var x :| x in items && x.weight == m;
      JudgedBySelectors(x.policy);
      WeighedBySelectors(x.policy, p);
    }
  }

  /** The policies the search returns as highest are exactly the most specific ones. */
  lemma HighestAreMostSpecific(list: seq<Policy>)
    requires DistinctNames(list) && ValidSelectors(list)
    ensures Weigh(list).Some?
    ensures var top := Highest(Weigh(list).value);
            && DistinctNames(top)
            && (forall p :: p in top <==> MostSpecific(p, list))
            && (Weigh(list).value == [] <==> forall p :: p in list ==> !AppliesTo(p))
            && (Weigh(list).value != [] ==> top != [])
  {
    WeighCollects(list);
    var items := Weigh(list).value;
    forall x | x in items ensures x.weight >= 0 { JudgedBySelectors(x.policy); }
    MaxWeightBounds(items);
    OfWeightSelects(items, MaxWeight(items));
    if items != [] {
      assert items[0] in items;
      var k :| 0 <= k < |items| && items[k].weight == MaxWeight(items);
      var x := items[k];
      assert x in items;
      assert x == Item(MaxWeight(items), x.policy);
      assert x.policy in Highest(items);
      forall p ensures p in Highest(items) <==> MostSpecific(p, list) {
        TopItem(items, list, p);
      }
    }
  }

  /**
   The search refines "the unique most specific policy": for distinct names, it errs on a
   selector exactly when one is invalid; otherwise it finds nothing iff nothing applies, the
   constraint of the sole most specific policy iff there is one, and reports ambiguity iff two
   policies tie at the top, naming exactly those.
   */
  lemma FindsUniqueMostSpecific(list: seq<Policy>)
    requires DistinctNames(list)
    ensures FindMatchingPolicy(list).BadSelector? <==> !ValidSelectors(list)
    ensures ValidSelectors(list) ==>
              && (FindMatchingPolicy(list).NoPolicy? <==> forall p :: p in list ==> !AppliesTo(p))
              && (FindMatchingPolicy(list).Governing? <==> exists p :: SoleMostSpecific(p, list))
              && (forall p :: SoleMostSpecific(p, list) ==>
                    FindMatchingPolicy(list) == Governing(p.checkov.value.constraint))
              && (FindMatchingPolicy(list).Ambiguous? <==>
                    exists p, q :: p != q && MostSpecific(p, list) && MostSpecific(q, list))
              && (FindMatchingPolicy(list).Ambiguous? ==>
                    forall p :: p in list ==> (p.name in FindMatchingPolicy(list).names <==> MostSpecific(p, list)))
  {
    WeighRejects(list);
    if ValidSelectors(list) {
      HighestAreMostSpecific(list);
      var items := Weigh(list).value;
      var top := Highest(items);
      if items == [] {
        forall p ensures !MostSpecific(p, list) { }
      } else {
        assert top[0] in top;
        JudgedBySelectors(top[0]);
        if |top| == 1 {
          forall q | MostSpecific(q, list) ensures q == top[0] {
            assert q in top;
          }
          assert SoleMostSpecific(top[0], list) by {
            forall q | q in list && AppliesTo(q) && q != top[0] ensures Weight(q) < Weight(top[0]) {
              if Weight(q) == Weight(top[0]) {
                assert MostSpecific(q, list);
              }
            }
          }
        } else {
          assert top[1] in top;
          assert top[0].name != top[1].name;
          AmbiguityNames(list, top);
        }
      }
    }
  }

  lemma AmbiguityNames(list: seq<Policy>, top: seq<Policy>)
    requires DistinctNames(list)
    requires forall p :: p in top <==> MostSpecific(p, list)
    ensures forall p :: p in list ==> (p.name in Names(top) <==> MostSpecific(p, list))
  {
    var names := Names(top);
    forall p | p in list ensures p.name in names <==> MostSpecific(p, list) {
      if MostSpecific(p, list) {
        assert p in top;
        var i :| 0 <= i < |top| && top[i] == p;
        assert names[i] == p.name;
      }
      if p.name in names {
        var i :| 0 <= i < |names| && names[i] == p.name;
        assert top[i] in top;
        SameName(list, p, top[i]);
      }
    }
  }

  lemma SameName(list: seq<Policy>, p: Policy, q: Policy)
    requires DistinctNames(list) && p in list && q in list && p.name == q.name
    ensures p == q
  {
    var i :| 0 <= i < |list| && list[i] == p;
    var j :| 0 <= j < |list| && list[j] == q;
    assert !(i < j) && !(j < i);
  }

  /** The order in which the API lists the policies does not matter. */
  lemma OrderIrrelevant(list: seq<Policy>, other: seq<Policy>)
    requires DistinctNames(list) && DistinctNames(other)
    requires forall p :: p in list <==> p in other
    ensures var a, b := FindMatchingPolicy(list), FindMatchingPolicy(other);
            || a == b
            || (a.Ambiguous? && b.Ambiguous? && forall p :: p in list ==> (p.name in a.names <==> p.name in b.names))
  {
    FindsUniqueMostSpecific(list);
    FindsUniqueMostSpecific(other);
    assert ValidSelectors(list) <==> ValidSelectors(other);
    forall p ensures MostSpecific(p, list) <==> MostSpecific(p, other) { }
    forall p ensures SoleMostSpecific(p, list) <==> SoleMostSpecific(p, other) { }
    if FindMatchingPolicy(list).Governing? {
      var p :| SoleMostSpecific(p, list);
      assert SoleMostSpecific(p, other);
    }
    if FindMatchingPolicy(other).Governing? {
      var p :| SoleMostSpecific(p, other);
      assert SoleMostSpecific(p, list);
    }
  }

  /** Whatever the names, every weighed policy has a constraint, and weights are not negative. */
  predicate Weighed(items: seq<Item>) {
    forall i :: 0 <= i < |items| ==> items[i].policy.checkov.Some? && items[i].weight >= 0
  }

  lemma {:induction false} AddKeepsWeighed(items: seq<Item>, p: Policy, w: int)
    requires Weighed(items) && p.checkov.Some? && w >= 0
    ensures Weighed(AddItem(items, p, w))
  {
    if items != [] {
      AddKeepsWeighed(items[1..], p, w);
    }
  }

  lemma {:induction false} WeighedAreGoverned(list: seq<Policy>)
    ensures Weigh(list).Some? ==> Weighed(Weigh(list).value)
  {
    if list != [] {
      var n := |list| - 1;
      WeighedAreGoverned(list[..n]);
      if Weigh(list[..n]).Some? && AppliesTo(list[n]) {
        JudgedBySelectors(list[n]);
        AddKeepsWeighed(Weigh(list[..n]).value, list[n], Weight(list[n]));
      }
    }
  }

  lemma {:induction false} OfWeightFrom(items: seq<Item>, w: int)
    requires Weighed(items)
    ensures forall k :: 0 <= k < |OfWeight(items, w)| ==> OfWeight(items, w)[k].checkov.Some?
    ensures (exists i :: 0 <= i < |items| && items[i].weight == w) ==> OfWeight(items, w) != []
  {
    if items != [] {
      var n := |items| - 1;
      OfWeightFrom(items[..n], w);
      if i :| 0 <= i < n && items[i].weight == w {
        assert items[..n][i].weight == w;
      }
    }
  }

  lemma HighestNonEmpty(items: seq<Item>)
    requires Weighed(items) && items != []
    ensures Highest(items) != [] && Highest(items)[0].checkov.Some?
  {
    forall x | x in items ensures x.weight >= 0 {
      var i :| 0 <= i < |items| && items[i] == x;
    }
    MaxWeightBounds(items);
    OfWeightFrom(items, MaxWeight(items));
  }

  // ---- the source's own form

  class Weights {
    var items: seq<Item>

    constructor ()
      ensures items == []
    {
      items := [];
    }

    method Add(p: Policy, w: int)
      modifies this
      ensures items == AddItem(old(items), p, w)
    {
      for i := 0 to |items|
        invariant items == old(items)
        invariant forall k :: 0 <= k < i ==> items[k].policy.name != p.name
      {
        if items[i].policy.name == p.name {
          AddAt(items, p, w, i);
          items := items[i := items[i].(weight := items[i].weight + w)];
          return;
        }
      }
      AddFresh(items, p, w);
      items := items + [Item(w, p)];
    }

    method Max() returns (weight: int)
      ensures weight == MaxWeight(items)
    {
      weight := 0;
      for i := 0 to |items|
        invariant weight == MaxWeight(items[..i])
      {
        assert items[..i + 1][..i] == items[..i];
        if items[i].weight > weight {
          weight := items[i].weight;
        }
      }
      assert items[..|items|] == items;
    }

    method HighestOnes() returns (list: seq<Policy>)
      ensures list == Highest(items)
    {
      list := [];
      var max := Max();
      for i := 0 to |items|
        invariant list == OfWeight(items[..i], max)
      {
        assert items[..i + 1][..i] == items[..i];
        if items[i].weight == max {
          list := list + [items[i].policy];
        }
      }
      assert items[..|items|] == items;
    }
  }

  /** The search itself; it never indexes an empty list of matches. */
  method Find(list: seq<Policy>) returns (r: Match)
    ensures r == FindMatchingPolicy(list)
  {
    if |list| == 0 {
      return NoPolicy;
    }
    var priority := new Weights();
    for i := 0 to |list|
      invariant Weigh(list[..i]) == Some(priority.items)
      invariant fresh(priority)
    {
      assert list[..i + 1][..i] == list[..i];
      match Judge(list[i]) {
        case Invalid =>
          WeighRejects(list);
          assert list[i] in list;
          return BadSelector;
        case Skipped =>
        case Weighted(w) => priority.Add(list[i], w);
      }
    }
    assert list[..|list|] == list;
    if |priority.items| == 0 {
      return NoPolicy;
    }
    WeighedAreGoverned(list);
    HighestNonEmpty(priority.items);
    var matches := priority.HighestOnes();
    if |matches| > 1 {
      return Ambiguous(Names(matches));
    }
    r := Governing(matches[0].checkov.value.constraint);
  }
}
