/** Label maps and their merging (pkg/utils/maps.go). */
module Labels {
  /** The label keys the controller itself writes, and every other key. */
  datatype Key =
    | GenerationKey
    | NameKey
    | NamespaceKey
    | StageKey
    | UidKey
    | DriftKey
    | RetryKey
    | TemplateHashKey
    | PlanIdKey
    | OtherKey(text: string)

  type LabelMap = map<Key, string>

  /** Reading an absent key of a Go map gives the empty string. */
  function Get(m: LabelMap, k: Key): (v: string) {
    if k in m then m[k] else ""
  }

  predicate Blank(k: Key, v: string) {
    k == OtherKey("") && v == ""
  }

  function Clean(m: LabelMap): (r: LabelMap) {
    map k | k in m && !Blank(k, m[k]) :: m[k]
  }

  /** Later maps win; a pair of two empty strings is skipped. */
  function Merge(list: seq<LabelMap>): (r: LabelMap) {
    if list == [] then map[]
    else Merge(list[..|list| - 1]) + Clean(list[|list| - 1])
  }

  /**
   The meaning of a merge, key by key: the value is the one of the last map that binds the key
   (other than as a blank pair), and a key bound by no map is not bound.
   */
  lemma {:induction false} MergeIsLastWriter(list: seq<LabelMap>, k: Key)
    ensures k in Merge(list) <==> exists i :: 0 <= i < |list| && k in Clean(list[i])
    ensures forall i :: 0 <= i < |list| && k in Clean(list[i])
              && (forall j :: i < j < |list| ==> k !in Clean(list[j]))
              ==> k in Merge(list) && Merge(list)[k] == list[i][k]
  {
    if list != [] {
      var n := |list| - 1;
      var init := list[..n];
      MergeIsLastWriter(init, k);
      assert forall i :: 0 <= i < n ==> init[i] == list[i];
      if k in Clean(list[n]) {
      } else {
        assert forall i :: 0 <= i < |list| && k in Clean(list[i]) ==> i < n && k in Clean(init[i]);
      }
    }
  }

  lemma MergePair(a: LabelMap, b: LabelMap)
    ensures Merge([a, b]) == Clean(a) + Clean(b)
  {
    assert [a, b][..1] == [a];
    assert [a][..0] == [];
    assert Merge([a]) == Clean(a);
  }

  function CleanOf(m: LabelMap, keys: set<Key>): (r: LabelMap) {
    map k | k in m && k in keys && !Blank(k, m[k]) :: m[k]
  }

  /** The inner loop ranges over a Go map, in any order. */
  method Overlay(base: LabelMap, layer: LabelMap) returns (m: LabelMap)
    ensures m == base + Clean(layer)
  {
    m := base;
    var rest := layer.Keys;
    while rest != {}
      invariant rest <= layer.Keys
      invariant m == base + CleanOf(layer, layer.Keys - rest)
    {
      var k :| k in rest;
      CleanMore(layer, layer.Keys - rest, k);
      assert layer.Keys - (rest - {k}) == layer.Keys - rest + {k};
      if !Blank(k, layer[k]) {
        m := m[k := layer[k]];
      }
      rest := rest - {k};
    }
    assert CleanOf(layer, layer.Keys) == Clean(layer);
    assert layer.Keys - {} == layer.Keys;
  }

  lemma CleanMore(m: LabelMap, keys: set<Key>, k: Key)
    requires k in m
    ensures CleanOf(m, keys + {k}) == if Blank(k, m[k]) then CleanOf(m, keys) else CleanOf(m, keys)[k := m[k]]
  {
  }

  method MergeStringMaps(list: seq<LabelMap>) returns (m: LabelMap)
    ensures m == Merge(list)
  {
    m := map[];
    for i := 0 to |list|
      invariant m == Merge(list[..i])
    {
      m := Overlay(m, list[i]);
      assert list[..i + 1][..i] == list[..i];
    }
    assert list[..|list|] == list;
  }
}
