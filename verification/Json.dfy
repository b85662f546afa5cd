/**
 JSON values, the merge patch the admission webhook's library computes
 (vendor/github.com/evanphx/json-patch/merge.go), and the one of section 2 of RFC 7396.
 */
module Json {
  import opened Base

  datatype Value =
    | Null
    | Bool(flag: bool)
    | Number(number: int)
    | Text(text: string)
    | Array(items: seq<Value>)
    | Object(members: map<string, Value>)

  function Members(v: Value): (m: map<string, Value>) {
    if v.Object? then v.members else map[]
  }

  /** Null members of objects go, at any depth and inside arrays too; null elements of arrays stay. */
  function Prune(v: Value): (r: Value)
    ensures r.Object? == v.Object? && r.Null? == v.Null?
  {
    match v
    case Object(m) => Object(map k | k in m && !m[k].Null? :: Prune(m[k]))
    case Array(items) => Array(seq(|items|, i requires 0 <= i < |items| => Prune(items[i])))
    case _ => v
  }

  /**
   The library's merge.  Where the target is no object the patch replaces it, pruned; where only
   the patch is none, it replaces the target as it is.
   */
  function MergePatch(target: Value, patch: Value): (r: Value)
    decreases patch
  {
    if !target.Object? then Prune(patch)
    else if !patch.Object? then patch
    else
      var base := target.members;
      Object(map k | k in base.Keys + patch.members.Keys && !(k in patch.members && patch.members[k].Null?) ::
               if k in patch.members
               then MergePatch(if k in base then base[k] else Null, patch.members[k])
               else base[k])
  }

  /** The merge of RFC 7396, which never looks into arrays. */
  function Standard(target: Value, patch: Value): (r: Value)
    decreases patch
  {
    if patch.Object? then
      var base := Members(target);
      Object(map k | k in base.Keys + patch.members.Keys && !(k in patch.members && patch.members[k].Null?) ::
               if k in patch.members
               then Standard(if k in base then base[k] else Null, patch.members[k])
               else base[k])
    else patch
  }

  /** No object in it, inside arrays or not, has a null member. */
  predicate NullFree(v: Value) {
    match v
    case Null => false
    case Object(m) => forall k :: k in m ==> NullFree(m[k])
    case Array(items) => forall i :: 0 <= i < |items| ==> items[i].Null? || NullFree(items[i])
    case _ => true
  }

  /** The same, but only of objects inside arrays. */
  predicate CleanArrays(v: Value) {
    match v
    case Object(m) => forall k :: k in m ==> CleanArrays(m[k])
    case Array(_) => NullFree(v)
    case _ => true
  }

  /** What pruning leaves as it is. */
  lemma {:induction false} PruneKeeps(v: Value)
    requires !v.Null?
    ensures Prune(v) == v <==> NullFree(v)
    decreases v
  {
    match v
    case Object(m) =>
      var r := Prune(v);
      forall k | k in m && !m[k].Null? ensures Prune(m[k]) == m[k] <==> NullFree(m[k]) { PruneKeeps(m[k]); }
      if NullFree(v) {
        forall k | k in m ensures k in r.members && r.members[k] == m[k] { assert NullFree(m[k]); }
        assert r.members == m;
      } else {
        var k :| k in m && !NullFree(m[k]);
        assert m[k].Null? ==> k !in r.members;
        assert !m[k].Null? ==> r.members[k] != m[k];
      }
    case Array(items) =>
      var r := Prune(v);
      forall i | 0 <= i < |items| && !items[i].Null? ensures Prune(items[i]) == items[i] <==> NullFree(items[i]) {
        PruneKeeps(items[i]);
      }
      if NullFree(v) {
        assert r.items == items;
      } else {
        var i :| 0 <= i < |items| && !items[i].Null? && !NullFree(items[i]);
        assert r.items[i] != items[i];
      }
    case _ =>
  }

  lemma {:induction false} NullFreeIsClean(v: Value)
    requires NullFree(v)
    ensures CleanArrays(v)
    decreases v
  {
    if v.Object? {
      forall k | k in v.members ensures CleanArrays(v.members[k]) { NullFreeIsClean(v.members[k]); }
    }
  }

  // ---- one member of a document under a list of patches

  /** What a patch says about one member. */
  datatype Edit = Keep | Put(value: Value)

  function EditOf(patch: Value, k: string): (e: Edit) {
    if k in Members(patch) then Put(Members(patch)[k]) else Keep
  }

  function EditsOf(patches: seq<Value>, k: string): (r: seq<Edit>) {
    seq(|patches|, i requires 0 <= i < |patches| => EditOf(patches[i], k))
  }

  function Lookup(v: Value, k: string): (r: Option<Value>) {
    if k in Members(v) then Some(Members(v)[k]) else None
  }

  function EditCell(cell: Option<Value>, e: Edit): (r: Option<Value>) {
    match e
    case Keep => cell
    case Put(v) =>
      if v.Null? then None
      else Some(MergePatch(if cell.Some? then cell.value else Null, v))
  }

  function EditAll(cell: Option<Value>, edits: seq<Edit>): (r: Option<Value>) {
    if edits == [] then cell
    else EditCell(EditAll(cell, edits[..|edits| - 1]), edits[|edits| - 1])
  }

  function MergeAll(target: Value, patches: seq<Value>): (r: Value) {
    if patches == [] then target
    else MergePatch(MergeAll(target, patches[..|patches| - 1]), patches[|patches| - 1])
  }

  // ---- nesting depth, the measure of the main induction

  ghost function Depth(v: Value): (d: nat)
    decreases v, 2
  {
    if v.Object? then 1 + DepthOver(v, v.members.Keys) else 0
  }

  ghost function DepthOver(v: Value, keys: set<string>): (d: nat)
    requires v.Object? && keys <= v.members.Keys
    ensures forall k :: k in keys ==> Depth(v.members[k]) <= d
    decreases v, 1, |keys|
  {
    if keys == {} then 0
    else
      var k :| k in keys;
      var d, rest := Depth(v.members[k]), DepthOver(v, keys - {k});
      if d > rest then d else rest
  }

  lemma DepthOfMember(v: Value, k: string)
    requires v.Object? && k in v.members
    ensures Depth(v.members[k]) < Depth(v)
  {
  }

  ghost predicate Shallow(edits: seq<Edit>, d: nat) {
    forall i :: 0 <= i < |edits| && edits[i].Put? ==> Depth(edits[i].value) <= d && CleanArrays(edits[i].value)
  }

  // ---- what a fold of patches does member by member

  lemma MergePatchMember(target: Value, patch: Value, k: string)
    requires patch.Object?
    ensures MergePatch(target, patch).Object?
    ensures Lookup(MergePatch(target, patch), k) == EditCell(Lookup(target, k), EditOf(patch, k))
  {
  }

  lemma {:induction false} MergeAllMember(target: Value, patches: seq<Value>, k: string)
    requires forall i :: 0 <= i < |patches| ==> patches[i].Object?
    ensures Lookup(MergeAll(target, patches), k) == EditAll(Lookup(target, k), EditsOf(patches, k))
    ensures patches != [] ==> MergeAll(target, patches).Object?
  {
    if patches != [] {
      var n := |patches| - 1;
      var init := patches[..n];
      MergeAllMember(target, init, k);
      assert EditsOf(patches, k)[..n] == EditsOf(init, k);
      MergePatchMember(MergeAll(target, init), patches[n], k);
    }
  }

  lemma ObjectsEqual(a: Value, b: Value)
    requires a.Object? && b.Object?
    requires forall k :: Lookup(a, k) == Lookup(b, k)
    ensures a == b
  {
    forall k ensures k in a.members <==> k in b.members {
      assert Lookup(a, k) == Lookup(b, k);
    }
    forall k | k in a.members ensures a.members[k] == b.members[k] {
      assert Lookup(a, k) == Lookup(b, k);
    }
    assert a.members == b.members;
  }

  /** An edit that is neither an object nor an array with nulls inside wipes out whatever was there. */
  lemma {:induction false} StartIrrelevant(a: Option<Value>, b: Option<Value>, edits: seq<Edit>, i: nat)
    requires i < |edits| && edits[i].Put? && !edits[i].value.Object? && CleanArrays(edits[i].value)
    ensures EditAll(a, edits) == EditAll(b, edits)
  {
    var n := |edits| - 1;
    if i < n {
      StartIrrelevant(a, b, edits[..n], i);
    } else if !edits[i].value.Null? {
      CleanPrune(edits[i].value);
    }
  }

  lemma CleanPrune(v: Value)
    requires CleanArrays(v) && !v.Object?
    ensures Prune(v) == v
  {
    if v.Array? {
      PruneKeeps(v);
    }
  }

  /** A list of edits, each an object or nothing, acts as the merge of the objects among them. */
  function Puts(edits: seq<Edit>): (r: seq<Value>) {
    if edits == [] then []
    else
      var init := Puts(edits[..|edits| - 1]);
      var e := edits[|edits| - 1];
      if e.Put? then init + [e.value] else init
  }

  lemma {:induction false} PutsAreEdits(edits: seq<Edit>)
    ensures forall p :: p in Puts(edits) <==> Put(p) in edits
  {
    if edits != [] {
      var n := |edits| - 1;
      PutsAreEdits(edits[..n]);
      assert edits == edits[..n] + [edits[n]];
    }
  }

  function Content(cell: Option<Value>): (v: Value) {
    if cell.Some? then cell.value else Null
  }

  lemma {:induction false} EditAllIsMergeAll(cell: Option<Value>, edits: seq<Edit>)
    requires forall i :: 0 <= i < |edits| && edits[i].Put? ==> edits[i].value.Object?
    ensures Puts(edits) == [] ==> EditAll(cell, edits) == cell
    ensures Puts(edits) != [] ==> EditAll(cell, edits) == Some(MergeAll(Content(cell), Puts(edits)))
  {
    if edits != [] {
      var n := |edits| - 1;
      var init := edits[..n];
      EditAllIsMergeAll(cell, init);
      if edits[n].Put? {
        var ps := Puts(edits);
        assert ps[..|ps| - 1] == Puts(init);
        if Puts(init) == [] {
          assert MergeAll(Content(cell), Puts(init)) == Content(cell);
        }
      }
    }
  }

  /** Repeating a list of edits on what it produced changes nothing: by induction on depth. */
  lemma {:induction false} EditAllIdempotent(cell: Option<Value>, edits: seq<Edit>, d: nat)
    requires Shallow(edits, d)
    ensures EditAll(EditAll(cell, edits), edits) == EditAll(cell, edits)
    decreases d, 1
  {
    if i :| 0 <= i < |edits| && edits[i].Put? && !edits[i].value.Object? {
      StartIrrelevant(EditAll(cell, edits), cell, edits, i);
    } else {
      var ps := Puts(edits);
      PutsAreEdits(edits);
      forall i | 0 <= i < |ps| ensures ps[i].Object? && Depth(ps[i]) <= d && CleanArrays(ps[i]) {
        assert ps[i] in ps;
      }
      EditAllIsMergeAll(cell, edits);
      EditAllIsMergeAll(EditAll(cell, edits), edits);
      if ps != [] {
        MergeAllIdempotent(Content(cell), ps, d);
      }
    }
  }

  /**
   Folding a list of merge patches twice equals folding it once, for every target and every list
   of patches, whatever their nesting and whether or not they hold nulls outside arrays.
   */
  lemma {:induction false} MergeAllIdempotent(target: Value, patches: seq<Value>, d: nat)
    requires forall i :: 0 <= i < |patches| ==> patches[i].Object? && Depth(patches[i]) <= d && CleanArrays(patches[i])
    ensures MergeAll(MergeAll(target, patches), patches) == MergeAll(target, patches)
    decreases d, 0
  {
    if patches != [] {
      var once := MergeAll(target, patches);
      var twice := MergeAll(once, patches);
      MergeAllMember(target, patches, "");
      MergeAllMember(once, patches, "");
      forall k ensures Lookup(twice, k) == Lookup(once, k) {
        var edits := EditsOf(patches, k);
        MergeAllMember(target, patches, k);
        MergeAllMember(once, patches, k);
        assert 1 <= Depth(patches[0]) <= d;
        forall i | 0 <= i < |edits| && edits[i].Put? ensures Depth(edits[i].value) <= d - 1 && CleanArrays(edits[i].value) {
          DepthOfMember(patches[i], k);
        }
        EditAllIdempotent(Lookup(target, k), edits, d - 1);
      }
      ObjectsEqual(twice, once);
    }
  }

  // ---- null-free patches

  lemma MergeIntoEmpty(target: Value, p: Value)
    requires NullFree(p) && p.Object? && Members(target) == map[]
    ensures MergePatch(target, p) == p
  {
    PruneKeeps(p);
    if target.Object? {
      var r := MergePatch(target, p);
      forall k | k in p.members ensures k in r.members && r.members[k] == p.members[k] {
        assert NullFree(p.members[k]);
        PruneKeeps(p.members[k]);
        assert MergePatch(Null, p.members[k]) == Prune(p.members[k]);
      }
      assert r.members == p.members;
    }
  }

  /** Merging a patch into itself prunes it. */
  lemma {:induction false} MergeIntoItself(p: Value)
    requires !p.Null?
    ensures MergePatch(p, p) == Prune(p)
    decreases p
  {
    if p.Object? {
      var r := MergePatch(p, p);
      forall k | k in p.members && !p.members[k].Null?
        ensures k in r.members && r.members[k] == Prune(p.members[k])
      {
        MergeIntoItself(p.members[k]);
      }
      assert r.members == Prune(p).members;
    }
  }

  lemma {:induction false} MergeIntoPruned(p: Value)
    requires !p.Null?
    ensures MergePatch(Prune(p), p) == Prune(p)
    decreases p
  {
    if p.Object? {
      var q := Prune(p);
      var r := MergePatch(q, p);
      forall k | k in p.members && !p.members[k].Null?
        ensures k in r.members && r.members[k] == q.members[k]
      {
        MergeIntoPruned(p.members[k]);
      }
      assert r.members == q.members;
    }
  }

  // ---- one patch twice, exactly

  /** Somewhere the patch puts an array with nulls inside where the target has an object. */
  predicate Clash(target: Value, patch: Value)
    decreases patch
  {
    && target.Object?
    && (if patch.Object? then
          exists k :: k in patch.members && k in target.members && !patch.members[k].Null? && Clash(target.members[k], patch.members[k])
        else !patch.Null? && !NullFree(patch))
  }

  /** Merging a patch a second time changes nothing exactly when it does not clash with the target. */
  lemma {:induction false} MergeTwice(target: Value, patch: Value)
    requires !patch.Null?
    ensures MergePatch(MergePatch(target, patch), patch) == MergePatch(target, patch) <==> !Clash(target, patch)
    decreases patch
  {
    var once := MergePatch(target, patch);
    if !target.Object? {
      MergeIntoPruned(patch);
    } else if !patch.Object? {
      PruneKeeps(patch);
    } else {
      var twice := MergePatch(once, patch);
      forall k | k in patch.members && !patch.members[k].Null?
        ensures k in once.members && k in twice.members
        ensures twice.members[k] == once.members[k] <==> !(k in target.members && Clash(target.members[k], patch.members[k]))
      {
        assert twice.members[k] == MergePatch(once.members[k], patch.members[k]);
        if k in target.members {
          MergeTwice(target.members[k], patch.members[k]);
          assert once.members[k] == MergePatch(target.members[k], patch.members[k]);
        } else {
          MergeIntoPruned(patch.members[k]);
          assert once.members[k] == MergePatch(Null, patch.members[k]) == Prune(patch.members[k]);
        }
      }
      if Clash(target, patch) {
        var k :| k in patch.members && k in target.members && !patch.members[k].Null? && Clash(target.members[k], patch.members[k]);
        assert twice.members[k] != once.members[k];
      } else {
        assert twice.members == once.members;
      }
    }
  }

  // ---- the library and the standard

  lemma {:induction false} PruneIsStandard(p: Value)
    requires CleanArrays(p) && !p.Null?
    ensures Prune(p) == Standard(Null, p)
    decreases p
  {
    if p.Object? {
      forall k | k in p.members && !p.members[k].Null? ensures Prune(p.members[k]) == Standard(Null, p.members[k]) {
        PruneIsStandard(p.members[k]);
      }
      assert Prune(p).members == Standard(Null, p).members;
    } else {
      CleanPrune(p);
    }
  }

  lemma NonObjectTarget(t: Value, p: Value)
    requires !t.Object?
    ensures Standard(t, p) == Standard(Null, p)
  {
  }

  /** The library follows RFC 7396 for every target exactly when no array of the patch has nulls inside. */
  lemma {:induction false} FollowsStandard(target: Value, p: Value)
    requires !p.Null?
    ensures CleanArrays(p) ==> MergePatch(target, p) == Standard(target, p)
    ensures !CleanArrays(p) ==> MergePatch(Null, p) != Standard(Null, p)
    decreases p
  {
    if CleanArrays(p) {
      if !target.Object? {
        NonObjectTarget(target, p);
        PruneIsStandard(p);
      } else if p.Object? {
        forall k | k in p.members && !p.members[k].Null?
          ensures var t := if k in target.members then target.members[k] else Null;
                  MergePatch(t, p.members[k]) == Standard(t, p.members[k])
        {
          FollowsStandard(if k in target.members then target.members[k] else Null, p.members[k]);
        }
        assert MergePatch(target, p).members == Standard(target, p).members;
      }
    } else if p.Object? {
      var k :| k in p.members && !CleanArrays(p.members[k]);
      FollowsStandard(Null, p.members[k]);
      assert MergePatch(Null, p).members[k] != Standard(Null, p).members[k];
    } else {
      PruneKeeps(p);
    }
  }
}
