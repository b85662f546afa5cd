/**
 Cloud resources: what admission promises about their inputs (pkg/handlers/revisions,
 pkg/handlers/cloudresources), how a resource and its revision become a Configuration
 (pkg/controller/cloudresource/ensure.go), and which value reaches terraform in the end.
 */
module CloudResources {
  import opened Base
  import Json
  import ValueFrom

  /** The default of an input: none, an empty or undecodable document, or one that may hold "value". */
  datatype Default = Undefined | Blank | Undecodable | Holding(value: Option<Json.Value>)

  datatype Input = Input(key: string, description: string, required: Option<bool>, default_: Default)

  datatype Revision = Revision(
    inputs: seq<Input>,
    variables: map<string, Json.Value>,
    valueFrom: seq<ValueFrom.Entry>
  )

  datatype CloudResource = CloudResource(
    variables: Option<map<string, Json.Value>>,
    valueFrom: seq<ValueFrom.Entry>
  )

  predicate IsRequired(i: Input) {
    i.required == Some(true)
  }

  // ---- admission of revisions: the shape of their inputs

  predicate InputOk(i: Input) {
    i.description != "" && i.key != "" && (i.default_.Undefined? || (i.default_.Holding? && i.default_.value.Some?))
  }

  predicate RevisionAdmitted(r: Revision) {
    forall i :: 0 <= i < |r.inputs| ==> InputOk(r.inputs[i])
  }

  method ValidateRevision(r: Revision) returns (ok: bool)
    ensures ok == RevisionAdmitted(r)
  {
    for i := 0 to |r.inputs|
      invariant forall k :: 0 <= k < i ==> InputOk(r.inputs[k])
    {
      var x := r.inputs[i];
      if x.description == "" { return false; }
      if x.key == "" { return false; }
      if !x.default_.Undefined? {
        if !(x.default_.Holding? && x.default_.value.Some?) { return false; }
      }
    }
    ok := true;
  }

  // ---- admission of cloud resources

  function Given(c: CloudResource): (m: map<string, Json.Value>) {
    if c.variables.Some? then c.variables.value else map[]
  }

  predicate Permitted(r: Revision, key: string) {
    exists i :: 0 <= i < |r.inputs| && r.inputs[i].key == key
  }

  predicate Names(entries: seq<ValueFrom.Entry>, key: string) {
    exists i :: 0 <= i < |entries| && entries[i].name == key
  }

  predicate Supplied(c: CloudResource, key: string) {
    key in Given(c) || Names(c.valueFrom, key)
  }

  predicate ResourceAdmitted(r: Revision, c: CloudResource) {
    && (forall k :: k in Given(c) ==> Permitted(r, k))
    && (forall i :: 0 <= i < |c.valueFrom| ==> Permitted(r, c.valueFrom[i].name))
    && (forall i :: 0 <= i < |r.inputs| && IsRequired(r.inputs[i]) && r.inputs[i].default_.Undefined? ==>
          Supplied(c, r.inputs[i].key))
  }

  method IsPermitted(r: Revision, key: string) returns (found: bool)
    ensures found == Permitted(r, key)
  {
    for i := 0 to |r.inputs|
      invariant forall k :: 0 <= k < i ==> r.inputs[k].key != key
    {
      if r.inputs[i].key == key { return true; }
    }
    found := false;
  }

  /** The checks in the order of the source, with its loops and found flags. */
  method ValidateResource(r: Revision, c: CloudResource) returns (ok: bool)
    ensures ok == ResourceAdmitted(r, c)
  {
    var values := if c.variables.Some? then c.variables.value else map[];
    var keys := values.Keys;
    while keys != {}
      invariant keys <= values.Keys
      invariant forall k :: k in values && k !in keys ==> Permitted(r, k)
    {
      var key :| key in keys;
      var permitted := IsPermitted(r, key);
      if !permitted { return false; }
      keys := keys - {key};
    }
    for i := 0 to |c.valueFrom|
      invariant forall k :: 0 <= k < i ==> Permitted(r, c.valueFrom[k].name)
    {
      var permitted := IsPermitted(r, c.valueFrom[i].name);
      if !permitted { return false; }
    }
    for i := 0 to |r.inputs|
      invariant forall k :: 0 <= k < i && IsRequired(r.inputs[k]) && r.inputs[k].default_.Undefined? ==>
                  Supplied(c, r.inputs[k].key)
    {
      var input := r.inputs[i];
      if input.required == Some(true) && input.default_.Undefined? {
        var found := input.key in values;
        for k := 0 to |c.valueFrom|
          invariant found <==> input.key in values || exists m :: 0 <= m < k && c.valueFrom[m].name == input.key
        {
          if c.valueFrom[k].name == input.key {
            found := true;
          }
        }
        if !found { return false; }
      }
    }
    ok := true;
  }

  // ---- the Configuration built from both

  datatype Built = Built(variables: map<string, Json.Value>, valueFrom: seq<ValueFrom.Entry>)

  /** Input defaults in order; an input without a document is skipped, "value" may be absent (null). */
  function DefaultOf(i: Input): (v: Option<Json.Value>) {
    if i.default_.Holding? then Some(if i.default_.value.Some? then i.default_.value.value else Json.Null) else None
  }

  function Overlay(base: map<string, Json.Value>, inputs: seq<Input>): (m: map<string, Json.Value>) {
    if inputs == [] then base
    else
      var n := |inputs| - 1;
      var m := Overlay(base, inputs[..n]);
      if DefaultOf(inputs[n]).Some? then m[inputs[n].key := DefaultOf(inputs[n]).value] else m
  }

  predicate Decodable(r: Revision) {
    forall i :: 0 <= i < |r.inputs| ==> !r.inputs[i].default_.Undecodable?
  }

  /** None when an input default does not decode: the reconcile is abandoned. */
  function Build(r: Revision, c: CloudResource): (b: Option<Built>) {
    if Decodable(r) then Some(Built(Overlay(r.variables, r.inputs) + Given(c), r.valueFrom + c.valueFrom)) else None
  }

  method BuildConfiguration(r: Revision, c: CloudResource) returns (b: Option<Built>)
    ensures b == Build(r, c)
  {
    var variables := r.variables;
    for i := 0 to |r.inputs|
      invariant variables == Overlay(r.variables, r.inputs[..i])
      invariant forall k :: 0 <= k < i ==> !r.inputs[k].default_.Undecodable?
    {
      assert r.inputs[..i + 1][..i] == r.inputs[..i];
      var input := r.inputs[i];
      match input.default_ {
        case Undecodable => return None;
        case Holding(v) => variables := variables[input.key := if v.Some? then v.value else Json.Null];
        case _ =>
      }
    }
    assert r.inputs[..|r.inputs|] == r.inputs;
    var given := Given(c);
    ghost var base := variables;
    var rest := given.Keys;
    ghost var done: set<string> := {};
    while rest != {}
      invariant rest + done == given.Keys && rest !! done
      invariant variables == base + map k | k in done :: given[k]
    {
      var k :| k in rest;
      variables := variables[k := given[k]];
      rest, done := rest - {k}, done + {k};
    }
    assert (map k | k in given.Keys :: given[k]) == given;
    b := Some(Built(variables, r.valueFrom + c.valueFrom));
  }

  // ---- input completeness

  predicate BoundBy(b: Built, key: string) {
    key in b.variables || exists i :: 0 <= i < |b.valueFrom| && ValueFrom.GetName(b.valueFrom[i]) == key
  }

  lemma {:induction false} OverlayKeys(base: map<string, Json.Value>, inputs: seq<Input>)
    ensures forall k :: k in Overlay(base, inputs) <==>
              k in base || exists i :: 0 <= i < |inputs| && inputs[i].key == k && DefaultOf(inputs[i]).Some?
  {
    if inputs != [] {
      var n := |inputs| - 1;
      var init := inputs[..n];
      OverlayKeys(base, init);
      forall k ensures k in Overlay(base, inputs) <==>
              k in base || exists i :: 0 <= i < |inputs| && inputs[i].key == k && DefaultOf(inputs[i]).Some?
      {
        if i :| 0 <= i < n && init[i].key == k && DefaultOf(init[i]).Some? {
          assert inputs[i].key == k;
        } else {
          assert forall i :: 0 <= i < n && inputs[i].key == k ==> init[i].key == k;
        }
      }
    }
  }

  lemma PermittedIsKeyed(r: Revision, c: CloudResource, i: nat)
    requires RevisionAdmitted(r) && ResourceAdmitted(r, c) && i < |c.valueFrom|
    ensures ValueFrom.GetName(c.valueFrom[i]) == c.valueFrom[i].name
  {
    assert Permitted(r, c.valueFrom[i].name);
    var k :| 0 <= k < |r.inputs| && r.inputs[k].key == c.valueFrom[i].name;
    assert InputOk(r.inputs[k]);
  }

  /**
   Input completeness.  For an admitted revision and a cloud resource admitted against it, the
   build succeeds, every required input is bound by a variable or a valueFrom entry of the
   Configuration, and nothing is bound but the revision's own variables and valueFrom entries and
   its inputs.
   */
  lemma InputsComplete(r: Revision, c: CloudResource)
    requires RevisionAdmitted(r) && ResourceAdmitted(r, c)
    ensures Build(r, c).Some?
    ensures var b := Build(r, c).value;
            && (forall i :: 0 <= i < |r.inputs| && IsRequired(r.inputs[i]) ==> BoundBy(b, r.inputs[i].key))
            && (forall k :: k in b.variables ==> k in r.variables || Permitted(r, k))
            && (forall i :: 0 <= i < |b.valueFrom| ==>
                  b.valueFrom[i] in r.valueFrom || Permitted(r, ValueFrom.GetName(b.valueFrom[i])))
  {
    forall i | 0 <= i < |r.inputs| ensures !r.inputs[i].default_.Undecodable? {
      assert InputOk(r.inputs[i]);
    }
    var b := Build(r, c).value;
    OverlayKeys(r.variables, r.inputs);
    forall i | 0 <= i < |r.inputs| && IsRequired(r.inputs[i]) ensures BoundBy(b, r.inputs[i].key) {
      RequiredIsBound(r, c, b, i);
    }
    forall i | 0 <= i < |b.valueFrom|
      ensures b.valueFrom[i] in r.valueFrom || Permitted(r, ValueFrom.GetName(b.valueFrom[i]))
    {
      if i >= |r.valueFrom| {
        PermittedIsKeyed(r, c, i - |r.valueFrom|);
      }
    }
  }

  lemma RequiredIsBound(r: Revision, c: CloudResource, b: Built, i: nat)
    requires RevisionAdmitted(r) && ResourceAdmitted(r, c) && Build(r, c) == Some(b)
    requires i < |r.inputs| && IsRequired(r.inputs[i])
    ensures BoundBy(b, r.inputs[i].key)
  {
    var key := r.inputs[i].key;
    OverlayKeys(r.variables, r.inputs);
    assert InputOk(r.inputs[i]);
    if r.inputs[i].default_.Undefined? {
      assert Supplied(c, key);
      if key !in Given(c) {
        var k :| 0 <= k < |c.valueFrom| && c.valueFrom[k].name == key;
        PermittedIsKeyed(r, c, k);
        assert b.valueFrom[|r.valueFrom| + k] == c.valueFrom[k];
      }
    } else {
      assert DefaultOf(r.inputs[i]).Some?;
    }
  }
}
