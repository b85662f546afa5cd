/** Resolution of spec.valueFrom (pkg/controller/configuration/ensure.go, ensureValueFromSecret). */
module ValueFrom {
  import opened Base
  import Json

  datatype Source =
    | NoSource
    | BothSources
    | FromSecret(secret: string)
    | FromContext(context: string)

  datatype Entry = Entry(source: Source, key: string, name: string, optional: bool)

  /** What admission asks of an entry: one source, a name for a secret's value, a key for a context's. */
  predicate IsValid(e: Entry) {
    match e.source
    case NoSource => false
    case BothSources => false
    case FromSecret(_) => e.name != ""
    case FromContext(_) => e.key != ""
  }

  method ValidateAll(entries: seq<Entry>) returns (ok: bool)
    ensures ok <==> forall e :: e in entries ==> IsValid(e)
  {
    for i := 0 to |entries|
      invariant forall k :: 0 <= k < i ==> IsValid(entries[k])
    {
      var e := entries[i];
      var invalid := match e.source
        case NoSource => true
        case BothSources => true
        case FromSecret(_) => e.name == ""
        case FromContext(_) => e.key == "";
      if invalid {
        assert e in entries;
        return false;
      }
    }
    ok := true;
  }

  /** The variable an entry binds: its name, or its key where it has no name. */
  function GetName(e: Entry): (n: string) {
    if e.name == "" then e.key else e.name
  }

  /** A context variable: an empty document, one that does not decode, or one holding a value. */
  datatype ContextVariable = EmptyDocument | Undecodable | Holds(value: Json.Value)

  /** The secrets of the configuration's namespace (None: a secret with no data) and the contexts. */
  datatype Store = Store(
    secrets: map<string, Option<map<string, string>>>,
    contexts: map<string, map<string, ContextVariable>>
  )

  datatype Finding =
    | Exclusive                 // both sources given: the reconcile is abandoned
    | Unmet                     // something required is missing: wait
    | Broken                    // an API call or a decoding failed
    | Absent                    // optional and missing: skipped
    | Untyped                   // neither source given: reported, then skipped
    | Bound(value: Json.Value)

  function Missing(e: Entry): (f: Finding) {
    if e.optional then Absent else Unmet
  }

  function LookupSecret(e: Entry, name: string, store: Store): (f: Finding) {
    if name !in store.secrets then Missing(e)
    else match store.secrets[name]
      case None => Missing(e)
      case Some(data) =>
        var text := if e.key in data then data[e.key] else "";
        if text == "" && !e.optional then Unmet else Bound(Json.Text(text))
  }

  function LookupContext(e: Entry, name: string, store: Store): (f: Finding) {
    if name !in store.contexts || e.key !in store.contexts[name] then Missing(e)
    else match store.contexts[name][e.key]
      case EmptyDocument => Missing(e)
      case Undecodable => Broken
      case Holds(v) => Bound(v)
  }

  function Look(e: Entry, store: Store, broken: bool): (f: Finding) {
    match e.source
    case NoSource => Untyped
    case BothSources => Exclusive
    case FromSecret(s) => if broken then Broken else LookupSecret(e, s, store)
    case FromContext(c) => if broken then Broken else LookupContext(e, c, store)
  }

  predicate Stops(f: Finding) {
    f.Exclusive? || f.Unmet? || f.Broken?
  }

  /**
   The outcome of the loop: the values bound so far, the entries reported as having no type, and
   the finding that stopped it with its index, if any.
   */
  datatype Resolution = Resolution(
    values: map<string, Json.Value>,
    untyped: seq<nat>,
    stop: Option<(nat, Finding)>
  )

  function Resolve(entries: seq<Entry>, store: Store, broken: set<nat>): (r: Resolution) {
    if entries == [] then Resolution(map[], [], None)
    else
      var n := |entries| - 1;
      var r := Resolve(entries[..n], store, broken);
      if r.stop.Some? then r
      else
        var f := Look(entries[n], store, n in broken);
        if Stops(f) then r.(stop := Some((n, f)))
        else if f.Untyped? then r.(untyped := r.untyped + [n])
        else if f.Bound? then r.(values := r.values[GetName(entries[n]) := f.value])
        else r
  }

  // ---- what the store says of one entry

  /** The store holds this value for the entry: a text that is not empty, or a document that decodes. */
  predicate Supplies(store: Store, e: Entry, v: Json.Value) {
    match e.source
    case FromSecret(s) =>
      && s in store.secrets && store.secrets[s].Some? && e.key in store.secrets[s].value
      && store.secrets[s].value[e.key] != "" && v == Json.Text(store.secrets[s].value[e.key])
    case FromContext(c) => c in store.contexts && e.key in store.contexts[c] && store.contexts[c][e.key] == Holds(v)
    case _ => false
  }

  predicate HasData(store: Store, e: Entry) {
    e.source.FromSecret? && e.source.secret in store.secrets && store.secrets[e.source.secret].Some?
  }

  predicate Garbled(store: Store, e: Entry) {
    && e.source.FromContext? && e.source.context in store.contexts && e.key in store.contexts[e.source.context]
    && store.contexts[e.source.context][e.key].Undecodable?
  }

  predicate OneSource(e: Entry) {
    e.source.FromSecret? || e.source.FromContext?
  }

  /**
   One entry, by the store alone.  What the store holds for it is bound under its name, or its key
   where it has no name.  Where the store holds nothing, a required entry is unmet and an optional one
   is skipped -- except that of a secret that has data an optional key is bound to the empty text.
   */
  lemma EntryExact(e: Entry, store: Store)
    ensures var r := Resolve([e], store, {});
            && (e.source.NoSource? ==> r == Resolution(map[], [0], None))
            && (e.source.BothSources? ==> r == Resolution(map[], [], Some((0, Exclusive))))
            && (forall v :: Supplies(store, e, v) ==>
                  r == Resolution(map[if e.name != "" then e.name else e.key := v], [], None))
            && (Garbled(store, e) ==> r == Resolution(map[], [], Some((0, Broken))))
            && (OneSource(e) && !Garbled(store, e) && (forall v :: !Supplies(store, e, v)) ==>
                  r == if !e.optional then Resolution(map[], [], Some((0, Unmet)))
                       else if HasData(store, e) then Resolution(map[if e.name != "" then e.name else e.key := Json.Text("")], [], None)
                       else Resolution(map[], [], None))
    ensures OneSource(e) ==> Resolve([e], store, {0}) == Resolution(map[], [], Some((0, Broken)))
  {
    assert [e][..0] == [];
    assert Resolve([], store, {}) == Resolution(map[], [], None) && Resolve([], store, {0}) == Resolution(map[], [], None);
    if e.source.FromSecret? && HasData(store, e) && e.key in store.secrets[e.source.secret].value {
      var text := store.secrets[e.source.secret].value[e.key];
      assert text != "" ==> Supplies(store, e, Json.Text(text));
    }
    if e.source.FromContext? && e.source.context in store.contexts && e.key in store.contexts[e.source.context] {
      var d := store.contexts[e.source.context][e.key];
      assert d.Holds? ==> Supplies(store, e, d.value);
    }
  }

  /** An entry is reported as untyped exactly when it names no source. */
  lemma {:induction false} UntypedReported(entries: seq<Entry>, store: Store, broken: set<nat>)
    ensures var r := Resolve(entries, store, broken);
            r.stop.None? ==> (r.untyped == [] <==> forall e :: e in entries ==> !e.source.NoSource?)
  {
    if entries != [] {
      var n := |entries| - 1;
      UntypedReported(entries[..n], store, broken);
      assert entries == entries[..n] + [entries[n]];
    }
  }

  /** The value the last binding entry of a name gives it, if any entry binds it. */
  function LastBound(entries: seq<Entry>, store: Store, broken: set<nat>, k: string): (v: Option<Json.Value>) {
    if entries == [] then None
    else
      var n := |entries| - 1;
      var f := Look(entries[n], store, n in broken);
      if GetName(entries[n]) == k && f.Bound? then Some(f.value) else LastBound(entries[..n], store, broken, k)
  }

  predicate Binds(entries: seq<Entry>, store: Store, broken: set<nat>, i: nat, k: string)
    requires i < |entries|
  {
    GetName(entries[i]) == k && Look(entries[i], store, i in broken).Bound?
  }

  lemma {:induction false} LastBoundIsLast(entries: seq<Entry>, store: Store, broken: set<nat>, k: string) returns (i: nat)
    ensures var v := LastBound(entries, store, broken, k);
            && (v.None? ==> forall j :: 0 <= j < |entries| ==> !Binds(entries, store, broken, j, k))
            && (v.Some? ==> && i < |entries| && Binds(entries, store, broken, i, k)
                            && v.value == Look(entries[i], store, i in broken).value
                            && forall j :: i < j < |entries| ==> !Binds(entries, store, broken, j, k))
  {
    hide Look;
    i := 0;
    if entries != [] {
      var n := |entries| - 1;
      var init := entries[..n];
      i := LastBoundIsLast(init, store, broken, k);
      assert forall j :: 0 <= j < n ==> Binds(init, store, broken, j, k) == Binds(entries, store, broken, j, k);
      if Binds(entries, store, broken, n, k) {
        i := n;
      }
    }
  }

  /** Where the loop runs through, a variable has the value of the last entry that binds it. */
  lemma {:induction false} LastEntryWins(entries: seq<Entry>, store: Store, broken: set<nat>, k: string)
    requires Resolve(entries, store, broken).stop.None?
    ensures var m := Resolve(entries, store, broken).values;
            LastBound(entries, store, broken, k) == if k in m then Some(m[k]) else None
  {
    hide Look;
    if entries != [] {
      LastEntryWins(entries[..|entries| - 1], store, broken, k);
    }
  }

  /** The loop of the source. */
  method ResolveAll(entries: seq<Entry>, store: Store, broken: set<nat>) returns (r: Resolution)
    ensures r == Resolve(entries, store, broken)
  {
    r := Resolution(map[], [], None);
    for i := 0 to |entries|
      invariant r == Resolve(entries[..i], store, broken)
      invariant r.stop.None?
    {
      assert entries[..i + 1][..i] == entries[..i];
      var f := Look(entries[i], store, i in broken);
      if Stops(f) {
        r := r.(stop := Some((i, f)));
        StopIsFinal(entries, store, broken, i + 1);
        return;
      }
      match f {
        case Untyped => r := r.(untyped := r.untyped + [i]);
        case Bound(v) => r := r.(values := r.values[GetName(entries[i]) := v]);
        case _ =>
      }
    }
    assert entries[..|entries|] == entries;
  }

  lemma {:induction false} StopIsFinal(entries: seq<Entry>, store: Store, broken: set<nat>, i: nat)
    requires i <= |entries| && Resolve(entries[..i], store, broken).stop.Some?
    ensures Resolve(entries, store, broken) == Resolve(entries[..i], store, broken)
    decreases |entries|
  {
    if i == |entries| {
      assert entries[..i] == entries;
    } else {
      var init := entries[..|entries| - 1];
      assert init[..i] == entries[..i];
      StopIsFinal(init, store, broken, i);
    }
  }
}
