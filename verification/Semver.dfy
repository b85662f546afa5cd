/**
 Precedence of versions (vendor/github.com/Masterminds/semver/version.go) against section 11 of
 Semantic Versioning 2.0.0, and the sort and maximum built on it (pkg/utils/semver.go).  The pattern
 that takes a text apart is a library's; it is a parameter here.
 */
module Semver {
  import opened Base

  /**
   A number the library can parse, with the leading zeros of its text, or any other text.  The
   standard forbids leading zeros; the library lets them pass.
   */
  datatype Identifier = Numeric(value: nat, zeros: nat) | Alpha(text: string)

  datatype Version = Version(major: nat, minor: nat, patch: nat, pre: seq<Identifier>)

  /** A library's parser: a version text, or None where the text is not a version. */
  type Parser = string -> Option<Version>

  datatype Order = Lt | Eq | Gt

  function Flip(o: Order): (r: Order) {
    match o
    case Lt => Gt
    case Eq => Eq
    case Gt => Lt
  }

  function Ints(a: int, b: int): (o: Order) {
    if a < b then Lt else if a > b then Gt else Eq
  }

  /** Texts in the order of their characters. */
  function Texts(a: string, b: string): (o: Order) {
    if a == [] && b == [] then Eq
    else if a == [] then Lt
    else if b == [] then Gt
    else
      var o := Ints(a[0] as int, b[0] as int);
      if o == Eq then Texts(a[1..], b[1..]) else o
  }

  /** Texts that differ and denote the same number are below one another, both ways. */
  function Identifiers(a: Identifier, b: Identifier): (o: Order) {
    if a == b then Eq
    else match (a, b)
      case (Numeric(x, _), Numeric(y, _)) => if x > y then Gt else Lt
      case (Numeric(_, _), Alpha(_)) => Lt
      case (Alpha(_), Numeric(_, _)) => Gt
      case (Alpha(x), Alpha(y)) => Texts(x, y)
  }

  /** Field by field; where one list runs out, the longer one is higher. */
  function Fields(a: seq<Identifier>, b: seq<Identifier>): (o: Order) {
    if a == [] && b == [] then Eq
    else if a == [] then Lt
    else if b == [] then Gt
    else
      var o := Identifiers(a[0], b[0]);
      if o == Eq then Fields(a[1..], b[1..]) else o
  }

  /** A version without a pre-release is above those with one. */
  function Releases(a: seq<Identifier>, b: seq<Identifier>): (o: Order) {
    if a == [] && b == [] then Eq
    else if a == [] then Gt
    else if b == [] then Lt
    else Fields(a, b)
  }

  function Compare(a: Version, b: Version): (o: Order) {
    if a.major != b.major then Ints(a.major, b.major)
    else if a.minor != b.minor then Ints(a.minor, b.minor)
    else if a.patch != b.patch then Ints(a.patch, b.patch)
    else Releases(a.pre, b.pre)
  }

  // ---- section 11 of the standard

  /** The first place where the two differ, or where one of them ends. */
  predicate Parts<T(==)>(a: seq<T>, b: seq<T>, n: nat) {
    n <= |a| && n <= |b| && a[..n] == b[..n] && (n < |a| && n < |b| ==> a[n] != b[n])
  }

  /** ASCII order. */
  predicate TextBelow(a: string, b: string) {
    exists n: nat :: Parts(a, b, n) && n < |b| && (n == |a| || a[n] < b[n])
  }

  /** Numbers as numbers, numbers below texts, texts in ASCII order. */
  predicate IdentifierBelow(a: Identifier, b: Identifier) {
    match (a, b)
    case (Numeric(x, _), Numeric(y, _)) => x < y
    case (Numeric(_, _), Alpha(_)) => true
    case (Alpha(_), Numeric(_, _)) => false
    case (Alpha(x), Alpha(y)) => TextBelow(x, y)
  }

  /** The first identifier that differs decides; where none does, the longer list is higher. */
  predicate ListBelow(a: seq<Identifier>, b: seq<Identifier>) {
    exists n: nat :: Parts(a, b, n) && n < |b| && (n == |a| || IdentifierBelow(a[n], b[n]))
  }

  predicate SameCore(a: Version, b: Version) {
    a.major == b.major && a.minor == b.minor && a.patch == b.patch
  }

  /** Section 11: lower precedence. */
  predicate Precedes(a: Version, b: Version) {
    || a.major < b.major
    || (a.major == b.major && a.minor < b.minor)
    || (a.major == b.major && a.minor == b.minor && a.patch < b.patch)
    || (SameCore(a, b) && a.pre != [] && (b.pre == [] || ListBelow(a.pre, b.pre)))
  }

  /** The first identifiers that differ denote the same number: 1.0.0-rc.1 and 1.0.0-rc.01. */
  predicate ListsClash(a: seq<Identifier>, b: seq<Identifier>) {
    exists n: nat :: Parts(a, b, n) && n < |a| && n < |b| && a[n].Numeric? && b[n].Numeric? && a[n].value == b[n].value
  }

  predicate Clash(a: Version, b: Version) {
    SameCore(a, b) && ListsClash(a.pre, b.pre)
  }

  lemma {:induction false} PartsExist<T>(a: seq<T>, b: seq<T>) returns (n: nat)
    ensures Parts(a, b, n) && Parts(b, a, n)
    decreases |a|
  {
    if a == [] || b == [] || a[0] != b[0] {
      n := 0;
    } else {
      var m := PartsExist(a[1..], b[1..]);
      n := m + 1;
      assert a[..n] == [a[0]] + a[1..][..m] && b[..n] == [b[0]] + b[1..][..m];
    }
  }

  lemma PartsOnce<T>(a: seq<T>, b: seq<T>, n: nat, m: nat)
    requires Parts(a, b, n) && Parts(a, b, m)
    ensures n == m
  {
    forall i | 0 <= i < |a| && i < |b| && (i < n || i < m) ensures a[i] == b[i] {
      assert i < n ==> a[i] == a[..n][i] && b[i] == b[..n][i];
      assert i < m ==> a[i] == a[..m][i] && b[i] == b[..m][i];
    }
  }

  lemma PartsTail<T>(a: seq<T>, b: seq<T>, n: nat)
    requires Parts(a, b, n) && n > 0
    ensures a[0] == b[0] && Parts(a[1..], b[1..], n - 1)
  {
    assert a[0] == a[..n][0] == b[..n][0] == b[0];
    assert a[1..][..n - 1] == a[..n][1..] && b[1..][..n - 1] == b[..n][1..];
  }

  lemma {:induction false} TextsAt(a: string, b: string, n: nat)
    requires Parts(a, b, n)
    ensures Texts(a, b) == if n == |a| && n == |b| then Eq else if n == |a| then Lt else if n == |b| then Gt
                           else Ints(a[n] as int, b[n] as int)
    decreases n
  {
    if n > 0 {
      PartsTail(a, b, n);
      TextsAt(a[1..], b[1..], n - 1);
    }
  }

  lemma TextsExact(a: string, b: string)
    ensures Texts(a, b) == Lt <==> TextBelow(a, b)
    ensures Texts(a, b) == Gt <==> TextBelow(b, a)
    ensures Texts(a, b) == Eq <==> a == b
  {
    var n := PartsExist(a, b);
    TextsAt(a, b, n);
    forall m: nat | Parts(a, b, m) || Parts(b, a, m) ensures m == n {
      if Parts(a, b, m) { PartsOnce(a, b, m, n); } else { PartsOnce(b, a, m, n); }
    }
    assert n == |a| == |b| ==> a == a[..n] && b == b[..n];
  }

  lemma IdentifiersExact(a: Identifier, b: Identifier)
    ensures Identifiers(a, b) == Gt <==> IdentifierBelow(b, a)
    ensures Identifiers(a, b) == Eq <==> a == b
    ensures Identifiers(a, b) == Lt <==> IdentifierBelow(a, b) || (a != b && a.Numeric? && b.Numeric? && a.value == b.value)
  {
    if a.Alpha? && b.Alpha? {
      TextsExact(a.text, b.text);
    }
  }

  lemma {:induction false} FieldsAt(a: seq<Identifier>, b: seq<Identifier>, n: nat)
    requires Parts(a, b, n)
    ensures Fields(a, b) == if n == |a| && n == |b| then Eq else if n == |a| then Lt else if n == |b| then Gt
                            else Identifiers(a[n], b[n])
    decreases n
  {
    hide Identifiers;
    if n > 0 {
      PartsTail(a, b, n);
      IdentifiersExact(a[0], b[0]);
      FieldsAt(a[1..], b[1..], n - 1);
    } else if a != [] && b != [] {
      IdentifiersExact(a[0], b[0]);
    }
  }

  lemma FieldsExact(a: seq<Identifier>, b: seq<Identifier>)
    ensures Fields(a, b) == Lt <==> ListBelow(a, b) || ListsClash(a, b)
    ensures Fields(a, b) == Gt <==> ListBelow(b, a)
    ensures Fields(a, b) == Eq <==> a == b
  {
    hide Identifiers, IdentifierBelow;
    var n := PartsExist(a, b);
    FieldsAt(a, b, n);
    forall m: nat | Parts(a, b, m) || Parts(b, a, m) ensures m == n {
      if Parts(a, b, m) { PartsOnce(a, b, m, n); } else { PartsOnce(b, a, m, n); }
    }
    if n < |a| && n < |b| {
      IdentifiersExact(a[n], b[n]);
    }
    assert n == |a| == |b| ==> a == a[..n] && b == b[..n];
  }

  /**
   The library's verdict is that of section 11, except that of two versions that clash each is below
   the other.  Only a version itself is neither above nor below.
   */
  lemma CompareExact(a: Version, b: Version)
    ensures Compare(a, b) == Gt <==> Precedes(b, a)
    ensures Compare(a, b) == Lt <==> Precedes(a, b) || Clash(a, b)
    ensures Compare(a, b) == Eq <==> a == b
  {
    hide Fields, ListBelow, ListsClash;
    FieldsExact(a.pre, b.pre);
    EndsDoNotClash(a.pre, b.pre);
  }

  lemma EndsDoNotClash(a: seq<Identifier>, b: seq<Identifier>)
    ensures a == [] || b == [] ==> !ListsClash(a, b)
  {
  }

  lemma ClashBothWays(a: Version, b: Version)
    ensures Clash(a, b) <==> Clash(b, a)
    ensures Clash(a, b) ==> a != b
  {
    forall n: nat | Parts(a.pre, b.pre, n) ensures Parts(b.pre, a.pre, n) { }
    forall n: nat | Parts(b.pre, a.pre, n) ensures Parts(a.pre, b.pre, n) { }
  }

  /** The two verdicts on a pair agree if and only if the versions do not clash. */
  lemma CompareFlip(a: Version, b: Version)
    ensures Compare(b, a) == Flip(Compare(a, b)) <==> !Clash(a, b)
  {
    hide Compare, Precedes, Clash;
    CompareExact(a, b);
    CompareExact(b, a);
    ClashBothWays(a, b);
  }

  /** Two versions the library puts below one another. */
  lemma EachBelowTheOther()
    ensures var a, b := Version(1, 0, 0, [Numeric(1, 0)]), Version(1, 0, 0, [Numeric(1, 1)]);
            Compare(a, b) == Lt && Compare(b, a) == Lt
  {
  }

  /** No identifier has leading zeros, as the standard demands. */
  predicate Tidy(v: Version) {
    forall i :: 0 <= i < |v.pre| && v.pre[i].Numeric? ==> v.pre[i].zeros == 0
  }

  lemma TidyNeverClash(a: Version, b: Version)
    requires Tidy(a) && Tidy(b)
    ensures !Clash(a, b)
    ensures Precedes(a, b) || Precedes(b, a) || a == b
  {
    CompareExact(a, b);
  }

  lemma TextBelowChain(a: string, b: string, c: string)
    requires TextBelow(a, b) && TextBelow(b, c)
    ensures TextBelow(a, c)
  {
    var n: nat :| Parts(a, b, n) && n < |b| && (n == |a| || a[n] < b[n]);
    var m: nat :| Parts(b, c, m) && m < |c| && (m == |b| || b[m] < c[m]);
    PartsChain(a, b, c, n, m);
    var k := if n < m then n else m;
    assert n < m ==> b[..m][n] == c[..m][n];
    assert m < n ==> a[..n][m] == b[..n][m];
    assert Parts(a, c, k);
  }

  lemma PartsChain<T>(a: seq<T>, b: seq<T>, c: seq<T>, n: nat, m: nat)
    requires Parts(a, b, n) && Parts(b, c, m)
    ensures var k := if n < m then n else m; k <= |a| && k <= |c| && a[..k] == c[..k]
  {
    var k := if n < m then n else m;
    assert a[..k] == a[..n][..k] == b[..n][..k] == b[..k];
    assert c[..k] == c[..m][..k] == b[..m][..k] == b[..k];
  }

  lemma IdentifierBelowChain(a: Identifier, b: Identifier, c: Identifier)
    requires IdentifierBelow(a, b) && IdentifierBelow(b, c)
    ensures IdentifierBelow(a, c) && a != c
  {
    hide TextBelow;
    if a.Alpha? {
      TextBelowChain(a.text, b.text, c.text);
    }
    NotBelowItself(a);
  }

  lemma NotBelowItself(a: Identifier)
    ensures !IdentifierBelow(a, a)
  {
    if a.Alpha? {
      TextsExact(a.text, a.text);
    }
  }

  lemma ListBelowChain(a: seq<Identifier>, b: seq<Identifier>, c: seq<Identifier>)
    requires ListBelow(a, b) && ListBelow(b, c)
    ensures ListBelow(a, c)
  {
    hide IdentifierBelow;
    var n: nat :| Parts(a, b, n) && n < |b| && (n == |a| || IdentifierBelow(a[n], b[n]));
    var m: nat :| Parts(b, c, m) && m < |c| && (m == |b| || IdentifierBelow(b[m], c[m]));
    PartsChain(a, b, c, n, m);
    var k := if n < m then n else m;
    assert n < m ==> b[..m][n] == c[..m][n];
    assert m < n ==> a[..n][m] == b[..n][m];
    if n == m && n < |a| {
      IdentifierBelowChain(a[n], b[n], c[n]);
    }
    assert Parts(a, c, k);
  }

  /** Precedence is a strict order, with or without leading zeros. */
  lemma PrecedesChain(a: Version, b: Version, c: Version)
    requires Precedes(a, b) && Precedes(b, c)
    ensures Precedes(a, c) && !Precedes(c, a)
  {
    hide ListBelow;
    if ListBelow(a.pre, b.pre) && ListBelow(b.pre, c.pre) {
      ListBelowChain(a.pre, b.pre, c.pre);
    }
    CompareAsymmetric(a, c);
  }

  lemma CompareAsymmetric(a: Version, b: Version)
    ensures !(Precedes(a, b) && Precedes(b, a))
  {
    hide Compare, Precedes;
    CompareExact(a, b);
  }

  // ---- sorting texts by the versions they denote

  predicate Parses(parse: Parser, list: seq<string>) {
    forall i :: 0 <= i < |list| ==> parse(list[i]).Some?
  }

  /** In the order of section 11, the one is not above the other. */
  predicate AtMost(parse: Parser, a: string, b: string)
    requires parse(a).Some? && parse(b).Some?
  {
    !Precedes(parse(b).value, parse(a).value)
  }

  predicate Sorted(parse: Parser, list: seq<string>)
    requires Parses(parse, list)
  {
    forall i, k :: 0 <= i < k < |list| ==> AtMost(parse, list[i], list[k])
  }

  lemma AboveAll(parse: Parser, list: seq<string>, k: nat, x: string, j: nat)
    requires Parses(parse, list) && Sorted(parse, list) && parse(x).Some? && k <= j < |list|
    requires !AtMost(parse, list[k], x)
    ensures AtMost(parse, x, list[j])
  {
    hide Precedes;
    CompareAsymmetric(parse(list[k]).value, parse(x).value);
    if k < j && Precedes(parse(list[j]).value, parse(x).value) {
      assert AtMost(parse, list[k], list[j]);
      PrecedesChain(parse(list[j]).value, parse(x).value, parse(list[k]).value);
    }
  }

  /** Put a version behind those that are not above it. */
  method Insert(parse: Parser, list: seq<string>, x: string) returns (r: seq<string>)
    requires Parses(parse, list) && Sorted(parse, list) && parse(x).Some?
    ensures multiset(r) == multiset(list) + multiset{x}
    ensures Parses(parse, r) && Sorted(parse, r)
  {
    hide Compare, Sorted, Precedes;
    var k := 0;
    while k < |list| && Compare(parse(list[k]).value, parse(x).value) != Gt
      invariant k <= |list|
      invariant forall j :: 0 <= j < k ==> AtMost(parse, list[j], x)
    {
      CompareExact(parse(list[k]).value, parse(x).value);
      k := k + 1;
    }
    if k < |list| {
      CompareExact(parse(list[k]).value, parse(x).value);
    }
    r := list[..k] + [x] + list[k..];
    assert list == list[..k] + list[k..];
    forall j | k <= j < |list| ensures AtMost(parse, x, list[j]) {
      AboveAll(parse, list, k, x, j);
    }
    InsertedSorted(parse, list, k, x, r);
  }

  lemma InsertedSorted(parse: Parser, list: seq<string>, n: nat, x: string, r: seq<string>)
    requires Parses(parse, list) && Sorted(parse, list) && parse(x).Some? && n <= |list|
    requires r == list[..n] + [x] + list[n..]
    requires forall j :: 0 <= j < n ==> AtMost(parse, list[j], x)
    requires forall j :: n <= j < |list| ==> AtMost(parse, x, list[j])
    ensures Parses(parse, r) && Sorted(parse, r)
  {
    hide AtMost;
    assert forall i :: 0 <= i < |r| ==> r[i] == if i < n then list[i] else if i == n then x else list[i - 1];
    forall i, k | 0 <= i < k < |r| ensures AtMost(parse, r[i], r[k]) {
      if k < n {
        assert AtMost(parse, list[i], list[k]);
      } else if k > n && i < n {
        assert AtMost(parse, list[i], list[k - 1]);
      } else if k > n && i > n {
        assert AtMost(parse, list[i - 1], list[k - 1]);
      }
    }
  }

  /** Ascending order of precedence; a text that is no version spoils the whole list. */
  method SortVersions(parse: Parser, versions: seq<string>) returns (r: Option<seq<string>>)
    ensures r.None? <==> !Parses(parse, versions)
    ensures r.Some? ==> multiset(r.value) == multiset(versions) && Parses(parse, r.value) && Sorted(parse, r.value)
  {
    var list := [];
    for i := 0 to |versions|
      invariant Parses(parse, versions[..i])
      invariant multiset(list) == multiset(versions[..i]) && Parses(parse, list) && Sorted(parse, list)
    {
      if parse(versions[i]).None? { return None; }
      assert versions[..i + 1] == versions[..i] + [versions[i]];
      list := Insert(parse, list, versions[i]);
    }
    assert versions[..|versions|] == versions;
    r := Some(list);
  }

  /** No listed version is above this one. */
  predicate Highest(parse: Parser, versions: seq<string>, v: string)
    requires Parses(parse, versions)
  {
    v in versions && parse(v).Some? && forall i :: 0 <= i < |versions| ==> AtMost(parse, versions[i], v)
  }

  method LatestVersion(parse: Parser, versions: seq<string>) returns (r: Option<string>)
    requires |versions| > 0
    ensures r.None? <==> !Parses(parse, versions)
    ensures r.Some? ==> Highest(parse, versions, r.value)
  {
    hide Precedes;
    var sorted := SortVersions(parse, versions);
    if sorted.None? { return None; }
    var list := sorted.value;
    assert |multiset(list)| == |list| && |multiset(versions)| == |versions|;
    var n := |list| - 1;
    var v := list[n];
    r := Some(v);
    assert v in multiset(list);
    CompareAsymmetric(parse(v).value, parse(v).value);
    forall i | 0 <= i < |versions| ensures AtMost(parse, versions[i], v) {
      assert versions[i] in multiset(versions);
      assert versions[i] in list;
      var k :| 0 <= k < |list| && list[k] == versions[i];
      assert k < n ==> AtMost(parse, list[k], list[n]);
    }
  }

  /** Texts without leading zeros that denote distinct versions have one maximum. */
  lemma HighestIsUnique(parse: Parser, versions: seq<string>, u: string, v: string)
    requires Parses(parse, versions)
    requires forall i :: 0 <= i < |versions| ==> Tidy(parse(versions[i]).value)
    requires forall i, k :: 0 <= i < k < |versions| ==> parse(versions[i]) != parse(versions[k])
    requires Highest(parse, versions, u) && Highest(parse, versions, v)
    ensures u == v
  {
    hide Precedes, Tidy;
    var i :| 0 <= i < |versions| && versions[i] == u;
    var k :| 0 <= k < |versions| && versions[k] == v;
    assert AtMost(parse, versions[i], v) && AtMost(parse, versions[k], u);
    TidyNeverClash(parse(u).value, parse(v).value);
    assert !(i < k) && !(k < i);
  }
}
