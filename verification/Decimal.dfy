/**
 Decimal text of numbers, as `fmt.Sprintf("%d", n)` writes it and `strconv.ParseInt(s, 10, 64)`
 reads it.  Generation labels, drift marks and retry tokens all travel as such text.
 */
module Decimal {
  import opened Base

  const MIN_INT64: int := -0x8000_0000_0000_0000
  const MAX_INT64: int := 0x7FFF_FFFF_FFFF_FFFF

  predicate IsDigit(c: char) {
    '0' <= c <= '9'
  }

  predicate AllDigits(s: string) {
    forall i :: 0 <= i < |s| ==> IsDigit(s[i])
  }

  function Format(n: nat): (s: string)
    ensures |s| >= 1 && AllDigits(s)
  {
    var last := ('0' as int + n % 10) as char;
    if n < 10 then [last] else Format(n / 10) + [last]
  }

  function Value(s: string): (n: nat)
    requires AllDigits(s)
  {
    if s == [] then 0
    else Value(s[..|s| - 1]) * 10 + (s[|s| - 1] as int - '0' as int)
  }

  /** strconv.ParseInt(s, 10, 64); None stands for its error. */
  function ParseInt(s: string): (r: Option<int>)
    ensures r.Some? ==> MIN_INT64 <= r.value <= MAX_INT64
  {
    var signed := s != [] && (s[0] == '-' || s[0] == '+');
    var digits := if signed then s[1..] else s;
    if digits == [] || !AllDigits(digits) then None
    else
      var n: int := if signed && s[0] == '-' then 0 - Value(digits) else Value(digits);
      if MIN_INT64 <= n <= MAX_INT64 then Some(n) else None
  }

  lemma {:induction false} ValueOfFormat(n: nat)
    ensures Value(Format(n)) == n
  {
    if n >= 10 {
      var s := Format(n);
      assert s[..|s| - 1] == Format(n / 10);
      ValueOfFormat(n / 10);
    } else {
      assert Format(n)[..0] == [];
    }
  }

  /** Two numbers with the same text are the same number. */
  lemma FormatInjective(m: nat, n: nat)
    requires Format(m) == Format(n)
    ensures m == n
  {
    ValueOfFormat(m);
    ValueOfFormat(n);
  }

  /** What the controller writes as a time stamp, it reads back. */
  lemma ParseOfFormat(n: nat)
    requires n <= MAX_INT64
    ensures ParseInt(Format(n)) == Some(n)
  {
    ValueOfFormat(n);
    var s := Format(n);
    assert IsDigit(s[0]);
  }
}
