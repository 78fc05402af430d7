/** Decimal numbers as `strconv` prints and parses them. */
module Decimal {
  import opened Text

  const MIN64: int := -0x8000_0000_0000_0000
  const MAX64: int := 0x7FFF_FFFF_FFFF_FFFF

  predicate IsDigit(c: char) { '0' <= c <= '9' }

  function FormatNat(n: nat): (s: string)
    ensures s != "" && forall i :: 0 <= i < |s| ==> IsDigit(s[i])
  {
    var last := [(n % 10) as char + '0'];
    if n < 10 then last else FormatNat(n / 10) + last
  }

  /** `strconv.FormatInt(n, 10)`, also the verb `%d`. */
  function FormatInt(n: int): (s: string)
    ensures s != "" && forall i :: 0 <= i < |s| ==> IsDigit(s[i]) || s[i] == '-'
  {
    if n < 0 then "-" + FormatNat(-n) else FormatNat(n)
  }

  /** The value of a run of digits; nothing for any other byte and for no byte at all. */
  function ParseNat(s: string): Option<nat> {
    if s == "" || !IsDigit(s[|s| - 1]) then None
    else
      var d := (s[|s| - 1] - '0') as nat;
      if |s| == 1 then Some(d)
      else match ParseNat(s[..|s| - 1])
           case None => None
           case Some(n) => Some(10 * n + d)
  }

  /** `strconv.ParseInt(s, 10, 64)`: an optional sign, digits, and a value within 64 bits. */
  function ParseInt64(s: string): (r: Option<int>)
    ensures r.Some? ==> MIN64 <= r.value <= MAX64
  {
    if s == "" then None
    else
      var signed := s[0] == '+' || s[0] == '-';
      match ParseNat(if signed then s[1..] else s)
      case None => None
      case Some(n) =>
        var v: int := if s[0] == '-' then 0 - n else n;
        if MIN64 <= v <= MAX64 then Some(v) else None
  }

  lemma {:induction false} NatRoundTrip(n: nat)
    ensures ParseNat(FormatNat(n)) == Some(n)
  {
    var s := FormatNat(n);
    assert (s[|s| - 1] - '0') as nat == n % 10;
    if n >= 10 {
      NatRoundTrip(n / 10);
      assert s[..|s| - 1] == FormatNat(n / 10);
    }
  }

  lemma IntRoundTrip(n: int)
    requires MIN64 <= n <= MAX64
    ensures ParseInt64(FormatInt(n)) == Some(n)
  {
    if n < 0 {
      NatRoundTrip(-n);
      assert ("-" + FormatNat(-n))[1..] == FormatNat(-n);
    } else {
      NatRoundTrip(n);
    }
  }

  /** The digits of a number, most significant first. */
  lemma DigitsOf(n: nat, d: nat)
    requires d < 10
    ensures FormatNat(d) == ['0' + d as char]
    ensures n > 0 ==> FormatNat(10 * n + d) == FormatNat(n) + ['0' + d as char]
  {
    assert (10 * n + d) / 10 == n && (10 * n + d) % 10 == d;
  }

  /** What is read as a number: digits and nothing else. */
  lemma {:induction false} NumberIff(s: string)
    ensures ParseNat(s).Some? <==> s != "" && forall i :: 0 <= i < |s| ==> IsDigit(s[i])
    decreases |s|
  {
    if |s| > 1 {
      NumberIff(s[..|s| - 1]);
      assert forall i :: 0 <= i < |s| - 1 ==> s[..|s| - 1][i] == s[i];
    }
  }

  /** The last digit counts once and those before it ten times. */
  lemma NumberMeaning(s: string, c: char)
    requires IsDigit(c)
    ensures ParseNat([c]) == Some((c - '0') as nat)
    ensures ParseNat(s).Some? ==> ParseNat(s + [c]) == Some(10 * ParseNat(s).value + (c - '0') as nat)
  {
    var t := s + [c];
    assert t[..|s|] == s && t[|s|] == c;
  }

  /** A sign is optional, and what does not fit 64 bits is refused. */
  lemma SignMeaning(s: string, n: nat)
    requires ParseNat(s) == Some(n)
    ensures ParseInt64(s) == ParseInt64("+" + s) == if n <= MAX64 then Some(n) else None
    ensures ParseInt64("-" + s) == if 0 - n >= MIN64 then Some(0 - n) else None
  {
    NumberIff(s);
    assert IsDigit(s[0]);
    assert ("+" + s)[1..] == s && ("-" + s)[1..] == s;
  }
}
