/**
 * Decimal numerals: rendering a natural number as its shortest decimal text and
 * reading a maximal run of digits back. Shared by the protein and the nucleotide
 * notations, which both print positions and lengths in decimal.
 */
module Numerals {
  import opened Wrappers

  predicate IsDigit(c: char) { '0' <= c <= '9' }

  function DigitValue(c: char): nat
    requires IsDigit(c)
  {
    (c as int - '0' as int) as nat
  }

  function DigitChar(d: nat): (c: char)
    requires d < 10
    ensures IsDigit(c) && DigitValue(c) == d
  {
    ('0' as int + d) as char
  }

  predicate AllDigits(s: seq<char>) { forall i :: 0 <= i < |s| ==> IsDigit(s[i]) }

  /** True when `s` does not begin with a digit (a number read before it ends there). */
  predicate NoDigitAhead(s: seq<char>) { s == [] || !IsDigit(s[0]) }

  /** The shortest decimal spelling of `n`: no sign, no leading zero. */
  function NatToString(n: nat): (r: seq<char>)
    ensures |r| > 0 && AllDigits(r)
    ensures |r| > 1 ==> r[0] != '0'
    decreases n
  {
    if n < 10 then [DigitChar(n)] else NatToString(n / 10) + [DigitChar(n % 10)]
  }

  /** The number a run of digits denotes, most significant digit first. */
  function DigitsValue(ds: seq<char>): nat
    requires AllDigits(ds)
  {
    if ds == [] then 0 else DigitsValue(ds[..|ds| - 1]) * 10 + DigitValue(ds[|ds| - 1])
  }

  /** Length of the run of digits that starts `s`. */
  function LeadingDigits(s: seq<char>): (k: nat)
    ensures k <= |s| && AllDigits(s[..k])
    ensures NoDigitAhead(s[k..])
  {
    if |s| > 0 && IsDigit(s[0]) then
      var k' := LeadingDigits(s[1..]);
      assert s[..1 + k'] == [s[0]] + s[1..][..k'];
      1 + k'
    else 0
  }

  /** Reads the maximal run of digits at the head of `s`, if there is one. */
  function ParseNat(s: seq<char>): (r: Option<(nat, seq<char>)>)
    ensures r.Some? <==> |s| > 0 && IsDigit(s[0])
    ensures r.Some? ==> |r.value.1| < |s| && r.value.1 == s[|s| - |r.value.1|..]
    ensures r.Some? ==> NoDigitAhead(r.value.1)
    ensures r.Some? ==> AllDigits(s[..|s| - |r.value.1|])
  {
    var k := LeadingDigits(s);
    if k == 0 then None else Some((DigitsValue(s[..k]), s[k..]))
  }

  lemma {:induction false} DigitsValueOfNatToString(n: nat)
    ensures DigitsValue(NatToString(n)) == n
    decreases n
  {
    if n >= 10 {
      DigitsValueOfNatToString(n / 10);
      var t := NatToString(n / 10) + [DigitChar(n % 10)];
      assert t[..|t| - 1] == NatToString(n / 10);
    }
  }

  lemma {:induction false} LeadingDigitsOfConcat(ds: seq<char>, rest: seq<char>)
    requires AllDigits(ds) && NoDigitAhead(rest)
    ensures LeadingDigits(ds + rest) == |ds|
    decreases |ds|
  {
    if ds != [] {
      assert (ds + rest)[1..] == ds[1..] + rest;
      LeadingDigitsOfConcat(ds[1..], rest);
    }
  }

  /** Printing a number and reading it back gives the number and leaves what follows. */
  lemma {:induction false} ParseNatOfNatToString(n: nat, rest: seq<char>)
    requires NoDigitAhead(rest)
    ensures ParseNat(NatToString(n) + rest) == Some((n, rest))
  {
    var ds := NatToString(n);
    LeadingDigitsOfConcat(ds, rest);
    assert (ds + rest)[..|ds|] == ds;
    assert (ds + rest)[|ds|..] == rest;
    DigitsValueOfNatToString(n);
  }

  /** Two numbers with the same spelling are equal: the spelling is injective. */
  lemma NatToStringInjective(m: nat, n: nat)
    requires NatToString(m) == NatToString(n)
    ensures m == n
  {
    DigitsValueOfNatToString(m);
    DigitsValueOfNatToString(n);
  }
}
