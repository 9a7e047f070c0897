/** Decimal numerals and dotted names: printing, parsing, and their agreement. */
module Decimals {
  import opened Oids

  function Digit(d: nat): char
    requires d < 10
  {
    '0' + d as char
  }

  predicate IsDigit(c: char) {
    '0' <= c <= '9'
  }

  function DigitValue(c: char): nat
    requires IsDigit(c)
  {
    (c - '0') as int
  }

  function Dec(n: nat): (s: string)
    ensures s != []
  {
    if n < 10 then [Digit(n)] else Dec(n / 10) + [Digit(n % 10)]
  }

  predicate AllDigits(s: string) {
    forall i :: 0 <= i < |s| ==> IsDigit(s[i])
  }

  function NatOf(s: string): nat
    requires AllDigits(s)
  {
    if s == [] then 0 else 10 * NatOf(s[..|s| - 1]) + DigitValue(s[|s| - 1])
  }

  const MAX_INT64 := 0x7FFF_FFFF_FFFF_FFFF
  const MIN_INT64 := -0x8000_0000_0000_0000

  /** strconv.Atoi with its error ignored: 0 for what is no number, the nearest 64-bit
      value for a number out of range. */
  function Atoi(s: string): int {
    var signed := s != [] && (s[0] == '+' || s[0] == '-');
    var digits := if signed then s[1..] else s;
    if digits == [] || !AllDigits(digits) then 0
    else
      var v: int := NatOf(digits);
      if signed && s[0] == '-' then (if -v < MIN_INT64 then MIN_INT64 else -v)
      else if v > MAX_INT64 then MAX_INT64 else v
  }

  /** The conversion int32(x): the low 32 bits, read as a signed number. */
  function Int32(x: int): int {
    (x + 0x8000_0000) % 0x1_0000_0000 - 0x8000_0000
  }

  lemma {:induction false} NatOfDec(n: nat)
    ensures AllDigits(Dec(n)) && NatOf(Dec(n)) == n
  {
    if n >= 10 {
      NatOfDec(n / 10);
      assert Dec(n)[..|Dec(n)| - 1] == Dec(n / 10);
      assert DigitValue(Digit(n % 10)) == n % 10;
    } else {
      assert [Digit(n)][..0] == [];
      assert NatOf([]) == 0;
    }
  }

  lemma AtoiOfDec(n: nat)
    requires n <= MAX_INT64
    ensures Atoi(Dec(n)) == n
  {
    NatOfDec(n);
    assert IsDigit(Dec(n)[0]);
  }

  lemma DecInjective(a: nat, b: nat)
    requires Dec(a) == Dec(b)
    ensures a == b
  {
    NatOfDec(a);
    NatOfDec(b);
  }

  /** On the 32-bit sub-identifiers of an OID the conversion loses nothing. */
  lemma Int32Injective(a: nat, b: nat)
    requires a < 0x1_0000_0000 && b < 0x1_0000_0000 && Int32(a) == Int32(b)
    ensures a == b
  {
  }

  /** It keeps a number's remainder modulo 2^32, in the range of signed 32-bit numbers. */
  lemma Int32Exact(x: int)
    ensures -0x8000_0000 <= Int32(x) < 0x8000_0000 && (x - Int32(x)) % 0x1_0000_0000 == 0
  {
  }

  /** A numeral with or without a sign stands for its number, or the nearest one of 64 bits. */
  lemma AtoiOfNumeral(digits: string)
    requires digits != [] && AllDigits(digits)
    ensures var n: int := NatOf(digits);
            && Atoi(digits) == Atoi("+" + digits) == (if n > 0x7FFF_FFFF_FFFF_FFFF then 0x7FFF_FFFF_FFFF_FFFF else n)
            && Atoi("-" + digits) == (if n > 0x8000_0000_0000_0000 then -0x8000_0000_0000_0000 else -n)
  {
    assert ("+" + digits)[1..] == digits && ("-" + digits)[1..] == digits;
    assert IsDigit(digits[0]);
  }

  /** Every other text stands for 0. */
  lemma AtoiOfOther(s: string)
    requires s == [] || !AllDigits(s)
    requires s != [] && (s[0] == '+' || s[0] == '-') ==> s[1..] == [] || !AllDigits(s[1..])
    ensures Atoi(s) == 0
  {
  }

  // ----- dotted names

  function OidString(o: Oid): string {
    if o == [] then "" else OidString(o[..|o| - 1]) + "." + Dec(o[|o| - 1])
  }

  /** The position of the last dot; -1 when there is none. */
  function LastDot(s: string): (r: int)
    ensures -1 <= r < |s|
    ensures r >= 0 ==> s[r] == '.'
    ensures forall i :: r < i < |s| ==> s[i] != '.'
  {
    if s == [] then -1
    else if s[|s| - 1] == '.' then |s| - 1
    else LastDot(s[..|s| - 1])
  }

  lemma LastDotExact(s: string, k: nat)
    requires k < |s| && s[k] == '.' && forall i :: k < i < |s| ==> s[i] != '.'
    ensures LastDot(s) == k
  {
  }

  lemma LastDotAt(a: string, b: string)
    requires '.' !in b
    ensures LastDot(a + "." + b) == |a|
    ensures (a + "." + b)[|a| + 1..] == b && (a + "." + b)[..|a|] == a
  {
    var s := a + "." + b;
    assert s[..|a|] == a && s[|a| + 1..] == b;
    forall i | |a| < i < |s| ensures s[i] != '.' {
      assert s[i] == b[i - |a| - 1];
    }
    LastDotExact(s, |a|);
  }

  lemma NoDotInDec(n: nat)
    ensures '.' !in Dec(n)
  {
    NatOfDec(n);
  }

  /** The last component can be read back from the name, and what is before it. */
  lemma OidStringSplits(o: Oid)
    requires o != []
    ensures var s, n := OidString(o), |o| - 1;
            && LastDot(s) == |OidString(o[..n])|
            && s[LastDot(s) + 1..] == Dec(o[n])
            && s[..LastDot(s)] == OidString(o[..n])
  {
    var n := |o| - 1;
    NoDotInDec(o[n]);
    LastDotAt(OidString(o[..n]), Dec(o[n]));
  }

  /** Different identifiers have different names. */
  lemma {:induction false} OidStringInjective(a: Oid, b: Oid)
    requires OidString(a) == OidString(b)
    ensures a == b
    decreases |a|
  {
    if a != [] && b != [] {
      OidStringSplits(a);
      OidStringSplits(b);
      DecInjective(a[|a| - 1], b[|b| - 1]);
      OidStringInjective(a[..|a| - 1], b[..|b| - 1]);
      assert a == a[..|a| - 1] + [a[|a| - 1]] && b == b[..|b| - 1] + [b[|b| - 1]];
    }
  }

  /** Names of identifiers are already in normal form. */
  lemma {:induction false} OidStringDotted(o: Oid)
    requires o != []
    ensures OidString(o) != [] && OidString(o)[0] == '.'
  {
    if |o| > 1 {
      OidStringDotted(o[..|o| - 1]);
    }
  }
}
