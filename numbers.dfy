/**
  Java integer behaviour the catalog depends on: narrowing a parsed JSON
  number to an int, and String.valueOf(int). ParseInt is the inverse used to
  show that the decimal rendering loses nothing.
 */
module Numbers {

  const IntMin: int := -0x8000_0000
  const IntMax: int := 0x7fff_ffff
  const LongMin: int := -0x8000_0000_0000_0000
  const LongMax: int := 0x7fff_ffff_ffff_ffff

  predicate IsInt32(n: int) {
    IntMin <= n <= IntMax
  }

  /**
    Number.intValue() of a JSON integer literal. The parser keeps a literal
    that fits in 64 bits as a long, whose intValue keeps the low 32 bits; a
    longer literal becomes a double, whose intValue saturates.
   */
  function IntValue(n: int): (r: int)
    ensures IsInt32(r)
    ensures IsInt32(n) ==> r == n
    ensures LongMin <= n <= LongMax ==> (n - r) % 0x1_0000_0000 == 0
    ensures n > LongMax ==> r == IntMax
    ensures n < LongMin ==> r == IntMin
  {
    if n < LongMin then IntMin
    else if n > LongMax then IntMax
    else (n - IntMin) % 0x1_0000_0000 + IntMin
  }

  predicate IsDigit(c: char) {
    '0' <= c <= '9'
  }

  function DigitChar(d: int): (c: char)
    requires 0 <= d <= 9
    ensures IsDigit(c)
  {
    ('0' as int + d) as char
  }

  /** Decimal digits of n, most significant first, without leading zeros. */
  function NatToString(n: nat): (s: string)
    ensures |s| > 0
    ensures forall i :: 0 <= i < |s| ==> IsDigit(s[i])
    ensures s[0] == '0' ==> n == 0
    decreases n
  {
    if n < 10 then [DigitChar(n)] else NatToString(n / 10) + [DigitChar(n % 10)]
  }

  /** String.valueOf(int): a minus sign before the digits of a negative value. */
  function ValueOf(n: int): (s: string)
    ensures |s| > 0
    ensures s[0] == '-' <==> n < 0
  {
    if n < 0 then "-" + NatToString(-n) else NatToString(n)
  }

  function ParseNat(s: string): nat
    requires forall i :: 0 <= i < |s| ==> IsDigit(s[i])
  {
    if |s| == 0 then 0
    else
      assert IsDigit(s[|s| - 1]);
      ParseNat(s[..|s| - 1]) * 10 + (s[|s| - 1] as int - '0' as int)
  }

  function ParseInt(s: string): int {
    if |s| > 0 && s[0] == '-' && forall i :: 1 <= i < |s| ==> IsDigit(s[i]) then -(ParseNat(s[1..]) as int)
    else if forall i :: 0 <= i < |s| ==> IsDigit(s[i]) then ParseNat(s)
    else 0
  }

  lemma {:induction false} ParseNatToString(n: nat)
    ensures ParseNat(NatToString(n)) == n
    decreases n
  {
    if n >= 10 {
      var s := NatToString(n);
      ParseNatToString(n / 10);
      assert s[..|s| - 1] == NatToString(n / 10);
    }
  }

  /** Reading back the decimal rendering of an int gives the int. */
  lemma ValueOfRoundTrip(n: int)
    ensures ParseInt(ValueOf(n)) == n
  {
    if n < 0 {
      var s := ValueOf(n);
      assert s[1..] == NatToString(-n);
      ParseNatToString(-n);
    } else {
      ParseNatToString(n);
    }
  }

  /** Distinct ints render as distinct strings. */
  lemma ValueOfInjective(a: int, b: int)
    ensures ValueOf(a) == ValueOf(b) ==> a == b
  {
    ValueOfRoundTrip(a);
    ValueOfRoundTrip(b);
  }
}
