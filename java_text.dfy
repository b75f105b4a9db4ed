/** The few pieces of the Java runtime that the request builder relies on for
    its wire text and hash codes: decimal rendering of integers
    (String.valueOf / StringBuilder.append), Boolean.toString, 32-bit int
    arithmetic and the String, Integer and Date hash codes. */
module JavaText {

  const TwoTo31: int := 0x8000_0000
  const TwoTo32: int := 0x1_0000_0000

  predicate IsDigit(c: char) {
    '0' <= c <= '9'
  }

  function DigitChar(d: int): (c: char)
    requires 0 <= d < 10
    ensures IsDigit(c) && c as int - '0' as int == d
  {
    (d + '0' as int) as char
  }

  /** Decimal digits of a natural number, most significant first, no leading zero. */
  function NatDigits(n: nat): (s: string)
    ensures |s| > 0
    ensures forall i :: 0 <= i < |s| ==> IsDigit(s[i])
    ensures |s| > 1 ==> s[0] != '0'
    decreases n
  {
    if n < 10 then [DigitChar(n)] else NatDigits(n / 10) + [DigitChar(n % 10)]
  }

  /** String.valueOf(long): an optional minus sign followed by the digits. */
  function DecimalString(n: int): (s: string)
    ensures |s| > 0
    ensures s[0] == '-' <==> n < 0
    ensures forall i :: 0 < i < |s| ==> IsDigit(s[i])
    ensures n >= 0 ==> IsDigit(s[0])
  {
    if n < 0 then "-" + NatDigits(-n) else NatDigits(n)
  }

  /** Reads back a string of decimal digits. */
  function ParseNat(s: string): int
    requires forall i :: 0 <= i < |s| ==> IsDigit(s[i])
  {
    if s == [] then 0
    else ParseNat(s[..|s| - 1]) * 10 + (s[|s| - 1] as int - '0' as int)
  }

  /** Reads back an optionally signed decimal string. */
  function ParseDecimal(s: string): int
    requires |s| > 0
    requires forall i :: 0 < i < |s| ==> IsDigit(s[i])
    requires s[0] != '-' ==> IsDigit(s[0])
  {
    if s[0] == '-' then -ParseNat(s[1..]) else ParseNat(s)
  }

  lemma {:induction false} ParseNatDigits(n: nat)
    ensures ParseNat(NatDigits(n)) == n
    decreases n
  {
    if n >= 10 {
      var s := NatDigits(n);
      assert s[..|s| - 1] == NatDigits(n / 10);
      ParseNatDigits(n / 10);
    }
  }

  /** The decimal rendering loses nothing: it parses back to the number. */
  lemma DecimalRoundTrip(n: int)
    ensures ParseDecimal(DecimalString(n)) == n
  {
    if n < 0 {
      assert DecimalString(n)[1..] == NatDigits(-n);
      ParseNatDigits(-n);
    } else {
      ParseNatDigits(n);
    }
  }

  /** Distinct numbers render as distinct strings. */
  lemma DecimalInjective(m: int, n: int)
    ensures DecimalString(m) == DecimalString(n) ==> m == n
  {
    DecimalRoundTrip(m);
    DecimalRoundTrip(n);
  }

  /** String.valueOf(1000) is "1000" and String.valueOf(2000) is "2000". */
  lemma ThousandsInDecimal()
    ensures DecimalString(1000) == "1000" && DecimalString(2000) == "2000"
  {
    assert NatDigits(1) == "1" && NatDigits(10) == "10" && NatDigits(100) == "100";
    assert NatDigits(2) == "2" && NatDigits(20) == "20" && NatDigits(200) == "200";
  }

  /** Boolean.toString. */
  function BoolString(b: bool): (s: string)
    ensures s == "true" <==> b
    ensures s == "false" <==> !b
  {
    if b then "true" else "false"
  }

  predicate IsInt32(x: int) {
    -TwoTo31 <= x < TwoTo31
  }

  /** Java's two's-complement wrap-around of an int result. */
  function Wrap32(x: int): (r: int)
    ensures IsInt32(r)
    ensures (x - r) % TwoTo32 == 0
    ensures IsInt32(x) ==> r == x
  {
    (x + TwoTo31) % TwoTo32 - TwoTo31
  }

  /** String.hashCode: h = 31 * h + c over the characters, in int arithmetic. */
  function StringHash(s: string): (h: int)
    ensures IsInt32(h)
  {
    if s == [] then 0 else Wrap32(31 * StringHash(s[..|s| - 1]) + s[|s| - 1] as int)
  }

  /** Date.hashCode of a millisecond timestamp: the low and high 32-bit halves
      of the long, exclusive-or'ed, read as an int. */
  function DateHash(millis: int): (h: int)
    ensures IsInt32(h)
  {
    var u := (millis % 0x1_0000_0000_0000_0000) as bv64;
    Wrap32(((u ^ (u >> 32)) & 0xFFFF_FFFF) as int)
  }

  /** The "31 * result + h" step of the generated hashCode methods. */
  function HashStep(acc: int, h: int): (r: int)
    ensures IsInt32(r)
  {
    Wrap32(31 * acc + h)
  }
}
