/**
 * Fixed-width integers of the ESP32 firmware and their decimal text.
 *
 * Dafny's `int` is unbounded, so the C++ widths used by the settings record
 * (`uint8_t`, `int16_t`, `uint16_t`, `uint32_t`) and by `String::toInt`
 * (a 32-bit `long`) are subset types here, and every implicit narrowing
 * conversion of the source is written out as a reduction modulo 2^k.
 */
module Fixed {

  type U8 = x: int | 0 <= x < 0x100
  type I16 = x: int | -0x8000 <= x < 0x8000
  type U16 = x: int | 0 <= x < 0x1_0000
  type U32 = x: int | 0 <= x < 0x1_0000_0000
  /** `long` on the ESP32: the result type of `String::toInt`. */
  type I32 = x: int | -0x8000_0000 <= x < 0x8000_0000

  /** Conversion to `uint8_t`: the unique value in range congruent to `v`. */
  function ToU8(v: int): (r: U8)
    ensures (v - r) % 0x100 == 0
  {
    v % 0x100
  }

  /** Conversion to `uint16_t`. */
  function ToU16(v: int): (r: U16)
    ensures (v - r) % 0x1_0000 == 0
  {
    v % 0x1_0000
  }

  /** Conversion to `uint32_t`. */
  function ToU32(v: int): (r: U32)
    ensures (v - r) % 0x1_0000_0000 == 0
  {
    v % 0x1_0000_0000
  }

  /** Conversion to `int16_t` (two's complement wrap-around, as GCC does it). */
  function ToI16(v: int): (r: I16)
    ensures (v - r) % 0x1_0000 == 0
  {
    var u := v % 0x1_0000;
    if u < 0x8000 then u else u - 0x1_0000
  }

  /** A value already in range is not changed by its conversion. */
  lemma ConversionsKeepInRangeValues(v: int)
    ensures 0 <= v < 0x100 ==> ToU8(v) == v
    ensures -0x8000 <= v < 0x8000 ==> ToI16(v) == v
    ensures 0 <= v < 0x1_0000 ==> ToU16(v) == v
    ensures 0 <= v < 0x1_0000_0000 ==> ToU32(v) == v
  {
  }

  /** Arduino's `constrain(amt, low, high)` macro. */
  function Constrain(amt: int, low: int, high: int): (r: int)
    requires low <= high
    ensures low <= r <= high
    ensures low <= amt <= high ==> r == amt
    ensures amt < low ==> r == low
    ensures high < amt ==> r == high
  {
    if amt < low then low else if amt > high then high else amt
  }

  /** True iff every character of `s` is a decimal digit. */
  predicate AllDigits(s: string)
  {
    forall i :: 0 <= i < |s| ==> '0' <= s[i] <= '9'
  }

  function DigitChar(d: nat): (c: char)
    requires d < 10
    ensures '0' <= c <= '9'
  {
    (('0' as int) + d) as char
  }

  /** Decimal digits of a natural number, most significant first, without leading zeros. */
  function NatDigits(n: nat): (s: string)
    ensures |s| > 0 && AllDigits(s)
    ensures |s| > 1 ==> s[0] != '0'
    decreases n
  {
    if n < 10 then [DigitChar(n)] else NatDigits(n / 10) + [DigitChar(n % 10)]
  }

  /**
   * Decimal text of an integer, as both `String::operator+=(int)` and
   * `snprintf("%d")` produce it: a leading '-' for negative values.
   */
  function Dec(n: int): (s: string)
    ensures |s| > 0
    ensures forall i :: 0 <= i < |s| ==> s[i] == '-' || '0' <= s[i] <= '9'
    ensures (n < 0) == (s[0] == '-')
  {
    if n < 0 then "-" + NatDigits(-n) else NatDigits(n)
  }

  /** The value a string of decimal digits denotes (the reference reading of a number). */
  function DigitsValue(s: string): nat
    requires AllDigits(s)
  {
    if |s| == 0 then 0 else DigitsValue(s[..|s| - 1]) * 10 + (s[|s| - 1] as int - '0' as int)
  }

  /** The value of an optionally signed decimal string. */
  function DecValue(s: string): int
    requires |s| > 0 && (s[0] == '-' ==> AllDigits(s[1..])) && (s[0] != '-' ==> AllDigits(s))
  {
    if s[0] == '-' then -(DigitsValue(s[1..]) as int) else DigitsValue(s)
  }

  lemma {:induction false} NatDigitsRoundTrip(n: nat)
    ensures DigitsValue(NatDigits(n)) == n
    decreases n
  {
    if n >= 10 {
      var s := NatDigits(n);
      NatDigitsRoundTrip(n / 10);
      assert s[..|s| - 1] == NatDigits(n / 10);
    }
  }

  /** Reading back the decimal text of any integer gives the integer. */
  lemma DecRoundTrip(n: int)
    ensures var s := Dec(n); |s| > 0 && (s[0] == '-' ==> AllDigits(s[1..])) && (s[0] != '-' ==> AllDigits(s))
    ensures DecValue(Dec(n)) == n
  {
    if n < 0 {
      NatDigitsRoundTrip(-n);
      assert Dec(n)[1..] == NatDigits(-n);
    } else {
      NatDigitsRoundTrip(n);
    }
  }

  /** The first `n` characters of `s`, or all of it when it is shorter. */
  function Truncate(s: string, n: nat): (r: string)
    ensures |r| <= n && r <= s
    ensures |s| <= n ==> r == s
  {
    if |s| <= n then s else s[..n]
  }
}
