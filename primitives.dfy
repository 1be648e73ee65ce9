/**
 The .NET primitives the core leans on, written out: the unsigned 32-bit
 integer with unchecked arithmetic, `char.IsWhiteSpace` /
 `string.IsNullOrWhiteSpace`, and the decimal rendering of an `int` that
 string interpolation performs (invariant culture).
 */
module Primitives {
  import opened Functional

  const UINT32_MODULUS: int := 0x1_0000_0000

  /** C# `uint`. */
  type UInt32 = x: int | 0 <= x < UINT32_MODULUS

  /** The value unchecked `uint` arithmetic stores: the exact result modulo 2^32. */
  function Wrap32(x: int): (r: UInt32)
    ensures 0 <= x < UINT32_MODULUS ==> r == x
    ensures (r - x) % UINT32_MODULUS == 0
  {
    x % UINT32_MODULUS
  }

  /**
   `char.IsWhiteSpace`: the Unicode space, line and paragraph separators
   (U+0020, U+00A0, U+1680, U+2000..U+200A, U+2028, U+2029, U+202F, U+205F,
   U+3000) and the controls U+0009..U+000D and U+0085.
   */
  predicate IsWhiteSpace(c: char) {
    var n := c as int;
    || 0x09 <= n <= 0x0D
    || n == 0x20 || n == 0x85 || n == 0xA0 || n == 0x1680
    || 0x2000 <= n <= 0x200A
    || n == 0x2028 || n == 0x2029 || n == 0x202F || n == 0x205F || n == 0x3000
  }

  /** Every character is white space; the empty string is blank. */
  predicate IsBlank(s: string) {
    forall i | 0 <= i < |s| :: IsWhiteSpace(s[i])
  }

  /** `string.IsNullOrWhiteSpace`, with `None` standing for `null`. */
  predicate IsNullOrWhiteSpace(s: Maybe<string>): (b: bool)
    ensures s == Some("") ==> b
    ensures !b <==> s.Some? && exists i | 0 <= i < |s.value| :: !IsWhiteSpace(s.value[i])
  {
    s.None? || IsBlank(s.value)
  }

  lemma EmptyIsBlank()
    ensures IsBlank("") && IsNullOrWhiteSpace(Some(""))
  {
  }

  /** A string with a character that is not white space is not blank. */
  lemma NotBlankWitness(s: string, i: nat)
    requires i < |s| && !IsWhiteSpace(s[i])
    ensures !IsBlank(s) && !IsNullOrWhiteSpace(Some(s))
  {
  }

  /**
   `string.Length`: the number of UTF-16 code units, so a character outside
   the Basic Multilingual Plane (a surrogate pair) counts twice.
   */
  function Utf16Length(s: string): (n: nat)
    ensures |s| <= n <= 2 * |s|
  {
    if |s| == 0 then 0
    else Utf16Length(s[..|s| - 1]) + (if s[|s| - 1] as int >= 0x1_0000 then 2 else 1)
  }

  /** Within the Basic Multilingual Plane the length is the number of characters. */
  lemma {:induction false} Utf16LengthBmp(s: string)
    requires forall i | 0 <= i < |s| :: (s[i] as int) < 0x1_0000
    ensures Utf16Length(s) == |s|
  {
    if |s| > 0 {
      Utf16LengthBmp(s[..|s| - 1]);
    }
  }

  /** Outside it every character is a surrogate pair. */
  lemma {:induction false} Utf16LengthAstral(s: string)
    requires forall i | 0 <= i < |s| :: (s[i] as int) >= 0x1_0000
    ensures Utf16Length(s) == 2 * |s|
  {
    if |s| > 0 {
      Utf16LengthAstral(s[..|s| - 1]);
    }
  }

  // ---------------------------------------------------------------------
  // Decimal rendering of integers, as `$"{productId}"` produces it.
  // ---------------------------------------------------------------------

  predicate IsDigit(c: char) {
    '0' <= c <= '9'
  }

  function DigitChar(d: nat): (c: char)
    requires d < 10
    ensures IsDigit(c) && c as int - '0' as int == d
  {
    ('0' as int + d) as char
  }

  /** The digits of `n`, most significant first, without leading zeros. */
  function NatDigits(n: nat): (s: string)
    ensures |s| > 0 && forall i | 0 <= i < |s| :: IsDigit(s[i])
    ensures s[0] == '0' ==> n == 0
  {
    if n < 10 then [DigitChar(n)] else NatDigits(n / 10) + [DigitChar(n % 10)]
  }

  /** The decimal rendering of an `int`, with a leading `-` when negative. */
  function DecimalString(n: int): (s: string)
    ensures |s| > 0
    ensures s[0] == '-' <==> n < 0
  {
    if n < 0 then "-" + NatDigits(-n) else NatDigits(n)
  }

  /** Reads back a string of digits. */
  function ParseDigits(s: string): nat
    requires forall i | 0 <= i < |s| :: IsDigit(s[i])
  {
    if |s| == 0 then 0
    else
      assert IsDigit(s[|s| - 1]);
      ParseDigits(s[..|s| - 1]) * 10 + (s[|s| - 1] as int - '0' as int)
  }

  /** Reads back the rendering of an `int`. */
  function ParseDecimal(s: string): int
    requires |s| > 0
    requires s[0] == '-' ==> |s| > 1
    requires forall i | (if s[0] == '-' then 1 else 0) <= i < |s| :: IsDigit(s[i])
  {
    if s[0] == '-' then -(ParseDigits(s[1..]) as int) else ParseDigits(s)
  }

  lemma {:induction false} ParseNatDigits(n: nat)
    ensures ParseDigits(NatDigits(n)) == n
  {
    if n >= 10 {
      var s := NatDigits(n);
      assert s[..|s| - 1] == NatDigits(n / 10);
      ParseNatDigits(n / 10);
    }
  }

  /** Parsing inverts rendering, so the rendering determines the integer. */
  lemma DecimalRoundTrip(n: int)
    ensures var s := DecimalString(n);
      && (s[0] == '-' ==> |s| > 1)
      && (forall i | (if s[0] == '-' then 1 else 0) <= i < |s| :: IsDigit(s[i]))
      && ParseDecimal(s) == n
  {
    var s := DecimalString(n);
    if n < 0 {
      assert s[1..] == NatDigits(-n);
      ParseNatDigits(-n);
    } else {
      ParseNatDigits(n);
    }
  }

  lemma DecimalStringInjective(a: int, b: int)
    requires DecimalString(a) == DecimalString(b)
    ensures a == b
  {
    DecimalRoundTrip(a);
    DecimalRoundTrip(b);
  }
}
