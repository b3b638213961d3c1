/**
 * The integral value handling shared by the typed inputs: C#'s fixed-width
 * integer types, `TryParse` in its decimal and hexadecimal forms, the
 * unit-suffix and hex-prefix helpers of `Input<T>`, unchecked narrowing casts,
 * and the decimal and lowercase-hex renderings used when flags are written out.
 */
module Numeric {
  import opened Wrappers
  import opened Strings

  newtype int8 = x: int | -0x80 <= x < 0x80
  newtype uint8 = x: int | 0 <= x < 0x100
  newtype int32 = x: int | -0x8000_0000 <= x < 0x8000_0000
  newtype uint32 = x: int | 0 <= x < 0x1_0000_0000

  /** `int.MinValue`, the "no value" sentinel of 32-bit inputs. */
  const Int32MinValue: int32 := -0x8000_0000
  /** `sbyte.MinValue`, the "no value" sentinel of 8-bit signed inputs. */
  const SByteMinValue: int8 := -0x80

  /** The C# integral types a token can be parsed into. */
  datatype IntKind = SByte | Byte | Int32 | UInt32

  predicate Signed(k: IntKind) {
    k == SByte || k == Int32
  }

  /** 2 to the number of bits of the type. */
  function Modulus(k: IntKind): nat {
    if k == SByte || k == Byte then 0x100 else 0x1_0000_0000
  }

  function MinOf(k: IntKind): int {
    if Signed(k) then -(Modulus(k) / 2) else 0
  }

  function MaxOf(k: IntKind): int {
    MinOf(k) + Modulus(k) - 1
  }

  predicate InRange(x: int, k: IntKind) {
    MinOf(k) <= x <= MaxOf(k)
  }

  /**
   * An unchecked C# cast such as `(uint)(value * factor)`: the low bits of x
   * read as the target type. The result is the one value of the type that is
   * congruent to x modulo 2^bits, so values already in range are kept.
   */
  function Truncate(x: int, k: IntKind): (r: int)
    ensures InRange(r, k)
    ensures (x - r) % Modulus(k) == 0
    ensures InRange(x, k) ==> r == x
  {
    (x - MinOf(k)) % Modulus(k) + MinOf(k)
  }

  // ---------------------------------------------------------------- decimal

  predicate IsDigit(c: char) {
    '0' <= c <= '9'
  }

  predicate AllDigits(s: string) {
    forall i | 0 <= i < |s| :: IsDigit(s[i])
  }

  /** The value of a run of decimal digits, most significant first. */
  function DigitsValue(s: string): nat
    requires AllDigits(s)
  {
    if |s| == 0 then 0 else DigitsValue(s[..|s| - 1]) * 10 + (s[|s| - 1] as int - '0' as int)
  }

  /** Decimal integer text: an optional sign followed by one or more digits. */
  function ParseDecimal(s: string): (r: Option<int>)
    ensures r.Some? <==> |s| > 0 && (AllDigits(s) || (|s| > 1 && (s[0] == '-' || s[0] == '+') && AllDigits(s[1..])))
    ensures r.Some? && r.value < 0 ==> s[0] == '-'
  {
    if |s| > 0 && (s[0] == '-' || s[0] == '+') then
      if |s| > 1 && AllDigits(s[1..]) then
        var m: int := DigitsValue(s[1..]);
        Some(if s[0] == '-' then -m else m)
      else None
    else if |s| > 0 && AllDigits(s) then Some(DigitsValue(s))
    else None
  }

  /** `T.TryParse(s, out value)` for the integral type k: decimal text whose value fits the type. */
  function TryParse(s: string, k: IntKind): (r: Option<int>)
    ensures r.Some? ==> InRange(r.value, k) && ParseDecimal(s) == r
    ensures ParseDecimal(s).Some? && InRange(ParseDecimal(s).value, k) ==> r.Some?
  {
    match ParseDecimal(s)
    case Some(v) => if InRange(v, k) then Some(v) else None
    case None => None
  }

  // ------------------------------------------------------------ hexadecimal

  predicate IsHexDigit(c: char) {
    '0' <= c <= '9' || 'a' <= c <= 'f' || 'A' <= c <= 'F'
  }

  predicate AllHexDigits(s: string) {
    forall i | 0 <= i < |s| :: IsHexDigit(s[i])
  }

  function HexDigitValue(c: char): nat
    requires IsHexDigit(c)
  {
    if '0' <= c <= '9' then c as int - '0' as int
    else if 'a' <= c <= 'f' then c as int - 'a' as int + 10
    else c as int - 'A' as int + 10
  }

  /** The value of a run of hex digits, most significant first. */
  function HexValue(s: string): nat
    requires AllHexDigits(s)
  {
    if |s| == 0 then 0 else HexValue(s[..|s| - 1]) * 16 + HexDigitValue(s[|s| - 1])
  }

  /**
   * `T.TryParse(s, NumberStyles.AllowHexSpecifier, ...)`: hex digits only, no
   * sign or prefix, and the bit pattern must fit the type; for a signed type the
   * pattern is read in two's complement (`FF` is -1 as an sbyte).
   */
  function TryParseHex(s: string, k: IntKind): (r: Option<int>)
    ensures r.Some? ==> InRange(r.value, k)
    ensures r.Some? <==> |s| > 0 && AllHexDigits(s) && HexValue(s) < Modulus(k)
    ensures r.Some? ==> (r.value - HexValue(s)) % Modulus(k) == 0
    ensures r.Some? && !Signed(k) ==> r.value == HexValue(s)
  {
    if |s| > 0 && AllHexDigits(s) && HexValue(s) < Modulus(k) then
      var n := HexValue(s);
      Some(if n > MaxOf(k) then n - Modulus(k) else n)
    else None
  }

  // ----------------------------------------------- the Input<T> value helpers

  /**
   * `Input<T>.ExtractFactorFromValue`: strips surrounding quotes and one kind of
   * unit suffix, returning the remaining text and the multiplier the suffix
   * stands for (1 when there is none).
   */
  function ExtractFactorFromValue(value: string): (r: (string, int))
    ensures 1 <= r.1 <= 0x4000_0000
    ensures var v := TrimChar(value, '"');
            if v != [] && UnitFactor(v[|v| - 1]) > 0
            then r == (TrimEnd(v, Only(v[|v| - 1])), UnitFactor(v[|v| - 1]))
            else r == (v, 1)
  {
    var v := TrimChar(value, '"');
    if |v| == 0 then (v, 1)
    else
      var last := v[|v| - 1];
      var factor := UnitFactor(last);
      if factor == 0 then (v, 1) else (TrimEnd(v, Only(last)), factor)
  }

  /**
   * The multiplier a unit suffix stands for: characters, words, double and
   * quad words, kilo-, mega- and gigabytes; 0 for a character that is no unit.
   */
  function UnitFactor(u: char): (f: int)
    ensures 0 <= f <= 0x4000_0000
    ensures f > 0 ==> !IsDigit(u) && u != '"' && u != '-'
  {
    if u == 'c' then 1
    else if u == 'w' then 2
    else if u == 'd' then 4
    else if u == 'q' then 8
    else if u == 'k' then 1024
    else if u == 'M' then 1024 * 1024
    else if u == 'G' then 1024 * 1024 * 1024
    else 0
  }

  /** `Input<T>.RemoveHexIdentifier`: drops a leading `0x` or `0X` from text longer than two characters. */
  function RemoveHexIdentifier(value: string): (r: string)
    ensures r == value || (|value| > 2 && r == value[2..])
  {
    if |value| <= 2 || value[0] != '0' || (value[1] != 'x' && value[1] != 'X') then value
    else value[2..]
  }

  /**
   * The three stages every numeric input tries on a value token, first success
   * winning: plain decimal; then decimal with a unit suffix, scaled by its
   * factor; then hex (after the suffix and any `0x` are removed), scaled by the
   * same factor. A scaled value is narrowed by an unchecked cast.
   */
  function ParseStaged(s: string, k: IntKind): (r: Option<int>)
    ensures r.Some? ==> InRange(r.value, k)
    ensures TryParse(s, k).Some? ==> r == TryParse(s, k)
    ensures r.None? ==> TryParse(s, k).None?
    ensures TryParse(s, k).None? ==>
              var (b, factor) := ExtractFactorFromValue(s);
              && (TryParse(b, k).Some? ==> r == Some(Truncate(TryParse(b, k).value * factor, k)))
              && (TryParse(b, k).None? && TryParseHex(RemoveHexIdentifier(b), k).Some? ==>
                    r == Some(Truncate(TryParseHex(RemoveHexIdentifier(b), k).value * factor, k)))
              && (TryParse(b, k).None? && TryParseHex(RemoveHexIdentifier(b), k).None? ==> r.None?)
  {
    match TryParse(s, k)
    case Some(v) => Some(v)
    case None =>
      var (baseVal, factor) := ExtractFactorFromValue(s);
      match TryParse(baseVal, k)
      case Some(v) => Some(Truncate(v * factor, k))
      case None =>
        match TryParseHex(RemoveHexIdentifier(baseVal), k)
        case Some(v) => Some(Truncate(v * factor, k))
        case None => None
  }

  // -------------------------------------------------------------- rendering

  function DigitChar(d: nat): (c: char)
    requires d < 10
    ensures IsDigit(c) && c as int - '0' as int == d
  {
    ('0' as int + d) as char
  }

  /** The decimal digits of n, without leading zeros. */
  function NatString(n: nat): (s: string)
    ensures |s| > 0 && AllDigits(s)
  {
    if n < 10 then [DigitChar(n)] else NatString(n / 10) + [DigitChar(n % 10)]
  }

  /** `n.ToString()` for an integer, with a leading `-` when negative. */
  function DecimalString(n: int): (s: string)
    ensures |s| > 0
    ensures ' ' !in s && '"' !in s && '=' !in s
    ensures (s[0] == '-') == (n < 0) && IsDigit(s[|s| - 1])
    ensures AllDigits(s[1..])
  {
    if n < 0 then "-" + NatString(-n) else NatString(n)
  }

  lemma {:induction false} NatStringValue(n: nat)
    ensures DigitsValue(NatString(n)) == n
  {
    if n >= 10 {
      var s := NatString(n);
      NatStringValue(n / 10);
      assert s[..|s| - 1] == NatString(n / 10);
    }
  }

  /** Rendering an integer in decimal and parsing it back gives the integer. */
  lemma {:induction false} DecimalRoundTrip(n: int)
    ensures ParseDecimal(DecimalString(n)) == Some(n)
  {
    var s := DecimalString(n);
    if n < 0 {
      NatStringValue(-n);
      assert s[1..] == NatString(-n);
      assert s[0] == '-';
    } else {
      NatStringValue(n);
      assert s == NatString(n);
      assert IsDigit(s[0]);
    }
  }

  /**
   * A value followed by a unit suffix reads as the value times the unit, cut
   * to the type's width: `4k` is 4096, and `3G` as a uint is 3 * 2^30 modulo 2^32.
   */
  lemma SuffixedDecimalParses(n: int, u: char, k: IntKind)
    requires InRange(n, k) && UnitFactor(u) > 0
    ensures ParseStaged(DecimalString(n) + [u], k) == Some(Truncate(n * UnitFactor(u), k))
  {
    var d := DecimalString(n);
    var s := d + [u];
    assert s[|s| - 1] == u && !IsDigit(s[|s| - 1]);
    assert ParseDecimal(s).None? by {
      assert !AllDigits(s);
      assert |s| > 1 ==> s[1..][|s| - 2] == u;
      assert !AllDigits(s[1..]);
    }
    assert s[0] == d[0];
    TrimBothPadded([], s, [], Only('"'));
    assert [] + s + [] == s;
    assert TrimChar(s, '"') == s;
    assert s[..|s| - 1] == d;
    assert TrimEnd(s, Only(u)) == d;
    DecimalRoundTrip(n);
  }

  /** Every value of a type survives rendering and the staged parse: the plain decimal stage accepts it. */
  lemma StagedRoundTrip(n: int, k: IntKind)
    requires InRange(n, k)
    ensures ParseStaged(DecimalString(n), k) == Some(n)
  {
    DecimalRoundTrip(n);
  }

  function LowerHexChar(d: nat): (c: char)
    requires d < 16
    ensures IsHexDigit(c) && HexDigitValue(c) == d
    ensures '0' <= c <= '9' || 'a' <= c <= 'f'
  {
    if d < 10 then ('0' as int + d) as char else ('a' as int + d - 10) as char
  }

  /** The `:x` format: lowercase hex digits without leading zeros. */
  function LowerHex(n: nat): (s: string)
    ensures |s| > 0 && AllHexDigits(s)
    ensures forall i | 0 <= i < |s| :: '0' <= s[i] <= '9' || 'a' <= s[i] <= 'f'
  {
    if n < 16 then [LowerHexChar(n)] else LowerHex(n / 16) + [LowerHexChar(n % 16)]
  }

  /** The lowercase hex rendering reads back as the same number. */
  lemma {:induction false} LowerHexRoundTrip(n: nat)
    ensures HexValue(LowerHex(n)) == n
  {
    if n >= 16 {
      var s := LowerHex(n);
      LowerHexRoundTrip(n / 16);
      assert s[..|s| - 1] == LowerHex(n / 16);
    }
  }

  /** `bool.TryParse`: `true` or `false` in any letter case, with white space and NUL around it ignored. */
  function TryParseBool(s: string): (r: Option<bool>)
    ensures r.Some? ==> |TrimBoth(s, WhiteSpaceOrNull)| == (if r.value then 4 else 5)
    ensures r.Some? ==> LowerAscii(TrimBoth(s, WhiteSpaceOrNull)) == (if r.value then "true" else "false")
    ensures r.None? ==> LowerAscii(TrimBoth(s, WhiteSpaceOrNull)) != "true"
                        && LowerAscii(TrimBoth(s, WhiteSpaceOrNull)) != "false"
  {
    var t := LowerAscii(TrimBoth(s, WhiteSpaceOrNull));
    if t == "true" then Some(true)
    else if t == "false" then Some(false)
    else None
  }

  /** w spells the lowercase ASCII word lit, each letter in either case. */
  predicate SpelledAs(w: string, lit: string) {
    && |w| == |lit|
    && forall i | 0 <= i < |w| :: w[i] == lit[i] || w[i] as int == lit[i] as int - 32
  }

  /** A spelling of a lowercase word in mixed case lowers to the word, and its letters are neither white space nor NUL. */
  lemma {:induction false} SpelledLowers(w: string, lit: string)
    requires forall i | 0 <= i < |lit| :: 'a' <= lit[i] <= 'z'
    requires SpelledAs(w, lit)
    ensures LowerAscii(w) == lit
    ensures forall i | 0 <= i < |w| :: !Strips(WhiteSpaceOrNull, w[i])
  {
    forall i | 0 <= i < |w|
      ensures LowerAscii(w)[i] == lit[i] && !Strips(WhiteSpaceOrNull, w[i])
    {
      assert 'a' <= lit[i] <= 'z';
    }
  }

  /**
   * `true` and `false` in any mix of letter cases, with any white space or
   * NUL around them, read as that literal.
   */
  lemma BoolLiteralParses(left: string, w: string, right: string, b: bool)
    requires forall i | 0 <= i < |left| :: Strips(WhiteSpaceOrNull, left[i])
    requires forall i | 0 <= i < |right| :: Strips(WhiteSpaceOrNull, right[i])
    requires SpelledAs(w, if b then "true" else "false")
    ensures TryParseBool(left + w + right) == Some(b)
  {
    var lit := if b then "true" else "false";
    SpelledLowers(w, lit);
    TrimBothPadded(left, w, right, WhiteSpaceOrNull);
  }

  /** What `bool.ToString()` writes, `True` or `False`, reads back as the same value. */
  lemma BoolStringRoundTrip(b: bool)
    ensures TryParseBool(if b then "True" else "False") == Some(b)
  {
    var w := if b then "True" else "False";
    BoolLiteralParses([], w, [], b);
    assert [] + w + [] == w;
  }

  /** The text with each ASCII capital replaced by its small letter. */
  function LowerAscii(s: string): (r: string)
    ensures |r| == |s|
    ensures forall i | 0 <= i < |s| :: r[i] == (if 'A' <= s[i] <= 'Z' then (s[i] as int + 32) as char else s[i])
  {
    if |s| == 0 then ""
    else [if 'A' <= s[0] <= 'Z' then (s[0] as int + 32) as char else s[0]] + LowerAscii(s[1..])
  }
}
