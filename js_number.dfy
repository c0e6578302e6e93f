/**
 * JavaScript's string-to-number conversions, on exact values: `Number(s)`
 * (the whole string must be a numeric literal), `parseFloat(s)` (the longest
 * decimal prefix) and the `/[\d.]+/` match the parsers use. Numbers are
 * exact reals plus NaN and the two infinities; binary64 rounding is not
 * modelled.
 */
module JsNumber {
  import opened Wrappers
  import opened JsString

  datatype Number = NaN | Finite(value: real) | Infinite(negative: bool)

  function Pow10(n: nat): (p: nat)
    ensures p >= 1
  {
    if n == 0 then 1 else 10 * Pow10(n - 1)
  }

  /** `10^e` for a signed exponent. */
  function Scale(e: int): real {
    if e >= 0 then Pow10(e) as real else 1.0 / Pow10(-e) as real
  }

  // ---------------------------------------------------------------------------
  // Decimal literals
  // ---------------------------------------------------------------------------

  /** A decimal literal read from the front of a string: its value and how many characters it took. */
  datatype Scan = Scan(value: real, length: nat)

  /**
   * The exponent part `e[+|-]digits` at the front of `s`: its length and
   * value; an `e` not followed by digits is not part of the literal.
   */
  function ScanExponent(s: string): (r: (nat, int))
    ensures r.0 <= |s|
    ensures r.0 == 0 ==> r.1 == 0
  {
    if |s| > 0 && (s[0] == 'e' || s[0] == 'E') then
      var signed := |s| > 1 && (s[1] == '+' || s[1] == '-');
      var rest := if signed then s[2..] else s[1..];
      var digits := LeadingDigits(rest);
      if digits == "" then (0, 0)
      else
        var e := DecimalValue(digits);
        ((if signed then 2 else 1) + |digits|, if signed && s[1] == '-' then 0 - e else e)
    else (0, 0)
  }

  /**
   * The longest unsigned StrDecimalLiteral (without `Infinity`) at the front
   * of `s`: `digits[.digits][exponent]` or `.digits[exponent]`.
   */
  function ScanUnsignedDecimal(s: string): (r: Option<Scan>)
    ensures r.Some? ==> 0 < r.value.length <= |s|
    ensures r.Some? <==> (|s| > 0 && IsDigit(s[0])) || (|s| > 1 && s[0] == '.' && IsDigit(s[1]))
  {
    var intDigits := LeadingDigits(s);
    var afterInt := s[|intDigits|..];
    var hasDot := |afterInt| > 0 && afterInt[0] == '.';
    var fracDigits := if hasDot then LeadingDigits(afterInt[1..]) else "";
    if intDigits == "" && fracDigits == "" then None
    else
      var mantissaLength := |intDigits| + (if hasDot then 1 + |fracDigits| else 0);
      var mantissa := DecimalValue(intDigits + fracDigits) as real / Pow10(|fracDigits|) as real;
      var exponent := ScanExponent(s[mantissaLength..]);
      Some(Scan(mantissa * Scale(exponent.1), mantissaLength + exponent.0))
  }

  // ---------------------------------------------------------------------------
  // Non-decimal integer literals (`Number` only)
  // ---------------------------------------------------------------------------

  /** The value of `c` as a digit of base `radix` (2, 8 or 16). */
  function RadixDigit(c: char, radix: nat): Option<nat> {
    if IsHexDigit(c) && HexDigitValue(c) < radix then Some(HexDigitValue(c)) else None
  }

  predicate AllRadixDigits(s: string, radix: nat) {
    forall i :: 0 <= i < |s| ==> RadixDigit(s[i], radix).Some?
  }

  function RadixValue(s: string, radix: nat): nat
    requires AllRadixDigits(s, radix)
  {
    if |s| == 0 then 0 else RadixValue(s[..|s| - 1], radix) * radix + RadixDigit(s[|s| - 1], radix).value
  }

  /** The base a `0b`, `0o` or `0x` prefix (either case) selects. */
  function RadixOfPrefix(t: string): Option<nat> {
    if |t| < 2 || t[0] != '0' then None
    else if t[1] == 'x' || t[1] == 'X' then Some(16)
    else if t[1] == 'o' || t[1] == 'O' then Some(8)
    else if t[1] == 'b' || t[1] == 'B' then Some(2)
    else None
  }

  // ---------------------------------------------------------------------------
  // Number(s) and parseFloat(s)
  // ---------------------------------------------------------------------------

  /** The text after one leading sign character. */
  function Unsigned(t: string): (u: string)
    ensures |u| <= |t|
  {
    if |t| > 0 && (t[0] == '+' || t[0] == '-') then t[1..] else t
  }

  /** Applies a leading minus sign to an unsigned reading. */
  function Signed(negative: bool, n: Number): (r: Number)
    ensures r.NaN? <==> n.NaN?
    ensures !negative ==> r == n
  {
    if !negative then n
    else match n
      case Finite(v) => Finite(-v)
      case Infinite(neg) => Infinite(!neg)
      case NaN => NaN
  }

  /** The unsigned StrDecimalLiteral that spans the whole of `u`, or NaN. */
  function WholeLiteral(u: string): Number {
    if u == "Infinity" then Infinite(false)
    else
      match ScanUnsignedDecimal(u)
      case Some(sc) => if sc.length == |u| then Finite(sc.value) else NaN
      case None => NaN
  }

  /** The unsigned StrDecimalLiteral at the front of `u`, or NaN. */
  function PrefixLiteral(u: string): Number {
    if StartsWith(u, "Infinity") then Infinite(false)
    else
      match ScanUnsignedDecimal(u)
      case Some(sc) => Finite(sc.value)
      case None => NaN
  }

  /**
   * `Number(s)` for a string: surrounding whitespace is ignored, an empty
   * string is 0, and otherwise the whole remaining text must be a signed
   * decimal literal, a signed `Infinity`, or an unsigned `0b`/`0o`/`0x`
   * integer; anything else is NaN.
   */
  function NumberOf(s: string): Number {
    var t := Trim(s);
    if t == "" then Finite(0.0)
    else if RadixOfPrefix(t).Some? then
      var digits := t[2..];
      var radix := RadixOfPrefix(t).value;
      if digits != "" && AllRadixDigits(digits, radix) then Finite(RadixValue(digits, radix) as real) else NaN
    else Signed(t[0] == '-', WholeLiteral(Unsigned(t)))
  }

  /**
   * `parseFloat(s)`: leading whitespace is skipped, one sign is read, then
   * `Infinity` or the longest decimal literal; the rest of the text is
   * ignored, and no literal at all gives NaN.
   */
  function ParseFloat(s: string): Number {
    var t := TrimStart(s);
    Signed(|t| > 0 && t[0] == '-', PrefixLiteral(Unsigned(t)))
  }

  /** A literal that spans a whole text is also the longest literal at its front. */
  lemma WholeIsPrefix(u: string)
    requires !WholeLiteral(u).NaN?
    ensures PrefixLiteral(u) == WholeLiteral(u)
  {
    if u != "Infinity" {
      assert u[0] != 'I';
    }
  }

  /** `trim` leaves nothing for `parseFloat`'s leading-whitespace skip to remove. */
  lemma TrimStartOfTrim(s: string)
    requires Trim(s) != ""
    ensures TrimStart(Trim(s)) == Trim(s)
  {
    var t := Trim(s);
    assert t == TrimStart(s)[..|t|];
    assert !IsWhitespace(t[0]);
  }

  /** Where `Number` accepts a non-empty text as finite, `parseFloat` reads a finite value from it too. */
  lemma ParseFloatOfFiniteNumber(s: string)
    requires Trim(s) != "" && NumberOf(s).Finite?
    ensures ParseFloat(Trim(s)).Finite?
    ensures RadixOfPrefix(Trim(s)).None? ==> ParseFloat(Trim(s)) == NumberOf(s)
  {
    var t := Trim(s);
    TrimStartOfTrim(s);
    if RadixOfPrefix(t).Some? {
      assert Unsigned(t) == t;
      assert !StartsWith(t, "Infinity") by { assert t[0] != 'I'; }
      assert ScanUnsignedDecimal(t).Some?;
    } else {
      WholeIsPrefix(Unsigned(t));
    }
  }

  /** A rendered natural number is a decimal literal that spans the whole text. */
  lemma ScanOfDigits(n: nat)
    ensures ScanUnsignedDecimal(NatToString(n)) == Some(Scan(n as real, |NatToString(n)|))
  {
    var digits := NatToString(n);
    assert LeadingDigits(digits) == digits;
    assert digits[|digits|..] == "";
    assert digits + "" == digits;
    assert ScanExponent("") == (0, 0);
    DecimalValueOfNatToString(n);
  }

  /** The sign and digits of a rendered integer, as `Number` and `parseFloat` split them. */
  lemma IntToStringParts(i: int)
    ensures var s := IntToString(i);
      && Trim(s) == s && TrimStart(s) == s && RadixOfPrefix(s).None?
      && (s[0] == '-' <==> i < 0)
      && Unsigned(s) == NatToString(if i < 0 then -i else i)
  {
    var s := IntToString(i);
    assert !IsWhitespace(s[0]) && !IsWhitespace(s[|s| - 1]);
    TrimOfTrimmed(s);
  }

  /** `Number` reads back the decimal rendering of an integer. */
  lemma NumberOfIntToString(i: int)
    ensures NumberOf(IntToString(i)) == Finite(i as real)
  {
    var n: nat := if i < 0 then -i else i;
    IntToStringParts(i);
    ScanOfDigits(n);
    assert NatToString(n) != "Infinity" by { assert NatToString(n)[0] != 'I'; }
  }

  /** `parseFloat` reads back the decimal rendering of an integer. */
  lemma ParseFloatOfIntToString(i: int)
    ensures ParseFloat(IntToString(i)) == Finite(i as real)
  {
    NumberOfIntToString(i);
    IntToStringParts(i);
    ParseFloatOfFiniteNumber(IntToString(i));
  }

  // ---------------------------------------------------------------------------
  // The first match of /[\d.]+/
  // ---------------------------------------------------------------------------

  predicate IsDigitOrDot(c: char) {
    IsDigit(c) || c == '.'
  }

  /** The longest run of digits and dots at the front of `s`. */
  function LeadingDigitDotRun(s: string): (d: string)
    ensures |d| <= |s| && d == s[..|d|]
    ensures forall i :: 0 <= i < |d| ==> IsDigitOrDot(d[i])
    ensures |d| == |s| || !IsDigitOrDot(s[|d|])
  {
    if |s| > 0 && IsDigitOrDot(s[0]) then
      var rest := LeadingDigitDotRun(s[1..]);
      assert [s[0]] + rest == s[..|rest| + 1];
      [s[0]] + rest
    else ""
  }

  /**
   * `s.match(/[\d.]+/)`: the first maximal run of ASCII digits and dots, or
   * `None` when `s` has neither.
   */
  function FirstDigitDotRun(s: string): (r: Option<string>)
    ensures r.None? <==> forall i :: 0 <= i < |s| ==> !IsDigitOrDot(s[i])
    ensures r.Some? ==> r.value != "" && forall i :: 0 <= i < |r.value| ==> IsDigitOrDot(r.value[i])
  {
    if |s| == 0 then None
    else if IsDigitOrDot(s[0]) then Some(LeadingDigitDotRun(s))
    else
      var r := FirstDigitDotRun(s[1..]);
      assert forall i :: 1 <= i < |s| ==> s[i] == s[1..][i - 1];
      r
  }

  /** The run `/[\d.]+/` finds in a text made only of dots is that whole text. */
  lemma FirstRunOfDots(s: string)
    requires s != "" && forall i :: 0 <= i < |s| ==> s[i] == '.'
    ensures FirstDigitDotRun(s) == Some(s)
  {
    assert LeadingDigitDotRun(s) == s;
  }

  /** A text made only of dots is not a number. */
  lemma DotsAreNotANumber(s: string)
    requires s != "" && forall i :: 0 <= i < |s| ==> s[i] == '.'
    ensures ParseFloat(s).NaN?
  {
    assert TrimStart(s) == s by { assert !IsWhitespace(s[0]); }
    assert !StartsWith(s, "Infinity") by { assert s[0] != 'I'; }
    assert !IsDigit(s[0]);
    if |s| > 1 { assert !IsDigit(s[1]); }
  }
}
