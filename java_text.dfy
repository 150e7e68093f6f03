/**
  The Java library behaviour on text and numbers that the core depends on:
  whitespace classes, `String.trim`, `String.isBlank`, `StringUtils.hasText`,
  `Integer.toString`, `Integer.parseInt`, `Double.parseDouble` and the
  narrowing conversions of `Number.intValue`.
  Characters are Unicode scalar values; Java's UTF-16 code units are not modelled.
*/
module JavaText {
  import opened Wrappers

  // ---------------------------------------------------------------------------
  // Whitespace

  /** `Character.isWhitespace`: Unicode space, line and paragraph separators
      other than the no-break spaces, plus U+0009..U+000D and U+001C..U+001F. */
  predicate IsWhitespace(c: char) {
    || c == ' '
    || '\t' <= c <= '\r'
    || '\U{1C}' <= c <= '\U{1F}'
    || c == '\U{1680}'
    || '\U{2000}' <= c <= '\U{2006}'
    || '\U{2008}' <= c <= '\U{200A}'
    || c == '\U{2028}' || c == '\U{2029}' || c == '\U{205F}' || c == '\U{3000}'
  }

  /** `String.isBlank`: empty, or whitespace only. */
  predicate IsBlank(s: string) {
    forall i :: 0 <= i < |s| ==> IsWhitespace(s[i])
  }

  /** U+0000 to U+0008 are removed by `trim` but are not Java whitespace. */
  lemma ControlCharsAreNotWhitespace(c: char)
    requires c <= '\U{8}'
    ensures IsTrimmed(c) && !IsWhitespace(c)
  {
  }

  /** `StringUtils.hasText`: not null and holding a non-whitespace character. */
  predicate HasText(s: Option<string>) {
    s.Some? && !IsBlank(s.value)
  }

  /** The regular-expression class `\s`, that is `[ \t\n\x0B\f\r]`. */
  predicate IsRegexSpace(c: char) {
    c == ' ' || '\t' <= c <= '\r'
  }

  /** `String.trim` removes every character up to U+0020 from both ends. */
  predicate IsTrimmed(c: char) {
    c <= ' '
  }

  function TrimStart(s: string): (r: string)
    ensures |r| <= |s| && r == s[|s| - |r|..]
    ensures r == [] || !IsTrimmed(r[0])
    ensures forall i :: 0 <= i < |s| - |r| ==> IsTrimmed(s[i])
  {
    if s != [] && IsTrimmed(s[0]) then
      var r := TrimStart(s[1..]);
      assert forall i :: 1 <= i < |s| - |r| ==> s[i] == s[1..][i - 1];
      r
    else s
  }

  function TrimEnd(s: string): (r: string)
    ensures |r| <= |s| && r == s[..|r|]
    ensures r == [] || !IsTrimmed(r[|r| - 1])
    ensures forall i :: |r| <= i < |s| ==> IsTrimmed(s[i])
  {
    if s != [] && IsTrimmed(s[|s| - 1]) then TrimEnd(s[..|s| - 1]) else s
  }

  /** `String.trim`. */
  function Trim(s: string): (r: string)
    ensures r == [] || (!IsTrimmed(r[0]) && !IsTrimmed(r[|r| - 1]))
    ensures TrimOffset(s) + |r| <= |s| && r == s[TrimOffset(s)..TrimOffset(s) + |r|]
    ensures forall i :: 0 <= i < TrimOffset(s) ==> IsTrimmed(s[i])
    ensures forall i :: TrimOffset(s) + |r| <= i < |s| ==> IsTrimmed(s[i])
  {
    TrimEnd(TrimStart(s))
  }

  /** Where the trimmed string starts in the original. */
  function TrimOffset(s: string): nat
  {
    |s| - |TrimStart(s)|
  }

  /** Trimming a string that does not start or end with a trimmed character changes nothing. */
  lemma TrimIdentity(s: string)
    requires s == [] || (!IsTrimmed(s[0]) && !IsTrimmed(s[|s| - 1]))
    ensures Trim(s) == s
  {
  }

  // ---------------------------------------------------------------------------
  // Decimal integers

  const IntMin: int := -0x8000_0000
  const IntMax: int := 0x7FFF_FFFF

  /** The range of a Java `int`. */
  predicate InIntRange(n: int) {
    IntMin <= n <= IntMax
  }

  /** An ASCII decimal digit. `Character.digit`, which `Integer.parseInt`
      uses, also accepts the other Unicode decimal digits; those are not modelled. */
  predicate IsDigit(c: char) {
    '0' <= c <= '9'
  }

  predicate AllDigits(s: string) {
    forall i :: 0 <= i < |s| ==> IsDigit(s[i])
  }

  /** The value of a string of decimal digits, most significant first. */
  function DigitsValue(s: string): nat
    requires AllDigits(s)
  {
    if s == [] then 0 else DigitsValue(s[..|s| - 1]) * 10 + (s[|s| - 1] as int - '0' as int)
  }

  /** The character of the decimal digit `d`. */
  function DigitChar(d: nat): (c: char)
    requires d < 10
    ensures IsDigit(c) && c as int - '0' as int == d
  {
    ('0' as int + d) as char
  }

  /** The decimal digits of `n`, without leading zeros. */
  function NatToString(n: nat): (r: string)
    ensures |r| >= 1 && AllDigits(r)
  {
    (if n < 10 then "" else NatToString(n / 10)) + [DigitChar(n % 10)]
  }

  lemma DigitsValueAppend(s: string, c: char)
    requires AllDigits(s) && IsDigit(c)
    ensures DigitsValue(s + [c]) == DigitsValue(s) * 10 + (c as int - '0' as int)
  {
    assert (s + [c])[..|s|] == s;
  }

  lemma {:induction false} NatToStringValue(n: nat)
    ensures DigitsValue(NatToString(n)) == n
  {
    var prefix := if n < 10 then "" else NatToString(n / 10);
    DigitsValueAppend(prefix, DigitChar(n % 10));
    if n >= 10 {
      NatToStringValue(n / 10);
    }
  }

  /** `Integer.toString` / `Long.toString`. */
  function IntToString(n: int): (r: string)
    ensures |r| >= 1 && (IsDigit(r[0]) || r[0] == '-') && IsDigit(r[|r| - 1])
  {
    if n < 0 then "-" + NatToString(-n) else NatToString(n)
  }

  /** `Integer.parseInt(s)` in radix 10 on ASCII input: an optional sign, at
      least one ASCII digit, and a value within the range of `int`; `None`
      otherwise. No whitespace is skipped. Java also reads non-ASCII Unicode
      decimal digits, which this function refuses. */
  function ParseInt(s: string): (r: Option<int>)
    ensures r.Some? ==> InIntRange(r.value)
  {
    var negative := |s| > 0 && s[0] == '-';
    var digits := if |s| > 0 && (s[0] == '-' || s[0] == '+') then s[1..] else s;
    if digits == [] || !AllDigits(digits) then None
    else
      var v: int := DigitsValue(digits);
      var n := if negative then -v else v;
      if InIntRange(n) then Some(n) else None
  }

  /** `Integer.parseInt` reads back what `Integer.toString` writes. */
  lemma ParseIntRoundTrip(n: int)
    requires InIntRange(n)
    ensures ParseInt(IntToString(n)) == Some(n)
  {
    var s := IntToString(n);
    if n < 0 {
      assert s[1..] == NatToString(-n);
      NatToStringValue(-n);
    } else {
      NatToStringValue(n);
    }
  }

  /** `Number.intValue` of a `Long`: keeps the low 32 bits (two's complement). */
  function WrapToInt(n: int): (r: int)
    ensures InIntRange(r)
    ensures InIntRange(n) ==> r == n
    ensures (n - r) % 0x1_0000_0000 == 0
  {
    (n - IntMin) % 0x1_0000_0000 + IntMin
  }

  /** `Number.intValue` of a `Double`: truncation toward zero, saturated at
      the bounds of `int`. */
  function TruncateToInt(x: real): (r: int)
    ensures InIntRange(r)
    ensures IntMin as real <= x <= IntMax as real ==>
              (0.0 <= x ==> r as real <= x < r as real + 1.0) &&
              (x < 0.0 ==> r as real - 1.0 < x <= r as real)
  {
    var t := if x >= 0.0 then x.Floor else -((-x).Floor);
    if t < IntMin then IntMin else if t > IntMax then IntMax else t
  }

  // ---------------------------------------------------------------------------
  // Decimal floating point

  function Pow10(e: nat): (r: nat)
    ensures r >= 1
  {
    if e == 0 then 1 else 10 * Pow10(e - 1)
  }

  /** Ten to the power `e`, for a signed exponent. */
  function Scale(e: int): (r: real)
    ensures r > 0.0
  {
    if e >= 0 then Pow10(e) as real else 1.0 / (Pow10(-e) as real)
  }

  /** The first index of `a` or `b` in `s`, or `|s|` when neither occurs. */
  function FirstIndex(s: string, a: char, b: char): (i: nat)
    ensures i <= |s|
    ensures forall j :: 0 <= j < i ==> s[j] != a && s[j] != b
    ensures i < |s| ==> s[i] == a || s[i] == b
  {
    if s == [] || s[0] == a || s[0] == b then 0 else 1 + FirstIndex(s[1..], a, b)
  }

  /** Digits with at most one decimal point and at least one digit. */
  function ParseMantissa(m: string): Option<real> {
    var dot := FirstIndex(m, '.', '.');
    var whole := m[..dot];
    var fraction := if dot < |m| then m[dot + 1..] else "";
    if AllDigits(whole) && AllDigits(fraction) && |whole| + |fraction| > 0 then
      Some(DigitsValue(whole) as real + FractionValue(fraction))
    else None
  }

  /** The value of the digits after a decimal point. */
  function FractionValue(fraction: string): (r: real)
    requires AllDigits(fraction)
    ensures fraction == [] ==> r == 0.0
  {
    DigitsValue(fraction) as real / Pow10(|fraction|) as real
  }

  /** An optionally signed exponent with at least one digit. */
  function ParseExponent(x: string): Option<int> {
    var digits := if |x| > 0 && (x[0] == '+' || x[0] == '-') then x[1..] else x;
    if digits != [] && AllDigits(digits) then
      var v: int := DigitsValue(digits);
      Some(if x[0] == '-' then -v else v)
    else None
  }

  /** `Double.parseDouble(s)` for decimal notation; `None` where it throws
      `NumberFormatException`. The string is trimmed, then read as an optional
      sign, a mantissa, an optional exponent and an optional `f`/`F`/`d`/`D`
      suffix. The value is exact (no rounding to a binary double). */
  function ParseDouble(s: string): Option<real> {
    ParseSignedDouble(Trim(s))
  }

  /** A floating-point literal with an optional leading sign. */
  function ParseSignedDouble(t: string): Option<real> {
    var negative := |t| > 0 && t[0] == '-';
    var unsigned := if |t| > 0 && (t[0] == '-' || t[0] == '+') then t[1..] else t;
    var magnitude := ParseUnsignedDouble(unsigned);
    if magnitude.None? then None
    else Some(if negative then -magnitude.value else magnitude.value)
  }

  /** The `float` or `double` suffix a Java floating-point literal may end with. */
  predicate IsTypeSuffix(c: char) {
    c == 'f' || c == 'F' || c == 'd' || c == 'D'
  }

  /** The unsigned part of a decimal floating-point literal. */
  function ParseUnsignedDouble(u: string): Option<real> {
    ParseLiteralBody(if |u| > 0 && IsTypeSuffix(u[|u| - 1]) then u[..|u| - 1] else u)
  }

  /** A mantissa and an optional exponent. */
  function ParseLiteralBody(body: string): Option<real> {
    var e := FirstIndex(body, 'e', 'E');
    var mantissa := ParseMantissa(body[..e]);
    var exponent := if e < |body| then ParseExponent(body[e + 1..]) else Some(0);
    if mantissa.None? || exponent.None? then None
    else Some(Scaled(mantissa.value, exponent.value))
  }

  /** `m` times ten to the power `e`. */
  function Scaled(m: real, e: int): (r: real)
    ensures e == 0 ==> r == m
  {
    m * Scale(e)
  }

  /** `Double.parseDouble` reads an integer written by `Integer.toString` as that integer. */
  lemma ParseDoubleOfInt(n: int)
    ensures ParseDouble(IntToString(n)) == Some(n as real)
  {
    var s := IntToString(n);
    TrimIdentity(s);
    SignedOfInt(n);
  }

  lemma SignedOfInt(n: int)
    ensures ParseSignedDouble(IntToString(n)) == Some(n as real)
  {
    var s := IntToString(n);
    var m: nat := if n < 0 then -n else n;
    var digits := NatToString(m);
    assert ParseUnsignedDouble(digits) == Some(m as real) by {
      UnsignedOfDigits(digits);
      NatToStringValue(m);
    }
    if n < 0 {
      assert s[0] == '-' && s[1..] == digits by {
        assert s == "-" + digits;
      }
      SignedOfNegative(s, m as real);
    } else {
      assert IsDigit(digits[0]);
      SignedOfUnsigned(digits, m as real);
    }
  }

  lemma SignedOfNegative(t: string, x: real)
    requires |t| > 0 && t[0] == '-' && ParseUnsignedDouble(t[1..]) == Some(x)
    ensures ParseSignedDouble(t) == Some(-x)
  {
  }

  lemma SignedOfUnsigned(t: string, x: real)
    requires |t| > 0 && IsDigit(t[0]) && ParseUnsignedDouble(t) == Some(x)
    ensures ParseSignedDouble(t) == Some(x)
  {
  }

  lemma UnsignedOfDigits(d: string)
    requires |d| > 0 && AllDigits(d)
    ensures ParseUnsignedDouble(d) == Some(DigitsValue(d) as real)
  {
    assert !IsTypeSuffix(d[|d| - 1]) by {
      assert IsDigit(d[|d| - 1]);
    }
    BodyOfDigits(d);
  }

  lemma BodyOfDigits(d: string)
    requires |d| > 0 && AllDigits(d)
    ensures ParseLiteralBody(d) == Some(DigitsValue(d) as real)
  {
    MantissaOfDigits(d);
  }

  /** A plain string of digits reads as its value, without exponent. */
  lemma MantissaOfDigits(d: string)
    requires |d| > 0 && AllDigits(d)
    ensures FirstIndex(d, 'e', 'E') == |d|
    ensures ParseMantissa(d[..|d|]) == Some(DigitsValue(d) as real)
  {
    FirstIndexAbsent(d, 'e', 'E');
    FirstIndexAbsent(d, '.', '.');
    assert d[..|d|] == d;
  }

  lemma {:induction false} FirstIndexAbsent(s: string, a: char, b: char)
    requires forall j :: 0 <= j < |s| ==> s[j] != a && s[j] != b
    ensures FirstIndex(s, a, b) == |s|
  {
    if s != [] {
      FirstIndexAbsent(s[1..], a, b);
    }
  }
}
