/**
 * The JavaScript built-ins the wizard applies to its text fields:
 * truthiness of a string, String.prototype.trim, parseInt (no radix
 * argument) and parseFloat, as ECMAScript defines them.
 */
module JsText {
  import opened Wrappers

  /** ECMAScript WhiteSpace and LineTerminator code points: what trim strips
      and what parseInt and parseFloat skip before the number. */
  predicate IsWhitespace(c: char) {
    || c == '\t' || c == '\n' || c == '\U{000B}' || c == '\U{000C}' || c == '\r'
    || c == ' ' || c == '\U{00A0}' || c == '\U{1680}' || ('\U{2000}' <= c <= '\U{200A}')
    || c == '\U{2028}' || c == '\U{2029}' || c == '\U{202F}' || c == '\U{205F}'
    || c == '\U{3000}' || c == '\U{FEFF}'
  }

  /** `if (s)` / `!s` on a string: only the empty string is falsy, so a
      string of blanks is truthy. */
  predicate Truthy(s: string) {
    s != ""
  }

  predicate AllWhitespace(s: string) {
    forall i :: 0 <= i < |s| ==> IsWhitespace(s[i])
  }

  /** The suffix of `s` that starts at its first non-blank character. */
  function TrimStart(s: string): string {
    if s != [] && IsWhitespace(s[0]) then TrimStart(s[1..]) else s
  }

  /** TrimStart keeps a suffix that is empty or starts with a non-blank. */
  lemma {:induction false} TrimStartShape(s: string)
    ensures |TrimStart(s)| <= |s| && TrimStart(s) == s[|s| - |TrimStart(s)|..]
    ensures TrimStart(s) == [] || !IsWhitespace(TrimStart(s)[0])
  {
    if s != [] && IsWhitespace(s[0]) {
      TrimStartShape(s[1..]);
    }
  }

  /** What TrimStart drops is blank. */
  lemma {:induction false} TrimStartDropsBlanks(s: string)
    ensures |TrimStart(s)| <= |s| && AllWhitespace(s[..|s| - |TrimStart(s)|])
  {
    TrimStartShape(s);
    if s != [] && IsWhitespace(s[0]) {
      TrimStartDropsBlanks(s[1..]);
      TrimStartShape(s[1..]);
      var k := |s| - |TrimStart(s)|;
      forall i | 0 <= i < k ensures IsWhitespace(s[i]) {
        if i > 0 { assert s[i] == s[1..][..k - 1][i - 1]; }
      }
    }
  }

  /** The prefix of `s` that ends at its last non-blank character. */
  function TrimEnd(s: string): string {
    if s != [] && IsWhitespace(s[|s| - 1]) then TrimEnd(s[..|s| - 1]) else s
  }

  /** TrimEnd keeps a prefix that is empty or ends with a non-blank. */
  lemma {:induction false} TrimEndShape(s: string)
    ensures |TrimEnd(s)| <= |s| && TrimEnd(s) == s[..|TrimEnd(s)|]
    ensures TrimEnd(s) == [] || !IsWhitespace(TrimEnd(s)[|TrimEnd(s)| - 1])
  {
    if s != [] && IsWhitespace(s[|s| - 1]) {
      TrimEndShape(s[..|s| - 1]);
    }
  }

  /** What TrimEnd drops is blank. */
  lemma {:induction false} TrimEndDropsBlanks(s: string)
    ensures |TrimEnd(s)| <= |s| && AllWhitespace(s[|TrimEnd(s)|..])
  {
    TrimEndShape(s);
    if s != [] && IsWhitespace(s[|s| - 1]) {
      var init := s[..|s| - 1];
      TrimEndDropsBlanks(init);
      TrimEndShape(init);
      var k := |TrimEnd(s)|;
      forall i | k <= i < |s| ensures IsWhitespace(s[i]) {
        if i < |s| - 1 { assert s[i] == init[k..][i - k]; }
      }
    }
  }

  /** String.prototype.trim. */
  function Trim(s: string): string {
    TrimEnd(TrimStart(s))
  }

  /** A string that starts with a non-blank character keeps it under TrimEnd. */
  lemma {:induction false} TrimEndKeepsFirst(t: string)
    requires t != [] && !IsWhitespace(t[0])
    ensures TrimEnd(t) != [] && TrimEnd(t)[0] == t[0]
  {
    if IsWhitespace(t[|t| - 1]) {
      assert |t| > 1;
      TrimEndKeepsFirst(t[..|t| - 1]);
    }
  }

  lemma {:induction false} TrimStartAllBlank(s: string)
    requires AllWhitespace(s)
    ensures TrimStart(s) == []
  {
    if s != [] {
      assert AllWhitespace(s[1..]) by {
        forall i | 0 <= i < |s| - 1 ensures IsWhitespace(s[1..][i]) { assert s[1..][i] == s[i + 1]; }
      }
      TrimStartAllBlank(s[1..]);
    }
  }

  /** trim gives "" exactly for the all-blank strings. */
  lemma TrimEmptyIff(s: string)
    ensures Trim(s) == [] <==> AllWhitespace(s)
  {
    var t := TrimStart(s);
    TrimStartShape(s);
    if t != [] {
      TrimEndKeepsFirst(t);
    }
    TrimStartDropsBlanks(s);
    assert t == [] ==> s[..|s| - |t|] == s;
    if AllWhitespace(s) {
      TrimStartAllBlank(s);
    }
  }

  /** A string whose first character is not blank survives trim non-empty. */
  lemma TrimStartNonEmpty(s: string)
    requires TrimStart(s) != []
    ensures Trim(s) != []
  {
    TrimStartShape(s);
    TrimEndKeepsFirst(TrimStart(s));
  }

  /** The value of an ASCII digit or Latin letter as a digit in radix 36;
      36 when `c` is neither. */
  function DigitValue(c: char): (r: nat)
    ensures r <= 36
  {
    if '0' <= c <= '9' then (c - '0') as nat
    else if 'a' <= c <= 'z' then (c - 'a') as nat + 10
    else if 'A' <= c <= 'Z' then (c - 'A') as nat + 10
    else 36
  }

  predicate IsDigit(c: char, radix: nat) {
    DigitValue(c) < radix
  }

  /** The longest prefix of `s` made of digits of `radix`. */
  function DigitPrefix(s: string, radix: nat): string {
    if s != [] && IsDigit(s[0], radix) then [s[0]] + DigitPrefix(s[1..], radix) else []
  }

  /** DigitPrefix is a prefix, and it stops at the first non-digit. */
  lemma {:induction false} DigitPrefixShape(s: string, radix: nat)
    ensures |DigitPrefix(s, radix)| <= |s| && DigitPrefix(s, radix) == s[..|DigitPrefix(s, radix)|]
    ensures |DigitPrefix(s, radix)| == |s| || !IsDigit(s[|DigitPrefix(s, radix)|], radix)
  {
    if s != [] && IsDigit(s[0], radix) {
      DigitPrefixShape(s[1..], radix);
    }
  }

  /** The number a digit string denotes in `radix`, most significant digit first. */
  function DigitsValue(ds: string, radix: nat): nat {
    if ds == [] then 0 else DigitsValue(ds[..|ds| - 1], radix) * radix + DigitValue(ds[|ds| - 1])
  }

  /** The text after an optional leading sign. */
  function Unsigned(t: string): string {
    if t != [] && (t[0] == '-' || t[0] == '+') then t[1..] else t
  }

  predicate NegativeSign(t: string) {
    t != [] && t[0] == '-'
  }

  predicate HexPrefix(u: string) {
    |u| >= 2 && u[0] == '0' && (u[1] == 'x' || u[1] == 'X')
  }

  /**
   * parseInt(s) with no radix: skip leading blanks, read an optional sign,
   * take radix 16 after a "0x"/"0X" prefix and radix 10 otherwise, and read
   * the longest digit prefix. No digit at all is NaN, here None; -0 is 0.
   */
  function ParseInt(s: string): Option<int> {
    var t := TrimStart(s);
    var u := Unsigned(t);
    var radix := if HexPrefix(u) then 16 else 10;
    var ds := DigitPrefix(if HexPrefix(u) then u[2..] else u, radix);
    if ds == [] then None
    else
      var n := DigitsValue(ds, radix);
      Some(if NegativeSign(t) then -(n as int) else n)
  }

  /** A text that parseInt reads as a number is truthy and not blank. */
  lemma IntParsedIsTruthy(s: string)
    ensures ParseInt(s).Some? ==> Truthy(s) && Trim(s) != ""
  {
    if TrimStart(s) != [] {
      TrimStartNonEmpty(s);
    }
  }

  /** A text that parseFloat reads as a number is truthy and not blank. */
  lemma FloatParsedIsTruthy(s: string)
    ensures ParseFloat(s) != NaN ==> Truthy(s) && Trim(s) != ""
  {
    if TrimStart(s) != [] {
      TrimStartNonEmpty(s);
    }
  }

  /** The decimal rendering of a natural number, as Number.prototype.toString gives it. */
  function DecimalString(n: nat): (r: string)
    ensures r != []
  {
    if n < 10 then ['0' + n as char] else DecimalString(n / 10) + ['0' + (n % 10) as char]
  }

  /** The decimal text of a number below 1000, digit by digit. */
  lemma DecimalStringSmall(n: nat)
    requires n < 1000
    ensures n < 10 ==> DecimalString(n) == ['0' + n as char]
    ensures 10 <= n < 100 ==> DecimalString(n) == ['0' + (n / 10) as char, '0' + (n % 10) as char]
    ensures 100 <= n ==> DecimalString(n) == ['0' + (n / 100) as char, '0' + (n / 10 % 10) as char, '0' + (n % 10) as char]
  {
    if n >= 100 {
      assert DecimalString(n / 10) == ['0' + (n / 100) as char, '0' + (n / 10 % 10) as char];
    }
  }

  lemma {:induction false} DecimalStringDigits(n: nat)
    ensures forall i :: 0 <= i < |DecimalString(n)| ==> IsDigit(DecimalString(n)[i], 10)
  {
    if n >= 10 {
      DecimalStringDigits(n / 10);
      var s := DecimalString(n);
      forall i | 0 <= i < |s| ensures IsDigit(s[i], 10) {
        if i < |s| - 1 { assert s[i] == DecimalString(n / 10)[i]; }
      }
    }
  }

  lemma {:induction false} DecimalStringValue(n: nat)
    ensures DigitsValue(DecimalString(n), 10) == n
  {
    if n >= 10 {
      var s := DecimalString(n);
      assert s[..|s| - 1] == DecimalString(n / 10);
      DecimalStringValue(n / 10);
    }
  }

  lemma {:induction false} DigitPrefixAll(s: string, radix: nat)
    requires forall i :: 0 <= i < |s| ==> IsDigit(s[i], radix)
    ensures DigitPrefix(s, radix) == s
  {
    if s != [] {
      DigitPrefixAll(s[1..], radix);
    }
  }

  /** A text that starts with a decimal digit, and not with "0x" or "0X",
      has no blank, sign or hexadecimal prefix for parseInt to skip. */
  lemma PlainDecimalStart(s: string)
    requires s != [] && '0' <= s[0] <= '9'
    requires |s| >= 2 ==> s[1] != 'x' && s[1] != 'X'
    ensures TrimStart(s) == s && Unsigned(s) == s && !HexPrefix(s)
  {
  }

  /** A text of decimal digits, leading zeros included, parses to its value:
      parseInt("007") === 7. */
  lemma ParseIntDigits(s: string)
    requires s != [] && forall i :: 0 <= i < |s| ==> IsDigit(s[i], 10)
    ensures ParseInt(s) == Some(DigitsValue(s, 10))
  {
    assert IsDigit(s[0], 10);
    if |s| >= 2 {
      assert IsDigit(s[1], 10);
    }
    PlainDecimalStart(s);
    DigitPrefixAll(s, 10);
  }

  /** parseInt reads back the decimal text of every natural number:
      parseInt(String(n)) === n. */
  lemma ParseIntDecimalString(n: nat)
    ensures ParseInt(DecimalString(n)) == Some(n)
  {
    DecimalStringDigits(n);
    ParseIntDigits(DecimalString(n));
    DecimalStringValue(n);
  }

  /** parseInt stops at the first character that is not a digit. */
  lemma ParseIntStopsAtDot()
    ensures ParseInt("18.7") == Some(18)
  {
    var s := "18.7";
    assert TrimStart(s) == s by { assert !IsWhitespace(s[0]); }
    assert Unsigned(s) == s && !HexPrefix(s);
    assert DigitPrefix(s, 10) == "18" by {
      assert DigitPrefix(".7", 10) == [];
      assert DigitPrefix("8.7", 10) == "8";
    }
    assert DigitsValue("18", 10) == 18 by {
      assert "18"[..1] == "1";
      assert DigitsValue("1", 10) == 1;
    }
  }

  /** With no digit at all, parseInt gives NaN. */
  lemma ParseIntNoDigits()
    ensures ParseInt("abc") == None
  {
    var s := "abc";
    assert TrimStart(s) == s by { assert !IsWhitespace(s[0]); }
    assert Unsigned(s) == s && !HexPrefix(s);
  }

  /** A "0x" prefix switches parseInt to radix 16. */
  lemma ParseIntHex()
    ensures ParseInt("0x1A") == Some(26)
  {
    var s := "0x1A";
    assert TrimStart(s) == s by { assert !IsWhitespace(s[0]); }
    assert Unsigned(s) == s && HexPrefix(s);
    assert s[2..] == "1A";
    assert DigitPrefix("1A", 16) == "1A" by {
      assert DigitPrefix("A", 16) == "A";
    }
    assert DigitsValue("1A", 16) == 26 by {
      assert "1A"[..1] == "1";
      assert DigitsValue("1", 16) == 1;
    }
  }

  /** A JavaScript number as parseFloat can produce it. IEEE-754 rounding is
      not modelled: a finite result is the exact decimal value. */
  datatype Number = NaN | Finite(value: real) | Infinite(negative: bool)

  /** `x < c`; every comparison with NaN is false. */
  predicate Less(x: Number, c: real) {
    match x
    case NaN => false
    case Finite(v) => v < c
    case Infinite(negative) => negative
  }

  /** `x > c`. */
  predicate Greater(x: Number, c: real) {
    match x
    case NaN => false
    case Finite(v) => v > c
    case Infinite(negative) => !negative
  }

  /** `x >= c`. */
  predicate AtLeast(x: Number, c: real) {
    match x
    case NaN => false
    case Finite(v) => v >= c
    case Infinite(negative) => !negative
  }

  function Pow10(e: nat): (r: real)
    ensures r >= 1.0
  {
    if e == 0 then 1.0 else 10.0 * Pow10(e - 1)
  }

  /** The factor an exponent part ("e", optional sign, digits) contributes;
      1 when `s` does not start with a complete exponent part. */
  function ExponentScale(s: string): (r: real)
    ensures r > 0.0
  {
    if s != [] && (s[0] == 'e' || s[0] == 'E') then
      var ds := DigitPrefix(Unsigned(s[1..]), 10);
      if ds == [] then 1.0
      else if NegativeSign(s[1..]) then 1.0 / Pow10(DigitsValue(ds, 10))
      else Pow10(DigitsValue(ds, 10))
    else 1.0
  }

  /** The value of the decimal text whole.frac. */
  function DecimalValue(whole: string, frac: string): real {
    DigitsValue(whole, 10) as real + DigitsValue(frac, 10) as real / Pow10(|frac|)
  }

  /** The magnitude of the longest decimal literal (digits, optional
      fraction, optional exponent) at the start of `u`; None when that
      literal has no digit at all. */
  function DecimalMagnitude(u: string): Option<real> {
    var whole := DigitPrefix(u, 10);
    DigitPrefixShape(u, 10);
    var rest := u[|whole|..];
    var dotted := rest != [] && rest[0] == '.';
    var frac := if dotted then DigitPrefixShape(rest[1..], 10); DigitPrefix(rest[1..], 10) else [];
    if whole == [] && frac == [] then None
    else
      var tail := if dotted then rest[1 + |frac|..] else rest;
      Some(DecimalValue(whole, frac) * ExponentScale(tail))
  }

  /**
   * parseFloat(s): skip leading blanks, read an optional sign, then either
   * "Infinity" or the longest decimal literal that has at least one digit;
   * otherwise NaN.
   */
  function ParseFloat(s: string): Number {
    var t := TrimStart(s);
    var u := Unsigned(t);
    if |u| >= 8 && u[..8] == "Infinity" then
      Infinite(NegativeSign(t))
    else
      match DecimalMagnitude(u)
      case None => NaN
      case Some(m) => Finite(if NegativeSign(t) then -m else m)
  }

  /** parseFloat reads the boundary ratio 0.7 exactly. */
  lemma ParseFloatSevenTenths()
    ensures ParseFloat("0.7") == Finite(0.7)
  {
    var s := "0.7";
    assert TrimStart(s) == s by { assert !IsWhitespace(s[0]); }
    assert Unsigned(s) == s;
    assert DigitPrefix(s, 10) == "0" by { assert DigitPrefix(".7", 10) == []; }
    assert s[1..] == ".7" && ".7"[1..] == "7";
    assert DigitPrefix("7", 10) == "7";
    assert DigitsValue("0", 10) == 0 && DigitsValue("7", 10) == 7;
    assert Pow10(1) == 10.0;
    assert ".7"[2..] == "";
  }

  /** An exponent part scales the mantissa. */
  lemma ParseFloatExponent()
    ensures ParseFloat("7e-1") == Finite(0.7)
  {
    var s := "7e-1";
    assert TrimStart(s) == s by { assert !IsWhitespace(s[0]); }
    assert Unsigned(s) == s;
    assert DigitPrefix(s, 10) == "7" by { assert DigitPrefix("e-1", 10) == []; }
    assert s[1..] == "e-1" && "e-1"[1..] == "-1" && Unsigned("-1") == "1";
    assert ExponentScale("e-1") == 0.1 by {
      assert DigitPrefix("1", 10) == "1";
      assert DigitsValue("1", 10) == 1;
      assert Pow10(1) == 10.0;
    }
    assert DigitsValue("7", 10) == 7;
    assert s[|"7"|..] == "e-1" && "e-1"[0] != '.';
    assert DigitsValue("7", 10) as real + DigitsValue([], 10) as real / Pow10(0) == 7.0;
    assert 7.0 * 0.1 == 0.7;
  }

  /** Text with no digit is NaN. */
  lemma ParseFloatNoDigits()
    ensures ParseFloat("abc") == NaN
  {
    var s := "abc";
    assert TrimStart(s) == s by { assert !IsWhitespace(s[0]); }
    assert Unsigned(s) == s;
    assert DigitPrefix(s, 10) == [];
    assert |s| < 8;
  }

  /** The digit prefix of a digit string followed by a text that does not
      start with a digit is that digit string. */
  lemma {:induction false} DigitPrefixStops(w: string, rest: string, radix: nat)
    requires forall i :: 0 <= i < |w| ==> IsDigit(w[i], radix)
    requires rest == [] || !IsDigit(rest[0], radix)
    ensures DigitPrefix(w + rest, radix) == w
  {
    if w != [] {
      assert (w + rest)[0] == w[0] && IsDigit(w[0], radix);
      assert (w + rest)[1..] == w[1..] + rest;
      DigitPrefixStops(w[1..], rest, radix);
    }
  }

  lemma DigitNotBlank(c: char)
    requires IsDigit(c, 10)
    ensures '0' <= c <= '9' && !IsWhitespace(c)
  {
  }

  lemma DecimalMagnitudeOfParts(u: string, w: string, f: string)
    requires DigitPrefix(u, 10) == w && |w| < |u| && u[|w|] == '.'
    requires DigitPrefix(u[|w| + 1..], 10) == f && |w| + 1 + |f| == |u|
    requires w != [] || f != []
    ensures DecimalMagnitude(u) == Some(DecimalValue(w, f))
  {
    var rest := u[|w|..];
    assert rest[1..] == u[|w| + 1..];
    assert rest[1 + |f|..] == [];
    assert ExponentScale([]) == 1.0;
  }

  /** A text that starts with a digit or a point has no blank, sign or
      "Infinity" for parseFloat to read before the decimal literal. */
  lemma ParseFloatPlain(s: string)
    requires s != [] && ('0' <= s[0] <= '9' || s[0] == '.')
    requires DecimalMagnitude(s).Some?
    ensures ParseFloat(s) == Finite(DecimalMagnitude(s).value)
  {
    assert TrimStart(s) == s && Unsigned(s) == s && !NegativeSign(s);
    if |s| >= 8 {
      assert s[..8][0] == s[0];
    }
  }

  lemma DecimalMagnitudeOfDecimal(w: string, f: string)
    requires forall i :: 0 <= i < |w| ==> IsDigit(w[i], 10)
    requires forall i :: 0 <= i < |f| ==> IsDigit(f[i], 10)
    requires w != [] || f != []
    ensures DecimalMagnitude(w + ("." + f)) == Some(DecimalValue(w, f))
  {
    var s := w + ("." + f);
    DigitPrefixStops(w, "." + f, 10);
    assert s[|w|] == '.';
    assert s[|w| + 1..] == f;
    DigitPrefixAll(f, 10);
    DecimalMagnitudeOfParts(s, w, f);
  }

  /** A plain decimal text "digits.digits", either part possibly empty but
      not both, parses to the number it denotes: parseFloat("0.65") is 0.65
      and parseFloat(".5") is 0.5. */
  lemma ParseFloatDecimal(w: string, f: string)
    requires forall i :: 0 <= i < |w| ==> IsDigit(w[i], 10)
    requires forall i :: 0 <= i < |f| ==> IsDigit(f[i], 10)
    requires w != [] || f != []
    ensures ParseFloat(w + "." + f) == Finite(DecimalValue(w, f))
  {
    var s := w + ("." + f);
    assert w + "." + f == s;
    if w != [] {
      assert s[0] == w[0];
      DigitNotBlank(w[0]);
    } else {
      assert s[0] == '.';
    }
    DecimalMagnitudeOfDecimal(w, f);
    ParseFloatPlain(s);
  }
}
