/**
 * The JavaScript built-ins the vehicle form leans on, stated over `string`:
 * `String.prototype.trim`, `String.prototype.toUpperCase` (ASCII letters only)
 * and the global `parseFloat`, with the number it returns.
 */
module JsText {

  /** A character `trim` and `parseFloat` skip: ECMA-262 WhiteSpace or LineTerminator. */
  predicate IsWhiteSpace(c: char) {
    var n := c as int;
    n == 0x09 || n == 0x0A || n == 0x0B || n == 0x0C || n == 0x0D || n == 0x20
    || n == 0xA0 || n == 0x1680 || (0x2000 <= n <= 0x200A)
    || n == 0x2028 || n == 0x2029 || n == 0x202F || n == 0x205F || n == 0x3000 || n == 0xFEFF
  }

  predicate IsDigit(c: char) { '0' <= c <= '9' }

  predicate IsUpperLetter(c: char) { 'A' <= c <= 'Z' }

  predicate IsLowerLetter(c: char) { 'a' <= c <= 'z' }

  predicate AllDigits(s: string) { forall i :: 0 <= i < |s| ==> IsDigit(s[i]) }

  predicate AllWhiteSpace(s: string) { forall i :: 0 <= i < |s| ==> IsWhiteSpace(s[i]) }

  // ---------------------------------------------------------------- trim

  /** `trimStart`: the suffix left once the leading white space is dropped. */
  function TrimStart(s: string): (r: string)
    ensures |r| <= |s| && (r != [] ==> r[0] == s[|s| - |r|])
    ensures forall i :: 0 <= i < |s| - |r| ==> IsWhiteSpace(s[i])
    ensures r == [] || !IsWhiteSpace(r[0])
  {
    if s != [] && IsWhiteSpace(s[0]) then TrimStart(s[1..]) else s
  }

  /** `trimEnd`: the prefix left once the trailing white space is dropped. */
  function TrimEnd(s: string): (r: string)
    ensures |r| <= |s| && (r != [] ==> r[|r| - 1] == s[|r| - 1])
    ensures forall i :: |r| <= i < |s| ==> IsWhiteSpace(s[i])
    ensures r == [] || !IsWhiteSpace(r[|r| - 1])
  {
    if s != [] && IsWhiteSpace(s[|s| - 1]) then TrimEnd(s[..|s| - 1]) else s
  }

  /** What `trimStart` leaves is a suffix of its input. */
  lemma {:induction false} TrimStartIsSuffix(s: string)
    ensures TrimStart(s) == s[|s| - |TrimStart(s)|..]
  {
    if s != [] && IsWhiteSpace(s[0]) {
      TrimStartIsSuffix(s[1..]);
      assert s[1..][|s[1..]| - |TrimStart(s[1..])|..] == s[|s| - |TrimStart(s)|..];
    }
  }

  /** What `trimEnd` leaves is a prefix of its input. */
  lemma {:induction false} TrimEndIsPrefix(s: string)
    ensures TrimEnd(s) == s[..|TrimEnd(s)|]
  {
    if s != [] && IsWhiteSpace(s[|s| - 1]) {
      TrimEndIsPrefix(s[..|s| - 1]);
      assert s[..|s| - 1][..|TrimEnd(s)|] == s[..|TrimEnd(s)|];
    }
  }

  /**
   * `trim`: both ends. What is left is the part of `trimStart`'s result before
   * its trailing white space; it is empty exactly when `s` is all white space.
   */
  function Trim(s: string): (r: string)
    ensures |r| <= |TrimStart(s)| <= |s|
    ensures r == TrimStart(s)[..|r|]
    ensures forall i :: |r| <= i < |TrimStart(s)| ==> IsWhiteSpace(TrimStart(s)[i])
    ensures r == [] || (!IsWhiteSpace(r[0]) && !IsWhiteSpace(r[|r| - 1]))
    ensures r == [] <==> AllWhiteSpace(s)
  {
    TrimEndIsPrefix(TrimStart(s));
    TrimEnd(TrimStart(s))
  }

  // ---------------------------------------------------------------- toUpperCase

  /** The upper-case form of one character, for the ASCII letters. */
  function UpperChar(c: char): (u: char)
    ensures IsUpperLetter(u) <==> IsUpperLetter(c) || IsLowerLetter(c)
    ensures IsLowerLetter(c) ==> u as int - 'A' as int == c as int - 'a' as int
    ensures !IsLowerLetter(c) ==> u == c
    ensures !IsLowerLetter(u)
  {
    if IsLowerLetter(c) then (c as int - 32) as char else c
  }

  /** `toUpperCase`: the same string with every lower-case ASCII letter capitalised. */
  function ToUpperCase(s: string): (r: string)
    ensures |r| == |s|
    ensures forall i {:trigger r[i]} :: 0 <= i < |s| ==> r[i] == UpperChar(s[i])
  {
    if s == [] then [] else [UpperChar(s[0])] + ToUpperCase(s[1..])
  }

  /** Upper-casing a string without lower-case letters leaves it as it is. */
  lemma UpperCaseNoLower(s: string)
    requires forall i :: 0 <= i < |s| ==> !IsLowerLetter(s[i])
    ensures ToUpperCase(s) == s
  {
  }

  /** Upper-casing twice is upper-casing once. */
  lemma UpperCaseIdempotent(s: string)
    ensures ToUpperCase(ToUpperCase(s)) == ToUpperCase(s)
  {
    UpperCaseNoLower(ToUpperCase(s));
  }

  // ---------------------------------------------------------------- parseFloat

  /** A JavaScript number as `parseFloat` can return it. */
  datatype JsNumber = NaN | Finite(value: real) | Infinite(negative: bool)
  {
    /** JavaScript's `<` against a finite constant: false for NaN. */
    predicate LessThan(x: real) {
      match this
      case NaN => false
      case Finite(v) => v < x
      case Infinite(neg) => neg
    }

    /** JavaScript's `>` against a finite constant: false for NaN. */
    predicate GreaterThan(x: real) {
      match this
      case NaN => false
      case Finite(v) => v > x
      case Infinite(neg) => !neg
    }
  }

  function Pow10(k: nat): (p: nat)
    ensures p >= 1
  {
    if k == 0 then 1 else 10 * Pow10(k - 1)
  }

  function DigitValue(c: char): nat
    requires IsDigit(c)
  {
    c as int - '0' as int
  }

  /** The natural number a run of decimal digits denotes. */
  function DigitsValue(d: string): (n: nat)
    requires AllDigits(d)
    ensures n < Pow10(|d|)
  {
    if d == [] then 0 else DigitsValue(d[..|d| - 1]) * 10 + DigitValue(d[|d| - 1])
  }

  /** The longest prefix of `s` made of decimal digits. */
  function LeadingDigits(s: string): (d: string)
    ensures |d| <= |s| && d == s[..|d|]
    ensures AllDigits(d)
    ensures |d| == |s| || !IsDigit(s[|d|])
  {
    if s != [] && IsDigit(s[0]) then [s[0]] + LeadingDigits(s[1..]) else []
  }

  /** The value of an ExponentPart (`e`/`E`, optional sign, digits) at the head of `s`; 0 when there is none. */
  function ExponentPart(s: string): int {
    if s != [] && (s[0] == 'e' || s[0] == 'E') then
      var v := s[1..];
      var w := if v != [] && (v[0] == '-' || v[0] == '+') then v[1..] else v;
      var d := LeadingDigits(w);
      if d == [] then 0
      else if v[0] == '-' then -(DigitsValue(d) as int)
      else DigitsValue(d)
    else 0
  }

  /** The value of the digits after a decimal point: 0.d1d2…dk. */
  function Fraction(d: string): (r: real)
    requires AllDigits(d)
    ensures 0.0 <= r
  {
    DigitsValue(d) as real / Pow10(|d|) as real
  }

  /** m · 10^e */
  function Scale(m: real, e: int): (r: real)
    ensures m >= 0.0 ==> r >= 0.0
  {
    if e >= 0 then m * Pow10(e) as real else m / Pow10(-e) as real
  }

  /** The text after an optional leading sign. */
  function Unsigned(t: string): (u: string)
    ensures u == t || (t != [] && (t[0] == '-' || t[0] == '+') && u == t[1..])
    ensures u != t <==> t != [] && (t[0] == '-' || t[0] == '+')
  {
    if t != [] && (t[0] == '-' || t[0] == '+') then t[1..] else t
  }

  /** Whether a StrDecimalLiteral without its sign starts `u`. */
  predicate StartsNumber(u: string) {
    "Infinity" <= u || (u != [] && IsDigit(u[0])) || (|u| >= 2 && u[0] == '.' && IsDigit(u[1]))
  }

  /**
   * The value of an unsigned decimal literal (digits, a point, digits, an
   * exponent) read as the longest prefix of `u`; NaN when `u` does not start one.
   */
  function DecimalPrefixValue(u: string): (n: JsNumber)
    ensures !n.Infinite?
    ensures n.NaN? <==> !((u != [] && IsDigit(u[0])) || (|u| >= 2 && u[0] == '.' && IsDigit(u[1])))
    ensures n.Finite? ==> n.value >= 0.0
  {
    var whole := LeadingDigits(u);
    var rest := u[|whole|..];
    var hasPoint := rest != [] && rest[0] == '.';
    var fraction := if hasPoint then LeadingDigits(rest[1..]) else [];
    if whole == [] && fraction == [] then NaN
    else
      var tail := if hasPoint then rest[1 + |fraction|..] else rest;
      var mantissa := DigitsValue(whole) as real + Fraction(fraction);
      Finite(Scale(mantissa, ExponentPart(tail)))
  }

  /**
   * `parseFloat`: skip leading white space, then read the longest prefix that is
   * a decimal literal (a sign, then `Infinity` or an unsigned decimal literal);
   * NaN when no such prefix exists.
   */
  function ParseFloat(s: string): JsNumber {
    var t := TrimStart(s);
    SignedValue(t != [] && t[0] == '-', Unsigned(t))
  }

  /** The value of the text after the sign: `Infinity`, or an unsigned decimal literal given the sign. */
  function SignedValue(negative: bool, u: string): JsNumber {
    if "Infinity" <= u then Infinite(negative)
    else ApplySign(negative, DecimalPrefixValue(u))
  }

  /** A finite value negated after a minus sign; NaN stays NaN. */
  function ApplySign(negative: bool, n: JsNumber): JsNumber {
    match n
    case Finite(m) => Finite(if negative then -m else m)
    case _ => n
  }

  /** Text whose first character is not the I of `Infinity` does not start with it. */
  lemma NotInfinity(u: string)
    requires u == [] || u[0] != 'I'
    ensures !("Infinity" <= u)
  {
    if u != [] {
      assert "Infinity"[0] == 'I';
    }
  }

  /** Text that starts with a digit has no white space or sign to skip. */
  lemma {:induction false} ParseFloatNoSign(s: string)
    requires s != [] && IsDigit(s[0])
    ensures ParseFloat(s) == ApplySign(false, DecimalPrefixValue(s))
  {
    assert !IsWhiteSpace(s[0]) && s[0] != '-' && s[0] != '+' && s[0] != 'I';
    TrimStartNone(s);
    NotInfinity(s);
  }

  /** Text that does not start with white space is its own `TrimStart`. */
  lemma TrimStartNone(s: string)
    requires s == [] || !IsWhiteSpace(s[0])
    ensures TrimStart(s) == s
  {
  }

  /** After a minus sign the value read is negated. */
  lemma {:induction false} ParseFloatMinus(d: string)
    requires d != [] && IsDigit(d[0])
    ensures ParseFloat("-" + d) == ApplySign(true, DecimalPrefixValue(d))
  {
    var s := "-" + d;
    assert TrimStart(s) == s;
    assert s[1..] == d;
    assert Unsigned(s) == d;
    NotInfinity(d);
  }

  /**
   * What `parseFloat` returns: NaN exactly when no number starts the text
   * after its white space and sign, an infinity exactly when `Infinity` does,
   * and a negative value only after a minus sign.
   */
  lemma ParseFloatOutcome(s: string)
    ensures ParseFloat(s).NaN? <==> !StartsNumber(Unsigned(TrimStart(s)))
    ensures ParseFloat(s).Infinite? <==> "Infinity" <= Unsigned(TrimStart(s))
    ensures var n := ParseFloat(s);
      (n.Finite? && n.value < 0.0) || (n.Infinite? && n.negative) ==> TrimStart(s)[0] == '-'
  {
  }

  /** White space alone parses to NaN. */
  lemma ParseFloatBlank(s: string)
    requires AllWhiteSpace(s)
    ensures ParseFloat(s).NaN?
  {
  }

  /** A plain run of decimal digits parses to the natural number it denotes. */
  lemma {:induction false} ParseFloatDigits(d: string)
    requires d != [] && AllDigits(d)
    ensures ParseFloat(d) == Finite(DigitsValue(d) as real)
  {
    ParseFloatNoSign(d);
    DecimalDigits(d);
  }

  lemma {:induction false} DecimalDigits(d: string)
    requires d != [] && AllDigits(d)
    ensures DecimalPrefixValue(d) == Finite(DigitsValue(d) as real)
  {
    LeadingDigitsAll(d);
    assert d[|d|..] == [];
    assert Fraction([]) == 0.0;
    assert ExponentPart([]) == 0;
  }

  lemma {:induction false} LeadingDigitsAll(d: string)
    requires AllDigits(d)
    ensures LeadingDigits(d) == d
  {
    if d != [] {
      LeadingDigitsAll(d[1..]);
    }
  }

  /** The longest digit run of `d + rest` is `d` when `rest` does not continue it. */
  lemma {:induction false} LeadingDigitsSplit(d: string, rest: string)
    requires AllDigits(d)
    requires rest == [] || !IsDigit(rest[0])
    ensures LeadingDigits(d + rest) == d
  {
    if d != [] {
      assert (d + rest)[1..] == d[1..] + rest;
      LeadingDigitsSplit(d[1..], rest);
    } else {
      assert d + rest == rest;
    }
  }

  lemma DecimalFraction()
    ensures DecimalPrefixValue("12.5") == Finite(12.5)
  {
    LeadingDigitsSplit("12", ".5");
    assert "12" + ".5" == "12.5";
    assert "12.5"[2..] == ".5" && ".5"[1..] == "5";
    LeadingDigitsSplit("5", "");
    assert "5" + "" == "5";
    assert ".5"[2..] == "";
    assert DigitsValue("12") == 12 by {
      assert "12"[..1] == "1";
    }
    assert DigitsValue("5") == 5;
    assert Fraction("5") == 0.5;
  }

  lemma DecimalExponent()
    ensures DecimalPrefixValue("1e2") == Finite(100.0)
  {
    LeadingDigitsSplit("1", "e2");
    assert "1" + "e2" == "1e2";
    assert "1e2"[1..] == "e2" && "e2"[1..] == "2";
    LeadingDigitsSplit("2", "");
    assert "2" + "" == "2";
    assert ExponentPart("e2") == 2;
    assert DigitsValue("1") == 1;
    assert Pow10(2) == 100;
  }

  /** `parseFloat` reads a fraction. */
  lemma ParseFloatFraction()
    ensures ParseFloat("12.5") == Finite(12.5)
  {
    ParseFloatNoSign("12.5");
    DecimalFraction();
  }

  /** `parseFloat` skips leading white space and stops at the first character that cannot continue the number. */
  lemma ParseFloatTrailing()
    ensures ParseFloat("  50abc") == Finite(50.0)
  {
    assert IsWhiteSpace(' ') && !IsWhiteSpace('5');
    assert TrimStart("50abc") == "50abc";
    assert TrimStart(" 50abc") == "50abc" by {
      assert " 50abc"[1..] == "50abc";
    }
    assert TrimStart("  50abc") == "50abc" by {
      assert "  50abc"[1..] == " 50abc";
    }
    ParseFloatNoSign("50abc");
    DecimalTrailing();
  }

  lemma DecimalTrailing()
    ensures DecimalPrefixValue("50abc") == Finite(50.0)
  {
    LeadingDigitsSplit("50", "abc");
    assert "50" + "abc" == "50abc";
    assert "50abc"[2..] == "abc";
    assert DigitsValue("50") == 50 by {
      assert "50"[..1] == "5";
    }
  }

  /** `parseFloat` reads an exponent. */
  lemma ParseFloatExponent()
    ensures ParseFloat("1e2") == Finite(100.0)
  {
    ParseFloatNoSign("1e2");
    DecimalExponent();
  }

  /** `parseFloat` reads a leading minus sign. */
  lemma ParseFloatNegative()
    ensures ParseFloat("-3") == Finite(-3.0)
  {
    ParseFloatMinus("3");
    assert "-" + "3" == "-3";
    DecimalDigit();
  }

  lemma DecimalDigit()
    ensures DecimalPrefixValue("3") == Finite(3.0)
  {
    LeadingDigitsSplit("3", "");
    assert "3" + "" == "3";
    assert DigitsValue("3") == 3;
  }

  /** Text that starts with a letter other than the I of Infinity is NaN. */
  lemma ParseFloatNaN()
    ensures ParseFloat("abc") == NaN
  {
    assert TrimStart("abc") == "abc";
    assert Unsigned("abc") == "abc";
    NotInfinity("abc");
  }

  /** A point with no digit on either side is NaN. */
  lemma ParseFloatLonePoint()
    ensures ParseFloat(".") == NaN
  {
    assert TrimStart(".") == ".";
    assert Unsigned(".") == ".";
    assert !StartsNumber(".");
  }

  /** `Infinity` is read as positive infinity. */
  lemma ParseFloatInfinity()
    ensures ParseFloat("Infinity") == Infinite(false)
  {
    assert TrimStart("Infinity") == "Infinity";
    assert Unsigned("Infinity") == "Infinity";
  }
}
