/**
 * The JavaScript string and number primitives the forms rely on:
 * `String.prototype.trim`, the regular-expression replacements, `parseFloat`,
 * and the decimal rendering of a whole number (`toString`).
 *
 * `parseFloat` reads the longest prefix, after white space, that is a decimal
 * literal: an optional sign, digits with an optional fraction, and an optional
 * exponent. Its result is `None` where JavaScript gives NaN.
 */
module JsText {
  import opened Types
  import Seqs

  /** White space and line terminators as `trim` and `parseFloat` skip them. */
  predicate IsJsSpace(c: char)
  {
    c == '\t' || c == '\n' || c == '\U{000B}' || c == '\U{000C}' || c == '\r' || c == ' '
    || c == '\U{00A0}' || c == '\U{1680}' || ('\U{2000}' <= c <= '\U{200A}')
    || c == '\U{2028}' || c == '\U{2029}' || c == '\U{202F}' || c == '\U{205F}'
    || c == '\U{3000}' || c == '\U{FEFF}'
  }

  predicate IsDigit(c: char)
  {
    '0' <= c <= '9'
  }

  predicate AllDigits(s: string)
  {
    forall i :: 0 <= i < |s| ==> IsDigit(s[i])
  }

  /** Drops the leading white space. */
  function TrimStart(s: string): (r: string)
    ensures |r| <= |s| && r == s[|s| - |r|..]
    ensures r != [] ==> !IsJsSpace(r[0])
  {
    if s != [] && IsJsSpace(s[0]) then TrimStart(s[1..]) else s
  }

  /** Drops the trailing white space. */
  function TrimEnd(s: string): (r: string)
    ensures r <= s
    ensures r != [] ==> !IsJsSpace(r[|r| - 1])
  {
    if s != [] && IsJsSpace(s[|s| - 1]) then TrimEnd(s[..|s| - 1]) else s
  }

  /** `s.trim()`. */
  function Trim(s: string): string
  {
    TrimEnd(TrimStart(s))
  }

  /** A trimmed string is empty exactly when every character is white space. */
  lemma {:induction false} TrimEmptyIff(s: string)
    ensures Trim(s) == [] <==> forall i :: 0 <= i < |s| ==> IsJsSpace(s[i])
  {
    TrimStartAllSpace(s);
    var t := TrimStart(s);
    if t != [] {
      assert !IsJsSpace(t[0]);
      TrimEndKeepsFirst(t);
      assert s[|s| - |t|] == t[0];
    }
  }

  /** A string with some character that is not white space does not trim to nothing. */
  lemma NotBlank(s: string, i: nat)
    requires i < |s| && !IsJsSpace(s[i])
    ensures Trim(s) != []
  {
    TrimEmptyIff(s);
  }

  lemma {:induction false} TrimStartAllSpace(s: string)
    ensures TrimStart(s) == [] <==> forall i :: 0 <= i < |s| ==> IsJsSpace(s[i])
  {
    if s != [] && IsJsSpace(s[0]) {
      TrimStartAllSpace(s[1..]);
      if TrimStart(s) == [] {
        forall i | 0 <= i < |s| ensures IsJsSpace(s[i]) {
          if i > 0 { assert s[i] == s[1..][i - 1]; }
        }
      }
    }
  }

  lemma {:induction false} TrimEndKeepsFirst(s: string)
    requires s != [] && !IsJsSpace(s[0])
    ensures TrimEnd(s) != []
  {
    if |s| > 1 && IsJsSpace(s[|s| - 1]) {
      TrimEndKeepsFirst(s[..|s| - 1]);
    }
  }

  /** The value of a run of decimal digits. */
  function DigitsValue(s: string): (n: nat)
    requires AllDigits(s)
  {
    if s == [] then 0 else DigitsValue(s[..|s| - 1]) * 10 + (s[|s| - 1] as int - '0' as int)
  }

  function Pow10(n: nat): (r: real)
    ensures r >= 1.0
  {
    if n == 0 then 1.0 else 10.0 * Pow10(n - 1)
  }

  function DigitChar(d: int): (c: char)
    requires 0 <= d < 10
    ensures IsDigit(c) && c as int - '0' as int == d
  {
    ('0' as int + d) as char
  }

  /** The decimal digits of a whole number, as `toString` writes them. */
  function NatToString(n: nat): (s: string)
    ensures s != [] && AllDigits(s)
  {
    if n < 10 then [DigitChar(n)] else NatToString(n / 10) + [DigitChar(n % 10)]
  }

  /** `toString` of an integer: a minus sign, then the digits. */
  function IntToString(i: int): string
  {
    if i < 0 then "-" + NatToString(-i) else NatToString(i)
  }

  lemma {:induction false} NatToStringValue(n: nat)
    ensures DigitsValue(NatToString(n)) == n
  {
    if n >= 10 {
      NatToStringValue(n / 10);
      var s := NatToString(n);
      assert s[..|s| - 1] == NatToString(n / 10);
    }
  }

  /** The longest prefix made of digits. */
  function DigitPrefix(s: string): (r: string)
    ensures r <= s && AllDigits(r)
    ensures |r| < |s| ==> !IsDigit(s[|r|])
  {
    if s != [] && IsDigit(s[0]) then [s[0]] + DigitPrefix(s[1..]) else []
  }

  lemma {:induction false} DigitPrefixOfDigits(d: string, rest: string)
    requires AllDigits(d)
    requires rest != [] ==> !IsDigit(rest[0])
    ensures DigitPrefix(d + rest) == d
  {
    if d != [] {
      DigitPrefixOfDigits(d[1..], rest);
      assert (d + rest)[1..] == d[1..] + rest;
    }
  }

  /** The exponent part after a mantissa, or 0 when it is absent or malformed. */
  function ExponentValue(s: string): int
  {
    if s != [] && (s[0] == 'e' || s[0] == 'E') then
      var t := s[1..];
      var negative := t != [] && t[0] == '-';
      var u := if t != [] && (t[0] == '+' || t[0] == '-') then t[1..] else t;
      var digits := DigitPrefix(u);
      if digits == [] then 0 else if negative then -(DigitsValue(digits) as int) else DigitsValue(digits)
    else 0
  }

  function Scale(e: int): (r: real)
    ensures r > 0.0
  {
    if e >= 0 then Pow10(e) else 1.0 / Pow10(-e)
  }

  /** `parseFloat(s)`; `None` stands for NaN. */
  function ParseFloat(s: string): Option<real>
  {
    var t := TrimStart(s);
    if t != [] && t[0] == '-' then
      match ParseUnsigned(t[1..])
      case None => None
      case Some(v) => Some(-v)
    else if t != [] && t[0] == '+' then ParseUnsigned(t[1..])
    else ParseUnsigned(t)
  }

  /** The unsigned decimal literal at the head of `u`. */
  function ParseUnsigned(u: string): Option<real>
  {
    var intDigits := DigitPrefix(u);
    ParseMantissa(intDigits, u[|intDigits|..])
  }

  /** Continues after the integer digits: an optional fraction, then an optional exponent. */
  function ParseMantissa(intDigits: string, rest: string): Option<real>
    requires AllDigits(intDigits)
  {
    if rest != [] && rest[0] == '.' then
      var fracDigits := DigitPrefix(rest[1..]);
      if intDigits == [] && fracDigits == [] then None
      else
        var mantissa := DigitsValue(intDigits) as real + DigitsValue(fracDigits) as real / Pow10(|fracDigits|);
        Some(mantissa * Scale(ExponentValue(rest[1 + |fracDigits|..])))
    else if intDigits == [] then None
    else Some(DigitsValue(intDigits) as real * Scale(ExponentValue(rest)))
  }

  /** A plain decimal `d.f` parses to its value. */
  lemma {:induction false} ParseFloatDecimal(d: string, f: string)
    requires d != [] && AllDigits(d) && AllDigits(f)
    ensures ParseFloat(d + "." + f) == Some(DigitsValue(d) as real + DigitsValue(f) as real / Pow10(|f|))
  {
    var rest := "." + f;
    assert d + "." + f == d + rest;
    ParseFloatDigitStart(d + rest);
    ParseUnsignedSplit(d, rest);
    ParseMantissaFraction(d, f);
  }

  lemma ParseFloatDigitStart(s: string)
    requires s != [] && IsDigit(s[0])
    ensures ParseFloat(s) == ParseUnsigned(s)
  {
    assert TrimStart(s) == s;
  }

  lemma ParseUnsignedSplit(d: string, rest: string)
    requires AllDigits(d)
    requires rest != [] ==> !IsDigit(rest[0])
    ensures ParseUnsigned(d + rest) == ParseMantissa(d, rest)
  {
    DigitPrefixOfDigits(d, rest);
    assert (d + rest)[|d|..] == rest;
  }

  lemma {:induction false} ParseMantissaFraction(d: string, f: string)
    requires AllDigits(d) && AllDigits(f) && d != []
    ensures ParseMantissa(d, "." + f) == Some(DigitsValue(d) as real + DigitsValue(f) as real / Pow10(|f|))
  {
    var rest := "." + f;
    DigitPrefixOfDigits(f, []);
    assert rest[1..] == f + [];
    assert rest[1 + |f|..] == [];
    assert ExponentValue([]) == 0;
  }

  /** The digits of a whole number parse back to it. */
  lemma {:induction false} ParseFloatNat(n: nat)
    ensures ParseFloat(NatToString(n)) == Some(n as real)
  {
    var s := NatToString(n);
    NatToStringValue(n);
    assert TrimStart(s) == s by { assert IsDigit(s[0]); }
    DigitPrefixOfDigits(s, []);
    assert s + [] == s;
    assert ParseUnsigned(s) == ParseMantissa(s, []);
  }

  /** `s.replace(/\D/g, "")`: the digits of `s`, in order. */
  function KeepDigits(s: string): (r: string)
    ensures AllDigits(r)
  {
    var r := Seqs.Filter(s, IsDigit);
    Seqs.FilterAllSatisfy(s, IsDigit);
    r
  }

  predicate NotDot(c: char)
  {
    c != '.'
  }

  /** `s.replace(/\./g, "")`: every '.' removed. */
  function RemoveDots(s: string): (r: string)
    ensures '.' !in r
  {
    var r := Seqs.Filter(s, NotDot);
    Seqs.FilterMembership(s, NotDot, '.');
    r
  }

  /** `s.replace(",", ".")`: only the first ',' becomes '.'. */
  function ReplaceFirstComma(s: string): (r: string)
    ensures |r| == |s|
  {
    if s == [] then []
    else if s[0] == ',' then ['.'] + s[1..]
    else [s[0]] + ReplaceFirstComma(s[1..])
  }

  lemma {:induction false} ReplaceFirstCommaAfter(a: string, b: string)
    requires ',' !in a
    ensures ReplaceFirstComma(a + "," + b) == a + "." + b
  {
    if a != [] {
      ReplaceFirstCommaAfter(a[1..], b);
      assert (a + "," + b)[1..] == a[1..] + "," + b;
    }
  }
}
