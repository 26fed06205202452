/**
 * The string built-ins the image handler applies to query parameters:
 * `parseInt(s, 10)`, `toLowerCase()`, `startsWith` (the prefix relation `<=`)
 * and the conversion of an array of strings to a string.
 */
module JsString {
  import opened Wrappers

  /** The code points `parseInt` skips before the number: ECMAScript WhiteSpace and LineTerminator. */
  predicate IsSpace(c: char) {
    c == '\t' || c == '\n' || c == '\U{B}' || c == '\U{C}' || c == '\r' || c == ' '
    || c == '\U{A0}' || c == '\U{1680}' || ('\U{2000}' <= c <= '\U{200A}')
    || c == '\U{2028}' || c == '\U{2029}' || c == '\U{202F}' || c == '\U{205F}'
    || c == '\U{3000}' || c == '\U{FEFF}'
  }

  predicate IsDigit(c: char) {
    '0' <= c <= '9'
  }

  predicate AllDigits(s: string) {
    forall i :: 0 <= i < |s| ==> IsDigit(s[i])
  }

  /** `s` without its leading white space: the longest all-space prefix is dropped. */
  function TrimStart(s: string): (r: string)
    ensures |r| <= |s| && r == s[|s| - |r|..]
    ensures forall i :: 0 <= i < |s| - |r| ==> IsSpace(s[i])
    ensures r == [] || !IsSpace(r[0])
  {
    if s != [] && IsSpace(s[0]) then TrimStart(s[1..]) else s
  }

  /** The longest prefix of `s` made of decimal digits. */
  function LeadingDigits(s: string): (d: string)
    ensures d <= s && AllDigits(d)
    ensures |d| == |s| || !IsDigit(s[|d|])
  {
    if s != [] && IsDigit(s[0]) then [s[0]] + LeadingDigits(s[1..]) else []
  }

  function DigitValue(c: char): (k: nat)
    requires IsDigit(c)
    ensures k < 10
  {
    c as int - '0' as int
  }

  /** The number a string of decimal digits denotes, most significant digit first. */
  function DigitsValue(d: string): nat
    requires AllDigits(d)
  {
    if d == [] then 0 else DigitsValue(d[..|d| - 1]) * 10 + DigitValue(d[|d| - 1])
  }

  /**
   * `parseInt(s, 10)`; None stands for NaN. Leading white space is skipped,
   * one sign is accepted, and the number ends at the first non-digit.
   */
  function ParseInt(s: string): (r: Option<int>)
    ensures r.Some? <==>
      var t := TrimStart(s);
      t != [] && (IsDigit(t[0]) || ((t[0] == '+' || t[0] == '-') && |t| > 1 && IsDigit(t[1])))
  {
    ParseSigned(TrimStart(s))
  }

  /** The part of `parseInt` after the white space: an optional sign, then the digits. */
  function ParseSigned(t: string): Option<int> {
    var signed := t != [] && (t[0] == '-' || t[0] == '+');
    var d := LeadingDigits(if signed then t[1..] else t);
    var magnitude: int := DigitsValue(d);
    if d == [] then None
    else if signed && t[0] == '-' then Some(-magnitude)
    else Some(magnitude)
  }

  function DigitChar(k: nat): (c: char)
    requires k < 10
    ensures IsDigit(c) && DigitValue(c) == k
  {
    ('0' as int + k) as char
  }

  /** The decimal numeral of `n`, without leading zeros: the reference that `ParseInt` reads back. */
  function DecimalString(n: nat): (s: string)
    ensures s != [] && AllDigits(s)
    ensures n >= 10 ==> s[0] != '0'
  {
    if n < 10 then [DigitChar(n)] else DecimalString(n / 10) + [DigitChar(n % 10)]
  }

  lemma {:induction false} DecimalStringValue(n: nat)
    ensures DigitsValue(DecimalString(n)) == n
  {
    if n >= 10 {
      var s := DecimalString(n);
      assert s[..|s| - 1] == DecimalString(n / 10);
      DecimalStringValue(n / 10);
    }
  }

  lemma {:induction false} TrimStartSpaces(ws: string, t: string)
    requires forall i :: 0 <= i < |ws| ==> IsSpace(ws[i])
    requires t == [] || !IsSpace(t[0])
    ensures TrimStart(ws + t) == t
  {
    if ws != [] {
      assert (ws + t)[1..] == ws[1..] + t;
      TrimStartSpaces(ws[1..], t);
    } else {
      assert ws + t == t;
    }
  }

  lemma LeadingDigitsOf(d: string, rest: string)
    requires AllDigits(d)
    requires rest == [] || !IsDigit(rest[0])
    ensures LeadingDigits(d + rest) == d
  {
    var s := d + rest;
    var e := LeadingDigits(s);
    assert e == s[..|e|] && d == s[..|d|];
  }

  lemma ParseUnsignedNumeral(numeral: string, rest: string)
    requires numeral != [] && AllDigits(numeral)
    requires rest == [] || !IsDigit(rest[0])
    ensures ParseSigned(numeral + rest) == Some(DigitsValue(numeral))
  {
    LeadingDigitsOf(numeral, rest);
    assert IsDigit((numeral + rest)[0]);
  }

  lemma ParseSignedNumeral(c: char, numeral: string, rest: string)
    requires c == '-' || c == '+'
    requires numeral != [] && AllDigits(numeral)
    requires rest == [] || !IsDigit(rest[0])
    ensures ParseSigned([c] + (numeral + rest))
      == Some(if c == '-' then 0 - DigitsValue(numeral) else DigitsValue(numeral))
  {
    var t := [c] + (numeral + rest);
    assert t[0] == c;
    assert t[1..] == numeral + rest;
    LeadingDigitsOf(numeral, rest);
    assert LeadingDigits(t[1..]) == numeral;
  }

  lemma ParseSignedDecimal(sign: string, n: nat, rest: string)
    requires sign == "" || sign == "+" || sign == "-"
    requires rest == [] || !IsDigit(rest[0])
    ensures ParseSigned(sign + (DecimalString(n) + rest)) == Some(if sign == "-" then 0 - n else n)
  {
    var numeral := DecimalString(n);
    DecimalStringValue(n);
    if sign == "" {
      assert sign + (numeral + rest) == numeral + rest;
      ParseUnsignedNumeral(numeral, rest);
    } else {
      assert sign == [sign[0]];
      ParseSignedNumeral(sign[0], numeral, rest);
    }
  }

  /**
   * Round trip: `parseInt` of optional white space, an optional sign, a
   * numeral and anything that does not start with a digit ("12px") is the
   * numeral's value, negated after a minus sign.
   */
  lemma ParseIntReadsNumeral(ws: string, sign: string, n: nat, rest: string)
    requires forall i :: 0 <= i < |ws| ==> IsSpace(ws[i])
    requires sign == "" || sign == "+" || sign == "-"
    requires rest == [] || !IsDigit(rest[0])
    ensures ParseInt(ws + (sign + (DecimalString(n) + rest))) == Some(if sign == "-" then 0 - n else n)
  {
    var t := sign + (DecimalString(n) + rest);
    assert t[0] == if sign == "" then DecimalString(n)[0] else sign[0];
    TrimStartSpaces(ws, t);
    ParseSignedDecimal(sign, n, rest);
  }

  /** A signed numeral with nothing around it reads back as its value. */
  lemma ParseIntSigned(sign: string, n: nat)
    requires sign == "" || sign == "+" || sign == "-"
    ensures ParseInt(sign + DecimalString(n)) == Some(if sign == "-" then 0 - n else n)
  {
    var numeral := DecimalString(n);
    assert numeral + "" == numeral;
    assert "" + (sign + numeral) == sign + numeral;
    ParseIntReadsNumeral("", sign, n, "");
  }

  /**
   * The NaN side of `parseInt`: white space, then a lone sign or no sign,
   * then nothing or a non-digit, gives NaN.
   */
  lemma {:induction false} ParseIntNaN(ws: string, sign: string, rest: string)
    requires forall i :: 0 <= i < |ws| ==> IsSpace(ws[i])
    requires sign == "+" || sign == "-" || (sign == "" && (rest == [] || (!IsSpace(rest[0]) && rest[0] != '+' && rest[0] != '-')))
    requires rest == [] || !IsDigit(rest[0])
    ensures ParseInt(ws + (sign + rest)) == None
  {
    var t := sign + rest;
    if sign != "" {
      assert t[0] == sign[0] && t[1..] == rest;
    } else {
      assert t == rest;
    }
    TrimStartSpaces(ws, t);
  }

  lemma ParseIntDecimal(n: nat)
    ensures ParseInt(DecimalString(n)) == Some(n)
  {
    ParseIntReadsNumeral("", "", n, "");
    assert "" + ("" + (DecimalString(n) + "")) == DecimalString(n);
  }

  /** `toLowerCase` on one code point, for the ASCII letters. */
  function LowerChar(c: char): char {
    if 'A' <= c <= 'Z' then (c as int + 32) as char else c
  }

  /** `s.toLowerCase()`, folding the ASCII letters; every other code point is kept. */
  function ToLower(s: string): (r: string)
    ensures |r| == |s|
    ensures forall i :: 0 <= i < |s| ==> r[i] == LowerChar(s[i])
  {
    if s == [] then [] else [LowerChar(s[0])] + ToLower(s[1..])
  }

  /** `String(items)` for an array of strings: the items separated by `sep`. */
  function Join(items: seq<string>, sep: string): (r: string)
    ensures |items| == 0 ==> r == ""
    ensures |items| == 1 ==> r == items[0]
    ensures |items| > 1 ==> items[0] + sep <= r
  {
    if |items| == 0 then ""
    else if |items| == 1 then items[0]
    else items[0] + sep + Join(items[1..], sep)
  }
}
