/**
 * The JavaScript string operations the model relies on: `s.length` (in
 * UTF-16 code units), `s.split(' ').at(0)` (the first space-separated token)
 * and the unary plus `+s` (string to number), restricted to plain decimal
 * notation.
 */
module JsText {

  /** A JavaScript number as produced by unary plus: either NaN or a finite value. */
  datatype Number = NaN | Num(value: real)

  predicate IsDigit(c: char) {
    '0' <= c <= '9'
  }

  function DigitValue(c: char): (d: nat)
    requires IsDigit(c)
    ensures d < 10
  {
    c as int - '0' as int
  }

  predicate AllDigits(s: string) {
    forall i :: 0 <= i < |s| ==> IsDigit(s[i])
  }

  /**
   * `s.split(' ').at(0)`: the text before the first space, or all of `s`
   * when it holds no space (JavaScript gives `[""]` for the empty string).
   */
  function FirstToken(s: string): (t: string)
    ensures t <= s
    ensures ' ' !in t
    ensures t == s || s[|t|] == ' '
  {
    if s == [] || s[0] == ' ' then [] else [s[0]] + FirstToken(s[1..])
  }

  /** The first token of `t + " " + rest` is `t` whenever `t` holds no space. */
  lemma {:induction false} FirstTokenOfJoin(t: string, rest: string)
    requires ' ' !in t
    ensures FirstToken(t + " " + rest) == t
  {
    if t != [] {
      assert (t + " " + rest)[1..] == t[1..] + " " + rest;
      FirstTokenOfJoin(t[1..], rest);
    } else {
      assert (t + " " + rest)[0] == ' ';
    }
  }

  /** The value of a string of decimal digits, most significant first. */
  function DigitsValue(s: string): (v: nat)
    requires AllDigits(s)
  {
    if s == [] then 0 else 10 * DigitsValue(s[..|s| - 1]) + DigitValue(s[|s| - 1])
  }

  function Pow10(n: nat): (p: nat)
    ensures p >= 1
  {
    if n == 0 then 1 else 10 * Pow10(n - 1)
  }

  /** The index of the first '.', or |s| when there is none. */
  function DotIndex(s: string): (k: nat)
    ensures k <= |s|
    ensures '.' !in s[..k]
    ensures k < |s| ==> s[k] == '.'
  {
    if s == [] then 0
    else if s[0] == '.' then 0
    else
      var k := 1 + DotIndex(s[1..]);
      assert s[..k] == [s[0]] + s[1..][..k - 1];
      k
  }

  /**
   * Unary plus on a string, for plain decimal notation: the empty string is 0,
   * `digits`, `digits.`, `.digits` and `digits.digits` are their decimal value,
   * anything else is NaN.
   */
  function ToNumber(s: string): (n: Number)
    ensures s == [] ==> n == Num(0.0)
    ensures s != [] && !AllDigits(s) && '.' !in s ==> n == NaN
    ensures s == "." ==> n == NaN
  {
    if s == [] then Num(0.0)
    else
      var k := DotIndex(s);
      var whole, fraction := s[..k], if k < |s| then s[k + 1..] else [];
      if AllDigits(whole) && AllDigits(fraction) && |whole| + |fraction| > 0 then
        Num(DigitsValue(whole) as real + DigitsValue(fraction) as real / Pow10(|fraction|) as real)
      else
        NaN
  }

  /** The decimal spelling of a natural number, as `String(n)` writes it. */
  function NatToString(n: nat): (s: string)
    ensures |s| > 0 && AllDigits(s)
  {
    var digit := ['0' + (n % 10) as char];
    if n < 10 then digit else NatToString(n / 10) + digit
  }

  lemma {:induction false} DigitsValueOfNatToString(n: nat)
    ensures DigitsValue(NatToString(n)) == n
  {
    var s := NatToString(n);
    if n >= 10 {
      DigitsValueOfNatToString(n / 10);
      assert s[..|s| - 1] == NatToString(n / 10);
    }
  }

  /** Unary plus inverts `String(n)` on natural numbers: `+String(n) === n`. */
  lemma ToNumberOfNatToString(n: nat)
    ensures ToNumber(NatToString(n)) == Num(n as real)
  {
    var s := NatToString(n);
    var k := DotIndex(s);
    assert forall i :: 0 <= i < |s| ==> s[i] != '.';
    assert s[..k] == s;
    DigitsValueOfNatToString(n);
  }

  /** A runtime text such as "142 min" becomes the number of its leading token. */
  lemma RuntimeOfMinutesText(n: nat)
    ensures ToNumber(FirstToken(NatToString(n) + " min")) == Num(n as real)
  {
    var t := NatToString(n);
    assert forall i :: 0 <= i < |t| ==> t[i] != ' ';
    assert t + " min" == t + " " + "min";
    FirstTokenOfJoin(t, "min");
    ToNumberOfNatToString(n);
  }

  /** An IMDb rating text such as "7.5" becomes its decimal value. */
  lemma DecimalRatingText()
    ensures ToNumber("7.5") == Num(7.5)
    ensures ToNumber("N/A") == NaN
  {
  }

  /** The UTF-16 code units of one character: two (a surrogate pair) above U+FFFF. */
  function CodeUnits(c: char): nat
  {
    if c as int < 0x1_0000 then 1 else 2
  }

  /**
   * `s.length`: a JavaScript string counts UTF-16 code units, so every
   * character outside the Basic Multilingual Plane counts twice.
   */
  function Utf16Length(s: string): (n: nat)
    ensures |s| <= n <= 2 * |s|
    ensures n == |s| <==> forall i :: 0 <= i < |s| ==> s[i] as int < 0x1_0000
  {
    if s == [] then 0
    else
      var n := CodeUnits(s[0]) + Utf16Length(s[1..]);
      assert forall i :: 1 <= i < |s| ==> s[i] == s[1..][i - 1];
      n
  }

  /** Two emoji are two characters but four code units. */
  lemma Utf16LengthOfEmojiPair()
    ensures |"\U{1F600}\U{1F600}"| == 2
    ensures Utf16Length("\U{1F600}\U{1F600}") == 4
  {
  }
}
