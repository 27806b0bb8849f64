/** Decimal text and numbers as the scripts convert between them:
    `String(n)` / template interpolation of an integer, `parseInt(s)`
    (leading white space, an optional sign, then the longest run of decimal
    digits, or of hexadecimal digits after a "0x" or "0X" prefix; `NaN`
    when there is none) and `Number(s)` on the integer
    strings the calendar feed carries. `NaN` is `None`. */
module Numerals {
  import opened Js

  predicate IsDigit(c: char) {
    '0' <= c <= '9'
  }

  predicate AllDigits(s: string) {
    forall i :: 0 <= i < |s| ==> IsDigit(s[i])
  }

  predicate IsSpace(c: char) {
    c == ' ' || c == '\t' || c == '\n' || c == '\r'
  }

  function DigitChar(d: nat): (c: char)
    requires d < 10
    ensures IsDigit(c)
  {
    ('0' as int + d) as char
  }

  function DigitValue(c: char): (d: nat)
    requires IsDigit(c)
    ensures d < 10 && DigitChar(d) == c
  {
    c as int - '0' as int
  }

  /** Decimal rendering of a natural number, most significant digit first. */
  function NatToString(n: nat): (r: string)
    ensures |r| >= 1 && AllDigits(r)
    ensures |r| > 1 ==> r[0] != '0'
    decreases n
  {
    if n < 10 then [DigitChar(n)] else NatToString(n / 10) + [DigitChar(n % 10)]
  }

  /** `String(i)` for an integer: a leading minus sign when negative. */
  function IntToString(i: int): (r: string)
    ensures |r| >= 1
  {
    if i < 0 then "-" + NatToString(-i) else NatToString(i)
  }

  /** The value of a string of decimal digits. */
  function DigitsValue(ds: string): nat
    requires AllDigits(ds)
  {
    if |ds| == 0 then 0 else DigitsValue(ds[..|ds| - 1]) * 10 + DigitValue(ds[|ds| - 1])
  }

  lemma {:induction false} ValueOfNatToString(n: nat)
    ensures DigitsValue(NatToString(n)) == n
    decreases n
  {
    if n >= 10 {
      var s := NatToString(n);
      ValueOfNatToString(n / 10);
      assert s[..|s| - 1] == NatToString(n / 10);
    }
  }

  /** The longest prefix of `s` made of decimal digits. */
  function LeadingDigits(s: string): (r: string)
    ensures |r| <= |s| && r == s[..|r|] && AllDigits(r)
    ensures |r| < |s| ==> !IsDigit(s[|r|])
  {
    if |s| > 0 && IsDigit(s[0]) then [s[0]] + LeadingDigits(s[1..]) else ""
  }

  function TrimStart(s: string): (r: string)
    ensures |r| <= |s|
    ensures |r| > 0 ==> !IsSpace(r[0])
  {
    if |s| > 0 && IsSpace(s[0]) then TrimStart(s[1..]) else s
  }

  function TrimEnd(s: string): (r: string)
    ensures |r| <= |s|
    ensures |r| > 0 ==> !IsSpace(r[|r| - 1])
  {
    if |s| > 0 && IsSpace(s[|s| - 1]) then TrimEnd(s[..|s| - 1]) else s
  }

  predicate IsHexDigit(c: char) {
    IsDigit(c) || 'a' <= c <= 'f' || 'A' <= c <= 'F'
  }

  function HexValue(c: char): (d: nat)
    requires IsHexDigit(c)
    ensures d < 16
  {
    if IsDigit(c) then DigitValue(c)
    else if 'a' <= c <= 'f' then c as int - 'a' as int + 10
    else c as int - 'A' as int + 10
  }

  predicate AllHexDigits(s: string) {
    forall i :: 0 <= i < |s| ==> IsHexDigit(s[i])
  }

  /** The value of a string of hexadecimal digits. */
  function HexDigitsValue(hs: string): nat
    requires AllHexDigits(hs)
  {
    if |hs| == 0 then 0 else HexDigitsValue(hs[..|hs| - 1]) * 16 + HexValue(hs[|hs| - 1])
  }

  /** The longest prefix of `s` made of hexadecimal digits. */
  function LeadingHexDigits(s: string): (r: string)
    ensures |r| <= |s| && r == s[..|r|] && AllHexDigits(r)
    ensures |r| < |s| ==> !IsHexDigit(s[|r|])
  {
    if |s| > 0 && IsHexDigit(s[0]) then [s[0]] + LeadingHexDigits(s[1..]) else ""
  }

  /** "0x" or "0X" after the sign: without a radix, `parseInt` then reads
      hexadecimal digits. */
  predicate HexPrefixed(body: string) {
    |body| >= 2 && body[0] == '0' && (body[1] == 'x' || body[1] == 'X')
  }

  /** What `parseInt` reads after the sign: the hexadecimal digits after
      the prefix, or else the leading decimal digits; `NaN` when there are
      none. */
  function Magnitude(body: string): Option<nat> {
    if HexPrefixed(body) then
      var hs := LeadingHexDigits(body[2..]);
      if |hs| == 0 then None else Some(HexDigitsValue(hs))
    else
      var ds := LeadingDigits(body);
      if |ds| == 0 then None else Some(DigitsValue(ds))
  }

  /** `parseInt(s)` without a radix. */
  function ParseInt(s: string): Option<int> {
    var t := TrimStart(s);
    var negative := |t| > 0 && t[0] == '-';
    var body := if |t| > 0 && (t[0] == '-' || t[0] == '+') then t[1..] else t;
    var m := Magnitude(body);
    if m.None? then None else Some(if negative then -(m.value as int) else m.value)
  }

  /** `Number(s)` for strings that hold a whole number: surrounding white
      space is ignored, the empty string is 0, anything else that is not
      an optionally signed run of digits is `NaN`. */
  function ToNumber(s: string): Option<int> {
    var t := TrimEnd(TrimStart(s));
    var negative := |t| > 0 && t[0] == '-';
    var body := if |t| > 0 && (t[0] == '-' || t[0] == '+') then t[1..] else t;
    if |t| == 0 then Some(0)
    else if |body| == 0 || !AllDigits(body) then None
    else var v: int := DigitsValue(body); Some(if negative then -v else v)
  }

  lemma {:induction false} LeadingDigitsOfDigits(s: string)
    requires AllDigits(s)
    ensures LeadingDigits(s) == s
  {
    if |s| > 0 {
      LeadingDigitsOfDigits(s[1..]);
    }
  }

  /** A run of digits other than "0x..." reads as its value. */
  lemma {:induction false} MagnitudeOfDigits(ds: string)
    requires |ds| > 0 && AllDigits(ds)
    ensures Magnitude(ds) == Some(DigitsValue(ds))
  {
    assert !HexPrefixed(ds);
    LeadingDigitsOfDigits(ds);
  }

  /** Reading back what `String(n)` wrote gives `n`. */
  lemma NatRoundTrip(n: nat)
    ensures ParseInt(NatToString(n)) == Some(n)
  {
    var s := NatToString(n);
    assert TrimStart(s) == s;
    MagnitudeOfDigits(s);
    ValueOfNatToString(n);
  }

  lemma {:induction false} ParseNegative(digits: string)
    requires |digits| > 0 && AllDigits(digits)
    ensures ParseInt("-" + digits) == Some(-(DigitsValue(digits) as int))
  {
    var s := "-" + digits;
    assert s[0] == '-' && s[1..] == digits;
    MagnitudeOfDigits(digits);
    ParseIntSigned(s);
  }

  /** A minus sign followed by digits reads as the negated value. */
  lemma {:induction false} ParseIntSigned(s: string)
    requires |s| > 1 && s[0] == '-' && AllDigits(s[1..]) && Magnitude(s[1..]) == Some(DigitsValue(s[1..]))
    ensures ParseInt(s) == Some(-(DigitsValue(s[1..]) as int))
  {
    assert TrimStart(s) == s;
  }

  /** Reading back what `String(i)` wrote gives `i`, negative or not. */
  lemma {:induction false} IntRoundTrip(i: int)
    ensures ParseInt(IntToString(i)) == Some(i)
  {
    if i < 0 {
      ParseNegative(NatToString(-i));
      ValueOfNatToString(-i);
    } else {
      NatRoundTrip(i);
    }
  }

  /** `Number` reads back what `String(n)` wrote as well. */
  lemma NumberRoundTrip(n: nat)
    ensures ToNumber(NatToString(n)) == Some(n)
  {
    var s := NatToString(n);
    assert TrimStart(s) == s;
    assert TrimEnd(s) == s;
    ValueOfNatToString(n);
  }

  /** Distinct numbers are written differently. */
  lemma NatToStringInjective(m: nat, n: nat)
    requires NatToString(m) == NatToString(n)
    ensures m == n
  {
    NatRoundTrip(m);
    NatRoundTrip(n);
  }

  /** Parsing stops at the first character that is not a digit, unless
      a lone 0 followed by 'x' or 'X' makes it hexadecimal. */
  lemma ParseIntStopsAtNonDigit(n: nat, rest: string)
    requires |rest| > 0 && !IsDigit(rest[0])
    requires n != 0 || (rest[0] != 'x' && rest[0] != 'X')
    ensures ParseInt(NatToString(n) + rest) == Some(n)
  {
    var digits := NatToString(n);
    var s := digits + rest;
    assert s[0] == digits[0];
    assert TrimStart(s) == s;
    assert !HexPrefixed(s);
    LeadingDigitsPrefix(digits, rest);
    ValueOfNatToString(n);
  }

  lemma {:induction false} LeadingDigitsPrefix(digits: string, rest: string)
    requires AllDigits(digits)
    requires |rest| > 0 && !IsDigit(rest[0])
    ensures LeadingDigits(digits + rest) == digits
  {
    if |digits| == 0 {
      assert digits + rest == rest;
    } else {
      assert (digits + rest)[1..] == digits[1..] + rest;
      LeadingDigitsPrefix(digits[1..], rest);
    }
  }

  /** `parseInt` reads a written integer back from the front of a text,
      stopping at the first character that is not a digit; only a 0
      followed by 'x' or 'X' is read otherwise, as hexadecimal. */
  lemma IntStopsAtNonDigit(i: int, rest: string)
    requires |rest| > 0 && !IsDigit(rest[0])
    requires i != 0 || (rest[0] != 'x' && rest[0] != 'X')
    ensures ParseInt(IntToString(i) + rest) == Some(i)
  {
    if i < 0 {
      var digits := NatToString(-i);
      var s := "-" + digits + rest;
      assert s[0] == '-';
      assert TrimStart(s) == s;
      assert s[1..] == digits + rest;
      LeadingDigitsPrefix(digits, rest);
      ValueOfNatToString(-i);
    } else {
      ParseIntStopsAtNonDigit(i, rest);
    }
  }

  /** What white-space trimming leaves is a piece of the text. */
  lemma {:induction false} TrimStartSuffix(s: string)
    ensures TrimStart(s) == s[|s| - |TrimStart(s)|..]
  {
    if |s| > 0 && IsSpace(s[0]) {
      TrimStartSuffix(s[1..]);
      assert s[1..][|s| - 1 - |TrimStart(s)|..] == s[|s| - |TrimStart(s)|..];
    }
  }

  lemma {:induction false} TrimEndPrefix(s: string)
    ensures TrimEnd(s) == s[..|TrimEnd(s)|]
  {
    if |s| > 0 && IsSpace(s[|s| - 1]) {
      TrimEndPrefix(s[..|s| - 1]);
    }
  }

  /** `parseInt` gives a number only for a text holding a digit. A text
      that starts with a digit is read as a number that is not negative,
      and always is unless it starts with "0x" or "0X"; then it needs a
      hexadecimal digit right after the prefix. */
  lemma {:induction false} ParseIntDigits(s: string)
    ensures ParseInt(s).Some? ==> exists k :: 0 <= k < |s| && IsDigit(s[k])
    ensures |s| > 0 && IsDigit(s[0]) && ParseInt(s).Some? ==> ParseInt(s).value >= 0
    ensures |s| > 0 && IsDigit(s[0]) && !HexPrefixed(s) ==> ParseInt(s).Some?
    ensures HexPrefixed(s) ==> (ParseInt(s).Some? <==> |s| > 2 && IsHexDigit(s[2]))
  {
    var t := TrimStart(s);
    TrimStartSuffix(s);
    if ParseInt(s).Some? {
      if |t| > 0 && (t[0] == '-' || t[0] == '+') {
        assert IsDigit(t[1]);
        assert IsDigit(s[|s| - |t| + 1]);
      } else {
        assert IsDigit(t[0]);
        assert IsDigit(s[|s| - |t|]);
      }
    }
    if |s| > 0 && IsDigit(s[0]) {
      assert t == s;
    }
  }

  /** Hexadecimal reading in examples: "0x10" is 16, "0X" alone and "0xg"
      are `NaN`, and "-0x1f" is -31. */
  lemma HexExamples()
    ensures ParseInt("0x10") == Some(16)
    ensures ParseInt("0X") == None
    ensures ParseInt("0xg") == None
    ensures ParseInt("-0x1f") == Some(-31)
  {
    HexSixteen();
    assert TrimStart("0X") == "0X";
    assert TrimStart("0xg") == "0xg" && "0xg"[2..] == "g";
    HexMinusThirtyOne();
  }

  lemma HexSixteen()
    ensures ParseInt("0x10") == Some(16)
  {
    var s := "0x10";
    assert TrimStart(s) == s && HexPrefixed(s) && s[2..] == "10";
    assert LeadingHexDigits("10") == "10";
    assert "10"[..1] == "1" && "1"[..0] == "";
    assert HexDigitsValue("10") == 16;
  }

  lemma HexMinusThirtyOne()
    ensures ParseInt("-0x1f") == Some(-31)
  {
    var s := "-0x1f";
    assert TrimStart(s) == s && s[1..] == "0x1f" && "0x1f"[2..] == "1f";
    assert LeadingHexDigits("1f") == "1f";
    assert "1f"[..1] == "1" && "1"[..0] == "";
    assert HexDigitsValue("1f") == 31;
  }

  /** `Number` gives a non-zero number only for a text holding a digit,
      and reads a text of digits as their value. */
  lemma {:induction false} ToNumberDigits(s: string)
    ensures ToNumber(s).Some? && ToNumber(s).value != 0 ==> exists k :: 0 <= k < |s| && IsDigit(s[k])
    ensures |s| > 0 && AllDigits(s) ==> ToNumber(s) == Some(DigitsValue(s))
  {
    if ToNumber(s).Some? && ToNumber(s).value != 0 {
      ToNumberNeedsDigit(s);
    }
    if |s| > 0 && AllDigits(s) {
      assert !IsSpace(s[0]) && !IsSpace(s[|s| - 1]);
      assert TrimStart(s) == s;
      assert TrimEnd(s) == s;
    }
  }

  lemma {:induction false} ToNumberNeedsDigit(s: string)
    requires ToNumber(s).Some? && ToNumber(s).value != 0
    ensures exists k :: 0 <= k < |s| && IsDigit(s[k])
  {
    var u := TrimStart(s);
    var t := TrimEnd(u);
    TrimStartSuffix(s);
    TrimEndPrefix(u);
    assert |t| > 0;
    var body := if t[0] == '-' || t[0] == '+' then t[1..] else t;
    assert |body| > 0 && AllDigits(body);
    var j := if t[0] == '-' || t[0] == '+' then 1 else 0;
    assert t[j] == body[0] && t[j] == u[j] == s[|s| - |u| + j];
    assert IsDigit(s[|s| - |u| + j]);
  }
}
