/** Decimal text of numbers: Python's str() of an int, int() and float() of a string, and round(x, 2). */
module NumberText {
  import opened Outcomes

  predicate IsDigit(c: char) {
    '0' <= c <= '9'
  }

  predicate AllDigits(s: string) {
    forall i :: 0 <= i < |s| ==> IsDigit(s[i])
  }

  function DigitValue(c: char): nat
    requires IsDigit(c)
  {
    (c as int) - ('0' as int)
  }

  function DigitChar(d: nat): (c: char)
    requires d < 10
    ensures IsDigit(c) && DigitValue(c) == d
  {
    (('0' as int) + d) as char
  }

  /** The number a string of decimal digits denotes (the empty string denotes 0). */
  function DigitsValue(s: string): nat
    requires AllDigits(s)
  {
    if s == [] then 0 else DigitsValue(s[..|s| - 1]) * 10 + DigitValue(s[|s| - 1])
  }

  /** str(n) for a natural number: its shortest decimal digit string. */
  function NatToString(n: nat): (s: string)
    ensures |s| > 0 && AllDigits(s)
  {
    if n < 10 then [DigitChar(n)] else NatToString(n / 10) + [DigitChar(n % 10)]
  }

  /** str(n) for any integer: a minus sign before the digits of a negative number. */
  function IntToString(n: int): (s: string)
    ensures |s| > 0
    ensures n >= 0 ==> AllDigits(s)
    ensures n < 0 ==> s[0] == '-' && AllDigits(s[1..])
  {
    if n < 0 then "-" + NatToString(-n) else NatToString(n)
  }

  /** The characters Python strips around the text given to int() and float() (ASCII ones). */
  predicate IsSpace(c: char) {
    c == ' ' || 9 <= c as int <= 13
  }

  function StripLeading(s: string): string {
    if s != [] && IsSpace(s[0]) then StripLeading(s[1..]) else s
  }

  function StripTrailing(s: string): string {
    if s != [] && IsSpace(s[|s| - 1]) then StripTrailing(s[..|s| - 1]) else s
  }

  function Strip(s: string): string {
    StripTrailing(StripLeading(s))
  }

  /** An optional leading sign, split off: (is it a minus, the rest). */
  function SplitSign(s: string): (bool, string) {
    if s != [] && (s[0] == '-' || s[0] == '+') then (s[0] == '-', s[1..]) else (false, s)
  }

  /** int(s): optional sign, at least one digit, surrounding whitespace ignored; anything else is a ValueError (None). */
  function ParseInt(s: string): Option<int> {
    var (negative, body) := SplitSign(Strip(s));
    if body != [] && AllDigits(body) then
      Some(if negative then -(DigitsValue(body) as int) else DigitsValue(body))
    else
      None
  }

  /** The index of the first character of s that is in cs, or |s| when there is none. */
  function FindAny(s: string, cs: set<char>): (i: nat)
    ensures i <= |s|
    ensures i < |s| ==> s[i] in cs
    ensures forall j :: 0 <= j < i ==> s[j] !in cs
  {
    if s == [] then 0 else if s[0] in cs then 0 else 1 + FindAny(s[1..], cs)
  }

  function Pow10(e: nat): (r: real)
    ensures r >= 1.0
  {
    if e == 0 then 1.0 else 10.0 * Pow10(e - 1)
  }

  /** Digits with at most one '.', and at least one digit in all ("5", "5.", ".5", "5.25"). */
  function ParseMantissa(s: string): Option<real> {
    var p := FindAny(s, {'.'});
    MantissaValue(s[..p], if p < |s| then s[p + 1..] else [])
  }

  /** The value of the digits before and after the point, when both are digits and not both empty. */
  function MantissaValue(whole: string, fraction: string): Option<real> {
    if AllDigits(whole) && AllDigits(fraction) && |whole| + |fraction| > 0 then
      Some(DigitsValue(whole) as real + DigitsValue(fraction) as real / Pow10(|fraction|))
    else
      None
  }

  /** The exponent after 'e' or 'E': an optional sign and at least one digit. */
  function ParseExponent(s: string): Option<int> {
    var (negative, body) := SplitSign(s);
    if body != [] && AllDigits(body) then
      Some(if negative then -(DigitsValue(body) as int) else DigitsValue(body))
    else
      None
  }

  /** float(s) for decimal text: sign, mantissa, optional exponent, surrounding whitespace ignored;
      anything else is a ValueError (None). */
  function ParseFloat(s: string): Option<real> {
    var (negative, body) := SplitSign(Strip(s));
    var e := FindAny(body, {'e', 'E'});
    var mantissa := ParseMantissa(body[..e]);
    var exponent := if e < |body| then ParseExponent(body[e + 1..]) else Some(0);
    if mantissa.Some? && exponent.Some? then
      var magnitude := if exponent.value >= 0 then mantissa.value * Pow10(exponent.value)
                       else mantissa.value / Pow10(-exponent.value);
      Some(if negative then -magnitude else magnitude)
    else
      None
  }

  /** round(x, 2): the nearest multiple of 1/100, a tie going to the even multiple. */
  function Round2(x: real): (r: real)
    ensures -1.0 / 200.0 <= r - x <= 1.0 / 200.0
    ensures (r * 100.0).Floor as real == r * 100.0
    ensures x * 100.0 - (x * 100.0).Floor as real != 0.5 ==> -1.0 / 200.0 < r - x < 1.0 / 200.0
    ensures x * 100.0 - (x * 100.0).Floor as real == 0.5 ==> (r * 100.0).Floor % 2 == 0
  {
    var y := x * 100.0;
    var f := y.Floor;
    var d := y - f as real;
    var k := if d < 0.5 then f else if d > 0.5 then f + 1 else if f % 2 == 0 then f else f + 1;
    assert (k as real / 100.0) * 100.0 == k as real;
    k as real / 100.0
  }

  /** A value that already has two decimals is left as it is. */
  lemma Round2Exact(k: int)
    ensures Round2(k as real / 100.0) == k as real / 100.0
  {
    var y := (k as real / 100.0) * 100.0;
    assert y == k as real;
    assert y.Floor == k;
  }

  /** Reading back the digits of str(n) gives n. */
  lemma {:induction false} NatToStringValue(n: nat)
    ensures DigitsValue(NatToString(n)) == n
  {
    if n >= 10 {
      var s := NatToString(n);
      assert s[..|s| - 1] == NatToString(n / 10);
      NatToStringValue(n / 10);
    }
  }

  lemma DigitsHaveNoSpace(s: string)
    requires |s| > 0 && AllDigits(s)
    ensures Strip(s) == s
  {
    assert !IsSpace(s[0]) && !IsSpace(s[|s| - 1]);
  }

  lemma SignedHasNoSpace(s: string)
    requires |s| > 1 && s[0] == '-' && AllDigits(s[1..])
    ensures Strip(s) == s
  {
    assert s[|s| - 1] == s[1..][|s| - 2];
    assert !IsSpace(s[0]) && !IsSpace(s[|s| - 1]);
  }

  /** int(str(n)) == n: the text the model renders for an integer parses back to it. */
  lemma ParseIntOfIntToString(n: int)
    ensures ParseInt(IntToString(n)) == Some(n)
  {
    var s := IntToString(n);
    if n >= 0 {
      DigitsHaveNoSpace(s);
      NatToStringValue(n);
      assert SplitSign(s) == (false, s);
    } else {
      SignedHasNoSpace(s);
      NatToStringValue(-n);
      assert s[1..] == NatToString(-n);
      assert SplitSign(s) == (true, NatToString(-n));
    }
  }

  /** A digit string contains none of a set of non-digit characters. */
  lemma {:induction false} FindAnyInDigits(s: string, cs: set<char>)
    requires AllDigits(s)
    requires forall c :: c in cs ==> !IsDigit(c)
    ensures FindAny(s, cs) == |s|
    decreases |s|
  {
    if s != [] {
      assert IsDigit(s[0]) && s[0] !in cs;
      assert AllDigits(s[1..]);
      FindAnyInDigits(s[1..], cs);
    }
  }

  /** A non-empty digit string read as a mantissa has no fraction: its value is its digits' value. */
  lemma ParseMantissaOfDigits(body: string)
    requires |body| > 0 && AllDigits(body)
    ensures ParseMantissa(body) == Some(DigitsValue(body) as real)
  {
    FindAnyInDigits(body, {'.'});
    assert body[..|body|] == body;
    assert ParseMantissa(body) == MantissaValue(body, []);
    WholeMantissa(body);
  }

  lemma WholeMantissa(whole: string)
    requires |whole| > 0 && AllDigits(whole)
    ensures MantissaValue(whole, []) == Some(DigitsValue(whole) as real)
  {
    assert Pow10(0) == 1.0 && DigitsValue([]) == 0;
  }

  /** Text that is, after stripping and an optional sign, a run of digits is the float it denotes. */
  lemma ParseFloatOfDigits(s: string, negative: bool, body: string)
    requires SplitSign(Strip(s)) == (negative, body) && |body| > 0 && AllDigits(body)
    ensures ParseFloat(s) == Some(if negative then -(DigitsValue(body) as real) else DigitsValue(body) as real)
  {
    FindAnyInDigits(body, {'e', 'E'});
    ParseMantissaOfDigits(body);
    assert body[..|body|] == body;
    assert Pow10(0) == 1.0;
  }

  /** float(str(n)) == n: integer text is also valid float text, with the same value. */
  lemma ParseFloatOfIntToString(n: int)
    ensures ParseFloat(IntToString(n)) == Some(n as real)
  {
    var s := IntToString(n);
    if n >= 0 {
      DigitsHaveNoSpace(s);
      NatToStringValue(n);
      assert SplitSign(Strip(s)) == (false, s);
      ParseFloatOfDigits(s, false, s);
    } else {
      SignedHasNoSpace(s);
      NatToStringValue(-n);
      assert s[1..] == NatToString(-n);
      assert SplitSign(Strip(s)) == (true, s[1..]);
      ParseFloatOfDigits(s, true, s[1..]);
    }
  }

  /** Distinct integers render to distinct text. */
  lemma IntToStringInjective(m: int, n: int)
    requires IntToString(m) == IntToString(n)
    ensures m == n
  {
    ParseIntOfIntToString(m);
    ParseIntOfIntToString(n);
  }
}
