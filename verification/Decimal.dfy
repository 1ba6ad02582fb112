/** Decimal text of integers as CPython writes it (`str`) and reads it (`int`). */
module Decimal {
  import opened Common

  /** CPython refuses to convert longer digit strings in either direction. */
  const MAX_INT_DIGITS := 4300

  predicate IsDigit(c: char) {
    '0' <= c <= '9'
  }

  function DigitChar(d: nat): char
    requires d < 10
  {
    ('0' as int + d) as char
  }

  function Digits(n: nat): (r: string)
    ensures r != "" && forall c :: c in r ==> IsDigit(c)
  {
    if n < 10 then [DigitChar(n)] else Digits(n / 10) + [DigitChar(n % 10)]
  }

  function IntToString(i: int): string {
    if i < 0 then "-" + Digits(-i) else Digits(i)
  }

  /** The value of a string of digits. */
  function DigitsValue(s: string): nat
    requires forall c :: c in s ==> IsDigit(c)
  {
    if s == "" then 0
    else
      assert IsDigit(s[|s| - 1]);
      10 * DigitsValue(s[..|s| - 1]) + (s[|s| - 1] as int - '0' as int)
  }

  /** Digits that may be grouped by single underscores. */
  predicate IsDigitBody(s: string) {
    && s != ""
    && IsDigit(s[0]) && IsDigit(s[|s| - 1])
    && (forall c :: c in s ==> IsDigit(c) || c == '_')
    && (forall i :: 0 <= i < |s| - 1 ==> s[i] != '_' || s[i + 1] != '_')
  }

  function OnlyDigits(s: string): (r: string)
    ensures forall c :: c in r ==> IsDigit(c)
  {
    if s == "" then ""
    else (if IsDigit(s[0]) then [s[0]] else "") + OnlyDigits(s[1..])
  }

  /** `int(text)` for ASCII text; `None` is ValueError. */
  function ParseInt(text: string): Option<int> {
    var s := Strip(text);
    var signed := s != "" && (s[0] == '-' || s[0] == '+');
    var body := if signed then s[1..] else s;
    if !IsDigitBody(body) || |OnlyDigits(body)| > MAX_INT_DIGITS then None
    else
      var v: int := DigitsValue(OnlyDigits(body));
      Some(if signed && s[0] == '-' then -v else v)
  }

  /** Integers CPython converts to text. */
  predicate Printable(i: int) {
    |Digits(if i < 0 then -i else i)| <= MAX_INT_DIGITS
  }

  lemma {:induction false} DigitsRoundTrip(n: nat)
    ensures DigitsValue(Digits(n)) == n
  {
    if n >= 10 {
      DigitsRoundTrip(n / 10);
      assert Digits(n)[..|Digits(n)| - 1] == Digits(n / 10);
    }
  }

  lemma {:induction false} OnlyDigitsOfDigits(s: string)
    requires forall c :: c in s ==> IsDigit(c)
    ensures OnlyDigits(s) == s
  {
    if s != "" {
      assert IsDigit(s[0]);
      OnlyDigitsOfDigits(s[1..]);
      assert s == [s[0]] + s[1..];
    }
  }

  lemma DigitsAreBody(n: nat)
    ensures IsDigitBody(Digits(n)) && OnlyDigits(Digits(n)) == Digits(n)
  {
    var d := Digits(n);
    forall k | 0 <= k < |d| ensures IsDigit(d[k]) {
      assert d[k] in d;
    }
    OnlyDigitsOfDigits(d);
  }

  lemma StripKeeps(s: string)
    requires s != "" && !IsSpace(s[0]) && !IsSpace(s[|s| - 1])
    ensures Strip(s) == s
  {}

  lemma SignsAndDigitsAreNoSpaces(c: char)
    requires IsDigit(c) || c == '-'
    ensures !IsSpace(c)
  {}

  lemma WrittenIsStripped(i: int)
    ensures Strip(IntToString(i)) == IntToString(i)
  {
    var d, s := Digits(if i < 0 then -i else i), IntToString(i);
    assert d[0] in d && d[|d| - 1] in d;
    assert s[0] == (if i < 0 then '-' else d[0]) && s[|s| - 1] == d[|d| - 1];
    SignsAndDigitsAreNoSpaces(s[0]);
    SignsAndDigitsAreNoSpaces(s[|s| - 1]);
    StripKeeps(s);
  }

  /** Reading back what was written gives the same integer. */
  lemma ParseRoundTrip(i: int)
    requires Printable(i)
    ensures ParseInt(IntToString(i)) == Some(i)
  {
    var n := if i < 0 then -i else i;
    var d, s := Digits(n), IntToString(i);
    WrittenIsStripped(i);
    DigitsAreBody(n);
    DigitsRoundTrip(n);
    assert d[0] in d;
    var signed := s != "" && (s[0] == '-' || s[0] == '+');
    assert signed == (i < 0);
    assert (if signed then s[1..] else s) == d;
  }

  lemma IntToStringIsInjective(i: int, j: int)
    requires IntToString(i) == IntToString(j)
    ensures i == j
  {
    var s, t := IntToString(i), IntToString(j);
    var d, e := Digits(if i < 0 then -i else i), Digits(if j < 0 then -j else j);
    assert d[0] in d && e[0] in e;
    assert (i < 0) == (s[0] == '-') && (j < 0) == (t[0] == '-');
    assert d == if i < 0 then s[1..] else s;
    assert e == if j < 0 then t[1..] else t;
    DigitsRoundTrip(if i < 0 then -i else i);
    DigitsRoundTrip(if j < 0 then -j else j);
  }
}
