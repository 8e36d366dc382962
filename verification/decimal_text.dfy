/**
 * Decimal text of Java `int` values, as `Integer.valueOf(String)` reads it.
 * The inactivity timeout is stored as the text of a number of minutes and
 * read back with `Integer.valueOf`.
 */
module DecimalText {
  import opened Wrappers

  /** Bounds of a Java `int`. */
  const INT_MIN: int := -0x8000_0000
  const INT_MAX: int := 0x7FFF_FFFF

  predicate IsDigit(c: char) {
    '0' <= c <= '9'
  }

  predicate AllDigits(s: string) {
    forall i :: 0 <= i < |s| ==> IsDigit(s[i])
  }

  function DigitValue(c: char): (d: nat)
    requires IsDigit(c)
    ensures d < 10
  {
    c as int - '0' as int
  }

  function DigitChar(d: nat): (c: char)
    requires d < 10
    ensures IsDigit(c) && DigitValue(c) == d
  {
    ('0' as int + d) as char
  }

  /** The number a string of decimal digits denotes, most significant digit first. */
  function DigitsValue(s: string): nat
    requires AllDigits(s)
  {
    if s == [] then 0 else DigitsValue(s[..|s| - 1]) * 10 + DigitValue(s[|s| - 1])
  }

  /** The decimal digits of `n`, without leading zeros. */
  function Digits(n: nat): (s: string)
    ensures |s| > 0 && AllDigits(s)
  {
    if n < 10 then [DigitChar(n)] else Digits(n / 10) + [DigitChar(n % 10)]
  }

  /** The text `Integer.toString` gives for `n`. */
  function ToDecimal(n: int): (s: string)
    ensures |s| > 0
  {
    if n < 0 then "-" + Digits(-n) else Digits(n)
  }

  /**
   * `Integer.valueOf(s)`: an optional leading '-' or '+', then one or more
   * decimal digits, denoting a value within the `int` range. `None` is the
   * NumberFormatException thrown for anything else.
   */
  function ParseInt(s: string): (r: Option<int>)
    ensures r.Some? ==> INT_MIN <= r.value <= INT_MAX
    ensures r.Some? ==> |s| > 0
  {
    if |s| == 0 then None
    else
      var digits := Unsigned(s);
      if |digits| == 0 || !AllDigits(digits) then None
      else
        var v: int := if s[0] == '-' then 0 - (DigitsValue(digits) as int) else DigitsValue(digits);
        if INT_MIN <= v <= INT_MAX then Some(v) else None
  }

  /** The text after one optional leading sign. */
  function Unsigned(s: string): (u: string)
    ensures |s| > 0 && (s[0] == '-' || s[0] == '+') ==> s == [s[0]] + u
    ensures |s| == 0 || (s[0] != '-' && s[0] != '+') ==> u == s
  {
    if |s| > 0 && (s[0] == '-' || s[0] == '+') then s[1..] else s
  }

  /**
   * The NumberFormatException cases: no digit after the optional sign, a
   * character after it that is not an ASCII decimal digit, or a value
   * outside the `int` range.
   */
  lemma ParseIntRejects(s: string)
    ensures |Unsigned(s)| == 0 ==> ParseInt(s) == None
    ensures (exists i :: 0 <= i < |Unsigned(s)| && !IsDigit(Unsigned(s)[i])) ==> ParseInt(s) == None
    ensures |s| > 0 && s[0] == '-' && AllDigits(Unsigned(s)) && DigitsValue(Unsigned(s)) > -INT_MIN ==>
      ParseInt(s) == None
    ensures (|s| == 0 || s[0] != '-') && AllDigits(Unsigned(s)) && DigitsValue(Unsigned(s)) > INT_MAX ==>
      ParseInt(s) == None
  {
  }

  /**
   * Every well-formed text is accepted: an optional sign, then one or more
   * ASCII digits (leading zeros allowed), denoting a value in the `int` range,
   * is read as that value.
   */
  lemma ParseIntAccepts(s: string)
    requires |Unsigned(s)| > 0 && AllDigits(Unsigned(s))
    requires INT_MIN <= (if s[0] == '-' then 0 - (DigitsValue(Unsigned(s)) as int) else DigitsValue(Unsigned(s))) <= INT_MAX
    ensures ParseInt(s) == Some(if s[0] == '-' then 0 - (DigitsValue(Unsigned(s)) as int) else DigitsValue(Unsigned(s)))
  {
  }

  /** Examples of the accepted forms: a '+' sign, leading zeros, and "-0". */
  lemma ParseIntExamples()
    ensures ParseInt("+7") == Some(7) && ParseInt("007") == Some(7) && ParseInt("-0") == Some(0)
  {
    ParseIntAccepts("+7");
    ParseIntAccepts("007");
    ParseIntAccepts("-0");
    assert DigitsValue("00") == 0 by { assert "00"[..1] == "0"; assert "0"[..0] == ""; }
  }

  /**
   * Conversely, text that is read as `v` is an optional sign followed by
   * decimal digits denoting the magnitude of `v`, with '-' exactly when the
   * digits are read as negative.
   */
  lemma ParseIntReadsDigits(s: string, v: int)
    requires ParseInt(s) == Some(v)
    ensures |Unsigned(s)| > 0 && AllDigits(Unsigned(s))
    ensures s[0] == '-' ==> v == 0 - (DigitsValue(Unsigned(s)) as int)
    ensures s[0] != '-' ==> v == DigitsValue(Unsigned(s))
    ensures v < 0 ==> s[0] == '-'
  {
  }

  lemma {:induction false} DigitsValueOfDigits(n: nat)
    ensures DigitsValue(Digits(n)) == n
  {
    if n >= 10 {
      DigitsValueOfDigits(n / 10);
      var s := Digits(n);
      assert s[..|s| - 1] == Digits(n / 10);
    }
  }

  /** Every `int` written in decimal is read back as itself. */
  lemma ParseIntOfToDecimal(n: int)
    requires INT_MIN <= n <= INT_MAX
    ensures ParseInt(ToDecimal(n)) == Some(n)
  {
    if n < 0 {
      DigitsValueOfDigits(-n);
      assert ToDecimal(n)[1..] == Digits(-n);
    } else {
      DigitsValueOfDigits(n);
    }
  }
}
