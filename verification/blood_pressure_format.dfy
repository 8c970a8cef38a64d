/**
 * The display string of a reading, "<systolic>/<diastolic> mmHg", with both
 * numbers written as JavaScript writes an integer in a template literal
 * (plain decimal, a leading '-' when negative), and a parser that reads such
 * a string back, so that the format is shown to lose nothing.
 */
module BloodPressureFormat {
  import opened Wrappers

  predicate IsDigit(c: char) {
    '0' <= c <= '9'
  }

  predicate AllDigits(s: string) {
    forall i :: 0 <= i < |s| ==> IsDigit(s[i])
  }

  function DigitChar(d: nat): (c: char)
    requires d < 10
    ensures IsDigit(c)
  {
    "0123456789"[d]
  }

  function DigitValue(c: char): (d: nat)
    requires IsDigit(c)
    ensures d < 10
  {
    (c as int - '0' as int) as nat
  }

  /** The decimal digits of `n`, most significant first, without leading zeros. */
  function NatToDecimal(n: nat): (s: string)
    ensures |s| >= 1 && AllDigits(s)
    ensures |s| > 1 ==> s[0] != '0'
  {
    if n < 10 then [DigitChar(n)]
    else NatToDecimal(n / 10) + [DigitChar(n % 10)]
  }

  /** `${n}` for an integer `n`. */
  function IntToDecimal(n: int): (s: string)
    ensures |s| >= 1
    ensures '/' !in s
  {
    if n < 0 then "-" + NatToDecimal(-n) else NatToDecimal(n)
  }

  /** The value of a string of decimal digits. */
  function DecimalValue(s: string): nat
    requires AllDigits(s)
  {
    if |s| == 0 then 0
    else DecimalValue(s[..|s| - 1]) * 10 + DigitValue(s[|s| - 1])
  }

  lemma {:induction false} DecimalRoundTrip(n: nat)
    ensures DecimalValue(NatToDecimal(n)) == n
  {
    var s := NatToDecimal(n);
    if n >= 10 {
      DecimalRoundTrip(n / 10);
      assert s[..|s| - 1] == NatToDecimal(n / 10);
      assert DigitValue(DigitChar(n % 10)) == n % 10;
    } else {
      assert DigitValue(DigitChar(n)) == n;
    }
  }

  /** Reads back an optionally negative decimal integer. */
  function ParseInt(s: string): (r: Option<int>)
  {
    if |s| >= 2 && s[0] == '-' && AllDigits(s[1..]) then Some(-(DecimalValue(s[1..]) as int))
    else if |s| >= 1 && AllDigits(s) then Some(DecimalValue(s))
    else None
  }

  lemma ParseDigits(t: string)
    requires |t| >= 1 && AllDigits(t)
    ensures ParseInt(t) == Some(DecimalValue(t))
    ensures ParseInt("-" + t) == Some(-(DecimalValue(t) as int))
  {
    var s := "-" + t;
    assert s[1..] == t && s[0] == '-';
    assert IsDigit(t[0]) && t[0] != '-';
  }

  lemma IntRoundTrip(n: int)
    ensures ParseInt(IntToDecimal(n)) == Some(n)
  {
    var t := NatToDecimal(if n < 0 then -n else n);
    assert IntToDecimal(n) == if n < 0 then "-" + t else t;
    ParseDigits(t);
    DecimalRoundTrip(if n < 0 then -n else n);
  }

  /** `formatBloodPressure`: the two numbers separated by '/', followed by " mmHg". */
  function FormatBloodPressure(systolic: int, diastolic: int): (s: string)
    ensures |s| >= 8 && s[|s| - 5..] == " mmHg"
  {
    IntToDecimal(systolic) + "/" + IntToDecimal(diastolic) + " mmHg"
  }

  /** The position of the first occurrence of `c` in `s`. */
  function IndexOf(s: string, c: char): (r: Option<nat>)
    ensures r.None? <==> c !in s
    ensures r.Some? ==> r.value < |s| && s[r.value] == c &&
                        forall j :: 0 <= j < r.value ==> s[j] != c
  {
    if |s| == 0 then None
    else if s[0] == c then Some(0)
    else match IndexOf(s[1..], c)
      case None => None
      case Some(i) => Some(i + 1)
  }

  /** The inverse of `FormatBloodPressure`: splits at the first '/' and strips the unit. */
  function ParseBloodPressure(s: string): (r: Option<(int, int)>)
  {
    if |s| < 5 || s[|s| - 5..] != " mmHg" then None
    else
      var body := s[..|s| - 5];
      match IndexOf(body, '/')
      case None => None
      case Some(i) =>
        match (ParseInt(body[..i]), ParseInt(body[i + 1..]))
        case (Some(sys), Some(dia)) => Some((sys, dia))
        case _ => None
  }

  /** Formatting loses nothing: the string reads back as the same reading. */
  lemma {:induction false} FormatRoundTrip(systolic: int, diastolic: int)
    ensures ParseBloodPressure(FormatBloodPressure(systolic, diastolic)) == Some((systolic, diastolic))
  {
    var a, b := IntToDecimal(systolic), IntToDecimal(diastolic);
    var s := FormatBloodPressure(systolic, diastolic);
    var body := s[..|s| - 5];
    assert body == a + "/" + b;
    assert IndexOf(body, '/') == Some(|a|) by {
      assert body[|a|] == '/';
      var i := IndexOf(body, '/').value;
      assert forall j :: 0 <= j < |a| ==> body[j] == a[j] && body[j] != '/';
    }
    assert body[..|a|] == a;
    assert body[|a| + 1..] == b;
    IntRoundTrip(systolic);
    IntRoundTrip(diastolic);
  }

  /** Different readings never share a display string. */
  lemma FormatInjective(s1: int, d1: int, s2: int, d2: int)
    requires FormatBloodPressure(s1, d1) == FormatBloodPressure(s2, d2)
    ensures s1 == s2 && d1 == d2
  {
    FormatRoundTrip(s1, d1);
    FormatRoundTrip(s2, d2);
  }

  /** The worked example: 128 over 82. */
  lemma FormatExample()
    ensures FormatBloodPressure(128, 82) == "128/82 mmHg"
  {
    assert NatToDecimal(1) == "1";
    assert NatToDecimal(12) == "12";
    assert NatToDecimal(128) == "128";
    assert NatToDecimal(8) == "8";
    assert NatToDecimal(82) == "82";
  }
}
