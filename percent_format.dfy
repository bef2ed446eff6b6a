/** The percent-suffix text used for the point labels and the value-axis
    ticks: a template literal that writes the number in decimal and appends
    "%". Values are modelled as integers (the chart's values and ticks are
    whole percentages); JavaScript's decimal rendering of an integer of
    magnitude at most 2^53 is written out digit by digit, and a parser is
    given as its inverse. */
module PercentFormat {

  datatype Option<T> = None | Some(value: T)

  predicate IsDigit(c: char) {
    '0' <= c <= '9'
  }

  predicate AllDigits(s: string) {
    forall k :: 0 <= k < |s| ==> IsDigit(s[k])
  }

  function DigitChar(d: nat): (c: char)
    requires d < 10
    ensures IsDigit(c) && c as int - '0' as int == d
  {
    ('0' as int + d) as char
  }

  function DigitValue(c: char): (d: nat)
    requires IsDigit(c)
    ensures d < 10 && DigitChar(d) == c
  {
    c as int - '0' as int
  }

  /** Decimal digits of `n`, most significant first, without leading zeros. */
  function NatToDecimal(n: nat): (s: string)
    ensures |s| >= 1 && AllDigits(s)
    ensures s[0] == '0' ==> n == 0
    decreases n
  {
    if n < 10 then [DigitChar(n)] else NatToDecimal(n / 10) + [DigitChar(n % 10)]
  }

  /** Value of a string of decimal digits (the empty string reads as 0). */
  function DecimalValue(s: string): nat
    requires AllDigits(s)
  {
    if s == [] then 0 else DecimalValue(s[..|s| - 1]) * 10 + DigitValue(s[|s| - 1])
  }

  /** JavaScript's string form of an integer number, for integers of magnitude at most 2^53:
      a minus sign for negatives, then the digits. */
  function IntText(v: int): (s: string)
    ensures |s| >= 1
    ensures s[0] == '-' <==> v < 0
  {
    if v < 0 then "-" + NatToDecimal(-v) else NatToDecimal(v)
  }

  /** The label text `${value}%`. */
  function PercentText(v: int): (s: string)
    ensures |s| >= 2 && s[|s| - 1] == '%'
    ensures forall k :: 0 < k < |s| - 1 ==> IsDigit(s[k])
  {
    IntText(v) + "%"
  }

  /** Reads back a canonical integer: optional minus, then digits with no leading zero. */
  function ParseInt(s: string): Option<int> {
    if |s| >= 1 && s[0] == '-' then
      var t := s[1..];
      if |t| >= 1 && AllDigits(t) && t[0] != '0' then Some(-(DecimalValue(t) as int)) else None
    else if |s| >= 1 && AllDigits(s) && (s[0] != '0' || |s| == 1) then Some(DecimalValue(s))
    else None
  }

  /** Reads back a percent text. */
  function ParsePercent(s: string): Option<int> {
    if |s| >= 1 && s[|s| - 1] == '%' then ParseInt(s[..|s| - 1]) else None
  }

  lemma {:induction false} DecimalRoundTrip(n: nat)
    ensures DecimalValue(NatToDecimal(n)) == n
    decreases n
  {
    if n >= 10 {
      var s := NatToDecimal(n);
      assert s[..|s| - 1] == NatToDecimal(n / 10);
      DecimalRoundTrip(n / 10);
    }
  }

  /** Parsing the text of an integer gives the integer back. */
  lemma IntTextRoundTrip(v: int)
    ensures ParseInt(IntText(v)) == Some(v)
  {
    var s := IntText(v);
    if v < 0 {
      var t := NatToDecimal(-v);
      assert s[1..] == t;
      assert t[0] != '0';
      DecimalRoundTrip(-v);
    } else {
      assert s == NatToDecimal(v);
      assert s[0] == '0' ==> s == "0";
      DecimalRoundTrip(v);
    }
  }

  /** Parsing a percent text gives the value back. */
  lemma PercentRoundTrip(v: int)
    ensures ParsePercent(PercentText(v)) == Some(v)
  {
    var s := PercentText(v);
    assert s[..|s| - 1] == IntText(v);
    IntTextRoundTrip(v);
  }

  /** Different values never share a label text. */
  lemma PercentTextInjective(v: int, w: int)
    ensures PercentText(v) == PercentText(w) ==> v == w
  {
    PercentRoundTrip(v);
    PercentRoundTrip(w);
  }

  /** The value-axis ticks of the 0-100 axis read as expected. */
  lemma PercentTextExamples()
    ensures PercentText(0) == "0%" && PercentText(25) == "25%" && PercentText(100) == "100%"
  {
  }
}
