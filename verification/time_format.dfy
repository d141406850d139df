/** `formatTime` of script.js over whole seconds: `m:ss`, minutes unpadded,
    seconds padded to two digits. Its partner is a parser that reads such a
    string back, and the round trip is proved. */
module TimeFormat {

  function DigitChar(d: nat): (c: char)
    requires d < 10
  {
    (48 + d) as char
  }

  function DigitValue(c: char): nat
  {
    if '0' <= c <= '9' then (c as int - 48) as nat else 0
  }

  /** The decimal rendering of a number, as a template literal `${n}` prints it. */
  function Decimal(n: nat): (s: string)
    ensures 1 <= |s|
    ensures forall i :: 0 <= i < |s| ==> '0' <= s[i] <= '9'
    ensures n < 10 <==> |s| == 1
    ensures s[0] == '0' <==> n == 0
  {
    if n < 10 then [DigitChar(n)] else Decimal(n / 10) + [DigitChar(n % 10)]
  }

  function ParseDecimal(s: string): nat
  {
    if s == [] then 0 else ParseDecimal(s[..|s| - 1]) * 10 + DigitValue(s[|s| - 1])
  }

  lemma {:induction false} DecimalRoundTrip(n: nat)
    ensures ParseDecimal(Decimal(n)) == n
  {
    if n >= 10 {
      DecimalRoundTrip(n / 10);
      var s := Decimal(n);
      assert s[..|s| - 1] == Decimal(n / 10);
    }
  }

  /** The seconds field: two digits, a leading zero below ten. */
  function TwoDigits(secs: nat): (s: string)
    requires secs < 60
    ensures |s| == 2 && s[0] == DigitChar(secs / 10) && s[1] == DigitChar(secs % 10)
  {
    if secs < 10 then
      assert "0" == [DigitChar(0)];
      "0" + Decimal(secs)
    else
      assert Decimal(secs / 10) == [DigitChar(secs / 10)];
      "" + Decimal(secs)
  }

  /** `formatTime(seconds)`: `0:00` for zero, otherwise whole minutes, a colon
      and the remaining seconds on two digits. */
  function FormatTime(seconds: nat): (s: string)
    ensures |s| >= 4 && s[|s| - 3] == ':'
    ensures forall i :: 0 <= i < |s| && i != |s| - 3 ==> '0' <= s[i] <= '9'
    ensures s[|s| - 2] <= '5'
    ensures |s| > 4 ==> s[0] != '0'
  {
    if seconds == 0 then "0:00"
    else Decimal(seconds / 60) + ":" + TwoDigits(seconds % 60)
  }

  /** Reads `m:ss` back: the digits before the colon are minutes, the last two are seconds. */
  function ParseTime(s: string): nat
  {
    if |s| < 3 then 0 else ParseDecimal(s[..|s| - 3]) * 60 + ParseDecimal(s[|s| - 2..])
  }

  lemma ParseTwoDigits(secs: nat)
    requires secs < 60
    ensures ParseDecimal(TwoDigits(secs)) == secs
  {
    var t := TwoDigits(secs);
    assert t[..1][..0] == [];
    assert ParseDecimal(t[..1]) == DigitValue(t[0]);
  }

  lemma ParseTimeSplit(d: string, t: string)
    requires |t| == 2
    ensures ParseTime(d + ":" + t) == ParseDecimal(d) * 60 + ParseDecimal(t)
  {
    var s := d + ":" + t;
    assert s[..|s| - 3] == d;
    assert s[|s| - 2..] == t;
  }

  /** Formatting loses no whole second: parsing the display gives the seconds back. */
  lemma FormatTimeRoundTrip(seconds: nat)
    ensures ParseTime(FormatTime(seconds)) == seconds
  {
    ParseTwoDigits(seconds % 60);
    if seconds == 0 {
      assert FormatTime(0) == "0" + ":" + TwoDigits(0);
      assert ParseDecimal("0") == 0 by { assert "0"[..0] == []; }
      ParseTimeSplit("0", TwoDigits(0));
    } else {
      DecimalRoundTrip(seconds / 60);
      ParseTimeSplit(Decimal(seconds / 60), TwoDigits(seconds % 60));
    }
  }

  /** Two different durations never display the same. */
  lemma FormatTimeInjective(a: nat, b: nat)
    requires FormatTime(a) == FormatTime(b)
    ensures a == b
  {
    FormatTimeRoundTrip(a);
    FormatTimeRoundTrip(b);
  }
}
