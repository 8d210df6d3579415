/**
 * The call timer's label: a number of seconds shown as minutes and seconds,
 * each written in decimal and left-padded with '0' to two characters and
 * separated by ':' ("00:00", "01:15", "100:00").
 */
module DurationFormat {
  import opened Optional

  predicate IsDigit(c: char) {
    '0' <= c <= '9'
  }

  predicate AllDigits(t: string) {
    forall k :: 0 <= k < |t| ==> IsDigit(t[k])
  }

  function DigitChar(d: nat): (c: char)
    requires d < 10
    ensures IsDigit(c) && c as int - '0' as int == d
  {
    ('0' as int + d) as char
  }

  function DigitValue(c: char): (d: nat)
    requires IsDigit(c)
    ensures d < 10
  {
    c as int - '0' as int
  }

  /** A non-negative integer in decimal without leading zeros, as toString() gives it. */
  function DecimalString(n: nat): (r: string)
    ensures |r| > 0 && AllDigits(r)
    ensures n < 10 <==> |r| == 1
    ensures n < 100 <==> |r| <= 2
    decreases n
  {
    if n < 10 then [DigitChar(n)] else DecimalString(n / 10) + [DigitChar(n % 10)]
  }

  /** The value of a string of decimal digits (the empty string reads as 0). */
  function ParseDecimal(t: string): nat
    requires AllDigits(t)
  {
    if t == [] then 0 else 10 * ParseDecimal(t[..|t| - 1]) + DigitValue(t[|t| - 1])
  }

  /** padStart(2, "0"): '0's in front up to two characters; longer strings are kept. */
  function PadTwo(t: string): (r: string)
    ensures |r| == if |t| < 2 then 2 else |t|
    ensures r[|r| - |t|..] == t
    ensures forall k :: 0 <= k < |r| - |t| ==> r[k] == '0'
  {
    if |t| < 2 then seq(2 - |t|, _ => '0') + t else t
  }

  /** Two digit strings, the second of two characters, around a ':' make a label of the shape FormatDuration promises. */
  lemma LabelShape(minutes: string, secs: string, r: string)
    requires AllDigits(minutes) && AllDigits(secs) && |minutes| >= 2 && |secs| == 2
    requires r == minutes + ":" + secs
    ensures |r| >= 5 && r[|r| - 3] == ':'
    ensures forall k :: 0 <= k < |r| && k != |r| - 3 ==> IsDigit(r[k])
  {
    forall k | 0 <= k < |r| && k != |r| - 3 ensures IsDigit(r[k]) {
      if k < |minutes| {
        assert r[k] == minutes[k];
      } else {
        assert r[k] == secs[k - |minutes| - 1];
      }
    }
  }

  /**
   * formatDuration: minutes (seconds div 60) and seconds (seconds mod 60), each
   * padded. The label is at least "MM:SS" long, its only ':' sits three places
   * from the end, and every other character is a digit.
   */
  function FormatDuration(seconds: nat): (r: string)
    ensures |r| >= 5 && r[|r| - 3] == ':'
    ensures forall k :: 0 <= k < |r| && k != |r| - 3 ==> IsDigit(r[k])
  {
    var m, sc := seconds / 60, seconds % 60;
    var minutes, secs := PadTwo(DecimalString(m)), PadTwo(DecimalString(sc));
    PaddedDecimal(m);
    PaddedDecimal(sc);
    LabelShape(minutes, secs, minutes + ":" + secs);
    minutes + ":" + secs
  }

  /** The index of the first ':' of a string that has one. */
  function ColonIndex(t: string): (i: nat)
    requires ':' in t
    ensures i < |t| && t[i] == ':'
    ensures forall k :: 0 <= k < i ==> t[k] != ':'
  {
    if t[0] == ':' then 0 else 1 + ColonIndex(t[1..])
  }

  /** Reads a label "MM:SS" back as (minutes, seconds); None if it is not of that form. */
  function ParseDuration(t: string): Option<(nat, nat)> {
    if ':' !in t then None
    else
      var i := ColonIndex(t);
      var minutes, secs := t[..i], t[i + 1..];
      if |minutes| > 0 && |secs| > 0 && AllDigits(minutes) && AllDigits(secs)
      then Some((ParseDecimal(minutes), ParseDecimal(secs)))
      else None
  }

  // ---------------------------------------------------------------------------
  // Lemmas

  lemma {:induction false} ParseDecimalOfString(n: nat)
    ensures ParseDecimal(DecimalString(n)) == n
    decreases n
  {
    var r := DecimalString(n);
    if n >= 10 {
      ParseDecimalOfString(n / 10);
      assert r[..|r| - 1] == DecimalString(n / 10);
    }
  }

  lemma {:induction false} LeadingZeroIgnored(t: string)
    requires AllDigits(t)
    ensures AllDigits("0" + t) && ParseDecimal("0" + t) == ParseDecimal(t)
    decreases |t|
  {
    var z := "0" + t;
    if t != [] {
      assert z[..|z| - 1] == "0" + t[..|t| - 1];
      LeadingZeroIgnored(t[..|t| - 1]);
    }
  }

  /** Padding a decimal string changes neither its digits-only form nor its value. */
  lemma PaddedDecimal(n: nat)
    ensures |PadTwo(DecimalString(n))| > 0 && AllDigits(PadTwo(DecimalString(n)))
    ensures ParseDecimal(PadTwo(DecimalString(n))) == n
  {
    var d := DecimalString(n);
    ParseDecimalOfString(n);
    if |d| < 2 {
      assert PadTwo(d) == "0" + d;
      LeadingZeroIgnored(d);
    }
  }

  /** A label is two digit strings around its first and only ':'. */
  lemma SplitAtColon(minutes: string, secs: string)
    requires AllDigits(minutes)
    ensures ':' in minutes + ":" + secs
    ensures ColonIndex(minutes + ":" + secs) == |minutes|
    ensures (minutes + ":" + secs)[..|minutes|] == minutes
    ensures (minutes + ":" + secs)[|minutes| + 1..] == secs
  {
    var t := minutes + ":" + secs;
    assert t[|minutes|] == ':';
  }

  /** Reading a label back gives the minutes and the seconds below 60 that make up the duration. */
  lemma DurationRoundTrip(seconds: nat)
    ensures ParseDuration(FormatDuration(seconds)) == Some((seconds / 60, seconds % 60))
    ensures var (m, s) := ParseDuration(FormatDuration(seconds)).value;
      s < 60 && 60 * m + s == seconds
  {
    var minutes, secs := PadTwo(DecimalString(seconds / 60)), PadTwo(DecimalString(seconds % 60));
    PaddedDecimal(seconds / 60);
    PaddedDecimal(seconds % 60);
    SplitAtColon(minutes, secs);
  }

  /** Different durations get different labels. */
  lemma FormatDurationInjective(a: nat, b: nat)
    requires FormatDuration(a) == FormatDuration(b)
    ensures a == b
  {
    DurationRoundTrip(a);
    DurationRoundTrip(b);
  }

  /** Below 100 minutes a label is exactly "MM:SS"; from 100 minutes on it is longer. */
  lemma FormatDurationShape(seconds: nat)
    ensures |FormatDuration(seconds)| == 5 <==> seconds < 6000
    ensures seconds < 6000 ==>
      FormatDuration(seconds)[2] == ':' &&
      forall k :: 0 <= k < 5 && k != 2 ==> IsDigit(FormatDuration(seconds)[k])
  {
    var m, sc := seconds / 60, seconds % 60;
    var minutes, secs := PadTwo(DecimalString(m)), PadTwo(DecimalString(sc));
    var r := FormatDuration(seconds);
    assert r == minutes + ":" + secs;
    assert m < 100 <==> seconds < 6000;
    assert |secs| == 2;
    assert |minutes| == 2 <==> m < 100;
    assert |r| == |minutes| + 1 + |secs|;
  }

  /** The label of a call that has just been answered. */
  lemma FormatDurationZero()
    ensures FormatDuration(0) == "00:00"
  {
    assert DecimalString(0) == "0";
    assert PadTwo("0") == "00";
  }

  /** Minutes are not capped at two digits. */
  lemma FormatDurationHundredMinutes()
    ensures FormatDuration(6000) == "100:00"
  {
    var m, sc := 6000 / 60, 6000 % 60;
    assert m == 100 && sc == 0;
    var minutes := DecimalString(m);
    assert minutes == "100" by {
      assert DecimalString(10) == "10";
    }
    assert PadTwo(minutes) == "100";
    assert PadTwo(DecimalString(sc)) == "00";
    assert FormatDuration(6000) == PadTwo(minutes) + ":" + PadTwo(DecimalString(sc));
  }
}
