/** `_formatTimestamp`: the `HH:MM:SS.mmm` clock text printed in each log line.
    The clock fields are inputs (the `Date` getters are not modelled). */
module Timestamp {
  import opened Text

  /** `('0' + n).slice(-2)`. */
  function Pad2(n: nat): string
  {
    Last("0" + NatToString(n), 2)
  }

  /** `('00' + n).slice(-3)`. */
  function Pad3(n: nat): string
  {
    Last("00" + NatToString(n), 3)
  }

  /** `h + ':' + m + ':' + s + '.' + ms`, each field padded as above. */
  function FormatTimestamp(h: nat, m: nat, s: nat, ms: nat): string
  {
    Pad2(h) + ":" + Pad2(m) + ":" + Pad2(s) + "." + Pad3(ms)
  }

  lemma OneDigitValue(a: nat)
    requires a < 10
    ensures DigitsValue([DigitChar(a)]) == a
  {
    var s := [DigitChar(a)];
    assert s[..0] == [];
  }

  /** A leading zero does not change the value of a digit string. */
  lemma {:induction false} LeadingZero(s: string)
    requires AllDigits(s)
    ensures AllDigits("0" + s) && DigitsValue("0" + s) == DigitsValue(s)
    decreases |s|
  {
    var t := "0" + s;
    if s == [] {
      assert t[..0] == [];
    } else {
      assert t[..|t| - 1] == "0" + s[..|s| - 1];
      LeadingZero(s[..|s| - 1]);
    }
  }

  /** Numbers below ten are one digit long, below a hundred two, below a
      thousand three. */
  lemma DigitCount(n: nat)
    ensures n < 10 ==> NatToString(n) == [DigitChar(n)]
    ensures 10 <= n < 100 ==> |NatToString(n)| == 2
    ensures 100 <= n < 1000 ==> |NatToString(n)| == 3
  {
    if n >= 10 {
      var q := n / 10;
      assert NatToString(n) == NatToString(q) + [DigitChar(n % 10)];
      if q >= 10 {
        assert NatToString(q) == NatToString(q / 10) + [DigitChar(q % 10)];
      }
    }
  }

  /** For a two-digit field the padded text reads back as the number. */
  lemma Pad2Value(n: nat)
    requires n < 100
    ensures |Pad2(n)| == 2 && AllDigits(Pad2(n)) && DigitsValue(Pad2(n)) == n
  {
    var d := NatToString(n);
    DigitCount(n);
    NatToStringRoundTrip(n);
    if n < 10 {
      assert Pad2(n) == "0" + d;
      LeadingZero(d);
    } else {
      var p := "0" + d;
      assert p[|p| - 2..] == d;
    }
  }

  /** For a three-digit field the padded text reads back as the number. */
  lemma Pad3Value(n: nat)
    requires n < 1000
    ensures |Pad3(n)| == 3 && AllDigits(Pad3(n)) && DigitsValue(Pad3(n)) == n
  {
    var d := NatToString(n);
    DigitCount(n);
    NatToStringRoundTrip(n);
    if n < 10 {
      assert Pad3(n) == "0" + ("0" + d);
      LeadingZero(d);
      LeadingZero("0" + d);
    } else if n < 100 {
      var p := "00" + d;
      assert p[|p| - 3..] == "0" + d;
      LeadingZero(d);
    } else {
      var p := "00" + d;
      assert p[|p| - 3..] == d;
    }
  }

  /** For a real clock reading the text is twelve characters with fixed
      separators, and each field reads back as the clock value it came
      from. */
  lemma FormatTimestampRoundTrip(h: nat, m: nat, s: nat, ms: nat)
    requires h < 24 && m < 60 && s < 60 && ms < 1000
    ensures var t := FormatTimestamp(h, m, s, ms);
      |t| == 12 && t[2] == ':' && t[5] == ':' && t[8] == '.'
      && AllDigits(t[0..2]) && DigitsValue(t[0..2]) == h
      && AllDigits(t[3..5]) && DigitsValue(t[3..5]) == m
      && AllDigits(t[6..8]) && DigitsValue(t[6..8]) == s
      && AllDigits(t[9..12]) && DigitsValue(t[9..12]) == ms
  {
    Pad2Value(h);
    Pad2Value(m);
    Pad2Value(s);
    Pad3Value(ms);
    var t := FormatTimestamp(h, m, s, ms);
    assert t[0..2] == Pad2(h);
    assert t[3..5] == Pad2(m);
    assert t[6..8] == Pad2(s);
    assert t[9..12] == Pad3(ms);
  }
}
