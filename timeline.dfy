/** The timeline's `formatTime`: whole seconds rendered as minutes, a colon and
    two-digit seconds, with a parser for that form as its inverse. */
module Timeline {
  import opened Wrappers

  predicate IsDigit(c: char)
  {
    '0' <= c <= '9'
  }

  predicate AllDigits(s: string)
  {
    forall i :: 0 <= i < |s| ==> IsDigit(s[i])
  }

  function DigitChar(d: nat): (c: char)
    requires d < 10
    ensures IsDigit(c) && c as int - '0' as int == d
  {
    ('0' as int + d) as char
  }

  /** The value of a string of decimal digits, most significant first. */
  function DigitsValue(s: string): nat
    requires AllDigits(s)
  {
    if s == [] then 0 else DigitsValue(s[..|s| - 1]) * 10 + (s[|s| - 1] as int - '0' as int)
  }

  /** Leading zeros do not change the value of a digit string. */
  lemma {:induction false} LeadingZero(s: string)
    requires AllDigits(s)
    ensures AllDigits("0" + s) && DigitsValue("0" + s) == DigitsValue(s)
  {
    if s != [] {
      assert ("0" + s)[..|"0" + s| - 1] == "0" + s[..|s| - 1];
      LeadingZero(s[..|s| - 1]);
    }
  }

  /** Decimal rendering of a non-negative integer (`toString` / template
      interpolation): at least one digit, no leading zero, and it reads back as `n`. */
  function NatToString(n: nat): (r: string)
    ensures |r| >= 1 && AllDigits(r) && DigitsValue(r) == n
    ensures |r| == 1 <==> n < 10
    ensures |r| > 1 ==> r[0] != '0'
  {
    if n < 10 then [DigitChar(n)]
    else
      var prefix := NatToString(n / 10);
      var r := prefix + [DigitChar(n % 10)];
      assert r[..|r| - 1] == prefix;
      r
  }

  /** `padStart(2, '0')`: zeros are put in front until the string has two characters. */
  function PadStart2(s: string): (r: string)
    ensures |s| >= 2 ==> r == s
    ensures |s| < 2 ==> |r| == 2 && r[2 - |s|..] == s && forall i :: 0 <= i < 2 - |s| ==> r[i] == '0'
  {
    if |s| >= 2 then s else seq(2 - |s|, _ => '0') + s
  }

  /** `formatTime(seconds)`: the minutes `seconds / 60` in decimal without
      leading zeros, a colon, and the seconds `seconds % 60` as exactly two digits. */
  function FormatTime(seconds: nat): (r: string)
    ensures |r| >= 4 && r[|r| - 3] == ':'
    ensures |r| > 4 ==> r[0] != '0'
    ensures AllDigits(r[..|r| - 3]) && DigitsValue(r[..|r| - 3]) == seconds / 60
    ensures AllDigits(r[|r| - 2..]) && DigitsValue(r[|r| - 2..]) == seconds % 60
  {
    var mins := NatToString(seconds / 60);
    var secs := NatToString(seconds % 60);
    var padded := PadStart2(secs);
    assert |secs| == 1 ==> padded == "0" + secs;
    LeadingZero(secs);
    var r := mins + ":" + padded;
    assert r[..|r| - 3] == mins && r[|r| - 2..] == padded;
    r
  }

  /** Reads the `m:ss` form back into seconds; anything else is rejected. */
  function ParseTime(t: string): (r: Option<nat>)
    ensures r.Some? ==> |t| >= 4 && t[|t| - 3] == ':'
  {
    if |t| < 4 then None
    else
      var k := |t| - 3;
      if t[k] == ':' && AllDigits(t[..k]) && AllDigits(t[k + 1..]) && DigitsValue(t[k + 1..]) < 60
      then Some(DigitsValue(t[..k]) * 60 + DigitsValue(t[k + 1..]))
      else None
  }

  /** Round trip: the rendered minutes times sixty plus the rendered seconds
      give back the input. */
  lemma FormatTimeRoundTrip(seconds: nat)
    ensures ParseTime(FormatTime(seconds)) == Some(seconds)
  {
  }

  lemma FormatTimeZero()
    ensures FormatTime(0) == "0:00"
  {
  }
}
