/** The `m:ss` rendering of a duration in whole seconds, shared by the music
    page, the library page (`formatDuration`) and the floating player
    (`formatTime`). */
module Format {
  import opened Common

  /** `s.padStart(2, '0')`. */
  function PadStart2(s: string): (r: string)
    ensures |s| < 2 ==> |r| == 2
    ensures |s| >= 2 ==> r == s
    ensures r[|r| - |s|..] == s
  {
    if |s| == 0 then "00" else if |s| == 1 then "0" + s else s
  }

  /** `formatDuration(seconds)` for a whole number of seconds. */
  function FormatDuration(seconds: nat): (r: string)
    ensures |r| >= 4 && r[|r| - 3] == ':'
    ensures r[..|r| - 3] == NatToString(seconds / 60)
    ensures IsDigit(r[|r| - 2]) && IsDigit(r[|r| - 1])
  {
    var mins := NatToString(seconds / 60);
    var secs := PadStart2(NatToString(seconds % 60));
    assert |secs| == 2 by { NatToStringNoLeadingZero(seconds % 60); }
    var r := mins + ":" + secs;
    assert r[..|r| - 3] == mins;
    r
  }

  /** A reader for `m:ss`: decimal minutes, a colon, exactly two digits below 60. */
  function ParseDuration(r: string): (o: Option<nat>) {
    if |r| < 4 || r[|r| - 3] != ':' then None
    else ParseFields(r[..|r| - 3], r[|r| - 2..])
  }

  function ParseFields(mins: string, secs: string): Option<nat> {
    if (forall i :: 0 <= i < |mins| ==> IsDigit(mins[i])) && |secs| == 2 && IsDigit(secs[0]) && IsDigit(secs[1]) then
      var s := DigitValue(secs[0]) * 10 + DigitValue(secs[1]);
      if s < 60 then Some(ParseNat(mins) * 60 + s) else None
    else None
  }

  /** The padded seconds field is two digits that read back as the number. */
  lemma {:induction false} SecondsFieldDigits(s: nat)
    requires s < 60
    ensures |PadStart2(NatToString(s))| == 2
    ensures IsDigit(PadStart2(NatToString(s))[0]) && IsDigit(PadStart2(NatToString(s))[1])
    ensures DigitValue(PadStart2(NatToString(s))[0]) * 10 + DigitValue(PadStart2(NatToString(s))[1]) == s
  {
    if s < 10 {
      OneDigitField(s);
    } else {
      TwoDigitField(s);
    }
  }

  /** Below ten the field is a zero and the digit. */
  lemma {:induction false} OneDigitField(s: nat)
    requires s < 10
    ensures PadStart2(NatToString(s)) == ['0', DigitChar(s)]
  {
    assert NatToString(s) == [DigitChar(s)];
  }

  /** From ten to fifty-nine the field is the two digits. */
  lemma {:induction false} TwoDigitField(s: nat)
    requires 10 <= s < 60
    ensures PadStart2(NatToString(s)) == [DigitChar(s / 10), DigitChar(s % 10)]
  {
    assert NatToString(s / 10) == [DigitChar(s / 10)];
  }

  /** The reader on a colon-joined pair of fields. */
  lemma ParseJoined(mins: string, secs: string)
    requires |mins| >= 1 && forall i :: 0 <= i < |mins| ==> IsDigit(mins[i])
    requires |secs| == 2 && IsDigit(secs[0]) && IsDigit(secs[1])
    requires DigitValue(secs[0]) * 10 + DigitValue(secs[1]) < 60
    ensures ParseDuration(mins + ":" + secs) == ParseFields(mins, secs)
    ensures ParseFields(mins, secs) == Some(ParseNat(mins) * 60 + DigitValue(secs[0]) * 10 + DigitValue(secs[1]))
  {
    var r := mins + ":" + secs;
    assert r[|r| - 3] == ':';
    assert r[..|r| - 3] == mins;
    assert r[|r| - 2..] == secs;
    assert ParseDuration(r) == ParseFields(r[..|r| - 3], r[|r| - 2..]);
  }

  /** Reading back a formatted duration gives the number of seconds. */
  lemma FormatDurationRoundTrip(seconds: nat)
    ensures ParseDuration(FormatDuration(seconds)) == Some(seconds)
  {
    var m, s := seconds / 60, seconds % 60;
    SecondsFieldDigits(s);
    ParseNatToString(m);
    ParseJoined(NatToString(m), PadStart2(NatToString(s)));
  }

  /** Different durations are rendered differently. */
  lemma FormatDurationInjective(a: nat, b: nat)
    requires FormatDuration(a) == FormatDuration(b)
    ensures a == b
  {
    FormatDurationRoundTrip(a);
    FormatDurationRoundTrip(b);
  }

  /** What the floating player is given: a count of seconds, or NaN/Infinity
      (an element whose duration is not known yet). */
  datatype Seconds = Finite(n: nat) | NotFinite

  /** `formatTime(seconds)`: '0:00' for zero and for a non-finite value. */
  function FormatTime(t: Seconds): string {
    if t.NotFinite? || t.n == 0 then "0:00"
    else FormatDuration(t.n)
  }

  /** `formatTime` agrees with `formatDuration` on every whole number of seconds,
      zero included, and gives '0:00' otherwise. */
  lemma FormatTimeAgreesWithDuration(t: Seconds)
    ensures t.Finite? ==> FormatTime(t) == FormatDuration(t.n)
    ensures t.NotFinite? ==> FormatTime(t) == FormatDuration(0)
  {
    DurationZero();
  }

  /** Zero seconds render as '0:00'. */
  lemma DurationZero()
    ensures FormatDuration(0) == "0:00"
  {
    assert 0 / 60 == 0 && 0 % 60 == 0;
    assert NatToString(0) == "0";
    assert PadStart2("0") == "00";
  }
}
