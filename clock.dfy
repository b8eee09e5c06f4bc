/**
  Local timestamps as the bulk generator writes them: a calendar date, the
  letter `T`, the hour and minute of a minute-of-day as two zero-padded
  decimal digits each, zero seconds and the fixed offset of Iran Standard
  Time, `+03:30`. A reader for the clock part is the partner of the writer.
 */
module Clock {
  import opened Http

  /** Minutes since midnight. */
  type MinuteOfDay = m: int | 0 <= m < 24 * 60

  /** Everything after the hour and minute fields. */
  const SecondsAndOffset: string := ":00+03:30"

  /** `T`, HH, `:`, MM and the seconds-and-offset tail. */
  const ClockLength: nat := 15

  predicate IsDigit(c: char) {
    '0' <= c <= '9'
  }

  function DigitValue(c: char): (v: int)
    requires IsDigit(c)
    ensures 0 <= v < 10
  {
    c as int - '0' as int
  }

  function Digit(n: int): (c: char)
    requires 0 <= n < 10
    ensures IsDigit(c) && DigitValue(c) == n
  {
    ('0' as int + n) as char
  }

  /** The `{n:02d}` format of a value below one hundred. */
  function Pad2(n: int): (s: string)
    requires 0 <= n < 100
    ensures |s| == 2 && IsDigit(s[0]) && IsDigit(s[1])
    ensures DigitValue(s[0]) * 10 + DigitValue(s[1]) == n
  {
    [Digit(n / 10), Digit(n % 10)]
  }

  /** `f"{date}T{m // 60:02d}:{m % 60:02d}:00+03:30"`. */
  function Timestamp(date: string, m: MinuteOfDay): (ts: string)
    ensures |ts| == |date| + ClockLength
    ensures ts[..|date|] == date
  {
    date + "T" + Pad2(m / 60) + ":" + Pad2(m % 60) + SecondsAndOffset
  }

  /**
    Reads the minute-of-day back from the last fifteen characters of a
    timestamp; None when they do not have the shape `THH:MM:00+03:30` with an
    hour below 24 and a minute below 60.
   */
  function ParseClock(ts: string): (r: Option<MinuteOfDay>)
    ensures r.Some? ==> |ts| >= ClockLength
  {
    if |ts| < ClockLength then None
    else
      var t := ts[|ts| - ClockLength..];
      if t[0] == 'T' && IsDigit(t[1]) && IsDigit(t[2]) && t[3] == ':'
         && IsDigit(t[4]) && IsDigit(t[5]) && t[6..] == SecondsAndOffset
      then
        var hour := DigitValue(t[1]) * 10 + DigitValue(t[2]);
        var minute := DigitValue(t[4]) * 10 + DigitValue(t[5]);
        if hour < 24 && minute < 60 then Some(hour * 60 + minute) else None
      else None
  }

  /** The clock fields of a written timestamp read back as the minute written. */
  lemma {:induction false} ClockRoundTrip(date: string, m: MinuteOfDay)
    ensures ParseClock(Timestamp(date, m)) == Some(m)
  {
    var ts := Timestamp(date, m);
    var hh, mm := Pad2(m / 60), Pad2(m % 60);
    var t := ts[|ts| - ClockLength..];
    assert t == "T" + hh + ":" + mm + SecondsAndOffset;
    assert t[1..3] == hh && t[4..6] == mm;
    assert t[6..] == SecondsAndOffset;
  }

  /**
    Conversely, a string whose clock fields read as m is exactly its date
    part followed by the clock that Timestamp writes for m.
   */
  lemma {:induction false} ParsedClockIsWritten(ts: string, m: MinuteOfDay)
    requires ParseClock(ts) == Some(m)
    ensures Timestamp(ts[..|ts| - ClockLength], m) == ts
  {
    var date := ts[..|ts| - ClockLength];
    var t := ts[|ts| - ClockLength..];
    var hour := DigitValue(t[1]) * 10 + DigitValue(t[2]);
    var minute := DigitValue(t[4]) * 10 + DigitValue(t[5]);
    assert hour * 60 + minute == m;
    assert m / 60 == hour && m % 60 == minute;
    var hh, mm := Pad2(hour), Pad2(minute);
    assert hh[0] == t[1] && hh[1] == t[2];
    assert mm[0] == t[4] && mm[1] == t[5];
    var w := "T" + hh + ":" + mm + SecondsAndOffset;
    assert w == t;
    assert ts == date + t;
  }
}
