/** Time arithmetic and formatting as the Python standard library does it:
    `time.strftime('%H:%M:%S', time.gmtime(t))`, the built-in `round` and
    the `mm:ss` split of elapsed seconds used in the run summaries. */
module Clock {
  import opened Outcomes
  import opened Text

  const SecondsPerDay: int := 86400

  /** The hours, minutes and seconds fields of `time.gmtime(t)`: only the
      time of day survives, so whole days are dropped. */
  function TimeOfDay(t: int): (hms: (int, int, int))
    ensures 0 <= hms.0 < 24 && 0 <= hms.1 < 60 && 0 <= hms.2 < 60
    ensures hms.0 * 3600 + hms.1 * 60 + hms.2 == t % SecondsPerDay
  {
    var d := t % SecondsPerDay;
    var r := d % 3600;
    (d / 3600, r / 60, r % 60)
  }

  /** `time.strftime('%H:%M:%S', time.gmtime(t))` for whole seconds `t`. */
  function FormatHms(t: int): (s: string)
    ensures |s| == 8 && s[2] == ':' && s[5] == ':'
  {
    var hms := TimeOfDay(t);
    Pad2Shape(hms.0);
    Pad2Shape(hms.1);
    Pad2Shape(hms.2);
    Pad2(hms.0) + ":" + Pad2(hms.1) + ":" + Pad2(hms.2)
  }

  /** A time within the day is printed field by field. */
  lemma FormatHmsOf(h: int, m: int, sec: int)
    requires 0 <= h < 24 && 0 <= m < 60 && 0 <= sec < 60
    ensures FormatHms(h * 3600 + m * 60 + sec) == Pad2(h) + ":" + Pad2(m) + ":" + Pad2(sec)
  {
    var t := h * 3600 + m * 60 + sec;
    var hms := TimeOfDay(t);
    assert t % SecondsPerDay == t;
    assert hms.0 == h by {
      assert hms.0 * 3600 <= t < hms.0 * 3600 + 3600;
    }
    assert hms.1 == m by {
      assert hms.1 * 60 <= m * 60 + sec < hms.1 * 60 + 60;
    }
  }

  /** Times a whole number of days apart print alike. */
  lemma FormatHmsPeriodic(a: int, b: int)
    requires a % SecondsPerDay == b % SecondsPerDay
    ensures FormatHms(a) == FormatHms(b)
  {
  }

  /** `time.gmtime` turns a float into whole seconds by rounding down. */
  function GmtimeSeconds(x: real): int {
    x.Floor
  }

  /** Reads `HH:MM:SS` back into seconds since midnight. */
  function ParseHms(s: string): Option<int> {
    if |s| == 8 && s[2] == ':' && s[5] == ':' then
      match (ParseNat(s[..2]), ParseNat(s[3..5]), ParseNat(s[6..]))
      case (Some(h), Some(m), Some(sec)) => Some(h * 3600 + m * 60 + sec)
      case _ => None
    else None
  }

  /** A formatted time step reads back as the seconds it stands for,
      reduced modulo one day: a step of a day or more wraps around. */
  lemma HmsRoundTrip(t: int)
    ensures ParseHms(FormatHms(t)) == Some(t % SecondsPerDay)
  {
    var hms := TimeOfDay(t);
    Pad2Shape(hms.0);
    Pad2Shape(hms.1);
    Pad2Shape(hms.2);
    var s := FormatHms(t);
    assert s[..2] == Pad2(hms.0);
    assert s[3..5] == Pad2(hms.1);
    assert s[6..] == Pad2(hms.2);
    ParsePad2(hms.0);
    ParsePad2(hms.1);
    ParsePad2(hms.2);
  }

  /** Python's `round(x)` for a float: to the nearest integer, ties to the
      even neighbour. */
  function RoundHalfEven(x: real): (r: int)
    ensures -0.5 <= x - r as real <= 0.5
    ensures (x - r as real == 0.5 || r as real - x == 0.5) ==> r % 2 == 0
  {
    var f := x.Floor;
    var frac := x - f as real;
    if frac < 0.5 then f
    else if frac > 0.5 then f + 1
    else if f % 2 == 0 then f
    else f + 1
  }

  /** The two rules of `round` leave one candidate. */
  lemma RoundHalfEvenUnique(x: real, n: int)
    requires -0.5 <= x - n as real <= 0.5
    requires (x - n as real == 0.5 || n as real - x == 0.5) ==> n % 2 == 0
    ensures n == RoundHalfEven(x)
  {
    var r := RoundHalfEven(x);
    assert -1.0 <= n as real - r as real <= 1.0;
  }

  /** `mins = secs // 60; secs -= 60 * mins` (Python's floor division and
      Dafny's `/` agree for a positive divisor). */
  function MinutesSeconds(secs: int): (ms: (int, int))
    ensures 0 <= ms.1 < 60
    ensures 60 * ms.0 + ms.1 == secs
  {
    var mins := secs / 60;
    (mins, secs - 60 * mins)
  }

  /** The minute/second split is the only one with seconds in [0, 60). */
  lemma MinutesSecondsUnique(secs: int, mins: int, rest: int)
    requires 0 <= rest < 60 && 60 * mins + rest == secs
    ensures MinutesSeconds(secs) == (mins, rest)
  {
    var ms := MinutesSeconds(secs);
    assert 60 * (ms.0 - mins) == rest - ms.1;
  }

  /** `'{:02d}:{:02d}'.format(mins, secs)` with `secs = round(t)` split as above. */
  function FormatRuntime(t: real): (r: string)
    ensures var ms := MinutesSeconds(RoundHalfEven(t));
      |r| >= 5 && r[|r| - 3] == ':' && ParseNat(r[|r| - 2..]) == Some(ms.1) && ParseInt(r[..|r| - 3]) == Some(ms.0)
  {
    var ms := MinutesSeconds(RoundHalfEven(t));
    ParsePad2(ms.1);
    Pad2Shape(ms.1);
    Pad2Parses(ms.0);
    var r := Pad2(ms.0) + ":" + Pad2(ms.1);
    assert r[|r| - 2..] == Pad2(ms.1);
    assert r[..|r| - 3] == Pad2(ms.0);
    r
  }

  /** `{:02d}` of any integer reads back as it, and is at least two characters. */
  lemma Pad2Parses(n: int)
    ensures |Pad2(n)| >= 2 && ParseInt(Pad2(n)) == Some(n)
  {
    if 0 <= n {
      ParsePad2(n);
      assert Pad2(n)[0] != '-';
    }
    ParseIntDecimal(n);
  }
}
