/**
 * `Long.toDurationString()`: a millisecond span as whole hours and the remaining whole minutes,
 * both truncated toward zero as JVM `/` and `%` do.
 */
module Extensions {
  import opened Numbers

  const MILLIS_PER_HOUR: int := 60 * 60 * 1000
  const MILLIS_PER_MINUTE: int := 60 * 1000

  datatype Duration = Duration(hours: int, minutes: int)

  /** The hours and minutes the text shows. */
  function DurationParts(ms: int): (d: Duration)
    ensures ms >= 0 ==> 0 <= d.minutes <= 59 && d.hours >= 0
    ensures ms >= 0 ==>
              d.hours * MILLIS_PER_HOUR + d.minutes * MILLIS_PER_MINUTE <= ms < d.hours * MILLIS_PER_HOUR + d.minutes * MILLIS_PER_MINUTE + MILLIS_PER_MINUTE
    ensures ms < 0 ==> -59 <= d.minutes <= 0 && d.hours <= 0
    ensures ms < 0 ==>
              d.hours * MILLIS_PER_HOUR + d.minutes * MILLIS_PER_MINUTE - MILLIS_PER_MINUTE < ms <= d.hours * MILLIS_PER_HOUR + d.minutes * MILLIS_PER_MINUTE
  {
    var rest := Rem(ms, MILLIS_PER_HOUR);
    Duration(Quot(ms, MILLIS_PER_HOUR), Quot(rest, MILLIS_PER_MINUTE))
  }

  /** `String.format("%d小时%d分钟", hours, minutes)` */
  function ToDurationString(ms: int): (s: string)
    ensures |s| >= 6 && s[|s| - 2..] == "分钟"
    ensures s[0] == '-' <==> ms <= -MILLIS_PER_HOUR
  {
    var d := DurationParts(ms);
    NegativeHours(ms);
    IntToString(d.hours) + "小时" + IntToString(d.minutes) + "分钟"
  }

  /** The hours are negative only from a whole hour below zero: a shorter negative span shows "0小时". */
  lemma NegativeHours(ms: int)
    ensures DurationParts(ms).hours < 0 <==> ms <= -MILLIS_PER_HOUR
  {
    var q := Quot(ms, MILLIS_PER_HOUR);
    MulBounds(q, MILLIS_PER_HOUR);
    MulBounds(q + 1, MILLIS_PER_HOUR);
    assert (q + 1) * MILLIS_PER_HOUR == q * MILLIS_PER_HOUR + MILLIS_PER_HOUR;
  }

  /**
   * For a non-negative span the parts are the only hours and minutes that fit: minutes below 60
   * with hours and minutes together at most one minute short of the span.
   */
  lemma DurationPartsUnique(ms: int, h: int, m: int)
    requires ms >= 0 && 0 <= m < 60
    requires h * MILLIS_PER_HOUR + m * MILLIS_PER_MINUTE <= ms < h * MILLIS_PER_HOUR + m * MILLIS_PER_MINUTE + MILLIS_PER_MINUTE
    ensures DurationParts(ms) == Duration(h, m)
  {
    var d := DurationParts(ms);
    // Both pairs pin `ms` into one minute: their hours agree, and then so do their minutes.
    var a := d.hours * MILLIS_PER_HOUR + d.minutes * MILLIS_PER_MINUTE;
    var b := h * MILLIS_PER_HOUR + m * MILLIS_PER_MINUTE;
    assert a - b < MILLIS_PER_MINUTE && b - a < MILLIS_PER_MINUTE;
    HoursAgree(d.hours, d.minutes, h, m);
    assert d.hours == h;
    assert (d.minutes - m) * MILLIS_PER_MINUTE == a - b;
    MulBounds(d.minutes - m, MILLIS_PER_MINUTE);
  }

  lemma HoursAgree(h1: int, m1: int, h2: int, m2: int)
    requires 0 <= m1 < 60 && 0 <= m2 < 60
    requires h1 * MILLIS_PER_HOUR + m1 * MILLIS_PER_MINUTE - (h2 * MILLIS_PER_HOUR + m2 * MILLIS_PER_MINUTE) < MILLIS_PER_MINUTE
    requires h2 * MILLIS_PER_HOUR + m2 * MILLIS_PER_MINUTE - (h1 * MILLIS_PER_HOUR + m1 * MILLIS_PER_MINUTE) < MILLIS_PER_MINUTE
    ensures h1 == h2
  {
    assert (h1 - h2) * MILLIS_PER_HOUR == h1 * MILLIS_PER_HOUR - h2 * MILLIS_PER_HOUR;
    MulBounds(h1 - h2, MILLIS_PER_HOUR);
  }

  /**
   * Exactly 90 minutes reads as one hour and thirty minutes; 59 999 ms is still zero minutes; a
   * negative half hour keeps its sign only in the minutes.
   */
  lemma DurationExamples()
    ensures DurationParts(5400000) == Duration(1, 30)
    ensures DurationParts(59999) == Duration(0, 0)
    ensures DurationParts(-5400000) == Duration(-1, -30)
    ensures DurationParts(-1800000) == Duration(0, -30)
  {
    assert MILLIS_PER_HOUR == 3600000 && MILLIS_PER_MINUTE == 60000;
    assert Quot(5400000, 3600000) == 1 && Rem(5400000, 3600000) == 1800000 && Quot(1800000, 60000) == 30;
    assert Quot(59999, 3600000) == 0 && Rem(59999, 3600000) == 59999 && Quot(59999, 60000) == 0;
    assert Quot(-5400000, 3600000) == -1 && Rem(-5400000, 3600000) == -1800000;
    assert Quot(-1800000, 3600000) == 0 && Rem(-1800000, 3600000) == -1800000;
    assert Quot(-1800000, 60000) == -30;
  }
}
