/**
 * AceTime's TimePeriod as MedMinder uses it: the medication interval and
 * the countdown to the next dose. A period is hours (held in a uint8),
 * minutes, seconds and a sign of +1 or -1, or the error value; the two
 * edits of time_period_mutation move one field on and keep the others.
 */
module TimePeriods {
  import opened Widths
  import opened AceCommon

  /** A signed period of at most 255 hours, or TimePeriod::forError(). */
  datatype TimePeriod = Period(hour: int, minute: int, second: int, sign: int) | PeriodError

  /** The shape the int32 constructor produces: every field in range, the sign +1 or -1. */
  predicate WellFormed(p: TimePeriod)
  {
    p.Period? && 0 <= p.hour < 256 && 0 <= p.minute < 60 && 0 <= p.second < 60 && (p.sign == 1 || p.sign == -1)
  }

  /** toSeconds(): the signed length of a period in seconds. */
  function ToSeconds(p: TimePeriod): int
    requires p.Period?
  {
    p.sign * (p.hour * 3600 + p.minute * 60 + p.second)
  }

  /**
   * TimePeriod(int32 seconds): the sign, then the magnitude split into
   * hours, minutes and seconds; the hours are stored in a uint8.
   */
  function FromSeconds(seconds: int): (p: TimePeriod)
    ensures WellFormed(p)
    ensures p.sign == -1 <==> seconds < 0
  {
    var a := if seconds < 0 then -seconds else seconds;
    Period(U8(a / 3600), (a / 60) % 60, a % 60, if seconds < 0 then -1 else 1)
  }

  /** Below 256 hours, hours, minutes and seconds of a magnitude add up to it again. */
  lemma DecomposeSeconds(a: int)
    requires 0 <= a < 256 * 3600
    ensures 0 <= a / 3600 < 256
    ensures (a / 60) / 60 == a / 3600
    ensures (a / 3600) * 3600 + ((a / 60) % 60) * 60 + a % 60 == a
  {
    var h := a / 3600;
    var r := a % 3600;
    assert a == h * 3600 + r;
    var q := r / 60;
    assert r == q * 60 + r % 60;
    assert a == (h * 60 + q) * 60 + r % 60;
    assert a / 60 == h * 60 + q;
    assert a % 60 == r % 60;
    assert (a / 60) / 60 == h;
    assert (a / 60) % 60 == q;
  }

  /** A length of less than 256 hours survives the trip through a TimePeriod. */
  lemma FromSecondsRoundTrip(seconds: int)
    requires -256 * 3600 < seconds < 256 * 3600
    ensures ToSeconds(FromSeconds(seconds)) == seconds
  {
    var a := if seconds < 0 then -seconds else seconds;
    DecomposeSeconds(a);
  }

  /** The fields of a well-formed period are recovered from its length by division. */
  lemma SplitSeconds(h: int, m: int, s: int)
    requires 0 <= h < 256 && 0 <= m < 60 && 0 <= s < 60
    ensures var a := h * 3600 + m * 60 + s; a / 3600 == h && (a / 60) % 60 == m && a % 60 == s
  {
    var a := h * 3600 + m * 60 + s;
    assert a == (h * 60 + m) * 60 + s;
    assert a / 60 == h * 60 + m;
    assert a % 60 == s;
    assert (a / 60) % 60 == m;
    assert a == h * 3600 + (m * 60 + s);
    assert a / 3600 == h;
  }

  /**
   * A well-formed period is rebuilt exactly from its length, unless it is a
   * negative zero, which the constructor never produces.
   */
  lemma ToSecondsRoundTrip(p: TimePeriod)
    requires WellFormed(p) && (p.sign == 1 || ToSeconds(p) != 0)
    ensures FromSeconds(ToSeconds(p)) == p
  {
    SplitSeconds(p.hour, p.minute, p.second);
  }

  /** The hours of a period; the error value's fields are not modelled and read as 0. */
  function PeriodHour(p: TimePeriod): int
  {
    if p.Period? then p.hour else 0
  }

  /** The minutes of a period; the error value's fields are not modelled and read as 0. */
  function PeriodMinute(p: TimePeriod): int
  {
    if p.Period? then p.minute else 0
  }

  /**
   * time_period_mutation::incrementHour: the hour moves on modulo the limit,
   * the minutes, seconds and sign are kept; the error value has no fields
   * to edit and stays an error.
   */
  function IncrementHour(p: TimePeriod, limit: int): (r: TimePeriod)
    requires 0 < limit < 256
    ensures p.PeriodError? <==> r.PeriodError?
    ensures p.Period? ==> 0 <= r.hour < limit && r.minute == p.minute && r.second == p.second && r.sign == p.sign
    ensures p.Period? && 0 <= p.hour && p.hour + 1 < limit ==> r.hour == p.hour + 1
    ensures p.Period? && p.hour + 1 == limit ==> r.hour == 0
  {
    if p.PeriodError? then p else p.(hour := IncrementMod(p.hour, limit))
  }

  /** time_period_mutation::incrementMinute: the minute moves on modulo 60, the rest is kept. */
  function IncrementMinute(p: TimePeriod): (r: TimePeriod)
    ensures p.PeriodError? <==> r.PeriodError?
    ensures p.Period? ==> 0 <= r.minute < 60 && r.hour == p.hour && r.second == p.second && r.sign == p.sign
    ensures p.Period? && 0 <= p.minute < 59 ==> r.minute == p.minute + 1
    ensures p.Period? && p.minute == 59 ==> r.minute == 0
  {
    if p.PeriodError? then p else p.(minute := IncrementMod(p.minute, 60))
  }

  /** second(0): the seconds dropped, the rest kept. */
  function ZeroSecond(p: TimePeriod): (r: TimePeriod)
    ensures p.PeriodError? <==> r.PeriodError?
    ensures p.Period? ==> r.second == 0 && r.hour == p.hour && r.minute == p.minute && r.sign == p.sign
  {
    if p.PeriodError? then p else p.(second := 0)
  }

  /**
   * One press of the hour edit lengthens a positive interval by an hour,
   * except at the limit, where the hours start again from zero.
   */
  lemma IncrementHourLength(p: TimePeriod, limit: int)
    requires 0 < limit < 256 && WellFormed(p) && p.sign == 1 && p.hour < limit
    ensures var r := IncrementHour(p, limit);
      WellFormed(r) &&
      (p.hour + 1 < limit ==> ToSeconds(r) == ToSeconds(p) + 3600) &&
      (p.hour + 1 == limit ==> ToSeconds(r) == ToSeconds(p) - p.hour * 3600)
  {
  }

  /** One press of the minute edit lengthens a positive interval by a minute, or wraps the minutes to zero. */
  lemma IncrementMinuteLength(p: TimePeriod)
    requires WellFormed(p) && p.sign == 1
    ensures var r := IncrementMinute(p);
      WellFormed(r) &&
      (p.minute < 59 ==> ToSeconds(r) == ToSeconds(p) + 60) &&
      (p.minute == 59 ==> ToSeconds(r) == ToSeconds(p) - 59 * 60)
  {
  }
}
