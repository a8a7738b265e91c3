/** The lateness detector (`isLate`): is a message posted outside 07:00-19:00 in
    its author's local time?

    Time is whole seconds since the epoch. The date library is modelled only as
    far as `isLate` uses it: a moment is an instant together with a fixed offset,
    its wall clock is read in that offset, setters replace single clock fields,
    `add(n, "h")` moves the instant, and `isBetween(a, b)` with no inclusivity
    argument excludes both ends. */
module Lateness {
  import opened BotConfig

  const SecondsPerMinute := 60
  const SecondsPerHour := 3600
  const SecondsPerDay := 86400
  const MinutesPerDay := 1440

  /** `Number(user.tz_offset)`: seconds east of UTC, or NaN (absent or non-numeric). */
  datatype Timezone = NotANumber | OffsetSeconds(seconds: int)

  /** The argument given to `utcOffset`, times 60 so that it stays an integer:
      `timezone / 60` when that is a number, the configured default otherwise. */
  function OffsetArgumentTimes60(tz: Timezone): int
  {
    match tz
    case NotANumber => DefaultZone * 60
    case OffsetSeconds(s) => s
  }

  /** How far the date library moves the wall clock for an offset argument `x`
      (given here as `60 * x`), in seconds: it reads `|x| < 16` as hours and
      anything else as minutes. */
  function ShiftSeconds(argTimes60: int): int
  {
    if -960 < argTimes60 < 960 then argTimes60 * 60 else argTimes60
  }

  /** The local-time shift `isLate` applies for a timezone value. */
  function LocalShift(tz: Timezone): int
  {
    ShiftSeconds(OffsetArgumentTimes60(tz))
  }

  /** The calendar fields of a local time: a day number and the time of day. */
  datatype WallClock = WallClock(day: int, hour: int, minute: int, second: int)

  predicate Normal(w: WallClock)
  {
    0 <= w.hour < 24 && 0 <= w.minute < 60 && 0 <= w.second < 60
  }

  function FromWallClock(w: WallClock): int
  {
    w.day * SecondsPerDay + w.hour * SecondsPerHour + w.minute * SecondsPerMinute + w.second
  }

  function ToWallClock(local: int): (w: WallClock)
    ensures Normal(w)
    ensures FromWallClock(w) == local
  {
    var d := local % SecondsPerDay;
    var w := WallClock(local / SecondsPerDay, d / SecondsPerHour, (d % SecondsPerHour) / SecondsPerMinute, (d % SecondsPerHour) % SecondsPerMinute);
    assert d == w.hour * SecondsPerHour + w.minute * SecondsPerMinute + w.second;
    w
  }

  /** Reading back a normal clock gives the same fields. */
  lemma WallClockRoundTrip(w: WallClock)
    requires Normal(w)
    ensures ToWallClock(FromWallClock(w)) == w
  {
    var local := FromWallClock(w);
    var r := w.hour * SecondsPerHour + w.minute * SecondsPerMinute + w.second;
    assert 0 <= r < SecondsPerDay;
    assert local == w.day * SecondsPerDay + r;
    DivModUnique(local, SecondsPerDay, w.day, r);
    var m := w.minute * SecondsPerMinute + w.second;
    DivModUnique(r, SecondsPerHour, w.hour, m);
    DivModUnique(m, SecondsPerMinute, w.minute, w.second);
  }

  /** Quotient and remainder by one of the clock's unit lengths are unique. */
  lemma DivModUnique(a: int, b: int, q: int, r: int)
    requires b == SecondsPerMinute || b == SecondsPerHour || b == SecondsPerDay
    requires 0 <= r < b && a == q * b + r
    ensures a / b == q && a % b == r
  {
    if b == SecondsPerMinute {
      assert a == q * 60 + r;
    } else if b == SecondsPerHour {
      assert a == q * 3600 + r;
    } else {
      assert a == q * 86400 + r;
    }
  }

  /** A moment: an instant (seconds since the epoch) read in a fixed offset. */
  datatype Moment = Moment(instant: int, shift: int)

  function Clock(m: Moment): WallClock
  {
    ToWallClock(m.instant + m.shift)
  }

  /** `.hour(h)`: replaces the hour, keeps day, minute and second. */
  function SetHour(m: Moment, h: int): Moment
  {
    m.(instant := FromWallClock(Clock(m).(hour := h)) - m.shift)
  }

  /** `.minute(n)`: replaces the minute, keeps day, hour and second. */
  function SetMinute(m: Moment, n: int): Moment
  {
    m.(instant := FromWallClock(Clock(m).(minute := n)) - m.shift)
  }

  /** `.add(n, "h")`. */
  function AddHours(m: Moment, n: int): Moment
  {
    m.(instant := m.instant + n * SecondsPerHour)
  }

  /** `m.isBetween(a, b)` with the default exclusive ends, compared as instants. */
  predicate IsBetween(m: Moment, a: Moment, b: Moment)
  {
    a.instant < m.instant < b.instant
  }

  /** `isLate(timestamp, timezone)` step by step: `now` in the resolved offset,
      `dayStart` at 07:00 of `now`'s local day (seconds kept from `now`),
      `dayEnd` twelve hours later, late unless strictly between the two. */
  function IsLate(timestamp: int, tz: Timezone): bool
  {
    var now := Moment(timestamp, LocalShift(tz));
    var dayStart := SetMinute(SetHour(now, DayStartHour), 0);
    var dayEnd := AddHours(dayStart, DayLengthHours);
    !IsBetween(now, dayStart, dayEnd)
  }

  /** The author's local minute of the day. */
  function MinuteOfDay(timestamp: int, tz: Timezone): (m: int)
    ensures 0 <= m < MinutesPerDay
  {
    ((timestamp + LocalShift(tz)) % SecondsPerDay) / SecondsPerMinute
  }

  /** The rule `isLate` implements: a message is in hours exactly when its local
      minute of the day lies strictly between 07:00 and 19:00, so both 07:00 and
      19:00 themselves count as late. */
  lemma IsLateRule(timestamp: int, tz: Timezone)
    ensures !IsLate(timestamp, tz) <==> DayStartHour * 60 < MinuteOfDay(timestamp, tz) < (DayStartHour + DayLengthHours) * 60
  {
    var now := Moment(timestamp, LocalShift(tz));
    var w := Clock(now);
    var local := timestamp + LocalShift(tz);
    assert FromWallClock(w) == local;
    var h := SetHour(now, DayStartHour);
    WallClockRoundTrip(w.(hour := DayStartHour));
    assert Clock(h) == w.(hour := DayStartHour);
    var start := SetMinute(h, 0);
    assert start.instant + start.shift == w.day * SecondsPerDay + DayStartHour * SecondsPerHour + w.second;
    var d := local % SecondsPerDay;
    DivModUnique(local, SecondsPerDay, w.day, w.hour * SecondsPerHour + w.minute * SecondsPerMinute + w.second);
    assert d == (w.hour * 60 + w.minute) * 60 + w.second;
    DivModUnique(d, SecondsPerMinute, w.hour * 60 + w.minute, w.second);
    assert MinuteOfDay(timestamp, tz) == w.hour * 60 + w.minute;
  }

  /** Offset resolution: NaN falls back to the default of -4, which the date
      library reads as hours; a number is used as `timezone / 60` minutes, except
      that a magnitude under 16 is again read as hours. */
  lemma OffsetResolution(tz: Timezone)
    ensures tz.NotANumber? ==> LocalShift(tz) == -4 * SecondsPerHour
    ensures tz.OffsetSeconds? && (tz.seconds <= -960 || 960 <= tz.seconds) ==> LocalShift(tz) == tz.seconds
    ensures tz.OffsetSeconds? && -960 < tz.seconds < 960 ==> LocalShift(tz) == tz.seconds * SecondsPerMinute
  {
  }

  /** The result depends only on the local time of day: a whole day later gives
      the same answer. */
  lemma IsLateDaily(timestamp: int, tz: Timezone, days: int)
    ensures IsLate(timestamp + days * SecondsPerDay, tz) == IsLate(timestamp, tz)
  {
    var w := ToWallClock(timestamp + LocalShift(tz));
    var minute := w.hour * 60 + w.minute;
    MinuteOfDayAt(timestamp, tz, w.day, minute, w.second);
    MinuteOfDayAt(timestamp + days * SecondsPerDay, tz, w.day + days, minute, w.second);
    IsLateRule(timestamp, tz);
    IsLateRule(timestamp + days * SecondsPerDay, tz);
  }

  /** Both ends of the window are late; the minutes just inside are not. */
  lemma Boundaries(day: int, second: int, tz: Timezone)
    requires 0 <= second < 60
    ensures IsLate(day * SecondsPerDay + 7 * SecondsPerHour + second - LocalShift(tz), tz)
    ensures !IsLate(day * SecondsPerDay + 7 * SecondsPerHour + SecondsPerMinute + second - LocalShift(tz), tz)
    ensures !IsLate(day * SecondsPerDay + 19 * SecondsPerHour - SecondsPerMinute + second - LocalShift(tz), tz)
    ensures IsLate(day * SecondsPerDay + 19 * SecondsPerHour + second - LocalShift(tz), tz)
  {
    BoundaryAt(day, 420, second, tz);
    BoundaryAt(day, 421, second, tz);
    BoundaryAt(day, 1139, second, tz);
    BoundaryAt(day, 1140, second, tz);
  }

  lemma BoundaryAt(day: int, minute: int, second: int, tz: Timezone)
    requires 0 <= minute < MinutesPerDay && 0 <= second < 60
    ensures IsLate(day * SecondsPerDay + minute * SecondsPerMinute + second - LocalShift(tz), tz) <==> !(420 < minute < 1140)
  {
    var t := day * SecondsPerDay + minute * SecondsPerMinute + second - LocalShift(tz);
    IsLateRule(t, tz);
    MinuteOfDayAt(t, tz, day, minute, second);
  }

  /** The minute of the day of a time whose local clock is known. */
  lemma MinuteOfDayAt(timestamp: int, tz: Timezone, day: int, minute: int, second: int)
    requires 0 <= minute < MinutesPerDay && 0 <= second < 60
    requires timestamp + LocalShift(tz) == day * SecondsPerDay + minute * SecondsPerMinute + second
    ensures MinuteOfDay(timestamp, tz) == minute
  {
    DivModUnique(timestamp + LocalShift(tz), SecondsPerDay, day, minute * SecondsPerMinute + second);
    DivModUnique(minute * SecondsPerMinute + second, SecondsPerMinute, minute, second);
  }

  /** The cases the repository's tests check: 07:45 local at UTC+4 is in hours,
      04:45 at UTC+1 is late; 17:53 at the default UTC-4 is in hours, 21:53 UTC
      is late. */
  lemma TestVectorZoneAhead()
    ensures !IsLate(1530071118, OffsetSeconds(14400))
    ensures IsLate(1530071118, OffsetSeconds(3600))
  {
    IsLateRule(1530071118, OffsetSeconds(14400));
    MinuteOfDayAt(1530071118, OffsetSeconds(14400), 17709, 7 * 60 + 45, 18);
    IsLateRule(1530071118, OffsetSeconds(3600));
    MinuteOfDayAt(1530071118, OffsetSeconds(3600), 17709, 4 * 60 + 45, 18);
  }

  lemma TestVectorDefaultZone()
    ensures !IsLate(1530050018, NotANumber)
    ensures IsLate(1530050018, OffsetSeconds(0))
  {
    IsLateRule(1530050018, NotANumber);
    MinuteOfDayAt(1530050018, NotANumber, 17708, 17 * 60 + 53, 38);
    IsLateRule(1530050018, OffsetSeconds(0));
    MinuteOfDayAt(1530050018, OffsetSeconds(0), 17708, 21 * 60 + 53, 38);
  }
}
