/** base/TimeZone.cpp: seconds since the epoch to broken-down UTC time and back. */
module UtcTime {
  import opened CInt
  import opened Calendar

  const SECONDS_PER_DAY: int := 86400

  /** `struct tm`, with `year` counted from 1900 and `mon` from 0. */
  datatype Tm = Tm(
    sec: int, min: int, hour: int, mday: int, mon: int, year: int,
    wday: int, yday: int, isdst: bool, gmtoff: int, zone: string)

  /** The calendar date among the fields. */
  function DateOf(tm: Tm): YearMonthDay {
    YearMonthDay(tm.year + 1900, tm.mon + 1, tm.mday)
  }

  function SecondOfDay(tm: Tm): int {
    tm.hour * 3600 + tm.min * 60 + tm.sec
  }

  predicate ClockInRange(tm: Tm) {
    0 <= tm.hour < 24 && 0 <= tm.min < 60 && 0 <= tm.sec < 60
  }

  /** Fields that name a second of a day the calendar formulas cover. */
  predicate InRange(tm: Tm) {
    ValidDate(DateOf(tm)) && !Before(DateOf(tm), FIRST_DAY) && ClockInRange(tm)
  }

  /** Lexicographic order on year, month, day, hour, minute, second. */
  predicate Earlier(a: Tm, b: Tm) {
    || Before(DateOf(a), DateOf(b))
    || (DateOf(a) == DateOf(b)
        && (|| a.hour < b.hour
            || (a.hour == b.hour && a.min < b.min)
            || (a.hour == b.hour && a.min == b.min && a.sec < b.sec)))
  }

  /** The first second the conversions cover. */
  const FIRST_SECOND: int := (FIRST_JULIAN - 2440588) * SECONDS_PER_DAY

  // ---- Meaning ----

  /** The Julian day number of the day that holds second `t`, counted from 1970 by floored division. */
  function JulianOfSecond(t: int): int {
    2440588 + t / SECONDS_PER_DAY
  }

  /** Broken-down time: the date of the day that holds `t`, and the seconds since its midnight. */
  function UtcFields(t: int, yday: bool): (utc: Tm) {
    var julian := JulianOfSecond(t);
    var date := FromJulian(julian);
    var s := t % SECONDS_PER_DAY;
    Tm(s % 60, s / 60 % 60, s / 3600, date.day, date.month - 1, date.year - 1900, WeekDay(julian),
       if yday then julian - JulianDayNumber(date.year, 1, 1) else 0, false, 0, "GMT")
  }

  // ---- base/TimeZone.cpp ----

  method FillHMS(seconds: nat) returns (hour: int, min: int, sec: int)
    requires seconds < SECONDS_PER_DAY
    ensures 0 <= hour < 24 && 0 <= min < 60 && 0 <= sec < 60
    ensures hour * 3600 + min * 60 + sec == seconds
  {
    sec := seconds % 60;
    var minutes := seconds / 60;
    min := minutes % 60;
    hour := minutes / 60;
  }

  lemma ClockIsUnique(h: int, m: int, s: int, seconds: int)
    requires 0 <= m < 60 && 0 <= s < 60 && h * 3600 + m * 60 + s == seconds
    ensures s == seconds % 60 && m == seconds / 60 % 60 && h == seconds / 3600
  {
    assert seconds / 60 == h * 60 + m;
  }

  /** TimeZone::toUtcTime. C++ truncates both divisions, so a negative remainder is moved into the day before. */
  method ToUtcTime(secondsSinceEpoch: int, yday: bool) returns (utc: Tm)
    ensures utc == UtcFields(secondsSinceEpoch, yday)
  {
    hide FromJulian, JulianDayNumber, WeekDay;
    var seconds := Rem(secondsSinceEpoch, SECONDS_PER_DAY);
    var days := Quot(secondsSinceEpoch, SECONDS_PER_DAY);
    if seconds < 0 {
      seconds := seconds + SECONDS_PER_DAY;
      days := days - 1;
    }
    FlooredSplit(secondsSinceEpoch, days, seconds);
    var hour, min, sec := FillHMS(seconds);
    ClockIsUnique(hour, min, sec, seconds);
    EpochJulian();
    var julian := days + JULIAN_1970;
    var ymd := FromJulian(julian);
    utc := Tm(sec, min, hour, ymd.day, ymd.month - 1, ymd.year - 1900, WeekDay(julian), 0, false, 0, "GMT");
    if yday {
      utc := utc.(yday := julian - JulianDayNumber(ymd.year, 1, 1));
    }
  }

  /** TimeZone::fromUtcTime. */
  function FromUtcTime(year: int, month: int, day: int, hour: int, minute: int, seconds: int): (t: int) {
    var secondsInDay := hour * 3600 + minute * 60 + seconds;
    var days := JulianDayNumber(year, month, day) - JULIAN_1970;
    days * SECONDS_PER_DAY + secondsInDay
  }

  function FromUtcFields(utc: Tm): (t: int) {
    FromUtcTime(utc.year + 1900, utc.mon + 1, utc.mday, utc.hour, utc.min, utc.sec)
  }

  // ---- Properties ----

  lemma EpochJulian()
    ensures JULIAN_1970 == 2440588
  {
  }

  lemma FlooredSplit(t: int, days: int, seconds: int)
    requires 0 <= seconds < SECONDS_PER_DAY && t == SECONDS_PER_DAY * days + seconds
    ensures days == t / SECONDS_PER_DAY && seconds == t % SECONDS_PER_DAY
  {
  }

  lemma SecondOfUtc(t: int, yday: bool)
    ensures ClockInRange(UtcFields(t, yday))
    ensures SecondOfDay(UtcFields(t, yday)) == t % SECONDS_PER_DAY
    ensures DateOf(UtcFields(t, yday)) == FromJulian(JulianOfSecond(t))
  {
    hide FromJulian, JulianDayNumber, WeekDay;
    var s := t % SECONDS_PER_DAY;
    assert s / 3600 == s / 60 / 60;
  }

  lemma CoversIff(t: int)
    ensures t >= FIRST_SECOND <==> JulianOfSecond(t) >= FIRST_JULIAN
  {
  }

  lemma FromUtcSplit(utc: Tm)
    ensures FromUtcFields(utc) == (JulianOf(DateOf(utc)) - 2440588) * SECONDS_PER_DAY + SecondOfDay(utc)
  {
    hide JulianDayNumber;
    EpochJulian();
  }

  /** The fields name a real second exactly from FIRST_SECOND on. */
  lemma FieldsInRangeIff(t: int, yday: bool)
    ensures InRange(UtcFields(t, yday)) <==> t >= FIRST_SECOND
  {
    hide FromJulian, JulianOf, UtcFields, Before, DayAfterFirst;
    SecondOfUtc(t, yday);
    CoversIff(t);
    YieldsDateIff(JulianOfSecond(t));
    if t >= FIRST_SECOND {
      InverseWalksCalendar(JulianOfSecond(t));
      FormulaCountsDays(JulianOfSecond(t) - FIRST_JULIAN);
    }
  }

  /** Seconds survive the round trip through fields. */
  lemma SecondsRoundTrip(t: int, yday: bool)
    requires t >= FIRST_SECOND
    ensures FromUtcFields(UtcFields(t, yday)) == t
  {
    hide FromJulian, JulianOf, UtcFields, FromUtcFields;
    SecondOfUtc(t, yday);
    FromUtcSplit(UtcFields(t, yday));
    CoversIff(t);
    InverseWalksCalendar(JulianOfSecond(t));
  }

  /** Fields survive the round trip through seconds. */
  lemma FieldsRoundTrip(tm: Tm, yday: bool)
    requires InRange(tm)
    ensures FromUtcFields(tm) >= FIRST_SECOND
    ensures var back := UtcFields(FromUtcFields(tm), yday);
      DateOf(back) == DateOf(tm) && back.hour == tm.hour && back.min == tm.min && back.sec == tm.sec
  {
    hide FromJulian, JulianOf, UtcFields, FromUtcFields, Before, DayAfterFirst;
    var t := FromUtcFields(tm);
    FromUtcSplit(tm);
    FlooredSplit(t, JulianOf(DateOf(tm)) - 2440588, SecondOfDay(tm));
    SecondOfUtc(t, yday);
    EveryDateIsReached(DateOf(tm));
    RoundTripIff(DateOf(tm));
    var back := UtcFields(t, yday);
    ClockIsUnique(tm.hour, tm.min, tm.sec, SecondOfDay(tm));
    ClockIsUnique(back.hour, back.min, back.sec, SecondOfDay(tm));
  }

  /** tm_wday counts the days since Sunday 4 January 1970 by sevens exactly when it lies in 0..6, which is from Julian
      day -1 on, or on a Sunday. */
  lemma WeekDayOfSecond(t: int, yday: bool)
    ensures var w := UtcFields(t, yday).wday;
      && (w == (t / SECONDS_PER_DAY + 4) % 7 <==> 0 <= w <= 6)
      && (0 <= w <= 6 <==> JulianOfSecond(t) >= -1 || (t / SECONDS_PER_DAY + 4) % 7 == 0)
  {
    hide FromJulian, JulianDayNumber;
    var julian := JulianOfSecond(t);
    WeekDays(julian);
    assert julian + 1 == t / SECONDS_PER_DAY + 4 + 7 * 348655;
  }

  /** Later seconds have lexicographically later fields, and only they do. */
  lemma FieldsFollowTime(t: int, u: int)
    requires t >= FIRST_SECOND && u >= FIRST_SECOND
    ensures t < u <==> Earlier(UtcFields(t, false), UtcFields(u, false))
  {
    hide FromJulian, JulianOf, UtcFields, Before, DayAfterFirst, FromUtcFields;
    var a, b := UtcFields(t, false), UtcFields(u, false);
    FieldsInRangeIff(t, false);
    FieldsInRangeIff(u, false);
    SecondsRoundTrip(t, false);
    SecondsRoundTrip(u, false);
    FromUtcSplit(a);
    FromUtcSplit(b);
    JulianOrder(DateOf(a), DateOf(b));
    JulianOrder(DateOf(b), DateOf(a));
    EveryDateIsReached(DateOf(a));
    EveryDateIsReached(DateOf(b));
  }

  /** tm_yday is the number of days since 1 January, counted month by month on the calendar. */
  predicate YearDayCounted(utc: Tm) {
    ValidDate(DateOf(utc)) && utc.yday == DaysBeforeMonth(utc.year + 1900, utc.mon + 1) + utc.mday - 1
  }

  /** tm_yday is right exactly from the first year whose 1 January the formulas cover. */
  lemma YearDayIff(t: int)
    requires t >= FIRST_SECOND
    ensures YearDayCounted(UtcFields(t, true)) <==> UtcFields(t, true).year + 1900 >= -4799
  {
    hide FromJulian, JulianDayNumber, WeekDay, DayAfterFirst, IsLeap, DaysBeforeMonth;
    CoversIff(t);
    InverseWalksCalendar(JulianOfSecond(t));
    FormulaCountsDays(JulianOfSecond(t) - FIRST_JULIAN);
    DayOfYearIff(FromJulian(JulianOfSecond(t)));
  }

  /** Every `int` of toUtcTime holds the mathematical value. */
  predicate UtcComputes(t: int) {
    && FitsInt32(Quot(t, SECONDS_PER_DAY)) && FitsInt32(t / SECONDS_PER_DAY)
    && InverseFitsInt32(JulianOfSecond(t))
    && var d := FromJulian(JulianOfSecond(t));
    FormulaFitsInt32(d.year, d.month, d.day) && FormulaFitsInt32(d.year, 1, 1)
  }

  /** That is so exactly up to the last second of day 534398279. */
  lemma UtcFitsInt32Iff(t: int)
    requires t >= FIRST_SECOND
    ensures UtcComputes(t) <==> t < 534_398_280 * SECONDS_PER_DAY
  {
    hide FromJulian, InverseFitsInt32, FormulaFitsInt32, DayAfterFirst, JulianOf, IsLeap;
    var julian := JulianOfSecond(t);
    InverseFits(julian);
    if t < 534_398_280 * SECONDS_PER_DAY {
      InverseYears(julian);
      InverseWalksCalendar(julian);
      var d := FromJulian(julian);
      FormulaFits(d);
      FormulaFits(YearMonthDay(d.year, 1, 1));
    }
  }
}
