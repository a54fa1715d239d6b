/** base/Date.cpp: the closed Julian day formula and its inverse, against a calendar
    that knows only the leap-year rule and how one day follows another. */
module Calendar {
  import opened CInt

  datatype YearMonthDay = YearMonthDay(year: int, month: int, day: int)

  // ---- The proleptic Gregorian calendar (RFC 3339, section 5.7 and Appendix C) ----

  predicate IsLeap(year: int) {
    year % 4 == 0 && (year % 100 != 0 || year % 400 == 0)
  }

  function DaysInMonth(year: int, month: int): (n: int)
    requires 1 <= month <= 12
  {
    if month == 2 then (if IsLeap(year) then 29 else 28)
    else if month in {4, 6, 9, 11} then 30
    else 31
  }

  predicate ValidDate(d: YearMonthDay) {
    1 <= d.month <= 12 && 1 <= d.day <= DaysInMonth(d.year, d.month)
  }

  /** The day after `d`. */
  function NextDay(d: YearMonthDay): (n: YearMonthDay)
    requires ValidDate(d)
    ensures ValidDate(n)
  {
    if d.day < DaysInMonth(d.year, d.month) then YearMonthDay(d.year, d.month, d.day + 1)
    else if d.month < 12 then YearMonthDay(d.year, d.month + 1, 1)
    else YearMonthDay(d.year + 1, 1, 1)
  }

  predicate Before(d: YearMonthDay, e: YearMonthDay) {
    || d.year < e.year
    || (d.year == e.year && d.month < e.month)
    || (d.year == e.year && d.month == e.month && d.day < e.day)
  }

  /** The first day on which the formulas are right. */
  const FIRST_DAY := YearMonthDay(-4800, 3, 1)
  const FIRST_JULIAN: int := -32044

  /** The date reached from FIRST_DAY by stepping `n` days. */
  function DayAfterFirst(n: nat): (d: YearMonthDay)
    ensures ValidDate(d)
  {
    if n == 0 then FIRST_DAY else NextDay(DayAfterFirst(n - 1))
  }

  // ---- base/Date.cpp ----

  function JulianDayNumber(year: int, month: int, day: int): (jdn: int) {
    var a := Quot(14 - month, 12);
    var y := year + 4800 - a;
    var m := month + 12 * a - 3;
    day + Quot(153 * m + 2, 5) + y * 365 + Quot(y, 4) - Quot(y, 100) + Quot(y, 400) - 32045
  }

  function FromJulian(julianDayNumber: int): (ymd: YearMonthDay) {
    var a := julianDayNumber + 32044;
    var b := Quot(4 * a + 3, 146097);
    var c := a - Quot(b * 146097, 4);
    var d := Quot(4 * c + 3, 1461);
    var e := c - Quot(1461 * d, 4);
    var m := Quot(5 * e + 2, 153);
    YearMonthDay(b * 100 + d - 4800 + Quot(m, 10), m + 3 - 12 * Quot(m, 10), e - Quot(153 * m + 2, 5) + 1)
  }

  const JULIAN_1970: int := JulianDayNumber(1970, 1, 1)

  function JulianOf(d: YearMonthDay): (jdn: int) {
    JulianDayNumber(d.year, d.month, d.day)
  }

  /** Date::weekDay, 0 for Sunday. */
  function WeekDay(julianDayNumber: int): (w: int) {
    Rem(julianDayNumber + 1, 7)
  }

  // ---- Years that begin in March ----
  // Both formulas count years from 1 March of -4800, so that a leap day ends its year.

  function MarchYear(d: YearMonthDay): int { d.year + 4800 - (if d.month < 3 then 1 else 0) }
  function MarchMonth(d: YearMonthDay): int { if d.month < 3 then d.month + 9 else d.month - 3 }

  /** Days in the March-based years before year `y`. */
  function YearStart(y: int): int { 365 * y + y / 4 - y / 100 + y / 400 }

  /** Days in the first `m` months of a March-based year. */
  function MonthStart(m: int): int { (153 * m + 2) / 5 }

  function DayOfMarchYear(d: YearMonthDay): int { MonthStart(MarchMonth(d)) + d.day - 1 }

  lemma OnOrAfterFirst(d: YearMonthDay)
    requires ValidDate(d)
    ensures !Before(d, FIRST_DAY) <==> MarchYear(d) >= 0
  {
  }

  lemma QuotientStep(y: int, k: int)
    requires y >= 0 && k in {4, 100, 400}
    ensures (y + 1) / k - y / k == (if (y + 1) % k == 0 then 1 else 0)
  {
    if k == 4 {} else if k == 100 {} else {}
  }

  lemma YearLength(y: int)
    requires y >= 0
    ensures YearStart(y + 1) - YearStart(y) == (if IsLeap(y + 1) then 366 else 365)
  {
    QuotientStep(y, 4);
    QuotientStep(y, 100);
    QuotientStep(y, 400);
    Multiples(y + 1);
  }

  lemma Multiples(y: int)
    ensures y % 400 == 0 ==> y % 100 == 0
    ensures y % 100 == 0 ==> y % 4 == 0
  {
    if y % 400 == 0 {
      MultipleOf(100, 4 * (y / 400));
    }
    if y % 100 == 0 {
      MultipleOf(4, 25 * (y / 100));
    }
  }

  lemma MultipleOf(k: int, n: int)
    requires k in {4, 100}
    ensures (k * n) % k == 0
  {
    if k == 4 {} else {}
  }

  lemma SameRemainder4(year: int)
    ensures (year + 4800) % 4 == year % 4
  {
    assert year + 4800 == 4 * (year / 4 + 1200) + year % 4;
  }

  lemma SameRemainder100(year: int)
    ensures (year + 4800) % 100 == year % 100
  {
    assert year + 4800 == 100 * (year / 100 + 48) + year % 100;
  }

  lemma SameRemainder400(year: int)
    ensures (year + 4800) % 400 == year % 400
  {
    assert year + 4800 == 400 * (year / 400 + 12) + year % 400;
  }

  lemma LeapShift(year: int)
    ensures IsLeap(year + 4800) == IsLeap(year)
  {
    SameRemainder4(year);
    SameRemainder100(year);
    SameRemainder400(year);
  }

  lemma MonthLengths(d: YearMonthDay)
    requires ValidDate(d)
    ensures d.month != 2 ==> MonthStart(MarchMonth(d) + 1) - MonthStart(MarchMonth(d)) == DaysInMonth(d.year, d.month)
    ensures MonthStart(MarchMonth(d)) == [0, 31, 61, 92, 122, 153, 184, 214, 245, 275, 306, 337][MarchMonth(d)]
  {
    var m := MarchMonth(d);
    if m == 0 {} else if m == 1 {} else if m == 2 {} else if m == 3 {} else if m == 4 {} else if m == 5 {}
    else if m == 6 {} else if m == 7 {} else if m == 8 {} else if m == 9 {} else if m == 10 {} else {}
  }

  lemma JulianInMarchYears(d: YearMonthDay)
    requires ValidDate(d) && MarchYear(d) >= 0
    ensures JulianOf(d) == YearStart(MarchYear(d)) + DayOfMarchYear(d) + FIRST_JULIAN
  {
  }

  /** The last day of a March-based year is the leap day in a leap year. */
  lemma DayOfMarchYearRange(d: YearMonthDay)
    requires ValidDate(d)
    ensures 0 <= DayOfMarchYear(d) <= (if IsLeap(MarchYear(d) + 1) then 365 else 364)
  {
    MonthLengths(d);
    LeapShift(d.year);
  }

  // ---- The formula counts days ----

  /** One day on the calendar is one on the Julian count. */
  lemma SuccessorAddsOne(d: YearMonthDay)
    requires ValidDate(d) && !Before(d, FIRST_DAY)
    ensures JulianOf(NextDay(d)) == JulianOf(d) + 1
  {
    hide JulianOf, YearStart, MonthStart, Before, IsLeap;
    var n := NextDay(d);
    OnOrAfterFirst(d);
    JulianInMarchYears(d);
    JulianInMarchYears(n);
    MonthLengths(d);
    MonthLengths(n);
    if d.month == 2 && d.day == DaysInMonth(d.year, 2) {
      YearLength(MarchYear(d));
      LeapShift(d.year);
    }
  }

  /** Counting days from FIRST_DAY and the formula give the same number. */
  lemma {:induction false} FormulaCountsDays(n: nat)
    ensures JulianOf(DayAfterFirst(n)) == n + FIRST_JULIAN
    ensures !Before(DayAfterFirst(n), FIRST_DAY)
  {
    if n == 0 {
    } else {
      FormulaCountsDays(n - 1);
      SuccessorAddsOne(DayAfterFirst(n - 1));
    }
  }

  // ---- The inverse ----

  lemma YearParts(century: int, rest: int)
    requires 0 <= century && 0 <= rest < 100
    ensures YearStart(100 * century + rest) == 36524 * century + century / 4 + 365 * rest + rest / 4
  {
    var y := 100 * century + rest;
    assert y / 4 == 25 * century + rest / 4;
    assert y / 100 == century;
    assert y / 400 == century / 4;
  }

  lemma LeapParts(century: int, rest: int)
    requires 0 <= century && 0 <= rest < 100
    ensures IsLeap(100 * century + rest + 1) ==> (rest + 1) % 4 == 0 && (rest == 99 ==> century % 4 == 3)
  {
    var y := 100 * century + rest + 1;
    if rest == 99 {
      var q, s := (century + 1) / 4, (century + 1) % 4;
      assert y == 400 * q + 100 * s;
      assert y % 400 == 100 * s;
    } else {
      var u := (rest + 1) / 4;
      assert y == 4 * (25 * century + u) + (rest + 1 - 4 * u);
    }
  }

  lemma CenturyOf(century: int, w: int)
    requires 0 <= century && 0 <= w <= (if century % 4 == 3 then 36524 else 36523)
    ensures var a := 36524 * century + century / 4 + w;
      (4 * a + 3) / 146097 == century && a - century * 146097 / 4 == w
  {
    var q, s := century / 4, century % 4;
    var a := 36524 * century + q + w;
    assert 4 * a + 3 == 146097 * century + (4 * w + 3 - s);
    assert 0 <= 4 * w + 3 - s < 146097;
    assert century * 146097 / 4 == 36524 * century + q;
  }

  lemma YearInCentury(rest: int, doy: int)
    requires 0 <= rest && 0 <= doy <= (if (rest + 1) % 4 == 0 then 365 else 364)
    ensures var c := 365 * rest + rest / 4 + doy;
      (4 * c + 3) / 1461 == rest && c - 1461 * rest / 4 == doy
  {
    var u, v := rest / 4, rest % 4;
    var c := 365 * rest + u + doy;
    assert 4 * c + 3 == 1461 * rest + (4 * doy + 3 - v);
    assert 0 <= 4 * doy + 3 - v < 1461;
    assert 1461 * rest / 4 == 365 * rest + u;
  }

  lemma MonthInYear(d: YearMonthDay)
    requires ValidDate(d)
    ensures (5 * DayOfMarchYear(d) + 2) / 153 == MarchMonth(d)
  {
    MonthLengths(d);
    var m := MarchMonth(d);
    if m == 0 {} else if m == 1 {} else if m == 2 {} else if m == 3 {} else if m == 4 {} else if m == 5 {}
    else if m == 6 {} else if m == 7 {} else if m == 8 {} else if m == 9 {} else if m == 10 {} else {}
  }

  /** The date of day `doy` of the March-based year `y`, as the inverse's last steps compute it. */
  function FromMarchYear(y: int, doy: int): YearMonthDay {
    var m := Quot(5 * doy + 2, 153);
    YearMonthDay(y - 4800 + Quot(m, 10), m + 3 - 12 * Quot(m, 10), doy - Quot(153 * m + 2, 5) + 1)
  }

  lemma FromJulianTail(j: int, b: int, d: int, e: int)
    requires b == Quot(4 * (j + 32044) + 3, 146097)
    requires d == Quot(4 * (j + 32044 - Quot(b * 146097, 4)) + 3, 1461)
    requires e == j + 32044 - Quot(b * 146097, 4) - Quot(1461 * d, 4)
    ensures FromJulian(j) == FromMarchYear(100 * b + d, e)
  {
    hide Quot;
  }

  lemma InverseByStages(a: int, b: int, c: int, d: int, e: int)
    requires 0 <= a && b == (4 * a + 3) / 146097
    requires 0 <= b && 0 <= c == a - b * 146097 / 4
    requires 0 <= d == (4 * c + 3) / 1461 && e == c - 1461 * d / 4
    ensures FromJulian(a - 32044) == FromMarchYear(100 * b + d, e)
  {
    hide FromMarchYear;
    assert Quot(4 * a + 3, 146097) == b;
    assert Quot(b * 146097, 4) == b * 146097 / 4;
    assert Quot(4 * c + 3, 1461) == d;
    assert Quot(1461 * d, 4) == 1461 * d / 4;
    FromJulianTail(a - 32044, b, d, e);
  }

  lemma InverseStages(a: int, century: int, rest: int, doy: int)
    requires 0 <= a && 0 <= century && (4 * a + 3) / 146097 == century
    requires a - century * 146097 / 4 == 365 * rest + rest / 4 + doy
    requires 0 <= rest && 0 <= doy <= (if (rest + 1) % 4 == 0 then 365 else 364)
    ensures FromJulian(a - 32044) == FromMarchYear(100 * century + rest, doy)
  {
    YearInCentury(rest, doy);
    InverseByStages(a, century, 365 * rest + rest / 4 + doy, rest, doy);
  }

  lemma InverseInCenturies(century: int, rest: int, doy: int)
    requires 0 <= century && 0 <= rest < 100
    requires 0 <= doy <= (if IsLeap(100 * century + rest + 1) then 365 else 364)
    ensures FromJulian(YearStart(100 * century + rest) + doy - 32044) == FromMarchYear(100 * century + rest, doy)
  {
    hide YearStart, IsLeap, FromJulian, FromMarchYear;
    YearParts(century, rest);
    LeapParts(century, rest);
    var w := 365 * rest + rest / 4 + doy;
    var a := 36524 * century + century / 4 + w;
    assert a == YearStart(100 * century + rest) + doy;
    CenturyOf(century, w);
    InverseStages(a, century, rest, doy);
  }

  lemma InverseOfFormula(d: YearMonthDay)
    requires ValidDate(d) && MarchYear(d) >= 0
    ensures FromJulian(JulianOf(d)) == d
  {
    hide JulianOf, FromJulian, YearStart, DayOfMarchYear, FromMarchYear, MarchYear, IsLeap;
    var y := MarchYear(d);
    JulianInMarchYears(d);
    DayOfMarchYearRange(d);
    assert y == 100 * (y / 100) + y % 100;
    InverseInCenturies(y / 100, y % 100, DayOfMarchYear(d));
    FromMarchYearOf(d);
  }

  lemma FromMarchYearOf(d: YearMonthDay)
    requires ValidDate(d)
    ensures FromMarchYear(MarchYear(d), DayOfMarchYear(d)) == d
  {
    MonthInYear(d);
    MonthLengths(d);
  }

  /** Below FIRST_JULIAN the inverse never yields a date: its day is zero or negative. */
  lemma NoDayBeforeFirst(julianDayNumber: int)
    requires julianDayNumber < FIRST_JULIAN
    ensures FromJulian(julianDayNumber).day <= 0
  {
    var a := julianDayNumber + 32044;
    var b := Quot(4 * a + 3, 146097);
    var c := a - Quot(b * 146097, 4);
    assert b <= 0 && c <= 0;
    var d := Quot(4 * c + 3, 1461);
    var e := c - Quot(1461 * d, 4);
    assert e <= 0;
  }

  // ---- What the two conversions promise ----

  /** From FIRST_JULIAN on, the inverse walks the calendar day by day. */
  lemma InverseWalksCalendar(julianDayNumber: int)
    requires julianDayNumber >= FIRST_JULIAN
    ensures FromJulian(julianDayNumber) == DayAfterFirst(julianDayNumber - FIRST_JULIAN)
    ensures JulianOf(FromJulian(julianDayNumber)) == julianDayNumber
  {
    var d := DayAfterFirst(julianDayNumber - FIRST_JULIAN);
    FormulaCountsDays(julianDayNumber - FIRST_JULIAN);
    OnOrAfterFirst(d);
    InverseOfFormula(d);
  }

  /** A Julian day number stands for a date exactly from FIRST_JULIAN on. */
  lemma YieldsDateIff(julianDayNumber: int)
    ensures ValidDate(FromJulian(julianDayNumber)) <==> julianDayNumber >= FIRST_JULIAN
  {
    if julianDayNumber >= FIRST_JULIAN {
      InverseWalksCalendar(julianDayNumber);
    } else {
      NoDayBeforeFirst(julianDayNumber);
    }
  }

  /** A date survives the round trip exactly from FIRST_DAY on. */
  lemma RoundTripIff(d: YearMonthDay)
    requires ValidDate(d)
    ensures FromJulian(JulianOf(d)) == d <==> !Before(d, FIRST_DAY)
  {
    hide JulianOf, FromJulian, Before;
    OnOrAfterFirst(d);
    if MarchYear(d) >= 0 {
      InverseOfFormula(d);
    } else if FromJulian(JulianOf(d)) == d {
      YieldsDateIff(JulianOf(d));
      FormulaCountsDays(JulianOf(d) - FIRST_JULIAN);
      InverseWalksCalendar(JulianOf(d));
      assert false;
    }
  }

  /** Every date from FIRST_DAY on is reached by stepping, after as many days as the formula says. */
  lemma EveryDateIsReached(d: YearMonthDay)
    requires ValidDate(d) && !Before(d, FIRST_DAY)
    ensures JulianOf(d) >= FIRST_JULIAN && DayAfterFirst(JulianOf(d) - FIRST_JULIAN) == d
  {
    hide JulianOf, FromJulian, Before;
    OnOrAfterFirst(d);
    InverseOfFormula(d);
    YieldsDateIff(JulianOf(d));
    InverseWalksCalendar(JulianOf(d));
  }

  lemma {:induction false} LaterDayIsLater(m: nat, n: nat)
    requires m < n
    ensures Before(DayAfterFirst(m), DayAfterFirst(n))
  {
    if n == m + 1 {
    } else {
      LaterDayIsLater(m, n - 1);
    }
  }

  /** The Julian order is the calendar order. */
  lemma JulianOrder(d: YearMonthDay, e: YearMonthDay)
    requires ValidDate(d) && !Before(d, FIRST_DAY)
    requires ValidDate(e) && !Before(e, FIRST_DAY)
    ensures JulianOf(d) < JulianOf(e) <==> Before(d, e)
  {
    EveryDateIsReached(d);
    EveryDateIsReached(e);
    var m, n := JulianOf(d) - FIRST_JULIAN, JulianOf(e) - FIRST_JULIAN;
    if m < n {
      LaterDayIsLater(m, n);
    } else if n < m {
      LaterDayIsLater(n, m);
    }
  }

  /** Weekdays follow one another from a Thursday on 1 January 1970, and lie in [0, 6], from day -1 on;
      below that C++'s remainder leaves the range except on Sundays. */
  lemma WeekDays(julianDayNumber: int)
    ensures WeekDay(JULIAN_1970) == 4
    ensures julianDayNumber >= -1 ==> WeekDay(julianDayNumber + 1) == (WeekDay(julianDayNumber) + 1) % 7
    ensures 0 <= WeekDay(julianDayNumber) <= 6 <==> julianDayNumber >= -1 || (julianDayNumber + 1) % 7 == 0
  {
    assert JULIAN_1970 == 2440588;
  }

  // ---- Day of the year ----

  /** Days in the months of `year` before `month`. */
  function DaysBeforeMonth(year: int, month: int): (n: int)
    requires 1 <= month <= 12
  {
    if month == 1 then 0 else DaysBeforeMonth(year, month - 1) + DaysInMonth(year, month - 1)
  }

  lemma DaysOfMonth(year: int, month: int, day: int)
    ensures JulianDayNumber(year, month, day) == JulianDayNumber(year, month, 1) + day - 1
  {
  }

  lemma MonthAfterMonth(year: int, month: int)
    requires 1 <= month < 12 && (year >= -4799 || (year == -4800 && month >= 3))
    ensures JulianDayNumber(year, month + 1, 1) == JulianDayNumber(year, month, 1) + DaysInMonth(year, month)
  {
    hide JulianDayNumber, IsLeap, DaysInMonth;
    var last := YearMonthDay(year, month, DaysInMonth(year, month));
    assert ValidDate(last) && NextDay(last) == YearMonthDay(year, month + 1, 1) by {
      MonthLengthRange(year, month);
    }
    SuccessorAddsOne(last);
    DaysOfMonth(year, month, last.day);
  }

  lemma MonthLengthRange(year: int, month: int)
    requires 1 <= month <= 12
    ensures 28 <= DaysInMonth(year, month) <= 31
  {
  }

  lemma {:induction false} MonthsOfYear(year: int, month: int)
    requires 1 <= month <= 12 && (year >= -4799 || (year == -4800 && month >= 3))
    ensures JulianDayNumber(year, month, 1) ==
      JulianDayNumber(year, 1, 1) + DaysBeforeMonth(year, month) - (if year == -4800 then 1 else 0)
  {
    if year == -4800 && month == 3 {
      assert DaysBeforeMonth(year, 2) == 31;
    } else if month > 1 {
      hide JulianDayNumber, DaysInMonth;
      MonthsOfYear(year, month - 1);
      MonthAfterMonth(year, month - 1);
    }
  }

  /** Subtracting the year's first day gives the offset counted month by month, exactly from the
      first year whose January the formula covers. */
  lemma DayOfYearIff(d: YearMonthDay)
    requires ValidDate(d) && !Before(d, FIRST_DAY)
    ensures JulianOf(d) - JulianDayNumber(d.year, 1, 1) == DaysBeforeMonth(d.year, d.month) + d.day - 1
      <==> d.year >= -4799
  {
    hide JulianDayNumber, DaysInMonth, DaysBeforeMonth;
    MonthsOfYear(d.year, d.month);
    DaysOfMonth(d.year, d.month, d.day);
  }

  // ---- The width of `int` ----

  /** Every value that getJulianDayNumber computes on the way fits 32 bits. */
  predicate FormulaFitsInt32(year: int, month: int, day: int) {
    var a := Quot(14 - month, 12);
    var y := year + 4800 - a;
    var m := month + 12 * a - 3;
    && FitsInt32(y) && FitsInt32(m) && FitsInt32(153 * m + 2) && FitsInt32(y * 365)
    && FitsInt32(day + Quot(153 * m + 2, 5))
    && FitsInt32(day + Quot(153 * m + 2, 5) + y * 365)
    && FitsInt32(day + Quot(153 * m + 2, 5) + y * 365 + Quot(y, 4))
    && FitsInt32(day + Quot(153 * m + 2, 5) + y * 365 + Quot(y, 4) - Quot(y, 100))
    && FitsInt32(day + Quot(153 * m + 2, 5) + y * 365 + Quot(y, 4) - Quot(y, 100) + Quot(y, 400))
    && FitsInt32(JulianDayNumber(year, month, day))
  }

  /** Every value that getYearMonthDay computes on the way fits 32 bits. */
  predicate InverseFitsInt32(julianDayNumber: int) {
    var a := julianDayNumber + 32044;
    var b := Quot(4 * a + 3, 146097);
    var c := a - Quot(b * 146097, 4);
    var d := Quot(4 * c + 3, 1461);
    var e := c - Quot(1461 * d, 4);
    var m := Quot(5 * e + 2, 153);
    && FitsInt32(4 * a) && FitsInt32(4 * a + 3) && FitsInt32(b * 146097) && FitsInt32(c)
    && FitsInt32(4 * c + 3) && FitsInt32(1461 * d) && FitsInt32(e) && FitsInt32(5 * e + 2)
    && FitsInt32(153 * m + 2) && FitsInt32(b * 100 + d)
  }

  lemma InverseRanges(a: int)
    requires 0 <= a
    ensures var b := (4 * a + 3) / 146097; var c := a - b * 146097 / 4; var d := (4 * c + 3) / 1461;
      && 0 <= b * 146097 <= 4 * a + 3 && 0 <= c <= 36524
      && 0 <= d <= 100 && 0 <= c - 1461 * d / 4 <= 366
  {
  }

  /** The inverse overflows exactly when 4 * a + 3 does. */
  lemma InverseFits(julianDayNumber: int)
    requires julianDayNumber >= FIRST_JULIAN
    ensures InverseFitsInt32(julianDayNumber) <==> FitsInt32(4 * (julianDayNumber + 32044) + 3)
  {
    InverseRanges(julianDayNumber + 32044);
  }

  /** The years the inverse can produce without overflow. */
  lemma InverseYears(julianDayNumber: int)
    requires julianDayNumber >= FIRST_JULIAN && FitsInt32(4 * (julianDayNumber + 32044) + 3)
    ensures -4800 <= FromJulian(julianDayNumber).year <= 1_500_000
  {
    InverseRanges(julianDayNumber + 32044);
  }

  /** On every date the inverse can produce without overflow, the formula does not overflow either. */
  lemma FormulaFits(d: YearMonthDay)
    requires 1 <= d.month <= 12 && 1 <= d.day <= 31 && -4800 <= d.year <= 1_500_000
    ensures FormulaFitsInt32(d.year, d.month, d.day)
  {
    hide Quot;
    var a := if d.month < 3 then 1 else 0;
    FirstMonths(d.month);
    LeapDayRanges(d.year + 4800 - a);
    DaysBeforeRange(d.month + 12 * a - 3);
  }

  lemma FirstMonths(month: int)
    requires 1 <= month <= 12
    ensures Quot(14 - month, 12) == if month < 3 then 1 else 0
  {
  }

  lemma LeapDayRanges(y: int)
    requires -1 <= y <= 1_504_800
    ensures 0 <= Quot(y, 4) <= 376_200 && 0 <= Quot(y, 100) <= 15_048 && 0 <= Quot(y, 400) <= 3_762
  {
  }

  lemma DaysBeforeRange(m: int)
    requires 0 <= m <= 11
    ensures 0 <= Quot(153 * m + 2, 5) <= 400
  {
  }
}
