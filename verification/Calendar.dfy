/** drivers/rtc.c and kernel/mktime.c: weekdays, days of the year and seconds, against a count
    of days that steps through the Gregorian calendar one date at a time. */
module Calendar {
  datatype Date = Date(year: int, month: int, day: int)

  /** `rtc_year_is_leap`. */
  predicate IsLeap(year: int) {
    (year % 4 == 0 && year % 100 != 0) || year % 400 == 0
  }

  function DaysIn(year: int, month: int): int {
    if month == 2 then (if IsLeap(year) then 29 else 28)
    else if month == 4 || month == 6 || month == 9 || month == 11 then 30 else 31
  }

  predicate IsDate(d: Date) {
    d.year >= 1 && 1 <= d.month <= 12 && 1 <= d.day <= DaysIn(d.year, d.month)
  }

  /** The day after. */
  function NextDay(d: Date): (n: Date)
    requires IsDate(d)
    ensures IsDate(n)
  {
    if d.day < DaysIn(d.year, d.month) then d.(day := d.day + 1)
    else if d.month < 12 then Date(d.year, d.month + 1, 1)
    else Date(d.year + 1, 1, 1)
  }

  const FIRST := Date(1, 1, 1)

  /** The date n days after 1 January of year 1, a Monday. */
  function DateAfter(n: nat): (d: Date)
    ensures IsDate(d)
  {
    if n == 0 then FIRST else NextDay(DateAfter(n - 1))
  }

  // rtc.c.

  /** The table of `rtc_get_yday`, for a common year. */
  function DaysBeforeMonth(month: int): int
    requires 1 <= month <= 12
  {
    [0, 31, 59, 90, 120, 151, 181, 212, 243, 273, 304, 334][month - 1]
  }

  function LeapDaysBeforeMonth(month: int): int
    requires 1 <= month <= 12
  {
    [0, 31, 60, 91, 121, 152, 182, 213, 244, 274, 305, 335][month - 1]
  }

  /** `rtc_get_yday`. */
  function YearDay(d: Date): int
    requires 1 <= d.month <= 12
  {
    (if IsLeap(d.year) then LeapDaysBeforeMonth(d.month) else DaysBeforeMonth(d.month)) + d.day
  }

  /** The sum in `rtc_get_wday`. No operand is negative, so C's division is Dafny's. */
  function WeekdaySum(d: Date): int
    requires IsDate(d)
  {
    var day := d.day + if d.month < 3 then d.year else d.year - 2;
    var year := if d.month < 3 then d.year - 1 else d.year;
    23 * d.month / 9 + day + 4 + year / 4 - year / 100 + year / 400
  }

  /** `rtc_get_wday`. */
  function Weekday(d: Date): int
    requires IsDate(d)
  {
    WeekdaySum(d) % 7
  }

  /** Leap days in the years 1 to y. */
  function LeapDays(y: int): int {
    y / 4 - y / 100 + y / 400
  }

  /** Days from 31 December of year 0. */
  function DayNumber(d: Date): int
    requires IsDate(d)
  {
    365 * (d.year - 1) + LeapDays(d.year - 1) + YearDay(d)
  }

  lemma LeapDaysStep(y: int)
    requires y >= 1
    ensures LeapDays(y) == LeapDays(y - 1) + if IsLeap(y) then 1 else 0
  {
    Quotients(y, 4);
    Quotients(y, 100);
    Quotients(y, 400);
    Multiples(y);
  }

  lemma Multiples(y: int)
    ensures y % 400 == 0 ==> y % 100 == 0
    ensures y % 100 == 0 ==> y % 4 == 0
  {
  }

  lemma Quotients(y: int, k: int)
    requires y >= 1 && (k == 4 || k == 100 || k == 400)
    ensures y / k == (y - 1) / k + if y % k == 0 then 1 else 0
  {
  }

  /** The day number grows by one each day, `rtc_get_yday` with it or back to 1. */
  lemma NextDayNumber(d: Date)
    requires IsDate(d)
    ensures DayNumber(NextDay(d)) == DayNumber(d) + 1
    ensures YearDay(NextDay(d)) == if d.month == 12 && d.day == 31 then 1 else YearDay(d) + 1
  {
    LeapDaysStep(d.year);
  }

  /** So it counts the days stepped through from the first. */
  lemma FirstDay()
    ensures DayNumber(FIRST) == 1
  {
  }

  lemma {:induction false} DayNumberCounts(n: nat)
    ensures DayNumber(DateAfter(n)) == n + 1
  {
    hide DayNumber, NextDay;
    if n == 0 {
      FirstDay();
    } else {
      DayNumberCounts(n - 1);
      NextDayNumber(DateAfter(n - 1));
    }
  }

  /** What the month contributes differs from the days before it by whole weeks. */
  lemma MonthTerm(m: int) returns (weeks: int)
    requires 1 <= m <= 12
    ensures 23 * m / 9 - DaysBeforeMonth(m) + (if m < 3 then 5 else 3) == 7 * weeks
    ensures LeapDaysBeforeMonth(m) == DaysBeforeMonth(m) + if m < 3 then 0 else 1
  {
    weeks := (23 * m / 9 - DaysBeforeMonth(m) + (if m < 3 then 5 else 3)) / 7;
  }

  lemma WholeWeeks(d: Date) returns (weeks: int)
    requires IsDate(d)
    ensures WeekdaySum(d) == DayNumber(d) + 7 * weeks
  {
    LeapDaysStep(d.year);
    var w := MonthTerm(d.month);
    hide DaysBeforeMonth, LeapDaysBeforeMonth, DaysIn;
    weeks := w - 52 * (d.year - 1);
  }

  lemma SameRemainder(a: int, b: int, k: int)
    requires a == b + 7 * k
    ensures a % 7 == b % 7
  {
  }

  lemma RemainderOfSum(a: int, b: int)
    ensures (a % 7 + b) % 7 == (a + b) % 7
  {
  }

  /** `rtc_get_wday` is the day number modulo 7, Sunday being 0. */
  lemma WeekdayIsDayNumber(d: Date)
    requires IsDate(d)
    ensures Weekday(d) == DayNumber(d) % 7
  {
    var weeks := WholeWeeks(d);
    hide WeekdaySum, DayNumber;
    SameRemainder(WeekdaySum(d), DayNumber(d), weeks);
  }

  lemma FromNewYear(d: Date)
    requires IsDate(d)
    ensures DayNumber(d) == DayNumber(Date(d.year, 1, 1)) + (YearDay(d) - 1)
  {
  }

  /** The weekday advances by one from each day to the next, and is that of 1 January moved on
      by the day of the year. */
  lemma WeekdayAdvances(d: Date)
    requires IsDate(d)
    ensures Weekday(NextDay(d)) == (Weekday(d) + 1) % 7
    ensures Weekday(d) == (Weekday(Date(d.year, 1, 1)) + YearDay(d) - 1) % 7
  {
    var first := Date(d.year, 1, 1);
    hide Weekday, DayNumber, YearDay, NextDay;
    FromNewYear(d);
    WeekdayIsDayNumber(d);
    WeekdayIsDayNumber(NextDay(d));
    WeekdayIsDayNumber(first);
    NextDayNumber(d);
    RemainderOfSum(DayNumber(d), 1);
    RemainderOfSum(DayNumber(first), YearDay(d) - 1);
  }

  /** Every weekday the clock shows is right: n days after a Monday. */
  lemma WeekdayCounts(n: nat)
    ensures Weekday(DateAfter(n)) == (n + 1) % 7
  {
    DayNumberCounts(n);
    WeekdayIsDayNumber(DateAfter(n));
  }

  // mktime.c.

  const MINUTE: int := 60
  const HOUR: int := 3600
  const DAY: int := 86400
  const YEAR: int := 31536000
  const TWO31: int := 0x8000_0000
  const TWO32: int := 0x1_0000_0000

  datatype Time = Time(hour: int, min: int, sec: int)

  /** What a 32-bit `int` keeps of a result. */
  function Int(x: int): (r: int)
    ensures -TWO31 <= r < TWO31
  {
    (x + TWO31) % TWO32 - TWO31
  }

  predicate FitsInt(x: int) {
    -TWO31 <= x < TWO31
  }

  /** How often the value was wrapped around. */
  function Era(x: int): int {
    (x + TWO31) / TWO32
  }

  lemma IntWraps(x: int)
    ensures Int(x) == x - TWO32 * Era(x) && (Era(x) == 0 <==> FitsInt(x))
    ensures Era(x) > 0 <==> x >= TWO31
  {
  }

  /** The years since 1970 in seconds, every fourth one a leap year. */
  function ExactYears(year: int): int {
    YEAR * year + DAY * ((year + 1) / 4)
  }

  /** The first line of `kernel_mktime`, in 32 bits. */
  function YearSeconds(year: int): int {
    Int(Int(YEAR * year) + Int(DAY * ((year + 1) / 4)))
  }

  /** The time of day, with products in 32 bits. */
  function TimeSeconds(t: Time): int {
    Int(HOUR * t.hour) + Int(MINUTE * t.min) + t.sec
  }

  /** `kernel_mktime`; tm_year counts from 1900 and tm_mon from 0. The shift rounds down, and
      the sum of the parts is 64 bits wide. */
  function Seconds(d: Date, t: Time): int
    requires 1 <= d.month <= 12
  {
    var year := d.year - 1970;
    var correction := if d.month > 2 && (year + 2) % 4 != 0 then DAY else 0;
    YearSeconds(year) + DAY * LeapDaysBeforeMonth(d.month) - correction + DAY * (d.day + 1) + TimeSeconds(t)
  }

  lemma IntOfSum(a: int, b: int)
    ensures Int(Int(a) + Int(b)) == Int(a + b)
  {
    IntWraps(a);
    IntWraps(b);
    hide Int, Era;
    SameInt(Int(a) + Int(b), a + b, -Era(a) - Era(b));
  }

  lemma SameInt(x: int, y: int, k: int)
    requires x == y + TWO32 * k
    ensures Int(x) == Int(y)
  {
  }

  lemma YearSecondsWrap(year: int)
    ensures YearSeconds(year) == ExactYears(year) - TWO32 * Era(ExactYears(year))
  {
    IntOfSum(YEAR * year, DAY * ((year + 1) / 4));
    IntWraps(ExactYears(year));
    hide Int, Era;
  }

  /** No 32-bit result overflows, exactly from 1902 to 2038. */
  lemma NoOverflow(year: int)
    ensures && FitsInt(YEAR * (year - 1970)) && FitsInt(DAY * ((year - 1970 + 1) / 4))
            && FitsInt(ExactYears(year - 1970))
            <==> 1902 <= year <= 2038
    ensures FitsInt(ExactYears(year - 1970)) <==> 1902 <= year <= 2038
  {
  }

  /** The days within the year, as the source counts them. */
  function MonthDays(d: Date): int
    requires 1 <= d.month <= 12
  {
    LeapDaysBeforeMonth(d.month) - (if d.month > 2 && d.year % 4 != 0 then 1 else 0) + d.day + 1
  }

  lemma SecondsInParts(d: Date, t: Time)
    requires 1 <= d.month <= 12
    ensures Seconds(d, t) == YearSeconds(d.year - 1970) + DAY * MonthDays(d) + TimeSeconds(t)
  {
    Fours(d.year);
    hide YearSeconds, LeapDaysBeforeMonth, TimeSeconds;
  }

  predicate CommonCentury(year: int) {
    year % 100 == 0 && year % 400 != 0
  }

  lemma Fours(y: int)
    ensures (y - 1970 + 2) % 4 == 0 <==> y % 4 == 0
    ensures (y + 1 - 1970 + 1) / 4 == (y - 1970 + 1) / 4 + if y % 4 == 0 then 1 else 0
    ensures IsLeap(y) <==> y % 4 == 0 && !CommonCentury(y)
  {
  }

  /** The leap days of the source that the calendar does not have, relative to 1970. */
  function CenturyDays(d: Date): int {
    (d.year - 1) / 100 - (d.year - 1) / 400 - 15 + if CommonCentury(d.year) && d.month > 2 then 1 else 0
  }

  lemma YearPart(y: int)
    ensures ExactYears(y - 1970) == DAY * (365 * (y - 1970) + (y - 1) / 4 - 492)
  {
    assert (y - 1969) / 4 == (y - 1) / 4 - 492;
  }

  lemma MonthPart(d: Date)
    requires IsDate(d)
    ensures MonthDays(d) == YearDay(d) + 1 + if CommonCentury(d.year) && d.month > 2 then 1 else 0
  {
    Fours(d.year);
    CenturyIsFourth(d.year);
    var _ := MonthTerm(d.month);
    hide DaysBeforeMonth, LeapDaysBeforeMonth, DaysIn, IsLeap, CommonCentury;
  }

  lemma CenturyIsFourth(y: int)
    ensures CommonCentury(y) ==> y % 4 == 0
  {
    Multiples(y);
  }

  /** Without the wrap the source would count the days since 1970, two too many, and one more
      for each of those leap days. */
  lemma ExactDays(d: Date)
    requires IsDate(d)
    ensures ExactYears(d.year - 1970) + DAY * MonthDays(d) ==
            DAY * (DayNumber(d) - DayNumber(Date(1970, 1, 1)) + 2 + CenturyDays(d))
  {
    YearPart(d.year);
    MonthPart(d);
    assert DayNumber(Date(1970, 1, 1)) == 719163;
    hide ExactYears, MonthDays, YearDay, DaysIn, CommonCentury;
  }

  lemma CenturyStep(d: Date)
    requires IsDate(d)
    ensures CenturyDays(NextDay(d)) ==
            CenturyDays(d) + if CommonCentury(d.year) && d.month == 2 && d.day == 28 then 1 else 0
  {
    Quotients(d.year, 100);
    Quotients(d.year, 400);
    Fours(d.year);
    Multiples(d.year);
  }

  /** A day more, except over the 29 February that the source gives to every century year. */
  lemma NextMonthDays(d: Date)
    requires IsDate(d)
    ensures ExactYears(NextDay(d).year - 1970) + DAY * MonthDays(NextDay(d)) ==
            ExactYears(d.year - 1970) + DAY * MonthDays(d)
            + if CommonCentury(d.year) && d.month == 2 && d.day == 28 then 2 * DAY else DAY
  {
    hide ExactYears, MonthDays, DayNumber, CenturyDays, NextDay, CommonCentury, DaysIn;
    ExactDays(d);
    ExactDays(NextDay(d));
    NextDayNumber(d);
    CenturyStep(d);
  }

  /** From a date to the next, at the same time of day, `kernel_mktime` grows by one day's
      seconds if and only if the step is not over the 29 February that a century year lacks
      and not over a new year at which the 32-bit part wraps around. */
  lemma SecondsPerDay(d: Date, t: Time)
    requires IsDate(d)
    ensures Seconds(NextDay(d), t) - Seconds(d, t) == DAY <==>
            && !(CommonCentury(d.year) && d.month == 2 && d.day == 28)
            && Era(ExactYears(NextDay(d).year - 1970)) == Era(ExactYears(d.year - 1970))
  {
    hide Seconds, YearSeconds, MonthDays, TimeSeconds, ExactYears, Era;
    SecondsInParts(d, t);
    SecondsInParts(NextDay(d), t);
    NextMonthDays(d);
    YearSecondsWrap(d.year - 1970);
    YearSecondsWrap(NextDay(d).year - 1970);
    if NextDay(d).year == d.year + 1 {
      assert !(d.month == 2);
    }
  }

  /** From 1902 to 2038 it always does. */
  lemma SecondsPerDayInRange(d: Date, t: Time)
    requires IsDate(d) && 1902 <= d.year && NextDay(d).year <= 2038
    ensures Seconds(NextDay(d), t) - Seconds(d, t) == DAY
  {
    assert NextDay(d).year >= d.year;
    NoCentury(d.year);
    hide Seconds, ExactYears, Era, NextDay, CommonCentury, DaysIn;
    SecondsPerDay(d, t);
    NoOverflow(d.year);
    NoOverflow(NextDay(d).year);
    IntWraps(ExactYears(d.year - 1970));
    IntWraps(ExactYears(NextDay(d).year - 1970));
  }

  lemma NoCentury(year: int)
    requires 1902 <= year <= 2038
    ensures !CommonCentury(year)
  {
  }

  /** At the first midnight of 2039 it falls instead. */
  lemma WrapsIn2039(t: Time)
    ensures Seconds(Date(2039, 1, 1), t) - Seconds(Date(2038, 12, 31), t) == DAY - TWO32
  {
  }

  /** What the wrap takes away can never be made up by those leap days. */
  lemma WrapOutweighsCenturies(d: Date)
    requires IsDate(d)
    ensures TWO32 * Era(ExactYears(d.year - 1970)) == DAY * CenturyDays(d) <==> 1902 <= d.year <= 2038
  {
    var e := ExactYears(d.year - 1970);
    NoOverflow(d.year);
    IntWraps(e);
    CenturyBounds(d);
    YearBounds(d.year);
    assert Int(e) == e - TWO32 * Era(e);
    hide Int, Era, ExactYears, CenturyDays;
  }

  lemma CenturyBounds(d: Date)
    requires IsDate(d)
    ensures -15 <= CenturyDays(d) <= d.year - 1
    ensures d.year <= 1901 ==> CenturyDays(d) <= 0
    ensures 100 * CenturyDays(d) <= d.year
    ensures 1902 <= d.year <= 2038 ==> CenturyDays(d) == 0
  {
  }

  lemma YearBounds(year: int)
    ensures year >= 2039 ==> ExactYears(year - 1970) >= YEAR * (year - 1970)
    ensures 1 <= year <= 1901 ==> ExactYears(year - 1970) <= YEAR * (year - 1970)
  {
  }

  /** The result is the time since 1970, two days ahead, exactly from 1902 to 2038. */
  lemma SecondsSince1970(d: Date, t: Time)
    requires IsDate(d)
    ensures Seconds(d, t) == DAY * (DayNumber(d) - DayNumber(Date(1970, 1, 1)) + 2) + TimeSeconds(t)
            <==> 1902 <= d.year <= 2038
  {
    hide Seconds, YearSeconds, MonthDays, TimeSeconds, ExactYears, Era, DayNumber, CenturyDays;
    SecondsInParts(d, t);
    YearSecondsWrap(d.year - 1970);
    ExactDays(d);
    WrapOutweighsCenturies(d);
  }
}
