/** Calendar arithmetic of the IEC 61131-3 library: seconds to date and time, and back to seconds. */
module Calendar {

  const EPOCH_YEAR: int := 1970
  const SECONDS_PER_HOUR: int := 3600
  const SECONDS_PER_DAY: int := 86400

  datatype DateAndTime = DateAndTime(sec: int, min: int, hour: int, day: int, mon: int, year: int)

  // ---- C arithmetic on negative operands ----

  /** Division truncates toward zero; the remainder has the sign of the dividend. */
  function TruncDiv(a: int, b: int): (q: int)
    requires b > 0
    ensures if a >= 0 then 0 <= a - q * b < b else -b < a - q * b <= 0
  {
    Remainder(a, b);
    Remainder(-a, b);
    if a >= 0 then a / b else -(-a / b)
  }

  lemma Remainder(a: int, b: int)
    requires b > 0
    ensures a - a / b * b == a % b && 0 <= a % b < b
    ensures a + -(a / b) * b == a % b && -a - -(a / b) * b == -(a % b)
  {
  }

  function TruncRem(a: int, b: int): int
    requires b > 0
  {
    a - TruncDiv(a, b) * b
  }

  /** What a 32-bit int holds of x (two's complement). */
  function Wrap32(x: int): (r: int)
    ensures -0x8000_0000 <= r < 0x8000_0000
    ensures r == x <==> -0x8000_0000 <= x < 0x8000_0000
  {
    (x + 0x8000_0000) % 0x1_0000_0000 - 0x8000_0000
  }

  // ---- The calendar ----

  predicate IsLeap(year: int) { year % 4 == 0 && (year % 100 != 0 || year % 400 == 0) }

  function YearLength(year: int): int { if IsLeap(year) then 366 else 365 }

  /** Days before month m + 1 of a common year, or of a leap year: the table __mon_yday. */
  const NORMAL_YEAR: seq<int> := [0, 31, 59, 90, 120, 151, 181, 212, 243, 273, 304, 334, 365]
  const LEAP_YEAR: seq<int> := [0, 31, 60, 91, 121, 152, 182, 213, 244, 274, 305, 335, 366]

  function MonYday(leap: bool, m: int): int
    requires 0 <= m <= 12
  {
    if leap then LEAP_YEAR[m] else NORMAL_YEAR[m]
  }

  /** Thirty days hath September, April, June and November. */
  function MonthLength(leap: bool, month: int): int
    requires 1 <= month <= 12
  {
    if month == 2 then (if leap then 29 else 28)
    else if month == 4 || month == 6 || month == 9 || month == 11 then 30 else 31
  }

  function DaysBefore(leap: bool, month: int): (days: int)
    requires 1 <= month <= 13
    ensures days >= 0
  {
    if month == 1 then 0 else DaysBefore(leap, month - 1) + MonthLength(leap, month - 1)
  }

  /** The table adds up the lengths of the months. */
  lemma {:induction false} TableIsRight(leap: bool, m: int)
    requires 0 <= m <= 12
    ensures MonYday(leap, m) == DaysBefore(leap, m + 1)
    ensures m > 0 ==> MonYday(leap, m) - MonYday(leap, m - 1) == MonthLength(leap, m)
  {
    if m > 0 {
      TableIsRight(leap, m - 1);
    }
  }

  lemma MonthsIncrease(leap: bool, a: int, b: int)
    requires 0 <= a < b <= 12
    ensures MonYday(leap, a) < MonYday(leap, b)
  {
  }

  /** Leap days before a year, as the code counts them: shifts round down, `/` truncates. */
  function LeapDaysBefore(year: int): int {
    var a4 := year / 4 - (if year % 4 == 0 then 1 else 0);
    var a100 := TruncDiv(a4, 25) - (if TruncRem(a4, 25) < 0 then 1 else 0);
    a4 - a100 + a100 / 4
  }

  /** Days from the epoch to the first of January: the closed form of the code. */
  function YearStart(year: int): int {
    (year - EPOCH_YEAR) * 365 + LeapDaysBefore(year) - LeapDaysBefore(EPOCH_YEAR)
  }

  lemma LeapDaysClosed(year: int)
    ensures LeapDaysBefore(year) == (year - 1) / 4 - (year - 1) / 100 + (year - 1) / 400
  {
    var a4 := year / 4 - (if year % 4 == 0 then 1 else 0);
    assert a4 == (year - 1) / 4;
    FloorDiv25(a4);
    assert a4 / 25 == (year - 1) / 100;
    assert (year - 1) / 100 / 4 == (year - 1) / 400;
  }

  lemma FloorDiv25(a: int)
    ensures TruncDiv(a, 25) - (if TruncRem(a, 25) < 0 then 1 else 0) == a / 25
  {
  }

  lemma StepBy4(y: int)
    ensures y / 4 - (y - 1) / 4 == if y % 4 == 0 then 1 else 0
  {
    assert y - 1 == 4 * ((y - 1) / 4) + (y - 1) % 4;
  }

  lemma StepBy100(y: int)
    ensures y / 100 - (y - 1) / 100 == if y % 100 == 0 then 1 else 0
  {
    assert y - 1 == 100 * ((y - 1) / 100) + (y - 1) % 100;
  }

  lemma StepBy400(y: int)
    ensures y / 400 - (y - 1) / 400 == if y % 400 == 0 then 1 else 0
  {
    assert y - 1 == 400 * ((y - 1) / 400) + (y - 1) % 400;
  }

  lemma Divisible(y: int)
    ensures y % 100 == 0 ==> y % 4 == 0
    ensures y % 400 == 0 ==> y % 100 == 0
  {
    assert y == 4 * (25 * (y / 100)) + y % 100;
    assert y == 100 * (4 * (y / 400)) + y % 400;
  }

  /** The number of a day of the Gregorian calendar, extended to all years; the first of January 1970 is 0. */
  function DayNumber(year: int, month: int, day: int): int
    requires 1 <= month <= 12
  {
    var y := year - 1;
    365 * y + y / 4 - y / 100 + y / 400 - 719162 + DaysBefore(IsLeap(year), month) + day - 1
  }

  lemma YearStartIs(year: int)
    ensures YearStart(year) == DayNumber(year, 1, 1)
  {
    hide LeapDaysBefore;
    LeapDaysClosed(year);
    LeapDaysClosed(EPOCH_YEAR);
  }

  /** The closed form advances by the length of each year, so it agrees with counting year by year. */
  lemma YearStep(year: int)
    ensures YearStart(year + 1) == YearStart(year) + YearLength(year)
  {
    hide LeapDaysBefore;
    LeapDaysClosed(year);
    LeapDaysClosed(year + 1);
    StepBy4(year);
    StepBy100(year);
    StepBy400(year);
    Divisible(year);
  }

  // ---- Seconds to date and time ----

  /** Day of the year, from 0. */
  function YearDay(dt: DateAndTime, days: int): int { days - YearStart(dt.year) }

  /** What the conversion yields; the month is the first whose end is not before the day of the year. */
  predicate Describes(dt: DateAndTime, seconds: int) {
    var days := seconds / SECONDS_PER_DAY;
    var yday := days - YearStart(dt.year);
    var leap := IsLeap(dt.year);
    && dt.hour * SECONDS_PER_HOUR + dt.min * 60 + dt.sec == seconds % SECONDS_PER_DAY
    && 0 <= dt.hour < 24 && 0 <= dt.min < 60 && 0 <= dt.sec < 60
    && 0 <= yday < YearLength(dt.year)
    && 1 <= dt.mon <= 12
    && dt.day == yday - MonYday(leap, dt.mon - 1) + 1
    && yday <= MonYday(leap, dt.mon) && (dt.mon > 1 ==> yday > MonYday(leap, dt.mon - 1))
  }

  method SplitDays(seconds: int) returns (days: int, rem: int)
    ensures days == seconds / SECONDS_PER_DAY && rem == seconds % SECONDS_PER_DAY
  {
    days := TruncDiv(seconds, SECONDS_PER_DAY);
    rem := TruncRem(seconds, SECONDS_PER_DAY);
    if rem < 0 {
      rem := rem + SECONDS_PER_DAY;
      days := days - 1;
    }
  }

  method YearAndDay(day: int) returns (year: int, yday: int)
    ensures yday == day - YearStart(year) && 0 <= yday < YearLength(year)
  {
    hide YearStart;
    assert YearStart(EPOCH_YEAR) == 0 by { EpochStart(); }
    year, yday := EPOCH_YEAR, day;
    while yday >= YearLength(year)
      invariant yday == day - YearStart(year)
      invariant day < 0 ==> yday < 0
      invariant day >= 0 ==> yday >= 0
      decreases yday
    {
      YearStep(year);
      yday := yday - YearLength(year);
      year := year + 1;
    }
    while yday < 0
      invariant yday == day - YearStart(year) && yday < YearLength(year)
      decreases -yday
    {
      YearStep(year - 1);
      year := year - 1;
      yday := yday + YearLength(year);
    }
  }

  lemma EpochStart()
    ensures YearStart(EPOCH_YEAR) == 0
  {
  }

  method MonthOf(leap: bool, yday: int) returns (mon: int)
    requires 0 <= yday < 366 && (!leap ==> yday < 365)
    ensures 1 <= mon <= 12 && yday <= MonYday(leap, mon)
    ensures mon > 1 ==> yday > MonYday(leap, mon - 1)
  {
    mon := 1;
    while yday > MonYday(leap, mon)
      invariant 1 <= mon <= 12
      invariant mon > 1 ==> yday > MonYday(leap, mon - 1)
      decreases 12 - mon
    {
      mon := mon + 1;
    }
  }

  /** convert_seconds_to_date_and_time, for every number of seconds, negative ones included. */
  method ConvertSeconds(seconds: int) returns (dt: DateAndTime)
    ensures Describes(dt, seconds)
  {
    hide YearStart;
    var days, rem := SplitDays(seconds);
    var hour := rem / SECONDS_PER_HOUR;
    rem := rem % SECONDS_PER_HOUR;
    var min, sec := rem / 60, rem % 60;
    var year, yday := YearAndDay(days);
    var mon := MonthOf(IsLeap(year), yday);
    dt := DateAndTime(sec, min, hour, yday - MonYday(IsLeap(year), mon - 1) + 1, mon, year);
  }

  // ---- Date to seconds ----

  /** The seconds computed, and whether the runtime error was reported; the table has 13 columns. */
  datatype DateResult = OutsideTable | Seconds(sec: int, error: bool)

  /** __date_to_timespec */
  function DateToSeconds(day: int, month: int, year: int): DateResult {
    if month < 1 || month > 12 then OutsideTable
    else
      var yday := MonYday(IsLeap(year), month - 1) + day;
      Seconds(Wrap32((YearStart(year) + yday - 1) * 24 * 60 * 60), yday > MonYday(IsLeap(year), month))
  }

  function Midnight(seconds: int): int { seconds / SECONDS_PER_DAY * SECONDS_PER_DAY }

  /**
    Converting any number of seconds to a date and the date back gives the midnight of that day
    exactly if that midnight fits 32 bits; with the time of day added, the seconds themselves.
   */
  lemma MidnightRoundTrip(seconds: int, dt: DateAndTime)
    requires Describes(dt, seconds)
    ensures var r := DateToSeconds(dt.day, dt.mon, dt.year);
            && r.Seconds?
            && (r.sec == Midnight(seconds) <==> -0x8000_0000 <= Midnight(seconds) < 0x8000_0000)
            && (r.sec + dt.hour * SECONDS_PER_HOUR + dt.min * 60 + dt.sec == seconds
                <==> -0x8000_0000 <= Midnight(seconds) < 0x8000_0000)
  {
    hide YearStart, MonYday, Wrap32;
    var days := seconds / SECONDS_PER_DAY;
    assert YearStart(dt.year) + (MonYday(IsLeap(dt.year), dt.mon - 1) + dt.day) - 1 == days;
    assert seconds == Midnight(seconds) + seconds % SECONDS_PER_DAY;
  }

  /** This month has such a day, and it is that day of the year. */
  predicate IsDate(leap: bool, yday: int, month: int, day: int) {
    1 <= month <= 12 && 1 <= day <= MonthLength(leap, month) && DaysBefore(leap, month) + day - 1 == yday
  }

  predicate FirstOfLaterMonth(leap: bool, yday: int) {
    exists m :: 2 <= m <= 12 && DaysBefore(leap, m) == yday
  }

  /**
    Month and day are the calendar's, and the way back reports no error, exactly unless the day is the
    first of a month after January; that comes out as the day after the last of the month before.
   */
  lemma MonthRightExactly(seconds: int, dt: DateAndTime)
    requires Describes(dt, seconds)
    ensures var leap, yday := IsLeap(dt.year), YearDay(dt, seconds / SECONDS_PER_DAY);
            && (IsDate(leap, yday, dt.mon, dt.day) <==> !FirstOfLaterMonth(leap, yday))
            && (DateToSeconds(dt.day, dt.mon, dt.year).error <==> FirstOfLaterMonth(leap, yday))
            && (FirstOfLaterMonth(leap, yday) ==>
                  IsDate(leap, yday, dt.mon + 1, 1) && dt.day == MonthLength(leap, dt.mon) + 1)
  {
    hide YearStart, Wrap32, MonYday, DaysBefore, MonthLength;
    var leap, yday := IsLeap(dt.year), YearDay(dt, seconds / SECONDS_PER_DAY);
    FirstDay(leap);
    TableIsRight(leap, dt.mon - 1);
    TableIsRight(leap, dt.mon);
    if FirstOfLaterMonth(leap, yday) {
      var m :| 2 <= m <= 12 && DaysBefore(leap, m) == yday;
      TableIsRight(leap, m - 1);
      if m - 1 < dt.mon {
        BeforeMonth(leap, m - 1, dt.mon - 1);
      } else if m - 1 > dt.mon {
        MonthsIncrease(leap, dt.mon, m - 1);
      }
      TableIsRight(leap, m);
      LengthPositive(leap, m);
    } else if dt.mon < 12 {
      assert yday != DaysBefore(leap, dt.mon + 1);
    } else {
      YearIsFull(leap);
    }
  }

  lemma LengthPositive(leap: bool, month: int)
    requires 1 <= month <= 12
    ensures MonthLength(leap, month) > 0
  {
  }

  lemma YearIsFull(leap: bool)
    ensures MonYday(leap, 12) == if leap then 366 else 365
  {
  }

  /** Counted in days of the calendar the date is always the day that was converted, right or not. */
  lemma DateIsTheDay(seconds: int, dt: DateAndTime)
    requires Describes(dt, seconds)
    ensures DayNumber(dt.year, dt.mon, dt.day) == seconds / 86400
    ensures dt.hour * 3600 + dt.min * 60 + dt.sec == seconds % 86400
    ensures 0 <= dt.hour < 24 && 0 <= dt.min < 60 && 0 <= dt.sec < 60
  {
    hide YearStart, MonYday, DaysBefore, LeapDaysBefore;
    YearStartIs(dt.year);
    FirstDay(IsLeap(dt.year));
    TableIsRight(IsLeap(dt.year), dt.mon - 1);
  }

  lemma FirstDay(leap: bool)
    ensures DaysBefore(leap, 1) == 0
  {
  }

  lemma BeforeMonth(leap: bool, a: int, b: int)
    requires 0 <= a <= b <= 12
    ensures MonYday(leap, a) <= MonYday(leap, b)
  {
    if a < b {
      MonthsIncrease(leap, a, b);
    }
  }
}
