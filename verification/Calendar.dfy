/** UTC calendar arithmetic on integer time values (milliseconds since 1970-01-01), following
    sections 21.4.1 and 21.4.3.4 of ECMA-262, and the year shift that the stitcher is built on. */
module Calendar {

  const MS_PER_DAY := 86400000
  const MS_PER_HOUR := 3600000
  const MS_PER_MINUTE := 60000
  const MS_PER_SECOND := 1000

  // ---------- years ----------

  predicate Leap(y: int) {
    y % 4 == 0 && (y % 100 != 0 || y % 400 == 0)
  }

  function DaysInYear(y: int): int {
    if Leap(y) then 366 else 365
  }

  function DayFromYear(y: int): int {
    365 * (y - 1970) + (y - 1969) / 4 - (y - 1901) / 100 + (y - 1601) / 400
  }

  lemma Quarters(y: int)
    ensures (y - 1968) / 4 == (y - 1969) / 4 + if y % 4 == 0 then 1 else 0
  {
  }

  lemma Centuries(y: int)
    ensures (y - 1900) / 100 == (y - 1901) / 100 + if y % 100 == 0 then 1 else 0
  {
  }

  lemma FourCenturies(y: int)
    ensures (y - 1600) / 400 == (y - 1601) / 400 + if y % 400 == 0 then 1 else 0
  {
  }

  lemma LeapCount(y: int)
    ensures (if y % 4 == 0 then 1 else 0) - (if y % 100 == 0 then 1 else 0) + (if y % 400 == 0 then 1 else 0)
            == if Leap(y) then 1 else 0
  {
  }

  lemma YearLength(y: int)
    ensures DayFromYear(y + 1) == DayFromYear(y) + DaysInYear(y)
  {
    hide Leap;
    Quarters(y);
    Centuries(y);
    FourCenturies(y);
    LeapCount(y);
  }

  lemma {:induction false} YearsGrow(a: int, b: int)
    requires a <= b
    ensures DayFromYear(a) + 365 * (b - a) <= DayFromYear(b)
    decreases b - a
  {
    if a < b {
      YearsGrow(a, b - 1);
      YearLength(b - 1);
    }
  }

  function YearUp(day: int, y: int): (r: int)
    requires DayFromYear(y) <= day
    ensures DayFromYear(r) <= day < DayFromYear(r + 1)
    decreases day - DayFromYear(y)
  {
    YearLength(y);
    if day < DayFromYear(y + 1) then y else YearUp(day, y + 1)
  }

  function YearDown(day: int, y: int): (r: int)
    requires day < DayFromYear(y + 1)
    ensures DayFromYear(r) <= day < DayFromYear(r + 1)
    decreases DayFromYear(y + 1) - day
  {
    YearLength(y);
    if DayFromYear(y) <= day then y else YearDown(day, y - 1)
  }

  /** The year that holds a day. */
  function YearFromDay(day: int): (y: int)
    ensures DayFromYear(y) <= day < DayFromYear(y + 1)
  {
    if DayFromYear(1970) <= day then YearUp(day, 1970) else YearDown(day, 1969)
  }

  lemma YearIsUnique(day: int, y: int)
    requires DayFromYear(y) <= day < DayFromYear(y + 1)
    ensures YearFromDay(day) == y
  {
    hide DayFromYear;
    var z := YearFromDay(day);
    if z < y {
      YearsGrow(z + 1, y);
    } else if y < z {
      YearsGrow(y + 1, z);
    }
  }

  // ---------- months ----------

  /** Days of the year before month `m` (0 = January, 12 = the whole year). */
  function DayFromMonth(m: int, leap: bool): (d: int)
    requires 0 <= m <= 12
  {
    [0, 31, 59, 90, 120, 151, 181, 212, 243, 273, 304, 334, 365][m] + if leap && 2 <= m then 1 else 0
  }

  function DaysInMonth(m: int, leap: bool): (d: int)
    requires 0 <= m < 12
    ensures 28 <= d <= 31
  {
    DayFromMonth(m + 1, leap) - DayFromMonth(m, leap)
  }

  lemma MonthsGrow(a: int, b: int, leap: bool)
    requires 0 <= a <= b <= 12
    ensures DayFromMonth(a, leap) <= DayFromMonth(b, leap)
  {
  }

  function MonthDownFrom(d: int, leap: bool, m: int): (r: int)
    requires 0 <= m < 12 && 0 <= d < DayFromMonth(m + 1, leap)
    ensures 0 <= r <= m && DayFromMonth(r, leap) <= d < DayFromMonth(r + 1, leap)
    decreases m
  {
    if DayFromMonth(m, leap) <= d then m else MonthDownFrom(d, leap, m - 1)
  }

  // ---------- the fields of a time value ----------

  function Day(t: int): int { t / MS_PER_DAY }

  function TimeWithinDay(t: int): int { t % MS_PER_DAY }

  function YearOf(t: int): (y: int)
    ensures DayFromYear(y) <= Day(t) < DayFromYear(y + 1)
  {
    YearFromDay(Day(t))
  }

  function DayWithinYear(t: int): (d: int)
    ensures 0 <= d < DaysInYear(YearOf(t))
  {
    YearLength(YearOf(t));
    Day(t) - DayFromYear(YearOf(t))
  }

  function MonthOf(t: int): (m: int)
    ensures 0 <= m < 12
    ensures DayFromMonth(m, Leap(YearOf(t))) <= DayWithinYear(t) < DayFromMonth(m + 1, Leap(YearOf(t)))
  {
    MonthDownFrom(DayWithinYear(t), Leap(YearOf(t)), 11)
  }

  function DateOf(t: int): (d: int)
    ensures 1 <= d <= DaysInMonth(MonthOf(t), Leap(YearOf(t)))
  {
    DayWithinYear(t) - DayFromMonth(MonthOf(t), Leap(YearOf(t))) + 1
  }

  function HourOf(t: int): int { (t / MS_PER_HOUR) % 24 }
  function MinuteOf(t: int): int { (t / MS_PER_MINUTE) % 60 }
  function SecondOf(t: int): int { (t / MS_PER_SECOND) % 60 }
  function MillisecondOf(t: int): int { t % MS_PER_SECOND }

  function MakeTime(h: int, mi: int, s: int, ms: int): int {
    h * MS_PER_HOUR + mi * MS_PER_MINUTE + s * MS_PER_SECOND + ms
  }

  lemma ClockRoundTrip(t: int)
    ensures MakeTime(HourOf(t), MinuteOf(t), SecondOf(t), MillisecondOf(t)) == TimeWithinDay(t)
  {
    var secs := t / 1000;
    var mins := secs / 60;
    var hours := mins / 60;
    assert t / MS_PER_MINUTE == mins;
    assert t / MS_PER_HOUR == hours;
    assert t / MS_PER_DAY == hours / 24;
  }

  // ---------- Date.UTC ----------

  /** `Date.UTC` reads a year from 0 to 99 as 1900 to 1999. */
  function FullYear(y: int): int {
    if 0 <= y <= 99 then 1900 + y else y
  }

  function MakeDay(y: int, m: int, d: int): int
    requires 0 <= m < 12
  {
    DayFromYear(y) + DayFromMonth(m, Leap(y)) + d - 1
  }

  function DateUTC(y: int, m: int, d: int, h: int, mi: int, s: int, ms: int): int
    requires 0 <= m < 12
  {
    MakeDay(FullYear(y), m, d) * MS_PER_DAY + MakeTime(h, mi, s, ms)
  }

  /** The time value moved by whole calendar years; a zero move does not go through `Date.UTC`. */
  function ShiftByYears(t: int, years: int): int {
    if years == 0 then t
    else DateUTC(YearOf(t) + years, MonthOf(t), DateOf(t), HourOf(t), MinuteOf(t), SecondOf(t), MillisecondOf(t))
  }

  /** The same clock time on the same month and date of year `y`, with no remapping of the year. */
  function InYear(t: int, y: int): int {
    MakeDay(y, MonthOf(t), DateOf(t)) * MS_PER_DAY + TimeWithinDay(t)
  }

  lemma ShiftMeaning(t: int, years: int)
    ensures ShiftByYears(t, years) == InYear(t, if years == 0 then YearOf(t) else FullYear(YearOf(t) + years))
  {
    ClockRoundTrip(t);
  }

  /** Rebuilding a time value from its own fields gives it back exactly when its year is not remapped. */
  lemma UtcRoundTrip(t: int)
    ensures DateUTC(YearOf(t), MonthOf(t), DateOf(t), HourOf(t), MinuteOf(t), SecondOf(t), MillisecondOf(t)) == t
            <==> !(0 <= YearOf(t) <= 99)
  {
    ClockRoundTrip(t);
    var y := YearOf(t);
    assert InYear(t, y) == t;
    if 0 <= y <= 99 {
      InYearGrows(t, y, 1900 + y);
    }
  }

  lemma InYearGrows(t: int, a: int, b: int)
    requires a < b
    ensures InYear(t, a) < InYear(t, b)
  {
  }

  /** One more year back strictly lowers the time value, except where the step enters the remapped
      years from outside: from year 100 into 99, or from an unshifted time value inside 1..99. */
  lemma OneYearBack(t: int, years: int)
    ensures ShiftByYears(t, years - 1) < ShiftByYears(t, years)
            <==> !((YearOf(t) + years == 100 && years != 1) || (years == 0 && 1 <= YearOf(t) <= 99))
  {
    ShiftMeaning(t, years);
    ShiftMeaning(t, years - 1);
    var to := if years == 0 then YearOf(t) else FullYear(YearOf(t) + years);
    var from := if years == 1 then YearOf(t) else FullYear(YearOf(t) + years - 1);
    if from < to {
      InYearGrows(t, from, to);
    } else if to < from {
      InYearGrows(t, to, from);
    }
  }

  /** The day of the year on which the month and date of `t` fall in year `y`. */
  function DayInYear(t: int, y: int): int {
    DayFromMonth(MonthOf(t), Leap(y)) + DateOf(t) - 1
  }

  predicate LostLeapDay(t: int, y: int) {
    MonthOf(t) == 1 && DateOf(t) == 29 && !Leap(y)
  }

  lemma LostDayFallsInMarch()
    ensures DayFromMonth(2, false) == DayFromMonth(1, false) + 29 - 1 < DayFromMonth(3, false)
  {
  }

  lemma DateFits(m: int, d: int, leap: bool, target: bool)
    requires 0 <= m < 12 && 1 <= d <= DaysInMonth(m, leap) && (m == 1 && d == 29 ==> target)
    ensures DayFromMonth(m, target) <= DayFromMonth(m, target) + d - 1 < DayFromMonth(m + 1, target)
  {
  }

  lemma DayInMonthRange(t: int, y: int)
    ensures var m := if LostLeapDay(t, y) then 2 else MonthOf(t);
            DayFromMonth(m, Leap(y)) <= DayInYear(t, y) < DayFromMonth(m + 1, Leap(y))
  {
    hide Leap, DayFromMonth, DaysInMonth, MonthOf, DateOf;
    if LostLeapDay(t, y) {
      LostDayFallsInMarch();
    } else {
      DateFits(MonthOf(t), DateOf(t), Leap(YearOf(t)), Leap(y));
    }
  }

  lemma DayInYearRange(t: int, y: int)
    ensures 0 <= DayInYear(t, y) < DaysInYear(y)
    ensures var m := if LostLeapDay(t, y) then 2 else MonthOf(t);
            DayFromMonth(m, Leap(y)) <= DayInYear(t, y) < DayFromMonth(m + 1, Leap(y))
  {
    hide Leap, DayFromMonth, MonthOf, DayInYear;
    var m := if LostLeapDay(t, y) then 2 else MonthOf(t);
    DayInMonthRange(t, y);
    MonthsGrow(0, m, Leap(y));
    MonthsGrow(m + 1, 12, Leap(y));
    EndsOfYear(y);
  }

  lemma EndsOfYear(y: int)
    ensures DayFromMonth(0, Leap(y)) == 0 && DayFromMonth(12, Leap(y)) == DaysInYear(y)
  {
  }

  lemma InYearFields(t: int, y: int)
    ensures YearOf(InYear(t, y)) == y
    ensures DayWithinYear(InYear(t, y)) == DayInYear(t, y)
    ensures TimeWithinDay(InYear(t, y)) == TimeWithinDay(t)
  {
    hide DayFromYear, DayFromMonth, DaysInYear, Leap, YearFromDay;
    DayInYearRange(t, y);
    YearLength(y);
    var day := DayFromYear(y) + DayInYear(t, y);
    SplitDay(day, TimeWithinDay(t));
    YearIsUnique(day, y);
  }

  lemma SplitDay(day: int, clock: int)
    requires 0 <= clock < MS_PER_DAY
    ensures Day(day * MS_PER_DAY + clock) == day && TimeWithinDay(day * MS_PER_DAY + clock) == clock
  {
  }

  /** Moving to another year keeps month, date and clock; 29 February in a common year becomes 1 March. */
  lemma ShiftKeepsMonthAndDate(t: int, y: int)
    ensures YearOf(InYear(t, y)) == y && TimeWithinDay(InYear(t, y)) == TimeWithinDay(t)
    ensures LostLeapDay(t, y) ==> MonthOf(InYear(t, y)) == 2 && DateOf(InYear(t, y)) == 1
    ensures !LostLeapDay(t, y) ==> MonthOf(InYear(t, y)) == MonthOf(t) && DateOf(InYear(t, y)) == DateOf(t)
  {
    InYearFields(t, y);
    DayInYearRange(t, y);
    MonthAndDateOf(InYear(t, y), if LostLeapDay(t, y) then 2 else MonthOf(t), Leap(y));
  }

  lemma MonthAndDateOf(r: int, m: int, leap: bool)
    requires 0 <= m < 12 && leap == Leap(YearOf(r))
    requires DayFromMonth(m, leap) <= DayWithinYear(r) < DayFromMonth(m + 1, leap)
    ensures MonthOf(r) == m && DateOf(r) == DayWithinYear(r) - DayFromMonth(m, leap) + 1
  {
    MonthIsUnique(DayWithinYear(r), leap, m, MonthOf(r));
  }

  lemma MonthIsUnique(d: int, leap: bool, a: int, b: int)
    requires 0 <= a < 12 && DayFromMonth(a, leap) <= d < DayFromMonth(a + 1, leap)
    requires 0 <= b < 12 && DayFromMonth(b, leap) <= d < DayFromMonth(b + 1, leap)
    ensures a == b
  {
  }

  /** One year further back can be later: from the first day of 101, two years back is in 1999 and one year back in 100. */
  lemma BackIntoTheRemap()
    ensures var t := DayFromYear(101) * MS_PER_DAY; ShiftByYears(t, -2) > ShiftByYears(t, -1)
  {
    var t := DayFromYear(101) * MS_PER_DAY;
    assert t / MS_PER_DAY == DayFromYear(101);
    YearLength(101);
    YearIsUnique(DayFromYear(101), 101);
    hide DayFromYear;
    ShiftMeaning(t, -1);
    ShiftMeaning(t, -2);
    InYearGrows(t, 100, 1999);
  }
}
