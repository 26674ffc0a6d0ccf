/** Go's civil calendar, as far as time.Date, Time.Date, Weekday and AddDate go:
    day numbers count from 0001-01-01, a Monday. */
module Calendar {
  import opened Common

  datatype Civil = Civil(year: int, month: int, day: int)

  const UNIX_EPOCH_DAY := 719162  // 1970-01-01

  predicate IsLeap(year: int) {
    year % 4 == 0 && (year % 100 != 0 || year % 400 == 0)
  }

  function DaysBeforeYear(year: int): int {
    365 * (year - 1) + (year - 1) / 4 - (year - 1) / 100 + (year - 1) / 400
  }

  const DAYS_BEFORE: seq<int> := [0, 31, 59, 90, 120, 151, 181, 212, 243, 273, 304, 334, 365]

  // time.Date: the day may lie outside its month, and then carries over.
  function DayNumber(c: Civil): int
    requires 1 <= c.month <= 12
  {
    DaysBeforeYear(c.year) + DAYS_BEFORE[c.month - 1] + (if IsLeap(c.year) && c.month > 2 then 1 else 0) + c.day - 1
  }

  // Time.Date: whole cycles of 400, 100, 4 and 1 years, then the day of the year.
  // The last day of a cycle belongs to its last year, hence the "minus quarter".
  function YearAndDay(n: int): (int, int) {
    var cycle, r := n / 146097, n % 146097;
    var century := r / 36524 - r / 36524 / 4;
    var r1 := r - 36524 * century;
    var quad, r2 := r1 / 1461, r1 % 1461;
    var year := r2 / 365 - r2 / 365 / 4;
    (400 * cycle + 100 * century + 4 * quad + year + 1, r2 - 365 * year)
  }

  function MonthAndDay(yday: int, leap: bool): (int, int) {
    if leap && yday == 59 then (2, 29) else
    var d := if leap && yday > 59 then yday - 1 else yday;
    var m := if 0 <= d < 365 then d / 31 else 0;
    if d >= DAYS_BEFORE[m + 1] then (m + 2, d - DAYS_BEFORE[m + 1] + 1) else (m + 1, d - DAYS_BEFORE[m] + 1)
  }

  function CivilOf(n: int): Civil {
    var (year, yday) := YearAndDay(n);
    var (month, day) := MonthAndDay(yday, IsLeap(year));
    Civil(year, month, day)
  }

  // Sunday is 0, as in time.Weekday.
  function Weekday(n: int): int {
    (n + 1) % 7
  }

  // Leap years, by the place of a year in its cycles (all counted from 0).
  lemma LeapIn(cycle: int, century: int, quad: int, y: int)
    requires 0 <= century <= 3 && 0 <= quad <= 24 && 0 <= y <= 3
    ensures IsLeap(400 * cycle + 100 * century + 4 * quad + y + 1)
       <==> y == 3 && (quad != 24 || century == 3)
  {
    var year := 400 * cycle + 100 * century + 4 * quad + y + 1;
    if y < 3 {
      Divides(year, 4, 100 * cycle + 25 * century + quad, y + 1);
    } else {
      Divides(year, 4, 100 * cycle + 25 * century + quad + 1, 0);
      if quad < 24 {
        Divides(year, 100, 4 * cycle + century, 4 * quad + 4);
      } else {
        Divides(year, 100, 4 * cycle + century + 1, 0);
        if century < 3 {
          Divides(year, 400, cycle, 100 * century + 100);
        } else {
          Divides(year, 400, cycle + 1, 0);
        }
      }
    }
  }

  // The place of a day in its cycles.
  lemma Cycles(r: int, century: int, r1: int, quad: int, r2: int, y: int, yday: int)
    requires 0 <= r < 146097
    requires century == r / 36524 - r / 36524 / 4 && r1 == r - 36524 * century
    requires quad == r1 / 1461 && r2 == r1 % 1461
    requires y == r2 / 365 - r2 / 365 / 4 && yday == r2 - 365 * y
    ensures 0 <= century <= 3 && 0 <= quad <= 24 && 0 <= y <= 3
    ensures 0 <= yday < (if y == 3 && (quad != 24 || century == 3) then 366 else 365)
  {
    assert 0 <= r / 36524 <= 4;
    assert 0 <= r1 <= 36524 && (century < 3 ==> r1 < 36524);
    assert 0 <= r2 / 365 <= 4;
  }

  lemma CycleDays(cycle: int, century: int, quad: int, y: int)
    requires 0 <= century <= 3 && 0 <= quad <= 24 && 0 <= y <= 3
    ensures DaysBeforeYear(400 * cycle + 100 * century + 4 * quad + y + 1)
         == 146097 * cycle + 36524 * century + 1461 * quad + 365 * y
  {
    var z := 400 * cycle + 100 * century + 4 * quad + y;
    Divides(z, 4, 100 * cycle + 25 * century + quad, y);
    Divides(z, 100, 4 * cycle + century, 4 * quad + y);
    Divides(z, 400, cycle, 100 * century + 4 * quad + y);
  }

  // The day of the year lies within the year, and leads back to the day number.
  lemma YearRoundTrip(n: int)
    ensures var (year, yday) := YearAndDay(n);
      && DaysBeforeYear(year) + yday == n
      && 0 <= yday < (if IsLeap(year) then 366 else 365)
  {
    var cycle, r := n / 146097, n % 146097;
    var century := r / 36524 - r / 36524 / 4;
    var r1 := r - 36524 * century;
    var quad, r2 := r1 / 1461, r1 % 1461;
    var y := r2 / 365 - r2 / 365 / 4;
    Cycles(r, century, r1, quad, r2, y, r2 - 365 * y);
    LeapIn(cycle, century, quad, y);
    CycleDays(cycle, century, quad, y);
  }

  lemma MonthRoundTrip(yday: int, leap: bool)
    requires 0 <= yday < (if leap then 366 else 365)
    ensures var (month, day) := MonthAndDay(yday, leap);
      && 1 <= month <= 12 && 1 <= day <= 31
      && DAYS_BEFORE[month - 1] + (if leap && month > 2 then 1 else 0) + day - 1 == yday
  {
  }

  // Every day number survives the trip through its civil date.
  lemma CivilRoundTrip(n: int)
    ensures 1 <= CivilOf(n).month <= 12 && 1 <= CivilOf(n).day <= 31
    ensures DayNumber(CivilOf(n)) == n
  {
    YearRoundTrip(n);
    var (year, yday) := YearAndDay(n);
    MonthRoundTrip(yday, IsLeap(year));
  }

  // An instant read as a day number and a time of day, at an offset from UTC.
  function LocalDay(t: int, offset: int): int {
    (t + offset) / DAY + UNIX_EPOCH_DAY
  }

  // time.Date(y, m, d, 0, 0, 0, 0, zone) as an instant
  function Midnight(c: Civil, offset: int): int
    requires 1 <= c.month <= 12
  {
    (DayNumber(c) - UNIX_EPOCH_DAY) * DAY - offset
  }

  // Time.AddDate(0, 0, days) in UTC
  function AddDays(t: int, days: int): int {
    CivilRoundTrip(LocalDay(t, 0));
    var c := CivilOf(LocalDay(t, 0));
    Midnight(c.(day := c.day + days), 0) + t % DAY
  }

  lemma DayShift(c: Civil, days: int)
    requires 1 <= c.month <= 12
    ensures DayNumber(c.(day := c.day + days)) == DayNumber(c) + days
  {
  }

  // No division here: q and r are the day and the time of day.
  lemma ShiftedInstant(t: int, q: int, r: int, n: int, days: int)
    requires t == q * DAY + r && n == q + UNIX_EPOCH_DAY
    ensures (n + days - UNIX_EPOCH_DAY) * DAY - 0 + r == t + days * DAY
  {
  }

  lemma AddDaysIsExact(t: int, days: int)
    ensures AddDays(t, days) == t + days * DAY
  {
    var n := LocalDay(t, 0);
    var c := CivilOf(n);
    CivilRoundTrip(n);
    DayShift(c, days);
    ShiftedInstant(t, t / DAY, t % DAY, n, days);
    hide DayNumber, CivilOf;
  }
}
