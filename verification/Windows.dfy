/** The fixed windows that rate limits count in (quota.Window). */
module Windows {
  import opened Common
  import opened Calendar

  const MSK := 3 * HOUR

  // The four kinds of window. Neither validation nor the table's check constraint
  // lets a rule of another kind through.
  datatype Per = Minute | Hour | Day | Week

  datatype Span = Span(start: int, end: int)

  // Go's % keeps the sign of the dividend.
  function GoRem(a: int, d: int): int
    requires d > 0
  {
    if a >= 0 then a % d else -(-a % d)
  }

  // Time.Truncate rounds down.
  function Truncate(t: int, d: int): int
    requires d > 0
  {
    t - t % d
  }

  // Short windows are cut from UTC time, long ones from Moscow's civil calendar.
  function Window(per: Per, now: int): Span {
    match per
    case Minute => Span(Truncate(now, MINUTE), Truncate(now, MINUTE) + MINUTE)
    case Hour => Span(Truncate(now, HOUR), Truncate(now, HOUR) + HOUR)
    case Day => Span(MoscowMidnight(now), AddDays(MoscowMidnight(now), 1))
    case Week =>
      var monday := AddDays(MoscowMidnight(now), DaysToMonday(now));
      Span(monday, AddDays(monday, 7))
  }

  function MoscowMidnight(now: int): int {
    CivilRoundTrip(LocalDay(now, MSK));
    Midnight(CivilOf(LocalDay(now, MSK)), MSK)
  }

  // (-(int(m.Weekday()) + 6)) % 7
  function DaysToMonday(now: int): int {
    GoRem(-(Weekday(LocalDay(now, MSK)) + 6), 7)
  }

  function Length(per: Per): int {
    match per
    case Minute => MINUTE
    case Hour => HOUR
    case Day => DAY
    case Week => 7 * DAY
  }

  // Where the grid of a window kind passes: Moscow midnight, and for weeks that
  // of Monday 1970-01-05.
  function Origin(per: Per): int {
    match per
    case Minute => 0
    case Hour => 0
    case Day => -MSK
    case Week => 4 * DAY - MSK
  }

  function Cell(per: Per, t: int): int {
    (t - Origin(per)) / Length(per)
  }

  // The plain form: the cell of a fixed grid that holds the instant.
  function Grid(per: Per, t: int): Span {
    var start := Origin(per) + Cell(per, t) * Length(per);
    Span(start, start + Length(per))
  }

  // --- the calendar arithmetic comes to the plain form ---

  lemma MidnightIs(now: int)
    ensures MoscowMidnight(now) == (now + MSK) / DAY * DAY - MSK
  {
    CivilRoundTrip(LocalDay(now, MSK));
  }

  // 1970-01-01 was a Thursday, three days after a Monday.
  lemma DaysToMondayIs(now: int)
    ensures DaysToMonday(now) == -(((now + MSK) / DAY + 3) % 7)
  {
    var k := (now + MSK) / DAY;
    assert (k + UNIX_EPOCH_DAY + 1) % 7 == (k + 4) % 7;
  }

  lemma DayWindow(now: int)
    ensures Window(Day, now) == Grid(Day, now)
  {
    hide CivilOf, DayNumber;
    AddDaysIsExact(MoscowMidnight(now), 1);
    MidnightIs(now);
  }

  lemma WeekWindow(now: int)
    ensures Window(Week, now) == Grid(Week, now)
  {
    hide CivilOf, DayNumber;
    var midnight, back := MoscowMidnight(now), DaysToMonday(now);
    AddDaysIsExact(midnight, back);
    AddDaysIsExact(AddDays(midnight, back), 7);
    MidnightIs(now);
    DaysToMondayIs(now);
    WeekCell(now);
  }

  lemma WeekCell(now: int)
    ensures var k := (now + MSK) / DAY; Cell(Week, now) * 7 + 4 == k - (k + 3) % 7
  {
    var k := (now + MSK) / DAY;
    Divides(now - Origin(Week), 7 * DAY, (k - 4) / 7, (k - 4) % 7 * DAY + (now + MSK) % DAY);
  }

  // For every kind and every instant, the window computed through Moscow's civil
  // calendar is the cell of the grid.
  lemma WindowIsGrid(per: Per, now: int)
    ensures Window(per, now) == Grid(per, now)
  {
    hide CivilOf, DayNumber;
    match per {
      case Day => DayWindow(now);
      case Week => WeekWindow(now);
      case _ =>
    }
  }

  // --- tiling ---

  // A window contains the instant it is taken at.
  lemma GridHolds(per: Per, now: int)
    ensures Grid(per, now).start <= now < Grid(per, now).end
  {
  }

  // Every instant of a window is given that same window.
  lemma SameWindow(per: Per, now: int, t: int)
    ensures Grid(per, t) == Grid(per, now) <==> Grid(per, now).start <= t < Grid(per, now).end
  {
    if Grid(per, now).start <= t < Grid(per, now).end {
      Divides(t - Origin(per), Length(per), Cell(per, now), t - Grid(per, now).start);
    }
  }

  // Windows abut: the instant one ends, the next begins.
  lemma WindowsAbut(per: Per, now: int)
    ensures Grid(per, Grid(per, now).end).start == Grid(per, now).end
  {
    Divides(Grid(per, now).end - Origin(per), Length(per), Cell(per, now) + 1, 0);
  }

  // --- nesting, although days follow Moscow and hours UTC ---

  predicate Within(a: Span, b: Span) {
    b.start <= a.start && a.end <= b.end
  }

  lemma WindowsNest(now: int)
    ensures Within(Grid(Minute, now), Grid(Hour, now))
    ensures Within(Grid(Hour, now), Grid(Day, now))
    ensures Within(Grid(Day, now), Grid(Week, now))
  {
    MinuteInHour(now);
    HourInDay(now);
    DayInWeek(now);
  }

  lemma MinuteInHour(now: int)
    ensures Within(Grid(Minute, now), Grid(Hour, now))
  {
    var m := now / MINUTE;
    Divides(now, HOUR, m / 60, m % 60 * MINUTE + now % MINUTE);
  }

  lemma HourInDay(now: int)
    ensures Within(Grid(Hour, now), Grid(Day, now))
  {
    var h := now / HOUR;
    Divides(now + MSK, DAY, (h + 3) / 24, (h + 3) % 24 * HOUR + now % HOUR);
  }

  lemma DayInWeek(now: int)
    ensures Within(Grid(Day, now), Grid(Week, now))
  {
    WeekCell(now);
  }

  // Days begin at midnight in Moscow, weeks on a Monday there.
  lemma WeeksBeginOnMonday(now: int)
    ensures (Grid(Day, now).start + MSK) % DAY == 0
    ensures (Grid(Week, now).start + MSK) % DAY == 0
    ensures Weekday(LocalDay(Grid(Week, now).start, MSK)) == 1
  {
    var k := (now + MSK) / DAY;
    WeekCell(now);
    DayBegins(k);
    DayBegins(k - (k + 3) % 7);
    MondayIs(k);
  }

  lemma DayBegins(k: int)
    ensures (k * DAY - MSK + MSK) % DAY == 0 && LocalDay(k * DAY - MSK, MSK) == k + UNIX_EPOCH_DAY
  {
    Divides(k * DAY, DAY, k, 0);
  }

  lemma MondayIs(k: int)
    ensures Weekday(k - (k + 3) % 7 + UNIX_EPOCH_DAY) == 1
  {
  }

  // --- purging ---

  const COUNTER_AGE := 8 * DAY

  // The sweep drops counters whose window began before now - 8 days: a day and
  // more after the window was over.
  lemma PurgedIsOver(per: Per, t: int, now: int)
    requires Grid(per, t).start < now - COUNTER_AGE
    ensures Grid(per, t).end < now - DAY
  {
  }
}
