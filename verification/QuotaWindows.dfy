/** The UTC windows that quota buckets are keyed by (app/services/quota.py:61-85). */
module QuotaWindows {
  import opened Base

  datatype WindowKind = Hourly | Daily | Weekly | Lifetime

  datatype Window = Window(kind: WindowKind, start: int, end: int)

  // 2000-01-01 and 9999-01-01, UTC.
  const LIFETIME_START := 946_684_800_000_000
  const LIFETIME_END := 253_370_764_800_000_000

  /** The instant with everything below the hour cleared. */
  function HourStart(t: int): int {
    t / HOUR * HOUR
  }

  /** The instant with everything below the day cleared. */
  function DayStart(t: int): int {
    t / DAY * DAY
  }

  /** Days since the last Monday; 1970-01-01 was a Thursday. */
  function Weekday(t: int): int {
    (t / DAY + 3) % 7
  }

  function WeekStart(t: int): int {
    DayStart(t) - Weekday(t) * DAY
  }

  function QuotaWindow(kind: WindowKind, now: int): Window {
    match kind
    case Hourly => Window(kind, HourStart(now), HourStart(now) + HOUR)
    case Daily => Window(kind, DayStart(now), DayStart(now) + DAY)
    case Weekly => Window(kind, WeekStart(now), WeekStart(now) + WEEK)
    case Lifetime => Window(kind, LIFETIME_START, LIFETIME_END)
  }

  predicate Contains(w: Window, t: int) {
    w.start <= t < w.end
  }

  /** Multiples of a positive unit tile the integers. */
  lemma UnitTiles(t: int, u: int, unit: int)
    requires unit == HOUR || unit == DAY || unit == WEEK
    ensures t / unit * unit <= t < t / unit * unit + unit
    ensures t / unit * unit <= u < t / unit * unit + unit <==> u / unit == t / unit
  {
  }

  /** A week starts on a Monday: weeks are multiples of seven days, three days early. */
  lemma WeekStartIs(t: int)
    ensures WeekStart(t) == ((t + 3 * DAY) / WEEK) * WEEK - 3 * DAY
  {
    var n := t / DAY;
    assert (t + 3 * DAY) / DAY == n + 3;
    assert (t + 3 * DAY) / WEEK == (n + 3) / 7;
    assert n - (n + 3) % 7 == 7 * ((n + 3) / 7) - 3;
  }

  /** Every hourly, daily or weekly window holds the instant it was opened for, and two
      instants share a window exactly when one lies in the window of the other: the
      windows of one kind tile the time line without gap or overlap. */
  lemma WindowsTile(kind: WindowKind, t: int, u: int)
    requires kind != Lifetime
    ensures Contains(QuotaWindow(kind, t), t)
    ensures Contains(QuotaWindow(kind, t), u) <==> QuotaWindow(kind, u) == QuotaWindow(kind, t)
  {
    match kind
    case Hourly => UnitTiles(t, u, HOUR);
    case Daily => UnitTiles(t, u, DAY);
    case Weekly =>
      WeekStartIs(t);
      WeekStartIs(u);
      UnitTiles(t + 3 * DAY, u + 3 * DAY, WEEK);
  }

  /** The hour lies in the day, the day in the week. */
  lemma WindowsNest(t: int)
    ensures QuotaWindow(Weekly, t).start <= QuotaWindow(Daily, t).start <= QuotaWindow(Hourly, t).start
    ensures QuotaWindow(Hourly, t).end <= QuotaWindow(Daily, t).end <= QuotaWindow(Weekly, t).end
  {
    assert t / HOUR / 24 == t / DAY;
  }

  /** A week is seven whole days: it holds the days that start in it and no others. */
  lemma WeekHoldsItsDays(t: int, u: int)
    ensures var w := QuotaWindow(Weekly, t).start;
            && QuotaWindow(Daily, w).start == w
            && (w <= QuotaWindow(Daily, u).start < w + 7 * DAY <==> QuotaWindow(Weekly, u) == QuotaWindow(Weekly, t))
  {
    var n, m := t / DAY, u / DAY;
    var first := n - (n + 3) % 7;
    assert WeekStart(t) == first * DAY;
    assert first <= m < first + 7 <==> m - (m + 3) % 7 == first;
  }

  lemma DayHours(p: int, q: int)
    ensures q * DAY <= p * HOUR < q * DAY + 24 * HOUR <==> p / 24 == q
  {
  }

  /** A day is twenty-four whole hours. */
  lemma DayHoldsItsHours(t: int, u: int)
    ensures var d := QuotaWindow(Daily, t).start;
            && QuotaWindow(Hourly, d).start == d
            && (d <= QuotaWindow(Hourly, u).start < d + 24 * HOUR <==> QuotaWindow(Daily, u) == QuotaWindow(Daily, t))
  {
    DayHours(u / HOUR, t / DAY);
    assert u / HOUR / 24 == u / DAY;
  }
}
