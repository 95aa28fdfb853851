/** Market-session clock of the wheel bot: the regular, pre-market and
    after-hours windows of the US exchange, the weekend and holiday guard,
    the phase classifier and the bounded search for the next 09:30 open.

    A date is a proleptic Gregorian day ordinal (day 1 is Monday 0001-01-01,
    as Python's `date.toordinal`), a time of day is a count of microseconds
    since local midnight, and every instant is already in Eastern local time. */
module MarketHours {

  const MicrosPerSecond: int := 1_000_000
  const MicrosPerDay: int := 86_400_000_000

  type TimeOfDay = t: int | 0 <= t < 86_400_000_000

  /** An Eastern-local timestamp: a day ordinal and the microseconds since midnight. */
  datatype Instant = Instant(day: int, time: TimeOfDay)

  /** Microseconds since midnight of the wall-clock time h:m:00.000000. */
  function Clock(h: int, m: int): (t: TimeOfDay)
    requires 0 <= h < 24 && 0 <= m < 60
    ensures t % (60 * MicrosPerSecond) == 0
  {
    (h * 60 + m) * 60 * MicrosPerSecond
  }

  const PremarketOpen: TimeOfDay := Clock(4, 0)
  const MarketOpen: TimeOfDay := Clock(9, 30)
  const MarketClose: TimeOfDay := Clock(16, 0)
  const AfterhoursClose: TimeOfDay := Clock(20, 0)

  /** `datetime.replace(hour=h, minute=m, second=0, microsecond=0)`: same day, new time. */
  function At(t: Instant, h: int, m: int): (r: Instant)
    requires 0 <= h < 24 && 0 <= m < 60
    ensures r.day == t.day && r.time == Clock(h, m)
  {
    Instant(t.day, Clock(h, m))
  }

  /** Chronological order of instants. */
  predicate Before(a: Instant, b: Instant) {
    a.day < b.day || (a.day == b.day && a.time < b.time)
  }

  predicate NotAfter(a: Instant, b: Instant) {
    a.day < b.day || (a.day == b.day && a.time <= b.time)
  }

  /** Python's `weekday()`: Monday 0 ... Sunday 6. */
  function Weekday(day: int): (w: int)
    ensures 0 <= w < 7
  {
    (day + 6) % 7
  }

  function DaysBeforeYear(y: int): int
    requires y >= 1
  {
    var p := y - 1;
    p * 365 + p / 4 - p / 100 + p / 400
  }

  predicate IsLeap(y: int) {
    y % 4 == 0 && (y % 100 != 0 || y % 400 == 0)
  }

  function DaysBeforeMonth(y: int, m: int): int
    requires 1 <= m <= 12
  {
    var cumulative := [0, 31, 59, 90, 120, 151, 181, 212, 243, 273, 304, 334];
    cumulative[m - 1] + (if m > 2 && IsLeap(y) then 1 else 0)
  }

  /** The day ordinal of the calendar date y-m-d (Python's `date(y, m, d).toordinal()`). */
  function DateOrdinal(y: int, m: int, d: int): int
    requires y >= 1 && 1 <= m <= 12 && 1 <= d <= 31
  {
    DaysBeforeYear(y) + DaysBeforeMonth(y, m) + d
  }

  /** The exchange holidays of 2024 and 2025 (`ALL_HOLIDAYS`), as day ordinals. */
  const Holidays: set<int> := {
    738886, 738900, 738935, 738974, 739033, 739056, 739071, 739131, 739218, 739245,
    739252, 739271, 739299, 739359, 739397, 739421, 739436, 739495, 739582, 739610
  }

  /** The ordinals above are exactly the listed calendar dates. */
  lemma HolidayCalendar()
    ensures Holidays == {
      DateOrdinal(2024, 1, 1), DateOrdinal(2024, 1, 15), DateOrdinal(2024, 2, 19),
      DateOrdinal(2024, 3, 29), DateOrdinal(2024, 5, 27), DateOrdinal(2024, 6, 19),
      DateOrdinal(2024, 7, 4), DateOrdinal(2024, 9, 2), DateOrdinal(2024, 11, 28),
      DateOrdinal(2024, 12, 25),
      DateOrdinal(2025, 1, 1), DateOrdinal(2025, 1, 20), DateOrdinal(2025, 2, 17),
      DateOrdinal(2025, 4, 18), DateOrdinal(2025, 5, 26), DateOrdinal(2025, 6, 19),
      DateOrdinal(2025, 7, 4), DateOrdinal(2025, 9, 1), DateOrdinal(2025, 11, 27),
      DateOrdinal(2025, 12, 25)
    }
  {
  }

  /** Two distinct listed holidays are at least a week apart. */
  lemma HolidaysSpaced(h1: int, h2: int)
    requires h1 in Holidays && h2 in Holidays && h1 < h2
    ensures h2 - h1 >= 7
  {
  }

  /** `weekday() < 5 and date() not in ALL_HOLIDAYS`. */
  predicate IsTradingDay(day: int) {
    Weekday(day) < 5 && day !in Holidays
  }

  /** Regular session: 09:30 <= t < 16:00 on a trading day. */
  predicate IsMarketOpen(t: Instant) {
    if Weekday(t.day) >= 5 then false
    else if t.day in Holidays then false
    else NotAfter(At(t, 9, 30), t) && Before(t, At(t, 16, 0))
  }

  /** Pre-market: 04:00 <= t < 09:30 on a trading day. */
  predicate IsPremarketOpen(t: Instant) {
    if Weekday(t.day) >= 5 then false
    else if t.day in Holidays then false
    else NotAfter(At(t, 4, 0), t) && Before(t, At(t, 9, 30))
  }

  /** After-hours: 16:00 <= t < 20:00 on a trading day. */
  predicate IsAfterhoursOpen(t: Instant) {
    if Weekday(t.day) >= 5 then false
    else if t.day in Holidays then false
    else NotAfter(At(t, 16, 0), t) && Before(t, At(t, 20, 0))
  }

  /** Options trade only in the regular session. */
  predicate CanTradeOptions(t: Instant) {
    IsMarketOpen(t)
  }

  /** Is the day j days after `day` a trading day? */
  predicate TradingDayAhead(day: int, j: int) {
    IsTradingDay(day + j)
  }

  /** First offset j in [k, 10] such that day + j is a trading day, if any:
      the days the `while True` loop of `get_next_market_open` looks at from `days_ahead = k` on. */
  function SearchTradingDay(day: int, k: int): (r: SearchResult)
    requires 1 <= k <= 11
    ensures r.Found? ==> k <= r.offset <= 10 && TradingDayAhead(day, r.offset)
    ensures r.Found? ==> forall j :: k <= j < r.offset ==> !TradingDayAhead(day, j)
    ensures r.NotFound? ==> forall j :: k <= j <= 10 ==> !TradingDayAhead(day, j)
    decreases 11 - k
  {
    if k > 10 then NotFound
    else if TradingDayAhead(day, k) then Found(k)
    else SearchTradingDay(day, k + 1)
  }

  datatype SearchResult = NotFound | Found(offset: int)

  /** Does today's 09:30 still lie ahead of t on a trading day? */
  predicate OpensLaterToday(t: Instant) {
    Before(t, At(t, 9, 30)) && Weekday(t.day) < 5 && t.day !in Holidays
  }

  /** `get_next_market_open`: today's 09:30 if that is still ahead on a trading
      day, else 09:30 of the first trading day 1..10 days ahead, else (never, see
      `FallbackUnreachable`) today's 09:30. */
  function NextMarketOpen(t: Instant): Instant {
    if OpensLaterToday(t) then At(t, 9, 30)
    else match SearchTradingDay(t.day, 1)
      case Found(k) => Instant(t.day + k, MarketOpen)
      case NotFound => At(t, 9, 30)
  }

  /** The loop of `get_next_market_open`, with its safety bound of 10 days. */
  method GetNextMarketOpen(t: Instant) returns (r: Instant)
    ensures r == NextMarketOpen(t)
  {
    var nextOpen := At(t, 9, 30);
    if Before(t, nextOpen) && Weekday(t.day) < 5 && t.day !in Holidays {
      return nextOpen;
    }
    var daysAhead := 1;
    while true
      invariant 1 <= daysAhead <= 10
      invariant SearchTradingDay(t.day, daysAhead) == SearchTradingDay(t.day, 1)
      decreases 10 - daysAhead
    {
      var candidate := t.day + daysAhead;
      if Weekday(candidate) < 5 && candidate !in Holidays {
        return Instant(candidate, MarketOpen);
      }
      daysAhead := daysAhead + 1;
      if daysAhead > 10 {
        break;
      }
    }
    return nextOpen;
  }

  /** Of two weekdays at most three days apart, one is not a listed holiday. */
  lemma OneOfTwoWeekdaysTrades(a: int, b: int)
    requires a < b <= a + 3 && Weekday(a) < 5 && Weekday(b) < 5
    ensures IsTradingDay(a) || IsTradingDay(b)
  {
    if a in Holidays && b in Holidays {
      HolidaysSpaced(a, b);
      assert false;
    }
  }

  /** The search always finds a trading day within four days: no run of
      non-trading days in the calendar reaches the bound of 10, so the fallback
      `return next_open` of `get_next_market_open` is never taken. */
  lemma FallbackUnreachable(day: int)
    ensures SearchTradingDay(day, 1).Found?
    ensures SearchTradingDay(day, 1).offset <= 4
  {
    var w := Weekday(day);
    // The first two weekdays after `day`, as offsets.
    var a, b := if w <= 2 then 1 else if w == 3 then 1 else if w == 4 then 3 else if w == 5 then 2 else 1,
                if w <= 2 then 2 else if w == 3 then 4 else if w == 4 then 4 else if w == 5 then 3 else 2;
    assert Weekday(day + a) < 5 && Weekday(day + b) < 5;
    OneOfTwoWeekdaysTrades(day + a, day + b);
  }

  /** The next open lies strictly after t (so an input at exactly 09:30 of a
      trading day yields the next trading day), is 09:30, and is a trading day. */
  lemma NextOpenIsLaterOpen(t: Instant)
    ensures Before(t, NextMarketOpen(t))
    ensures NextMarketOpen(t).time == MarketOpen
    ensures IsTradingDay(NextMarketOpen(t).day)
    ensures IsMarketOpen(NextMarketOpen(t))
  {
    FallbackUnreachable(t.day);
  }

  /** Today's 09:30 is returned iff t is strictly before 09:30 on a trading day. */
  lemma NextOpenTodayIff(t: Instant)
    ensures NextMarketOpen(t).day == t.day <==> t.time < MarketOpen && IsTradingDay(t.day)
  {
    FallbackUnreachable(t.day);
  }

  /** No trading-day 09:30 open lies strictly between t and the result: it is the earliest. */
  lemma NextOpenIsEarliest(t: Instant, d: int)
    requires IsTradingDay(d) && Before(t, Instant(d, MarketOpen))
    ensures NextMarketOpen(t).day <= d
  {
    FallbackUnreachable(t.day);
    if !OpensLaterToday(t) && d > t.day {
      var k := d - t.day;
      if k <= 10 {
        assert TradingDayAhead(t.day, k);
      }
    }
  }

  /** `get_time_until_market_open` in microseconds: always positive. */
  function TimeUntilMarketOpen(t: Instant): (dt: int)
    ensures dt > 0
  {
    NextOpenIsLaterOpen(t);
    var n := NextMarketOpen(t);
    (n.day - t.day) * MicrosPerDay + n.time - t.time
  }

  datatype Phase = RegularHours | Premarket | Afterhours | Closed

  /** The status record of `get_market_status` (its text fields left out). */
  datatype MarketStatus = MarketStatus(
    currentTime: Instant,
    isTradingDay: bool,
    isMarketOpen: bool,
    isPremarketOpen: bool,
    isAfterhoursOpen: bool,
    canTradeOptions: bool,
    nextMarketOpen: Instant,
    timeUntilMarketOpen: int,
    marketPhase: Phase)

  /** Phase by priority regular > premarket > after-hours, else closed. */
  function PhaseOf(regular: bool, premarket: bool, afterhours: bool): (p: Phase)
    ensures p == Closed <==> !regular && !premarket && !afterhours
    ensures p == RegularHours <==> regular
    ensures p == Premarket <==> !regular && premarket
    ensures p == Afterhours <==> !regular && !premarket && afterhours
  {
    if regular then RegularHours
    else if premarket then Premarket
    else if afterhours then Afterhours
    else Closed
  }

  /** The status reports the market at t: each window, the trading day, the
      next open and the phase of the windows that hold. */
  function GetMarketStatus(t: Instant): (s: MarketStatus)
    ensures s.currentTime == t && s.isTradingDay == IsTradingDay(t.day)
    ensures s.isMarketOpen == IsMarketOpen(t) && s.isPremarketOpen == IsPremarketOpen(t)
    ensures s.isAfterhoursOpen == IsAfterhoursOpen(t)
    ensures s.nextMarketOpen == NextMarketOpen(t) && s.timeUntilMarketOpen == TimeUntilMarketOpen(t)
    ensures s.marketPhase == PhaseOf(s.isMarketOpen, s.isPremarketOpen, s.isAfterhoursOpen)
    ensures s.isMarketOpen ==> s.isTradingDay
    ensures s.canTradeOptions == s.isMarketOpen
    ensures s.marketPhase == Closed <==> !s.isMarketOpen && !s.isPremarketOpen && !s.isAfterhoursOpen
    ensures s.timeUntilMarketOpen > 0
    ensures !s.isTradingDay ==> s.marketPhase == Closed
  {
    var regular := IsMarketOpen(t);
    var pre := IsPremarketOpen(t);
    var after := IsAfterhoursOpen(t);
    MarketStatus(t, IsTradingDay(t.day), regular, pre, after, CanTradeOptions(t),
                 NextMarketOpen(t), TimeUntilMarketOpen(t), PhaseOf(regular, pre, after))
  }

  /** A weekend day or a listed holiday is never in any session window. */
  lemma NonTradingDayClosed(t: Instant)
    requires Weekday(t.day) >= 5 || t.day in Holidays
    ensures !IsMarketOpen(t) && !IsPremarketOpen(t) && !IsAfterhoursOpen(t)
    ensures GetMarketStatus(t).marketPhase == Closed
  {
  }

  /** On a trading day the three windows are the half-open intervals
      [09:30, 16:00), [04:00, 09:30) and [16:00, 20:00) of the time of day. */
  lemma WindowsOnTradingDay(t: Instant)
    requires IsTradingDay(t.day)
    ensures IsMarketOpen(t) <==> MarketOpen <= t.time < MarketClose
    ensures IsPremarketOpen(t) <==> PremarketOpen <= t.time < MarketOpen
    ensures IsAfterhoursOpen(t) <==> MarketClose <= t.time < AfterhoursClose
  {
  }

  /** At most one of the three windows holds at any instant. */
  lemma WindowsDisjoint(t: Instant)
    ensures !(IsMarketOpen(t) && IsPremarketOpen(t))
    ensures !(IsMarketOpen(t) && IsAfterhoursOpen(t))
    ensures !(IsPremarketOpen(t) && IsAfterhoursOpen(t))
  {
  }
}
