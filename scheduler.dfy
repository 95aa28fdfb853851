/** The continuous scheduler of `core/continuous_scheduler.py`: a daily run
    counter, the decision whether to run the strategy on a pass, the guarded
    run itself, the passes of the `start` loop and the once-only shutdown
    notice. Each method is proved against a function of the old state that
    gives the new state and the notifications sent.

    Every reading of the clock in `_reset_daily_counter`, `_should_execute_strategy`
    and the `start` loop is a separate input (`Clocks`):
    the date used by the daily reset and the instants at which the market is
    asked whether options can be traded, for its status, whether it is open,
    and for the status recorded at the end of the pass. The strategy callback
    is abstract: only whether it returned or raised is an input. */
module Scheduler {
  import opened Common
  import opened MarketHours
  import opened Notifications

  /** The constructor's parameters as the scheduler keeps them. `notify` says
      whether a Discord notifier was given. */
  datatype Config = Config(checkInterval: int, runAtMarketOpen: bool, maxRunsPerDay: int, notify: bool)

  /** The fields the scheduler updates. */
  datatype State = State(
    isRunning: bool,
    lastRunDate: Option<int>,
    runsToday: int,
    lastMarketStatus: Option<MarketStatus>,
    shutdownNotified: bool)

  /** The clock readings of one pass, in the order one pass of `start` takes them. */
  datatype Clocks = Clocks(resetAt: Instant, canTradeAt: Instant, statusAt: Instant, openAt: Instant, recordAt: Instant)

  /** What the strategy callback did. */
  datatype StrategyOutcome = Completed | Failed(error: Exception)

  /** One pass of the `start` loop: the clocks it reads and the strategy's outcome if it runs. */
  datatype Tick = Tick(clocks: Clocks, outcome: StrategyOutcome)

  datatype Reason =
    | DailyLimitReached(runs: int, limit: int)
    | TradingNotAllowed
    | MarketJustOpened
    | FirstRunOfDay
    | NoTrigger

  datatype Decision = Decision(execute: bool, reason: Reason)

  /** A new state and the notifications sent on the way to it, in order. */
  datatype After = After(state: State, notes: seq<Notification>)

  const Initial: State := State(false, None, 0, None, false)

  /** `_reset_daily_counter` on date `day`. */
  function ResetDaily(s: State, day: int): State {
    if s.lastRunDate != Some(day) then s.(runsToday := 0, lastRunDate := Some(day)) else s
  }

  /** The market was recorded closed on the previous pass and is open now. */
  predicate RisingEdge(c: Config, s: State, k: Clocks) {
    c.runAtMarketOpen && s.lastMarketStatus.Some? && !s.lastMarketStatus.value.isMarketOpen
    && GetMarketStatus(k.statusAt).isMarketOpen
  }

  /** `_should_execute_strategy`: the daily limit first, then the trading
      window, then the market-open edge, then the first run of the day. */
  function Decide(c: Config, s: State, k: Clocks): (d: Decision)
    ensures d.execute ==> s.runsToday < c.maxRunsPerDay && IsMarketOpen(k.canTradeAt)
    ensures d.execute ==> RisingEdge(c, s, k) || (s.runsToday == 0 && IsMarketOpen(k.openAt))
    ensures s.runsToday < c.maxRunsPerDay && IsMarketOpen(k.canTradeAt) && RisingEdge(c, s, k) ==> d.execute
    ensures s.runsToday == 0 < c.maxRunsPerDay && IsMarketOpen(k.canTradeAt) && IsMarketOpen(k.openAt) ==> d.execute
    ensures s.runsToday >= c.maxRunsPerDay ==> d.reason == DailyLimitReached(s.runsToday, c.maxRunsPerDay)
  {
    if s.runsToday >= c.maxRunsPerDay then Decision(false, DailyLimitReached(s.runsToday, c.maxRunsPerDay))
    else if !CanTradeOptions(k.canTradeAt) then Decision(false, TradingNotAllowed)
    else if RisingEdge(c, s, k) then Decision(true, MarketJustOpened)
    else if s.runsToday == 0 && IsMarketOpen(k.openAt) then Decision(true, FirstRunOfDay)
    else Decision(false, NoTrigger)
  }

  /** `_execute_strategy`: the start notice, the callback, and on its normal
      return the count and the completion notice. A raising callback is
      caught: the count stays and nothing escapes. */
  function Execute(c: Config, s: State, o: StrategyOutcome): (a: After)
    ensures a.state == s.(runsToday := a.state.runsToday)
    ensures a.state.runsToday == s.runsToday + (if o.Completed? then 1 else 0)
    ensures !c.notify ==> a.notes == []
    ensures c.notify ==> |a.notes| == (if o.Completed? then 2 else 1)
                         && a.notes[0] == SchedulerNotification(ExecutionStart(s.runsToday + 1, c.maxRunsPerDay))
    ensures c.notify && o.Completed? ==>
              a.notes[1] == SchedulerNotification(ExecutionComplete(s.runsToday + 1, c.maxRunsPerDay))
  {
    var start := if c.notify then [SchedulerNotification(ExecutionStart(s.runsToday + 1, c.maxRunsPerDay))] else [];
    match o
    case Completed =>
      var runs := s.runsToday + 1;
      var done := if c.notify then [SchedulerNotification(ExecutionComplete(runs, c.maxRunsPerDay))] else [];
      After(s.(runsToday := runs), start + done)
    case Failed(_) => After(s, start)
  }

  /** One pass of the `start` loop: reset the counter, decide, run if so, and
      record the market status for the next pass. */
  function Iterate(c: Config, s: State, t: Tick): After {
    var s1 := ResetDaily(s, t.clocks.resetAt.day);
    var e := if Decide(c, s1, t.clocks).execute then Execute(c, s1, t.outcome) else After(s1, []);
    After(e.state.(lastMarketStatus := Some(GetMarketStatus(t.clocks.recordAt))), e.notes)
  }

  /** The pass on `t` after `a`. */
  function Pass(c: Config, a: After, t: Tick): After {
    var b := Iterate(c, a.state, t);
    After(b.state, a.notes + b.notes)
  }

  /** The passes over `ticks`, after `a`. */
  function Passes(c: Config, a: After, ticks: seq<Tick>): After
    decreases |ticks|
  {
    if ticks == [] then a
    else
      Passes(c, Pass(c, a, ticks[0]), ticks[1..])
  }

  /** `stop`: clear the running flag; notify the shutdown only the first time. */
  function StopAfter(c: Config, s: State): After {
    if c.notify && !s.shutdownNotified then
      After(s.(isRunning := false, shutdownNotified := true), [SchedulerNotification(Shutdown(s.runsToday))])
    else After(s.(isRunning := false), [])
  }

  /** `start` up to the first pass: the startup notice, the running flag and the daily reset. */
  function StartAfter(c: Config, s: State, startDay: int): After {
    var notes := if c.notify then [SchedulerNotification(Startup(c.checkInterval / 60, c.maxRunsPerDay))] else [];
    After(ResetDaily(s.(isRunning := true), startDay), notes)
  }

  /** A whole life of the scheduler: `start`, the passes over `ticks`, then
      the `stop` of the shutdown signal. */
  function Run(c: Config, s: State, startDay: int, ticks: seq<Tick>): After {
    var p := Passes(c, StartAfter(c, s, startDay), ticks);
    var z := StopAfter(c, p.state);
    After(z.state, p.notes + z.notes)
  }

  // ---------------------------------------------------------------------
  // Properties
  // ---------------------------------------------------------------------

  /** The quota invariant: the count never exceeds the daily limit (a limit
      below zero only ever sees a zero count). */
  predicate QuotaRespected(c: Config, s: State) {
    0 <= s.runsToday && (s.runsToday <= c.maxRunsPerDay || s.runsToday == 0)
  }

  /** Resetting twice on the same date is resetting once; on the recorded
      date the reset changes nothing. */
  lemma ResetIdempotent(s: State, day: int)
    ensures ResetDaily(ResetDaily(s, day), day) == ResetDaily(s, day)
    ensures s.lastRunDate == Some(day) ==> ResetDaily(s, day) == s
    ensures s.lastRunDate != Some(day) ==> ResetDaily(s, day).runsToday == 0
  {
  }

  /** A pass keeps the quota invariant and counts at most one run. */
  lemma IterateKeepsQuota(c: Config, s: State, t: Tick)
    requires QuotaRespected(c, s)
    ensures QuotaRespected(c, Iterate(c, s, t).state)
    ensures Iterate(c, s, t).state.runsToday <= ResetDaily(s, t.clocks.resetAt.day).runsToday + 1
  {
    var s1 := ResetDaily(s, t.clocks.resetAt.day);
    if Decide(c, s1, t.clocks).execute {
      assert s1.runsToday < c.maxRunsPerDay;
    }
  }

  /** Every pass keeps the quota invariant. */
  lemma {:induction false} PassesKeepQuota(c: Config, a: After, ticks: seq<Tick>)
    requires QuotaRespected(c, a.state)
    ensures QuotaRespected(c, Passes(c, a, ticks).state)
    decreases |ticks|
  {
    if ticks != [] {
      IterateKeepsQuota(c, a.state, ticks[0]);
      PassesKeepQuota(c, Pass(c, a, ticks[0]), ticks[1..]);
    }
  }

  /** A whole run keeps the quota invariant and ends stopped. */
  lemma RunKeepsQuota(c: Config, s: State, startDay: int, ticks: seq<Tick>)
    requires QuotaRespected(c, s)
    ensures QuotaRespected(c, Run(c, s, startDay, ticks).state)
    ensures !Run(c, s, startDay, ticks).state.isRunning
  {
    PassesKeepQuota(c, StartAfter(c, s, startDay), ticks);
  }

  /** A second `stop` sends nothing and changes nothing. */
  lemma StopLatches(c: Config, s: State)
    ensures var z := StopAfter(c, s).state;
      StopAfter(c, z) == After(z, []) && !z.isRunning
    ensures StopAfter(c, s).notes != [] <==> c.notify && !s.shutdownNotified
  {
  }

  predicate IsShutdown(n: Notification) {
    n.SchedulerNotification? && n.event.Shutdown?
  }

  /** The number of shutdown notices in `notes`. */
  function Shutdowns(notes: seq<Notification>): nat {
    if notes == [] then 0 else (if IsShutdown(notes[0]) then 1 else 0) + Shutdowns(notes[1..])
  }

  lemma {:induction false} ShutdownsAppend(a: seq<Notification>, b: seq<Notification>)
    ensures Shutdowns(a + b) == Shutdowns(a) + Shutdowns(b)
    decreases |a|
  {
    if a == [] {
      assert a + b == b;
    } else {
      assert (a + b)[0] == a[0] && (a + b)[1..] == a[1..] + b;
      ShutdownsAppend(a[1..], b);
    }
  }

  lemma {:induction false} NoShutdowns(notes: seq<Notification>)
    requires forall i :: 0 <= i < |notes| ==> !IsShutdown(notes[i])
    ensures Shutdowns(notes) == 0
    decreases |notes|
  {
    if notes != [] {
      NoShutdowns(notes[1..]);
    }
  }

  /** A pass sends no shutdown notice and leaves the shutdown latch alone. */
  lemma IterateSendsNoShutdown(c: Config, s: State, t: Tick)
    ensures Shutdowns(Iterate(c, s, t).notes) == 0
    ensures Iterate(c, s, t).state.shutdownNotified == s.shutdownNotified
  {
    var s1 := ResetDaily(s, t.clocks.resetAt.day);
    if Decide(c, s1, t.clocks).execute {
      NoShutdowns(Execute(c, s1, t.outcome).notes);
    } else {
      NoShutdowns([]);
    }
  }

  lemma {:induction false} PassesSendNoShutdown(c: Config, a: After, ticks: seq<Tick>)
    ensures Shutdowns(Passes(c, a, ticks).notes) == Shutdowns(a.notes)
    ensures Passes(c, a, ticks).state.shutdownNotified == a.state.shutdownNotified
    decreases |ticks|
  {
    if ticks != [] {
      IterateSendsNoShutdown(c, a.state, ticks[0]);
      ShutdownsAppend(a.notes, Iterate(c, a.state, ticks[0]).notes);
      PassesSendNoShutdown(c, Pass(c, a, ticks[0]), ticks[1..]);
    }
  }

  /** Over a whole run the shutdown notice goes out exactly once when a
      notifier is set and none was sent before, and never otherwise. */
  lemma RunShutsDownOnce(c: Config, s: State, startDay: int, ticks: seq<Tick>)
    ensures Shutdowns(Run(c, s, startDay, ticks).notes) == (if c.notify && !s.shutdownNotified then 1 else 0)
  {
    var st := StartAfter(c, s, startDay);
    var p := Passes(c, st, ticks);
    PassesSendNoShutdown(c, st, ticks);
    NoShutdowns(st.notes);
    var z := StopAfter(c, p.state);
    ShutdownsAppend(p.notes, z.notes);
    if z.notes != [] {
      assert z.notes[1..] == [];
    }
  }

  // ---------------------------------------------------------------------
  // The scheduler object
  // ---------------------------------------------------------------------

  class ContinuousScheduler {
    const checkInterval: int
    const runAtMarketOpen: bool
    const maxRunsPerDay: int
    const notify: bool
    const notifier: Notifier
    var isRunning: bool
    var lastRunDate: Option<int>
    var runsToday: int
    var lastMarketStatus: Option<MarketStatus>
    var shutdownNotified: bool

    function Settings(): Config {
      Config(checkInterval, runAtMarketOpen, maxRunsPerDay, notify)
    }

    function Current(): State
      reads this
    {
      State(isRunning, lastRunDate, runsToday, lastMarketStatus, shutdownNotified)
    }

    /** The quota invariant, and the latch is only ever set with a notifier. */
    predicate Valid()
      reads this
    {
      QuotaRespected(Settings(), Current()) && (shutdownNotified ==> notify)
    }

    /** `__init__`: the interval in seconds, and no run, date or status yet. */
    constructor (checkIntervalMinutes: int, runAtMarketOpen: bool, maxRunsPerDay: int,
                 notify: bool, notifier: Notifier)
      ensures Settings() == Config(60 * checkIntervalMinutes, runAtMarketOpen, maxRunsPerDay, notify)
      ensures this.notifier == notifier && Current() == Initial && Valid()
    {
      checkInterval := checkIntervalMinutes * 60;
      this.runAtMarketOpen := runAtMarketOpen;
      this.maxRunsPerDay := maxRunsPerDay;
      this.notify := notify;
      this.notifier := notifier;
      isRunning := false;
      lastRunDate := None;
      runsToday := 0;
      lastMarketStatus := None;
      shutdownNotified := false;
    }

    method ResetDailyCounter(day: int)
      modifies this
      ensures Current() == ResetDaily(old(Current()), day)
    {
      if lastRunDate != Some(day) {
        runsToday := 0;
        lastRunDate := Some(day);
      }
    }

    method ShouldExecuteStrategy(k: Clocks) returns (execute: bool, reason: Reason)
      ensures Decision(execute, reason) == Decide(Settings(), Current(), k)
    {
      if runsToday >= maxRunsPerDay {
        return false, DailyLimitReached(runsToday, maxRunsPerDay);
      }
      if !CanTradeOptions(k.canTradeAt) {
        return false, TradingNotAllowed;
      }
      if runAtMarketOpen {
        var current := GetMarketStatus(k.statusAt);
        if lastMarketStatus.Some? && !lastMarketStatus.value.isMarketOpen && current.isMarketOpen {
          return true, MarketJustOpened;
        }
      }
      if runsToday == 0 && IsMarketOpen(k.openAt) {
        return true, FirstRunOfDay;
      }
      return false, NoTrigger;
    }

    method ExecuteStrategy(o: StrategyOutcome)
      modifies this, notifier
      ensures var a := Execute(Settings(), old(Current()), o);
        Current() == a.state && notifier.sent == old(notifier.sent) + a.notes
    {
      if notify {
        notifier.Send(SchedulerNotification(ExecutionStart(runsToday + 1, maxRunsPerDay)));
      }
      match o
      case Completed =>
        runsToday := runsToday + 1;
        if notify {
          notifier.Send(SchedulerNotification(ExecutionComplete(runsToday, maxRunsPerDay)));
        }
      case Failed(_) =>
    }

    /** One pass of the `while self.is_running` loop of `start`. */
    method Iteration(ghost base: seq<Notification>, ghost done: After, t: Tick)
      requires Valid() && Current() == done.state && notifier.sent == base + done.notes
      modifies this, notifier
      ensures Valid()
      ensures var a := Pass(Settings(), done, t);
        Current() == a.state && notifier.sent == base + a.notes
    {
      IterateKeepsQuota(Settings(), Current(), t);
      IterateSendsNoShutdown(Settings(), Current(), t);
      ResetDailyCounter(t.clocks.resetAt.day);
      var execute, reason := ShouldExecuteStrategy(t.clocks);
      if execute {
        ExecuteStrategy(t.outcome);
      }
      lastMarketStatus := Some(GetMarketStatus(t.clocks.recordAt));
    }

    method Stop()
      requires Valid()
      modifies this, notifier
      ensures Valid()
      ensures var a := StopAfter(Settings(), old(Current()));
        Current() == a.state && notifier.sent == old(notifier.sent) + a.notes
    {
      isRunning := false;
      if notify && !shutdownNotified {
        shutdownNotified := true;
        notifier.Send(SchedulerNotification(Shutdown(runsToday)));
      }
    }

    /** `start` up to its loop: the startup notice, the flag and the first reset. */
    method StartUp(startDay: int)
      requires Valid()
      modifies this, notifier
      ensures Valid()
      ensures var a := StartAfter(Settings(), old(Current()), startDay);
        Current() == a.state && notifier.sent == old(notifier.sent) + a.notes
    {
      if notify {
        notifier.Send(SchedulerNotification(Startup(checkInterval / 60, maxRunsPerDay)));
      }
      isRunning := true;
      ResetDailyCounter(startDay);
    }

    /** The `while self.is_running` loop of `start`, one pass per tick,
        after `done` with `base` sent before it. */
    method Loop(ghost base: seq<Notification>, ghost done: After, ticks: seq<Tick>)
      requires Valid() && Current() == done.state && notifier.sent == base + done.notes
      modifies this, notifier
      ensures Valid()
      ensures var p := Passes(Settings(), done, ticks);
        Current() == p.state && notifier.sent == base + p.notes
    {
      ghost var c := Settings();
      ghost var total := Passes(c, done, ticks);
      ghost var acc := done;
      var i := 0;
      while i < |ticks|
        invariant 0 <= i <= |ticks| && Valid()
        invariant Current() == acc.state && notifier.sent == base + acc.notes
        invariant Passes(c, acc, ticks[i..]) == total
      {
        assert ticks[i..][0] == ticks[i] && ticks[i..][1..] == ticks[i + 1..];
        Iteration(base, acc, ticks[i]);
        acc := Pass(c, acc, ticks[i]);
        i := i + 1;
      }
      assert ticks[i..] == [];
    }

    /** `start`, its passes over `ticks`, and the `stop` of the shutdown signal. */
    method Start(startDay: int, ticks: seq<Tick>)
      requires Valid()
      modifies this, notifier
      ensures Valid()
      ensures var r := Run(Settings(), old(Current()), startDay, ticks);
        Current() == r.state && notifier.sent == old(notifier.sent) + r.notes
    {
      ghost var st := StartAfter(Settings(), Current(), startDay);
      StartUp(startDay);
      Loop(old(notifier.sent), st, ticks);
      Stop();
    }
  }
}
