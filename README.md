# Options-wheel bot: a verified model of its decision core

This project is a Dafny model of the decision logic of a bot that runs the options "wheel" on the US market.

The bot sells cash-secured puts on symbols it does not hold, within a risk budget. For every `long_shares` holding it tries to sell one covered call; a holding of fewer than 100 shares raises `ValueError`, which ends the cycle before any put is sold. It runs these cycles from a scheduler that fires only while options can trade.

The model covers five parts of the repository. Each part is proved against its own specification:

- **Market clock** (`market_hours.dfy`, module `MarketHours`): the regular (09:30-16:00), pre-market (04:00-09:30) and after-hours (16:00-20:00) windows, plus the weekend and holiday guard.
  - The phase classifier, the time until the next open, and the bounded day-by-day search for the next 09:30 open.
  - A date is a day ordinal (Python's `toordinal()`), and a time of day is a count of microseconds since local midnight.
- **Continuous scheduler** (`scheduler.dfy`, module `Scheduler`): the class `ContinuousScheduler` with the daily counter reset, the trigger rule, the guarded strategy run and the passes of its `start` loop.
  - Also the shutdown notice, which goes out at most once.
  - Each method is proved against a function of the old state that gives the new state and the notifications sent on the way. The quota invariant and the once-only shutdown are proved on those functions.
- **Trade executor** (`execution.dfy`, module `Execution`; `broker_errors.dfy`, module `BrokerErrors`):
  - `sell_puts`, the greedy budget loop that debits `100 * strike` before each attempt and stops at the first overdraft;
  - `sell_calls`, which sells the first best-scored call and has its own error policy;
  - the reading of the broker's insufficient-funds message, with the case-insensitive test, the JSON branch, the `required: ` / `available: ` regex branch and the fallbacks.
  - Each method is proved against a function that gives its whole effect: the broker calls, notifications and logger calls in order, the puts and premium it adds to the trades summary, and the exception that escapes.
- **Strategy cycle** (`run_strategy.dfy`, module `Cycle`): the body of `main`.
  - The fresh-start or regular opening, the covered calls for every `long_shares` state, the allowed symbols and the budget `MAX_RISK - risk`.
  - Then the put phase, the completion notice and the save, and the `except` branch that reports and re-raises.
- **Strategy log** (`strategy_logger.dfy`, module `StrategyLog`): the class `StrategyLogger`, an in-memory record whose trade summary stays consistent with its list of trades.
  - A disabled logger ignores every call.

The collaborators the core calls are small recording classes:

- The broker (`broker.dfy`) keeps a log of the calls made on it. The answers are fixed in advance by an oracle, and `market_sell`'s answer depends on the call's position in that log.
- The notifier (`notifications.dfy`) keeps the list of notifications sent.

Shared values are in `common.dfy`, and the ASCII text helpers are in `text.dfy`.

Where the code and its documentation differ, the model follows the code:

- Two listed holidays are at least a week apart, so the 10-day bound of the next-open search is never reached. Its fallback is dead code, which `MarketHours.FallbackUnreachable` proves.
- `float(None)` in the JSON branch of the error handler raises `TypeError`. That exception is not in the handler's `except` tuple, so it escapes `sell_puts` and `sell_calls`. The model lets it escape.

## Model

| member | source | states |
|---|---|---|
| MarketHours.HolidayCalendar | core/market_hours.py:12-38 | the holiday set is exactly the twenty listed exchange holidays of 2024 and 2025 |
| MarketHours.HolidaysSpaced | core/market_hours.py:12-38 | two distinct listed holidays lie at least seven days apart |
| MarketHours.NonTradingDayClosed | core/market_hours.py:63-127 | on a weekend day or a listed holiday, none of the regular, pre-market or after-hours windows holds at any time, and the phase is closed |
| MarketHours.WindowsOnTradingDay | core/market_hours.py:71-133 | on a trading day the regular, pre-market and after-hours windows are exactly the half-open intervals [09:30, 16:00), [04:00, 09:30) and [16:00, 20:00) |
| MarketHours.WindowsDisjoint | core/market_hours.py:75-133 | at most one of the three windows holds at any instant |
| MarketHours.SearchTradingDay | core/market_hours.py:170-190 | the search from offset k returns the first offset in [k, 10] that is a trading day, skipping none, or reports that there is none |
| MarketHours.GetNextMarketOpen | core/market_hours.py:148-192 | the loop with its 10-day bound returns the next open as the specification function `NextMarketOpen` defines it |
| MarketHours.FallbackUnreachable | core/market_hours.py:188-192 | a trading day is always found within four days, so the fallback return is never taken |
| MarketHours.NextOpenIsLaterOpen | core/market_hours.py:163-190 | the next open is strictly later than the input (an input at exactly 09:30 of a trading day gives the next trading day), is at 09:30, and falls in the regular session of a trading day |
| MarketHours.NextOpenTodayIff | core/market_hours.py:163-168 | today's 09:30 is returned if and only if the input is strictly before 09:30 on a trading day |
| MarketHours.NextOpenIsEarliest | core/market_hours.py:170-190 | no trading-day 09:30 lies between the input and the next open: it is the earliest one |
| MarketHours.TimeUntilMarketOpen | core/market_hours.py:194-210 | the time until the next open is always positive |
| MarketHours.PhaseOf | core/market_hours.py:238-245 | the phase is picked by priority regular > pre-market > after-hours, and is closed exactly when none of the three holds |
| MarketHours.GetMarketStatus | core/market_hours.py:212-247 | the status reports the market at the given instant: the trading-day flag, the regular, pre-market and after-hours windows, the next open and the time until it are those of the instant; can-trade-options equals market-open; the phase is the one the priority rule picks from the windows that hold, so it is closed exactly when no window holds and always on a non-trading day; an open market implies a trading day, and the time until the open is positive |
| Scheduler.Decide | core/continuous_scheduler.py:74-103 | a run is decided only with quota left and options tradable, and then only on a rising edge or on the first run of the day with the market open; each of those two triggers does decide a run; an exhausted quota gives the daily-limit reason |
| Scheduler.Execute | core/continuous_scheduler.py:105-135 | the count goes up by one exactly when the callback returns normally, no other field changes, a raising callback escapes nowhere, and with a notifier the start notice (run number count + 1) is sent, plus, on success, the completion notice with run number count + 1 and the daily limit |
| Scheduler.ResetIdempotent | core/continuous_scheduler.py:65-72 | resetting twice on the same date equals resetting once; on the recorded date the reset changes nothing; on a new date it zeroes the count |
| Scheduler.IterateKeepsQuota | core/continuous_scheduler.py:175-191 | one pass of the loop keeps 0 <= runs_today <= max_runs_per_day and counts at most one run |
| Scheduler.PassesKeepQuota | core/continuous_scheduler.py:175-213 | any number of passes keeps the quota invariant |
| Scheduler.RunKeepsQuota | core/continuous_scheduler.py:155-215 | a whole start-loop-stop run keeps the quota invariant and ends with the scheduler stopped |
| Scheduler.StopLatches | core/continuous_scheduler.py:216-228 | stop clears the running flag; a second stop sends nothing and changes nothing; stop sends a notice exactly when a notifier is set and none was sent before |
| Scheduler.IterateSendsNoShutdown | core/continuous_scheduler.py:175-191 | a loop pass sends no shutdown notice and leaves the shutdown latch as it was |
| Scheduler.PassesSendNoShutdown | core/continuous_scheduler.py:175-213 | any number of passes adds no shutdown notice and keeps the latch |
| Scheduler.RunShutsDownOnce | core/continuous_scheduler.py:155-228 | over a whole run the shutdown notice is sent exactly once when a notifier is set and none was sent before, and never otherwise |
| Scheduler.ContinuousScheduler.constructor | core/continuous_scheduler.py:22-52 | the interval is 60 times the minutes given, no run, date or status is recorded yet, the count is zero and the latch is clear |
| Scheduler.ContinuousScheduler.ResetDailyCounter | core/continuous_scheduler.py:65-72 | the new state is the daily reset of the old one on the given date |
| Scheduler.ContinuousScheduler.ShouldExecuteStrategy | core/continuous_scheduler.py:74-103 | returns the decision and the reason of `Decide` on the current state, and changes nothing |
| Scheduler.ContinuousScheduler.ExecuteStrategy | core/continuous_scheduler.py:105-135 | the new state and the notices sent are those of `Execute` |
| Scheduler.ContinuousScheduler.Iteration | core/continuous_scheduler.py:175-191 | one pass (reset, decide, run if decided, record the market status) moves the state and the notices as `Pass` does, and keeps the invariant |
| Scheduler.ContinuousScheduler.Stop | core/continuous_scheduler.py:216-228 | the new state and the notices sent are those of `StopAfter`, and the invariant holds |
| Scheduler.ContinuousScheduler.StartUp | core/continuous_scheduler.py:155-170 | the startup notice (interval in minutes, daily limit), the running flag and the first reset, as `StartAfter` gives them |
| Scheduler.ContinuousScheduler.Loop | core/continuous_scheduler.py:175-213 | the loop over the passes ends in the state and with the notices of `Passes`, and keeps the invariant |
| Scheduler.ContinuousScheduler.Start | core/continuous_scheduler.py:155-215 | start, its passes and the final stop end in the state and with the notices of `Run` |
| BrokerErrors.AmountRunEnd | core/execution.py:82-83 | the greedy `[\d,]+` run from a position reaches the first character that is neither a digit nor a comma |
| BrokerErrors.DigitRunEnd | core/execution.py:82-83 | the greedy `\d*` run after the dot reaches the first non-digit |
| BrokerErrors.CaptureAt | core/execution.py:82-83 | the captured group is a non-empty run of digits and commas, then a dot and digits when a dot follows, all taken from the message at that position |
| BrokerErrors.CaptureRuns | core/execution.py:82-83 | the integer part of the capture is exactly the greedy digits-and-commas run; when a dot ends that run, the fraction is exactly the digit run after it and the whole capture is integer part, dot, fraction; otherwise the fraction is empty and the capture is the integer part |
| BrokerErrors.FindMatch | core/execution.py:82-83 | `re.search` finds the leftmost position where the key is followed by a digit or comma, or reports that there is none |
| BrokerErrors.StripCommas | core/execution.py:84-85 | the result holds no comma, and a text without commas comes back unchanged |
| BrokerErrors.StripOneComma | core/execution.py:84-85 | a lone comma is removed |
| BrokerErrors.StripCommasAppend | core/execution.py:84-85 | removing the commas of a concatenation removes them from each part: with the two rules above it fixes the result character by character |
| BrokerErrors.ThousandsSeparator | core/execution.py:84-85 | digits, a comma and digits (`1,234`) become the two digit runs joined (`1234`) |
| BrokerErrors.ParseCapture | core/execution.py:84-85 | the captured text without commas fails to parse exactly when it has no digit at all; otherwise its value is the integer digits without commas plus the fraction |
| BrokerErrors.AbsentFieldReadsZero | core/execution.py:82-85 | an amount whose key never occurs followed by a digit or comma reads as 0 |
| BrokerErrors.InsufficientAmounts | core/execution.py:76-98 | a `{"code"` message gives the JSON reader's two amounts, the caught failure, or the uncaught `TypeError` with its message, and that is the only way to a fault; any other message is unparsable exactly when either regex capture has no digit, and otherwise gives the two amounts the regex reads |
| BrokerErrors.NoFieldsReadAsZero | core/execution.py:82-85 | a plain message naming neither field reads as required 0 and available 0 |
| BrokerErrors.AmountRoundTrip | core/execution.py:82-85 | an amount printed as key, dollars, a dot and two cent digits, anywhere in a message with no earlier occurrence of the key and no digit right after it, is read back as dollars + cents/100 |
| BrokerErrors.FieldReading | core/execution.py:82-85 | a field written as key, digits and commas, a dot and digits, with no earlier occurrence of the key and no digit right after it, reads as the value of the digits without commas plus the fraction, or fails as `float` does when it holds no digit at all |
| BrokerErrors.IntegerFieldReading | core/execution.py:82-85 | a field written as key and then digits and commas with no dot, with no earlier occurrence of the key and neither a digit, a comma nor a dot right after it, reads as the value of the digits without commas, or fails when it holds only commas |
| BrokerErrors.IntegerAmountsExample | core/execution.py:76-98 | `required: 5,000, available: 7` reads as 5000 required and 7 available: the comma after `5,000` is captured and dropped |
| BrokerErrors.PlainMessageReading | core/execution.py:76-98 | a whole plain message `... required: Q, available: A ...` in which both Q and A are written with a dot (digits and commas, a dot, digits) and have a digit, in which neither key occurs before its field, is read as the two values of Q and A |
| Execution.TradesSummary.constructor | scripts/run_strategy.py:133 | the trades summary starts at zero puts, zero calls and zero premium |
| Execution.InsufficientHandling | core/execution.py:66-98 | the insufficient-funds branch makes no broker or logger call; it sends one notice for the symbol with the amounts read from the message, or with the fallback required amount and 0 available when they cannot be read; when reading raises the uncaught `TypeError`, that exception escapes and nothing is sent |
| Execution.NotifyInsufficient | core/execution.py:70-98 | sends the notices and returns the exception of `InsufficientHandling` |
| Execution.PutAttempt | core/execution.py:38-110 | one attempt makes exactly one sell call; on a fill of a contract with a bid it sends the PUT trade notice, logs the sold put and counts one put and its bid; a fill without a bid raises the formatting `TypeError` inside the `try`, so it sends the `Failed to sell put` notice with that error's message and counts and logs nothing; on a rejection it logs nothing and sends the `Failed to sell put` error notice, or on insufficient funds the notice with the amounts read or with 100 times the strike and 0, or lets the `TypeError` escape |
| Execution.SellFailure | logging/discord_notifier.py:86-107 | the exception raised inside a sell's `try`: none exactly when the sell fills on a contract with a bid; the broker's error on a rejection; the `TypeError` of formatting `None` as `${premium:.2f}` when a fill has no bid |
| BrokerErrors.NoneFormatNotInsufficient | core/execution.py:61-66 | the message of that formatting `TypeError` is not an insufficient-funds message, so it takes the plain error branch |
| Execution.WithSnapshots | core/execution.py:22-24 | the contracts built are exactly those of the listed contracts that have a snapshot, no more than were listed |
| Execution.WithSnapshotsAppend | core/execution.py:24 | the list comprehension keeps order: building from two runs of listed contracts gives the contracts of the first run, then those of the second |
| Execution.WithSnapshotsAll | core/execution.py:24 | when every listed contract has a snapshot, the i-th contract built is the one built from the i-th listed contract and its snapshot |
| Execution.SellPut | core/execution.py:38-110 | records the broker calls, notices and logger calls of `PutAttempt`, adds its count and premium to the summary, leaves the calls count alone and returns its exception |
| Execution.PutLoopFromThen | core/execution.py:33-110 | the loop as the method runs it (accumulator, break on overdraft or on an escaping exception) equals the recursive loop run after what came before |
| Execution.PutTurn | core/execution.py:33-110 | one turn debits `100 * strike`, stops at an overdraft, otherwise attempts the put; the turns so far and the rest of the loop still add up to the whole loop |
| Execution.SellPuts | core/execution.py:8-112 | the whole of `sell_puts`: its broker calls, notices, logger calls, summary updates and escaping exception are those of `PutsEffects` |
| Execution.SellCandidates | core/execution.py:22-112 | `sell_puts` from the listing on has the effects of `CandidatesEffects` |
| Execution.FetchPuts | core/execution.py:22-26 | the listing and snapshot calls, and the logged candidates, are those of `FetchEffects` |
| Execution.RunPutLoop | core/execution.py:33-110 | the `for` loop over the selected puts has the effects of the running form of the loop |
| Execution.AttemptedIsAffordablePrefix | core/execution.py:33-36 | the attempted puts are the longest prefix of the selected order whose every prefix costs at most the budget; the next put would overdraw, even if a later, cheaper one would fit |
| Execution.PutLoopSells | core/execution.py:33-59 | the loop sells, in order, a prefix of the affordable puts, and all of them unless an exception escapes; it counts one put and its bid for each sell that filled on a contract with a bid and for no other, and a failed sell still uses up its budget |
| Execution.PutLoopRaisesOnlyOnTypeFault | core/execution.py:61-110 | the only exception that escapes the loop is the `TypeError` of reading an insufficient-funds message, from the last sell made |
| Execution.PutAttemptRaises | core/execution.py:61-110 | one attempt raises only on a rejected insufficient-funds sell whose amounts raise the uncaught `TypeError` |
| Execution.NoSellWithoutCandidates | core/execution.py:12-21 | with no symbols or no positive budget nothing at all happens; when the underlying filter keeps no symbol, no sell call (and no other broker call of the model) is made |
| Execution.BudgetExamples | core/execution.py:33-36 | with strikes 50, 30, 20, a budget of 10000 attempts all three and 9900 attempts two; with 50, 80, 10 only the first is attempted |
| Execution.InsufficientFundsContinues | core/execution.py:33-101 | an insufficient-funds failure on the second of three puts is notified between the notices of the two filled ones, with the amounts read from the message or with 100 times its strike and 0; the loop goes on to sell the third and raises nothing; each filled put is counted when it has a bid, and its notice is the trade notice or, without a bid, the error notice |
| Execution.Argmax | core/execution.py:130-132 | `np.argmax` returns the first index of a maximal score |
| Execution.SellCall | core/execution.py:134-194 | the sell of the chosen call, with its notice and log on a fill, or its error handling, has the effects of `CallAttempt` |
| Execution.CallAttempt | core/execution.py:134-194 | selling the chosen call makes one sell call and counts no put or premium; a fill of a contract with a bid sends the CALL trade notice and logs the sold call; a fill without a bid sends the `Failed to sell call` notice with the formatting `TypeError`'s message, logs nothing and re-raises that `TypeError`; a rejection logs nothing and either sends the `Failed to sell call` notice and re-raises the broker's error, or on insufficient funds sends the notice with the amounts read or with 0 and 0, or lets the `TypeError` escape |
| Execution.SellCalls | core/execution.py:114-196 | the whole of `sell_calls` has the effects of `CallEffects`, and it never counts a put or premium |
| Execution.ShortSharesRaise | core/execution.py:118-123 | fewer than 100 shares raise `ValueError` with the shortage message before any broker call, after one error notice |
| Execution.SellsFirstBestCall | core/execution.py:130-136 | when `sell_calls` sells, it makes one listing call, then one sell of the first candidate with a maximal score |
| Execution.CallErrorPolicy | core/execution.py:130-196 | an exception escapes exactly on too few shares, a failing argmax or index, a fill of a call without a bid, a sell error other than insufficient funds, or the uncaught `TypeError`; insufficient funds is otherwise notified once and swallowed; no candidate means no sale and no error |
| StrategyLog.Truthy | logging/strategy_logger.py:96-99 | a number is kept only when it is present and non-zero, otherwise recorded as `None` |
| StrategyLog.PositionRecords | logging/strategy_logger.py:90-100 | one record per position, in order, each with its falsy numbers recorded as `None` |
| StrategyLog.DisabledIgnoresAll | logging/strategy_logger.py:64-185 | a disabled logger is unchanged by any sequence of calls, including save |
| StrategyLog.StepKeepsConsistent | logging/strategy_logger.py:161-169 | every call keeps the summary equal to the per-type counts and premium total computed from the trades list |
| StrategyLog.ApplyAllKeepsConsistent | logging/strategy_logger.py:64-185 | any sequence of calls keeps the logger enabled or disabled as it was, and keeps the summary consistent with the trades |
| StrategyLog.LogTradeAccounting | logging/strategy_logger.py:133-169 | `log_trade` appends exactly one trade with its type upper-cased; it adds the quantity to the PUT or CALL counter by type and to neither for any other type; it adds the premium whatever the type; PUT plus CALL quantities grow by the quantity exactly for those two types |
| StrategyLog.LogTradeIgnoresCase | logging/strategy_logger.py:152-167 | logging a trade with a lower-cased type has the same effect as with the type as given |
| StrategyLog.StrategyLogger.constructor | logging/strategy_logger.py:17-60 | an enabled logger starts with a zero summary, empty lists and fresh_start false; a disabled one holds no record |
| StrategyLog.StrategyLogger.SetFreshStart | logging/strategy_logger.py:64-67 | when enabled only fresh_start is replaced; when disabled nothing changes; the summary stays consistent |
| StrategyLog.StrategyLogger.SetBuyingPower | logging/strategy_logger.py:69-72 | when enabled only buying_power is replaced; otherwise nothing changes |
| StrategyLog.StrategyLogger.SetAllowedSymbols | logging/strategy_logger.py:74-77 | when enabled only allowed_symbols is replaced; otherwise nothing changes |
| StrategyLog.StrategyLogger.SetFilteredSymbols | logging/strategy_logger.py:79-83 | when enabled only filtered_symbols is replaced; otherwise nothing changes |
| StrategyLog.StrategyLogger.AddCurrentPositions | logging/strategy_logger.py:85-102 | when enabled current_positions becomes the position records built by the loop; otherwise nothing changes |
| StrategyLog.StrategyLogger.AddStateDict | logging/strategy_logger.py:104-107 | when enabled only state_dict is replaced; otherwise nothing changes |
| StrategyLog.StrategyLogger.LogPutOptions | logging/strategy_logger.py:109-113 | when enabled only put_options is replaced; otherwise nothing changes |
| StrategyLog.StrategyLogger.LogCallOptions | logging/strategy_logger.py:115-119 | when enabled only call_options is replaced; otherwise nothing changes |
| StrategyLog.StrategyLogger.LogSoldPuts | logging/strategy_logger.py:121-125 | when enabled sold_puts is extended by the given puts; otherwise nothing changes |
| StrategyLog.StrategyLogger.LogSoldCalls | logging/strategy_logger.py:127-131 | when enabled sold_calls gains exactly the given call at its end; otherwise nothing changes |
| StrategyLog.StrategyLogger.LogTrade | logging/strategy_logger.py:133-171 | the trade accounting of `LogTradeAccounting` when enabled, nothing when disabled, and the summary stays consistent with the trades |
| StrategyLog.StrategyLogger.Save | logging/strategy_logger.py:173-185 | when enabled a snapshot of the record is written and the record is unchanged; when disabled nothing happens |
| StrategyLog.StrategyLogger.GetSummary | logging/strategy_logger.py:187-191 | zeros when disabled; otherwise the PUT and CALL quantities and the premium total of the trades logged so far, as a value that cannot alias the record |
| Cycle.UnseenSpec | scripts/run_strategy.py:121 | the symbols kept are exactly those of the universe not excluded, each once |
| Cycle.AllowedSymbolsSpec | scripts/run_strategy.py:121 | the allowed symbols are exactly the universe's symbols with no state entry, without repeats |
| Cycle.PutsPhaseOutcome | scripts/run_strategy.py:127-140 | the put phase makes the broker calls of `sell_puts` and raises what it raises; without an exception it ends with one completion notice (calls_sold 0) and one save, and with one it sends neither |
| Cycle.FreshStartPlan | scripts/run_strategy.py:87-135 | in fresh-start mode the positions are liquidated first, the startup notice gives the whole universe and MAX_RISK, those are logged first, and `sell_puts` runs on exactly them |
| Cycle.RegularStart | scripts/run_strategy.py:93-94 | in regular mode the first broker call reads the positions |
| Cycle.RegularPlan | scripts/run_strategy.py:93-135 | in regular mode, when the covered calls raise nothing, the startup notice follows their notices with budget MAX_RISK - calculate_risk(positions) and the allowed symbols, that plan is logged next, and `sell_puts` runs on exactly it |
| Cycle.CallsBeforePuts | scripts/run_strategy.py:117-135 | in every cycle every listing of call options precedes every listing of put options |
| Cycle.OneCallListingPerHolding | scripts/run_strategy.py:117-119 | when the covered calls raise nothing, the cycle lists call options exactly once per `long_shares` state, in state order |
| Cycle.CycleOutcome | scripts/run_strategy.py:133-145 | a cycle that raises sends one error notice, last and in the strategy-execution context, with no completion notice and no save; one that does not raise ends with the completion notice (puts sold and premium counted, calls_sold 0) and exactly one save |
| Cycle.ReviewPositions | scripts/run_strategy.py:94-115 | reads the positions, logs them, reports them only when there are any, and logs the state entries |
| Cycle.CallTurn | scripts/run_strategy.py:117-119 | one state entry: `sell_calls` exactly when it is a stock holding, and the rest of the loop still adds up to the whole |
| Cycle.SellCoveredCalls | scripts/run_strategy.py:117-119 | the loop over the state entries has the effects of `CallsFrom`: `sell_calls` for each holding until one raises |
| Cycle.TradePuts | scripts/run_strategy.py:127-140 | logs the plan, runs `sell_puts` on a fresh zero summary, then sends the completion notice with that summary and saves, unless `sell_puts` raised |
| Cycle.ReviewAndSellCalls | scripts/run_strategy.py:94-119 | the position review and then the covered calls, with their joint effects |
| Cycle.OpenRegular | scripts/run_strategy.py:93-125 | the regular opening: the review, the covered calls and the startup notice unless they raised; it returns the plan MAX_RISK - risk over the allowed symbols |
| Cycle.Open | scripts/run_strategy.py:87-125 | the opening of either mode has the effects of `Opening` and returns the plan of `PlanOf` |
| Cycle.RunCycle | scripts/run_strategy.py:86-145 | the `try` statement has exactly the effects of `CycleEffects`; an escaping exception is reported and returned for re-raising |
| Cycle.Launch | scripts/run_strategy.py:65-145 | with `--test-discord`, `main` creates none of its own broker client, logger and notifier; otherwise it records the fresh-start flag and then one cycle's effects, from a fresh broker log |

## Left out

- Time zones: the pytz conversion and the daylight-saving behaviour of `replace` are not modelled. Every instant is given as an Eastern-local day and time.
- The `dt=None` default ("now") of the market-clock methods, and the wall-clock reads of the scheduler, are inputs rather than clock reads.
- The text fields of `get_market_status` (`current_time_et`, the formatted next open, `str(timedelta)`) are left out. The model gives the next open as an instant and the wait in microseconds.
- MarketHours.TimeUntilMarketOpen: the contract states only that the wait is positive. Its exact value, the next open minus the input, is the body's difference of the two instants.
- Holidays outside the listed 2024 and 2025 dates are unknown to `MarketHours` in Python as well. Facts about the next-open search rely on the listed dates.
- Scheduler plumbing is left out: the signal handlers and `sys.exit`, `time.sleep`, the 60-second backoff, the status-log cadence and `_log_status_update`, and all logging output. A keyboard interrupt or signal is modelled as the end of the passes, followed by `stop`.
- Scheduler.ContinuousScheduler.Loop: the loop's `except Exception` branch, with its error notice, is not modelled. In the model nothing in a pass raises, because the strategy's exceptions are caught in `_execute_strategy`.
- `create_scheduler_with_strategy` and `execute_strategy_once` are not part of this model. The strategy callback is abstract: only whether it returned or raised.
- The strategy functions `filter_underlying`, `filter_options`, `score_options` and `select_options`, the `Contract` constructors, `update_state` and `calculate_risk` are not part of this model. They appear as arbitrary functions.
- The broker client is not part of this model. Its answers come from an oracle, and `market_sell` either fills or fails with a message.
- Only `market_sell` can fail in the model. An exception from `get_positions`, `get_options_contracts`, `get_option_snapshot` or `liquidate_all_positions` is not modelled: each always answers.
- `filter_underlying` and `Contract.from_contract` are passed the broker client by `sell_puts` and `sell_calls`. Any broker calls they make are not modelled and do not appear in the broker log.
- Discord delivery and the notifier's own enabled flag are not modelled: the model's notifier is an enabled one. The one formatting failure, the `TypeError` that `${premium:.2f}` raises for a contract without a bid, is modelled. With a disabled notifier nothing would be formatted, and such a filled put would count with premium 0. Other message formatting is not modelled. A notification is an event appended to the notifier's record.
- Execution.WithSnapshots: a snapshot map of the model cannot hold a `None` value. In Python a present key whose snapshot is `None`, or is otherwise falsy, fails the truthiness test of `snapshots.get(...)` and is dropped. The model drops only the contracts whose symbol has no snapshot.
- The defaults of the scheduler constructor (`check_interval_minutes=15`, `run_at_market_open=True`, `max_runs_per_day=4`) and of `log_trade` (`quantity=1`) are not modelled. `Scheduler.ContinuousScheduler.constructor` and `StrategyLog.StrategyLogger.LogTrade` take every value as an explicit parameter.
- The optional `None` parameters of `sell_puts` and `sell_calls` (no logger, no notifier, no summary) are not modelled. The cycle always passes all three.
- BrokerErrors.InsufficientAmounts: `json.loads` and the `float()` calls of the JSON branch are an oracle that answers with two amounts, a caught failure or the uncaught `TypeError`.
- Money and prices are exact reals. Floating-point rounding of the budget, strikes and premiums is not modelled.
- `to_dict()` conversions are not modelled: contracts are stored in the log as values.
- StrategyLog.StrategyLogger.AddCurrentPositions: `float(qty)` and `str(side)` are not modelled, because the model's positions already hold a real quantity and a string side.
- Timestamps and files are not modelled: the execution and trade timestamps, the log-file name, the `logs` directory and the JSON dump. `save` appends a snapshot of the record to a list, and its caught write error is not modelled.
- Text.Lower and Text.Upper map ASCII letters only. Python's full Unicode case mapping is not modelled.
- BrokerErrors.IsAmountChar and BrokerErrors.DigitRunEnd: Python's `\d` also matches non-ASCII decimal digits. The model reads only the ASCII digits 0-9.
- Cycle.AllowedSymbols: Python's set order is not modelled. The allowed symbols come in their order of first occurrence in the universe, and the lemmas state only membership and absence of repeats.
- Reading the symbol file, `setup_logger`, `parse_args`, the credentials and `test_discord_webhook` are not modelled: the webhook test creates its own `DiscordNotifier` and sends it a test startup message, a test trade notice and a test completion message, none of which appears in the model. `Launch` takes the universe, `MAX_RISK` and the flags as parameters.
- The `logger.info`/`logger.error` output of every module is not modelled.
