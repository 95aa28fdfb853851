/** The trade executor of `core/execution.py`: `sell_puts`, a greedy budget
    loop over the selected puts, and `sell_calls`, which sells the one
    best-scored covered call. Each method is proved against a function that
    gives its whole effect — the broker calls it makes, the notifications it
    sends, the logger calls it makes, what it adds to the trades summary and
    the exception that escapes, if any. */
module Execution {
  import opened Common
  import opened Text
  import opened Broker
  import opened Notifications
  import opened StrategyLog
  import opened BrokerErrors

  /** The strategy functions (`filter_underlying`, `filter_options`,
      `score_options`, `select_options`) and the two `Contract` constructors,
      which are not part of this model: any functions of these types. */
  datatype Selector = Selector(
    filterUnderlying: (seq<string>, real) -> seq<string>,
    filterOptions: (seq<Contract>, Option<real>) -> seq<Contract>,
    scoreOptions: seq<Contract> -> seq<real>,
    selectOptions: (seq<Contract>, seq<real>) -> seq<Contract>,
    fromSnapshot: (OptionRef, Quote) -> Contract,
    fromContract: OptionRef -> Contract)

  /** What a piece of code did, in order: broker calls, notifications, logger
      calls, puts sold and premium added to the trades summary, and the
      exception that escaped (after which nothing more happens). */
  datatype Effects = Effects(
    calls: seq<BrokerCall>, notes: seq<Notification>, logged: seq<LogEvent>,
    putsSold: int, premium: real, raised: Option<Exception>)

  const NoEffects: Effects := Effects([], [], [], 0, 0.0, None)

  function Raise(e: Exception): Effects {
    NoEffects.(raised := Some(e))
  }

  /** `b` run after `a`, which did not raise. */
  function Extend(a: Effects, b: Effects): Effects {
    Effects(a.calls + b.calls, a.notes + b.notes, a.logged + b.logged,
            a.putsSold + b.putsSold, a.premium + b.premium, b.raised)
  }

  /** `a` then `b`; when `a` raises, `b` does not run. */
  function Then(a: Effects, b: Effects): Effects {
    if a.raised.Some? then a else Extend(a, b)
  }

  lemma ThenAssoc(a: Effects, b: Effects, c: Effects)
    ensures Then(Then(a, b), c) == Then(a, Then(b, c))
  {
    if a.raised.None? && b.raised.None? {
      assert (a.calls + b.calls) + c.calls == a.calls + (b.calls + c.calls);
      assert (a.notes + b.notes) + c.notes == a.notes + (b.notes + c.notes);
      assert (a.logged + b.logged) + c.logged == a.logged + (b.logged + c.logged);
    }
  }

  lemma ThenUnit(a: Effects)
    ensures Then(NoEffects, a) == a && Then(a, NoEffects) == a
  {
    assert a.calls + [] == a.calls && a.notes + [] == a.notes && a.logged + [] == a.logged;
  }

  /** The collaborators' records went from the `0` values to the `1` values by `e`. */
  predicate Recorded(e: Effects, log0: seq<BrokerCall>, log1: seq<BrokerCall>,
                     sent0: seq<Notification>, sent1: seq<Notification>,
                     st0: LogState, st1: LogState)
  {
    log1 == log0 + e.calls && sent1 == sent0 + e.notes && st1 == ApplyAll(st0, e.logged)
  }

  lemma RecordedThen(a: Effects, b: Effects,
                     log0: seq<BrokerCall>, log1: seq<BrokerCall>, log2: seq<BrokerCall>,
                     sent0: seq<Notification>, sent1: seq<Notification>, sent2: seq<Notification>,
                     st0: LogState, st1: LogState, st2: LogState)
    requires a.raised.None?
    requires Recorded(a, log0, log1, sent0, sent1, st0, st1)
    requires Recorded(b, log1, log2, sent1, sent2, st1, st2)
    ensures Recorded(Then(a, b), log0, log2, sent0, sent2, st0, st2)
  {
    ApplyAllAppend(st0, a.logged, b.logged);
    assert log0 + a.calls + b.calls == log0 + (a.calls + b.calls);
    assert sent0 + a.notes + b.notes == sent0 + (a.notes + b.notes);
  }

  /** `trades_summary`, the dictionary the cycle hands to `sell_puts`. */
  class TradesSummary {
    var putsSold: int
    var callsSold: int
    var totalPremium: real

    constructor ()
      ensures putsSold == 0 && callsSold == 0 && totalPremium == 0.0
    {
      putsSold, callsSold, totalPremium := 0, 0, 0.0;
    }

    function Value(): Summary
      reads this
    {
      Summary(putsSold, callsSold, totalPremium)
    }
  }

  /** `p.bid_price or 0`. */
  function BidOrZero(c: Contract): real {
    if c.bidPrice.Some? then c.bidPrice.value else 0.0
  }

  /** The trade notification of a sold contract (`expiry` is its `dte` in days). */
  function TradeNote(tradeType: string, c: Contract): Notification {
    TradeNotification(tradeType, c.underlying, c.symbol, c.strike, c.bidPrice, c.dte)
  }

  /** The exception raised inside the `try` of a sell of `c` made as broker
      call number n: the broker's rejection, or, after a fill, the `TypeError`
      of formatting a missing bid as the trade notice's `${premium:.2f}`. */
  function SellFailure(o: Oracle, n: nat, c: Contract): (r: Option<Exception>)
    ensures r.None? <==> o.sellOutcome(n).Filled? && c.bidPrice.Some?
    ensures o.sellOutcome(n).Rejected? ==> r == Some(Exception(BrokerError, o.sellOutcome(n).message))
    ensures o.sellOutcome(n).Filled? && c.bidPrice.None? ==> r == Some(Exception(TypeError, NoneFormatMessage))
  {
    match o.sellOutcome(n)
    case Rejected(msg) => Some(Exception(BrokerError, msg))
    case Filled => if c.bidPrice.None? then Some(Exception(TypeError, NoneFormatMessage)) else None
  }

  /** A sell counts when it fills and the trade notice can be formatted. */
  predicate SellCounts(o: Oracle, n: nat, c: Contract) {
    o.sellOutcome(n).Filled? && c.bidPrice.Some?
  }

  /** The notice of a put whose sell filled: the trade notice, or the error
      notice of the formatting `TypeError` when it has no bid. */
  function FilledPutNote(p: Contract): Notification {
    if p.bidPrice.Some? then TradeNote("PUT", p)
    else ErrorNotification("Failed to sell put for " + p.underlying + ": " + NoneFormatMessage, "Put Option Execution")
  }

  // ---------------------------------------------------------------------
  // The error handler shared by both sells
  // ---------------------------------------------------------------------

  /** The insufficient-funds branch: one notification with the amounts read
      from the message, or with the fallback amounts when reading them fails
      in a caught way; an uncaught `TypeError` escapes instead. */
  function InsufficientHandling(json: JsonOracle, msg: string, symbol: string, fallbackRequired: real): (e: Effects)
    ensures e.calls == [] && e.logged == [] && e.putsSold == 0 && e.premium == 0.0
    ensures var r := InsufficientAmounts(msg, json);
      && (r.Parsed? ==> e.notes == [InsufficientFunds(symbol, r.required, r.available)] && e.raised.None?)
      && (r.Unparsable? ==> e.notes == [InsufficientFunds(symbol, fallbackRequired, 0.0)] && e.raised.None?)
      && (r.Fault? ==> e.notes == [] && e.raised == Some(r.error))
    ensures e.raised.Some? ==> e.raised.value.kind == TypeError
  {
    match InsufficientAmounts(msg, json)
    case Parsed(q, a) => NoEffects.(notes := [InsufficientFunds(symbol, q, a)])
    case Unparsable => NoEffects.(notes := [InsufficientFunds(symbol, fallbackRequired, 0.0)])
    case Fault(err) => Raise(err)
  }

  method NotifyInsufficient(notifier: Notifier, json: JsonOracle, msg: string, symbol: string,
                            fallbackRequired: real) returns (raised: Option<Exception>)
    modifies notifier
    ensures var e := InsufficientHandling(json, msg, symbol, fallbackRequired);
      notifier.sent == old(notifier.sent) + e.notes && raised == e.raised
  {
    var amounts := InsufficientAmounts(msg, json);
    match amounts
    case Parsed(q, a) =>
      notifier.Send(InsufficientFunds(symbol, q, a));
      raised := None;
    case Unparsable =>
      notifier.Send(InsufficientFunds(symbol, fallbackRequired, 0.0));
      raised := None;
    case Fault(err) =>
      raised := Some(err);
  }

  // ---------------------------------------------------------------------
  // sell_puts
  // ---------------------------------------------------------------------

  /** One iteration of the put loop after the debit: the sell issued as
      broker call number n and what its outcome leads to. A fill on a
      contract with no bid raises in the trade notice, before the counting
      and the log, and is handled like a failed sell. */
  function PutAttempt(o: Oracle, json: JsonOracle, n: nat, p: Contract): (e: Effects)
    ensures e.calls == [BrokerCall.MarketSell(p.symbol)]
    ensures e.putsSold == (if SellCounts(o, n, p) then 1 else 0)
    ensures e.premium == (if SellCounts(o, n, p) then p.bidPrice.value else 0.0)
    ensures SellCounts(o, n, p) ==>
              e.notes == [TradeNote("PUT", p)] && e.logged == [LogEvent.LogSoldPuts([p])] && e.raised.None?
    ensures !SellCounts(o, n, p) ==> e.logged == []
    ensures o.sellOutcome(n).Filled? && p.bidPrice.None? ==>
              && e.notes == [ErrorNotification("Failed to sell put for " + p.underlying + ": " + NoneFormatMessage,
                                               "Put Option Execution")]
              && e.raised.None?
    ensures var out := o.sellOutcome(n);
      out.Rejected? && !IsInsufficientFunds(out.message) ==>
        && e.notes == [ErrorNotification("Failed to sell put for " + p.underlying + ": " + out.message,
                                         "Put Option Execution")]
        && e.raised.None?
    ensures var out := o.sellOutcome(n);
      out.Rejected? && IsInsufficientFunds(out.message) ==>
        var r := InsufficientAmounts(out.message, json);
        && (r.Parsed? ==> e.notes == [InsufficientFunds(p.underlying, r.required, r.available)] && e.raised.None?)
        && (r.Unparsable? ==> e.notes == [InsufficientFunds(p.underlying, 100.0 * p.strike, 0.0)] && e.raised.None?)
        && (r.Fault? ==> e.notes == [] && e.raised == Some(r.error))
  {
    NoneFormatNotInsufficient();
    match SellFailure(o, n, p)
    case None =>
      Effects([BrokerCall.MarketSell(p.symbol)], [TradeNote("PUT", p)], [LogEvent.LogSoldPuts([p])],
              1, BidOrZero(p), None)
    case Some(err) =>
      var msg := err.message;
      var rest :=
        if IsInsufficientFunds(msg) then InsufficientHandling(json, msg, p.underlying, 100.0 * p.strike)
        else NoEffects.(notes := [ErrorNotification("Failed to sell put for " + p.underlying + ": " + msg,
                                                    "Put Option Execution")]);
      rest.(calls := [BrokerCall.MarketSell(p.symbol)])
  }

  /** The loop over the selected puts from budget `bp` on, its sells
      starting at broker call number n: debit first, stop at the first
      overdraft, otherwise attempt and go on. */
  function PutLoop(o: Oracle, json: JsonOracle, n: nat, bp: real, ps: seq<Contract>): Effects
    decreases |ps|
  {
    if ps == [] then NoEffects
    else
      var left := bp - 100.0 * ps[0].strike;
      if left < 0.0 then NoEffects
      else Then(PutAttempt(o, json, n, ps[0]), PutLoop(o, json, n + 1, left, ps[1..]))
  }

  function Symbols(refs: seq<OptionRef>): (r: seq<string>)
    ensures |r| == |refs| && forall i :: 0 <= i < |refs| ==> r[i] == refs[i].symbol
  {
    seq(|refs|, i requires 0 <= i < |refs| => refs[i].symbol)
  }

  /** The contracts built from the listed ones that have a snapshot, in order. */
  function WithSnapshots(f: (OptionRef, Quote) -> Contract, refs: seq<OptionRef>,
                         snaps: map<string, Quote>): (r: seq<Contract>)
    ensures |r| <= |refs|
    ensures forall c :: c in r ==>
              exists j :: 0 <= j < |refs| && refs[j].symbol in snaps && c == f(refs[j], snaps[refs[j].symbol])
    ensures forall j :: 0 <= j < |refs| && refs[j].symbol in snaps ==> f(refs[j], snaps[refs[j].symbol]) in r
  {
    if refs == [] then []
    else
      var rest := WithSnapshots(f, refs[1..], snaps);
      assert forall j :: 1 <= j < |refs| ==> refs[j] == refs[1..][j - 1];
      assert forall c :: c in rest ==>
               exists j :: 0 <= j < |refs| && refs[j].symbol in snaps && c == f(refs[j], snaps[refs[j].symbol])
      by {
        forall c | c in rest
          ensures exists j :: 0 <= j < |refs| && refs[j].symbol in snaps && c == f(refs[j], snaps[refs[j].symbol])
        {
          var j :| 0 <= j < |refs[1..]| && refs[1..][j].symbol in snaps && c == f(refs[1..][j], snaps[refs[1..][j].symbol]);
          assert refs[j + 1] == refs[1..][j];
        }
      }
      if refs[0].symbol in snaps then [f(refs[0], snaps[refs[0].symbol])] + rest else rest
  }

  /** The order is kept: building from two runs of listed contracts is
      building from each run, one after the other. */
  lemma {:induction false} WithSnapshotsAppend(f: (OptionRef, Quote) -> Contract, a: seq<OptionRef>,
                                               b: seq<OptionRef>, snaps: map<string, Quote>)
    ensures WithSnapshots(f, a + b, snaps) == WithSnapshots(f, a, snaps) + WithSnapshots(f, b, snaps)
    decreases |a|
  {
    if a == [] {
      assert a + b == b;
    } else {
      assert (a + b)[0] == a[0] && (a + b)[1..] == a[1..] + b;
      WithSnapshotsAppend(f, a[1..], b, snaps);
    }
  }

  /** When every listed contract has a snapshot, the i-th contract built is
      the one built from the i-th listed. */
  lemma {:induction false} WithSnapshotsAll(f: (OptionRef, Quote) -> Contract, refs: seq<OptionRef>,
                                            snaps: map<string, Quote>)
    requires forall j :: 0 <= j < |refs| ==> refs[j].symbol in snaps
    ensures var r := WithSnapshots(f, refs, snaps);
      |r| == |refs| && forall i :: 0 <= i < |refs| ==> r[i] == f(refs[i], snaps[refs[i].symbol])
    decreases |refs|
  {
    if refs != [] {
      assert forall j :: 0 <= j < |refs[1..]| ==> refs[1..][j] == refs[j + 1];
      WithSnapshotsAll(f, refs[1..], snaps);
    }
  }

  /** The puts `filter_options` keeps from the listed contracts of the
      filtered symbols that have a snapshot. */
  function PutCandidates(sel: Selector, o: Oracle, filtered: seq<string>): seq<Contract> {
    var refs := o.contracts(filtered, Put);
    sel.filterOptions(WithSnapshots(sel.fromSnapshot, refs, o.snapshots(Symbols(refs))), None)
  }

  /** Listing the puts of the filtered symbols, fetching their snapshots and
      logging the candidates. */
  function FetchEffects(sel: Selector, o: Oracle, filtered: seq<string>): Effects {
    var refs := o.contracts(filtered, Put);
    Effects([BrokerCall.GetOptionsContracts(filtered, Put), BrokerCall.GetOptionSnapshot(Symbols(refs))],
            [], [LogEvent.LogPutOptions(PutCandidates(sel, o, filtered))], 0, 0.0, None)
  }

  /** `sell_puts` from the fetch on, its first call being broker call number n. */
  function CandidatesEffects(sel: Selector, json: JsonOracle, o: Oracle, n: nat,
                             filtered: seq<string>, buyingPower: real): Effects
  {
    var puts := PutCandidates(sel, o, filtered);
    if puts == [] then FetchEffects(sel, o, filtered)
    else Then(FetchEffects(sel, o, filtered),
              PutLoop(o, json, n + 2, buyingPower, sel.selectOptions(puts, sel.scoreOptions(puts))))
  }

  /** The whole of `sell_puts` when its sells start at broker call number n. */
  function PutsEffects(sel: Selector, json: JsonOracle, o: Oracle, n: nat,
                       allowed: seq<string>, buyingPower: real): Effects
  {
    if allowed == [] || buyingPower <= 0.0 then NoEffects
    else
      var filtered := sel.filterUnderlying(allowed, buyingPower);
      var logFiltered := NoEffects.(logged := [LogEvent.SetFilteredSymbols(filtered)]);
      if filtered == [] then logFiltered
      else Then(logFiltered, CandidatesEffects(sel, json, o, n, filtered, buyingPower))
  }

  /** One put: sell, then notify, count and log it, or handle what the sell
      or the formatting of its trade notice raised. */
  method SellPut(client: BrokerClient, notifier: Notifier, logger: StrategyLogger, summary: TradesSummary,
                 json: JsonOracle, p: Contract) returns (raised: Option<Exception>)
    requires logger.Valid()
    modifies client, notifier, logger, summary
    ensures logger.Valid()
    ensures var e := PutAttempt(client.oracle, json, |old(client.log)|, p);
      && Recorded(e, old(client.log), client.log, old(notifier.sent), notifier.sent, old(logger.State()), logger.State())
      && summary.putsSold == old(summary.putsSold) + e.putsSold
      && summary.totalPremium == old(summary.totalPremium) + e.premium
      && summary.callsSold == old(summary.callsSold)
      && raised == e.raised
  {
    var outcome := client.MarketSell(p.symbol);
    var failure: Option<Exception> := None;
    match outcome {
      case Filled =>
        if p.bidPrice.None? {
          failure := Some(Exception(TypeError, NoneFormatMessage));
        } else {
          notifier.Send(TradeNote("PUT", p));
          summary.putsSold := summary.putsSold + 1;
          summary.totalPremium := summary.totalPremium + BidOrZero(p);
          logger.LogSoldPuts([p]);
          ApplyAllOne(old(logger.State()), LogEvent.LogSoldPuts([p]));
        }
      case Rejected(msg) =>
        failure := Some(Exception(BrokerError, msg));
    }
    raised := None;
    if failure.Some? {
      var msg := failure.value.message;
      NoneFormatNotInsufficient();
      if IsInsufficientFunds(msg) {
        raised := NotifyInsufficient(notifier, json, msg, p.underlying, 100.0 * p.strike);
      } else {
        notifier.Send(ErrorNotification("Failed to sell put for " + p.underlying + ": " + msg,
                                        "Put Option Execution"));
      }
    }
  }

  /** The put loop as the method runs it, carrying the effects `acc` of the
      turns so far: debit, stop at an overdraft, otherwise attempt, and stop
      when the attempt raises. */
  function PutLoopFrom(acc: Effects, o: Oracle, json: JsonOracle, n: nat, bp: real, ps: seq<Contract>): Effects
    decreases |ps|
  {
    if ps == [] || acc.raised.Some? then acc
    else
      var left := bp - 100.0 * ps[0].strike;
      if left < 0.0 then acc
      else
        var acc' := Extend(acc, PutAttempt(o, json, n, ps[0]));
        if acc'.raised.Some? then acc' else PutLoopFrom(acc', o, json, n + 1, left, ps[1..])
  }

  /** The running form of the loop is the recursive one after what ran before. */
  lemma {:induction false} PutLoopFromThen(acc: Effects, o: Oracle, json: JsonOracle, n: nat, bp: real, ps: seq<Contract>)
    requires acc.raised.None?
    ensures PutLoopFrom(acc, o, json, n, bp, ps) == Then(acc, PutLoop(o, json, n, bp, ps))
    decreases |ps|
  {
    if ps == [] || bp - 100.0 * ps[0].strike < 0.0 {
      ThenUnit(acc);
    } else {
      var left := bp - 100.0 * ps[0].strike;
      var a := PutAttempt(o, json, n, ps[0]);
      var rest := PutLoop(o, json, n + 1, left, ps[1..]);
      ThenAssoc(acc, a, rest);
      if Then(acc, a).raised.None? {
        PutLoopFromThen(Then(acc, a), o, json, n + 1, left, ps[1..]);
      }
    }
  }

  /** One turn of the put loop: the debit of `100 * strike` from `bp`, then,
      unless that overdraws, the attempt to sell `p`. `ps` is what is left of
      the loop with `p` first; `done` are the loop's effects so far, measured
      from the records `log0`, `sent0`, `st0` and the counters `puts0`,
      `premium0`, `calls0`. */
  method PutTurn(client: BrokerClient, notifier: Notifier, logger: StrategyLogger, summary: TradesSummary,
                 json: JsonOracle, p: Contract, bp: real,
                 ghost ps: seq<Contract>, ghost total: Effects, ghost done: Effects,
                 ghost log0: seq<BrokerCall>, ghost sent0: seq<Notification>, ghost st0: LogState,
                 ghost puts0: int, ghost premium0: real, ghost calls0: int)
    returns (bp': real, stop: bool, raised: Option<Exception>, ghost done': Effects)
    requires ps != [] && ps[0] == p && done.raised.None?
    requires PutLoopFrom(done, client.oracle, json, |client.log|, bp, ps) == total
    requires logger.Valid() && Recorded(done, log0, client.log, sent0, notifier.sent, st0, logger.State())
    requires summary.putsSold == puts0 + done.putsSold && summary.totalPremium == premium0 + done.premium
    requires summary.callsSold == calls0
    modifies client, notifier, logger, summary
    ensures logger.Valid() && Recorded(done', log0, client.log, sent0, notifier.sent, st0, logger.State())
    ensures summary.putsSold == puts0 + done'.putsSold && summary.totalPremium == premium0 + done'.premium
    ensures summary.callsSold == calls0
    ensures stop ==> done' == total && raised == total.raised
    ensures !stop ==> raised.None? && done'.raised.None?
                      && PutLoopFrom(done', client.oracle, json, |client.log|, bp', ps[1..]) == total
  {
    bp' := bp - 100.0 * p.strike;
    if bp' < 0.0 {
      return bp', true, None, done;
    }
    ghost var o, n, logBefore, sentBefore, stBefore := client.oracle, |client.log|, client.log, notifier.sent, logger.State();
    raised := SellPut(client, notifier, logger, summary, json, p);
    RecordedThen(done, PutAttempt(o, json, n, p), log0, logBefore, client.log,
                 sent0, sentBefore, notifier.sent, st0, stBefore, logger.State());
    done' := Extend(done, PutAttempt(o, json, n, p));
    stop := raised.Some?;
  }

  /** `sell_puts`. The loop stops early only at an overdraft or when an
      exception escapes the error handler. */
  method SellPuts(client: BrokerClient, allowed: seq<string>, buyingPower: real, sel: Selector, json: JsonOracle,
                  logger: StrategyLogger, notifier: Notifier, summary: TradesSummary)
    returns (raised: Option<Exception>)
    requires logger.Valid()
    modifies client, logger, notifier, summary
    ensures logger.Valid()
    ensures var e := PutsEffects(sel, json, client.oracle, |old(client.log)|, allowed, buyingPower);
      && Recorded(e, old(client.log), client.log, old(notifier.sent), notifier.sent, old(logger.State()), logger.State())
      && summary.putsSold == old(summary.putsSold) + e.putsSold
      && summary.totalPremium == old(summary.totalPremium) + e.premium
      && summary.callsSold == old(summary.callsSold)
      && raised == e.raised
  {
    if allowed == [] || buyingPower <= 0.0 {
      return None;
    }
    var filtered := sel.filterUnderlying(allowed, buyingPower);
    logger.SetFilteredSymbols(filtered);
    ApplyAllOne(old(logger.State()), LogEvent.SetFilteredSymbols(filtered));
    if filtered == [] {
      return None;
    }
    ghost var o, n0, st1 := client.oracle, |client.log|, logger.State();
    raised := SellCandidates(client, filtered, buyingPower, sel, json, logger, notifier, summary);
    RecordedThen(NoEffects.(logged := [LogEvent.SetFilteredSymbols(filtered)]),
                 CandidatesEffects(sel, json, o, n0, filtered, buyingPower),
                 old(client.log), old(client.log), client.log, old(notifier.sent), old(notifier.sent), notifier.sent,
                 old(logger.State()), st1, logger.State());
  }

  /** `sell_puts` once the filtered symbols are known and logged. */
  method SellCandidates(client: BrokerClient, filtered: seq<string>, buyingPower: real, sel: Selector, json: JsonOracle,
                        logger: StrategyLogger, notifier: Notifier, summary: TradesSummary)
    returns (raised: Option<Exception>)
    requires logger.Valid()
    modifies client, logger, notifier, summary
    ensures logger.Valid()
    ensures var e := CandidatesEffects(sel, json, client.oracle, |old(client.log)|, filtered, buyingPower);
      && Recorded(e, old(client.log), client.log, old(notifier.sent), notifier.sent, old(logger.State()), logger.State())
      && summary.putsSold == old(summary.putsSold) + e.putsSold
      && summary.totalPremium == old(summary.totalPremium) + e.premium
      && summary.callsSold == old(summary.callsSold)
      && raised == e.raised
  {
    ghost var o, n0 := client.oracle, |client.log|;
    var puts := FetchPuts(client, filtered, sel, logger);
    if puts == [] {
      return None;
    }
    var chosen := sel.selectOptions(puts, sel.scoreOptions(puts));
    ghost var log1, st1 := client.log, logger.State();
    raised := RunPutLoop(client, notifier, logger, summary, json, buyingPower, chosen);
    PutLoopFromThen(NoEffects, o, json, n0 + 2, buyingPower, chosen);
    ThenUnit(PutLoop(o, json, n0 + 2, buyingPower, chosen));
    RecordedThen(FetchEffects(sel, o, filtered), PutLoop(o, json, n0 + 2, buyingPower, chosen),
                 old(client.log), log1, client.log, old(notifier.sent), old(notifier.sent), notifier.sent,
                 old(logger.State()), st1, logger.State());
  }

  /** The listing and snapshot calls of `sell_puts` and the log of the candidates. */
  method FetchPuts(client: BrokerClient, filtered: seq<string>, sel: Selector, logger: StrategyLogger)
    returns (puts: seq<Contract>)
    requires logger.Valid()
    modifies client, logger
    ensures logger.Valid() && puts == PutCandidates(sel, client.oracle, filtered)
    ensures var e := FetchEffects(sel, client.oracle, filtered);
      client.log == old(client.log) + e.calls && logger.State() == ApplyAll(old(logger.State()), e.logged)
  {
    var refs := client.GetOptionsContracts(filtered, Put);
    var snaps := client.GetOptionSnapshot(Symbols(refs));
    puts := sel.filterOptions(WithSnapshots(sel.fromSnapshot, refs, snaps), None);
    logger.LogPutOptions(puts);
    ApplyAllOne(old(logger.State()), LogEvent.LogPutOptions(puts));
  }

  /** The `for p in put_options` loop of `sell_puts`, from budget `budget`. */
  method RunPutLoop(client: BrokerClient, notifier: Notifier, logger: StrategyLogger, summary: TradesSummary,
                    json: JsonOracle, budget: real, chosen: seq<Contract>) returns (raised: Option<Exception>)
    requires logger.Valid()
    modifies client, logger, notifier, summary
    ensures logger.Valid()
    ensures var e := PutLoopFrom(NoEffects, client.oracle, json, |old(client.log)|, budget, chosen);
      && Recorded(e, old(client.log), client.log, old(notifier.sent), notifier.sent, old(logger.State()), logger.State())
      && summary.putsSold == old(summary.putsSold) + e.putsSold
      && summary.totalPremium == old(summary.totalPremium) + e.premium
      && summary.callsSold == old(summary.callsSold)
      && raised == e.raised
  {
    ghost var o := client.oracle;
    ghost var total := PutLoopFrom(NoEffects, o, json, |client.log|, budget, chosen);
    ghost var done := NoEffects;
    var bp := budget;
    var i := 0;
    raised := None;
    var stop := false;
    while i < |chosen|
      invariant 0 <= i <= |chosen| && done.raised.None? && raised.None?
      invariant client.oracle == o
      invariant PutLoopFrom(done, o, json, |client.log|, bp, chosen[i..]) == total
      invariant Recorded(done, old(client.log), client.log, old(notifier.sent), notifier.sent,
                         old(logger.State()), logger.State())
      invariant logger.Valid()
      invariant summary.putsSold == old(summary.putsSold) + done.putsSold
      invariant summary.totalPremium == old(summary.totalPremium) + done.premium
      invariant summary.callsSold == old(summary.callsSold)
    {
      assert chosen[i..][0] == chosen[i] && chosen[i..][1..] == chosen[i + 1..];
      bp, stop, raised, done := PutTurn(client, notifier, logger, summary, json, chosen[i], bp,
                                        chosen[i..], total, done,
                                        old(client.log), old(notifier.sent), old(logger.State()),
                                        old(summary.putsSold), old(summary.totalPremium), old(summary.callsSold));
      if stop {
        break;
      }
      i := i + 1;
    }
    if !stop {
      assert chosen[i..] == [];
    }
  }

  // ---------------------------------------------------------------------
  // Properties of sell_puts
  // ---------------------------------------------------------------------

  /** Total `100 * strike` of the puts. */
  function Cost(ps: seq<Contract>): real {
    if ps == [] then 0.0 else 100.0 * ps[0].strike + Cost(ps[1..])
  }

  /** How many puts the loop attempts from budget `bp`. */
  function AttemptCount(bp: real, ps: seq<Contract>): (k: nat)
    ensures k <= |ps|
    decreases |ps|
  {
    if ps == [] || bp - 100.0 * ps[0].strike < 0.0 then 0
    else 1 + AttemptCount(bp - 100.0 * ps[0].strike, ps[1..])
  }

  /** The attempted puts are the longest prefix of the selected order every
      prefix of which costs at most the budget: the loop stops at the first
      overdraft, even when a later, cheaper put would fit. */
  lemma {:induction false} AttemptedIsAffordablePrefix(bp: real, ps: seq<Contract>)
    ensures forall j :: 1 <= j <= AttemptCount(bp, ps) ==> Cost(ps[..j]) <= bp
    ensures AttemptCount(bp, ps) < |ps| ==> Cost(ps[..AttemptCount(bp, ps) + 1]) > bp
    decreases |ps|
  {
    if ps != [] {
      var left := bp - 100.0 * ps[0].strike;
      assert Cost(ps[..1]) == 100.0 * ps[0].strike by {
        assert ps[..1][1..] == [];
      }
      if left >= 0.0 {
        AttemptedIsAffordablePrefix(left, ps[1..]);
        forall j | 1 <= j <= |ps|
          ensures Cost(ps[..j]) == 100.0 * ps[0].strike + Cost(ps[1..][..j - 1])
        {
          assert ps[..j][1..] == ps[1..][..j - 1];
        }
      }
    }
  }

  /** The sells `ps` would cause, in order. */
  function Sells(ps: seq<Contract>): seq<BrokerCall> {
    if ps == [] then [] else [BrokerCall.MarketSell(ps[0].symbol)] + Sells(ps[1..])
  }

  /** How many of the puts `ps`, sold from call number n on, count: their
      sell fills and they have a bid. */
  function FilledCount(o: Oracle, n: nat, ps: seq<Contract>): nat
    decreases |ps|
  {
    if ps == [] then 0 else (if SellCounts(o, n, ps[0]) then 1 else 0) + FilledCount(o, n + 1, ps[1..])
  }

  /** The summed bids of the puts `ps`, sold from call number n on, that count. */
  function FilledPremium(o: Oracle, n: nat, ps: seq<Contract>): real
    decreases |ps|
  {
    if ps == [] then 0.0
    else (if SellCounts(o, n, ps[0]) then ps[0].bidPrice.value else 0.0) + FilledPremium(o, n + 1, ps[1..])
  }

  /** What the loop does: it sells the first m attempted puts, one broker call
      each, where m is every affordable put unless an exception escaped; it
      counts one put and its bid for each sell that filled on a contract with
      a bid, and for no other. A failed sell still uses up its budget: which
      puts are attempted does not depend on the outcomes. */
  lemma {:induction false} PutLoopSells(o: Oracle, json: JsonOracle, n: nat, bp: real, ps: seq<Contract>)
    ensures var e := PutLoop(o, json, n, bp, ps);
      && |e.calls| <= AttemptCount(bp, ps)
      && e.calls == Sells(ps[..|e.calls|])
      && (e.raised.None? ==> |e.calls| == AttemptCount(bp, ps))
      && e.putsSold == FilledCount(o, n, ps[..|e.calls|])
      && e.premium == FilledPremium(o, n, ps[..|e.calls|])
    decreases |ps|
  {
    var e := PutLoop(o, json, n, bp, ps);
    if ps == [] || bp - 100.0 * ps[0].strike < 0.0 {
      assert ps[..0] == [];
    } else {
      var left := bp - 100.0 * ps[0].strike;
      var a := PutAttempt(o, json, n, ps[0]);
      var r := PutLoop(o, json, n + 1, left, ps[1..]);
      PutLoopSells(o, json, n + 1, left, ps[1..]);
      var m := |e.calls|;
      if a.raised.Some? {
        assert e == a && m == 1;
        assert ps[..1][1..] == [];
      } else {
        assert m == 1 + |r.calls|;
        assert ps[..m][0] == ps[0] && ps[..m][1..] == ps[1..][..m - 1];
      }
    }
  }

  /** A filled put sell makes one call and raises nothing; it counts when
      the contract has a bid, and its notice is `FilledPutNote`. */
  lemma FilledPutAttempt(o: Oracle, json: JsonOracle, n: nat, p: Contract)
    requires o.sellOutcome(n).Filled?
    ensures var e := PutAttempt(o, json, n, p);
      && e.calls == [BrokerCall.MarketSell(p.symbol)] && e.notes == [FilledPutNote(p)] && e.raised.None?
      && e.putsSold == (if p.bidPrice.Some? then 1 else 0)
  {
  }

  /** The only exception that escapes `sell_puts` is an uncaught `TypeError`
      from reading the amounts of an insufficient-funds message; it is the
      last thing the loop does. */
  lemma {:induction false} PutLoopRaisesOnlyOnTypeFault(o: Oracle, json: JsonOracle, n: nat, bp: real, ps: seq<Contract>)
    ensures var e := PutLoop(o, json, n, bp, ps);
      e.raised.Some? ==>
        && |e.calls| > 0
        && var last := o.sellOutcome(n + |e.calls| - 1);
        && last.Rejected? && IsInsufficientFunds(last.message)
        && InsufficientAmounts(last.message, json).Fault?
        && e.raised.value.kind == TypeError
    decreases |ps|
  {
    if ps != [] && bp - 100.0 * ps[0].strike >= 0.0 {
      var a := PutAttempt(o, json, n, ps[0]);
      var r := PutLoop(o, json, n + 1, bp - 100.0 * ps[0].strike, ps[1..]);
      assert PutLoop(o, json, n, bp, ps) == Then(a, r);
      if a.raised.Some? {
        PutAttemptRaises(o, json, n, ps[0]);
      } else {
        PutLoopRaisesOnlyOnTypeFault(o, json, n + 1, bp - 100.0 * ps[0].strike, ps[1..]);
      }
    }
  }

  /** A single attempt raises only on a rejected insufficient-funds sell
      whose amounts cannot be read without a `TypeError`. */
  lemma PutAttemptRaises(o: Oracle, json: JsonOracle, n: nat, p: Contract)
    requires PutAttempt(o, json, n, p).raised.Some?
    ensures o.sellOutcome(n).Rejected? && IsInsufficientFunds(o.sellOutcome(n).message)
    ensures InsufficientAmounts(o.sellOutcome(n).message, json).Fault?
    ensures PutAttempt(o, json, n, p).raised.value.kind == TypeError
  {
  }

  /** No sell is made without symbols, without a positive budget, or when the
      underlying filter keeps no symbol. */
  lemma NoSellWithoutCandidates(sel: Selector, json: JsonOracle, o: Oracle, n: nat,
                                allowed: seq<string>, buyingPower: real)
    ensures allowed == [] || buyingPower <= 0.0 ==> PutsEffects(sel, json, o, n, allowed, buyingPower) == NoEffects
    ensures allowed != [] && buyingPower > 0.0 && sel.filterUnderlying(allowed, buyingPower) == [] ==>
              PutsEffects(sel, json, o, n, allowed, buyingPower).calls == []
  {
  }

  /** Three puts with strikes 50, 30 and 20: a budget of 10000 covers all
      three sells; 9900 stops the loop before the third (5000 + 3000 + 2000 >
      9900). With strikes 50, 80, 10 and a budget of 10000, only the first is
      attempted, although the third would fit after it. */
  lemma BudgetExamples(a: Contract, b: Contract, c: Contract)
    requires a.strike == 50.0 && b.strike == 30.0 && c.strike == 20.0
    ensures AttemptCount(10000.0, [a, b, c]) == 3
    ensures AttemptCount(9900.0, [a, b, c]) == 2
    ensures AttemptCount(10000.0, [a, b.(strike := 80.0), c.(strike := 10.0)]) == 1
  {
    assert [a, b, c][1..] == [b, c] && [b, c][1..] == [c] && [c][1..] == [];
    assert AttemptCount(2000.0, [c]) == 1 + AttemptCount(0.0, []);
    assert AttemptCount(5000.0, [b, c]) == 1 + AttemptCount(2000.0, [c]);
    assert AttemptCount(10000.0, [a, b, c]) == 1 + AttemptCount(5000.0, [b, c]);
    assert AttemptCount(1900.0, [c]) == 0;
    assert AttemptCount(4900.0, [b, c]) == 1 + AttemptCount(1900.0, [c]);
    assert AttemptCount(9900.0, [a, b, c]) == 1 + AttemptCount(4900.0, [b, c]);
    var b', c' := b.(strike := 80.0), c.(strike := 10.0);
    assert [a, b', c'][1..] == [b', c'];
    assert AttemptCount(5000.0, [b', c']) == 0;
  }

  /** When the second of three sells fails for lack of buying power on a
      plain message, the loop goes on to the third; only the two that filled
      can count (each when it has a bid), and the notice carries the amounts
      read from the message or, when they cannot be read, 100 times the
      strike and 0. */
  lemma InsufficientFundsContinues(o: Oracle, json: JsonOracle, n: nat, a: Contract, b: Contract, c: Contract)
    requires a.strike == 50.0 && b.strike == 30.0 && c.strike == 20.0
    requires o.sellOutcome(n).Filled? && o.sellOutcome(n + 2).Filled?
    requires o.sellOutcome(n + 1).Rejected? && IsInsufficientFunds(o.sellOutcome(n + 1).message)
    requires !StartsWith(o.sellOutcome(n + 1).message, JsonPrefix)
    ensures var e := PutLoop(o, json, n, 10000.0, [a, b, c]);
      var r := InsufficientAmounts(o.sellOutcome(n + 1).message, json);
      && e.calls == [BrokerCall.MarketSell(a.symbol), BrokerCall.MarketSell(b.symbol), BrokerCall.MarketSell(c.symbol)]
      && e.putsSold == (if a.bidPrice.Some? then 1 else 0) + (if c.bidPrice.Some? then 1 else 0)
      && e.raised.None?
      && e.notes == [FilledPutNote(a),
                     if r.Parsed? then InsufficientFunds(b.underlying, r.required, r.available)
                     else InsufficientFunds(b.underlying, 3000.0, 0.0),
                     FilledPutNote(c)]
  {
    var a1, a2, a3 := PutAttempt(o, json, n, a), PutAttempt(o, json, n + 1, b), PutAttempt(o, json, n + 2, c);
    var r := InsufficientAmounts(o.sellOutcome(n + 1).message, json);
    var note := if r.Parsed? then InsufficientFunds(b.underlying, r.required, r.available)
                else InsufficientFunds(b.underlying, 3000.0, 0.0);
    FilledPutAttempt(o, json, n, a);
    FilledPutAttempt(o, json, n + 2, c);
    assert a2.notes == [note] && a2.raised.None? && a2.putsSold == 0 by {
      assert !r.Fault?;
    }
    PutLoopThree(o, json, n, a, b, c);
    assert [FilledPutNote(a)] + ([note] + [FilledPutNote(c)]) == [FilledPutNote(a), note, FilledPutNote(c)];
  }

  /** Strikes 50, 30 and 20 within a budget of 10000, the first two attempts
      raising nothing: the loop runs the three attempts one after the other. */
  lemma PutLoopThree(o: Oracle, json: JsonOracle, n: nat, a: Contract, b: Contract, c: Contract)
    requires a.strike == 50.0 && b.strike == 30.0 && c.strike == 20.0
    requires PutAttempt(o, json, n, a).raised.None? && PutAttempt(o, json, n + 1, b).raised.None?
    ensures PutLoop(o, json, n, 10000.0, [a, b, c])
              == Extend(PutAttempt(o, json, n, a), Extend(PutAttempt(o, json, n + 1, b), PutAttempt(o, json, n + 2, c)))
  {
    assert [a, b, c][1..] == [b, c] && [b, c][1..] == [c] && [c][1..] == [];
    var a3 := PutAttempt(o, json, n + 2, c);
    assert PutLoop(o, json, n + 2, 2000.0, [c]) == a3 by {
      assert PutLoop(o, json, n + 2, 2000.0, [c]) == Then(a3, PutLoop(o, json, n + 3, 0.0, []));
      ThenUnit(a3);
    }
  }

  // ---------------------------------------------------------------------
  // sell_calls
  // ---------------------------------------------------------------------

  /** `np.argmax`: the first index of a maximal score. */
  function Argmax(s: seq<real>): (k: nat)
    requires |s| > 0
    ensures k < |s|
    ensures forall j :: 0 <= j < |s| ==> s[j] <= s[k]
    ensures forall j :: 0 <= j < k ==> s[j] < s[k]
  {
    if |s| == 1 then 0
    else
      var k := Argmax(s[..|s| - 1]);
      if s[|s| - 1] > s[k] then |s| - 1 else k
  }

  function ShortSharesMessage(symbol: string, qty: int): string {
    "Not enough shares of " + symbol + " to cover short calls!  Only " + IntToDecimal(qty)
    + " shares are held and at least 100 are needed!"
  }

  const EmptyArgmaxMessage: string := "attempt to get argmax of an empty sequence"
  const IndexErrorMessage: string := "list index out of range"

  /** The candidate calls of `symbol` bought at `price`. */
  function CallCandidates(sel: Selector, o: Oracle, symbol: string, price: real): seq<Contract> {
    var refs := o.contracts([symbol], Call);
    sel.filterOptions(seq(|refs|, i requires 0 <= i < |refs| => sel.fromContract(refs[i])), Some(price))
  }

  /** Selling the chosen call as broker call number n. */
  function CallAttempt(o: Oracle, json: JsonOracle, n: nat, symbol: string, c: Contract): (e: Effects)
    ensures e.calls == [BrokerCall.MarketSell(c.symbol)] && e.putsSold == 0 && e.premium == 0.0
    ensures SellCounts(o, n, c) ==>
              e.notes == [TradeNote("CALL", c)] && e.logged == [LogEvent.LogSoldCall(c)] && e.raised.None?
    ensures !SellCounts(o, n, c) ==> e.logged == []
    ensures o.sellOutcome(n).Filled? && c.bidPrice.None? ==>
              && e.notes == [ErrorNotification("Failed to sell call for " + symbol + ": " + NoneFormatMessage,
                                               "Call Option Execution")]
              && e.raised == Some(Exception(TypeError, NoneFormatMessage))
    ensures var out := o.sellOutcome(n);
      out.Rejected? && !IsInsufficientFunds(out.message) ==>
        && e.notes == [ErrorNotification("Failed to sell call for " + symbol + ": " + out.message,
                                         "Call Option Execution")]
        && e.raised == Some(Exception(BrokerError, out.message))
    ensures var out := o.sellOutcome(n);
      out.Rejected? && IsInsufficientFunds(out.message) ==>
        var r := InsufficientAmounts(out.message, json);
        && (r.Parsed? ==> e.notes == [InsufficientFunds(symbol, r.required, r.available)] && e.raised.None?)
        && (r.Unparsable? ==> e.notes == [InsufficientFunds(symbol, 0.0, 0.0)] && e.raised.None?)
        && (r.Fault? ==> e.notes == [] && e.raised == Some(r.error))
  {
    NoneFormatNotInsufficient();
    match SellFailure(o, n, c)
    case None =>
      Effects([BrokerCall.MarketSell(c.symbol)], [TradeNote("CALL", c)], [LogEvent.LogSoldCall(c)], 0, 0.0, None)
    case Some(err) =>
      var msg := err.message;
      var rest :=
        if IsInsufficientFunds(msg) then InsufficientHandling(json, msg, symbol, 0.0)
        else Effects([], [ErrorNotification("Failed to sell call for " + symbol + ": " + msg, "Call Option Execution")],
                     [], 0, 0.0, Some(err));
      rest.(calls := [BrokerCall.MarketSell(c.symbol)])
  }

  /** The whole of `sell_calls` when its first broker call is number n. */
  function CallEffects(sel: Selector, json: JsonOracle, o: Oracle, n: nat,
                       symbol: string, price: real, qty: int): Effects
  {
    if qty < 100 then
      var msg := ShortSharesMessage(symbol, qty);
      Effects([], [ErrorNotification(msg, "Insufficient shares for " + symbol)], [], 0, 0.0,
              Some(Exception(ValueError, msg)))
    else
      var cands := CallCandidates(sel, o, symbol, price);
      var head := Effects([BrokerCall.GetOptionsContracts([symbol], Call)], [], [LogEvent.LogCallOptions(cands)],
                          0, 0.0, None);
      if cands == [] then head
      else
        var scores := sel.scoreOptions(cands);
        if scores == [] then Then(head, Raise(Exception(ValueError, EmptyArgmaxMessage)))
        else if Argmax(scores) >= |cands| then Then(head, Raise(Exception(IndexError, IndexErrorMessage)))
        else Then(head, CallAttempt(o, json, n + 1, symbol, cands[Argmax(scores)]))
  }

  method SellCall(client: BrokerClient, notifier: Notifier, logger: StrategyLogger,
                  json: JsonOracle, symbol: string, c: Contract) returns (raised: Option<Exception>)
    requires logger.Valid()
    modifies client, notifier, logger
    ensures logger.Valid()
    ensures var e := CallAttempt(client.oracle, json, |old(client.log)|, symbol, c);
      Recorded(e, old(client.log), client.log, old(notifier.sent), notifier.sent, old(logger.State()), logger.State())
      && raised == e.raised
  {
    var outcome := client.MarketSell(c.symbol);
    var failure: Option<Exception> := None;
    match outcome {
      case Filled =>
        if c.bidPrice.None? {
          failure := Some(Exception(TypeError, NoneFormatMessage));
        } else {
          notifier.Send(TradeNote("CALL", c));
          logger.LogSoldCalls(c);
          ApplyAllOne(old(logger.State()), LogEvent.LogSoldCall(c));
        }
      case Rejected(msg) =>
        failure := Some(Exception(BrokerError, msg));
    }
    raised := None;
    if failure.Some? {
      var msg := failure.value.message;
      NoneFormatNotInsufficient();
      if IsInsufficientFunds(msg) {
        raised := NotifyInsufficient(notifier, json, msg, symbol, 0.0);
      } else {
        notifier.Send(ErrorNotification("Failed to sell call for " + symbol + ": " + msg, "Call Option Execution"));
        raised := failure;
      }
    }
  }

  /** `sell_calls`. */
  method SellCalls(client: BrokerClient, symbol: string, purchasePrice: real, stockQty: int, sel: Selector,
                   json: JsonOracle, logger: StrategyLogger, notifier: Notifier)
    returns (raised: Option<Exception>)
    requires logger.Valid()
    modifies client, logger, notifier
    ensures logger.Valid()
    ensures var e := CallEffects(sel, json, client.oracle, |old(client.log)|, symbol, purchasePrice, stockQty);
      Recorded(e, old(client.log), client.log, old(notifier.sent), notifier.sent, old(logger.State()), logger.State())
      && e.putsSold == 0 && e.premium == 0.0
      && raised == e.raised
  {
    if stockQty < 100 {
      var msg := ShortSharesMessage(symbol, stockQty);
      notifier.Send(ErrorNotification(msg, "Insufficient shares for " + symbol));
      return Some(Exception(ValueError, msg));
    }
    var refs := client.GetOptionsContracts([symbol], Call);
    var calls := sel.filterOptions(seq(|refs|, i requires 0 <= i < |refs| => sel.fromContract(refs[i])),
                                   Some(purchasePrice));
    logger.LogCallOptions(calls);
    ApplyAllOne(old(logger.State()), LogEvent.LogCallOptions(calls));
    ghost var head := Effects([BrokerCall.GetOptionsContracts([symbol], Call)], [], [LogEvent.LogCallOptions(calls)],
                              0, 0.0, None);
    assert Recorded(head, old(client.log), client.log, old(notifier.sent), notifier.sent,
                    old(logger.State()), logger.State());
    if calls == [] {
      return None;
    }
    var scores := sel.scoreOptions(calls);
    if scores == [] {
      ThenUnit(head);
      return Some(Exception(ValueError, EmptyArgmaxMessage));
    }
    var k := Argmax(scores);
    if k >= |calls| {
      ThenUnit(head);
      return Some(Exception(IndexError, IndexErrorMessage));
    }
    ghost var log1, sent1, st1 := client.log, notifier.sent, logger.State();
    raised := SellCall(client, notifier, logger, json, symbol, calls[k]);
    RecordedThen(head, CallAttempt(client.oracle, json, |log1|, symbol, calls[k]),
                 old(client.log), log1, client.log, old(notifier.sent), sent1, notifier.sent,
                 old(logger.State()), st1, logger.State());
  }

  // ---------------------------------------------------------------------
  // Properties of sell_calls
  // ---------------------------------------------------------------------

  /** Fewer than 100 shares: a `ValueError` before any broker call, with one
      error notification. */
  lemma {:induction false} ShortSharesRaise(sel: Selector, json: JsonOracle, o: Oracle, n: nat,
                                            symbol: string, price: real, qty: int)
    requires qty < 100
    ensures var e := CallEffects(sel, json, o, n, symbol, price, qty);
      && e.calls == [] && e.raised == Some(Exception(ValueError, ShortSharesMessage(symbol, qty)))
      && e.notes == [ErrorNotification(ShortSharesMessage(symbol, qty), "Insufficient shares for " + symbol)]
  {
  }

  /** When `sell_calls` sells, it sells one contract, the first candidate with
      a maximal score, after its one listing call. */
  lemma SellsFirstBestCall(sel: Selector, json: JsonOracle, o: Oracle, n: nat,
                           symbol: string, price: real, qty: int)
    ensures var e := CallEffects(sel, json, o, n, symbol, price, qty);
      var cands := CallCandidates(sel, o, symbol, price);
      var scores := sel.scoreOptions(cands);
      (exists i :: 0 <= i < |e.calls| && e.calls[i].MarketSell?) ==>
        && |e.calls| == 2 && e.calls[0] == BrokerCall.GetOptionsContracts([symbol], Call)
        && exists k :: (0 <= k < |cands| && k < |scores| && e.calls[1] == BrokerCall.MarketSell(cands[k].symbol)
                        && (forall j :: 0 <= j < |scores| ==> scores[j] <= scores[k])
                        && (forall j :: 0 <= j < k ==> scores[j] < scores[k]))
  {
    var e := CallEffects(sel, json, o, n, symbol, price, qty);
    var cands := CallCandidates(sel, o, symbol, price);
    var scores := sel.scoreOptions(cands);
    if qty >= 100 && cands != [] && scores != [] && Argmax(scores) < |cands| {
      var k := Argmax(scores);
      assert e.calls[1] == BrokerCall.MarketSell(cands[k].symbol);
    }
  }

  /** The error policy of `sell_calls`: an exception escapes exactly when the
      shares do not cover a contract, when `np.argmax` or the indexing fails,
      when the sell fails for any reason but insufficient buying power, when a
      filled call has no bid to format in its notice, or when
      reading the amounts raises the uncaught `TypeError`. Insufficient buying
      power is otherwise notified and swallowed, and no candidate means no
      sale and no error. */
  lemma CallErrorPolicy(sel: Selector, json: JsonOracle, o: Oracle, n: nat,
                        symbol: string, price: real, qty: int)
    ensures var e := CallEffects(sel, json, o, n, symbol, price, qty);
      var cands := CallCandidates(sel, o, symbol, price);
      var scores := sel.scoreOptions(cands);
      var out := o.sellOutcome(n + 1);
      && (qty >= 100 && cands == [] ==> e.raised.None? && |e.calls| == 1)
      && (e.raised.Some? <==>
            || qty < 100
            || (cands != [] && (scores == [] || Argmax(scores) >= |cands|
                 || (out.Filled? && cands[Argmax(scores)].bidPrice.None?)
                 || (out.Rejected? && (!IsInsufficientFunds(out.message)
                                       || InsufficientAmounts(out.message, json).Fault?)))))
      && (qty >= 100 && cands != [] && scores != [] && Argmax(scores) < |cands|
          && out.Rejected? && IsInsufficientFunds(out.message) ==>
            var r := InsufficientAmounts(out.message, json);
            && (r.Parsed? ==> e.notes == [InsufficientFunds(symbol, r.required, r.available)])
            && (r.Unparsable? ==> e.notes == [InsufficientFunds(symbol, 0.0, 0.0)]))
  {
  }
}
