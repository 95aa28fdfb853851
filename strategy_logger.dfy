/** `StrategyLogger`: the in-memory record of one strategy execution and its
    trade accounting. A disabled logger holds an empty record and every call
    on it is a no-op. Writing the record to a file is modelled as appending a
    snapshot of it to `written`. */
module StrategyLog {
  import opened Common
  import opened Text
  import opened Broker

  /** One entry of the `trades` list (its wall-clock timestamp is not modelled). */
  datatype Trade = Trade(
    tradeType: string, symbol: string, contractSymbol: string,
    strike: real, premium: real, expiry: string, quantity: int)

  /** The fields of the record that `_initialize_log` sets up. */
  datatype LogData = LogData(
    freshStart: bool,
    buyingPower: real,
    allowedSymbols: seq<string>,
    filteredSymbols: seq<string>,
    currentPositions: seq<Position>,
    stateDict: seq<StateEntry>,
    putOptions: seq<Contract>,
    callOptions: seq<Contract>,
    soldPuts: seq<Contract>,
    soldCalls: seq<Contract>,
    trades: seq<Trade>,
    summary: Summary)

  const InitialData: LogData :=
    LogData(false, 0.0, [], [], [], [], [], [], [], [], [], ZeroSummary)

  /** The whole logger: `data` is `None` for a disabled logger (its `{}`);
      `written` holds the records `save` wrote, oldest first. */
  datatype LogState = LogState(data: Option<LogData>, written: seq<LogData>)

  function InitialState(enabled: bool): LogState {
    LogState(if enabled then Some(InitialData) else None, [])
  }

  /** One call on the logger. */
  datatype LogEvent =
    | SetFreshStart(freshStart: bool)
    | SetBuyingPower(buyingPower: real)
    | SetAllowedSymbols(symbols: seq<string>)
    | SetFilteredSymbols(symbols: seq<string>)
    | AddCurrentPositions(positions: seq<Position>)
    | AddStateDict(states: seq<StateEntry>)
    | LogPutOptions(options: seq<Contract>)
    | LogCallOptions(options: seq<Contract>)
    | LogSoldPuts(sold: seq<Contract>)
    | LogSoldCall(call: Contract)
    | LogTrade(tradeType: string, symbol: string, contractSymbol: string,
               strike: real, premium: real, expiry: string, quantity: int)
    | Save

  /** Summed quantity of the trades of the given (upper-case) type. */
  function QuantityOf(ts: seq<Trade>, tradeType: string): int {
    if ts == [] then 0
    else QuantityOf(ts[..|ts| - 1], tradeType)
         + (if ts[|ts| - 1].tradeType == tradeType then ts[|ts| - 1].quantity else 0)
  }

  /** Summed premium of all trades. */
  function PremiumOf(ts: seq<Trade>): real {
    if ts == [] then 0.0 else PremiumOf(ts[..|ts| - 1]) + ts[|ts| - 1].premium
  }

  /** The summary agrees with the trades list. */
  predicate Consistent(d: LogData) {
    d.summary == Summary(QuantityOf(d.trades, "PUT"), QuantityOf(d.trades, "CALL"), PremiumOf(d.trades))
  }

  /** A price or P&L as `add_current_positions` records it: a missing or zero
      (falsy) number becomes `None`. */
  function Truthy(x: Option<real>): (r: Option<real>)
    ensures r.Some? <==> x.Some? && x.value != 0.0
    ensures r.Some? ==> r == x
  {
    if x.Some? && x.value != 0.0 then x else None
  }

  /** The dictionary `add_current_positions` builds for one position. */
  function PositionRecord(p: Position): Position {
    p.(avgEntryPrice := Truthy(p.avgEntryPrice), currentPrice := Truthy(p.currentPrice),
       unrealizedPl := Truthy(p.unrealizedPl), marketValue := Truthy(p.marketValue))
  }

  function PositionRecords(ps: seq<Position>): (r: seq<Position>)
    ensures |r| == |ps| && forall i :: 0 <= i < |ps| ==> r[i] == PositionRecord(ps[i])
  {
    seq(|ps|, i requires 0 <= i < |ps| => PositionRecord(ps[i]))
  }

  /** What one call does to the record of an enabled logger. */
  function Step(d: LogData, e: LogEvent): LogData
    requires !e.Save?
  {
    match e
    case SetFreshStart(f) => d.(freshStart := f)
    case SetBuyingPower(bp) => d.(buyingPower := bp)
    case SetAllowedSymbols(s) => d.(allowedSymbols := s)
    case SetFilteredSymbols(s) => d.(filteredSymbols := s)
    case AddCurrentPositions(ps) => d.(currentPositions := PositionRecords(ps))
    case AddStateDict(st) => d.(stateDict := st)
    case LogPutOptions(os) => d.(putOptions := os)
    case LogCallOptions(os) => d.(callOptions := os)
    case LogSoldPuts(sold) => d.(soldPuts := d.soldPuts + sold)
    case LogSoldCall(c) => d.(soldCalls := d.soldCalls + [c])
    case LogTrade(ty, sym, cs, strike, premium, expiry, q) =>
      var t := Upper(ty);
      var s := d.summary;
      var s1 := if t == "PUT" then s.(putsSold := s.putsSold + q)
                else if t == "CALL" then s.(callsSold := s.callsSold + q)
                else s;
      d.(trades := d.trades + [Trade(t, sym, cs, strike, premium, expiry, q)],
         summary := s1.(totalPremium := s1.totalPremium + premium))
  }

  /** What one call does to the logger. */
  function Apply(s: LogState, e: LogEvent): LogState {
    if s.data.None? then s
    else if e.Save? then s.(written := s.written + [s.data.value])
    else s.(data := Some(Step(s.data.value, e)))
  }

  /** A sequence of calls, in order. */
  function ApplyAll(s: LogState, es: seq<LogEvent>): LogState {
    if es == [] then s else Apply(ApplyAll(s, es[..|es| - 1]), es[|es| - 1])
  }

  lemma {:induction false} ApplyAllAppend(s: LogState, a: seq<LogEvent>, b: seq<LogEvent>)
    ensures ApplyAll(s, a + b) == ApplyAll(ApplyAll(s, a), b)
    decreases |b|
  {
    if b == [] {
      assert a + b == a;
    } else {
      assert (a + b)[..|a + b| - 1] == a + b[..|b| - 1];
      ApplyAllAppend(s, a, b[..|b| - 1]);
    }
  }

  lemma ApplyAllSnoc(s: LogState, es: seq<LogEvent>, e: LogEvent)
    ensures ApplyAll(s, es + [e]) == Apply(ApplyAll(s, es), e)
  {
    assert (es + [e])[..|es|] == es;
  }

  lemma ApplyAllOne(s: LogState, e: LogEvent)
    ensures ApplyAll(s, [e]) == Apply(s, e)
  {
    assert [e][..0] == [];
  }

  /** A disabled logger ignores every call, including `save`. */
  lemma {:induction false} DisabledIgnoresAll(s: LogState, es: seq<LogEvent>)
    requires s.data.None?
    ensures ApplyAll(s, es) == s
    decreases |es|
  {
    if es != [] {
      DisabledIgnoresAll(s, es[..|es| - 1]);
    }
  }

  /** Every call keeps the summary consistent with the trades list. */
  lemma StepKeepsConsistent(d: LogData, e: LogEvent)
    requires Consistent(d) && !e.Save?
    ensures Consistent(Step(d, e))
  {
    if e.LogTrade? {
      var d1 := Step(d, e);
      assert d1.trades[..|d1.trades| - 1] == d.trades;
    }
  }

  lemma {:induction false} ApplyAllKeepsConsistent(s: LogState, es: seq<LogEvent>)
    requires s.data.Some? ==> Consistent(s.data.value)
    ensures ApplyAll(s, es).data.Some? <==> s.data.Some?
    ensures ApplyAll(s, es).data.Some? ==> Consistent(ApplyAll(s, es).data.value)
    decreases |es|
  {
    if es != [] {
      ApplyAllKeepsConsistent(s, es[..|es| - 1]);
      var m := ApplyAll(s, es[..|es| - 1]);
      if m.data.Some? && !es[|es| - 1].Save? {
        StepKeepsConsistent(m.data.value, es[|es| - 1]);
      }
    }
  }

  /** `log_trade` appends exactly one trade, with the type upper-cased; it adds
      the quantity to the counter of that type when the type is PUT or CALL
      and to neither otherwise; it adds the premium to the total whatever the
      type. */
  lemma LogTradeAccounting(d: LogData, tradeType: string, symbol: string, contractSymbol: string,
                           strike: real, premium: real, expiry: string, quantity: int)
    requires Consistent(d)
    ensures var d1 := Step(d, LogTrade(tradeType, symbol, contractSymbol, strike, premium, expiry, quantity));
      && d1.trades == d.trades + [Trade(Upper(tradeType), symbol, contractSymbol, strike, premium, expiry, quantity)]
      && d1.summary.putsSold == d.summary.putsSold + (if Upper(tradeType) == "PUT" then quantity else 0)
      && d1.summary.callsSold == d.summary.callsSold + (if Upper(tradeType) == "CALL" then quantity else 0)
      && d1.summary.totalPremium == d.summary.totalPremium + premium
      && QuantityOf(d1.trades, "PUT") + QuantityOf(d1.trades, "CALL")
         == QuantityOf(d.trades, "PUT") + QuantityOf(d.trades, "CALL")
            + (if Upper(tradeType) in {"PUT", "CALL"} then quantity else 0)
  {
    var d1 := Step(d, LogTrade(tradeType, symbol, contractSymbol, strike, premium, expiry, quantity));
    assert d1.trades[..|d1.trades| - 1] == d.trades;
  }

  /** The counters are case-insensitive in the trade type. */
  lemma LogTradeIgnoresCase(d: LogData, tradeType: string, symbol: string, contractSymbol: string,
                            strike: real, premium: real, expiry: string, quantity: int)
    ensures Step(d, LogTrade(Lower(tradeType), symbol, contractSymbol, strike, premium, expiry, quantity))
         == Step(d, LogTrade(tradeType, symbol, contractSymbol, strike, premium, expiry, quantity))
  {
    UpperOfLower(tradeType);
  }

  lemma UpperOfLower(s: string)
    ensures Upper(Lower(s)) == Upper(s)
  {
    assert forall i :: 0 <= i < |s| ==> UpperChar(LowerChar(s[i])) == UpperChar(s[i]);
  }

  class StrategyLogger {
    const enabled: bool
    var data: Option<LogData>
    var written: seq<LogData>

    function State(): LogState
      reads this
    {
      LogState(data, written)
    }

    predicate Valid()
      reads this
    {
      (data.Some? <==> enabled) && (data.Some? ==> Consistent(data.value))
    }

    /** A fresh logger: zero summary and empty lists when enabled, `{}` otherwise. */
    constructor (enabled: bool)
      ensures this.enabled == enabled && State() == InitialState(enabled) && Valid()
    {
      this.enabled := enabled;
      data := if enabled then Some(InitialData) else None;
      written := [];
    }

    method SetFreshStart(freshStart: bool)
      requires Valid()
      modifies this
      ensures Valid() && State() == Apply(old(State()), LogEvent.SetFreshStart(freshStart))
    {
      if enabled {
        data := Some(data.value.(freshStart := freshStart));
      }
    }

    method SetBuyingPower(buyingPower: real)
      requires Valid()
      modifies this
      ensures Valid() && State() == Apply(old(State()), LogEvent.SetBuyingPower(buyingPower))
    {
      if enabled {
        data := Some(data.value.(buyingPower := buyingPower));
      }
    }

    method SetAllowedSymbols(symbols: seq<string>)
      requires Valid()
      modifies this
      ensures Valid() && State() == Apply(old(State()), LogEvent.SetAllowedSymbols(symbols))
    {
      if enabled {
        data := Some(data.value.(allowedSymbols := symbols));
      }
    }

    method SetFilteredSymbols(symbols: seq<string>)
      requires Valid()
      modifies this
      ensures Valid() && State() == Apply(old(State()), LogEvent.SetFilteredSymbols(symbols))
    {
      if enabled {
        data := Some(data.value.(filteredSymbols := symbols));
      }
    }

    method AddCurrentPositions(positions: seq<Position>)
      requires Valid()
      modifies this
      ensures Valid() && State() == Apply(old(State()), LogEvent.AddCurrentPositions(positions))
    {
      if !enabled {
        return;
      }
      var records := [];
      for i := 0 to |positions|
        invariant records == PositionRecords(positions[..i])
      {
        records := records + [PositionRecord(positions[i])];
      }
      assert positions[..|positions|] == positions;
      data := Some(data.value.(currentPositions := records));
    }

    method AddStateDict(states: seq<StateEntry>)
      requires Valid()
      modifies this
      ensures Valid() && State() == Apply(old(State()), LogEvent.AddStateDict(states))
    {
      if enabled {
        data := Some(data.value.(stateDict := states));
      }
    }

    method LogPutOptions(options: seq<Contract>)
      requires Valid()
      modifies this
      ensures Valid() && State() == Apply(old(State()), LogEvent.LogPutOptions(options))
    {
      if enabled {
        data := Some(data.value.(putOptions := options));
      }
    }

    method LogCallOptions(options: seq<Contract>)
      requires Valid()
      modifies this
      ensures Valid() && State() == Apply(old(State()), LogEvent.LogCallOptions(options))
    {
      if enabled {
        data := Some(data.value.(callOptions := options));
      }
    }

    /** Extends the sold-puts list. */
    method LogSoldPuts(sold: seq<Contract>)
      requires Valid()
      modifies this
      ensures Valid() && State() == Apply(old(State()), LogEvent.LogSoldPuts(sold))
      ensures enabled ==> data.value.soldPuts == old(data.value.soldPuts) + sold
    {
      if enabled {
        data := Some(data.value.(soldPuts := data.value.soldPuts + sold));
      }
    }

    /** Appends one sold call. */
    method LogSoldCalls(sold: Contract)
      requires Valid()
      modifies this
      ensures Valid() && State() == Apply(old(State()), LogEvent.LogSoldCall(sold))
      ensures enabled ==> data.value.soldCalls == old(data.value.soldCalls) + [sold]
    {
      if enabled {
        data := Some(data.value.(soldCalls := data.value.soldCalls + [sold]));
      }
    }

    method LogTrade(tradeType: string, symbol: string, contractSymbol: string,
                    strike: real, premium: real, expiry: string, quantity: int)
      requires Valid()
      modifies this
      ensures Valid()
      ensures State() == Apply(old(State()), LogEvent.LogTrade(tradeType, symbol, contractSymbol, strike, premium, expiry, quantity))
    {
      if !enabled {
        return;
      }
      var upper := Upper(tradeType);
      var d := data.value;
      var summary := d.summary;
      d := d.(trades := d.trades + [Trade(upper, symbol, contractSymbol, strike, premium, expiry, quantity)]);
      if upper == "PUT" {
        summary := summary.(putsSold := summary.putsSold + quantity);
      } else if upper == "CALL" {
        summary := summary.(callsSold := summary.callsSold + quantity);
      }
      summary := summary.(totalPremium := summary.totalPremium + premium);
      data := Some(d.(summary := summary));
      StepKeepsConsistent(old(data.value), LogEvent.LogTrade(tradeType, symbol, contractSymbol, strike, premium, expiry, quantity));
    }

    /** Writes the record (a snapshot of it) when enabled. */
    method Save()
      requires Valid()
      modifies this
      ensures Valid() && State() == Apply(old(State()), LogEvent.Save)
    {
      if !enabled {
        return;
      }
      written := written + [data.value];
    }

    /** `get_summary`: the counters of the trades logged so far, zeros when
        disabled. The result is a value, so it cannot alias the record. */
    function GetSummary(): (s: Summary)
      reads this
      requires Valid()
      ensures !enabled ==> s == ZeroSummary
      ensures enabled ==>
                s.putsSold == QuantityOf(data.value.trades, "PUT")
                && s.callsSold == QuantityOf(data.value.trades, "CALL")
                && s.totalPremium == PremiumOf(data.value.trades)
    {
      if enabled then data.value.summary else ZeroSummary
    }
  }
}
