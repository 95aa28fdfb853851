/** The broker collaborator as the core sees it: position and option data it
    answers with, and a log of every call made on it. Its answers are fixed in
    advance by an `Oracle`; `market_sell`'s answer depends on the call's
    position in the log, so any attempt may succeed or fail. */
module Broker {
  import opened Common

  datatype Right = Put | Call

  /** A broker position (`get_positions`); absent numbers are `None`. */
  datatype Position = Position(
    symbol: string, side: string, qty: real,
    avgEntryPrice: Option<real>, currentPrice: Option<real>,
    unrealizedPl: Option<real>, marketValue: Option<real>)

  /** An option contract as listed by `get_options_contracts`. */
  datatype OptionRef = OptionRef(symbol: string, underlying: string)

  /** A market-data snapshot of one contract (`get_option_snapshot`). */
  datatype Quote = Quote(bidPrice: Option<real>, delta: real, openInterest: int)

  /** `models.contract.Contract`: an option with the quote data the strategy uses. */
  datatype Contract = Contract(
    symbol: string, underlying: string, strike: real, dte: int,
    bidPrice: Option<real>, delta: real, openInterest: int)

  /** One entry of the dictionary `update_state` derives from the positions. */
  datatype StateEntry = StateEntry(symbol: string, kind: string, price: real, qty: int)

  /** `market_sell` either fills or raises with the broker's message. */
  datatype SellOutcome = Filled | Rejected(message: string)

  datatype BrokerCall =
    | GetPositions
    | LiquidateAllPositions
    | GetOptionsContracts(symbols: seq<string>, right: Right)
    | GetOptionSnapshot(contractSymbols: seq<string>)
    | MarketSell(contractSymbol: string)

  /** The broker's answers. `sellOutcome(n)` answers a `market_sell` issued as
      call number n (counting from 0) on this client. */
  datatype Oracle = Oracle(
    positions: seq<Position>,
    contracts: (seq<string>, Right) -> seq<OptionRef>,
    snapshots: seq<string> -> map<string, Quote>,
    sellOutcome: nat -> SellOutcome)

  class BrokerClient {
    const oracle: Oracle
    var log: seq<BrokerCall>

    constructor (oracle: Oracle)
      ensures this.oracle == oracle && log == []
    {
      this.oracle := oracle;
      log := [];
    }

    method GetPositions() returns (ps: seq<Position>)
      modifies this
      ensures ps == oracle.positions && log == old(log) + [BrokerCall.GetPositions]
    {
      ps := oracle.positions;
      log := log + [BrokerCall.GetPositions];
    }

    method LiquidateAllPositions()
      modifies this
      ensures log == old(log) + [BrokerCall.LiquidateAllPositions]
    {
      log := log + [BrokerCall.LiquidateAllPositions];
    }

    method GetOptionsContracts(symbols: seq<string>, right: Right) returns (refs: seq<OptionRef>)
      modifies this
      ensures refs == oracle.contracts(symbols, right)
      ensures log == old(log) + [BrokerCall.GetOptionsContracts(symbols, right)]
    {
      refs := oracle.contracts(symbols, right);
      log := log + [BrokerCall.GetOptionsContracts(symbols, right)];
    }

    method GetOptionSnapshot(contractSymbols: seq<string>) returns (quotes: map<string, Quote>)
      modifies this
      ensures quotes == oracle.snapshots(contractSymbols)
      ensures log == old(log) + [BrokerCall.GetOptionSnapshot(contractSymbols)]
    {
      quotes := oracle.snapshots(contractSymbols);
      log := log + [BrokerCall.GetOptionSnapshot(contractSymbols)];
    }

    method MarketSell(contractSymbol: string) returns (outcome: SellOutcome)
      modifies this
      ensures outcome == oracle.sellOutcome(|old(log)|)
      ensures log == old(log) + [BrokerCall.MarketSell(contractSymbol)]
    {
      outcome := oracle.sellOutcome(|log|);
      log := log + [BrokerCall.MarketSell(contractSymbol)];
    }
  }
}
