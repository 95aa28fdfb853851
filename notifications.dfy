/** The notification sink (the Discord webhook wrapper) as a record of what
    was sent: delivery, formatting and the sink's own error handling are not
    part of this model, and sending never fails. */
module Notifications {
  import opened Common
  import opened Broker

  /** A line of `send_position_update`'s positions summary. */
  datatype PositionLine = PositionLine(
    symbol: string, side: string, qty: real,
    purchasePrice: Option<real>, currentPrice: Option<real>, pnl: Option<real>)

  /** `send_scheduler_notification`'s event kinds with the numbers its text shows. */
  datatype SchedulerEvent =
    | Startup(checkIntervalMinutes: int, maxRunsPerDay: int)
    | ExecutionStart(run: int, maxRunsPerDay: int)
    | ExecutionComplete(run: int, maxRunsPerDay: int)
    | Shutdown(runsToday: int)

  datatype Notification =
    | StartupMessage(freshStart: bool, buyingPower: real, allowedSymbols: seq<string>)
    | PositionUpdate(positions: seq<PositionLine>)
    | TradeNotification(tradeType: string, symbol: string, contractSymbol: string,
                        strike: real, premium: Option<real>, dteDays: int)
    | InsufficientFunds(symbol: string, required: real, available: real)
    | ErrorNotification(message: string, context: string)
    | CompletionMessage(summary: Summary)
    | SchedulerNotification(event: SchedulerEvent)

  class Notifier {
    var sent: seq<Notification>

    constructor ()
      ensures sent == []
    {
      sent := [];
    }

    method Send(n: Notification)
      modifies this
      ensures sent == old(sent) + [n]
    {
      sent := sent + [n];
    }
  }
}
