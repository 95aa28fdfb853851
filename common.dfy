/** Values shared by the executor, the cycle and the logger. */
module Common {

  datatype Option<T> = None | Some(value: T)

  /** The Python exception classes the core raises or lets through. */
  datatype ExceptionKind = ValueError | IndexError | TypeError | BrokerError

  /** A raised exception; `message` is its `str(e)`. */
  datatype Exception = Exception(kind: ExceptionKind, message: string)

  /** The summary dictionary `{"puts_sold", "calls_sold", "total_premium"}`. */
  datatype Summary = Summary(putsSold: int, callsSold: int, totalPremium: real)

  const ZeroSummary: Summary := Summary(0, 0, 0.0)
}
