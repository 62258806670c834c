/** Failure-compatible wrappers shared by every module of the model. */
module Wrappers {

  /** JavaScript's `undefined`/`null` versus a present value. */
  datatype Option<+T> = None | Some(value: T)

  /**
   * The outcome of evaluating JavaScript code that may throw: either it
   * returns a value or it raises (a TypeError from dereferencing
   * `undefined`, a failed `JSON.parse`, a failed `readdirSync`, ...).
   */
  datatype Eval<+T> = Returns(value: T) | Throws

  /** The severity of a line written to the log or to the summary. */
  datatype Level = Info | Success | Warning | Failure | Error | Alert

  /** One formatted log or summary line. */
  datatype LogEntry = LogEntry(level: Level, message: string)
}
