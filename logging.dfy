/**
 * What a check leaves behind: the lines it logged, in order, and whether
 * it ended by throwing. Debug lines, which depend on the verbosity, are
 * not recorded.
 */
module Logging {
  import opened Wrappers

  datatype CheckRun = CheckRun(log: seq<LogEntry>, threw: bool)

  /** A check that logs `log` and returns normally. */
  function Completed(log: seq<LogEntry>): (run: CheckRun)
    ensures !run.threw && run.log == log
  {
    CheckRun(log, false)
  }

  /**
   * `runCatching(fn)(...)` (src/utils/helpers.ts:3-18): the lines the
   * check logged before it threw are kept, and the exception becomes one
   * error line naming the function; nothing propagates to the caller.
   */
  function RunCatching(name: string, run: CheckRun): (log: seq<LogEntry>)
    ensures run.log <= log
    ensures !run.threw ==> log == run.log
    ensures run.threw ==> |log| == |run.log| + 1 && log[|run.log|] == LogEntry(Error, "An error occurred in function " + name + ":")
  {
    if run.threw then run.log + [LogEntry(Error, "An error occurred in function " + name + ":")] else run.log
  }

  /** Two steps of one check, the second only reached when the first returns. */
  function AndThen(first: CheckRun, second: CheckRun): (run: CheckRun)
    ensures first.threw ==> run == first
    ensures !first.threw ==> run.log == first.log + second.log && run.threw == second.threw
  {
    if first.threw then first else CheckRun(first.log + second.log, second.threw)
  }

  /**
   * One check per item, awaited in turn with nothing around it to catch:
   * the first check that throws ends the sequence.
   */
  function RunEach<T>(items: seq<T>, check: T -> CheckRun, n: nat): CheckRun
    requires n <= |items|
  {
    if n == 0 then Completed([]) else AndThen(RunEach(items, check, n - 1), check(items[n - 1]))
  }

  /** The sequence throws exactly when the check of some item throws. */
  lemma {:induction false} RunEachThrows<T>(items: seq<T>, check: T -> CheckRun, n: nat)
    requires n <= |items|
    ensures RunEach(items, check, n).threw <==> exists i | 0 <= i < n :: check(items[i]).threw
  {
    if n > 0 {
      RunEachThrows(items, check, n - 1);
    }
  }

  /** An item whose check throws ends the sequence: later items are not examined. */
  lemma {:induction false} RunEachStopsAtThrow<T>(items: seq<T>, check: T -> CheckRun, i: nat, n: nat)
    requires i <= n <= |items| && RunEach(items, check, i).threw
    ensures RunEach(items, check, n) == RunEach(items, check, i)
    decreases n - i
  {
    if i < n {
      RunEachStopsAtThrow(items, check, i, n - 1);
    }
  }

  /**
   * A project's `summary`: an append-only list of formatted lines, printed
   * after all checks have run.
   */
  class SummaryLog {
    var entries: seq<LogEntry>

    constructor()
      ensures entries == []
    {
      entries := [];
    }

    /** `summary.push(entry)`. */
    method Push(entry: LogEntry)
      modifies this
      ensures entries == old(entries) + [entry]
    {
      entries := entries + [entry];
    }
  }
}
