/**
 * The error telemetry buffer of `error-logger.ts`: `logError` builds a record
 * and appends it to the in-memory `ERROR_LOG_QUEUE`; the buffer is flushed to
 * the remote `error_logs` table when it reaches `MAX_QUEUE_SIZE` records, and
 * otherwise a single flush timer (`flushTimer`) is scheduled if none is pending.
 * A flush that fails puts its records back at the front of the buffer.
 *
 * The timer is modelled by whether it is pending; the remote insert by the
 * outcome it reports. The records the table has accepted are kept in a field
 * so that "no record is lost" can be stated.
 */
module ErrorLogger {
  import opened Wrappers

  /** `MAX_QUEUE_SIZE` */
  const MaxQueueSize: nat := 50

  /** The failure kinds of the application's error taxonomy. */
  datatype ErrorType = Network | Timeout | Backend | Validation | Unknown

  /** `ErrorSeverity` */
  datatype Severity = Info | Warning | Error | Critical

  /** A value in a `details` record. */
  datatype Detail = Null | Flag(b: bool) | Number(n: int) | Text(s: string)

  /** An `AppError` as handed to `logError`. */
  datatype AppError = AppError(
    kind: ErrorType, severity: Severity, message: string, userMessage: string,
    code: Option<string>, details: Option<map<string, Detail>>, timestamp: string, stack: Option<string>)

  /** The `navigator.userAgent` and `window.location.href` read when a record is built. */
  datatype Environment = Environment(userAgent: string, url: string)

  /** An `ErrorLog`: the error's fields, the merged details and the environment. */
  datatype ErrorLog = ErrorLog(
    kind: ErrorType, severity: Severity, message: string, userMessage: string,
    code: Option<string>, details: map<string, Detail>, timestamp: string, stack: Option<string>,
    userAgent: string, url: string)

  /** What the batch insert reports: accepted, an `error` in its result, or an exception. */
  datatype WriteOutcome = Accepted | InsertError | Exception

  /** `{ ...base, ...context }`, where a missing record spreads nothing. */
  function MergeDetails(base: Option<map<string, Detail>>, context: Option<map<string, Detail>>): (d: map<string, Detail>)
    ensures context.Some? ==> forall k :: k in context.value ==> k in d && d[k] == context.value[k]
    ensures base.Some? ==> forall k :: k in base.value && (context.None? || k !in context.value) ==> k in d && d[k] == base.value[k]
    ensures forall k :: k in d ==> (base.Some? && k in base.value) || (context.Some? && k in context.value)
  {
    var b := if base.Some? then base.value else map[];
    var c := if context.Some? then context.value else map[];
    b + c
  }

  /** The record `logError(error, additionalContext)` builds. */
  function BuildLog(e: AppError, context: Option<map<string, Detail>>, env: Environment): (r: ErrorLog)
    ensures r.kind == e.kind && r.severity == e.severity && r.message == e.message
    ensures r.userMessage == e.userMessage && r.code == e.code && r.timestamp == e.timestamp && r.stack == e.stack
    ensures r.details == MergeDetails(e.details, context)
    ensures r.userAgent == env.userAgent && r.url == env.url
  {
    ErrorLog(e.kind, e.severity, e.message, e.userMessage, e.code,
             MergeDetails(e.details, context), e.timestamp, e.stack, env.userAgent, env.url)
  }

  /** `shouldLogToConsole(severity)` */
  function ShouldLogToConsole(s: Severity): bool
  {
    s == Error || s == Critical
  }

  /** How serious a severity is. */
  function Rank(s: Severity): nat
  {
    match s
    case Info => 0
    case Warning => 1
    case Error => 2
    case Critical => 3
  }

  /** Records are echoed to the console exactly at or above the `ERROR` level. */
  lemma ConsoleThreshold(s: Severity)
    ensures ShouldLogToConsole(s) <==> Rank(s) >= Rank(Error)
  {
  }

  /** `buffer.unshift(...batch)`: the batch goes back in front, in its own order. */
  function Requeue(batch: seq<ErrorLog>, buffer: seq<ErrorLog>): (r: seq<ErrorLog>)
    ensures |r| == |batch| + |buffer|
    ensures r[..|batch|] == batch && r[|batch|..] == buffer
  {
    batch + buffer
  }

  class ErrorLogQueue {
    /** `ERROR_LOG_QUEUE` */
    var buffer: seq<ErrorLog>
    /** `flushTimer !== null` */
    var timerPending: bool
    /** The rows the remote `error_logs` table has accepted, in insert order. */
    var table: seq<ErrorLog>

    /** A pending timer always has records to flush. */
    ghost predicate Valid()
      reads this
    {
      timerPending ==> buffer != []
    }

    constructor ()
      ensures Valid() && buffer == [] && !timerPending && table == []
    {
      buffer, timerPending, table := [], false, [];
    }

    /** `getQueuedErrorCount()` */
    method GetQueuedErrorCount() returns (n: nat)
      ensures n == |buffer|
    {
      n := |buffer|;
    }

    /**
     * `flushErrorLogs()`: take every buffered record, clear the timer, insert
     * the batch; on failure put the batch back in front. Returns the batch sent.
     */
    method FlushErrorLogs(write: WriteOutcome) returns (sent: seq<ErrorLog>)
      requires Valid()
      modifies this
      ensures Valid()
      ensures old(buffer) == [] ==>
        sent == [] && buffer == [] && timerPending == old(timerPending) && table == old(table)
      ensures old(buffer) != [] ==> sent == old(buffer) && !timerPending
      ensures old(buffer) != [] && write == Accepted ==> buffer == [] && table == old(table) + sent
      ensures old(buffer) != [] && write != Accepted ==> buffer == old(buffer) && table == old(table)
      ensures table + buffer == old(table) + old(buffer)
    {
      if |buffer| == 0 {
        return [];
      }
      var logsToFlush := buffer;
      buffer := [];
      if timerPending {
        timerPending := false;
      }
      sent := logsToFlush;
      if write == Accepted {
        table := table + logsToFlush;
      } else {
        buffer := Requeue(logsToFlush, buffer);
      }
    }

    /**
     * `logError(error, additionalContext)`: append the record, then flush at the
     * cap or schedule the timer if none is pending. `echoed` tells whether the
     * record goes to the console, `scheduled` whether a new timer was set.
     */
    method LogError(e: AppError, context: Option<map<string, Detail>>, env: Environment, write: WriteOutcome)
      returns (echoed: bool, scheduled: bool)
      requires Valid()
      modifies this
      ensures Valid()
      ensures echoed == ShouldLogToConsole(e.severity)
      ensures var pushed := old(buffer) + [BuildLog(e, context, env)];
        if |pushed| >= MaxQueueSize then
          !scheduled && !timerPending &&
          (write == Accepted ==> buffer == [] && table == old(table) + pushed) &&
          (write != Accepted ==> buffer == pushed && table == old(table))
        else
          scheduled == !old(timerPending) && timerPending && buffer == pushed && table == old(table)
      ensures table + buffer == old(table) + old(buffer) + [BuildLog(e, context, env)]
      ensures |buffer| < MaxQueueSize || write != Accepted
    {
      var log := BuildLog(e, context, env);
      echoed := ShouldLogToConsole(e.severity);
      buffer := buffer + [log];
      scheduled := false;
      if |buffer| >= MaxQueueSize {
        var _ := FlushErrorLogs(write);
      } else if !timerPending {
        timerPending := true;
        scheduled := true;
      }
    }

    /** The pending timer fires and runs `flushErrorLogs()`. */
    method OnFlushTimer(write: WriteOutcome) returns (sent: seq<ErrorLog>)
      requires Valid() && timerPending
      modifies this
      ensures Valid() && !timerPending
      ensures sent == old(buffer) && sent != []
      ensures write == Accepted ==> buffer == [] && table == old(table) + sent
      ensures write != Accepted ==> buffer == old(buffer) && table == old(table)
    {
      sent := FlushErrorLogs(write);
    }
  }

  /**
   * Fifty records logged into a fresh buffer while every insert succeeds: the
   * fiftieth call flushes at once, leaving the buffer empty and the table
   * holding all fifty records in logging order.
   */
  method FiftiethRecordFlushes(records: seq<AppError>, env: Environment) returns (q: ErrorLogQueue)
    requires |records| == MaxQueueSize
    ensures fresh(q) && q.buffer == [] && !q.timerPending
    ensures |q.table| == MaxQueueSize
    ensures forall i :: 0 <= i < MaxQueueSize ==> q.table[i] == BuildLog(records[i], None, env)
  {
    q := new ErrorLogQueue();
    var i := 0;
    while i < MaxQueueSize - 1
      invariant 0 <= i <= MaxQueueSize - 1
      invariant q.Valid() && q.table == []
      invariant |q.buffer| == i && (i > 0 <==> q.timerPending)
      invariant forall j :: 0 <= j < i ==> q.buffer[j] == BuildLog(records[j], None, env)
    {
      var _, _ := q.LogError(records[i], None, env, Accepted);
      i := i + 1;
    }
    var _, _ := q.LogError(records[i], None, env, Accepted);
  }
}
