# Resilient request pipeline of a marketing site's Supabase client

This project models, in Dafny, the two pieces of client-side logic that sit
between the site's UI and its Supabase backend:

- **The resilient query layer** (`src/lib/supabase-enhanced.ts`):
  - the retry classifier `RETRY_OPTIONS.shouldRetry`;
  - the mapping in `supabaseQuery` (and its alias `supabaseMutation`) from the outcome of the retried, time-limited call to a `{data, error}` pair whose `error` is a short user-facing message;
  - the request queue behind `queuedSupabaseQuery`. It is a module-wide list of pending requests (`requestQueue`) plus a `isProcessingQueue` guard. A `processQueue` loop drains the list one request at a time.
- **The error telemetry buffer** (`src/utils/error-logger.ts`). `logError` builds a record and appends it to `ERROR_LOG_QUEUE`. The buffer is flushed as one batch insert into the `error_logs` table, either when it reaches `MAX_QUEUE_SIZE` (50) records or when the single flush timer fires. A failed insert puts the batch back at the front.

Files:

- `wrappers.dfy`: `Option`.
- `text.dfy`: `toLowerCase` and `includes`, with the facts the classifier needs.
- `resilient_query.dfy`: the failure taxonomy, `ShouldRetry`, and the `supabaseQuery` mapping.
- `request_queue.dfy`: class `RequestQueue` (fields `pending`, `processing`, and the log of completions delivered to callers), with the drain order as the function `Drain`.
- `error_logger.dfy`: class `ErrorLogQueue` (fields `buffer`, `timerPending`, and `table`, the rows the remote table has accepted).

Abstractions:

- What `withRetry(withTimeout(queryFn()))` hands back to `supabaseQuery` is an input, `RetryOutcome`: either `Resolved(data, error)` or `Rejected(failure)`.
- Running a queued request delivers `SupabaseQuery` of that outcome to its caller.
- A drain suspends only at `await request()`. The enqueues other tasks make during the k-th await are the k-th batch of the `meanwhile` parameter. Each such enqueue is modelled as a call of `Enqueue` while `processing` is set, so its `processQueue` call returns at once. This follows source line 103.
- The flush timer is the flag `timerPending`.
- The remote insert is a `WriteOutcome` parameter: `Accepted`, `InsertError` or `Exception`.
- The `navigator.userAgent` / `window.location.href` snapshot is an `Environment` parameter.

Notable behaviour of the code, which the model keeps:

- **Backend-reported errors are never retried.** `supabaseQuery` throws the `SupabaseError` for a backend-reported error only after `withRetry` has returned (lines 35-45). So that error is never seen by the classifier.
- **A success may carry no data.** On success the result is `{data: result.data, error: null}`, and `result.data` may itself be null. So "exactly one of data and error is present" does not hold. `SupabaseQuery` states what does hold: either no error and the call's data, or no data and a message.
- **A falsy `error` counts as success.** The test `if (result.error)` is about truthiness. An `error` of `''`, `0` or `false` therefore counts as no error (`ReportedError.Falsy`).

## Model

| member | source | states |
|---|---|---|
| `ResilientQuery.ShouldRetryPolicy` | src/lib/supabase-enhanced.ts:9-20 | network and timeout failures are always retryable; any other `Error` is retryable exactly when its lower-cased message contains "fetch", "network", "timeout" or "econnrefused" (stated by position of an occurrence, independently of the scan); a thrown non-`Error` value never is |
| `ResilientQuery.ShouldRetry` | src/lib/supabase-enhanced.ts:9-20 | the classifier, following the two `instanceof` tests and the fallback `false`; specified by `ShouldRetryPolicy` |
| `ResilientQuery.AnyIncluded` | src/lib/supabase-enhanced.ts:14-17 | the `some` scan over the needle list; specified by `AnyIncludedIff` |
| `ResilientQuery.AnyIncludedIff` | src/lib/supabase-enhanced.ts:14-17 | the `some` over the constant list is true exactly when some lower-cased entry occurs in the message |
| `ResilientQuery.ShouldRetryIgnoresCase` | src/lib/supabase-enhanced.ts:15-17 | a message and its lower-cased form are classified alike |
| `ResilientQuery.ShouldRetryInfix` | src/lib/supabase-enhanced.ts:13-17 | a retryable message stays retryable with any text around it |
| `ResilientQuery.FailedToFetchRetries` | src/lib/supabase-enhanced.ts:13-17 | the browser's "Failed to fetch" error is retried |
| `ResilientQuery.ConnectionRefusedRetries` | src/lib/supabase-enhanced.ts:13-17 | a "connect ECONNREFUSED" error is retried although the needle is written in upper case |
| `ResilientQuery.DuplicateKeyFailsFast` | src/lib/supabase-enhanced.ts:35-45 | a backend error "duplicate key" would not be retryable, and the query resolves with no data and "Unable to complete the request. Please try again." |
| `ResilientQuery.BackendFailure` | src/lib/supabase-enhanced.ts:36-44 | a backend-reported error becomes a `SupabaseError` whose user message is the fixed backend message |
| `ResilientQuery.Caught` | src/lib/supabase-enhanced.ts:35-45 | the failure that reaches the `catch` block: a thrown failure, or the `SupabaseError` built for a truthy backend error, and none when the error is falsy; specified through `SupabaseQuery` and `MessageByKind` |
| `ResilientQuery.UserMessage` | src/lib/supabase-enhanced.ts:48-74 | the message each `catch` branch picks; specified by `FailureMessages` and `MessageByKind` |
| `ResilientQuery.SupabaseQuery` | src/lib/supabase-enhanced.ts:23-75 | the result has no error exactly when the call resolved without a (truthy) error; then it carries the call's data; every failed result carries no data |
| `ResilientQuery.FailureMessages` | src/lib/supabase-enhanced.ts:48-74 | every failure message is one of the four fixed messages, or the user message of a `SupabaseError` thrown by the call itself |
| `ResilientQuery.MessageByKind` | src/lib/supabase-enhanced.ts:35-74 | timeout gives the slow-request message, network the connectivity message, a thrown `SupabaseError` its user message, anything else the generic one, a backend-reported error the fixed backend message — with `data` null in each case |
| `ResilientQuery.BackendErrorHidesDetail` | src/lib/supabase-enhanced.ts:35-68 | neither the text nor the code of a backend-reported error, nor the data beside it, changes what the caller sees |
| `ResilientQuery.SupabaseMutation` | src/lib/supabase-enhanced.ts:77-82 | a mutation gives the same result as a query of the same call |
| `Text.ToLower` | src/lib/supabase-enhanced.ts:16 | lower-casing keeps the length and maps each character on its own, never leaving an upper-case ASCII letter |
| `Text.Contains` | src/lib/supabase-enhanced.ts:16 | `includes` as a left-to-right scan; specified by `ContainsIff` |
| `Text.ContainsIff` | src/lib/supabase-enhanced.ts:16 | the left-to-right scan of `includes` finds the needle exactly when it occurs at some position |
| `RequestQueue.Insert` | src/lib/supabase-enhanced.ts:97-101 | a high-priority request lands at index 0 and a normal one at the end; the other pending entries keep their order |
| `RequestQueue.Admit` | src/lib/supabase-enhanced.ts:97-101 | admitting a batch of submissions grows the list by the batch's size |
| `RequestQueue.AdmitMultiset` | src/lib/supabase-enhanced.ts:97-101 | admitting a batch adds exactly its requests, none lost or duplicated |
| `RequestQueue.AdmitNormal` | src/lib/supabase-enhanced.ts:99-101 | normal submissions go behind everything pending, in submission order |
| `RequestQueue.AdmitLastHigh` | src/lib/supabase-enhanced.ts:97-98 | the last high-priority submission of a batch ends up at the front |
| `RequestQueue.Drain` | src/lib/supabase-enhanced.ts:114-119 | the order in which the loop runs requests: `shift` the front, await it, then admit what was enqueued meanwhile. It runs at least as many requests as were pending, and none exactly when the list is empty. Its order is specified by `DrainWithoutArrivals`, `DrainRunsEachOnce`, `NormalArrivalsKeepOrder` and `HighArrivalRunsNext` |
| `RequestQueue.Complete` | src/lib/supabase-enhanced.ts:92-95 | running a queued request resolves its caller's promise with `supabaseQuery`'s result for that request; its content is specified by `ResilientQuery.SupabaseQuery` |
| `RequestQueue.DrainWithoutArrivals` | src/lib/supabase-enhanced.ts:114-119 | with nothing enqueued meanwhile, a drain runs the pending list front to back |
| `RequestQueue.DrainRunsEachOnce` | src/lib/supabase-enhanced.ts:107-122 | a drain runs exactly the pending requests plus those enqueued during its awaits, each once |
| `RequestQueue.PendingRequestsRun` | src/lib/supabase-enhanced.ts:114-119 | every request pending when a drain starts is run by it |
| `RequestQueue.NormalArrivalsKeepOrder` | src/lib/supabase-enhanced.ts:97-119 | when all submissions are normal, the drain runs exactly the pending requests followed by every request submitted during its awaits, in the order they were made (first-in first-out) |
| `RequestQueue.HighArrivalRunsNext` | src/lib/supabase-enhanced.ts:97-119 | a high-priority request enqueued while the front request is awaited runs next, ahead of everything that was pending |
| `RequestQueue.HighBurstRunsReversed` | src/lib/supabase-enhanced.ts:97-98 | two high-priority requests enqueued during one await run in reverse arrival order (high-priority requests are not first-in first-out among themselves) |
| `RequestQueue.RequestQueue.constructor` | src/lib/supabase-enhanced.ts:84-85 | the queue starts empty and idle |
| `RequestQueue.RequestQueue.Enqueue` | src/lib/supabase-enhanced.ts:87-105 | while a drain runs, an enqueue only inserts; otherwise the list was empty, so the drain starts from this one request, empties the list, resets the guard and delivers `supabaseQuery`'s result to each caller in drain order; the queue stays consistent (idle only with an empty list) |
| `RequestQueue.RequestQueue.RunFront` | src/lib/supabase-enhanced.ts:114-119 | one loop turn removes the front request, delivers its result and admits the calls made during its await |
| `RequestQueue.RequestQueue.RunUntilEmpty` | src/lib/supabase-enhanced.ts:114-119 | the `while` loop empties the list, keeps the guard set, and delivers the results in `Drain` order, including the requests enqueued during its awaits |
| `RequestQueue.RequestQueue.ProcessQueue` | src/lib/supabase-enhanced.ts:107-122 | returns at once when already processing or when the list is empty; otherwise leaves the list empty, the guard reset, and the results delivered in `Drain` order; either way the queue is left consistent |
| `RequestQueue.NormalCallsRunInArrivalOrder` | src/lib/supabase-enhanced.ts:87-122 | three normal calls, two made during the first one's await, complete in the order made |
| `RequestQueue.HighCallOvertakesNormal` | src/lib/supabase-enhanced.ts:87-122 | a high call made after a normal one, both during an await, completes first |
| `ErrorLogger.MergeDetails` | src/utils/error-logger.ts:21 | the merged details hold every context entry, every other entry of the error's details, and nothing else; context keys win |
| `ErrorLogger.BuildLog` | src/utils/error-logger.ts:17-22 | the record copies the error's fields, takes the merged details and the environment snapshot |
| `ErrorLogger.ShouldLogToConsole` | src/utils/error-logger.ts:75-77 | the console test on the two top severities; specified by `ConsoleThreshold` |
| `ErrorLogger.ConsoleThreshold` | src/utils/error-logger.ts:75-77 | a record is echoed to the console exactly when its severity is at or above `ERROR` (that is, `ERROR` or `CRITICAL`), under the assumed order info < warning < error < critical |
| `ErrorLogger.Requeue` | src/utils/error-logger.ts:67 | the failed batch goes back in front, in its own order, ahead of whatever the buffer holds |
| `ErrorLogger.ErrorLogQueue.constructor` | src/utils/error-logger.ts:10-14 | the buffer starts empty with no timer pending |
| `ErrorLogger.ErrorLogQueue.GetQueuedErrorCount` | src/utils/error-logger.ts:87-89 | the count is the buffer's length |
| `ErrorLogger.ErrorLogQueue.FlushErrorLogs` | src/utils/error-logger.ts:39-73 | an empty buffer changes nothing; otherwise the whole buffer is sent in order and the timer is cleared; on success the buffer is empty and the table gained the batch, on failure the buffer is exactly as before; no record is ever lost (table followed by buffer is unchanged) |
| `ErrorLogger.ErrorLogQueue.LogError` | src/utils/error-logger.ts:16-37 | appends exactly one record; at 50 records it flushes, otherwise it arms the timer only if none is pending; records are never lost; the buffer is below 50 afterwards unless the insert failed |
| `ErrorLogger.ErrorLogQueue.OnFlushTimer` | src/utils/error-logger.ts:33-35 | the firing timer always finds records to flush and is cleared by the flush |
| `ErrorLogger.FiftiethRecordFlushes` | src/utils/error-logger.ts:28-31 | fifty records logged with successful inserts leave the buffer empty after the fiftieth, with all fifty in the table in logging order |

## Left out

- `withRetry` and `withTimeout` are in `src/utils/retry-logic.ts`, which is not part of this model. So are the attempt count, the delays, the deadline race, and the constants `DEFAULT_TIMEOUT`, `maxAttempts` and `initialDelay`. The `timeoutMs` argument only reaches `withTimeout`, so `SupabaseQuery` does not take it.
- `src/types/errors.ts` is not part of this model. `NetworkError`, `TimeoutError`, `SupabaseError` and `AppError` are modelled from the fields the two core files read. The core files never name an error kind and use only the severities `ERROR` and `CRITICAL`. So the five kinds (network, timeout, backend, validation, unknown), the severities `INFO` and `WARNING`, and the order info < warning < error < critical that `Rank` and `ConsoleThreshold` rely on are assumed.
- `String(value)` for a non-`Error` reported error is an input string. A `code` property that is not a string is not modelled.
- Text.ToLower: models `toLowerCase` for `A`-`Z` and the Kelvin sign only. Other Unicode case mappings are left out. None of them can produce or complete an occurrence of the four needles.
- The queue's interleaving is modelled only at `await request()`, the drain's one suspension point. The `if (request)` test at line 116 is always true, because `shift` on a non-empty list of functions returns a function.
- ErrorLogger.ErrorLogQueue.FlushErrorLogs: runs as one sequential step. Records logged while the insert is awaited are not modelled. On failure the batch is put in front of the current buffer (`Requeue`), which in this model is the empty buffer left by the flush.
- A failed flush clears the timer and does not arm a new one. The records wait for the next `logError`. This is how the code behaves, and the model keeps it.
- The row mapping at `src/utils/error-logger.ts:52-63` copies each field one-to-one under snake_case names, so `table` stores the records themselves.
- `details` values are a flat `Detail` datatype. Nested JSON values are not modelled, and the merge never inspects values.
- Left out as environment I/O: console output (only the decision is modelled, the `echoed` result), `setTimeout`/`clearTimeout` and `FLUSH_INTERVAL`, and the `beforeunload` listener (`src/utils/error-logger.ts:79-85`).
- `src/lib/supabase.ts` is not modelled: client construction from environment variables, and `submitLead`. Neither are the React components.
