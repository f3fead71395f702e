/**
 * The resilient query layer of `supabase-enhanced.ts`: the retry classifier
 * (`RETRY_OPTIONS.shouldRetry`) and the way `supabaseQuery` turns every outcome
 * of the retried, time-limited remote call into a `{data, error}` pair.
 *
 * `withRetry` and `withTimeout` are not part of this model: what they hand
 * back to `supabaseQuery` (a resolved `{data, error}` value or a thrown failure)
 * is the input `RetryOutcome`.
 */
module ResilientQuery {
  import opened Wrappers
  import opened Text

  /** What may be thrown: the three error classes the layer knows, any other `Error`, or a non-`Error` value. */
  datatype Failure =
    | NetworkError(message: string)
    | TimeoutError(message: string)
    | SupabaseError(message: string, userMessage: string, code: Option<string>)
    | PlainError(message: string)
    | NonError(rendered: string)
  {
    /** `failure instanceof Error` */
    predicate IsErrorInstance() { !NonError? }
  }

  /** The substrings that make an `Error` retryable, as written in the classifier. */
  const RetryableMessages: seq<string> := ["fetch", "network", "timeout", "ECONNREFUSED"]

  /** `needles.some(msg => hay.includes(msg.toLowerCase()))` */
  function AnyIncluded(hay: string, needles: seq<string>): bool
  {
    needles != [] && (Contains(hay, ToLower(needles[0])) || AnyIncluded(hay, needles[1..]))
  }

  /** `RETRY_OPTIONS.shouldRetry` */
  function ShouldRetry(f: Failure): bool
  {
    if f.NetworkError? || f.TimeoutError? then true
    else if f.IsErrorInstance() then AnyIncluded(ToLower(f.message), RetryableMessages)
    else false
  }

  /** `s` occurs in `hay`, by position rather than by scanning. */
  ghost predicate Includes(hay: string, s: string)
  {
    exists i :: OccursAt(hay, s, i)
  }

  /** `some` over the needles is true exactly when one of the lower-cased needles occurs in `hay`. */
  lemma {:induction false} AnyIncludedIff(hay: string, needles: seq<string>)
    ensures AnyIncluded(hay, needles) <==> exists k :: 0 <= k < |needles| && Includes(hay, ToLower(needles[k]))
    decreases |needles|
  {
    if needles != [] {
      ContainsIff(hay, ToLower(needles[0]));
      AnyIncludedIff(hay, needles[1..]);
      assert forall k :: 1 <= k < |needles| ==> needles[1..][k - 1] == needles[k];
      if Includes(hay, ToLower(needles[0])) {
        assert AnyIncluded(hay, needles);
      }
    }
  }

  lemma LowerRetryableMessages()
    ensures ToLower(RetryableMessages[0]) == "fetch"
    ensures ToLower(RetryableMessages[1]) == "network"
    ensures ToLower(RetryableMessages[2]) == "timeout"
    ensures ToLower(RetryableMessages[3]) == "econnrefused"
  {
    assert ToLower("fetch") == "fetch";
    assert ToLower("network") == "network";
    assert ToLower("timeout") == "timeout";
    assert ToLower("ECONNREFUSED") == "econnrefused";
  }

  /**
   * The classifier's whole policy: network and timeout failures are always
   * retryable; any other `Error` is retryable exactly when its lower-cased
   * message contains "fetch", "network", "timeout" or "econnrefused"; a thrown
   * value that is not an `Error` never is.
   */
  lemma ShouldRetryPolicy(f: Failure)
    ensures f.NetworkError? || f.TimeoutError? ==> ShouldRetry(f)
    ensures f.NonError? ==> !ShouldRetry(f)
    ensures f.SupabaseError? || f.PlainError? ==>
      (ShouldRetry(f) <==>
        var m := ToLower(f.message);
        Includes(m, "fetch") || Includes(m, "network") || Includes(m, "timeout") || Includes(m, "econnrefused"))
  {
    if f.SupabaseError? || f.PlainError? {
      var m := ToLower(f.message);
      AnyIncludedIff(m, RetryableMessages);
      LowerRetryableMessages();
      if Includes(m, "fetch") || Includes(m, "network") || Includes(m, "timeout") || Includes(m, "econnrefused") {
        var k :| 0 <= k < 4 && Includes(m, ToLower(RetryableMessages[k]));
      }
    }
  }

  /** Case does not matter: a message and its lower-cased form are classified alike. */
  lemma ShouldRetryIgnoresCase(m: string)
    ensures ShouldRetry(PlainError(m)) == ShouldRetry(PlainError(ToLower(m)))
  {
    LowerIdempotent(m);
  }

  /** Wrapping a retryable message in more text keeps it retryable. */
  lemma {:induction false} ShouldRetryInfix(p: string, m: string, q: string)
    requires ShouldRetry(PlainError(m))
    ensures ShouldRetry(PlainError(p + m + q))
  {
    var lm := ToLower(m);
    AnyIncludedIff(lm, RetryableMessages);
    var k :| 0 <= k < |RetryableMessages| && Includes(lm, ToLower(RetryableMessages[k]));
    ContainsIff(lm, ToLower(RetryableMessages[k]));
    ContainsInfix(ToLower(p), lm, ToLower(q), ToLower(RetryableMessages[k]));
    LowerConcat(p + m, q);
    LowerConcat(p, m);
    ContainsIff(ToLower(p + m + q), ToLower(RetryableMessages[k]));
    AnyIncludedIff(ToLower(p + m + q), RetryableMessages);
  }

  // ---------------------------------------------------------------------------
  // supabaseQuery: from the retried call's outcome to `{data, error}`

  const TimeoutMessage: string := "The request took too long. Please check your connection and try again."
  const NetworkMessage: string := "Unable to connect. Please check your internet connection."
  const BackendMessage: string := "Unable to complete the request. Please try again."
  const UnexpectedMessage: string := "An unexpected error occurred. Please try again."

  /** The `error` field of the `{data, error}` value the remote call resolves with. */
  datatype ReportedError =
    | Falsy                                               // null, undefined, '', 0, false: `if (result.error)` is not taken
    | ErrorValue(message: string, code: Option<string>)   // an `Error` instance
    | ObjectValue(rendered: string, code: Option<string>) // any other object; `rendered` is `String(value)`
    | PrimitiveValue(rendered: string)                    // a truthy string, number or boolean

  /** What `withRetry(...)` produces: a resolved `{data, error}` value, or the failure it threw. */
  datatype RetryOutcome<T> =
    | Resolved(data: Option<T>, error: ReportedError)
    | Rejected(failure: Failure)

  /** The `{data, error}` value every call of `supabaseQuery` resolves with. */
  datatype QueryResult<T> = QueryResult(data: Option<T>, error: Option<string>)

  /** The `SupabaseError` thrown for a backend-reported error. */
  function BackendFailure(e: ReportedError): (f: Failure)
    requires !e.Falsy?
    ensures f.SupabaseError? && f.userMessage == BackendMessage
  {
    match e
    case ErrorValue(m, c) => SupabaseError(m, BackendMessage, c)
    case ObjectValue(r, c) => SupabaseError(r, BackendMessage, c)
    case PrimitiveValue(r) => SupabaseError(r, BackendMessage, None)
  }

  /** The failure that reaches the `catch` block, if any. */
  function Caught<T>(o: RetryOutcome<T>): Option<Failure>
  {
    match o
    case Rejected(f) => Some(f)
    case Resolved(_, Falsy) => None
    case Resolved(_, e) => Some(BackendFailure(e))
  }

  /** The user-facing message the `catch` block picks for a failure. */
  function UserMessage(f: Failure): string
  {
    match f
    case TimeoutError(_) => TimeoutMessage
    case NetworkError(_) => NetworkMessage
    case SupabaseError(_, um, _) => um
    case _ => UnexpectedMessage
  }

  /** `supabaseQuery(queryFn, timeoutMs)`, given what `withRetry` produced for it. It never throws. */
  function SupabaseQuery<T>(o: RetryOutcome<T>): (r: QueryResult<T>)
    ensures r.error == None <==> o.Resolved? && o.error.Falsy?
    ensures r.error == None ==> r.data == o.data
    ensures r.error != None ==> r.data == None
  {
    match Caught(o)
    case None => QueryResult(o.data, None)
    case Some(f) => QueryResult(None, Some(UserMessage(f)))
  }

  /** `supabaseMutation`: the same call under another name. */
  function SupabaseMutation<T>(o: RetryOutcome<T>): (r: QueryResult<T>)
    ensures r == SupabaseQuery(o)
  {
    SupabaseQuery(o)
  }

  /** The message of every failed result is one of the four fixed messages, or the user message a thrown `SupabaseError` carries. */
  lemma FailureMessages<T>(o: RetryOutcome<T>)
    ensures var r := SupabaseQuery(o);
      r.error != None ==>
        r.error.value in {TimeoutMessage, NetworkMessage, BackendMessage, UnexpectedMessage} ||
        (o.Rejected? && o.failure.SupabaseError? && r.error.value == o.failure.userMessage)
  {
  }

  /** Each failure kind gets its own message. */
  lemma MessageByKind<T>(o: RetryOutcome<T>)
    ensures o.Rejected? && o.failure.TimeoutError? ==> SupabaseQuery(o) == QueryResult(None, Some(TimeoutMessage))
    ensures o.Rejected? && o.failure.NetworkError? ==> SupabaseQuery(o) == QueryResult(None, Some(NetworkMessage))
    ensures o.Rejected? && o.failure.SupabaseError? ==> SupabaseQuery(o) == QueryResult(None, Some(o.failure.userMessage))
    ensures o.Rejected? && (o.failure.PlainError? || o.failure.NonError?) ==>
      SupabaseQuery(o) == QueryResult(None, Some(UnexpectedMessage))
    ensures o.Resolved? && !o.error.Falsy? ==> SupabaseQuery(o) == QueryResult(None, Some(BackendMessage))
  {
  }

  /**
   * A backend-reported error is shown to the user only as the fixed backend
   * message: neither its text, its code nor the data beside it changes the result.
   */
  lemma BackendErrorHidesDetail<T>(d1: Option<T>, e1: ReportedError, d2: Option<T>, e2: ReportedError)
    requires !e1.Falsy? && !e2.Falsy?
    ensures SupabaseQuery(Resolved(d1, e1)) == SupabaseQuery(Resolved(d2, e2))
  {
  }

  /**
   * A backend error such as "duplicate key" is not retryable by the classifier,
   * and the query resolves with the fixed backend message.
   */
  lemma DuplicateKeyFailsFast<T>(d: Option<T>)
    ensures !ShouldRetry(BackendFailure(PrimitiveValue("duplicate key")))
    ensures SupabaseQuery(Resolved(d, PrimitiveValue("duplicate key"))) == QueryResult(None, Some(BackendMessage))
  {
    DuplicateKeyIsLower();
    DuplicateKeyMatchesNoNeedle();
  }

  lemma DuplicateKeyIsLower()
    ensures ToLower("duplicate key") == "duplicate key"
  {
    var m := "duplicate key";
    assert forall i :: 0 <= i < |m| ==> m[i] in "abcdefghijklmnopqrstuvwxyz ";
    LowerOfLower(m);
  }

  lemma DuplicateKeyMissesEachNeedle()
    ensures !Includes("duplicate key", "fetch") && !Includes("duplicate key", "network")
    ensures !Includes("duplicate key", "timeout") && !Includes("duplicate key", "econnrefused")
  {
    var m := "duplicate key";
    assert 'f' !in m && 'n' !in m && 'm' !in m;
    MissingChar(m, "fetch", 0);
    MissingChar(m, "network", 0);
    MissingChar(m, "timeout", 2);
    MissingChar(m, "econnrefused", 2);
  }

  lemma DuplicateKeyMatchesNoNeedle()
    ensures !AnyIncluded("duplicate key", RetryableMessages)
  {
    DuplicateKeyMissesEachNeedle();
    LowerRetryableMessages();
    AnyIncludedIff("duplicate key", RetryableMessages);
  }

  /** Browser fetch failures are retried. */
  lemma FailedToFetchRetries()
    ensures ShouldRetry(PlainError("Failed to fetch"))
  {
    LowerOfLower("fetch");
    assert ShouldRetry(PlainError("fetch"));
    ShouldRetryInfix("Failed to ", "fetch", "");
    assert "Failed to " + "fetch" + "" == "Failed to fetch";
  }

  /** The upper-case needle is lowered before it is searched for. */
  lemma UpperCaseNeedleRetries()
    ensures ShouldRetry(PlainError("ECONNREFUSED"))
  {
    var m := "econnrefused";
    assert ToLower(RetryableMessages[3]) == m && ToLower("ECONNREFUSED") == m by {
      LowerRetryableMessages();
    }
    assert m[0..|m|] == m;
    assert OccursAt(m, ToLower(RetryableMessages[3]), 0);
    AnyIncludedIff(m, RetryableMessages);
  }

  /** Refused connections are retried. */
  lemma ConnectionRefusedRetries()
    ensures ShouldRetry(PlainError("connect ECONNREFUSED"))
  {
    UpperCaseNeedleRetries();
    ShouldRetryInfix("connect ", "ECONNREFUSED", "");
    assert "connect " + "ECONNREFUSED" + "" == "connect ECONNREFUSED";
  }
}
