/**
 * The request queue of `supabase-enhanced.ts`: `queuedSupabaseQuery` puts a
 * request into the module-wide `requestQueue` (at the front for `high`
 * priority, at the back otherwise) and calls `processQueue`, which, unless a
 * drain is already running, sets `isProcessingQueue` and runs the requests one
 * at a time from the front until the list is empty.
 *
 * The only suspension point of a drain is `await request()`. Whatever other
 * tasks enqueue while the k-th request of a drain is awaited is the k-th batch
 * of the `meanwhile` parameter; each of those enqueues finds the drain running,
 * so its own call of `processQueue` returns at once.
 */
module RequestQueue {
  import opened Wrappers
  import opened ResilientQuery

  datatype Priority = High | Normal

  /** A queued call: `ticket` tells its caller apart, `outcome` is what `withRetry` yields when it runs. */
  datatype Request<T> = Request(ticket: nat, outcome: RetryOutcome<T>)

  /** One call of `queuedSupabaseQuery`. */
  datatype Submission<T> = Submission(request: Request<T>, priority: Priority)

  /** The value a caller's promise is resolved with once its request has run. */
  datatype Completion<T> = Completion(ticket: nat, result: QueryResult<T>)

  /** Where `unshift` / `push` put a new request. */
  function Insert<T>(q: seq<Request<T>>, r: Request<T>, p: Priority): (q': seq<Request<T>>)
    ensures |q'| == |q| + 1
    ensures p == High ==> q'[0] == r && q'[1..] == q
    ensures p == Normal ==> q'[|q|] == r && q'[..|q|] == q
  {
    if p == High then [r] + q else q + [r]
  }

  /** The pending list after a batch of submissions, taken in the order they were made. */
  function Admit<T>(q: seq<Request<T>>, batch: seq<Submission<T>>): (q': seq<Request<T>>)
    ensures |q'| == |q| + |batch|
    decreases |batch|
  {
    if batch == [] then q else Admit(Insert(q, batch[0].request, batch[0].priority), batch[1..])
  }

  function First<T>(m: seq<seq<Submission<T>>>): seq<Submission<T>>
  {
    if m == [] then [] else m[0]
  }

  function Rest<T>(m: seq<seq<Submission<T>>>): seq<seq<Submission<T>>>
  {
    if m == [] then [] else m[1..]
  }

  /** The number of submissions in all batches. */
  function Size<T>(m: seq<seq<Submission<T>>>): nat
  {
    if m == [] then 0 else |m[0]| + Size(m[1..])
  }

  /** The order in which a drain starting from `q` runs requests: `shift`, await, admit what arrived meanwhile. */
  function Drain<T>(q: seq<Request<T>>, m: seq<seq<Submission<T>>>): (d: seq<Request<T>>)
    ensures |q| <= |d|
    ensures d == [] <==> q == []
    decreases |q| + Size(m)
  {
    if q == [] then [] else [q[0]] + Drain(Admit(q[1..], First(m)), Rest(m))
  }

  /** One step of a drain: the front request runs, then the first batch is admitted. */
  lemma DrainStep<T>(q: seq<Request<T>>, m: seq<seq<Submission<T>>>)
    requires q != []
    ensures Drain(q, m) == [q[0]] + Drain(Admit(q[1..], First(m)), Rest(m))
    ensures Size(m) == |First(m)| + Size(Rest(m))
  {
  }

  /** The drain loop's invariant survives one turn. */
  lemma DrainAdvance<T>(done: seq<Request<T>>, q: seq<Request<T>>, m: seq<seq<Submission<T>>>, target: seq<Request<T>>)
    requires q != [] && done + Drain(q, m) == target
    ensures (done + [q[0]]) + Drain(Admit(q[1..], First(m)), Rest(m)) == target
    ensures Size(m) == |First(m)| + Size(Rest(m))
  {
    DrainStep(q, m);
    assert (done + [q[0]]) + Drain(Admit(q[1..], First(m)), Rest(m)) == done + Drain(q, m);
  }

  /** What running a request delivers to its caller: the result of `supabaseQuery`. */
  function Complete<T>(r: Request<T>): Completion<T>
  {
    Completion(r.ticket, SupabaseQuery(r.outcome))
  }

  function Completions<T>(rs: seq<Request<T>>): (cs: seq<Completion<T>>)
    ensures |cs| == |rs|
  {
    if rs == [] then [] else [Complete(rs[0])] + Completions(rs[1..])
  }

  lemma CompletionsSnoc<T>(rs: seq<Request<T>>, r: Request<T>)
    ensures Completions(rs + [r]) == Completions(rs) + [Complete(r)]
  {
    CompletionsConcat(rs, [r]);
    assert Completions([r]) == [Complete(r)];
  }

  lemma {:induction false} CompletionsConcat<T>(a: seq<Request<T>>, b: seq<Request<T>>)
    ensures Completions(a + b) == Completions(a) + Completions(b)
  {
    if a == [] {
      assert a + b == b;
    } else {
      assert (a + b)[1..] == a[1..] + b;
      CompletionsConcat(a[1..], b);
    }
  }

  // ---------------------------------------------------------------------------
  // Properties of the drain order

  /** The requests of a batch of submissions, in submission order. */
  function Requests<T>(b: seq<Submission<T>>): (rs: seq<Request<T>>)
    ensures |rs| == |b|
  {
    if b == [] then [] else [b[0].request] + Requests(b[1..])
  }

  /** The requests submitted while the first `n` requests of a drain were awaited. */
  function ArrivalsDuring<T>(m: seq<seq<Submission<T>>>, n: nat): seq<Request<T>>
  {
    if n == 0 || m == [] then [] else Requests(m[0]) + ArrivalsDuring(m[1..], n - 1)
  }

  lemma ArrivalsStep<T>(m: seq<seq<Submission<T>>>, n: nat)
    ensures ArrivalsDuring(m, n + 1) == Requests(First(m)) + ArrivalsDuring(Rest(m), n)
  {
  }

  ghost predicate AllNormal<T>(m: seq<seq<Submission<T>>>)
  {
    forall k, j :: 0 <= k < |m| && 0 <= j < |m[k]| ==> m[k][j].priority == Normal
  }

  lemma AllNormalRest<T>(m: seq<seq<Submission<T>>>)
    requires AllNormal(m)
    ensures AllNormal(Rest(m))
    ensures forall j :: 0 <= j < |First(m)| ==> First(m)[j].priority == Normal
  {
    forall k, j | 0 <= k < |Rest(m)| && 0 <= j < |Rest(m)[k]| ensures Rest(m)[k][j].priority == Normal {
      assert Rest(m)[k] == m[k + 1];
    }
  }

  /** Admitting a batch adds exactly its requests to the pending list. */
  lemma {:induction false} AdmitMultiset<T>(q: seq<Request<T>>, b: seq<Submission<T>>)
    ensures multiset(Admit(q, b)) == multiset(q) + multiset(Requests(b))
    decreases |b|
  {
    if b != [] {
      var q1 := Insert(q, b[0].request, b[0].priority);
      AdmitMultiset(q1, b[1..]);
      if b[0].priority == High {
        assert q1 == [b[0].request] + q;
      } else {
        assert q1 == q + [b[0].request];
      }
      assert Requests(b) == [b[0].request] + Requests(b[1..]);
    }
  }

  /** A batch of normal submissions goes behind everything pending, in submission order. */
  lemma {:induction false} AdmitNormal<T>(q: seq<Request<T>>, b: seq<Submission<T>>)
    requires forall j :: 0 <= j < |b| ==> b[j].priority == Normal
    ensures Admit(q, b) == q + Requests(b)
    decreases |b|
  {
    if b != [] {
      AdmitNormal(q + [b[0].request], b[1..]);
      assert Requests(b) == [b[0].request] + Requests(b[1..]);
      assert q + [b[0].request] + Requests(b[1..]) == q + Requests(b);
    }
  }

  /** The last high-priority submission of a batch ends up at the front. */
  lemma {:induction false} AdmitLastHigh<T>(q: seq<Request<T>>, b: seq<Submission<T>>)
    requires b != [] && b[|b| - 1].priority == High
    ensures Admit(q, b) != [] && Admit(q, b)[0] == b[|b| - 1].request
    decreases |b|
  {
    var q1 := Insert(q, b[0].request, b[0].priority);
    if |b| == 1 {
      assert Admit(q1, b[1..]) == q1;
    } else {
      AdmitLastHigh(q1, b[1..]);
    }
  }

  /** With nothing submitted meanwhile, a drain runs the pending list front to back. */
  lemma {:induction false} DrainWithoutArrivals<T>(q: seq<Request<T>>)
    ensures Drain(q, []) == q
    decreases |q|
  {
    if q != [] {
      DrainWithoutArrivals(q[1..]);
    }
  }

  /** Putting the head back in front of the rest of a drain balances the multiset count. */
  lemma RunOnceStep<X>(q: seq<X>, d: seq<X>, admitted: seq<X>, later: seq<X>, arrivals: seq<X>)
    requires q != []
    requires multiset(d) == multiset(q[1..]) + multiset(admitted) + multiset(later)
    requires arrivals == admitted + later
    ensures multiset([q[0]] + d) == multiset(q + arrivals)
  {
    assert q == [q[0]] + q[1..];
  }

  /**
   * No request is lost or run twice: a drain runs exactly the requests that
   * were pending plus those submitted while its requests were awaited.
   */
  lemma {:induction false} DrainRunsEachOnce<T>(q: seq<Request<T>>, m: seq<seq<Submission<T>>>)
    ensures multiset(Drain(q, m)) == multiset(q + ArrivalsDuring(m, |Drain(q, m)|))
    decreases |q| + Size(m)
  {
    if q == [] {
      assert Drain(q, m) == [] && ArrivalsDuring(m, 0) == [];
    } else {
      var b, q1 := First(m), Admit(q[1..], First(m));
      DrainStep(q, m);
      var d1 := Drain(q1, Rest(m));
      var later := ArrivalsDuring(Rest(m), |d1|);
      assert multiset(d1) == multiset(q[1..]) + multiset(Requests(b)) + multiset(later) by {
        DrainRunsEachOnce(q1, Rest(m));
        AdmitMultiset(q[1..], b);
      }
      assert |Drain(q, m)| == |d1| + 1;
      var arrivals := ArrivalsDuring(m, |Drain(q, m)|);
      assert arrivals == Requests(b) + later by {
        ArrivalsStep(m, |d1|);
        assert arrivals == ArrivalsDuring(m, |d1| + 1);
      }
      RunOnceStep(q, d1, Requests(b), later, arrivals);
    }
  }

  /** In particular every pending request runs. */
  lemma PendingRequestsRun<T>(q: seq<Request<T>>, m: seq<seq<Submission<T>>>, r: Request<T>)
    requires r in q
    ensures r in Drain(q, m)
  {
    DrainRunsEachOnce(q, m);
    assert r in multiset(q + ArrivalsDuring(m, |Drain(q, m)|));
  }

  /** Putting the head back in front of the rest of a drain keeps the order. */
  lemma OrderStep<X>(q: seq<X>, d: seq<X>, admitted: seq<X>, later: seq<X>, arrivals: seq<X>)
    requires q != [] && d == q[1..] + admitted + later && arrivals == admitted + later
    ensures [q[0]] + d == q + arrivals
  {
    assert q == [q[0]] + q[1..];
  }

  /**
   * When every submission is normal, the drain runs the pending requests and
   * then every request submitted during its awaits, all in the order they were
   * made: `push` and `shift` make the list first-in first-out.
   */
  lemma {:induction false} NormalArrivalsKeepOrder<T>(q: seq<Request<T>>, m: seq<seq<Submission<T>>>)
    requires AllNormal(m)
    ensures Drain(q, m) == q + ArrivalsDuring(m, |Drain(q, m)|)
    decreases |q| + Size(m)
  {
    if q == [] {
      assert ArrivalsDuring(m, 0) == [];
    } else {
      var b, q1 := First(m), Admit(q[1..], First(m));
      DrainStep(q, m);
      var d1 := Drain(q1, Rest(m));
      var later := ArrivalsDuring(Rest(m), |d1|);
      assert d1 == q[1..] + Requests(b) + later by {
        AllNormalRest(m);
        AdmitNormal(q[1..], b);
        NormalArrivalsKeepOrder(q1, Rest(m));
      }
      assert |Drain(q, m)| == |d1| + 1;
      var arrivals := ArrivalsDuring(m, |Drain(q, m)|);
      assert arrivals == Requests(b) + later by {
        ArrivalsStep(m, |d1|);
        assert arrivals == ArrivalsDuring(m, |d1| + 1);
      }
      OrderStep(q, d1, Requests(b), later, arrivals);
    }
  }

  /**
   * A high-priority request submitted while the front request is awaited runs
   * next, ahead of every request that was pending: the last such submission
   * wins when there are several.
   */
  lemma HighArrivalRunsNext<T>(q: seq<Request<T>>, m: seq<seq<Submission<T>>>)
    requires q != [] && m != [] && m[0] != [] && m[0][|m[0]| - 1].priority == High
    ensures |Drain(q, m)| >= 2 && Drain(q, m)[1] == m[0][|m[0]| - 1].request
  {
    DrainStep(q, m);
    AdmitLastHigh(q[1..], m[0]);
    DrainStep(Admit(q[1..], m[0]), Rest(m));
  }

  /** High-priority requests are not first-in first-out among themselves: two made during one await run in reverse order. */
  lemma HighBurstRunsReversed<T>(a: Request<T>, b: Request<T>, c: Request<T>)
    ensures Drain([a], [[Submission(b, High), Submission(c, High)]]) == [a, c, b]
  {
    var m := [[Submission(b, High), Submission(c, High)]];
    DrainStep([a], m);
    assert Insert([], b, High) == [b];
    assert m[0][1..] == [Submission(c, High)];
    assert Admit([], m[0]) == Admit([b], [Submission(c, High)]);
    assert [Submission(c, High)][1..] == [];
    assert Insert([b], c, High) == [c, b];
    assert Admit([b], [Submission(c, High)]) == Admit([c, b], []);
    DrainWithoutArrivals([c, b]);
  }

  class RequestQueue<T> {
    /** `requestQueue` */
    var pending: seq<Request<T>>
    /** `isProcessingQueue` */
    var processing: bool
    /** The completions delivered so far, in the order the requests ran. */
    var log: seq<Completion<T>>

    /** The queue only goes idle once its list is empty. */
    ghost predicate Valid()
      reads this
    {
      !processing ==> pending == []
    }

    constructor ()
      ensures Valid() && pending == [] && !processing && log == []
    {
      pending, processing, log := [], false, [];
    }

    /** `queuedSupabaseQuery(queryFn, priority)`: insert, then `processQueue()`. */
    method Enqueue(r: Request<T>, p: Priority, meanwhile: seq<seq<Submission<T>>>)
      requires Valid()
      modifies this
      decreases |meanwhile|, 3
      ensures Valid()
      ensures old(processing) ==>
        pending == Insert(old(pending), r, p) && processing && log == old(log)
      ensures !old(processing) ==>
        pending == [] && !processing && log == old(log) + Completions(Drain([r], meanwhile))
    {
      if p == High {
        pending := [r] + pending;
      } else {
        pending := pending + [r];
      }
      ProcessQueue(meanwhile);
    }

    /**
     * One turn of the drain loop: `shift` the front request and await it; the
     * enqueues other tasks make meanwhile each find the drain running.
     */
    method RunFront(batch: seq<Submission<T>>, ghost bound: nat) returns (request: Request<T>)
      requires processing && pending != []
      requires batch != [] ==> bound > 0
      modifies this
      decreases bound, 0
      ensures request == old(pending)[0]
      ensures pending == Admit(old(pending)[1..], batch) && processing
      ensures log == old(log) + [Complete(request)]
    {
      request := pending[0];
      pending := pending[1..];
      log := log + [Complete(request)];
      var j := 0;
      ghost var start := pending;
      ghost var logAfterRun := log;
      while j < |batch|
        invariant 0 <= j <= |batch|
        invariant processing && log == logAfterRun
        invariant Admit(pending, batch[j..]) == Admit(start, batch)
        decreases |batch| - j
      {
        Enqueue(batch[j].request, batch[j].priority, []);
        assert batch[j..][1..] == batch[j + 1..];
        j := j + 1;
      }
      assert batch[j..] == [];
    }

    /** `processQueue()` */
    method ProcessQueue(meanwhile: seq<seq<Submission<T>>>)
      modifies this
      decreases |meanwhile|, 2
      ensures old(processing) || old(pending) == [] ==>
        pending == old(pending) && processing == old(processing) && log == old(log)
      ensures !old(processing) && old(pending) != [] ==>
        pending == [] && !processing && log == old(log) + Completions(Drain(old(pending), meanwhile))
      ensures Valid()
    {
      if processing || |pending| == 0 {
        return;
      }
      processing := true;
      RunUntilEmpty(meanwhile);
      processing := false;
    }

    /** The loop `while (requestQueue.length > 0)` of `processQueue`, with the guard set. */
    method RunUntilEmpty(meanwhile: seq<seq<Submission<T>>>)
      requires processing
      modifies this
      decreases |meanwhile|, 1
      ensures pending == [] && processing
      ensures log == old(log) + Completions(Drain(old(pending), meanwhile))
    {
      var rest := meanwhile;
      ghost var done: seq<Request<T>> := [];
      ghost var target := Drain(pending, meanwhile);
      while |pending| > 0
        invariant processing
        invariant |rest| <= |meanwhile|
        invariant done + Drain(pending, rest) == target
        invariant log == old(log) + Completions(done)
        decreases |pending| + Size(rest)
      {
        ghost var before, rest0, done0 := pending, rest, done;
        var request := RunFront(First(rest), |meanwhile|);
        rest := Rest(rest);
        done := done + [request];
        DrainAdvance(done0, before, rest0, target);
        CompletionsSnoc(done0, request);
      }
      assert Drain(pending, rest) == [];
      assert done == target;
    }
  }

  /**
   * Three normal-priority calls, the last two made while the first is awaited,
   * complete in the order they were made.
   */
  method NormalCallsRunInArrivalOrder<T>(a: Request<T>, b: Request<T>, c: Request<T>) returns (q: RequestQueue<T>)
    ensures fresh(q) && q.pending == [] && !q.processing
    ensures q.log == Completions([a, b, c])
  {
    q := new RequestQueue();
    var m := [[Submission(b, Normal), Submission(c, Normal)]];
    q.Enqueue(a, Normal, m);
    DrainStep([a], m);
    assert Admit([], m[0]) == [b, c] by {
      AdmitNormal([], m[0]);
      assert Requests(m[0]) == [b] + Requests([Submission(c, Normal)]);
    }
    DrainWithoutArrivals([b, c]);
  }

  /**
   * While the first request is awaited a normal call `n` and then a high call
   * `h` arrive: `h` completes before `n`.
   */
  method HighCallOvertakesNormal<T>(a: Request<T>, n: Request<T>, h: Request<T>) returns (q: RequestQueue<T>)
    ensures fresh(q) && q.pending == [] && !q.processing
    ensures q.log == Completions([a, h, n])
  {
    q := new RequestQueue();
    var m := [[Submission(n, Normal), Submission(h, High)]];
    q.Enqueue(a, Normal, m);
    DrainStep([a], m);
    assert Admit([], m[0]) == [h, n] by {
      assert Insert([], n, Normal) == [n];
      assert m[0][1..] == [Submission(h, High)];
      assert Admit([], m[0]) == Admit([n], [Submission(h, High)]);
      assert [Submission(h, High)][1..] == [];
      assert Insert([n], h, High) == [h, n];
      assert Admit([n], [Submission(h, High)]) == Admit([h, n], []);
    }
    DrainWithoutArrivals([h, n]);
  }
}
