/** The metrics buffer (src/automana/core/metrics/buffer.py) and its buckets
    (src/automana/core/metrics/bucket.py). A flush hands out the bucket objects themselves
    and empties the buffer's dictionaries. The buffer's lock makes each method atomic. */
module MetricsBuffer {
  import opened Options

  datatype ApiKey = ApiKey(hourKey: int, endpoint: string, statusCode: int)
  datatype CeleryKey = CeleryKey(hourKey: int, taskName: string)

  /** One observation: how long it took and how it went. */
  datatype Timed<F> = Timed(elapsed: real, how: F)

  datatype Response = Response(isError: bool, isCacheHit: bool)

  type Request = Timed<Response>
  type TaskRun = Timed<bool>

  /** How many of the first n observations were errors. */
  function Errors(obs: seq<Request>, n: nat): (r: nat)
    requires n <= |obs|
    ensures r <= n
  {
    if n == 0 then 0 else Errors(obs, n - 1) + if obs[n - 1].how.isError then 1 else 0
  }

  /** How many of the first n came from the cache. */
  function CacheHits(obs: seq<Request>, n: nat): (r: nat)
    requires n <= |obs|
    ensures r <= n
  {
    if n == 0 then 0 else CacheHits(obs, n - 1) + if obs[n - 1].how.isCacheHit then 1 else 0
  }

  /** How many of the first n succeeded. */
  function Successes(obs: seq<TaskRun>, n: nat): (r: nat)
    requires n <= |obs|
    ensures r <= n
  {
    if n == 0 then 0 else Successes(obs, n - 1) + if obs[n - 1].how then 1 else 0
  }

  lemma {:induction false} RequestsAppend(obs: seq<Request>, o: Request, n: nat)
    requires n <= |obs|
    ensures Errors(obs + [o], n) == Errors(obs, n) && CacheHits(obs + [o], n) == CacheHits(obs, n)
  {
    if n > 0 {
      RequestsAppend(obs, o, n - 1);
    }
  }

  lemma {:induction false} TasksAppend(obs: seq<TaskRun>, o: TaskRun, n: nat)
    requires n <= |obs|
    ensures Successes(obs + [o], n) == Successes(obs, n)
  {
    if n > 0 {
      TasksAppend(obs, o, n - 1);
    }
  }

  lemma OneBigger(a: set<int>, b: set<int>, x: int, more: bool)
    requires x !in a && b == if more then a + {x} else a
    ensures |b| == |a| + if more then 1 else 0
  {
  }

  /** The counters count what they are named after. */
  lemma {:induction false} CountsErrors(obs: seq<Request>, n: nat)
    requires n <= |obs|
    ensures Errors(obs, n) == |set i | 0 <= i < n && obs[i].how.isError|
  {
    if n > 0 {
      CountsErrors(obs, n - 1);
      OneBigger((set i | 0 <= i < n - 1 && obs[i].how.isError), (set i | 0 <= i < n && obs[i].how.isError),
                n - 1, obs[n - 1].how.isError);
    }
  }

  lemma {:induction false} CountsCacheHits(obs: seq<Request>, n: nat)
    requires n <= |obs|
    ensures CacheHits(obs, n) == |set i | 0 <= i < n && obs[i].how.isCacheHit|
  {
    if n > 0 {
      CountsCacheHits(obs, n - 1);
      OneBigger((set i | 0 <= i < n - 1 && obs[i].how.isCacheHit), (set i | 0 <= i < n && obs[i].how.isCacheHit),
                n - 1, obs[n - 1].how.isCacheHit);
    }
  }

  lemma {:induction false} CountsSuccesses(obs: seq<TaskRun>, n: nat)
    requires n <= |obs|
    ensures Successes(obs, n) == |set i | 0 <= i < n && obs[i].how|
  {
    if n > 0 {
      CountsSuccesses(obs, n - 1);
      OneBigger((set i | 0 <= i < n - 1 && obs[i].how), (set i | 0 <= i < n && obs[i].how), n - 1, obs[n - 1].how);
    }
  }

  ghost predicate TimesOf<F>(obs: seq<Timed<F>>, times: seq<real>) {
    |times| == |obs| && forall i :: 0 <= i < |obs| ==> times[i] == obs[i].elapsed
  }

  /** The longest of the observations, None if there are none. */
  ghost predicate Longest<F>(obs: seq<Timed<F>>, max: Option<real>) {
    && (max.None? <==> obs == [])
    && (max.Some? ==>
         && (exists i :: 0 <= i < |obs| && obs[i].elapsed == max.value)
         && (forall i :: 0 <= i < |obs| ==> obs[i].elapsed <= max.value))
  }

  lemma LongestOfTimes<F>(obs: seq<Timed<F>>, times: seq<real>, max: Option<real>)
    requires TimesOf(obs, times)
    requires max.None? <==> times == []
    requires max.Some? ==> max.value in times && forall i :: 0 <= i < |times| ==> times[i] <= max.value
    ensures Longest(obs, max)
  {
    if max.Some? {
      var i :| 0 <= i < |times| && times[i] == max.value;
      assert obs[i].elapsed == max.value;
      forall j | 0 <= j < |obs| ensures obs[j].elapsed <= max.value {
        assert times[j] <= max.value;
      }
    }
  }

  // ---------------------------------------------------------------- who recorded what

  /** What one of the two dictionaries amounts to: what each flush handed out and what the
      live buckets hold. */
  datatype Books<!K, O> = Books(out: seq<map<K, seq<O>>>, live: map<K, seq<O>>)

  datatype Op<K, O> = Record(key: K, o: O) | Flush

  function Held<K, O>(m: map<K, seq<O>>, k: K): seq<O> {
    if k in m then m[k] else []
  }

  function NextBooks<K, O>(b: Books<K, O>, op: Op<K, O>): Books<K, O> {
    match op
    case Record(k, o) => b.(live := b.live[k := Held(b.live, k) + [o]])
    case Flush => Books(b.out + [b.live], map[])
  }

  /** What the first n flushes handed out under a key, oldest flush first. */
  function HandedUpTo<K, O>(out: seq<map<K, seq<O>>>, n: nat, k: K): seq<O>
    requires n <= |out|
  {
    if n == 0 then [] else HandedUpTo(out, n - 1, k) + Held(out[n - 1], k)
  }

  function HandedOut<K, O>(out: seq<map<K, seq<O>>>, k: K): seq<O> {
    HandedUpTo(out, |out|, k)
  }

  lemma {:induction false} HandedOfPrefix<K, O>(out: seq<map<K, seq<O>>>, m: map<K, seq<O>>, n: nat, k: K)
    requires n <= |out|
    ensures HandedUpTo(out + [m], n, k) == HandedUpTo(out, n, k)
  {
    if n > 0 {
      HandedOfPrefix(out, m, n - 1, k);
    }
  }

  /** The books after the first n operations. */
  function BooksUpTo<K, O>(ops: seq<Op<K, O>>, n: nat): Books<K, O>
    requires n <= |ops|
  {
    if n == 0 then Books([], map[]) else NextBooks(BooksUpTo(ops, n - 1), ops[n - 1])
  }

  function BooksAfter<K, O>(ops: seq<Op<K, O>>): Books<K, O> {
    BooksUpTo(ops, |ops|)
  }

  lemma {:induction false} BooksOfPrefix<K, O>(ops: seq<Op<K, O>>, op: Op<K, O>, n: nat)
    requires n <= |ops|
    ensures BooksUpTo(ops + [op], n) == BooksUpTo(ops, n)
  {
    if n > 0 {
      BooksOfPrefix(ops, op, n - 1);
    }
  }

  function Of<K(==), O>(op: Op<K, O>, k: K): seq<O> {
    if op.Record? && op.key == k then [op.o] else []
  }

  /** What the first n operations record under a key, in order. */
  function RecordedUpTo<K(==), O>(ops: seq<Op<K, O>>, n: nat, k: K): seq<O>
    requires n <= |ops|
  {
    if n == 0 then []
    else RecordedUpTo(ops, n - 1, k) + Of(ops[n - 1], k)
  }

  function RecordedBy<K(==), O>(ops: seq<Op<K, O>>, k: K): seq<O> {
    RecordedUpTo(ops, |ops|, k)
  }

  lemma HandOver<K, O>(out: seq<map<K, seq<O>>>, live: map<K, seq<O>>, k: K)
    ensures HandedOut(out + [live], k) == HandedOut(out, k) + Held(live, k)
  {
    HandedOfPrefix(out, live, |out|, k);
  }

  ghost predicate Balanced<K, O>(b: Books<K, O>, k: K, recorded: seq<O>) {
    HandedOut(b.out, k) + Held(b.live, k) == recorded && (k in b.live ==> b.live[k] != [])
  }

  lemma StepBalances<K, O>(b: Books<K, O>, op: Op<K, O>, k: K, recorded: seq<O>)
    requires Balanced(b, k, recorded)
    ensures Balanced(NextBooks(b, op), k, recorded + Of(op, k))
  {
    var out, held := HandedOut(b.out, k), Held(b.live, k);
    if op.Record? {
      assert out + (held + [op.o]) == out + held + [op.o];
      assert out + held + [] == out + held;
    } else {
      HandOver(b.out, b.live, k);
      assert out + held + [] == out + held;
    }
  }

  lemma NothingYet<K, O>(ops: seq<Op<K, O>>, k: K)
    ensures Balanced(BooksUpTo(ops, 0), k, RecordedUpTo(ops, 0, k))
  {
  }

  lemma OneMore<K, O>(ops: seq<Op<K, O>>, n: nat, k: K, b: Books<K, O>, recorded: seq<O>)
    requires 0 < n <= |ops| && b == BooksUpTo(ops, n - 1) && recorded == RecordedUpTo(ops, n - 1, k)
    requires Balanced(b, k, recorded)
    ensures Balanced(BooksUpTo(ops, n), k, RecordedUpTo(ops, n, k))
  {
    StepBalances(b, ops[n - 1], k, recorded);
  }

  lemma {:induction false} EveryPrefixBalances<K, O>(ops: seq<Op<K, O>>, n: nat, k: K)
    requires n <= |ops|
    ensures Balanced(BooksUpTo(ops, n), k, RecordedUpTo(ops, n, k))
  {
    if n == 0 {
      NothingYet(ops, k);
    } else {
      EveryPrefixBalances(ops, n - 1, k);
      OneMore(ops, n, k, BooksUpTo(ops, n - 1), RecordedUpTo(ops, n - 1, k));
    }
  }

  /** Over any sequence of recordings and flushes, the flushed and the live observations of a
      key are exactly those recorded for it, in order and each once, and no bucket is empty. */
  lemma EveryRunBalances<K, O>(ops: seq<Op<K, O>>, k: K)
    ensures
      var b := BooksAfter(ops);
      && HandedOut(b.out, k) + Held(b.live, k) == RecordedBy(ops, k)
      && (k in b.live ==> b.live[k] != [])
  {
    EveryPrefixBalances(ops, |ops|, k);
  }

  // ---------------------------------------------------------------- buckets

  datatype RequestStats = RequestStats(
    requestCount: nat, errorCount: nat, cacheHitCount: nat,
    errorRate: real, cacheHitRate: real, responseTimeMax: Option<real>)

  datatype TaskStats = TaskStats(
    successCount: nat, failureCount: nat, successRate: real, maxExecutionTime: Option<real>)

  /** The rate a dictionary reports for `part` of `whole`. */
  ghost predicate IsRate(rate: real, part: nat, whole: nat) {
    && 0.0 <= rate <= 1.0
    && (whole == 0 ==> rate == 0.0)
    && rate * whole as real == part as real
  }

  method Rate(part: nat, whole: nat) returns (rate: real)
    requires part <= whole
    ensures IsRate(rate, part, whole)
  {
    if whole > 0 {
      rate := part as real / whole as real;
    } else {
      rate := 0.0;
    }
  }

  method Max(times: seq<real>) returns (max: Option<real>)
    ensures max.None? <==> times == []
    ensures max.Some? ==> max.value in times && forall i :: 0 <= i < |times| ==> times[i] <= max.value
  {
    if times == [] {
      return None;
    }
    var m := times[0];
    for i := 1 to |times|
      invariant m in times && forall j :: 0 <= j < i ==> times[j] <= m
    {
      if times[i] > m {
        m := times[i];
      }
    }
    return Some(m);
  }

  class MetricBucket {
    var requestCount: nat
    var errorCount: nat
    var cacheHitCount: nat
    var responseTimes: seq<real>
    ghost var obs: seq<Request>

    ghost predicate Valid()
      reads this
    {
      && requestCount == |obs|
      && errorCount == Errors(obs, |obs|)
      && cacheHitCount == CacheHits(obs, |obs|)
      && TimesOf(obs, responseTimes)
    }

    /** A valid bucket of these observations. */
    ghost predicate Holds(observations: seq<Request>)
      reads this
    {
      Valid() && obs == observations
    }

    constructor ()
      ensures Valid() && obs == []
    {
      requestCount, errorCount, cacheHitCount, responseTimes := 0, 0, 0, [];
      obs := [];
    }

    method Add(elapsed: real, isError: bool, isCacheHit: bool)
      requires Valid()
      modifies this
      ensures Valid() && obs == old(obs) + [Timed(elapsed, Response(isError, isCacheHit))]
    {
      requestCount := requestCount + 1;
      if isError {
        errorCount := errorCount + 1;
      }
      if isCacheHit {
        cacheHitCount := cacheHitCount + 1;
      }
      responseTimes := responseTimes + [elapsed];
      ghost var o := Timed(elapsed, Response(isError, isCacheHit));
      RequestsAppend(obs, o, |obs|);
      obs := obs + [o];
    }

    method Aggregate() returns (stats: RequestStats)
      requires Valid()
      ensures stats.requestCount == |obs|
      ensures stats.errorCount == Errors(obs, |obs|)
      ensures stats.cacheHitCount == CacheHits(obs, |obs|)
      ensures IsRate(stats.errorRate, stats.errorCount, |obs|)
      ensures IsRate(stats.cacheHitRate, stats.cacheHitCount, |obs|)
      ensures Longest(obs, stats.responseTimeMax)
    {
      var errorRate := Rate(errorCount, requestCount);
      var cacheHitRate := Rate(cacheHitCount, requestCount);
      var max := Max(responseTimes);
      LongestOfTimes(obs, responseTimes, max);
      return RequestStats(requestCount, errorCount, cacheHitCount, errorRate, cacheHitRate, max);
    }
  }

  class CeleryMetricBucket {
    var successCount: nat
    var failureCount: nat
    var executionTimes: seq<real>
    ghost var obs: seq<TaskRun>

    ghost predicate Valid()
      reads this
    {
      && successCount + failureCount == |obs|
      && successCount == Successes(obs, |obs|)
      && TimesOf(obs, executionTimes)
    }

    /** A valid bucket of these observations. */
    ghost predicate Holds(observations: seq<TaskRun>)
      reads this
    {
      Valid() && obs == observations
    }

    constructor ()
      ensures Valid() && obs == []
    {
      successCount, failureCount, executionTimes := 0, 0, [];
      obs := [];
    }

    method AddSuccess(elapsed: real)
      requires Valid()
      modifies this
      ensures Valid() && obs == old(obs) + [Timed(elapsed, true)]
    {
      successCount := successCount + 1;
      executionTimes := executionTimes + [elapsed];
      TasksAppend(obs, Timed(elapsed, true), |obs|);
      obs := obs + [Timed(elapsed, true)];
    }

    method AddFailure(elapsed: real)
      requires Valid()
      modifies this
      ensures Valid() && obs == old(obs) + [Timed(elapsed, false)]
    {
      failureCount := failureCount + 1;
      executionTimes := executionTimes + [elapsed];
      TasksAppend(obs, Timed(elapsed, false), |obs|);
      obs := obs + [Timed(elapsed, false)];
    }

    method Aggregate() returns (stats: TaskStats)
      requires Valid()
      ensures stats.successCount == Successes(obs, |obs|)
      ensures stats.successCount + stats.failureCount == |obs|
      ensures IsRate(stats.successRate, stats.successCount, |obs|)
      ensures Longest(obs, stats.maxExecutionTime)
    {
      var successRate := Rate(successCount, successCount + failureCount);
      var max := Max(executionTimes);
      LongestOfTimes(obs, executionTimes, max);
      return TaskStats(successCount, failureCount, successRate, max);
    }
  }

  // ---------------------------------------------------------------- the buffer

  /** What a dictionary of buckets has been through: what was recorded and when it
      was flushed; its books; the buckets it holds now; the buckets the flushes returned. */
  datatype Ledger<!K, !B, O> = Ledger(ops: seq<Op<K, O>>, books: Books<K, O>, held: set<B>, gone: set<B>)

  ghost predicate Logged<K, B, O>(l: Ledger<K, B, O>) {
    l.books == BooksAfter(l.ops)
  }

  /** One more recording or flush in the log and the books. */
  ghost function Log<K, B, O>(l: Ledger<K, B, O>, op: Op<K, O>): (r: Ledger<K, B, O>)
    requires Logged(l)
    ensures Logged(r)
  {
    BooksOfPrefix(l.ops, op, |l.ops|);
    l.(ops := l.ops + [op], books := NextBooks(l.books, op))
  }

  // Every live key has a bucket of its own, which holds what the recordings and flushes
  // amount to.

  ghost predicate ApiLive(buffer: map<ApiKey, MetricBucket>, live: map<ApiKey, seq<Request>>, held: set<MetricBucket>)
    reads held
  {
    && buffer.Keys == live.Keys
    && (forall k :: k in buffer ==> buffer[k] in held && buffer[k].Holds(live[k]))
    && (forall k, k' :: k in buffer && k' in buffer && k != k' ==> buffer[k] != buffer[k'])
  }

  ghost predicate CeleryLive(
      buffer: map<CeleryKey, CeleryMetricBucket>, live: map<CeleryKey, seq<TaskRun>>, held: set<CeleryMetricBucket>)
    reads held
  {
    && buffer.Keys == live.Keys
    && (forall k :: k in buffer ==> buffer[k] in held && buffer[k].Holds(live[k]))
    && (forall k, k' :: k in buffer && k' in buffer && k != k' ==> buffer[k] != buffer[k'])
  }

  lemma ApiLiveWith(
      buffer: map<ApiKey, MetricBucket>, live: map<ApiKey, seq<Request>>, held: set<MetricBucket>,
      key: ApiKey, bucket: MetricBucket)
    requires ApiLive(buffer, live, held) && key !in buffer && bucket !in held && bucket.Holds([])
    ensures ApiLive(buffer[key := bucket], live[key := []], held + {bucket})
  {
  }

  lemma CeleryLiveWith(
      buffer: map<CeleryKey, CeleryMetricBucket>, live: map<CeleryKey, seq<TaskRun>>, held: set<CeleryMetricBucket>,
      key: CeleryKey, bucket: CeleryMetricBucket)
    requires CeleryLive(buffer, live, held) && key !in buffer && bucket !in held && bucket.Holds([])
    ensures CeleryLive(buffer[key := bucket], live[key := []], held + {bucket})
  {
  }

  class MetricsBuffer {
    var apiBuffer: map<ApiKey, MetricBucket>
    var celeryBuffer: map<CeleryKey, CeleryMetricBucket>
    ghost var api: Ledger<ApiKey, MetricBucket, Request>
    ghost var celery: Ledger<CeleryKey, CeleryMetricBucket, TaskRun>

    ghost predicate ApiValid()
      reads `apiBuffer, `api, api.held
    {
      && ApiLive(apiBuffer, api.books.live, api.held)
      && api.held !! api.gone
      && Logged(api)
    }

    ghost predicate CeleryValid()
      reads `celeryBuffer, `celery, celery.held
    {
      && CeleryLive(celeryBuffer, celery.books.live, celery.held)
      && celery.held !! celery.gone
      && Logged(celery)
    }

    constructor ()
      ensures ApiValid() && CeleryValid()
      ensures api.ops == [] && celery.ops == []
    {
      apiBuffer, celeryBuffer := map[], map[];
      api, celery := Ledger([], Books([], map[]), {}, {}), Ledger([], Books([], map[]), {}, {});
    }

    /** Makes the key's bucket if it is missing. */
    method EnsureApiBucket(key: ApiKey)
      requires ApiValid()
      modifies `apiBuffer, `api
      ensures api.ops == old(api.ops) && api.books == old(api.books) && api.gone == old(api.gone)
      ensures api.held !! api.gone && fresh(api.held - old(api.held))
      ensures key in apiBuffer
      ensures forall k :: k in old(apiBuffer) ==> k in apiBuffer && apiBuffer[k] == old(apiBuffer)[k]
      ensures ApiLive(apiBuffer, api.books.live[key := Held(api.books.live, key)], api.held)
    {
      if key !in apiBuffer {
        var bucket := new MetricBucket();
        ApiLiveWith(apiBuffer, api.books.live, api.held, key, bucket);
        apiBuffer := apiBuffer[key := bucket];
        api := api.(held := api.held + {bucket});
      } else {
        assert api.books.live[key := Held(api.books.live, key)] == api.books.live;
      }
    }

    method RecordRequest(
        key: ApiKey, elapsed: real, isError: bool, isCacheHit: bool, ghost live: map<ApiKey, seq<Request>>)
      requires key in apiBuffer && ApiLive(apiBuffer, live[key := Held(live, key)], api.held)
      modifies api.held
      ensures
        var o := Timed(elapsed, Response(isError, isCacheHit));
        ApiLive(apiBuffer, live[key := Held(live, key) + [o]], api.held)
    {
      ghost var o := Timed(elapsed, Response(isError, isCacheHit));
      apiBuffer[key].Add(elapsed, isError, isCacheHit);
      forall k | k in apiBuffer ensures apiBuffer[k].Holds(live[key := Held(live, key) + [o]][k]) {
        assert k != key ==> apiBuffer[k] != apiBuffer[key];
        assert k != key ==> unchanged(apiBuffer[k]);
      }
    }

    method AddApiMetric(
        hourKey: int, endpoint: string, statusCode: int, elapsed: real, isError: bool, isCacheHit: bool)
      requires ApiValid()
      modifies `apiBuffer, `api, api.held
      ensures ApiValid()
      ensures
        var o := Timed(elapsed, Response(isError, isCacheHit));
        api.ops == old(api.ops) + [Record(ApiKey(hourKey, endpoint, statusCode), o)]
      ensures forall k :: k in old(apiBuffer) ==> k in apiBuffer && apiBuffer[k] == old(apiBuffer)[k]
      ensures api.gone == old(api.gone) && fresh(api.held - old(api.held))
      ensures forall b :: b in api.gone ==> unchanged(b)
    {
      var key := ApiKey(hourKey, endpoint, statusCode);
      ghost var live := api.books.live;
      EnsureApiBucket(key);
      api := Log(api, Record(key, Timed(elapsed, Response(isError, isCacheHit))));
      RecordRequest(key, elapsed, isError, isCacheHit, live);
    }

    /** Makes the key's bucket if it is missing. */
    method EnsureCeleryBucket(key: CeleryKey)
      requires CeleryValid()
      modifies `celeryBuffer, `celery
      ensures celery.ops == old(celery.ops) && celery.books == old(celery.books) && celery.gone == old(celery.gone)
      ensures celery.held !! celery.gone && fresh(celery.held - old(celery.held))
      ensures key in celeryBuffer
      ensures forall k :: k in old(celeryBuffer) ==> k in celeryBuffer && celeryBuffer[k] == old(celeryBuffer)[k]
      ensures CeleryLive(celeryBuffer, celery.books.live[key := Held(celery.books.live, key)], celery.held)
    {
      if key !in celeryBuffer {
        var bucket := new CeleryMetricBucket();
        CeleryLiveWith(celeryBuffer, celery.books.live, celery.held, key, bucket);
        celeryBuffer := celeryBuffer[key := bucket];
        celery := celery.(held := celery.held + {bucket});
      } else {
        assert celery.books.live[key := Held(celery.books.live, key)] == celery.books.live;
      }
    }

    method RecordTask(
        key: CeleryKey, elapsed: real, isSuccess: bool, ghost live: map<CeleryKey, seq<TaskRun>>)
      requires key in celeryBuffer && CeleryLive(celeryBuffer, live[key := Held(live, key)], celery.held)
      modifies celery.held
      ensures CeleryLive(celeryBuffer, live[key := Held(live, key) + [Timed(elapsed, isSuccess)]], celery.held)
    {
      ghost var o := Timed(elapsed, isSuccess);
      if isSuccess {
        celeryBuffer[key].AddSuccess(elapsed);
      } else {
        celeryBuffer[key].AddFailure(elapsed);
      }
      forall k | k in celeryBuffer
        ensures celeryBuffer[k].Holds(live[key := Held(live, key) + [o]][k])
      {
        assert k != key ==> celeryBuffer[k] != celeryBuffer[key];
        assert k != key ==> unchanged(celeryBuffer[k]);
      }
    }

    method AddCeleryMetric(hourKey: int, taskName: string, elapsed: real, isSuccess: bool)
      requires CeleryValid()
      modifies `celeryBuffer, `celery, celery.held
      ensures CeleryValid()
      ensures celery.ops == old(celery.ops) + [Record(CeleryKey(hourKey, taskName), Timed(elapsed, isSuccess))]
      ensures forall k :: k in old(celeryBuffer) ==> k in celeryBuffer && celeryBuffer[k] == old(celeryBuffer)[k]
      ensures celery.gone == old(celery.gone) && fresh(celery.held - old(celery.held))
      ensures forall b :: b in celery.gone ==> unchanged(b)
    {
      var key := CeleryKey(hourKey, taskName);
      ghost var live := celery.books.live;
      EnsureCeleryBucket(key);
      celery := Log(celery, Record(key, Timed(elapsed, isSuccess)));
      RecordTask(key, elapsed, isSuccess, live);
    }

    method FlushApi() returns (buf: map<ApiKey, MetricBucket>)
      requires ApiValid()
      modifies `apiBuffer, `api
      ensures ApiValid()
      ensures buf == old(apiBuffer) && apiBuffer == map[]
      ensures ApiLive(buf, old(api.books).live, api.gone)
      ensures api.ops == old(api.ops) + [Op<ApiKey, Request>.Flush]
      ensures api.gone == old(api.gone) + old(api.held) && api.held == {}
    {
      buf := apiBuffer;
      apiBuffer := map[];
      api := Log(api.(held := {}, gone := api.gone + api.held), Op<ApiKey, Request>.Flush);
    }

    method FlushCelery() returns (buf: map<CeleryKey, CeleryMetricBucket>)
      requires CeleryValid()
      modifies `celeryBuffer, `celery
      ensures CeleryValid()
      ensures buf == old(celeryBuffer) && celeryBuffer == map[]
      ensures CeleryLive(buf, old(celery.books).live, celery.gone)
      ensures celery.ops == old(celery.ops) + [Op<CeleryKey, TaskRun>.Flush]
      ensures celery.gone == old(celery.gone) + old(celery.held) && celery.held == {}
    {
      buf := celeryBuffer;
      celeryBuffer := map[];
      celery := Log(celery.(held := {}, gone := celery.gone + celery.held), Op<CeleryKey, TaskRun>.Flush);
    }

    /** Returns the very buckets that were live, untouched, and forgets them. */
    method Flush() returns (apiBuf: map<ApiKey, MetricBucket>, celeryBuf: map<CeleryKey, CeleryMetricBucket>)
      requires ApiValid() && CeleryValid()
      modifies `apiBuffer, `api, `celeryBuffer, `celery
      ensures ApiValid() && CeleryValid()
      ensures apiBuf == old(apiBuffer) && celeryBuf == old(celeryBuffer)
      ensures apiBuffer == map[] && celeryBuffer == map[]
      ensures ApiLive(apiBuf, old(api.books).live, api.gone)
      ensures CeleryLive(celeryBuf, old(celery.books).live, celery.gone)
      ensures api.ops == old(api.ops) + [Op<ApiKey, Request>.Flush] && api.gone == old(api.gone) + old(api.held)
      ensures celery.ops == old(celery.ops) + [Op<CeleryKey, TaskRun>.Flush]
      ensures celery.gone == old(celery.gone) + old(celery.held)
    {
      apiBuf := FlushApi();
      celeryBuf := FlushCelery();
    }

    method Size() returns (apiSize: nat, celerySize: nat)
      requires ApiValid() && CeleryValid()
      ensures apiSize == |api.books.live| && celerySize == |celery.books.live|
    {
      assert |apiBuffer.Keys| == |api.books.live.Keys|;
      assert |celeryBuffer.Keys| == |celery.books.live.Keys|;
      return |apiBuffer|, |celeryBuffer|;
    }

    /** Whatever calls brought the buffer here: for every key, what the flushes returned and
        what the live bucket holds is what was recorded, in order and each once. */
    lemma ApiAccounts(k: ApiKey)
      requires ApiValid()
      ensures HandedOut(api.books.out, k) + (if k in apiBuffer then apiBuffer[k].obs else []) == RecordedBy(api.ops, k)
    {
      EveryRunBalances(api.ops, k);
    }

    lemma CeleryAccounts(k: CeleryKey)
      requires CeleryValid()
      ensures HandedOut(celery.books.out, k) + (if k in celeryBuffer then celeryBuffer[k].obs else [])
           == RecordedBy(celery.ops, k)
    {
      EveryRunBalances(celery.ops, k);
    }
  }
}
