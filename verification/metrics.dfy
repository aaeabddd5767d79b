/** Counters in a map whose missing keys read as zero, as `defaultdict(int)` does. */
module Counting {

  function Count<K>(counts: map<K, nat>, key: K): nat {
    if key in counts then counts[key] else 0
  }

  function Bumped<K(!new)>(counts: map<K, nat>, key: K): (more: map<K, nat>)
    ensures Count(more, key) == Count(counts, key) + 1
    ensures forall other :: other != key ==> Count(more, other) == Count(counts, other)
  {
    counts[key := Count(counts, key) + 1]
  }
}

/**
 The metrics registry (ai_bridge/metrics.py): counters bumped in place, and a cumulative
 latency histogram whose buckets are specified by the history of observations.
 */
module Metrics {
  import opened Wrappers
  import opened TaskStates
  import opened Counting

  // ----- Bucket validation -----

  datatype BucketError = Empty | NotPositive | NotIncreasing

  ghost predicate BucketsOk(buckets: seq<real>) {
    buckets != [] && buckets[0] > 0.0 && forall i, j :: 0 <= i < j < |buckets| ==> buckets[i] < buckets[j]
  }

  /** The first bucket that is not above zero, or not above its predecessor. */
  ghost predicate FirstBadBucket(buckets: seq<real>, i: int) {
    0 <= i < |buckets|
    && (buckets[i] <= 0.0 || (i > 0 && buckets[i] <= buckets[i - 1]))
    && (i > 0 ==> BucketsOk(buckets[..i]))
  }

  lemma BadBucketRefutes(buckets: seq<real>, i: int)
    requires FirstBadBucket(buckets, i)
    ensures !BucketsOk(buckets)
  {
  }

  lemma BucketsExtend(buckets: seq<real>, i: nat)
    requires i < |buckets| && buckets[i] > 0.0 && (i > 0 ==> BucketsOk(buckets[..i]) && buckets[i - 1] < buckets[i])
    ensures BucketsOk(buckets[..i + 1])
  {
    var longer := buckets[..i + 1];
    forall j, k | 0 <= j < k < |longer| ensures longer[j] < longer[k] {
      if k == i && j < i - 1 {
        assert buckets[..i][j] < buckets[..i][i - 1];
      } else if k < i {
        assert buckets[..i][j] < buckets[..i][k];
      }
    }
  }

  /**
   `_validate_buckets`: accepted exactly when non-empty, positive and strictly increasing; otherwise the first offender
   decides the message.
   */
  method ValidateBuckets(buckets: seq<real>) returns (r: Result<seq<real>, BucketError>)
    ensures r.Ok? <==> BucketsOk(buckets)
    ensures r.Ok? ==> r.value == buckets
    ensures r == Err(Empty) <==> buckets == []
    ensures r == Err(NotPositive) ==> exists i :: FirstBadBucket(buckets, i) && buckets[i] <= 0.0
    ensures r == Err(NotIncreasing) ==> exists i :: FirstBadBucket(buckets, i) && buckets[i] > 0.0
  {
    if buckets == [] {
      return Err(Empty);
    }
    var previous := 0.0;
    for i := 0 to |buckets|
      invariant previous == if i == 0 then 0.0 else buckets[i - 1]
      invariant previous >= 0.0
      invariant i > 0 ==> BucketsOk(buckets[..i])
    {
      var bucket := buckets[i];
      if bucket <= 0.0 {
        BadBucketRefutes(buckets, i);
        return Err(NotPositive);
      }
      if bucket <= previous {
        BadBucketRefutes(buckets, i);
        return Err(NotIncreasing);
      }
      BucketsExtend(buckets, i);
      previous := bucket;
    }
    assert buckets[..|buckets|] == buckets;
    r := Ok(buckets);
  }

  // ----- The histogram's meaning -----

  /** How many observations are at most the bound. */
  function AtMost(observations: seq<real>, bound: real): nat {
    if observations == [] then 0
    else AtMost(observations[..|observations| - 1], bound) + (if observations[|observations| - 1] <= bound then 1 else 0)
  }

  function Total(observations: seq<real>): real {
    if observations == [] then 0.0 else Total(observations[..|observations| - 1]) + observations[|observations| - 1]
  }

  lemma AtMostAppend(observations: seq<real>, seconds: real, bound: real)
    ensures AtMost(observations + [seconds], bound) == AtMost(observations, bound) + (if seconds <= bound then 1 else 0)
    ensures Total(observations + [seconds]) == Total(observations) + seconds
  {
    assert (observations + [seconds])[..|observations|] == observations;
  }

  /** Buckets are cumulative: a larger bound counts at least as much, and none exceeds the number of observations. */
  lemma {:induction false} AtMostMonotone(observations: seq<real>, low: real, high: real)
    requires low <= high
    ensures AtMost(observations, low) <= AtMost(observations, high) <= |observations|
  {
    if observations != [] {
      AtMostMonotone(observations[..|observations| - 1], low, high);
    }
  }

  function Seen(observations: map<WorkerId, seq<real>>, worker: WorkerId): seq<real> {
    if worker in observations then observations[worker] else []
  }

  function SumOf(sums: map<WorkerId, real>, worker: WorkerId): real {
    if worker in sums then sums[worker] else 0.0
  }

  /** The count and the sum of each worker are those of its observations. */
  ghost predicate ShowsTotals(counts: map<WorkerId, nat>, sums: map<WorkerId, real>, observations: map<WorkerId,
                              seq<real>>) {
    && (forall worker: WorkerId :: Count(counts, worker) == |Seen(observations, worker)|)
    && (forall worker: WorkerId :: SumOf(sums, worker) == Total(Seen(observations, worker)))
  }

  /** Each bucket of each worker counts the observations it bounds. */
  ghost predicate ShowsBuckets(inBuckets: map<(WorkerId, real), nat>, bounds: seq<real>, observations: map<WorkerId,
                               seq<real>>) {
    forall worker: WorkerId, bound: real :: bound in bounds ==>
      Count(inBuckets, (worker, bound)) == AtMost(Seen(observations, worker), bound)
  }

  /** The three latency tables show exactly these observations. */
  ghost predicate Shows(counts: map<WorkerId, nat>, sums: map<WorkerId, real>, inBuckets: map<(WorkerId, real), nat>,
                        bounds: seq<real>, observations: map<WorkerId, seq<real>>) {
    ShowsTotals(counts, sums, observations) && ShowsBuckets(inBuckets, bounds, observations)
  }

  lemma TotalsOneMore(counts: map<WorkerId, nat>, sums: map<WorkerId, real>, observations: map<WorkerId, seq<real>>,
                      worker: WorkerId, seconds: real)
    requires ShowsTotals(counts, sums, observations)
    ensures ShowsTotals(Bumped(counts, worker), sums[worker := SumOf(sums, worker) + seconds],
                        observations[worker := Seen(observations, worker) + [seconds]])
  {
    var more := observations[worker := Seen(observations, worker) + [seconds]];
    AtMostAppend(Seen(observations, worker), seconds, 0.0);
    forall other: WorkerId
      ensures Count(Bumped(counts, worker), other) == |Seen(more, other)|
      ensures SumOf(sums[worker := SumOf(sums, worker) + seconds], other) == Total(Seen(more, other))
    {
      assert Count(counts, other) == |Seen(observations, other)|
        && SumOf(sums, other) == Total(Seen(observations, other));
    }
  }

  /** The first i buckets have taken the observation, the rest and the other workers' have not. */
  ghost predicate BucketsGrown(before: map<(WorkerId, real), nat>, now: map<(WorkerId, real), nat>, buckets: seq<real>,
                               worker: WorkerId, seconds: real, i: int) {
    && 0 <= i <= |buckets|
    && (forall j :: 0 <= j < |buckets| ==>
          Count(now, (worker, buckets[j]))
            == Count(before, (worker, buckets[j])) + (if j < i && seconds <= buckets[j] then 1 else 0))
    && (forall other: WorkerId, bucket: real :: other != worker ==>
      Count(now, (other, bucket)) == Count(before, (other, bucket)))
  }

  lemma BucketTaken(before: map<(WorkerId, real), nat>, now: map<(WorkerId, real), nat>, buckets: seq<real>,
                    worker: WorkerId, seconds: real, i: nat)
    requires BucketsOk(buckets) && i < |buckets| && BucketsGrown(before, now, buckets, worker, seconds, i)
    ensures seconds <= buckets[i] ==>
      BucketsGrown(before, Bumped(now, (worker, buckets[i])), buckets, worker, seconds, i + 1)
    ensures seconds > buckets[i] ==> BucketsGrown(before, now, buckets, worker, seconds, i + 1)
  {
    assert forall j :: 0 <= j < |buckets| && j != i ==> buckets[j] != buckets[i];
  }

  lemma GrownEverywhere(before: map<(WorkerId, real), nat>, now: map<(WorkerId, real), nat>, buckets: seq<real>,
                        worker: WorkerId, seconds: real)
    requires BucketsGrown(before, now, buckets, worker, seconds, |buckets|)
    ensures forall bucket: real :: bucket in buckets ==>
              Count(now, (worker, bucket)) == Count(before, (worker, bucket)) + (if seconds <= bucket then 1 else 0)
  {
  }

  lemma BucketsOneMore(before: map<(WorkerId, real), nat>, now: map<(WorkerId, real), nat>, bounds: seq<real>,
                       observations: map<WorkerId, seq<real>>, worker: WorkerId, seconds: real)
    requires ShowsBuckets(before, bounds, observations) && BucketsGrown(before, now, bounds, worker, seconds, |bounds|)
    ensures ShowsBuckets(now, bounds, observations[worker := Seen(observations, worker) + [seconds]])
  {
    var more := observations[worker := Seen(observations, worker) + [seconds]];
    GrownEverywhere(before, now, bounds, worker, seconds);
    forall other: WorkerId, bound: real | bound in bounds
      ensures Count(now, (other, bound)) == AtMost(Seen(more, other), bound)
    {
      assert Count(before, (other, bound)) == AtMost(Seen(observations, other), bound);
      AtMostAppend(Seen(observations, worker), seconds, bound);
    }
  }

  /** After the loop over the buckets the tables show the history extended by this observation, for every worker. */
  lemma ShowsOneMore(counts: map<WorkerId, nat>, sums: map<WorkerId, real>, before: map<(WorkerId, real), nat>,
                     now: map<(WorkerId, real), nat>,
                     bounds: seq<real>, observations: map<WorkerId, seq<real>>, worker: WorkerId, seconds: real)
    requires Shows(counts, sums, before, bounds, observations)
    requires BucketsGrown(before, now, bounds, worker, seconds, |bounds|)
    ensures Shows(Bumped(counts, worker), sums[worker := SumOf(sums, worker) + seconds], now, bounds,
                  observations[worker := Seen(observations, worker) + [seconds]])
  {
    TotalsOneMore(counts, sums, observations, worker, seconds);
    BucketsOneMore(before, now, bounds, observations, worker, seconds);
  }

  class MetricsRegistry {
    var tasksCreated: map<(WorkerId, Mode), nat>
    var tasksCompleted: map<(WorkerId, TaskState), nat>
    var workerFailures: map<WorkerId, nat>
    var circuitOpen: map<WorkerId, nat>
    var workerCallCount: map<WorkerId, nat>
    var workerCallSum: map<WorkerId, real>
    var workerCallBuckets: map<(WorkerId, real), nat>
    const workerCallSecondsBuckets: seq<real>
    /** Every duration observed for each worker, in order. */
    ghost var observations: map<WorkerId, seq<real>>

    /** The histogram shows exactly the observed history. */
    ghost predicate Valid()
      reads this`workerCallCount, this`workerCallSum, this`workerCallBuckets, this`observations
    {
      BucketsOk(workerCallSecondsBuckets)
      && Shows(workerCallCount, workerCallSum, workerCallBuckets, workerCallSecondsBuckets, observations)
    }

    constructor (buckets: seq<real>)
      requires BucketsOk(buckets)
      ensures Valid() && workerCallSecondsBuckets == buckets
      ensures tasksCreated == map[] && tasksCompleted == map[] && workerFailures == map[] && circuitOpen == map[]
        && observations == map[]
    {
      tasksCreated, tasksCompleted := map[], map[];
      workerFailures, circuitOpen := map[], map[];
      workerCallCount, workerCallSum, workerCallBuckets := map[], map[], map[];
      workerCallSecondsBuckets := buckets;
      observations := map[];
    }

    method IncTaskCreated(worker: WorkerId, mode: Mode)
      modifies this`tasksCreated
      ensures tasksCreated == Bumped(old(tasksCreated), (worker, mode))
    {
      tasksCreated := Bumped(tasksCreated, (worker, mode));
    }

    method IncTaskCompleted(worker: WorkerId, state: TaskState)
      modifies this`tasksCompleted
      ensures tasksCompleted == Bumped(old(tasksCompleted), (worker, state))
    {
      tasksCompleted := Bumped(tasksCompleted, (worker, state));
    }

    method IncWorkerFailure(worker: WorkerId)
      modifies this`workerFailures
      ensures workerFailures == Bumped(old(workerFailures), worker)
    {
      workerFailures := Bumped(workerFailures, worker);
    }

    method IncCircuitOpen(worker: WorkerId)
      modifies this`circuitOpen
      ensures circuitOpen == Bumped(old(circuitOpen), worker)
    {
      circuitOpen := Bumped(circuitOpen, worker);
    }

    /** The loop over the buckets. */
    method FillBuckets(worker: WorkerId, seconds: real)
      requires BucketsOk(workerCallSecondsBuckets)
      modifies this`workerCallBuckets
      ensures BucketsGrown(old(workerCallBuckets), workerCallBuckets, workerCallSecondsBuckets, worker, seconds,
        |workerCallSecondsBuckets|)
    {
      var bounds := workerCallSecondsBuckets;
      for i := 0 to |bounds|
        invariant BucketsGrown(old(workerCallBuckets), workerCallBuckets, bounds, worker, seconds, i)
      {
        BucketTaken(old(workerCallBuckets), workerCallBuckets, bounds, worker, seconds, i);
        if seconds <= bounds[i] {
          workerCallBuckets := Bumped(workerCallBuckets, (worker, bounds[i]));
        }
      }
    }

    /** One more observation for this worker; every bucket that bounds it, and no other, grows by one. */
    method ObserveWorkerCall(worker: WorkerId, seconds: real)
      requires Valid()
      modifies this`workerCallCount, this`workerCallSum, this`workerCallBuckets, this`observations
      ensures Valid()
      ensures observations == old(observations)[worker := Seen(old(observations), worker) + [seconds]]
    {
      ghost var counts, sums, buckets := workerCallCount, workerCallSum, workerCallBuckets;
      workerCallCount := Bumped(workerCallCount, worker);
      workerCallSum := workerCallSum[worker := SumOf(workerCallSum, worker) + seconds];
      FillBuckets(worker, seconds);
      ShowsOneMore(counts, sums, buckets, workerCallBuckets, workerCallSecondsBuckets, observations, worker, seconds);
      observations := observations[worker := Seen(observations, worker) + [seconds]];
    }
  }

  /** What `render` prints: buckets grow with their bound and stay within the count printed as +Inf. */
  lemma RenderedHistogram(registry: MetricsRegistry, worker: WorkerId, i: nat, j: nat)
    requires registry.Valid() && i <= j < |registry.workerCallSecondsBuckets|
    ensures Count(registry.workerCallBuckets, (worker, registry.workerCallSecondsBuckets[i]))
         <= Count(registry.workerCallBuckets, (worker, registry.workerCallSecondsBuckets[j]))
         <= Count(registry.workerCallCount, worker)
  {
    var low, high := registry.workerCallSecondsBuckets[i], registry.workerCallSecondsBuckets[j];
    AtMostMonotone(Seen(registry.observations, worker), low, high);
  }
}
