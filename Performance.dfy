/** PerformanceMonitoringService, integer part: per-operation request,
    error and total-time counters, and a history of recent metrics capped
    at 1000. Times are whole milliseconds; the clock is the `now`
    argument. */
module Performance {
  import opened Streams

  const MaxMetricsHistory: nat := 1000

  datatype PerformanceMetric = PerformanceMetric(
    timestamp: int,
    operation: string,
    executionTimeMs: int,
    success: bool,
    errorMessage: Option<string>,
    additionalInfo: Option<string>)

  /** The four fields of the service. */
  datatype Counters = Counters(
    requestCounts: map<string, nat>,
    totalExecutionTime: map<string, int>,
    errorCounts: map<string, nat>,
    recentMetrics: seq<PerformanceMetric>)

  /** A total-time counter read with a missing entry as 0. */
  function TotalTime(m: map<string, int>, op: string): int {
    if op in m then m[op] else 0
  }

  /** What the service keeps true: an operation never has more errors than
      requests, the time counter exists exactly when the request counter
      does, and the history is within its cap. */
  ghost predicate ValidCounters(st: Counters) {
    && (forall op :: op in st.errorCounts ==> op in st.requestCounts && st.errorCounts[op] <= st.requestCounts[op])
    && st.totalExecutionTime.Keys == st.requestCounts.Keys
    && |st.recentMetrics| <= MaxMetricsHistory
  }

  /** Errors never outnumber requests, for any operation name. */
  lemma ErrorsNeverExceedRequests(st: Counters, op: string)
    requires ValidCounters(st)
    ensures GetOrZero(st.errorCounts, op) <= GetOrZero(st.requestCounts, op)
  {
  }

  /** `recordOperation`: one more request, the time added to the total, one
      more error when it failed, and the metric appended to the capped
      history. */
  function Recorded(st: Counters, operation: string, executionTimeMs: int, success: bool,
                    errorMessage: Option<string>, additionalInfo: Option<string>, now: int): (r: Counters)
    ensures GetOrZero(r.requestCounts, operation) == GetOrZero(st.requestCounts, operation) + 1
    ensures TotalTime(r.totalExecutionTime, operation) == TotalTime(st.totalExecutionTime, operation) + executionTimeMs
    ensures GetOrZero(r.errorCounts, operation) == GetOrZero(st.errorCounts, operation) + (if success then 0 else 1)
    ensures |st.recentMetrics| < MaxMetricsHistory ==>
      r.recentMetrics == st.recentMetrics + [PerformanceMetric(now, operation, executionTimeMs, success, errorMessage, additionalInfo)]
    ensures |st.recentMetrics| == MaxMetricsHistory ==>
      r.recentMetrics == st.recentMetrics[1..] + [PerformanceMetric(now, operation, executionTimeMs, success, errorMessage, additionalInfo)]
    ensures ValidCounters(st) ==> ValidCounters(r)
  {
    var metric := PerformanceMetric(now, operation, executionTimeMs, success, errorMessage, additionalInfo);
    Counters(
      Bump(st.requestCounts, operation),
      st.totalExecutionTime[operation := TotalTime(st.totalExecutionTime, operation) + executionTimeMs],
      if success then st.errorCounts else Bump(st.errorCounts, operation),
      AppendDropOldest(st.recentMetrics, metric, MaxMetricsHistory))
  }

  /** Recording one operation leaves every other operation's counters as
      they were. */
  lemma RecordedTouchesOnlyItsOperation(st: Counters, operation: string, executionTimeMs: int, success: bool,
                                        errorMessage: Option<string>, additionalInfo: Option<string>, now: int, other: string)
    requires other != operation
    ensures var r := Recorded(st, operation, executionTimeMs, success, errorMessage, additionalInfo, now);
      && GetOrZero(r.requestCounts, other) == GetOrZero(st.requestCounts, other)
      && TotalTime(r.totalExecutionTime, other) == TotalTime(st.totalExecutionTime, other)
      && GetOrZero(r.errorCounts, other) == GetOrZero(st.errorCounts, other)
  {
  }

  /** Java's `long` division, which truncates toward zero. */
  function JavaDiv(a: int, b: int): (q: int)
    requires b > 0
    ensures a >= 0 ==> q * b <= a < (q + 1) * b
    ensures a < 0 ==> (q - 1) * b < a <= q * b
  {
    if a >= 0 then a / b else -((-a) / b)
  }

  datatype OperationStatistics = OperationStatistics(
    operation: string,
    totalRequests: nat,
    totalExecutionTimeMs: int,
    averageExecutionTimeMs: int,
    errorCount: nat)

  /** `getOperationStatistics`, without the floating-point success rate: a
      missing counter reads as 0, and the average is 0 when there were no
      requests. */
  function GetOperationStatistics(st: Counters, operation: string): (s: OperationStatistics)
    ensures s.totalRequests == GetOrZero(st.requestCounts, operation)
    ensures s.totalExecutionTimeMs == TotalTime(st.totalExecutionTime, operation)
    ensures s.errorCount == GetOrZero(st.errorCounts, operation)
    ensures s.totalRequests == 0 ==> s.averageExecutionTimeMs == 0
    ensures s.totalRequests > 0 && s.totalExecutionTimeMs >= 0 ==>
      s.averageExecutionTimeMs * s.totalRequests <= s.totalExecutionTimeMs < (s.averageExecutionTimeMs + 1) * s.totalRequests
  {
    var requestCount := GetOrZero(st.requestCounts, operation);
    var totalExecutionMs := TotalTime(st.totalExecutionTime, operation);
    var errorCount := GetOrZero(st.errorCounts, operation);
    OperationStatistics(operation, requestCount, totalExecutionMs,
                        if requestCount > 0 then JavaDiv(totalExecutionMs, requestCount) else 0, errorCount)
  }

  /** An operation never recorded, or reset, reports zeros. */
  lemma UnknownOperationReportsZeros(st: Counters, operation: string)
    requires operation !in st.requestCounts && operation !in st.totalExecutionTime && operation !in st.errorCounts
    ensures GetOperationStatistics(st, operation) == OperationStatistics(operation, 0, 0, 0, 0)
  {
  }

  /** After n recordings of one fresh operation at the same cost, the
      average is that cost. */
  lemma AverageOfEqualTimes(st: Counters, operation: string, n: nat, t: int)
    requires n > 0 && GetOrZero(st.requestCounts, operation) == n && TotalTime(st.totalExecutionTime, operation) == n * t
    ensures GetOperationStatistics(st, operation).averageExecutionTimeMs == t
  {
    var q := GetOperationStatistics(st, operation).averageExecutionTimeMs;
    assert q == JavaDiv(n * t, n);
    if q < t {
      MultiplyMonotone(q + 1, t, n);
      MultiplyMonotone(q, t - 1, n);
    } else if q > t {
      MultiplyMonotone(t + 1, q, n);
      MultiplyMonotone(t, q - 1, n);
    }
  }

  lemma MultiplyMonotone(a: int, b: int, n: nat)
    requires a <= b
    ensures a * n <= b * n
  {
    assert b * n - a * n == (b - a) * n;
  }

  /** `resetStatistics`. */
  function Reset(st: Counters): (r: Counters)
    ensures ValidCounters(r)
    ensures forall op :: GetOperationStatistics(r, op) == OperationStatistics(op, 0, 0, 0, 0)
  {
    Counters(map[], map[], map[], [])
  }

  /** The metric records an operation other than `op`. */
  function NotFor(op: string): PerformanceMetric -> bool {
    (m: PerformanceMetric) => m.operation != op
  }

  /** `resetStatisticsForOperation(op)`: removes op's three counters and
      op's metrics. */
  function ResetOperation(st: Counters, op: string): (r: Counters)
    ensures GetOperationStatistics(r, op) == OperationStatistics(op, 0, 0, 0, 0)
    ensures forall m :: m in r.recentMetrics <==> m in st.recentMetrics && m.operation != op
    ensures forall m :: multiset(r.recentMetrics)[m] == if m.operation != op then multiset(st.recentMetrics)[m] else 0
    ensures IsSubsequence(r.recentMetrics, st.recentMetrics)
    ensures ValidCounters(st) ==> ValidCounters(r)
  {
    forall m ensures m in Filter(st.recentMetrics, NotFor(op)) <==> m in st.recentMetrics && m.operation != op {
      FilterMembership(st.recentMetrics, NotFor(op), m);
    }
    forall m ensures multiset(Filter(st.recentMetrics, NotFor(op)))[m] ==
      if m.operation != op then multiset(st.recentMetrics)[m] else 0 {
      FilterMultiset(st.recentMetrics, NotFor(op), m);
    }
    FilterIsSubsequence(st.recentMetrics, NotFor(op));
    Counters(st.requestCounts - {op}, st.totalExecutionTime - {op}, st.errorCounts - {op},
             Filter(st.recentMetrics, NotFor(op)))
  }

  /** Resetting one operation leaves the statistics of every other
      operation as they were. */
  lemma ResetOperationKeepsOthers(st: Counters, op: string, other: string)
    requires other != op
    ensures GetOperationStatistics(ResetOperation(st, op), other) == GetOperationStatistics(st, other)
  {
  }

  /** The sort key that puts the slowest metric first. */
  function Slowness(m: PerformanceMetric): int {
    -m.executionTimeMs
  }

  /** The metric took longer than `thresholdMs`. */
  function SlowerThan(thresholdMs: int): PerformanceMetric -> bool {
    (m: PerformanceMetric) => m.executionTimeMs > thresholdMs
  }

  /** `getSlowOperations(thresholdMs, limit)`; None is the
      IllegalArgumentException a negative limit raises. */
  function GetSlowOperations(st: Counters, thresholdMs: int, limit: int): Option<seq<PerformanceMetric>> {
    Limit(SortBy(Filter(st.recentMetrics, SlowerThan(thresholdMs)), Slowness), limit)
  }

  /** At most `limit` metrics, each slower than the threshold and taken from
      the history, slowest first; no slow metric left out is slower than one
      returned. */
  lemma SlowOperationsAreTheSlowest(st: Counters, thresholdMs: int, limit: int)
    ensures GetSlowOperations(st, thresholdMs, limit).None? <==> limit < 0
    ensures GetSlowOperations(st, thresholdMs, limit).Some? ==>
      var r := GetSlowOperations(st, thresholdMs, limit).value;
      var slow := Filter(st.recentMetrics, SlowerThan(thresholdMs));
      && |r| == (if limit < |slow| then limit else |slow|)
      && multiset(r) <= multiset(slow)
      && (forall m :: m in r ==> m in st.recentMetrics && m.executionTimeMs > thresholdMs)
      && (forall i, j :: 0 <= i < j < |r| ==> r[j].executionTimeMs <= r[i].executionTimeMs)
      && (forall e, x :: e in r && x in multiset(slow) - multiset(r) ==> x.executionTimeMs <= e.executionTimeMs)
  {
    if limit >= 0 {
      var slow := Filter(st.recentMetrics, SlowerThan(thresholdMs));
      var sorted := SortBy(slow, Slowness);
      var n := if limit < |sorted| then limit else |sorted|;
      var r := GetSlowOperations(st, thresholdMs, limit).value;
      assert r == sorted[..n];
      SortedPrefix(sorted, Slowness, n);
      forall m | m in r ensures m in st.recentMetrics && m.executionTimeMs > thresholdMs {
        assert m in multiset(sorted);
        FilterMembership(st.recentMetrics, SlowerThan(thresholdMs), m);
      }
    }
  }

  class PerformanceMonitoringService {
    var requestCounts: map<string, nat>
    var totalExecutionTime: map<string, int>
    var errorCounts: map<string, nat>
    var recentMetrics: seq<PerformanceMetric>

    function Model(): Counters
      reads this
    {
      Counters(requestCounts, totalExecutionTime, errorCounts, recentMetrics)
    }

    ghost predicate Valid()
      reads this
    {
      ValidCounters(Model())
    }

    constructor ()
      ensures Valid()
      ensures Model() == Counters(map[], map[], map[], [])
    {
      requestCounts := map[];
      totalExecutionTime := map[];
      errorCounts := map[];
      recentMetrics := [];
    }

    method RecordOperation(operation: string, executionTimeMs: int, success: bool,
                           errorMessage: Option<string>, additionalInfo: Option<string>, now: int)
      modifies this
      ensures Model() == Recorded(old(Model()), operation, executionTimeMs, success, errorMessage, additionalInfo, now)
      ensures old(Valid()) ==> Valid()
    {
      requestCounts := Bump(requestCounts, operation);
      totalExecutionTime := totalExecutionTime[operation := TotalTime(totalExecutionTime, operation) + executionTimeMs];
      if !success {
        errorCounts := Bump(errorCounts, operation);
      }
      var metric := PerformanceMetric(now, operation, executionTimeMs, success, errorMessage, additionalInfo);
      recentMetrics := recentMetrics + [metric];
      if |recentMetrics| > MaxMetricsHistory {
        recentMetrics := recentMetrics[1..];
      }
    }

    method ResetStatistics()
      modifies this
      ensures Model() == Reset(old(Model()))
      ensures Valid()
    {
      requestCounts := map[];
      totalExecutionTime := map[];
      errorCounts := map[];
      recentMetrics := [];
    }

    method ResetStatisticsForOperation(operation: string)
      modifies this
      ensures Model() == ResetOperation(old(Model()), operation)
      ensures old(Valid()) ==> Valid()
    {
      requestCounts := requestCounts - {operation};
      totalExecutionTime := totalExecutionTime - {operation};
      errorCounts := errorCounts - {operation};
      recentMetrics := Filter(recentMetrics, NotFor(operation));
    }
  }
}
