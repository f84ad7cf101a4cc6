/** BooksMetricsService: one duration series per search operation in a time-series
    store, created at start-up, appended to after each search, and summarised over
    a recent window. The store is a map from series keys to series. */
module Metrics {
  import opened Common

  /** The operations that have a duration series. */
  datatype MetricOperation = ExternalSearchMetric | LocalSearchMetric {
    function Name(): string {
      match this
      case ExternalSearchMetric => "external_search"
      case LocalSearchMetric => "local_search"
    }
  }

  /** The operations `onModuleInit` creates series for, in order. */
  const InitOperations: seq<MetricOperation> := [ExternalSearchMetric, LocalSearchMetric]
  /** Seven days, in milliseconds. */
  const Retention: nat := 7 * 24 * 60 * 60 * 1000
  /** One hour, in milliseconds: the default window of `getMetrics`. */
  const DefaultTimeRange: int := 3600000
  const KeyExistsMessage: string := "ERR TSDB: key already exists"
  const AlreadyExists: string := "key already exists"
  const MissingKeyMessage: string := "ERR TSDB: the key does not exist"

  /** `api:<operation>:duration` */
  function SeriesKey(op: MetricOperation): string {
    "api:" + op.Name() + ":duration"
  }

  /** The two operations have different series. */
  lemma SeriesKeysDistinct(a: MetricOperation, b: MetricOperation)
    ensures SeriesKey(a) == SeriesKey(b) <==> a == b
  {
    assert SeriesKey(a)[4] == a.Name()[0];
    assert SeriesKey(b)[4] == b.Name()[0];
  }

  datatype Point = Point(timestamp: int, value: int)

  datatype Series = Series(retention: nat, labels: map<string, string>, points: seq<Point>)

  /** The series `onModuleInit` creates for an operation. */
  function FreshSeries(op: MetricOperation): Series {
    Series(Retention, map["operation" := op.Name()], [])
  }

  /** `series` after `ts.add(key, timestamp, value)`; a missing key is created
      without retention or labels. */
  function WithPoint(series: map<string, Series>, key: string, p: Point): (r: map<string, Series>)
    ensures key in r
  {
    if key in series then series[key := series[key].(points := series[key].points + [p])]
    else series[key := Series(0, map[], [p])]
  }

  /** An append adds exactly one point to its own series and leaves every other
      series as it was. */
  lemma WithPointAppendsOne(series: map<string, Series>, key: string, p: Point)
    ensures var r := WithPoint(series, key, p);
      && r.Keys == series.Keys + {key}
      && |r[key].points| == (if key in series then |series[key].points| else 0) + 1
      && r[key].points[|r[key].points| - 1] == p
      && (key in series ==> r[key].points[..|series[key].points|] == series[key].points
                            && r[key].retention == series[key].retention && r[key].labels == series[key].labels)
      && forall k :: k in series && k != key ==> r[k] == series[k]
  {
    var r := WithPoint(series, key, p);
    if key in series {
      assert r[key].points[..|series[key].points|] == series[key].points;
    }
  }

  /** The points with `from <= timestamp <= to`, in order. */
  function InWindow(points: seq<Point>, from: int, to: int): (r: seq<Point>)
    ensures |r| <= |points|
    ensures forall p :: p in r <==> p in points && from <= p.timestamp <= to
    decreases |points|
  {
    if points == [] then []
    else (if from <= points[0].timestamp <= to then [points[0]] else []) + InWindow(points[1..], from, to)
  }

  /** The time-series store. */
  class TimeSeriesStore {
    var series: map<string, Series>

    constructor ()
      ensures series == map[]
    {
      series := map[];
    }

    /** `ts.create(key, { RETENTION, LABELS })`: fails on an existing key; `failure`
        is an error the server raises instead. */
    method Create(key: string, retention: nat, labels: map<string, string>, failure: Option<string>) returns (o: Outcome)
      modifies this
      ensures failure.Some? ==> o == Fail(Rejected(failure.value)) && series == old(series)
      ensures failure.None? && key in old(series) ==> o == Fail(Rejected(KeyExistsMessage)) && series == old(series)
      ensures failure.None? && key !in old(series) ==> o == Pass && series == old(series)[key := Series(retention, labels, [])]
    {
      if failure.Some? {
        o := Fail(Rejected(failure.value));
      } else if key in series {
        o := Fail(Rejected(KeyExistsMessage));
      } else {
        series := series[key := Series(retention, labels, [])];
        o := Pass;
      }
    }

    /** `ts.add(key, timestamp, value)` */
    method Add(key: string, timestamp: int, value: int, failure: Option<string>) returns (o: Outcome)
      modifies this
      ensures failure.Some? ==> o == Fail(Rejected(failure.value)) && series == old(series)
      ensures failure.None? ==> o == Pass && series == WithPoint(old(series), key, Point(timestamp, value))
    {
      if failure.Some? {
        o := Fail(Rejected(failure.value));
      } else {
        series := WithPoint(series, key, Point(timestamp, value));
        o := Pass;
      }
    }

    /** `ts.range(key, from, to)`: the raw points in the inclusive window. */
    function Range(key: string, from: int, to: int): (r: Result<seq<Point>>)
      reads this
      ensures r.Ok? <==> key in series
      ensures r.Ok? ==> forall p :: p in r.value <==> p in series[key].points && from <= p.timestamp <= to
    {
      if key in series then Ok(InWindow(series[key].points, from, to)) else Err(Rejected(MissingKeyMessage))
    }
  }

  /** The result of start-up series creation. */
  datatype Initialized = Initialized(series: map<string, Series>, outcome: Outcome)

  /** The outcome of one `ts.create` during start-up; `failures` maps a key to an
      error the server raises for it. */
  function CreateOutcome(series: map<string, Series>, key: string, failures: map<string, string>): Outcome {
    if key in failures then Fail(Rejected(failures[key]))
    else if key in series then Fail(Rejected(KeyExistsMessage))
    else Pass
  }

  /** `onModuleInit` over the remaining operations: creates each series, ignores an
      error whose message says the key already exists, stops at any other. */
  function InitSeries(series: map<string, Series>, failures: map<string, string>, ops: seq<MetricOperation>): Initialized
    decreases |ops|
  {
    if ops == [] then Initialized(series, Pass)
    else
      var key := SeriesKey(ops[0]);
      match CreateOutcome(series, key, failures)
      case Pass => InitSeries(series[key := FreshSeries(ops[0])], failures, ops[1..])
      case Fail(e) =>
        if Contains(e.message, AlreadyExists) then InitSeries(series, failures, ops[1..])
        else Initialized(series, Fail(e))
  }

  lemma KeyExistsMessageSaysSo()
    ensures Contains(KeyExistsMessage, AlreadyExists)
  {
    assert KeyExistsMessage == "ERR TSDB: " + AlreadyExists;
    ContainsSuffix("ERR TSDB: ", AlreadyExists);
  }

  /** One step of start-up, as the loop in `onModuleInit` takes it. */
  lemma InitSeriesStep(series: map<string, Series>, failures: map<string, string>, ops: seq<MetricOperation>)
    requires ops != []
    ensures var key := SeriesKey(ops[0]);
      var o := CreateOutcome(series, key, failures);
      && (o.Pass? ==> InitSeries(series, failures, ops) == InitSeries(series[key := FreshSeries(ops[0])], failures, ops[1..]))
      && (o.Fail? && Contains(o.error.message, AlreadyExists) ==> InitSeries(series, failures, ops) == InitSeries(series, failures, ops[1..]))
      && (o.Fail? && !Contains(o.error.message, AlreadyExists) ==> InitSeries(series, failures, ops) == Initialized(series, o))
  {
  }

  /** Without server errors, start-up succeeds: both series exist afterwards, a
      series that already existed is kept as it was, and a new one has the
      seven-day retention and its `operation` label. */
  lemma InitCreatesBothSeries(series: map<string, Series>)
    ensures var r := InitSeries(series, map[], InitOperations);
      && r.outcome == Pass
      && r.series.Keys == series.Keys + {SeriesKey(ExternalSearchMetric), SeriesKey(LocalSearchMetric)}
      && (forall k :: k in series ==> r.series[k] == series[k])
      && (forall op :: op in InitOperations && SeriesKey(op) !in series ==> r.series[SeriesKey(op)] == FreshSeries(op))
  {
    KeyExistsMessageSaysSo();
    SeriesKeysDistinct(ExternalSearchMetric, LocalSearchMetric);
    assert InitOperations[1..] == [LocalSearchMetric];
    assert InitOperations[1..][1..] == [];
  }

  /** Start-up is idempotent: running it again changes nothing and still succeeds. */
  lemma InitIdempotent(series: map<string, Series>)
    ensures var once := InitSeries(series, map[], InitOperations);
      InitSeries(once.series, map[], InitOperations) == once
  {
    InitCreatesBothSeries(series);
    var once := InitSeries(series, map[], InitOperations);
    InitCreatesBothSeries(once.series);
    var twice := InitSeries(once.series, map[], InitOperations);
    assert twice.series == once.series;
  }

  /** Any other creation error on the first key is rethrown at once and the store
      is left as it was. */
  lemma InitRethrowsOtherErrors(series: map<string, Series>, failures: map<string, string>)
    requires SeriesKey(ExternalSearchMetric) in failures
    requires !Contains(failures[SeriesKey(ExternalSearchMetric)], AlreadyExists)
    ensures InitSeries(series, failures, InitOperations)
         == Initialized(series, Fail(Rejected(failures[SeriesKey(ExternalSearchMetric)])))
  {
  }

  /** An error on the second key that does not say the key already exists is
      rethrown once the first iteration has run: the store keeps the first series
      if that iteration created it. */
  lemma InitRethrowsLaterErrors(series: map<string, Series>, failures: map<string, string>)
    requires SeriesKey(LocalSearchMetric) in failures
    requires !Contains(failures[SeriesKey(LocalSearchMetric)], AlreadyExists)
    requires SeriesKey(ExternalSearchMetric) in failures ==> Contains(failures[SeriesKey(ExternalSearchMetric)], AlreadyExists)
    ensures var first := SeriesKey(ExternalSearchMetric);
      var created := if first in failures || first in series then series else series[first := FreshSeries(ExternalSearchMetric)];
      InitSeries(series, failures, InitOperations)
        == Initialized(created, Fail(Rejected(failures[SeriesKey(LocalSearchMetric)])))
  {
    KeyExistsMessageSaysSo();
    SeriesKeysDistinct(ExternalSearchMetric, LocalSearchMetric);
    assert InitOperations[1..] == [LocalSearchMetric];
  }

  /** An error that says the key already exists is ignored like the store's own. */
  lemma InitIgnoresAlreadyExists(series: map<string, Series>, failures: map<string, string>)
    requires forall k :: k in failures ==> Contains(failures[k], AlreadyExists)
    ensures InitSeries(series, failures, InitOperations).outcome == Pass
  {
    KeyExistsMessageSaysSo();
    assert InitOperations[1..] == [LocalSearchMetric];
    assert InitOperations[1..][1..] == [];
  }

  /** `getMetrics`'s result. */
  datatype MetricsResponse = MetricsResponse(
    operation: string,
    avgDuration: real,
    minDuration: int,
    maxDuration: int,
    totalRequests: nat,
    timeseriesData: seq<Point>)

  function Sum(values: seq<int>): int
    decreases |values|
  {
    if values == [] then 0 else values[0] + Sum(values[1..])
  }

  /** `Math.min(...values)` */
  function Minimum(values: seq<int>): (m: int)
    requires values != []
    ensures m in values && forall v :: v in values ==> m <= v
    decreases |values|
  {
    if |values| == 1 then values[0]
    else
      var rest := Minimum(values[1..]);
      assert values == [values[0]] + values[1..];
      if values[0] <= rest then values[0] else rest
  }

  /** `Math.max(...values)` */
  function Maximum(values: seq<int>): (m: int)
    requires values != []
    ensures m in values && forall v :: v in values ==> v <= m
    decreases |values|
  {
    if |values| == 1 then values[0]
    else
      var rest := Maximum(values[1..]);
      assert values == [values[0]] + values[1..];
      if values[0] >= rest then values[0] else rest
  }

  /** A lower bound of every value, times the count, is at most the sum. */
  lemma {:induction false} SumAtLeast(values: seq<int>, lo: int)
    requires forall i :: 0 <= i < |values| ==> lo <= values[i]
    ensures |values| * lo <= Sum(values)
    decreases |values|
  {
    if values != [] {
      SumAtLeast(values[1..], lo);
      assert |values| * lo == |values[1..]| * lo + lo;
    }
  }

  /** An upper bound of every value, times the count, is at least the sum. */
  lemma {:induction false} SumAtMost(values: seq<int>, hi: int)
    requires forall i :: 0 <= i < |values| ==> values[i] <= hi
    ensures Sum(values) <= |values| * hi
    decreases |values|
  {
    if values != [] {
      SumAtMost(values[1..], hi);
      assert |values| * hi == |values[1..]| * hi + hi;
    }
  }

  /** The values of the points in order. */
  function Values(points: seq<Point>): (r: seq<int>)
    ensures |r| == |points| && forall i :: 0 <= i < |r| ==> r[i] == points[i].value
  {
    seq(|points|, i requires 0 <= i < |points| => points[i].value)
  }

  /** The summary of the window's values: average, minimum, maximum and count,
      all zero for an empty window; `buckets` is the per-minute series as the
      store returns it. */
  function Summarize(op: MetricOperation, values: seq<int>, buckets: seq<Point>): (r: MetricsResponse)
    ensures r.operation == op.Name() && r.totalRequests == |values| && r.timeseriesData == buckets
    ensures values == [] ==> r.avgDuration == 0.0 && r.minDuration == 0 && r.maxDuration == 0
    ensures values != [] ==> r.minDuration in values && r.maxDuration in values
    ensures values != [] ==> forall v :: v in values ==> r.minDuration <= v <= r.maxDuration
    ensures values != [] ==> r.avgDuration == Sum(values) as real / |values| as real
  {
    if values == [] then MetricsResponse(op.Name(), 0.0, 0, 0, 0, buckets)
    else MetricsResponse(op.Name(), Sum(values) as real / |values| as real, Minimum(values), Maximum(values), |values|, buckets)
  }

  /** The average of a non-empty window, times its count, is its sum. */
  lemma AverageIsMean(op: MetricOperation, values: seq<int>, buckets: seq<Point>)
    requires values != []
    ensures Summarize(op, values, buckets).avgDuration * |values| as real == Sum(values) as real
  {
    QuotientTimesDivisor(Summarize(op, values, buckets).avgDuration, Sum(values) as real, |values| as real);
  }

  lemma QuotientTimesDivisor(q: real, x: real, y: real)
    requires y != 0.0 && q == x / y
    ensures q * y == x
  {
  }

  /** The average of a non-empty window lies between its minimum and its maximum. */
  lemma AverageBetweenMinAndMax(op: MetricOperation, values: seq<int>, buckets: seq<Point>)
    requires values != []
    ensures var r := Summarize(op, values, buckets);
      r.minDuration as real <= r.avgDuration <= r.maxDuration as real
  {
    var r := Summarize(op, values, buckets);
    var lo, hi := Minimum(values), Maximum(values);
    assert r.minDuration == lo && r.maxDuration == hi;
    assert r.avgDuration == Sum(values) as real / |values| as real;
    assert forall i :: 0 <= i < |values| ==> lo <= values[i] <= hi by {
      forall i | 0 <= i < |values| ensures lo <= values[i] <= hi {
        assert values[i] in values;
      }
    }
    SumAtLeast(values, lo);
    SumAtMost(values, hi);
    MeanBetween(|values|, Sum(values), lo, hi);
  }

  /** Dividing a sum between `count*lo` and `count*hi` by the count lands in `[lo, hi]`. */
  lemma MeanBetween(count: nat, sum: int, lo: int, hi: int)
    requires count > 0 && count * lo <= sum <= count * hi
    ensures lo as real <= sum as real / count as real <= hi as real
    ensures (sum as real / count as real) * count as real == sum as real
  {
    var c := count as real;
    var q := sum as real / c;
    assert q * c == sum as real;
    assert (count * lo) as real == c * lo as real;
    assert (count * hi) as real == c * hi as real;
  }

  /** Durations 10, 20 and 30 summarise to average 20, minimum 10, maximum 30 and
      three requests. */
  lemma SummarizeExample(buckets: seq<Point>)
    ensures Summarize(ExternalSearchMetric, [10, 20, 30], buckets)
         == MetricsResponse("external_search", 20.0, 10, 30, 3, buckets)
  {
    var v := [10, 20, 30];
    assert Sum(v) == 60 by {
      assert v[1..] == [20, 30];
      assert v[1..][1..] == [30];
      assert v[1..][1..][1..] == [];
    }
    assert Minimum(v) == 10 && Maximum(v) == 30;
  }

  class BooksMetricsService {
    const ts: TimeSeriesStore

    constructor (ts: TimeSeriesStore)
      ensures this.ts == ts
    {
      this.ts := ts;
    }

    /** `onModuleInit`: creates the series of `external_search` and then
        `local_search`, ignoring "key already exists". */
    method OnModuleInit(failures: map<string, string>) returns (o: Outcome)
      modifies ts
      ensures ts.series == InitSeries(old(ts.series), failures, InitOperations).series
      ensures o == InitSeries(old(ts.series), failures, InitOperations).outcome
    {
      var i := 0;
      while i < |InitOperations|
        invariant 0 <= i <= |InitOperations|
        invariant InitSeries(old(ts.series), failures, InitOperations) == InitSeries(ts.series, failures, InitOperations[i..])
      {
        var op := InitOperations[i];
        var key := SeriesKey(op);
        var failure := if key in failures then Some(failures[key]) else None;
        ghost var before := ts.series;
        InitSeriesStep(before, failures, InitOperations[i..]);
        var created := ts.Create(key, Retention, map["operation" := op.Name()], failure);
        assert created == CreateOutcome(before, key, failures);
        assert created.Pass? ==> ts.series == before[key := FreshSeries(op)];
        assert InitOperations[i..][1..] == InitOperations[i + 1..];
        if created.Fail? && !Contains(created.error.message, AlreadyExists) {
          return created;
        }
        i := i + 1;
      }
      o := Pass;
    }

    /** `recordSearchDuration(operation, duration)`: one point at `now`; `failure`
        is an error the store raises instead. */
    method RecordSearchDuration(op: MetricOperation, duration: int, now: int, failure: Option<string>) returns (o: Outcome)
      modifies ts
      ensures failure.Some? ==> o == Fail(Rejected(failure.value)) && ts.series == old(ts.series)
      ensures failure.None? ==> o == Pass && ts.series == WithPoint(old(ts.series), SeriesKey(op), Point(now, duration))
    {
      o := ts.Add(SeriesKey(op), now, duration, failure);
    }

    /** `getMetrics(operation, timeRange = 3600000)` at time `now`: the summary of the
        raw points in `[now - timeRange, now]`; `buckets` is the per-minute average
        series the store computes for the same window. */
    function GetMetrics(op: MetricOperation, timeRange: Option<int>, now: int, buckets: seq<Point>): (r: Result<MetricsResponse>)
      reads this, ts
      ensures r.Ok? <==> SeriesKey(op) in ts.series
      ensures r.Ok? ==>
        var window := InWindow(ts.series[SeriesKey(op)].points, now - timeRange.GetOr(DefaultTimeRange), now);
        r.value == Summarize(op, Values(window), buckets)
    {
      match ts.Range(SeriesKey(op), now - timeRange.GetOr(DefaultTimeRange), now)
      case Ok(points) => Ok(Summarize(op, Values(points), buckets))
      case Err(e) => Err(e)
    }
  }
}
