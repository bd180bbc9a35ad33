/** The demo backend `SampleController` (Sample.WebApi/Controllers/SampleController.cs):
    evenly spaced points over the requested range, valued 0, 1, 2, ... */
module Sample {
  import opened Wrappers
  import opened MetricTypes
  import opened Models
  import opened SimpleJson

  function Abs(x: int): nat
  {
    if x < 0 then -x else x
  }

  /** C#'s conversion of a quotient to `int`, which truncates toward zero:
      the magnitude is the quotient of the magnitudes and the sign is the
      product of the signs. */
  function TruncDiv(a: int, b: int): (q: int)
    requires b != 0
    ensures Abs(q) == Abs(a) / Abs(b)
    ensures q > 0 ==> (a > 0) == (b > 0)
    ensures q < 0 ==> (a > 0) != (b > 0)
    ensures q == 0 <==> Abs(a) < Abs(b)
  {
    var x, y := Abs(a), Abs(b);
    DivFacts(x, y);
    var m := x / y;
    if (a < 0) == (b < 0) then m else -m
  }

  lemma DivFacts(x: nat, y: nat)
    requires y > 0
    ensures x / y >= 0
    ensures x < y <==> x / y == 0
    ensures x / y * y <= x
  {
    if x >= y {
      DivAtLeastOne(x, y);
    }
  }

  /** The capacity `(int)(timeRange.AsTimeSpan() / interval)` of the list,
      or `None` where `new List(capacity)` throws: a negative capacity, and
      the zero interval and quotients beyond `int`, whose conversion gives
      `int.MinValue`. */
  function Capacity(range: TimeRange, intervalMs: int): (n: Option<nat>)
    ensures intervalMs > 0 && range.from <= range.to && AsTimeSpan(range) / intervalMs <= Int32Max
            ==> n == Some(AsTimeSpan(range) / intervalMs)
    ensures n.Some? ==> n.value <= Int32Max && n.value * Abs(intervalMs) <= Abs(AsTimeSpan(range))
    ensures n.Some? <==>
              intervalMs != 0 && Abs(AsTimeSpan(range)) / Abs(intervalMs) <= Int32Max &&
              (Abs(AsTimeSpan(range)) < Abs(intervalMs) || (AsTimeSpan(range) < 0) == (intervalMs < 0))
  {
    if intervalMs == 0 then None
    else
      var q := TruncDiv(AsTimeSpan(range), intervalMs);
      if 0 <= q <= Int32Max then Some(q) else None
  }

  /** Point `i`: time `from + i * interval`, value `i`. */
  function SamplePoint(from: int, intervalMs: int, i: nat): (p: TimeSeriesData)
    ensures p.value == i && p.time == from + i * intervalMs
  {
    TimeSeriesData(i, from + i * intervalMs)
  }

  /** The first `n` sample points. */
  function SamplePoints(from: int, intervalMs: int, n: nat): (ps: seq<TimeSeriesData>)
    ensures |ps| == n
    ensures forall i :: 0 <= i < n ==> ps[i] == SamplePoint(from, intervalMs, i)
  {
    seq(n, i requires 0 <= i < n => SamplePoint(from, intervalMs, i))
  }

  /** What the sample `GetTimeSeriesData` produces for a call. */
  function SampleSeries(call: SeriesCall): (r: Fetch)
    ensures r.Raised? <==> Capacity(call.range, call.intervalMs).None?
    ensures r.Raised? ==> r.fault == ArgumentOutOfRange
    ensures r.Fetched? ==>
              r.data.Some? && |r.data.value| == Capacity(call.range, call.intervalMs).value &&
              forall i :: 0 <= i < |r.data.value| ==>
                r.data.value[i].value == i && r.data.value[i].time == call.range.from + i * call.intervalMs
  {
    match Capacity(call.range, call.intervalMs)
    case None => Raised(ArgumentOutOfRange)
    case Some(n) => Fetched(Some(SamplePoints(call.range.from, call.intervalMs, n)))
  }

  /** `GetTimeSeriesData`: sizes the list, then adds one point per slot. */
  method GetTimeSeriesData(metric: string, intervalMs: int, timeRange: TimeRange,
                           maxDataPoints: Option<Int32>, adhocFilters: Option<seq<Filter>>)
    returns (r: Fetch)
    ensures r == SampleSeries(SeriesCall(metric, intervalMs, timeRange, maxDataPoints, adhocFilters))
  {
    var capacity := Capacity(timeRange, intervalMs);
    if capacity.None? {
      return Raised(ArgumentOutOfRange);
    }
    var retVal: seq<TimeSeriesData> := [];
    var count := 0;
    while count < capacity.value
      invariant 0 <= count <= capacity.value
      invariant |retVal| == count
      invariant forall i :: 0 <= i < count ==> retVal[i] == SamplePoint(timeRange.from, intervalMs, i)
    {
      retVal := retVal + [TimeSeriesData(count, timeRange.from + intervalMs * count)];
      count := count + 1;
    }
    assert retVal == SamplePoints(timeRange.from, intervalMs, capacity.value);
    r := Fetched(Some(retVal));
  }

  /** The sample controller: all three flags false, `GetMetrics` and
      `CheckDatasource` left at their defaults. */
  function SampleController(): (c: Controller)
    ensures !c.supportsTables && !c.providesAnnotations && !c.providesTags
    ensures c.backend == WithDefaults(SampleSeries)
    ensures c.backend.checkDatasource
  {
    NewController(WithDefaults(SampleSeries))
  }

  // ---------------------------------------------------------------------
  // Properties

  /** On a forward range with a positive interval, the point count is the
      truncated quotient of the duration by the interval. */
  lemma SampleCount(call: SeriesCall)
    requires call.intervalMs > 0 && call.range.from <= call.range.to
    requires AsTimeSpan(call.range) / call.intervalMs <= Int32Max
    ensures SampleSeries(call).Fetched? && SampleSeries(call).data.Some?
    ensures var ps := SampleSeries(call).data.value;
            |ps| == AsTimeSpan(call.range) / call.intervalMs &&
            forall i :: 0 <= i < |ps| ==>
              ps[i].value == i && ps[i].time == call.range.from + i * call.intervalMs
  {
  }

  /** A range running backwards by at least one interval gives a negative
      capacity, and the zero interval never yields points. */
  lemma SampleRejects(call: SeriesCall)
    ensures call.intervalMs == 0 ==> SampleSeries(call) == Raised(ArgumentOutOfRange)
    ensures call.intervalMs > 0 && AsTimeSpan(call.range) <= -call.intervalMs
            ==> SampleSeries(call) == Raised(ArgumentOutOfRange)
    ensures call.intervalMs < 0 && AsTimeSpan(call.range) >= -call.intervalMs
            ==> SampleSeries(call) == Raised(ArgumentOutOfRange)
    ensures call.intervalMs > 0 && call.range.from <= call.range.to &&
            AsTimeSpan(call.range) / call.intervalMs > Int32Max
            ==> SampleSeries(call) == Raised(ArgumentOutOfRange)
  {
    var d, k := AsTimeSpan(call.range), call.intervalMs;
    if k != 0 && Abs(k) <= Abs(d) && (d < 0) != (k < 0) {
      var q := TruncDiv(d, k);
      assert Abs(d) / Abs(k) >= 1 by { DivAtLeastOne(Abs(d), Abs(k)); }
      assert q < 0;
    }
    if k > 0 && 0 <= d && d / k > Int32Max {
      var q := TruncDiv(d, k);
      assert q == d / k;
    }
  }

  lemma DivAtLeastOne(a: nat, b: nat)
    requires 0 < b <= a
    ensures a / b >= 1
  {
  }

  /** With a positive interval the point times strictly increase. */
  lemma {:induction false} SampleTimesIncrease(from: int, intervalMs: int, n: nat, i: nat, j: nat)
    requires intervalMs > 0 && i < j < n
    ensures SamplePoints(from, intervalMs, n)[i].time < SamplePoints(from, intervalMs, n)[j].time
  {
    assert i * intervalMs < j * intervalMs by { MulStrictMono(i, j, intervalMs); }
  }

  lemma MulStrictMono(i: nat, j: nat, k: int)
    requires i < j && k > 0
    ensures i * k < j * k
  {
    assert j * k == i * k + (j - i) * k;
  }

  /** Every point lies in `[from, to)`: `n * interval <= duration` puts the
      last point, at `(n - 1) * interval`, before the end of the range. */
  lemma {:induction false} SampleTimesInRange(call: SeriesCall)
    requires call.intervalMs > 0 && call.range.from <= call.range.to
    requires AsTimeSpan(call.range) / call.intervalMs <= Int32Max
    ensures SampleSeries(call).Fetched? && SampleSeries(call).data.Some?
    ensures forall p :: p in SampleSeries(call).data.value ==>
              call.range.from <= p.time < call.range.to
  {
    var d, k := AsTimeSpan(call.range), call.intervalMs;
    var n := d / k;
    var ps := SampleSeries(call).data.value;
    assert n * k <= d;
    forall p | p in ps ensures call.range.from <= p.time < call.range.to {
      var i :| 0 <= i < |ps| && ps[i] == p;
      assert 0 <= i * k by { MulNonneg(i, k); }
      assert i * k < n * k by { MulStrictMono(i, n, k); }
    }
  }

  lemma MulNonneg(i: nat, k: int)
    requires k > 0
    ensures 0 <= i * k
  {
  }

  /** Only the range and the interval matter: the metric name,
      `maxDataPoints` and the filters are ignored. */
  lemma SampleIgnoresOtherArguments(call: SeriesCall, metric: string, maxDataPoints: Option<Int32>, filters: Option<seq<Filter>>)
    ensures SampleSeries(call.(metric := metric, maxDataPoints := maxDataPoints, adhocFilters := filters))
            == SampleSeries(call)
  {
  }

  /** A 60 s range at a 30 s interval gives exactly (0, from) and
      (1, from + 30 s). */
  lemma SampleWorkedExample(t0: int, metric: string)
    ensures SampleSeries(SeriesCall(metric, 30000, TimeRange(t0, t0 + 60000), None, None))
            == Fetched(Some([TimeSeriesData(0, t0), TimeSeriesData(1, t0 + 30000)]))
  {
    var ps := SamplePoints(t0, 30000, 2);
    assert ps == [TimeSeriesData(0, t0), TimeSeriesData(1, t0 + 30000)];
  }

  /** The same request through the whole dispatcher: one target
      `upper_50` gives one response with the two pairs. */
  lemma QueryWorkedExample(t0: int)
    ensures QueryResult(SampleController(), Some(QueryRequest(1, TimeRange(t0, t0 + 60000), 30000, None,
                                                              [TargetMetric("upper_50", "A", Timeseries)], None)))
            == Ok([TimeSeriesResponse("upper_50", [DataPoint(0, t0), DataPoint(1, t0 + 30000)])])
  {
    var req := QueryRequest(1, TimeRange(t0, t0 + 60000), 30000, None, [TargetMetric("upper_50", "A", Timeseries)], None);
    var call := CallFor(req, req.targets[0]);
    assert call == SeriesCall("upper_50", 30000, TimeRange(t0, t0 + 60000), None, None);
    SampleWorkedExample(t0, "upper_50");
    var b := SampleController().backend;
    assert b.getTimeSeriesData(call) == SampleSeries(call);
    var p := ProcessTimeSeriesData(b, call);
    var expected := TimeSeriesResponse("upper_50", [DataPoint(0, t0), DataPoint(1, t0 + 30000)]);
    assert p.Ok? && p.value.target == "upper_50";
    assert p.value.dataPoints[0] == DataPoint(0, t0) && p.value.dataPoints[1] == DataPoint(1, t0 + 30000);
    assert |p.value.dataPoints| == 2;
    assert p.value.dataPoints == expected.dataPoints;
    assert p == Ok(expected);
    assert req.targets[1..] == [];
    assert QueryTargets(b, req, req.targets) == Prepend([expected], Ok([]));
    assert [expected] + [] == [expected];
  }

  /** The sample backend provides no tags, so both tag endpoints answer 404. */
  lemma SampleTagsNotFound(request: Option<TagValuesRequest>)
    ensures TagKeys(SampleController()) == NotFound
    ensures TagValues(SampleController(), request) == NotFound
    ensures Index(SampleController()) == Ok(())
  {
  }
}
