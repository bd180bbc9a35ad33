/** Properties of the dispatcher that relate several calls or hold for
    every request. */
module SimpleJsonProperties {
  import opened Wrappers
  import opened MetricTypes
  import opened Models
  import opened SimpleJson

  // ---------------------------------------------------------------------
  // GET /

  /** 503 exactly when the probe fails, 200 otherwise. */
  lemma IndexStatus(c: Controller)
    ensures StatusCode(Index(c)) == 503 <==> !c.backend.checkDatasource
    ensures StatusCode(Index(c)) == 200 <==> c.backend.checkDatasource
  {
  }

  /** With the default probe the connectivity check always succeeds. */
  lemma DefaultIndexSucceeds(series: SeriesCall -> Fetch, tables: bool, annotations: bool, tags: bool)
    ensures Index(NewController(WithDefaults(series), tables, annotations, tags)) == Ok(())
  {
  }

  // ---------------------------------------------------------------------
  // POST /query

  /** Target `t` is a time series and its backend call returns normally. */
  predicate Served(b: Backend, req: QueryRequest, t: TargetMetric)
  {
    t.kind.Timeseries? && b.getTimeSeriesData(CallFor(req, t)).Fetched?
  }

  predicate AllServed(b: Backend, req: QueryRequest, ts: seq<TargetMetric>)
  {
    forall i :: 0 <= i < |ts| ==> Served(b, req, ts[i])
  }

  /** The failure an unserved target ends the request with. */
  function Failure(b: Backend, req: QueryRequest, t: TargetMetric): (r: Reply<seq<TimeSeriesResponse>>)
    requires !Served(b, req, t)
    ensures r.Thrown?
  {
    match t.kind
    case Table => Thrown(NotImplemented)
    case Undeclared => Thrown(ArgumentError)
    case Timeseries => Thrown(b.getTimeSeriesData(CallFor(req, t)).fault)
  }

  /** When every target is served, the response has one entry per target,
      in target order, each echoing its target's name and shaping exactly
      the points its backend call produced; and the backend was called
      once per target, in order, with the request's interval, range,
      `maxDataPoints` and filters. */
  lemma {:induction false} QueryAllServed(b: Backend, req: QueryRequest, ts: seq<TargetMetric>)
    requires AllServed(b, req, ts)
    ensures QueryTargets(b, req, ts).Ok?
    ensures var rs := QueryTargets(b, req, ts).value;
            |rs| == |ts| &&
            forall i :: 0 <= i < |ts| ==>
              rs[i].target == ts[i].target &&
              ShapedFrom(rs[i].dataPoints, b.getTimeSeriesData(CallFor(req, ts[i])).data.GetOr([]))
    ensures var calls := SeriesCalls(b, req, ts);
            |calls| == |ts| &&
            forall i :: 0 <= i < |ts| ==>
              calls[i] == SeriesCall(ts[i].target, req.intervalMs as int, req.range, req.maxDataPoints, req.adhocFilters)
  {
    if ts != [] {
      assert Served(b, req, ts[0]);
      assert AllServed(b, req, ts[1..]) by {
        forall i | 0 <= i < |ts[1..]| ensures Served(b, req, ts[1..][i]) {
          assert ts[1..][i] == ts[i + 1];
        }
      }
      QueryAllServed(b, req, ts[1..]);
      var p := ProcessTimeSeriesData(b, CallFor(req, ts[0]));
      var rest := QueryTargets(b, req, ts[1..]).value;
      assert QueryTargets(b, req, ts).value == [p.value] + rest;
      forall i | 1 <= i < |ts| ensures ts[1..][i - 1] == ts[i] { }
    }
  }

  /** The converse: a successful query means every target was served. */
  lemma {:induction false} QueryOkOnlyIfAllServed(b: Backend, req: QueryRequest, ts: seq<TargetMetric>)
    requires QueryTargets(b, req, ts).Ok?
    ensures AllServed(b, req, ts)
  {
    if ts != [] {
      QueryOkOnlyIfAllServed(b, req, ts[1..]);
      forall i | 0 <= i < |ts| ensures Served(b, req, ts[i]) {
        if i > 0 {
          assert ts[1..][i - 1] == ts[i];
        }
      }
    }
  }

  /** The first unserved target decides the whole reply: a table target
      fails with `NotImplemented`, an undeclared type with the distinct
      `ArgumentError`, a backend exception with itself. No partial list is
      returned, and no target after it reaches the backend. */
  lemma {:induction false} QueryAbortsAtFirstUnserved(b: Backend, req: QueryRequest, ts: seq<TargetMetric>, k: nat)
    requires k < |ts|
    requires AllServed(b, req, ts[..k])
    requires !Served(b, req, ts[k])
    ensures QueryTargets(b, req, ts) == Failure(b, req, ts[k])
    ensures var calls := SeriesCalls(b, req, ts);
            |calls| == (if ts[k].kind.Timeseries? then k + 1 else k) &&
            forall i :: 0 <= i < |calls| ==> calls[i] == CallFor(req, ts[i])
  {
    if k > 0 {
      assert Served(b, req, ts[0]) by { assert ts[..k][0] == ts[0]; }
      assert ts[1..][..k - 1] == ts[1..k];
      assert AllServed(b, req, ts[1..k]) by {
        forall i | 0 <= i < k - 1 ensures Served(b, req, ts[1..k][i]) {
          assert ts[1..k][i] == ts[..k][i + 1];
        }
      }
      QueryAbortsAtFirstUnserved(b, req, ts[1..], k - 1);
      forall i | 1 <= i < |ts| ensures ts[1..][i - 1] == ts[i] { }
    }
  }

  /** A table target and a target of undeclared type fail differently. */
  lemma TableFailsDistinctly(b: Backend, req: QueryRequest, name: string, refId: string)
    ensures QueryTargets(b, req, [TargetMetric(name, refId, Table)]) == Thrown(NotImplemented)
    ensures QueryTargets(b, req, [TargetMetric(name, refId, Undeclared)]) == Thrown(ArgumentError)
  {
  }

  /** The `supportsTables` and `providesAnnotations` flags are never
      consulted, by `Query` or by any other endpoint. */
  lemma QueryIgnoresFlags(c: Controller, request: Option<QueryRequest>, a: Action, tables: bool, annotations: bool)
    ensures QueryResult(c.(supportsTables := tables, providesAnnotations := annotations), request)
            == QueryResult(c, request)
    ensures QueryCalls(c.(supportsTables := tables, providesAnnotations := annotations), request)
            == QueryCalls(c, request)
    ensures Dispatch(c.(supportsTables := tables, providesAnnotations := annotations), a) == Dispatch(c, a)
  {
  }

  /** A `null` backend result reads as a series with no points. */
  lemma NullSeriesIsEmpty(b: Backend, call: SeriesCall)
    requires b.getTimeSeriesData(call) == Fetched(None)
    ensures ProcessTimeSeriesData(b, call) == Ok(TimeSeriesResponse(call.metric, []))
  {
  }

  // ---------------------------------------------------------------------
  // POST /search

  /** `null` from `GetMetrics` never gives a 200. */
  lemma SearchNullMetricsFails(c: Controller, request: Option<SearchRequest>)
    requires c.backend.getMetrics(SearchTarget(request)).None?
    ensures StatusCode(Search(c, request)) == 500
  {
  }

  /** A `null` request is not rejected: it asks the backend with a `null`
      target, just as a request whose target is `null`. */
  lemma SearchNullRequest(c: Controller)
    ensures Search(c, None) == Search(c, Some(SearchRequest(None)))
  {
  }

  /** The default `GetMetrics` yields an empty list, returned unchanged. */
  lemma SearchDefaultIsEmpty(series: SeriesCall -> Fetch, request: Option<SearchRequest>)
    ensures Search(NewController(WithDefaults(series)), request) == Ok(MetricMap([]))
  {
  }

  /** When no metric has a value, the array shape has one absent value per
      metric: it projects `Value`, not `Text`. */
  lemma SearchNoValues(c: Controller, request: Option<SearchRequest>)
    requires c.backend.getMetrics(SearchTarget(request)).Some?
    requires var ms := c.backend.getMetrics(SearchTarget(request)).value;
             |ms| > 0 && forall i :: 0 <= i < |ms| ==> ms[i].value.None?
    ensures Search(c, request).Ok? && Search(c, request).value.ValueArray?
    ensures var vs := Search(c, request).value.values;
            |vs| == |c.backend.getMetrics(SearchTarget(request)).value| &&
            forall i :: 0 <= i < |vs| ==> vs[i].None?
  {
  }

  /** Only element 0 is inspected: a first metric with a value keeps the
      whole list as produced, however the later ones look. */
  lemma SearchFirstElementDecides(c: Controller, request: Option<SearchRequest>, m: SearchMetric, rest: seq<SearchMetric>)
    requires c.backend.getMetrics(SearchTarget(request)) == Some([m] + rest)
    ensures m.value.Some? ==> Search(c, request) == Ok(MetricMap([m] + rest))
    ensures m.value.None? ==> Search(c, request).Ok? && Search(c, request).value.ValueArray?
  {
  }

  // ---------------------------------------------------------------------
  // POST /tag-keys, POST /tag-values, POST /annotations

  /** 404 exactly when tags are not provided, whatever the body. */
  lemma TagStatus(c: Controller, r1: Option<TagValuesRequest>, r2: Option<TagValuesRequest>)
    ensures TagValues(c, r1) == TagValues(c, r2) == TagKeys(c)
    ensures StatusCode(TagKeys(c)) == 404 <==> !c.providesTags
    ensures StatusCode(TagKeys(c)) == 500 <==> c.providesTags
  {
  }

  lemma AnnotationsAlwaysFail(c: Controller, request: Option<AnnotationRequest>)
    ensures StatusCode(Annotations(c, request)) == 500
  {
  }
}
