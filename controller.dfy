/** The request dispatcher `BaseSimpleJsonController`: the validity gate,
    the six endpoints and the time-series shaping
    (BaseSimpleJsonController.cs). The abstract and virtual members a
    concrete backend overrides are the fields of `Backend`. */
module SimpleJson {
  import opened Wrappers
  import opened MetricTypes
  import opened Models

  /** The exceptions the core throws, or lets through from a backend. */
  datatype Fault =
    | NotImplemented      // NotImplementedException
    | ArgumentError       // ArgumentException: a target of undeclared type
    | InvalidProgram      // InvalidProgramException: GetMetrics returned null
    | ArgumentOutOfRange  // ArgumentOutOfRangeException, raised by a backend
    | Other               // any other exception a backend raises

  /** The outcome of one endpoint: a 200 with a body, one of the three
      status results the controller returns itself, or an exception. */
  datatype Reply<+T> =
    | Ok(value: T)
    | BadRequest
    | ServiceUnavailable
    | NotFound
    | Thrown(fault: Fault)

  /** The HTTP status each outcome is answered with; an exception that
      escapes an action becomes a 500. */
  function StatusCode<T>(r: Reply<T>): (code: int)
    ensures code == 200 <==> r.Ok?
    ensures code == 400 <==> r.BadRequest?
    ensures code == 503 <==> r.ServiceUnavailable?
    ensures code == 404 <==> r.NotFound?
    ensures code == 500 <==> r.Thrown?
  {
    match r
    case Ok(_) => 200
    case BadRequest => 400
    case ServiceUnavailable => 503
    case NotFound => 404
    case Thrown(_) => 500
  }

  /** The arguments of one `GetTimeSeriesData` call; the interval is in
      milliseconds and the filters may be `null`. */
  datatype SeriesCall = SeriesCall(
    metric: string,
    intervalMs: int,
    range: TimeRange,
    maxDataPoints: Option<Int32>,
    adhocFilters: Option<seq<Filter>>)

  /** What an awaited `GetTimeSeriesData` call gives: a sequence of points,
      `null` (`None`), or an exception. */
  datatype Fetch = Fetched(data: Option<seq<TimeSeriesData>>) | Raised(fault: Fault)

  /** The members a concrete controller supplies: `GetTimeSeriesData`
      (abstract), `GetMetrics` and the result of `CheckDatasource`
      (virtual). `None` from `getMetrics` is a `null` result. */
  datatype Backend = Backend(
    getTimeSeriesData: SeriesCall -> Fetch,
    getMetrics: Option<string> -> Option<seq<SearchMetric>>,
    checkDatasource: bool)

  /** The default `CheckDatasource`: the data source is always reachable. */
  const DefaultCheckDatasource: bool := true

  /** The default `GetMetrics`: an empty list, whatever the target. */
  function DefaultGetMetrics(target: Option<string>): (r: Option<seq<SearchMetric>>)
    ensures r == Some([])
  {
    Some([])
  }

  /** A backend that overrides only `GetTimeSeriesData`. */
  function WithDefaults(getTimeSeriesData: SeriesCall -> Fetch): (b: Backend)
    ensures b.getTimeSeriesData == getTimeSeriesData
    ensures b.checkDatasource
    ensures forall t :: b.getMetrics(t) == Some([])
  {
    Backend(getTimeSeriesData, DefaultGetMetrics, DefaultCheckDatasource)
  }

  /** A controller: the three read-only constructor flags and its backend.
      Of the flags only `providesTags` is ever read. */
  datatype Controller = Controller(
    supportsTables: bool,
    providesAnnotations: bool,
    providesTags: bool,
    backend: Backend)

  /** The base constructor, whose flags all default to false. */
  function NewController(backend: Backend, supportsTables: bool := false,
                         providesAnnotations: bool := false, providesTags: bool := false): (c: Controller)
    ensures c.backend == backend
    ensures c.supportsTables == supportsTables
    ensures c.providesAnnotations == providesAnnotations
    ensures c.providesTags == providesTags
  {
    Controller(supportsTables, providesAnnotations, providesTags, backend)
  }

  // ---------------------------------------------------------------------
  // GET /

  /** `Index`: the connectivity check. */
  function Index(c: Controller): (r: Reply<()>)
    ensures r.Ok? <==> c.backend.checkDatasource
    ensures !r.Ok? ==> r == ServiceUnavailable
  {
    if !c.backend.checkDatasource then ServiceUnavailable else Ok(())
  }

  // ---------------------------------------------------------------------
  // Time-series shaping

  /** The `[value, epochMs]` pair of one backend point. */
  function ToDataPoint(p: TimeSeriesData): (d: DataPoint)
    ensures d.value == p.value && d.epochMs == p.time
  {
    DataPoint(p.value, p.time)
  }

  /** `dataPoints` is the point-by-point image of `points`, same length and
      same order. */
  predicate ShapedFrom(dataPoints: seq<DataPoint>, points: seq<TimeSeriesData>)
  {
    |dataPoints| == |points| &&
    forall i :: 0 <= i < |points| ==> dataPoints[i] == ToDataPoint(points[i])
  }

  /** `ProcessTimeSeriesData`: one backend call, a `null` result read as no
      points, and each point turned into its pair. A backend exception
      propagates. */
  function ProcessTimeSeriesData(b: Backend, call: SeriesCall): (r: Reply<TimeSeriesResponse>)
    ensures r.Ok? || r.Thrown?
    ensures b.getTimeSeriesData(call).Raised? ==> r == Thrown(b.getTimeSeriesData(call).fault)
    ensures b.getTimeSeriesData(call).Fetched? ==>
              r.Ok? && r.value.target == call.metric &&
              ShapedFrom(r.value.dataPoints, b.getTimeSeriesData(call).data.GetOr([]))
  {
    match b.getTimeSeriesData(call)
    case Raised(f) => Thrown(f)
    case Fetched(data) =>
      var points := data.GetOr([]);
      Ok(TimeSeriesResponse(call.metric, seq(|points|, i requires 0 <= i < |points| => ToDataPoint(points[i]))))
  }

  // ---------------------------------------------------------------------
  // POST /query

  /** The backend call `Query` makes for a time-series target. */
  function CallFor(req: QueryRequest, t: TargetMetric): (call: SeriesCall)
    ensures call.metric == t.target && call.intervalMs == req.intervalMs as int
    ensures call.range == req.range && call.maxDataPoints == req.maxDataPoints
    ensures call.adhocFilters == req.adhocFilters
  {
    SeriesCall(t.target, req.intervalMs as int, req.range, req.maxDataPoints, req.adhocFilters)
  }

  /** Puts `done` in front of a successful list; a failure stays a failure. */
  function Prepend<T>(done: seq<T>, r: Reply<seq<T>>): (p: Reply<seq<T>>)
    ensures r.Ok? ==> p == Ok(done + r.value)
    ensures !r.Ok? ==> p == r
  {
    if r.Ok? then Ok(done + r.value) else r
  }

  lemma PrependTwice<T>(a: seq<T>, b: seq<T>, r: Reply<seq<T>>)
    ensures Prepend(a, Prepend(b, r)) == Prepend(a + b, r)
  {
    if r.Ok? {
      assert a + (b + r.value) == (a + b) + r.value;
    }
  }

  /** What `Query` answers for the targets `ts`, taken in order: a table
      target or one of undeclared type ends the request, and so does an
      exception from the backend. */
  function QueryTargets(b: Backend, req: QueryRequest, ts: seq<TargetMetric>): Reply<seq<TimeSeriesResponse>>
    decreases |ts|
  {
    if ts == [] then Ok([])
    else
      match ts[0].kind
      case Table => Thrown(NotImplemented)
      case Undeclared => Thrown(ArgumentError)
      case Timeseries =>
        var p := ProcessTimeSeriesData(b, CallFor(req, ts[0]));
        if p.Thrown? then Thrown(p.fault) else Prepend([p.value], QueryTargets(b, req, ts[1..]))
  }

  /** The backend calls `Query` makes for the targets `ts`, in order. */
  function SeriesCalls(b: Backend, req: QueryRequest, ts: seq<TargetMetric>): seq<SeriesCall>
    decreases |ts|
  {
    if ts == [] || !ts[0].kind.Timeseries? then []
    else
      var call := CallFor(req, ts[0]);
      [call] + if ProcessTimeSeriesData(b, call).Thrown? then [] else SeriesCalls(b, req, ts[1..])
  }

  /** One served time-series target advances both loop invariants of
      `Query` by one target. */
  lemma QueryStep(b: Backend, req: QueryRequest, ts: seq<TargetMetric>, i: nat,
                  done: seq<TimeSeriesResponse>, made: seq<SeriesCall>)
    requires i < |ts| && ts[i].kind.Timeseries?
    requires !ProcessTimeSeriesData(b, CallFor(req, ts[i])).Thrown?
    requires Prepend(done, QueryTargets(b, req, ts[i..])) == QueryTargets(b, req, ts)
    requires made + SeriesCalls(b, req, ts[i..]) == SeriesCalls(b, req, ts)
    ensures Prepend(done + [ProcessTimeSeriesData(b, CallFor(req, ts[i])).value], QueryTargets(b, req, ts[i + 1..]))
            == QueryTargets(b, req, ts)
    ensures made + [CallFor(req, ts[i])] + SeriesCalls(b, req, ts[i + 1..]) == SeriesCalls(b, req, ts)
  {
    var p := ProcessTimeSeriesData(b, CallFor(req, ts[i]));
    var rest := ts[i + 1..];
    assert ts[i..][1..] == rest;
    assert QueryTargets(b, req, ts[i..]) == Prepend([p.value], QueryTargets(b, req, rest));
    PrependTwice(done, [p.value], QueryTargets(b, req, rest));
    assert SeriesCalls(b, req, ts[i..]) == [CallFor(req, ts[i])] + SeriesCalls(b, req, rest);
    assert made + [CallFor(req, ts[i])] + SeriesCalls(b, req, rest) == made + ([CallFor(req, ts[i])] + SeriesCalls(b, req, rest));
  }

  /** The reply of `Query` to a request body that may be `null`. */
  function QueryResult(c: Controller, request: Option<QueryRequest>): Reply<seq<TimeSeriesResponse>>
  {
    if request.None? then BadRequest else QueryTargets(c.backend, request.value, request.value.targets)
  }

  /** The backend calls `Query` makes for a request body that may be `null`. */
  function QueryCalls(c: Controller, request: Option<QueryRequest>): seq<SeriesCall>
  {
    if request.None? then [] else SeriesCalls(c.backend, request.value, request.value.targets)
  }

  /** `Query`: walks the targets in order, calls the backend once for each
      time-series target and collects the responses; the first failure
      abandons the collected list. `calls` logs the backend calls made. */
  method Query(c: Controller, request: Option<QueryRequest>)
    returns (r: Reply<seq<TimeSeriesResponse>>, ghost calls: seq<SeriesCall>)
    ensures request.None? ==> r == BadRequest && calls == []
    ensures r == QueryResult(c, request)
    ensures calls == QueryCalls(c, request)
  {
    calls := [];
    if request.None? {
      return BadRequest, calls;
    }
    var req := request.value;
    var retVal: seq<TimeSeriesResponse> := [];
    var i := 0;
    assert req.targets[i..] == req.targets;
    ghost var whole := QueryTargets(c.backend, req, req.targets);
    assert whole.Ok? ==> [] + whole.value == whole.value;
    while i < |req.targets|
      invariant 0 <= i <= |req.targets|
      invariant Prepend(retVal, QueryTargets(c.backend, req, req.targets[i..])) == QueryTargets(c.backend, req, req.targets)
      invariant calls + SeriesCalls(c.backend, req, req.targets[i..]) == SeriesCalls(c.backend, req, req.targets)
    {
      var target := req.targets[i];
      match target.kind {
        case Table =>
          return Thrown(NotImplemented), calls;
        case Undeclared =>
          return Thrown(ArgumentError), calls;
        case Timeseries =>
          var call := CallFor(req, target);
          var response := ProcessTimeSeriesData(c.backend, call);
          if response.Thrown? {
            return Thrown(response.fault), calls + [call];
          }
          QueryStep(c.backend, req, req.targets, i, retVal, calls);
          calls := calls + [call];
          retVal := retVal + [response.value];
      }
      i := i + 1;
    }
    assert retVal + [] == retVal;
    r := Ok(retVal);
  }

  // ---------------------------------------------------------------------
  // POST /annotations

  /** `Annotations`: always throws, whatever the request. */
  function Annotations(c: Controller, request: Option<AnnotationRequest>): (r: Reply<()>)
    ensures r == Thrown(NotImplemented)
  {
    Thrown(NotImplemented)
  }

  // ---------------------------------------------------------------------
  // POST /search

  /** The two shapes of a `/search` body: an array of the metrics' values
      (`metrics.Select(e => e.Value)`), or the metric records themselves. */
  datatype SearchBody = ValueArray(values: seq<Option<int>>) | MetricMap(metrics: seq<SearchMetric>)

  /** `request?.Target`: a `null` request gives a `null` target. */
  function SearchTarget(request: Option<SearchRequest>): (t: Option<string>)
    ensures request.None? ==> t.None?
    ensures request.Some? ==> t == request.value.target
  {
    if request.None? then None else request.value.target
  }

  /** `Search`: asks the backend for its metrics; `null` is a contract
      violation; the first element alone decides the shape. */
  function Search(c: Controller, request: Option<SearchRequest>): (r: Reply<SearchBody>)
    ensures c.backend.getMetrics(SearchTarget(request)).None? ==> r == Thrown(InvalidProgram)
    ensures c.backend.getMetrics(SearchTarget(request)).Some? ==>
              var ms := c.backend.getMetrics(SearchTarget(request)).value;
              r.Ok? &&
              (if |ms| > 0 && ms[0].value.None?
               then r.value.ValueArray? && |r.value.values| == |ms| &&
                    forall i :: 0 <= i < |ms| ==> r.value.values[i] == ms[i].value
               else r.value == MetricMap(ms))
  {
    match c.backend.getMetrics(SearchTarget(request))
    case None => Thrown(InvalidProgram)
    case Some(ms) =>
      if |ms| > 0 && ms[0].value.None? then
        Ok(ValueArray(seq(|ms|, i requires 0 <= i < |ms| => ms[i].value)))
      else
        Ok(MetricMap(ms))
  }

  // ---------------------------------------------------------------------
  // POST /tag-keys and POST /tag-values

  /** `TagKeys`: 404 without tag support; otherwise a fixed extension point. */
  function TagKeys(c: Controller): (r: Reply<()>)
    ensures r == NotFound <==> !c.providesTags
    ensures r != NotFound ==> r == Thrown(NotImplemented)
  {
    if !c.providesTags then NotFound else Thrown(NotImplemented)
  }

  /** `TagValues`: as `TagKeys`; the request body is never looked at. */
  function TagValues(c: Controller, request: Option<TagValuesRequest>): (r: Reply<()>)
    ensures r == NotFound <==> !c.providesTags
    ensures r != NotFound ==> r == Thrown(NotImplemented)
  {
    if !c.providesTags then NotFound else Thrown(NotImplemented)
  }

  // ---------------------------------------------------------------------
  // The action filter

  /** One routed action with its bound body (`None` is a `null` body). */
  datatype Action =
    | IndexAction
    | QueryAction(query: Option<QueryRequest>)
    | AnnotationsAction(annotation: Option<AnnotationRequest>)
    | SearchAction(search: Option<SearchRequest>)
    | TagKeysAction
    | TagValuesAction(tagValues: Option<TagValuesRequest>)

  /** The body of a 200 reply of any endpoint. */
  datatype Body = NoContent | Series(responses: seq<TimeSeriesResponse>) | Found(search: SearchBody)

  function MapReply<A, B>(r: Reply<A>, f: A -> B): (m: Reply<B>)
    ensures r.Ok? ==> m == Ok(f(r.value))
    ensures r.BadRequest? ==> m.BadRequest?
    ensures r.ServiceUnavailable? ==> m.ServiceUnavailable?
    ensures r.NotFound? ==> m.NotFound?
    ensures r.Thrown? ==> m == Thrown(r.fault)
  {
    match r
    case Ok(v) => Ok(f(v))
    case BadRequest => BadRequest
    case ServiceUnavailable => ServiceUnavailable
    case NotFound => NotFound
    case Thrown(e) => Thrown(e)
  }

  /** What the action itself answers, once the gate has let it through. */
  function Dispatch(c: Controller, a: Action): Reply<Body>
  {
    match a
    case IndexAction => MapReply(Index(c), (_: ()) => NoContent)
    case QueryAction(q) => MapReply(QueryResult(c, q), (rs: seq<TimeSeriesResponse>) => Series(rs))
    case AnnotationsAction(q) => MapReply(Annotations(c, q), (_: ()) => NoContent)
    case SearchAction(q) => MapReply(Search(c, q), (s: SearchBody) => Found(s))
    case TagKeysAction => MapReply(TagKeys(c), (_: ()) => NoContent)
    case TagValuesAction(q) => MapReply(TagValues(c, q), (_: ()) => NoContent)
  }

  /** `OnActionExecuting` followed by the action: an invalid model state
      answers 400 before the action runs, so no backend call is made. */
  method Handle(c: Controller, modelValid: bool, a: Action)
    returns (r: Reply<Body>, ghost calls: seq<SeriesCall>)
    ensures !modelValid ==> r == BadRequest && calls == []
    ensures modelValid ==> r == Dispatch(c, a)
    ensures modelValid && a.QueryAction? ==> calls == QueryCalls(c, a.query)
    ensures !a.QueryAction? ==> calls == []
  {
    if !modelValid {
      return BadRequest, [];
    }
    calls := [];
    match a {
      case QueryAction(q) =>
        var qr;
        qr, calls := Query(c, q);
        r := MapReply(qr, (rs: seq<TimeSeriesResponse>) => Series(rs));
      case _ =>
        r := Dispatch(c, a);
    }
  }
}
