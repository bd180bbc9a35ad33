# Grafana SimpleJson adapter: dispatcher model

This project models the core of an ASP.NET Core controller that answers
Grafana's SimpleJson data-source protocol: the abstract
`BaseSimpleJsonController`, its demo subclass `SampleController`, and the
two wire enumerations `EOperator` and `EMetricType`.

- `wrappers.dfy` (`Wrappers`): `Option`, the model's `null`.
- `metric_type.dfy` (`MetricTypes`), `operators.dfy` (`Operators`): the
  enumerations with their fixed wire tokens (`timeserie`/`table`,
  `=` `!=` `<` `<=` `>` `>=`), decoding, and round-trip lemmas.
  `MetricType.Undeclared` stands for any integer an enum variable can hold
  besides the two declared members.
- `models.dfy` (`Models`): the request and response records. The types
  `TimeRange`, `SearchMetric`, `TimeSeriesResponse`, `AnnotationRequest`
  and `TagValuesRequest` are not part of this model's sources; they get
  minimal shapes: `TimeRange(from, to)` in epoch milliseconds with
  `AsTimeSpan = to - from`, `SearchMetric(text, value: Option<int>)`,
  `TimeSeriesResponse(target, dataPoints)` with `[value, epochMs]` pairs,
  and bodies the core never reads.
- `controller.dfy` (`SimpleJson`): the controller. Its constructor flags
  and the members a subclass overrides (`GetTimeSeriesData`,
  `GetMetrics`, `CheckDatasource`) form the `Controller` and `Backend`
  values; backend calls are function values, and a `GetTimeSeriesData`
  call either returns points, returns `null`, or raises. Every endpoint
  gives a `Reply`: `Ok`, the three status results the controller returns
  itself (`BadRequest`, `ServiceUnavailable`, `NotFound`), or a thrown
  `Fault` (`NotImplemented`, `ArgumentError`, `InvalidProgram`, or a
  backend's `ArgumentOutOfRange` or `Other` exception), which ASP.NET
  answers with 500. A backend may also raise one of the core's own faults,
  as a `NotImplementedException` of its own would.
  `Query` is a loop over the targets with a ghost log of the backend calls
  it makes, proved equal to the recursive specification `QueryTargets` /
  `SeriesCalls`. `Handle` is the `OnActionExecuting` gate followed by the
  routed action; model-state validity is a boolean input.
- `controller_props.dfy` (`SimpleJsonProperties`): lemmas over all
  requests: one response and one backend call per target in order, abort
  at the first unserved target, the search-shape rule, the tag gate.
- `sample.dfy` (`Sample`): the demo backend's point generator as a loop
  proved against `SampleSeries`, its point count, spacing and range, and
  a worked example of a 60 s range at a 30 s interval stated over the
  whole dispatcher (`QueryWorkedExample`).

Points of the code worth knowing, which the model follows:
- When the first search metric has no value, the code answers
  `metrics.Select(e => e.Value)`, an array of the metrics' values; the
  comment on `GetMetrics` shows an array of texts instead.
- The search shape is decided by element 0 alone, not by whether any
  metric lacks a value.
- An empty metric list is returned as the metric list itself, which
  serialises as `[]`.
- Backend calls are made one after another; the comment announcing a
  parallel option describes no code, and requests are not cancelled
  part-way.

## Model

| member | source | states |
|---|---|---|
| `MetricTypes.Encode` | src/DijitalMunky.Grafana.SimpleJson/Models/EMetricType.cs:8-14 | exactly the two declared members have a wire token |
| `MetricTypes.Decode` | src/DijitalMunky.Grafana.SimpleJson/Models/EMetricType.cs:8-14 | a decoded token always belongs to a declared member that encodes back to the same token |
| `MetricTypes.TokenTable` | src/DijitalMunky.Grafana.SimpleJson/Models/EMetricType.cs:9-13 | `Timeseries` is `"timeserie"` (no trailing s; `"timeseries"` is not a declared token), `Table` is `"table"` |
| `MetricTypes.DecodeEncode` | src/DijitalMunky.Grafana.SimpleJson/Models/EMetricType.cs:8-14 | decode(encode(t)) == t for both declared members |
| `MetricTypes.TokensDistinct` | src/DijitalMunky.Grafana.SimpleJson/Models/EMetricType.cs:8-14 | the two tokens differ |
| `MetricTypes.ExactlyTwoDeclared` | src/DijitalMunky.Grafana.SimpleJson/Models/EMetricType.cs:8-14 | the declared members are exactly `Timeseries` and `Table` |
| `Operators.Encode` | src/DijitalMunky.Grafana.SimpleJson/Models/EOperator.cs:10-26 | the wire token of each member: always one of the six declared tokens, never the member's name |
| `Operators.Decode` | src/DijitalMunky.Grafana.SimpleJson/Models/EOperator.cs:8-28 | a string decodes iff it is one of the six tokens, and then to the operator that encodes to it |
| `Operators.TokenTable` | src/DijitalMunky.Grafana.SimpleJson/Models/EOperator.cs:10-26 | the six wire tokens `=`, `!=`, `<`, `<=`, `>`, `>=` |
| `Operators.DecodeEncode` | src/DijitalMunky.Grafana.SimpleJson/Models/EOperator.cs:8-28 | decode(encode(op)) == op for every operator |
| `Operators.TokensDistinct` | src/DijitalMunky.Grafana.SimpleJson/Models/EOperator.cs:8-28 | the six tokens are pairwise distinct |
| `Operators.TokenIsNotMemberName` | src/DijitalMunky.Grafana.SimpleJson/Models/EOperator.cs:10-11 | no token is its member's name, and no member name is a declared token |
| `Models.AsTimeSpan` | src/Sample.WebApi/Controllers/SampleController.cs:27 | the duration added to `from` gives `to` |
| `SimpleJson.StatusCode` | src/DijitalMunky.Grafana.SimpleJson/BaseSimpleJsonController.cs:39-122 | each outcome has its own status: 200 ok, 400, 503, 404, and 500 for every thrown exception |
| `SimpleJson.DefaultGetMetrics` | src/DijitalMunky.Grafana.SimpleJson/BaseSimpleJsonController.cs:203-206 | the default metric list is empty, never null |
| `SimpleJson.WithDefaults` | src/DijitalMunky.Grafana.SimpleJson/BaseSimpleJsonController.cs:181-206 | a backend keeping the defaults has the given series function, probes true and lists no metrics |
| `SimpleJson.NewController` | src/DijitalMunky.Grafana.SimpleJson/BaseSimpleJsonController.cs:22-27 | the constructor stores its backend and all three flags as given, each defaulting to false |
| `SimpleJson.Index` | src/DijitalMunky.Grafana.SimpleJson/BaseSimpleJsonController.cs:47-58 | success exactly when the probe is true, otherwise service unavailable |
| `SimpleJson.ToDataPoint` | src/DijitalMunky.Grafana.SimpleJson/BaseSimpleJsonController.cs:132 | a point becomes the pair of its value and its epoch milliseconds |
| `SimpleJson.ProcessTimeSeriesData` | src/DijitalMunky.Grafana.SimpleJson/BaseSimpleJsonController.cs:124-134 | a backend exception propagates; otherwise the response echoes the metric and its pairs are the same-length, same-order image of the points, `null` read as none |
| `SimpleJson.CallFor` | src/DijitalMunky.Grafana.SimpleJson/BaseSimpleJsonController.cs:76 | the backend call carries the target name, `IntervalMs` as the interval, and the request's range, `MaxDataPoints` and filters |
| `SimpleJson.Query` | src/DijitalMunky.Grafana.SimpleJson/BaseSimpleJsonController.cs:60-84 | a null request is a bad request with no backend call; otherwise the reply and the logged calls are those of the target-by-target specification |
| `SimpleJson.Annotations` | src/DijitalMunky.Grafana.SimpleJson/BaseSimpleJsonController.cs:86-89 | always throws not-implemented |
| `SimpleJson.SearchTarget` | src/DijitalMunky.Grafana.SimpleJson/BaseSimpleJsonController.cs:93 | a null request gives a null target, otherwise the request's target |
| `SimpleJson.Search` | src/DijitalMunky.Grafana.SimpleJson/BaseSimpleJsonController.cs:91-104 | null metrics throw invalid-program; a first metric without value gives the same-length, same-order projection of every metric's value; otherwise the list comes back as produced |
| `SimpleJson.TagKeys` | src/DijitalMunky.Grafana.SimpleJson/BaseSimpleJsonController.cs:106-113 | not found exactly when tags are not provided, otherwise not-implemented |
| `SimpleJson.TagValues` | src/DijitalMunky.Grafana.SimpleJson/BaseSimpleJsonController.cs:115-122 | not found exactly when tags are not provided, otherwise not-implemented |
| `SimpleJson.Handle` | src/DijitalMunky.Grafana.SimpleJson/BaseSimpleJsonController.cs:35-45 | an invalid model state answers bad request with no backend call; a valid one answers what the action answers |
| `SimpleJsonProperties.IndexStatus` | src/DijitalMunky.Grafana.SimpleJson/BaseSimpleJsonController.cs:47-58 | status 503 iff the probe fails, 200 iff it succeeds |
| `SimpleJsonProperties.DefaultIndexSucceeds` | src/DijitalMunky.Grafana.SimpleJson/BaseSimpleJsonController.cs:181-185 | with the default probe the connectivity check always succeeds |
| `SimpleJsonProperties.QueryAllServed` | src/DijitalMunky.Grafana.SimpleJson/BaseSimpleJsonController.cs:68-83 | all targets served: one response per target in target order, each echoing its target and shaping its points; one backend call per target in order with the request's interval, range, max points and filters |
| `SimpleJsonProperties.QueryOkOnlyIfAllServed` | src/DijitalMunky.Grafana.SimpleJson/BaseSimpleJsonController.cs:68-83 | a successful query means every target was a time series whose backend call returned |
| `SimpleJsonProperties.QueryAbortsAtFirstUnserved` | src/DijitalMunky.Grafana.SimpleJson/BaseSimpleJsonController.cs:69-80 | the first unserved target decides the reply (table: not-implemented, undeclared: argument error, backend exception: itself), and exactly the calls up to it were made |
| `SimpleJsonProperties.TableFailsDistinctly` | src/DijitalMunky.Grafana.SimpleJson/BaseSimpleJsonController.cs:72-80 | a table target and an undeclared one fail with different faults |
| `SimpleJsonProperties.QueryIgnoresFlags` | src/DijitalMunky.Grafana.SimpleJson/BaseSimpleJsonController.cs:17-27 | `supportsTables` and `providesAnnotations` change neither `Query`'s reply and calls nor the reply of any endpoint |
| `SimpleJsonProperties.NullSeriesIsEmpty` | src/DijitalMunky.Grafana.SimpleJson/BaseSimpleJsonController.cs:126-128 | a null backend result is a response with no pairs |
| `SimpleJsonProperties.SearchNullMetricsFails` | src/DijitalMunky.Grafana.SimpleJson/BaseSimpleJsonController.cs:95-97 | null metrics never give a 200 |
| `SimpleJsonProperties.SearchNullRequest` | src/DijitalMunky.Grafana.SimpleJson/BaseSimpleJsonController.cs:93 | a null request is not rejected; it searches with a null target |
| `SimpleJsonProperties.SearchDefaultIsEmpty` | src/DijitalMunky.Grafana.SimpleJson/BaseSimpleJsonController.cs:203-206 | with the default metrics the search answers the empty list |
| `SimpleJsonProperties.SearchNoValues` | src/DijitalMunky.Grafana.SimpleJson/BaseSimpleJsonController.cs:99-100 | when no metric has a value the array has one absent value per metric |
| `SimpleJsonProperties.SearchFirstElementDecides` | src/DijitalMunky.Grafana.SimpleJson/BaseSimpleJsonController.cs:99-103 | a first metric with a value returns the whole list as produced, whatever the rest; without one, the array shape |
| `SimpleJsonProperties.TagStatus` | src/DijitalMunky.Grafana.SimpleJson/BaseSimpleJsonController.cs:106-122 | both tag endpoints agree whatever the body; 404 iff tags are not provided, 500 otherwise |
| `SimpleJsonProperties.AnnotationsAlwaysFail` | src/DijitalMunky.Grafana.SimpleJson/BaseSimpleJsonController.cs:86-89 | annotations always answer 500 |
| `Sample.TruncDiv` | src/Sample.WebApi/Controllers/SampleController.cs:27 | truncation toward zero: magnitude is the quotient of magnitudes, sign the product of signs |
| `Sample.Capacity` | src/Sample.WebApi/Controllers/SampleController.cs:27 | forward range, positive interval, quotient within `int`: duration / interval; a capacity exists exactly when the interval is nonzero, the truncated quotient is within `int` and not negative; any capacity fits the range |
| `Sample.SamplePoint` | src/Sample.WebApi/Controllers/SampleController.cs:30 | point i has value i and time from + i * interval |
| `Sample.SamplePoints` | src/Sample.WebApi/Controllers/SampleController.cs:29-31 | n points, the i-th being point i |
| `Sample.SampleSeries` | src/Sample.WebApi/Controllers/SampleController.cs:26-34 | raises argument-out-of-range exactly when there is no valid capacity; otherwise capacity-many points, point i being (i, from + i * interval) |
| `Sample.GetTimeSeriesData` | src/Sample.WebApi/Controllers/SampleController.cs:19-35 | the loop produces exactly `SampleSeries` of its arguments |
| `Sample.SampleController` | src/Sample.WebApi/Controllers/SampleController.cs:15-17 | all three flags false, backend `SampleSeries` with the default probe and metrics |
| `Sample.SampleCount` | src/Sample.WebApi/Controllers/SampleController.cs:27-31 | forward range, positive interval, quotient within `int`: (to - from) / interval points, point i being (i, from + i * interval) |
| `Sample.SampleRejects` | src/Sample.WebApi/Controllers/SampleController.cs:27 | argument-out-of-range is raised for a zero interval, for a range running against the interval's sign by at least one interval (backwards at a positive interval, forwards at a negative one), and for a forward range at a positive interval whose quotient exceeds `int.MaxValue` |
| `Sample.SampleTimesIncrease` | src/Sample.WebApi/Controllers/SampleController.cs:29-30 | point times strictly increase |
| `Sample.SampleTimesInRange` | src/Sample.WebApi/Controllers/SampleController.cs:27-30 | every point time lies in [from, to) |
| `Sample.SampleIgnoresOtherArguments` | src/Sample.WebApi/Controllers/SampleController.cs:19-34 | metric name, max points and filters do not change the output |
| `Sample.SampleWorkedExample` | src/Sample.WebApi/Controllers/SampleController.cs:27-30 | 60 s at 30 s gives exactly (0, from) and (1, from + 30 s) |
| `Sample.QueryWorkedExample` | src/DijitalMunky.Grafana.SimpleJson/BaseSimpleJsonController.cs:68-83 | the sample controller answers an `upper_50` query over 60 s at 30 s with the two pairs |
| `Sample.SampleTagsNotFound` | src/Sample.WebApi/Controllers/SampleController.cs:15 | the sample's tag endpoints answer not found and its connectivity check succeeds |

## Left out

- ASP.NET plumbing: routing, body binding, `IActionResult` wrappers and
  the contents of `ModelState`; validity is one boolean and the action
  results are the `Reply` variants.
- Logging: every `_logger` call, and `OnActionExecuted`, which only logs.
- `async`/`Task`: awaited calls are plain calls in sequence. The parallel
  mode mentioned in a comment does not exist in the code.
- Floating point: `TimeSeriesData.Value` is a `double`; the model carries
  an integer, which covers the sample's counter values. The `double` pairs
  and the cast of epoch milliseconds to `double` are exact integer pairs in
  the model.
- Date and time: instants are integer epoch milliseconds, so
  `ToUnixTimeMilliseconds` is the identity and tick precision below a
  millisecond is not represented. `DateTimeOffset` overflow past its range
  is not modelled.
- Sample.Capacity: the sample divides two `TimeSpan`s as `double` and casts
  to `int`; the model divides exact integers, so the rounding of a
  duration whose tick count exceeds 2^53 (about 28.5 years) on its
  conversion to `double` is not captured, neither in the division nor in
  the `TimeSpan * double` product `interval * count` that times each point
  at line 30. A zero interval or a quotient
  beyond `int` is taken to convert to `int.MinValue` (the x64 conversion),
  which makes the list constructor throw; runtimes that saturate instead
  behave differently there. For capacities near `int.MaxValue`,
  `new List<TimeSeriesData>(n)` throws `OutOfMemoryException` at .NET's
  array-length limit, where the model yields n points.
- Null references other than the modelled ones (`None`: a null request
  body, `AdhocFilters`, `MaxDataPoints`, `GetMetrics` result, search
  target, backend series and metric value). In the model, a query's
  `Targets`, each target entry, `Range`, each backend point, each search
  metric and every string are never null. In the code a null `Targets` or
  target entry fails in the `foreach` or at `target.Type`, a null point at
  `ToDataPoint`, and a null first metric at `ElementAt(0).Value`, each with
  a null dereference (500); a null `Range` reaches the backend unchanged,
  where the sample's `AsTimeSpan()` dereferences it.
- Exceptions thrown by `GetMetrics` or `CheckDatasource` overrides are not
  modelled; only `GetTimeSeriesData` may raise.
- Enum serialisation by Newtonsoft's `StringEnumConverter` beyond the
  declared token table (member names, numbers, case) is library code not
  part of this model.
- The `providesAnnotations` and `supportsTables` flags are stored but
  never read by the code; the model stores them and proves that no
  endpoint's reply depends on them.
