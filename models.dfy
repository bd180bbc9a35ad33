/** The wire-format records of the SimpleJson protocol (the Models folder), plus
    minimal shapes for the referenced types whose definitions are not part
    of this model (`TimeRange`, `SearchMetric`, `TimeSeriesResponse`,
    `AnnotationRequest`, `TagValuesRequest`). Instants are integer epoch
    milliseconds; strings that C# allows to be `null` but that the core
    never tests for `null` are plain strings. */
module Models {
  import opened Wrappers
  import opened MetricTypes
  import opened Operators

  /** C#'s `int`: the JSON binder refuses values outside this range. */
  newtype Int32 = x: int | -0x8000_0000 <= x < 0x8000_0000

  const Int32Max: int := 0x7FFF_FFFF

  /** A time range with absolute instants in epoch milliseconds. */
  datatype TimeRange = TimeRange(from: int, to: int)

  /** `TimeRange.AsTimeSpan()`: the length of the range in milliseconds. */
  function AsTimeSpan(r: TimeRange): (d: int)
    ensures r.from + d == r.to
  {
    r.to - r.from
  }

  /** An ad-hoc filter `{key, operator, value}`, passed through unchanged. */
  datatype Filter = Filter(key: string, operator: Operator, value: string)

  /** One requested target `{target, refId, type}`. */
  datatype TargetMetric = TargetMetric(target: string, refId: string, kind: MetricType)

  /** The body of a `/query` request. `adhocFilters` is `None` when the
      body has none; the core passes it on to the backend as it is. */
  datatype QueryRequest = QueryRequest(
    panelId: Int32,
    range: TimeRange,
    intervalMs: Int32,
    adhocFilters: Option<seq<Filter>>,
    targets: seq<TargetMetric>,
    maxDataPoints: Option<Int32>)

  /** The body of a `/search` request; its target may itself be `null`. */
  datatype SearchRequest = SearchRequest(target: Option<string>)

  /** One metric a backend offers to `/search`; `value` is optional. */
  datatype SearchMetric = SearchMetric(text: string, value: Option<int>)

  /** A backend data point. The source's `double` value is carried as an
      integer. */
  datatype TimeSeriesData = TimeSeriesData(value: int, time: int)

  /** The two-element `[value, epochMs]` pair of a response. */
  datatype DataPoint = DataPoint(value: int, epochMs: int)

  /** One entry of a `/query` response. */
  datatype TimeSeriesResponse = TimeSeriesResponse(target: string, dataPoints: seq<DataPoint>)

  /** The bodies of `/annotations` and `/tag-values`; the core never reads
      them, so they carry only what the protocol names. */
  datatype AnnotationRequest = AnnotationRequest(range: TimeRange, annotation: string)

  datatype TagValuesRequest = TagValuesRequest(key: string)
}
