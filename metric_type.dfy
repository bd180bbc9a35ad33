/** The target-type enumeration `EMetricType` and its wire tokens
    (Models/EMetricType.cs). */
module MetricTypes {
  import opened Wrappers

  /** `Timeseries` and `Table` are the two declared members. A C# enum
      variable can hold any integer of the underlying type; `Undeclared`
      stands for every such value other than the two declared ones, which
      the source never distinguishes among. */
  datatype MetricType = Timeseries | Table | Undeclared

  predicate IsDeclared(t: MetricType)
  {
    !t.Undeclared?
  }

  /** The wire token of a declared member; an undeclared value has none. */
  function Encode(t: MetricType): (r: Option<string>)
    ensures r.Some? <==> IsDeclared(t)
  {
    match t
    case Timeseries => Some("timeserie")
    case Table => Some("table")
    case Undeclared => None
  }

  /** Reads a wire token; only the two declared tokens are recognised. */
  function Decode(s: string): (r: Option<MetricType>)
    ensures r.Some? ==> IsDeclared(r.value) && Encode(r.value) == Some(s)
  {
    if s == "timeserie" then Some(Timeseries)
    else if s == "table" then Some(Table)
    else None
  }

  /** The token table itself: `timeserie` is singular, with no trailing `s`. */
  lemma TokenTable()
    ensures Encode(Timeseries) == Some("timeserie")
    ensures Encode(Table) == Some("table")
    ensures Decode("timeseries") == None
  {
  }

  /** Every declared member survives a round trip through its token. */
  lemma DecodeEncode(t: MetricType)
    requires IsDeclared(t)
    ensures Encode(t).Some? && Decode(Encode(t).value) == Some(t)
  {
  }

  /** Distinct declared members have distinct tokens. */
  lemma TokensDistinct(a: MetricType, b: MetricType)
    requires IsDeclared(a) && IsDeclared(b)
    ensures Encode(a) == Encode(b) ==> a == b
  {
  }

  /** Exactly two members are declared. */
  lemma ExactlyTwoDeclared(t: MetricType)
    ensures IsDeclared(t) <==> t == Timeseries || t == Table
  {
  }
}
