/** The filter-operator enumeration `EOperator` and its wire tokens
    (Models/EOperator.cs). */
module Operators {
  import opened Wrappers

  datatype Operator =
    | Equals
    | NotEquals
    | LessThan
    | LessThanOrEquals
    | GreaterThan
    | GreaterThanOrEquals

  /** The six wire tokens. */
  const Tokens: set<string> := {"=", "!=", "<", "<=", ">", ">="}

  /** The wire token each member is serialised as. */
  function Encode(op: Operator): (s: string)
    ensures s in Tokens
    ensures s != MemberName(op)
  {
    match op
    case Equals => "="
    case NotEquals => "!="
    case LessThan => "<"
    case LessThanOrEquals => "<="
    case GreaterThan => ">"
    case GreaterThanOrEquals => ">="
  }

  /** Reads a wire token; any string that is not one of the six fails. */
  function Decode(s: string): (r: Option<Operator>)
    ensures r.Some? ==> Encode(r.value) == s
    ensures s in Tokens <==> r.Some?
  {
    if s == "=" then Some(Equals)
    else if s == "!=" then Some(NotEquals)
    else if s == "<" then Some(LessThan)
    else if s == "<=" then Some(LessThanOrEquals)
    else if s == ">" then Some(GreaterThan)
    else if s == ">=" then Some(GreaterThanOrEquals)
    else None
  }

  /** The C# member name, which is not what goes on the wire. */
  function MemberName(op: Operator): string
  {
    match op
    case Equals => "Equals"
    case NotEquals => "NotEquals"
    case LessThan => "LessThan"
    case LessThanOrEquals => "LessThanOrEquals"
    case GreaterThan => "GreaterThan"
    case GreaterThanOrEquals => "GreaterThanOrEquals"
  }

  lemma TokenTable()
    ensures Encode(Equals) == "=" && Encode(NotEquals) == "!="
    ensures Encode(LessThan) == "<" && Encode(LessThanOrEquals) == "<="
    ensures Encode(GreaterThan) == ">" && Encode(GreaterThanOrEquals) == ">="
  {
  }

  /** Every operator survives a round trip through its token. */
  lemma DecodeEncode(op: Operator)
    ensures Decode(Encode(op)) == Some(op)
  {
  }

  /** The six tokens are pairwise distinct. */
  lemma TokensDistinct(a: Operator, b: Operator)
    ensures Encode(a) == Encode(b) ==> a == b
  {
  }

  /** The wire token is never the member's own name. */
  lemma TokenIsNotMemberName(op: Operator)
    ensures Encode(op) != MemberName(op)
    ensures Decode(MemberName(op)) == None
  {
  }
}
