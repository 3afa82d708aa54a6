/** Small value types shared by every module of the model. */
module Common {

  datatype Option<+T> = None | Some(value: T)

  /**
   * How one key of an inbound JSON object reads: missing altogether,
   * present with JSON null, or present with a string.
   */
  datatype Field = Absent | Null | Str(s: string) {

    /** `payload.get(key, default)`, with Python's None written as None. */
    function GetOr(default: Option<string>): (r: Option<string>)
      ensures Absent? ==> r == default
      ensures Null? ==> r == None
      ensures Str? ==> r == Some(s)
    {
      match this
      case Absent => default
      case Null => None
      case Str(v) => Some(v)
    }

    /** Python truthiness of `payload.get(key)`: a non-empty string. */
    predicate Truthy()
    {
      Str? && s != ""
    }
  }

  /** Python's `f"{x}"` of an optional string: None renders as "None". */
  function Render(o: Option<string>): string
  {
    match o
    case None => "None"
    case Some(v) => v
  }

  /** Python's `x or default` on an optional string (None and "" are falsy). */
  function OrElse(o: Option<string>, default: string): string
  {
    if o.Some? && o.value != "" then o.value else default
  }

  /** Python truthiness of an optional string (None and "" are falsy). */
  predicate StrTruthy(o: Option<string>)
  {
    o.Some? && o.value != ""
  }

  /** Python truthiness of an optional integer (None and 0 are falsy). */
  predicate IntTruthy(o: Option<int>)
  {
    o.Some? && o.value != 0
  }

  /** No element occurs twice. */
  predicate Distinct<T(==)>(s: seq<T>)
  {
    forall i, j :: 0 <= i < j < |s| ==> s[i] != s[j]
  }

  /** A JSON number from a payload: its value and the text Python prints for it. */
  datatype Amount = Amount(value: real, text: string)
}
