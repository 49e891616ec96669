/**
  Decoded JSON values as the serializer's JSON field hands them to its
  validator, plus the few wrappers the validator needs.

  A JSON number is an exact `real`: the validator only ever compares numbers
  against integer bounds, and does no arithmetic on them.
 */
module JsonValues {

  datatype Option<+T> = None | Some(value: T)

  datatype Result<+T, +E> = Success(value: T) | Failure(error: E)

  /** A decoded JSON value: Python's None, bool, int/float, str, list and dict. */
  datatype Json =
    | JNull
    | JBool(b: bool)
    | JNumber(n: real)
    | JString(s: string)
    | JArray(elems: seq<Json>)
    | JObject(members: map<string, Json>)

  /**
    The numeric value of `v` when Python's `isinstance(v, (int, float))` holds.
    Python's `bool` is a subclass of `int`, so `true` and `false` are numbers
    too and compare as 1 and 0.
   */
  function NumericValue(v: Json): Option<real> {
    match v
    case JNumber(n) => Some(n)
    case JBool(b) => Some(if b then 1.0 else 0.0)
    case _ => None
  }
}
