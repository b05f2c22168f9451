/**
 * A JSON document as a value, with the lookups and conversions that the
 * loader applies to it (member lookup with `find`, type tests, and
 * conversion of a value to a number or a string).
 */
module Json {
  import opened Errors
  import Ints

  datatype Value =
    | Null
    | Bool(b: bool)
    | Number(n: real)
    | String(s: string)
    | Array(items: seq<Value>)
    | Object(members: map<string, Value>)

  /**
   * Member lookup as `find` does it: a value that is not an object has no
   * members, so looking up a key in it finds nothing.
   */
  function Find(v: Value, key: string): (r: Option<Value>)
    ensures r.Some? <==> v.Object? && key in v.members
    ensures r.Some? ==> r.value == v.members[key]
  {
    if v.Object? && key in v.members then Some(v.members[key]) else None
  }

  predicate Has(v: Value, key: string) {
    Find(v, key).Some?
  }

  /**
   * Conversion of a value to an unbounded integer, as a request for an
   * arithmetic type performs it: a number is truncated toward zero, a
   * boolean becomes 0 or 1, anything else is a type error.
   */
  function ToInteger(v: Value): (r: Result<int>)
    ensures r.Ok? <==> v.Number? || v.Bool?
    ensures v.Bool? ==> r == Ok(if v.b then 1 else 0)
  {
    match v
    case Number(n) => Ok(Ints.Trunc(n))
    case Bool(b) => Ok(if b then 1 else 0)
    case _ => Err(TypeError)
  }
}
