/** Plain values shared by every part of the model: optional values, results that may
    carry a thrown error, and the JavaScript values the middleware passes around
    (request options, decoded response bodies, anything a foreign input carries). */
module Values {

  /** An optional value: `None` stands for JavaScript's `undefined` or `null`. */
  datatype Option<+T> = None | Some(value: T)

  /** A computation that either produced a value or threw. */
  datatype Result<+T, +E> = Ok(value: T) | Err(error: E)

  /** A JavaScript value. Numbers are modelled as integers. */
  datatype Value =
    | Undefined
    | Null
    | Bool(b: bool)
    | Num(n: int)
    | Str(s: string)
    | Arr(items: seq<Value>)
    | Obj(fields: map<string, Value>)

  /** `s || fallback` on an optional string: `undefined`, `null` and `''` are falsy,
      every other string is kept. */
  predicate Given(s: Option<string>) {
    s.Some? && s.value != ""
  }

  /** The value of `s || fallback`. */
  function OrElse(s: Option<string>, fallback: string): (r: string)
    ensures Given(s) ==> r == s.value
    ensures !Given(s) ==> r == fallback
    ensures fallback != "" ==> r != ""
  {
    if Given(s) then s.value else fallback
  }
}
