/** JavaScript values as the two log clients see them. Only what `typeof`, string
    contents and default parameters can observe is kept. */
module Values {

  /** A value that may be absent; `None` stands for JavaScript's `undefined` or
      `null` where the source stores or produces one. */
  datatype Option<+T> = None | Some(value: T)

  /** The outcome of a call that may fail. */
  datatype Result<+T, +E> = Ok(value: T) | Err(error: E)

  /** An argument as a JavaScript caller may pass it. `Num` stands for every value
      whose `typeof` is "number"; `Other` for every value whose `typeof` is neither
      "undefined", "string" nor "number" (null, booleans, objects, arrays,
      functions), with `id` keeping two such values apart and `length` its
      `length` property when that is a number (the parameter count of a
      function, the element count of an array, the length of a `String`
      object), None otherwise. */
  datatype JsValue = Undefined | Str(s: string) | Num(n: int) | Other(id: nat, length: Option<int>)

  /** `typeof v === "string" && v !== ""`: the shape the source demands of the
      hostname, the project name, the environment and the message. */
  predicate IsNonEmptyString(v: JsValue) {
    v.Str? && v.s != ""
  }

  /** `typeof v === "number"`: the only shape the source demands of the port. */
  predicate IsNumber(v: JsValue) {
    v.Num?
  }

  /** A default parameter `x = d`: it applies only when the argument is undefined. */
  function WithDefault(v: JsValue, d: JsValue): (r: JsValue)
    ensures v.Undefined? ==> r == d
    ensures !v.Undefined? ==> r == v
  {
    if v.Undefined? then d else v
  }
}
