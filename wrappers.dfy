/** Option and fault-carrying outcome types shared by the model. */
module Wrappers {

  /** A value that may be absent, as JavaScript's `null`/`undefined` results. */
  datatype Option<+T> = None | Some(value: T)

  /** The result of an expression that either yields a value or throws a
      TypeError (the script reading a property of `undefined`). */
  datatype Outcome<+T> = Ok(value: T) | TypeError

  /** JavaScript's `xs[0]`: the first element, or `undefined` for an empty array. */
  function First<T>(xs: seq<T>): (r: Option<T>)
    ensures r.None? <==> |xs| == 0
    ensures r.Some? ==> r.value in xs
  {
    if |xs| == 0 then None else Some(xs[0])
  }
}
