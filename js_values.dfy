/**
  Values as the TypeScript source sees them: an optional value (a field marked `?`,
  or a `T | null` state), an operation that may throw, and the `x || fallback`
  idiom, whose result depends on JavaScript truthiness (0 and "" are falsy).
 */
module JsValues {

  datatype Option<+T> = None | Some(value: T)

  /** An operation that either returns a value or throws an Error with a message. */
  datatype Result<+T> = Ok(value: T) | Err(message: string)

  /** `x || fallback` for an optional number: undefined and 0 are falsy. */
  function OrNumber(x: Option<int>, fallback: int): int
  {
    if x.Some? && x.value != 0 then x.value else fallback
  }

  /** `x || fallback` for an optional string: undefined and "" are falsy. */
  function OrString(x: Option<string>, fallback: string): string
  {
    if x.Some? && x.value != "" then x.value else fallback
  }

  /** `x || []` for an optional array: every array, even an empty one, is truthy. */
  function OrEmpty<T>(x: Option<seq<T>>): seq<T>
  {
    if x.Some? then x.value else []
  }
}
