/**
 * JavaScript values as the servers and the dashboard see them: a property that may be
 * missing, and the `x || d` idiom, which falls back to `d` whenever `x` is falsy.
 */
module JsValues {

  /** A property that may be absent (`undefined`). */
  datatype Option<+T> = None | Some(value: T)

  /** `x || d` for a number: an absent number and `0` are falsy, so both give `d`.
      A negative number is truthy and is kept. */
  function OrNumber(x: Option<int>, d: int): int {
    if x.Some? && x.value != 0 then x.value else d
  }

  /** `x || d` for a string: an absent string and `''` are falsy, so both give `d`. */
  function OrString(x: Option<string>, d: string): string {
    if x.Some? && x.value != "" then x.value else d
  }

  function Min(a: int, b: int): int {
    if a <= b then a else b
  }
}
