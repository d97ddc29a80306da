/**
 * JavaScript values the model needs: an optional value standing for
 * `undefined`/`null`, and the truthiness tests the source applies with
 * `!x`, `x || d` and `if (x)`.
 */
module JsValues {

  /** `None` is `undefined` or `null`; `Some(v)` is a present value. */
  datatype Option<+T> = None | Some(value: T)

  /** A string is truthy when present and non-empty (`""` is falsy). */
  predicate TruthyStr(o: Option<string>)
  {
    o.Some? && o.value != ""
  }

  /** A number is truthy when present and non-zero (NaN is not modelled). */
  predicate TruthyInt(o: Option<int>)
  {
    o.Some? && o.value != 0
  }

  /** `o || d` for an optional string. */
  function StrOr(o: Option<string>, d: string): (r: string)
    ensures TruthyStr(o) ==> r == o.value
    ensures !TruthyStr(o) ==> r == d
  {
    if TruthyStr(o) then o.value else d
  }

  /** `o || d` for an optional number. */
  function IntOr(o: Option<int>, d: int): (r: int)
    ensures TruthyInt(o) ==> r == o.value
    ensures !TruthyInt(o) ==> r == d
  {
    if TruthyInt(o) then o.value else d
  }
}
