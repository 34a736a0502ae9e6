/**
 The few pieces of JavaScript value semantics that the SDK's entry point relies on:
 optional properties (`undefined` / `null` versus a present value), the logical
 OR operator `||` and truthiness of a boolean-typed optional property.
 */
module JsValues {

  /** A property that may be missing: `None` stands for both `undefined` and `null`. */
  datatype Option<+T> = None | Some(value: T)

  /** A string is truthy exactly when it is present and non-empty. */
  predicate TruthyString(s: Option<string>)
  {
    s.Some? && s.value != ""
  }

  /** An optional boolean property is truthy exactly when it holds `true`. */
  predicate TruthyBool(b: Option<bool>)
  {
    b == Some(true)
  }

  /** `a || b` where `a` is an optional string and `b` a string. */
  function OrString(a: Option<string>, b: string): string
  {
    if TruthyString(a) then a.value else b
  }

  /** `a || b` where `a` is an optional array: every array, even `[]`, is truthy. */
  function OrArray<T>(a: Option<seq<T>>, b: seq<T>): seq<T>
  {
    if a.Some? then a.value else b
  }
}
