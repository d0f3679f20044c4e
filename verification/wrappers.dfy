/** Optional values and the two pieces of Python value semantics the core relies on. */
module Wrappers {

  /** Python's `None` or a value. */
  datatype Option<+T> = None | Some(value: T)

  /** Python truthiness of an optional string: `None` and `""` are false. */
  predicate Truthy(s: Option<string>)
  {
    s.Some? && s.value != ""
  }

  /** Python's `str()` of an optional string: `None` is rendered as "None". */
  function PyStr(s: Option<string>): string
  {
    if s.Some? then s.value else "None"
  }
}
