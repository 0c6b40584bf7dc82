/** Optional values and the Python truthiness test the source applies to its
    optional string arguments. */
module Wrappers {

  datatype Option<+T> = None | Some(value: T)

  /** `if s:` / `s or default` in Python: both `None` and the empty string are false. */
  predicate Truthy(o: Option<string>)
  {
    o.Some? && o.value != ""
  }

  /** `o or fallback` for an optional string. */
  function OrElse(o: Option<string>, fallback: string): string
  {
    if Truthy(o) then o.value else fallback
  }
}
