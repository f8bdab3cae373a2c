/** Optional values: the model's stand-in for JavaScript's `undefined` / `null`. */
module Wrappers {

  datatype Option<+T> = None | Some(value: T)

  /** JavaScript truthiness of an optional string: present and not empty. */
  predicate Present(s: Option<string>) {
    s.Some? && s.value != ""
  }

  /** The `a || b` idiom on an optional string: `a` when it is truthy, else `b`. */
  function OrElse(a: Option<string>, b: string): (r: string)
    ensures Present(a) ==> r == a.value
    ensures !Present(a) ==> r == b
  {
    if Present(a) then a.value else b
  }
}
