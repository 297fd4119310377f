/** Small shared vocabulary: optional values (JavaScript's null / undefined) and integer minimum. */
module Common {

  /** A value that may be absent, as `null` or `undefined` in the program. */
  datatype Option<+T> = None | Some(value: T)

  /** JavaScript truthiness of an optional string: present and non-empty. */
  predicate Truthy(s: Option<string>) {
    s.Some? && s.value != ""
  }

  /** `Math.min` on integers. */
  function Min(a: int, b: int): int {
    if a <= b then a else b
  }
}
