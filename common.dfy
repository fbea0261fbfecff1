/** Small value types shared by the modules of the model. */
module Common {

  /** An optional value; `None` stands for JavaScript's `null`/`undefined`. */
  datatype Option<+T> = None | Some(value: T)

  /** JavaScript truthiness of an optional string: present and not empty. */
  predicate Truthy(v: Option<string>)
  {
    v.Some? && v.value != ""
  }

  function Min(a: int, b: int): int
  {
    if a <= b then a else b
  }
}
