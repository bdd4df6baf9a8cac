/** The optional value used for Python's `None` results. */
module Optional {

  datatype Option<+T> = None | Some(value: T)

  /** Python truthiness of an optional label: present and not the empty string. */
  predicate Truthy(o: Option<string>)
  {
    o.Some? && o.value != ""
  }
}
