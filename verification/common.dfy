/** Vocabulary shared by the controllers: optional request values and the
    JavaScript truthiness test the handlers apply to them. */
module Common {

  /** A request field or claim that may be absent (`undefined` or `null`). */
  datatype Option<+T> = None | Some(value: T)

  /** `!field` is false: the field is present and is not the empty string. */
  predicate Truthy(field: Option<string>)
  {
    field.Some? && field.value != ""
  }

  /** `s.startsWith(prefix)`. */
  predicate StartsWith(s: string, prefix: string)
  {
    |prefix| <= |s| && s[..|prefix|] == prefix
  }
}
