/** Values as the handlers receive them from a parsed JSON request body. */
module JsValues {

  /** A body field that may be missing. `None` also stands for a value of the wrong JSON type
      where the handler tests the type (`Array.isArray`, `typeof ... === 'boolean'`). */
  datatype Option<+T> = None | Some(value: T)

  /** JavaScript truthiness of a string field: `!field` is false exactly when the field is
      present and not the empty string. */
  predicate Truthy(field: Option<string>)
  {
    field.Some? && field.value != ""
  }

  /** `Array.isArray(v) && v.length`: an array with at least one element. */
  predicate IsNonEmptyArray<T>(v: Option<seq<T>>)
  {
    v.Some? && |v.value| > 0
  }
}
