/** Shared vocabulary of the backend's route handlers: optional values,
    document identifiers and JavaScript truthiness of request fields. */
module Common {

  /** A field that may be absent from a request body or a document. */
  datatype Option<+T> = None | Some(value: T)

  /** MongoDB ObjectIds (document `_id`s and references to users); the
      routes only compare them for equality. */
  type ObjectId = nat
  type UserId = ObjectId

  /** JavaScript truthiness of an optional string: `!s` is false exactly when
      the value is present and not the empty string. */
  predicate Truthy(s: Option<string>)
  {
    s.Some? && s.value != ""
  }
}
