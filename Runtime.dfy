/**
 * The browser- and backend-side values the handlers receive. The clock, the
 * storage service and the database are not modelled: what they would answer is
 * passed in as one of these values.
 */
module Runtime {

  datatype Option<T> = None | Some(value: T)

  /** A `File` picked in the browser; only its name matters here. */
  datatype File = File(name: string)

  /** A `Date`, known by the string its `toISOString()` returns. */
  datatype Date = Date(iso: string)

  /** The signed-in user (`useAuth().user`); a user without an email has `None`. */
  datatype User = User(id: string, email: Option<string>)

  /** An error as the backend client reports it: its `message` field. */
  datatype BackendError = BackendError(message: string)

  /**
   * A value caught by a `catch` clause: an `Error` instance with its message,
   * or any other value, which may or may not carry a `message` property.
   */
  datatype Thrown = ErrorInstance(message: string) | OtherValue(messageField: Option<string>)
}
