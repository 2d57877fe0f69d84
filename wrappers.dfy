/** Small value wrappers shared by the other modules. */
module Wrappers {

  /** A value that may be missing (`null` / `undefined` in the backend). */
  datatype Option<+T> = None | Some(value: T)

  /** One field of a JSON request body as a schema validator sees it: not sent at all,
      sent with the expected type, or sent with some other JSON type. */
  datatype Field<+T> = Absent | Given(value: T) | Malformed
}
