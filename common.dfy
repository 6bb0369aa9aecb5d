/** Small shared vocabulary: an optional value and the session id of a connected player. */
module Common {

  /** The conventional Some/None datatype, standing in for Python's None and JavaScript's
      falsy values. */
  datatype Option<+T> = None | Some(value: T)

  /** A Socket.IO session id; the server keys players, colours and token lists by it. */
  type Sid = string
}
