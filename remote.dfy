/** The outcome of one awaited request to the habits service, and the
    optional values the screens hold or send. */
module Remote {

  /** A resolved request with its payload, or a rejected one (transport or
      service failure). */
  datatype Reply<+T> = Ok(value: T) | Failed

  /** A value that may be absent (`null` in the screens' state). */
  datatype Option<+T> = None | Some(value: T)
}
