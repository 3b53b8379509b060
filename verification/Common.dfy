/** What several modules share. */
module Common {
  datatype Option<T> = None | Some(value: T)

  /** A connection (*redis.PubSub), known by its identity. */
  type Conn = nat
}
