/** An optional value, used where the source answers "not found" (`npos`). */
module Optional {
  datatype Option<+T> = None | Some(value: T)
}
