/** An optional value: a missing target, spawn point or component reference. */
module Options {
  datatype Option<+T> = None | Some(value: T)
}
