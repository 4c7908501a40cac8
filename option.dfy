/** The optional value used where the planner may or may not have a result. */
module Optional {
  datatype Option<+T> = None | Some(value: T)
}
