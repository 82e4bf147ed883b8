/** The absent-or-present wrapper used where the Java code passes null. */
module Optional {

  datatype Option<+T> = None | Some(value: T)
}
