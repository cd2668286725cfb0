/** A value that may be absent: stands for a nullable Java reference. */
module Optional {

  datatype Option<+T> = None | Some(value: T)
}
