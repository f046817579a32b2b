/** The optional value used for a match that may fail and a fetch that may fail. */
module Optional {

  datatype Option<+T> = None | Some(value: T)
}
