/** The usual optional value, used for decoding that may fail and for lookups that may miss. */
module Optional {
  datatype Option<+T> = None | Some(value: T)
}
