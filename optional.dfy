/** A value that may be missing: a `null` pin, an absent local-storage item, a JSON member left out, or a log that cannot be read. */
module Optional {

  datatype Option<+T> = None | Some(value: T)
}
