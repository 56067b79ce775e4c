/** An optional value: a field, a key or a reply part that may be absent. */
module Optional {

  datatype Option<+T> = None | Some(value: T)
}
