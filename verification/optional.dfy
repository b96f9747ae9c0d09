/** The optional value used where Go returns a nil error or a -1 index. */
module Optional {

  datatype Option<+T> = None | Some(value: T)

}
