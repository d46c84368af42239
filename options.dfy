/** The usual optional value, used for "no button" and "no track loaded". */
module Options {
  datatype Option<+T> = None | Some(value: T)
}
