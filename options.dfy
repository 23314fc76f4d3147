/** The conventional optional-value datatype, used where the source may or may not have a value. */
module Options {

  datatype Option<T> = None | Some(value: T)
}
