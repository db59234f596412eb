// The optional value used for nullable columns and absent request fields.
module Options {

  datatype Option<+T> = None | Some(value: T)
}
