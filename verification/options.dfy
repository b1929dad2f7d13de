/** The optional value used for Go's `error` results, where `nil` means "no error". */
module Options {

  datatype Option<+T> = None | Some(value: T)
}
