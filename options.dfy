/** An optional value: used where the source has `guard let` or `if let`. */
module Options {
  datatype Option<T> = None | Some(value: T)
}
