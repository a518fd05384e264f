/** The value-or-nothing type that stands for the source's `X | None`. */
module Options {
  datatype Option<+T> = None | Some(value: T)
}
