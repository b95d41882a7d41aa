/** A value that may be absent: `None` stands for Python's `None`. */
module Options {

  datatype Option<+T> = None | Some(value: T)
}
