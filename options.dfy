/// A value that may be absent; `None` stands for Java's `null`.
module Options {
  datatype Option<+T> = None | Some(value: T)
}
