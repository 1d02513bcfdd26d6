/** JavaScript's `T | null`, as a value type. */
module Optional {

  /** `None` stands for `null`; `Some(v)` for a present value `v`. */
  datatype Option<+T> = None | Some(value: T)
}
