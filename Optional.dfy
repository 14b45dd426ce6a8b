/** The absent-or-present value the source writes as `T | null`. */
module Optional {

  datatype Option<+T> = None | Some(value: T)
}
