/** The optional value used for the hook's nullable state cells. */
module Options {

  /** `None` stands for JavaScript's `null`. */
  datatype Option<+T> = None | Some(value: T)
}
