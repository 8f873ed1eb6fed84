/** The optional-value type shared by the other modules. */
module Wrappers {
  datatype Option<+T> = None | Some(value: T)
}

/** Integer helpers shared by the other modules. */
module Ints {
  /** The smaller of two integers. */
  function Min(a: int, b: int): (m: int)
    ensures m <= a && m <= b
    ensures m == a || m == b
  {
    if a < b then a else b
  }
}
