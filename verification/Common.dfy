/** Shared by every module: the nullable columns of the database, and the powers of its back-offs. */
module Common {

  /** A nullable column: `None` is SQL NULL. */
  datatype Option<+T> = None | Some(value: T)

  function Power(n: nat): nat {
    if n == 0 then 1 else 2 * Power(n - 1)
  }
}
