/** Small result types used for C# `null` returns and thrown exceptions. */
module Results {

  /** `None` stands for the `null` a lookup returns when nothing matches. */
  datatype Option<+T> = None | Some(value: T)

  /** `Fail` stands for an exception thrown out of an operation. */
  datatype Outcome<+E> = Pass | Fail(error: E)
}
