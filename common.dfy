/** Small value types shared by the dashboard's components. */
module Common {

  /** A value that may be absent; `None` stands for the `null` a React helper returns. */
  datatype Option<T> = None | Some(value: T)

  /** The `variant` names the Badge component accepts, as the dashboard's helpers return them. */
  datatype Variant = Destructive | Warning | Info | Success | Secondary

  /** The smaller of two integers. */
  function Min(a: int, b: int): (m: int)
    ensures m <= a && m <= b
    ensures m == a || m == b
  {
    if a <= b then a else b
  }
}
