/** Results, optional values and the counting of conditions. */
module Results {
  datatype Option<+T> = None | Some(value: T)

  datatype Result<+T, +E> = Ok(value: T) | Err(error: E)

  // How much a condition counts
  function One(b: bool): nat {
    if b then 1 else 0
  }
}
