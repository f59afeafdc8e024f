/** Shared value types: optional values and results that carry an error. */
module Common {

  datatype Option<+T> = None | Some(value: T)

  datatype Result<+T, +E> = Ok(value: T) | Err(error: E)

  /** An idealised digest function: different inputs never share a digest. */
  ghost predicate Injective<M(!new), D(!new)>(hash: M -> D) {
    forall x, y :: hash(x) == hash(y) ==> x == y
  }
}
