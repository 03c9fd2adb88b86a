/** Machine integers and the optional value used by the ATM model. */
module Base {

  /** One more than the largest value of Rust's `u64`. */
  const U64_LIMIT: nat := 0x1_0000_0000_0000_0000

  /** Rust's `u64`: card fingerprints, PIN hashes, cash and parsed amounts. */
  type U64 = x: nat | x < U64_LIMIT

  /** Rust's `Option<T>`. */
  datatype Option<+T> = None | Some(value: T)
}
