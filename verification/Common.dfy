/** Types and machine bounds shared by the contract models. */
module Common {

  datatype Option<+T> = None | Some(value: T)

  /** How a contract call ends. `Err` is a returned error, `Panic` a trap (an
      overflow under `overflow-checks`, or a failed `unwrap`); the host reverts
      every storage write of a call that ends in either. */
  datatype Outcome<+T, +E> = Ok(value: T) | Err(error: E) | Panic

  datatype Address = Address(id: nat)

  /** What a call reads from the host about the current ledger. */
  datatype Env = Env(sequence: nat, timestamp: nat)

  const U32_MAX: nat := 0xFFFF_FFFF
  const U64_MAX: nat := 0xFFFF_FFFF_FFFF_FFFF
  const I128_MAX: int := 0x7FFF_FFFF_FFFF_FFFF_FFFF_FFFF_FFFF_FFFF
  const I128_MIN: int := -I128_MAX - 1

  function Min(a: int, b: int): int {
    if a <= b then a else b
  }

  function Max(a: int, b: int): int {
    if a <= b then b else a
  }

  /** `u32::saturating_add`. */
  function SaturatingAddU32(a: nat, b: nat): nat {
    Min(a + b, U32_MAX)
  }

  /** `saturating_sub` of any unsigned type. */
  function SaturatingSub(a: nat, b: nat): nat {
    if a <= b then 0 else a - b
  }
}
