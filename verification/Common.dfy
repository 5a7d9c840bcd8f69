/** Machine integers, addresses and the success-or-panic wrappers that every other module uses. */
module Common {

  const U32_MAX: int := 0xFFFF_FFFF
  const U64_MAX: int := 0xFFFF_FFFF_FFFF_FFFF
  const I128_MAX: int := 0x7FFF_FFFF_FFFF_FFFF_FFFF_FFFF_FFFF_FFFF
  const I128_MIN: int := -0x8000_0000_0000_0000_0000_0000_0000_0000

  type u32 = x: int | 0 <= x <= U32_MAX
  type u64 = x: int | 0 <= x <= U64_MAX
  type i128 = x: int | I128_MIN <= x <= I128_MAX

  datatype Address = Address(key: nat)

  /** The address of the deployed stream contract itself. */
  const SELF: Address := Address(0)

  /** `None` stands for an absent entry, or for a call that panicked. */
  datatype Option<+T> = None | Some(value: T) {
    predicate IsFailure() { None? }

    function PropagateFailure<U>(): Option<U>
      requires None?
    {
      None
    }

    function Extract(): T
      requires Some?
    {
      value
    }

    function Or(default: T): T {
      if Some? then value else default
    }
  }

  /** A runtime assertion of the source: `:- Need(c);` rejects the call unless `c` holds. */
  datatype Check = Pass | Stop {
    predicate IsFailure() { Stop? }

    function PropagateFailure<U>(): Option<U>
      requires Stop?
    {
      None
    }
  }

  function Need(condition: bool): Check {
    if condition then Pass else Stop
  }

  function Min(a: int, b: int): int {
    if a <= b then a else b
  }

  function Max(a: int, b: int): int {
    if a >= b then a else b
  }

  /** `u64::saturating_sub`. */
  function SatSub(a: u64, b: u64): u64 {
    if a >= b then a - b else 0
  }

  /** `u64::saturating_add`. */
  function SatAdd(a: u64, b: u64): u64 {
    if a + b <= U64_MAX then a + b else U64_MAX
  }

  /** `i128` arithmetic that panics, or yields `None`, when the result does not fit. */
  function Checked(x: int): Option<i128> {
    if I128_MIN <= x <= I128_MAX then Some(x) else None
  }

  function Lookup<K, V>(m: map<K, V>, k: K, default: V): V {
    if k in m then m[k] else default
  }
}
