/** Shared value types: the Option/Result/Outcome wrappers used for the Rust
    `anyhow::Result` returns, and a bit-test helper for byte registers. */
module Common {

  /** A 16-bit bus address (`u16`), as a number so that address ranges
      and offsets are plain arithmetic. */
  type Addr = a: int | 0 <= a < 0x1_0000

  /** A byte used as a number (`u8` in arithmetic). */
  type Byte = b: int | 0 <= b < 0x100

  /** A 16-bit unsigned value used as a number (`u16` in arithmetic). */
  type Word = x: int | 0 <= x < 0x1_0000

  datatype Option<+T> = None | Some(value: T)

  /** A value-carrying result, for `Result<T>` returns. */
  datatype Result<+T, +E> = Ok(value: T) | Err(error: E)

  /** A result with no value, for `Result<()>` returns. */
  datatype Outcome<+E> = Pass | Fail(error: E)

  /** 2 to the power n, for `1 << n` on numbers. */
  function Pow2(n: nat): (r: nat)
    ensures r >= 1
  {
    if n == 0 then 1 else 2 * Pow2(n - 1)
  }

  /** Bit `i` of a byte. */
  function Bit(b: bv8, i: nat): (r: bool)
    requires i < 8
  {
    (b >> i) & 1 == 1
  }

  /** The byte with only bit `i` set when `b` holds, and 0 otherwise. */
  function BitIf(b: bool, i: nat): (r: bv8)
    requires i < 8
    ensures Bit(r, i) == b
    ensures forall j :: 0 <= j < 8 && j != i ==> !Bit(r, j)
  {
    if b then 1 << i else 0
  }
}
