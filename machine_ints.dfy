/**
 * Fixed-width integers of the Go programs modelled here, and the wrap-around
 * of Go's integer arithmetic written out explicitly.
 */
module MachineInts {

  const TWO_TO_THE_63: int := 0x8000_0000_0000_0000
  const TWO_TO_THE_64: int := 0x1_0000_0000_0000_0000

  newtype byte = x: int | 0 <= x < 0x100
  newtype uint32 = x: int | 0 <= x < 0x1_0000_0000
  newtype int64 = x: int | -0x8000_0000_0000_0000 <= x < 0x8000_0000_0000_0000
  newtype uint64 = x: int | 0 <= x < 0x1_0000_0000_0000_0000

  /** The `uint64` that Go's wrapping arithmetic yields for an exact result. */
  function ToU64(x: int): uint64
  {
    (x % TWO_TO_THE_64) as uint64
  }

  /** Go's `uint64` addition. */
  function AddU64(x: uint64, y: uint64): uint64
  {
    ToU64(x as int + y as int)
  }

  /** Go's `uint64` subtraction. */
  function SubU64(x: uint64, y: uint64): uint64
  {
    ToU64(x as int - y as int)
  }

  /** Wrapping once and then adding exactly, or adding exactly and wrapping
      at the end, gives the same `uint64`. */
  lemma {:induction false} ToU64Absorbs(x: int, d: int)
    ensures ToU64(ToU64(x) as int + d) == ToU64(x + d)
  {
  }

  /** The 64-bit two's-complement value of an exact integer, as Go's `int`
      arithmetic on a 64-bit platform produces it. */
  function WrapInt64(x: int): int
  {
    (x + TWO_TO_THE_63) % TWO_TO_THE_64 - TWO_TO_THE_63
  }

  lemma {:induction false} WrapInt64InRange(x: int)
    requires -TWO_TO_THE_63 <= x < TWO_TO_THE_63
    ensures WrapInt64(x) == x
  {
  }

  lemma {:induction false} WrapInt64Overflow(x: int)
    requires TWO_TO_THE_63 <= x < TWO_TO_THE_64
    ensures WrapInt64(x) == x - TWO_TO_THE_64
  {
  }

  /**
   * The stacks compute an index as `len(s.a) - int(n)` in Go's wrapping
   * 64-bit `int`. A slice length is at most 2^63 - 1, and for every `int64`
   * depth the wrapped index is inside `[0, len)` (the range Roll indexes) and
   * inside `[0, len]` (the range Bury slices) exactly when the exact index is.
   * So the model computes the index in unbounded integers without changing
   * which calls panic.
   */
  lemma {:induction false} DepthIndexWrapIsHarmless(len: int, n: int64)
    requires 0 <= len < TWO_TO_THE_63
    ensures (0 <= WrapInt64(len - n as int) < len) <==> (0 <= len - n as int < len)
    ensures (0 <= WrapInt64(len - n as int) <= len) <==> (0 <= len - n as int <= len)
  {
    var x := len - n as int;
    if x < TWO_TO_THE_63 {
      WrapInt64InRange(x);
    } else {
      WrapInt64Overflow(x);
    }
  }
}
