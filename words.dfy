/**
 Machine words of a 64-bit Linux target, as Go sees them: `uint32`, `uint64`
 and `uintptr` (64 bits wide on the platforms io_uring runs on), with the
 wrapping arithmetic that Go's `+` and `*` perform on them.
 */
module Words {

  const TWO32: int := 0x1_0000_0000
  const TWO64: int := 0x1_0000_0000_0000_0000

  newtype uint32 = x: int | 0 <= x < 0x1_0000_0000
  newtype uint64 = x: int | 0 <= x < 0x1_0000_0000_0000_0000
  newtype uintptr = x: int | 0 <= x < 0x1_0000_0000_0000_0000

  /** Go's `a + b` on uint32: at most one carry out of bit 31 is dropped. */
  function Add32(a: uint32, b: uint32): (r: uint32)
    ensures r as int == (a as int + b as int) % TWO32
    ensures a as int + b as int < TWO32 ==> r as int == a as int + b as int
    ensures a as int + b as int >= TWO32 ==> r < a && r < b
  {
    var s := a as int + b as int;
    if s < TWO32 then s as uint32 else (s - TWO32) as uint32
  }

  /** Go's `a * b` on uint32: the product truncated to its low 32 bits. */
  function Mul32(a: uint32, b: uint32): (r: uint32)
    ensures a as int * b as int < TWO32 ==> r as int == a as int * b as int
  {
    var m := a as int * b as int;
    assert 0 <= m;
    (m % TWO32) as uint32
  }

  /**
   Go's `p + uintptr(off)`: the uint32 offset is zero-extended to pointer
   width and added with wrap-around modulo 2^64.
   */
  function PtrAdd(p: uintptr, off: uint32): (r: uintptr)
    ensures r as int == (p as int + off as int) % TWO64
    ensures p as int + off as int < TWO64 ==> r as int - p as int == off as int
    ensures p as int + off as int >= TWO64 ==> r < p
  {
    var s := p as int + off as int;
    if s < TWO64 then s as uintptr else (s - TWO64) as uintptr
  }
}
