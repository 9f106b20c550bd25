// Unsigned 32-bit arithmetic as C++ uint32_t performs it: results wrap modulo 2^32.
module Word32 {
  const WORD := 0x1_0000_0000

  type u32 = x: int | 0 <= x < 0x1_0000_0000

  function Add(a: u32, b: u32): u32 {
    (a + b) % WORD
  }

  function Sub(a: u32, b: u32): u32 {
    (a - b) % WORD
  }

  function Min(a: u32, b: u32): u32 {
    if b < a then b else a
  }
}
