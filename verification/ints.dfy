/** Fixed-width unsigned integers of the firmware, as subset types of `int`,
    and the wrap-around the C arithmetic performs on them. */
module Ints {

  const U8_LIMIT: int := 0x100
  const U16_LIMIT: int := 0x1_0000
  const U32_LIMIT: int := 0x1_0000_0000

  type u8 = x: int | 0 <= x < 0x100
  type u16 = x: int | 0 <= x < 0x1_0000
  type u32 = x: int | 0 <= x < 0x1_0000_0000

  /** `uint32_t` subtraction `a - b`: the difference taken modulo 2^32. */
  function Sub32(a: u32, b: u32): (r: u32)
    ensures b <= a ==> r == a - b
    ensures a < b ==> r == a - b + U32_LIMIT
  {
    (a - b) % U32_LIMIT
  }

  /** Elapsed time survives a wrap of the tick counter: if `now` is `e`
      milliseconds after `start` on a 32-bit clock, `now - start` is `e`. */
  lemma ElapsedAcrossWrap(start: u32, e: u32)
    ensures Sub32((start + e) % U32_LIMIT, start) == e
  {
    if start + e < U32_LIMIT {
      assert (start + e) % U32_LIMIT == start + e;
    } else {
      assert (start + e) % U32_LIMIT == start + e - U32_LIMIT;
    }
  }

  /** Products of non-negative factors grow with each factor. */
  lemma MulMono(a: int, b: int, c: int, d: int)
    requires 0 <= a <= c && 0 <= b <= d
    ensures 0 <= a * b <= c * d
  {
    assert a * b <= c * b;
    assert c * b <= c * d;
  }
}
