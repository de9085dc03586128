/** Unsigned machine words. */
module Words {

  const TWO32: int := 0x1_0000_0000

  function Max(a: int, b: int): int {
    if a < b then b else a
  }

  type uint8 = x: int | 0 <= x < 0x100
  type uint32 = x: int | 0 <= x < 0x1_0000_0000
}
