/** Go's fixed-width integer conversions, which keep the low bits of the
    two's-complement value: `uint8(x)`, `uint64(x)`/`uint(x)` and `int(x)`
    on a 64-bit platform. */
module GoInts {
  const Two8: int := 0x100
  const Two63: int := 0x8000_0000_0000_0000
  const Two64: int := 0x1_0000_0000_0000_0000

  type Uint8 = x: int | 0 <= x < 0x100
  type Uint64 = x: int | 0 <= x < 0x1_0000_0000_0000_0000

  /** uint8(x): the low eight bits. */
  function ToUint8(x: int): (r: Uint8)
    ensures 0 <= x < Two8 ==> r == x
    ensures (r - x) % Two8 == 0
  {
    x % Two8
  }

  /** uint64(x) and uint(x): the low 64 bits. */
  function ToUint64(x: int): (r: Uint64)
    ensures 0 <= x < Two64 ==> r == x
    ensures -Two63 <= x < 0 ==> r == x + Two64
  {
    x % Two64
  }

  /** int(x) / int64(x): the low 64 bits read as a signed number. */
  function ToInt64(x: int): (r: int)
    ensures -Two63 <= r < Two63
    ensures -Two63 <= x < Two63 ==> r == x
    ensures Two63 <= x < Two64 ==> r == x - Two64
  {
    var u := x % Two64;
    if u >= Two63 then u - Two64 else u
  }
}
