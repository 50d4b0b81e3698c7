/** Machine words and byte strings shared by every component. */
module Words {

  const TWO_64: int := 0x1_0000_0000_0000_0000
  const MAX_U64: int := TWO_64 - 1

  type Byte = b: int | 0 <= b < 256
  type U64 = n: int | 0 <= n < TWO_64

  type Bytes = seq<Byte>

  /** An integer on a 64-bit word. */
  function Wrap64(n: int): (w: U64)
    ensures 0 <= n < TWO_64 ==> w == n
  {
    n % 0x1_0000_0000_0000_0000
  }

  type I64 = n: int | -0x8000_0000_0000_0000 <= n < 0x8000_0000_0000_0000

  /** An integer on a signed 64-bit word. */
  function Signed64(n: int): (i: I64)
    ensures -0x8000_0000_0000_0000 <= n < 0x8000_0000_0000_0000 ==> i == n
  {
    (n + 0x8000_0000_0000_0000) % 0x1_0000_0000_0000_0000 - 0x8000_0000_0000_0000
  }

  datatype Option<+T> = None | Some(value: T)

  /** Powers of 256, the weight of a byte at each position of a number. */
  ghost function Pow256(n: nat): (p: nat)
    ensures p > 0
  {
    if n == 0 then 1 else 256 * Pow256(n - 1)
  }
}
