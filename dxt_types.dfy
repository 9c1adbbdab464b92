/** Fixed-width integer ranges and the 8-bit RGBA texel shared by the S3TC block codecs. */
module DxtTypes {

  /** `uint8_t` */
  type Byte = x: int | 0 <= x < 0x100
  /** `uint16_t` */
  type U16 = x: int | 0 <= x < 0x1_0000
  /** `uint32_t` */
  type U32 = x: int | 0 <= x < 0x1_0000_0000

  /** `color_quad_u8`: one texel, 8 bits per channel. */
  datatype Rgba = Rgba(r: Byte, g: Byte, b: Byte, a: Byte)

  /** Fully transparent black, the cut-out entry of the 3-colour DXT1 palette. */
  const TransparentBlack: Rgba := Rgba(0, 0, 0, 0)

  /** Unsigned 32-bit arithmetic: the value a `uint32_t` expression actually holds. */
  function Wrap32(x: int): (w: U32)
    ensures 0 <= x < 0x1_0000_0000 ==> w == x
    ensures (x - w) % 0x1_0000_0000 == 0
  {
    x % 0x1_0000_0000
  }

  /** A value that fits in 32 bits is not changed by wrapping. */
  lemma Wrap32Small(x: int)
    requires 0 <= x < 0x1_0000_0000
    ensures Wrap32(x) == x
  {
  }

  /** `static_cast<uint8_t>` (and the implicit narrowing on a store into a `uint8_t` field). */
  function U8Cast(x: int): (c: Byte)
    ensures 0 <= x < 0x100 ==> c == x
  {
    x % 0x100
  }

  /** `math::minimum` */
  function Min(a: int, b: int): int {
    if a < b then a else b
  }

  /** `x` lies on the closed segment between the endpoints `e0` and `e1` (in either order). */
  predicate Between(x: int, e0: int, e1: int) {
    (e0 <= x <= e1) || (e1 <= x <= e0)
  }

  /** Going from `x` to `y` never moves away from `e1` back towards `e0`. */
  predicate Toward(x: int, y: int, e0: int, e1: int) {
    (e0 <= e1 ==> x <= y) && (e1 <= e0 ==> y <= x)
  }
}
