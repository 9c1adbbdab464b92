/**
 * `dxt3_block`: the explicit-alpha half of a DXT3 block, sixteen 4-bit alphas
 * packed two to a byte in row-major order. Texel `(x, y)` lives in byte
 * `2 * y + x / 2`, in the low nibble when `x` is even and the high nibble when
 * it is odd.
 */
module Dxt3 {
  import opened DxtTypes

  /** `cDXTBlockSize`: a block is 4x4 texels. */
  const BlockSize: nat := 4

  /** Number of bytes in `m_alpha`. */
  const AlphaBytes: nat := 8

  // ---------------------------------------------------------------------------
  // The nibble operators on a byte, read arithmetically

  /** A byte is the `|` of its low nibble and its shifted high nibble. */
  lemma NibbleSplit(b: bv8)
    ensures b == (b & 0xF) | ((b >> 4) << 4)
    ensures b >> 4 < 16 && b & 0xF < 16
  {
  }

  /** `lo | (hi << 4)` of two nibbles is `lo + 16 * hi`. */
  lemma NibbleJoin(lo: bv8, hi: bv8)
    requires lo < 16 && hi < 16
    ensures (lo | (hi << 4)) as int == lo as int + hi as int * 16
    ensures lo as int < 16 && hi as int < 16
  {
  }

  /** The two nibbles of `lo + 16 * hi` are `lo` and `hi`. */
  lemma NibbleFields(p: int, lo: int, hi: int)
    requires 0 <= lo < 16 && 0 <= hi < 16 && p == lo + hi * 16
    ensures p / 16 == hi && p % 16 == lo
  {
  }

  /** `b >> 4` and `b & 0xF` are the quotient and remainder of the byte by 16. */
  lemma NibbleBits(b: bv8)
    ensures (b >> 4) as int == b as int / 16
    ensures (b & 0xF) as int == b as int % 16
  {
    NibbleSplit(b);
    NibbleJoin(b & 0xF, b >> 4);
    NibbleFields(b as int, (b & 0xF) as int, (b >> 4) as int);
  }

  /** A byte whose high nibble reads as `hi` and low nibble as `lo` is `hi * 16 + lo`. */
  lemma Recompose(b: bv8, hi: int, lo: int)
    requires (b >> 4) as int == hi && (b & 0xF) as int == lo
    ensures b as int == hi * 16 + lo
  {
    NibbleBits(b);
  }

  /** Clearing then filling the low nibble keeps the high one. */
  lemma SetLowNibble(c: bv8, v: bv8)
    requires v < 16
    ensures (c & !(0xF << 0)) | (v << 0) == v | ((c >> 4) << 4)
  {
  }

  /** Clearing then filling the high nibble keeps the low one. */
  lemma SetHighNibble(c: bv8, v: bv8)
    requires v < 16
    ensures (c & !(0xF << 4)) | (v << 4) == (c & 0xF) | (v << 4)
  {
  }

  /** A byte value converted to `bv8` reads back as the same number, and stays below 16 if it was. */
  lemma IntBits(x: int)
    requires 0 <= x < 0x100
    ensures (x as bv8) as int == x
    ensures x < 16 ==> x as bv8 < 16
  {
  }

  /** `(b >> 4) & 0xF` in the odd column, `b & 0xF` in the even one: the texel's nibble of byte `b`. */
  function NibbleOf(b: Byte, odd: bool): (n: nat)
    ensures n == if odd then b / 16 else b % 16
  {
    IntBits(b);
    var bits := b as bv8;
    NibbleBits(bits);
    NibbleBits(bits >> 4);
    var n := (if odd then bits >> 4 else bits) & 0xF;
    n as int
  }

  /** `(n << 4) | n`: a nibble replicated into both halves of a byte. */
  function Replicate(n: nat): (e: Byte)
    requires n < 16
    ensures e == n * 17
  {
    IntBits(n);
    var bits := n as bv8;
    NibbleJoin(bits, bits);
    ((bits << 4) | bits) as int
  }

  /** `(c & ~(0xF << shift)) | (v << shift)` on the bits of a byte. */
  function MaskIn(c: bv8, v: bv8, shift: bv8): (r: bv8)
    requires shift == 0 || shift == 4
    ensures v < 16 && shift == 4 ==> r >> 4 == v && r & 0xF == c & 0xF
    ensures v < 16 && shift == 0 ==> r & 0xF == v && r >> 4 == c >> 4
  {
    (c & !(0xF << shift)) | (v << shift)
  }

  /** Replacing the high nibble of `c` by `v` gives `c % 16 + v * 16`. */
  lemma MaskInHigh(c: Byte, v: nat)
    requires v < 16
    ensures MaskIn(c as bv8, v as bv8, 4) as int == c % 16 + v * 16
  {
    var r := MaskIn(c as bv8, v as bv8, 4);
    assert (r >> 4) as int == v by { IntBits(v); }
    assert (r & 0xF) as int == c % 16 by { IntBits(c); NibbleBits(c as bv8); }
    Recompose(r, v, c % 16);
  }

  /** Replacing the low nibble of `c` by `v` gives `c / 16 * 16 + v`. */
  lemma MaskInLow(c: Byte, v: nat)
    requires v < 16
    ensures MaskIn(c as bv8, v as bv8, 0) as int == c / 16 * 16 + v
  {
    var r := MaskIn(c as bv8, v as bv8, 0);
    assert (r >> 4) as int == c / 16 by { IntBits(c); NibbleBits(c as bv8); }
    assert (r & 0xF) as int == v by { IntBits(v); }
    Recompose(r, c / 16, v);
  }

  /** The byte `set_alpha` writes back: `c` with the texel's nibble, high when `odd`, replaced by `v`. */
  function ReplaceNibble(c: Byte, v: nat, odd: bool): (r: Byte)
    requires v < 16
    ensures r == if odd then c % 16 + v * 16 else c / 16 * 16 + v
  {
    MaskInHigh(c, v);
    MaskInLow(c, v);
    MaskIn(c as bv8, v as bv8, if odd then 4 else 0) as int
  }

  /** Byte of `m_alpha` holding texel `(x, y)`: `(y << 1) + (x >> 1)`. */
  function AlphaOffset(x: nat, y: nat): (ofs: nat)
    requires x < BlockSize && y < BlockSize
    ensures ofs < AlphaBytes
  {
    y * 2 + x / 2
  }

  /** The 4-bit alpha of texel `(x, y)` in the packed bytes. */
  function NibbleAt(bytes: seq<Byte>, x: nat, y: nat): (n: nat)
    requires |bytes| == AlphaBytes && x < BlockSize && y < BlockSize
    ensures n < 16
  {
    var b := bytes[AlphaOffset(x, y)];
    if x % 2 == 1 then b / 16 else b % 16
  }

  /** `bytes` with the 4-bit alpha of texel `(x, y)` replaced by `v` and every other bit kept. */
  function WithNibble(bytes: seq<Byte>, x: nat, y: nat, v: nat): (res: seq<Byte>)
    requires |bytes| == AlphaBytes && x < BlockSize && y < BlockSize && v < 16
    ensures |res| == AlphaBytes
    ensures forall i :: 0 <= i < AlphaBytes && i != AlphaOffset(x, y) ==> res[i] == bytes[i]
  {
    var b := bytes[AlphaOffset(x, y)];
    bytes[AlphaOffset(x, y) := if x % 2 == 1 then b % 16 + v * 16 else b / 16 * 16 + v]
  }

  /**
   * Writing one texel's alpha changes that texel to `v` and leaves every other
   * texel, including the neighbour sharing its byte, as it was.
   */
  lemma NibbleAtWithNibble(bytes: seq<Byte>, x: nat, y: nat, v: nat, i: nat, j: nat)
    requires |bytes| == AlphaBytes && x < BlockSize && y < BlockSize && v < 16
    requires i < BlockSize && j < BlockSize
    ensures NibbleAt(WithNibble(bytes, x, y, v), i, j) == if i == x && j == y then v else NibbleAt(bytes, i, j)
  {
    var ofs := AlphaOffset(x, y);
    var b := bytes[ofs];
    var c := WithNibble(bytes, x, y, v)[ofs];
    if AlphaOffset(i, j) == ofs {
      assert j == y && i / 2 == x / 2;
      if x % 2 == 1 {
        NibbleFields(c, b % 16, v);
      } else {
        NibbleFields(c, v, b / 16);
      }
    }
  }

  /** The scaling step of a scaled `set_alpha`: an 8-bit alpha rounded to the nearest 4-bit level. */
  function Quantize4(value: nat): (q: nat)
    requires value <= 0xFF
    ensures q <= 15
  {
    (value * 15 + 128) / 255
  }

  /** The scaling step of a scaled `get_alpha`: nibble replication `(n << 4) | n`. */
  function Expand4(n: nat): (e: Byte)
    requires n < 16
    ensures e / 16 == n && e % 16 == n
  {
    n * 17
  }

  /** Expanding a level and quantizing it again gives the level back. */
  lemma Requantize4(n: nat)
    requires n < 16
    ensures Quantize4(Expand4(n)) == n
  {
    assert Expand4(n) * 15 + 128 == n * 255 + 128;
  }

  /** A scaled store followed by a scaled load is off by at most 8 out of 255. */
  lemma Quantize4Error(value: nat)
    requires value <= 0xFF
    ensures -8 <= Expand4(Quantize4(value)) - value <= 8
  {
    var q := Quantize4(value);
    assert q * 255 <= value * 15 + 128 < q * 255 + 255;
  }

  /** The nibble `set_alpha` stores for `value`. */
  function StoredAlpha(value: U32, scaled: bool): (n: nat)
    requires if scaled then value <= 0xFF else value <= 0xF
    ensures n < 16
    ensures !scaled ==> n == value
  {
    if scaled then Quantize4(value) else value
  }

  /** `dxt3_block`'s alpha bytes; the colour half of the block is not part of this model. */
  class Dxt3Block {
    /** `m_alpha` */
    const alpha: array<Byte>

    ghost predicate Valid() {
      alpha.Length == AlphaBytes
    }

    /** A block whose alpha bytes are `bytes`. */
    constructor (bytes: seq<Byte>)
      requires |bytes| == AlphaBytes
      ensures Valid() && alpha[..] == bytes
      ensures fresh(alpha)
    {
      alpha := new Byte[8](i requires 0 <= i < 8 => bytes[i]);
    }

    /** `dxt3_block::get_alpha`: the texel's 4-bit alpha, replicated to 8 bits when `scaled`. */
    function GetAlpha(x: U32, y: U32, scaled: bool): (v: U32)
      requires Valid() && x < BlockSize && y < BlockSize
      reads alpha
      ensures v == if scaled then Expand4(NibbleAt(alpha[..], x, y)) else NibbleAt(alpha[..], x, y)
    {
      var n := NibbleOf(alpha[y * 2 + x / 2], x % 2 == 1);
      if scaled then Replicate(n) else n
    }

    /**
     * `dxt3_block::set_alpha`: quantizes `value` when `scaled`, then rewrites
     * the texel's nibble in place, keeping the other nibble of its byte.
     */
    method SetAlpha(x: U32, y: U32, value: U32, scaled: bool)
      requires Valid() && x < BlockSize && y < BlockSize
      requires if scaled then value <= 0xFF else value <= 0xF
      modifies alpha
      ensures Valid()
      ensures alpha[..] == WithNibble(old(alpha[..]), x, y, StoredAlpha(value, scaled))
      ensures forall i: U32, j: U32 | i < BlockSize && j < BlockSize ::
        GetAlpha(i, j, false) == if i == x && j == y then StoredAlpha(value, scaled) else old(GetAlpha(i, j, false))
    {
      var v := if scaled then (value * 15 + 128) / 255 else value;
      assert v == StoredAlpha(value, scaled);
      var ofs := y * 2 + x / 2;
      ghost var before := alpha[..];
      alpha[ofs] := ReplaceNibble(alpha[ofs], v, x % 2 == 1);
      assert alpha[..] == WithNibble(before, x, y, v);
      forall i: U32, j: U32 | i < BlockSize && j < BlockSize
        ensures NibbleAt(alpha[..], i, j) == if i == x && j == y then v else NibbleAt(before, i, j)
      {
        NibbleAtWithNibble(before, x, y, v, i, j);
      }
    }
  }
}
