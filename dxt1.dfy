/**
 * `dxt1_block`: the RGB 5:6:5 endpoint codec and the DXT1 colour palettes.
 *
 * Shifts and masks on non-negative integers are written as division and
 * remainder by powers of two (`p >> 5 & 63` is `p / 32 % 64`), and an `|` of
 * fields that occupy disjoint bits as their sum (`b | g << 5` is `b + g * 32`).
 * `Rgb565PackBits` and `Rgb565UnpackBits` check this reading against the
 * bit-vector operators.
 */
module Dxt1 {
  import opened DxtTypes
  import opened DxtTables

  /** Alpha of an unpacked endpoint when the caller gives none (opaque). */
  const DefaultAlpha: U32 := 255

  // ---------------------------------------------------------------------------
  // Packed 5:6:5 endpoints

  /** `(p >> 11) & 31` */
  function RedField(p: U16): (f: nat)
    ensures f < 32
  {
    (p / 2048) % 32
  }

  /** `(p >> 5) & 63` */
  function GreenField(p: U16): (f: nat)
    ensures f < 64
  {
    (p / 32) % 64
  }

  /** `p & 31` */
  function BlueField(p: U16): (f: nat)
    ensures f < 32
  {
    p % 32
  }

  /** A packed endpoint is exactly its three fields. */
  lemma Compose565(p: U16)
    ensures p == BlueField(p) + GreenField(p) * 32 + RedField(p) * 2048
  {
  }

  /** Fields placed by `b | g << 5 | r << 11` are read back unchanged. */
  lemma Fields565(p: int, r: int, g: int, b: int)
    requires 0 <= r < 32 && 0 <= g < 64 && 0 <= b < 32
    requires p == b + g * 32 + r * 2048
    ensures 0 <= p < 0x1_0000
    ensures RedField(p) == r && GreenField(p) == g && BlueField(p) == b
  {
    assert p / 2048 == r;
    assert p / 32 == r * 64 + g;
    assert p % 32 == b;
  }

  /** The arithmetic reading of `pack_color`'s `b | (g << 5) | (r << 11)` agrees with the bit operators. */
  lemma Rgb565PackBits(r: bv16, g: bv16, b: bv16)
    requires r < 32 && g < 64 && b < 32
    ensures (b | (g << 5) | (r << 11)) as int == b as int + g as int * 32 + r as int * 2048
    ensures r as int < 32 && g as int < 64 && b as int < 32
  {
  }

  /** A 16-bit word is the `|` of its three masked fields. */
  lemma Rgb565SplitBits(p: bv16)
    ensures p == (p & 31) | (((p >> 5) & 63) << 5) | (((p >> 11) & 31) << 11)
    ensures (p >> 11) & 31 < 32 && (p >> 5) & 63 < 64 && p & 31 < 32
  {
  }

  /** The arithmetic reading of `unpack_color`'s shifts and masks agrees with the bit operators. */
  lemma Rgb565UnpackBits(p: bv16)
    ensures (p & 31) as int == BlueField(p as int)
    ensures ((p >> 5) & 63) as int == GreenField(p as int)
    ensures ((p >> 11) & 31) as int == RedField(p as int)
  {
    Rgb565SplitBits(p);
    Rgb565PackBits((p >> 11) & 31, (p >> 5) & 63, p & 31);
    Fields565(p as int, ((p >> 11) & 31) as int, ((p >> 5) & 63) as int, (p & 31) as int);
  }

  /** Bit replication of a 5-bit field, `(v << 3) | (v >> 2)`. */
  function Expand5(v: int): (e: Byte)
    requires 0 <= v < 32
    ensures e / 8 == v
    ensures v == 0 ==> e == 0
    ensures v == 31 ==> e == 255
  {
    v * 8 + v / 4
  }

  /** Bit replication of a 6-bit field, `(v << 2) | (v >> 4)`. */
  function Expand6(v: int): (e: Byte)
    requires 0 <= v < 64
    ensures e / 4 == v
    ensures v == 0 ==> e == 0
    ensures v == 63 ==> e == 255
  {
    v * 4 + v / 16
  }

  /**
   * The scaling step of `pack_color` for one channel: `(v * maxValue + bias) / 255`
   * in unsigned 32-bit arithmetic when `scaled`, else the channel as it is.
   */
  function Quantize(v: Byte, maxValue: nat, scaled: bool, bias: U32): (q: nat)
    ensures !scaled ==> q == v
    ensures scaled && maxValue <= 63 && bias < 255 ==> q <= maxValue
  {
    if scaled then
      assert maxValue <= 63 && bias < 255 ==> Wrap32(v * maxValue + bias) / 255 <= maxValue by {
        if maxValue <= 63 && bias < 255 {
          QuantizeNoOverflow(v, maxValue, bias);
        }
      }
      Wrap32(v * maxValue + bias) / 255
    else v
  }

  /** With a field maximum of at most 63 and a bias below 255, `v * maxValue + bias` does not wrap and stays below `255 * (maxValue + 1)`. */
  lemma QuantizeNoOverflow(v: Byte, maxValue: nat, bias: U32)
    requires maxValue <= 63 && bias < 255
    ensures Wrap32(v * maxValue + bias) / 255 <= maxValue
  {
    assert (255 - v) * maxValue >= 0;
    assert v * maxValue + bias < 255 * maxValue + 255;
    Wrap32Small(v * maxValue + bias);
  }

  /** `dxt1_block::pack_color(const color_quad_u8&, scaled, bias)`; alpha is ignored. */
  function PackColor(c: Rgba, scaled: bool, bias: U32): (p: U16)
    ensures RedField(p) == Min(Quantize(c.r, 31, scaled, bias), 31)
    ensures GreenField(p) == Min(Quantize(c.g, 63, scaled, bias), 63)
    ensures BlueField(p) == Min(Quantize(c.b, 31, scaled, bias), 31)
  {
    var r := Min(Quantize(c.r, 31, scaled, bias), 31);
    var g := Min(Quantize(c.g, 63, scaled, bias), 63);
    var b := Min(Quantize(c.b, 31, scaled, bias), 31);
    Fields565(b + g * 32 + r * 2048, r, g, b);
    b + g * 32 + r * 2048
  }

  /** `dxt1_block::pack_color(r, g, b, scaled, bias)`: packs the quad `(r, g, b, 0)`. */
  function PackColorRgb(r: Byte, g: Byte, b: Byte, scaled: bool, bias: U32): (p: U16)
    ensures forall a: Byte :: p == PackColor(Rgba(r, g, b, a), scaled, bias)
  {
    PackColor(Rgba(r, g, b, 0), scaled, bias)
  }

  /** `dxt1_block::unpack_color(packed_color, scaled, alpha)` */
  function UnpackColor(p: U16, scaled: bool, alpha: U32): (c: Rgba)
    ensures c.a == Min(alpha, 255)
    ensures !scaled ==> c.r == RedField(p) && c.g == GreenField(p) && c.b == BlueField(p)
    ensures scaled ==> c.r / 8 == RedField(p) && c.g / 4 == GreenField(p) && c.b / 8 == BlueField(p)
  {
    var r, g, b := RedField(p), GreenField(p), BlueField(p);
    if scaled then Rgba(Expand5(r), Expand6(g), Expand5(b), Min(alpha, 255))
    else Rgba(r, g, b, Min(alpha, 255))
  }

  /** `dxt1_block::unpack_color(r&, g&, b&, packed_color, scaled)`: the channels do not depend on alpha. */
  function UnpackColorRgb(p: U16, scaled: bool): (rgb: (Byte, Byte, Byte))
    ensures forall alpha: U32 ::
      rgb == (UnpackColor(p, scaled, alpha).r, UnpackColor(p, scaled, alpha).g, UnpackColor(p, scaled, alpha).b)
  {
    var c := UnpackColor(p, scaled, 0);
    (c.r, c.g, c.b)
  }

  /** Unscaled packing clamps each channel to its field width and nothing else; unpacking returns it. */
  lemma PackUnpackUnscaled(c: Rgba, bias: U32, alpha: U32)
    ensures UnpackColor(PackColor(c, false, bias), false, alpha)
         == Rgba(Min(c.r, 31), Min(c.g, 63), Min(c.b, 31), Min(alpha, 255))
  {
  }

  /** Every packed endpoint survives an unscaled unpack and repack, whatever the bias. */
  lemma UnpackPackUnscaled(p: U16, alpha: U32, bias: U32)
    ensures PackColor(UnpackColor(p, false, alpha), false, bias) == p
  {
    var q := PackColor(UnpackColor(p, false, alpha), false, bias);
    Compose565(p);
    Compose565(q);
  }

  /** Round-to-nearest quantization inverts 5-bit bit replication. */
  lemma Requantize5(v: int)
    requires 0 <= v < 32
    ensures Quantize(Expand5(v), 31, true, 128) == v
  {
    var f := v / 4;
    assert Expand5(v) * 31 + 128 == v * 248 + f * 31 + 128;
  }

  /** Round-to-nearest quantization inverts 6-bit bit replication. */
  lemma Requantize6(v: int)
    requires 0 <= v < 64
    ensures Quantize(Expand6(v), 63, true, 128) == v
  {
    var f := v / 16;
    assert Expand6(v) * 63 + 128 == v * 252 + f * 63 + 128;
  }

  /**
   * Scaled packing with the round-to-nearest bias 128 is the exact inverse of
   * scaled unpacking: every 16-bit endpoint is reproduced.
   */
  lemma UnpackPackScaled(p: U16, alpha: U32)
    ensures PackColor(UnpackColor(p, true, alpha), true, 128) == p
  {
    var q := PackColor(UnpackColor(p, true, alpha), true, 128);
    Requantize5(RedField(p));
    Requantize6(GreenField(p));
    Requantize5(BlueField(p));
    Compose565(p);
    Compose565(q);
  }

  /** A 5-bit channel quantized with bias 128 and expanded again is within 4 of where it started. */
  lemma QuantizationError5(v: Byte)
    ensures Quantize(v, 31, true, 128) < 32
    ensures -4 <= Expand5(Quantize(v, 31, true, 128)) - v <= 4
  {
    var q := Quantize(v, 31, true, 128);
    assert 255 * q <= v * 31 + 128 < 255 * q + 255;
  }

  /** A 6-bit channel quantized with bias 128 and expanded again is within 2 of where it started. */
  lemma QuantizationError6(v: Byte)
    ensures Quantize(v, 63, true, 128) < 64
    ensures -2 <= Expand6(Quantize(v, 63, true, 128)) - v <= 2
  {
    var q := Quantize(v, 63, true, 128);
    assert 255 * q <= v * 63 + 128 < 255 * q + 255;
  }

  /** Scaled round trip from 8-bit colours: each channel comes back within its quantization step. */
  lemma PackUnpackScaledError(c: Rgba, alpha: U32)
    ensures var u := UnpackColor(PackColor(c, true, 128), true, alpha);
      && -4 <= u.r - c.r <= 4
      && -2 <= u.g - c.g <= 2
      && -4 <= u.b - c.b <= 4
      && u.a == Min(alpha, 255)
  {
    QuantizationError5(c.r);
    QuantizationError6(c.g);
    QuantizationError5(c.b);
  }

  // ---------------------------------------------------------------------------
  // Palettes

  /** `m` is an interpolated palette entry: each colour channel between the endpoints', opaque. */
  predicate Interpolates(m: Rgba, e0: Rgba, e1: Rgba) {
    Between(m.r, e0.r, e1.r) && Between(m.g, e0.g, e1.g) && Between(m.b, e0.b, e1.b) && m.a == 255
  }

  /** Along the ramp from `e0` to `e1`, no channel turns back going from `x` to `y`. */
  predicate ChannelsToward(x: Rgba, y: Rgba, e0: Rgba, e1: Rgba) {
    Toward(x.r, y.r, e0.r, e1.r) && Toward(x.g, y.g, e0.g, e1.g) && Toward(x.b, y.b, e0.b, e1.b)
  }

  /** The 3-colour midpoint, `(x + y) >> 1`, or `(x + y + 1) >> 1` when rounding. */
  function Average(x: Byte, y: Byte, round: bool): (m: Byte)
    ensures Between(m, x, y)
  {
    (x + y + (if round then 1 else 0)) / 2
  }

  /** The 4-colour two-thirds point, `(near * 2 + far) / 3`, or `(near * 2 + far + 1) / 3` when rounding. */
  function Blend(near: Byte, far: Byte, round: bool): (m: Byte)
    ensures Between(m, near, far)
  {
    (near * 2 + far + (if round then 1 else 0)) / 3
  }

  /** The two-thirds point nearer `x` comes before the one nearer `y` on the way from `x` to `y`. */
  lemma BlendOrder(x: Byte, y: Byte, round: bool)
    ensures Toward(Blend(x, y, round), Blend(y, x, round), x, y)
  {
  }

  /** `get_block_colors3` (`round` false) and `get_block_colors3_round` (`round` true). */
  function Colors3(color0: U16, color1: U16, round: bool): (pal: seq<Rgba>)
    ensures |pal| == 4
    ensures pal[0] == UnpackColor(color0, true, DefaultAlpha) && pal[1] == UnpackColor(color1, true, DefaultAlpha)
    ensures pal[3] == TransparentBlack
    ensures Interpolates(pal[2], pal[0], pal[1])
  {
    var c0 := UnpackColor(color0, true, DefaultAlpha);
    var c1 := UnpackColor(color1, true, DefaultAlpha);
    [c0, c1,
     Rgba(Average(c0.r, c1.r, round), Average(c0.g, c1.g, round), Average(c0.b, c1.b, round), 255),
     TransparentBlack]
  }

  /** `get_block_colors4` (`round` false) and `get_block_colors4_round` (`round` true). */
  function Colors4(color0: U16, color1: U16, round: bool): (pal: seq<Rgba>)
    ensures |pal| == 4
    ensures pal[0] == UnpackColor(color0, true, DefaultAlpha) && pal[1] == UnpackColor(color1, true, DefaultAlpha)
    ensures Interpolates(pal[2], pal[0], pal[1]) && Interpolates(pal[3], pal[0], pal[1])
  {
    var c0 := UnpackColor(color0, true, DefaultAlpha);
    var c1 := UnpackColor(color1, true, DefaultAlpha);
    [c0, c1,
     Rgba(Blend(c0.r, c1.r, round), Blend(c0.g, c1.g, round), Blend(c0.b, c1.b, round), 255),
     Rgba(Blend(c1.r, c0.r, round), Blend(c1.g, c0.g, round), Blend(c1.b, c0.b, round), 255)]
  }

  /** The number of distinct colours `get_block_colors` reports. */
  function ColorCount(color0: U16, color1: U16): (n: U32)
    ensures n == 4 <==> color0 > color1
    ensures n == 3 <==> color0 <= color1
  {
    if color0 > color1 then 4 else 3
  }

  /**
   * The palette of `get_block_colors` / `get_block_colors_round`: four colours
   * when the packed endpoints compare `color0 > color1`, otherwise three and
   * the transparent cut-out entry.
   */
  function BlockColors(color0: U16, color1: U16, round: bool): (pal: seq<Rgba>)
    ensures |pal| == 4
    ensures pal[0] == UnpackColor(color0, true, DefaultAlpha)
    ensures pal[1] == UnpackColor(color1, true, DefaultAlpha)
    ensures forall i :: 2 <= i < ColorCount(color0, color1) ==> Interpolates(pal[i], pal[0], pal[1])
    ensures color0 <= color1 ==> pal[ColorCount(color0, color1)] == TransparentBlack
  {
    if color0 > color1 then Colors4(color0, color1, round) else Colors3(color0, color1, round)
  }

  /** Read in linear selector order, the 4-colour palette runs from endpoint 0 to endpoint 1 in every channel. */
  lemma Colors4LinearOrder(color0: U16, color1: U16, round: bool)
    ensures var pal := Colors4(color0, color1, round);
      forall j, k :: 0 <= j <= k < 4 ==> ChannelsToward(pal[Dxt1FromLinear[j]], pal[Dxt1FromLinear[k]], pal[0], pal[1])
  {
    var pal := Colors4(color0, color1, round);
    var lin := [pal[0], pal[2], pal[3], pal[1]];
    forall j | 0 <= j < 4 ensures pal[Dxt1FromLinear[j]] == lin[j] {}
    forall j | 0 <= j < 3 ensures ChannelsToward(lin[j], lin[j + 1], pal[0], pal[1]) {}
    forall j, k | 0 <= j <= k < 4 ensures ChannelsToward(lin[j], lin[k], pal[0], pal[1]) {
      if j < k {
        assert ChannelsToward(lin[j], lin[j + 1], pal[0], pal[1]);
        assert k == j + 1 || ChannelsToward(lin[j + 1], lin[j + 2], pal[0], pal[1]);
        assert k <= j + 2 || ChannelsToward(lin[j + 2], lin[j + 3], pal[0], pal[1]);
      }
    }
  }

  /** Adding the rounding bias raises a midpoint or a two-thirds point by at most one. */
  lemma RoundingStep(x: Byte, y: Byte)
    ensures 0 <= Average(x, y, true) - Average(x, y, false) <= 1
    ensures 0 <= Blend(x, y, true) - Blend(x, y, false) <= 1
  {
  }

  /** `r` is `t` with each colour channel raised by zero or one and the same alpha. */
  predicate RoundsUp(t: Rgba, r: Rgba) {
    && 0 <= r.r - t.r <= 1
    && 0 <= r.g - t.g <= 1
    && 0 <= r.b - t.b <= 1
    && r.a == t.a
  }

  /** Rounding raises each entry of the 3-colour palette by at most one per channel. */
  lemma Colors3RoundsUp(color0: U16, color1: U16)
    ensures var t, r := Colors3(color0, color1, false), Colors3(color0, color1, true);
      forall i :: 0 <= i < 4 ==> RoundsUp(t[i], r[i])
  {
    var e0, e1 := UnpackColor(color0, true, DefaultAlpha), UnpackColor(color1, true, DefaultAlpha);
    RoundingStep(e0.r, e1.r);
    RoundingStep(e0.g, e1.g);
    RoundingStep(e0.b, e1.b);
    var t, r := Colors3(color0, color1, false), Colors3(color0, color1, true);
    assert RoundsUp(t[2], r[2]);
  }

  /** Rounding raises each entry of the 4-colour palette by at most one per channel. */
  lemma Colors4RoundsUp(color0: U16, color1: U16)
    ensures var t, r := Colors4(color0, color1, false), Colors4(color0, color1, true);
      forall i :: 0 <= i < 4 ==> RoundsUp(t[i], r[i])
  {
    var e0, e1 := UnpackColor(color0, true, DefaultAlpha), UnpackColor(color1, true, DefaultAlpha);
    RoundingStep(e0.r, e1.r);
    RoundingStep(e0.g, e1.g);
    RoundingStep(e0.b, e1.b);
    RoundingStep(e1.r, e0.r);
    RoundingStep(e1.g, e0.g);
    RoundingStep(e1.b, e0.b);
    var t, r := Colors4(color0, color1, false), Colors4(color0, color1, true);
    assert RoundsUp(t[2], r[2]);
    assert RoundsUp(t[3], r[3]);
  }

  /** The rounding palette never falls below the truncating one and exceeds it by at most one per channel. */
  lemma RoundingAddsAtMostOne(color0: U16, color1: U16)
    ensures var t, r := BlockColors(color0, color1, false), BlockColors(color0, color1, true);
      forall i :: 0 <= i < 4 ==> RoundsUp(t[i], r[i])
  {
    if color0 > color1 {
      Colors4RoundsUp(color0, color1);
    } else {
      Colors3RoundsUp(color0, color1);
    }
  }

  // The example lemmas below take their endpoints and channels as parameters
  // pinned by `requires`. Stated on literal arguments, Dafny unfolds every call
  // on them, and even `ColorCount(0xFFFF, 0x0000) == 4` exceeds the resource
  // limit; folding `TwoThirdsWhite` into `WhiteOverBlackPalette` costs it 40 times more.

  /** White over black is a 4-colour block whose selector 2 is the two-thirds-white blend, truncated to 170. */
  lemma WhiteOverBlackPalette(white: U16, black: U16)
    requires white == 0xFFFF && black == 0x0000
    ensures ColorCount(white, black) == 4
    ensures BlockColors(white, black, false)[2] == Rgba(170, 170, 170, 255)
  {
    Colors4Entry2(white, black);
    UnpackWhite(white);
    UnpackBlack(black);
    TwoThirdsWhite(255, 0);
  }

  /** Two thirds of the way from 0 to 255, truncated, is 170. */
  lemma TwoThirdsWhite(x: Byte, y: Byte)
    requires x == 255 && y == 0
    ensures Blend(x, y, false) == 170
  {
  }

  /** Entry 2 of a 4-colour palette is the two-thirds blend of the unpacked endpoints. */
  lemma Colors4Entry2(color0: U16, color1: U16)
    requires color0 > color1
    ensures var c0, c1 := UnpackColor(color0, true, DefaultAlpha), UnpackColor(color1, true, DefaultAlpha);
      BlockColors(color0, color1, false)[2] == Rgba(Blend(c0.r, c1.r, false), Blend(c0.g, c1.g, false), Blend(c0.b, c1.b, false), 255)
  {
  }

  /** The all-ones endpoint unpacks to opaque white. */
  lemma UnpackWhite(p: U16)
    requires p == 0xFFFF
    ensures UnpackColor(p, true, DefaultAlpha) == Rgba(255, 255, 255, 255)
  {
    assert RedField(p) == 31 && GreenField(p) == 63 && BlueField(p) == 31;
  }

  /** The all-zeros endpoint unpacks to opaque black. */
  lemma UnpackBlack(p: U16)
    requires p == 0x0000
    ensures UnpackColor(p, true, DefaultAlpha) == Rgba(0, 0, 0, 255)
  {
    assert RedField(p) == 0 && GreenField(p) == 0 && BlueField(p) == 0;
  }

  /** `dxt1_block::get_block_colors3`: writes the 3-colour palette into `dst[0..4]`. */
  method GetBlockColors3(dst: array<Rgba>, color0: U16, color1: U16) returns (n: U32)
    requires dst.Length >= 4
    modifies dst
    ensures dst[..4] == Colors3(color0, color1, false)
    ensures dst[4..] == old(dst[4..])
    ensures n == 3
  {
    var c0 := UnpackColor(color0, true, DefaultAlpha);
    var c1 := UnpackColor(color1, true, DefaultAlpha);
    dst[0] := c0;
    dst[1] := c1;
    dst[2] := Rgba((c0.r + c1.r) / 2, (c0.g + c1.g) / 2, (c0.b + c1.b) / 2, 255);
    dst[3] := Rgba(0, 0, 0, 0);
    ghost var pal := Colors3(color0, color1, false);
    assert dst[2] == pal[2] && dst[3] == pal[3];
    assert dst[..4] == [pal[0], pal[1], pal[2], pal[3]];
    n := 3;
  }

  /** `dxt1_block::get_block_colors4`: writes the 4-colour palette into `dst[0..4]`. */
  method GetBlockColors4(dst: array<Rgba>, color0: U16, color1: U16) returns (n: U32)
    requires dst.Length >= 4
    modifies dst
    ensures dst[..4] == Colors4(color0, color1, false)
    ensures dst[4..] == old(dst[4..])
    ensures n == 4
  {
    var c0 := UnpackColor(color0, true, DefaultAlpha);
    var c1 := UnpackColor(color1, true, DefaultAlpha);
    dst[0] := c0;
    dst[1] := c1;
    dst[2] := Rgba((c0.r * 2 + c1.r) / 3, (c0.g * 2 + c1.g) / 3, (c0.b * 2 + c1.b) / 3, 255);
    dst[3] := Rgba((c1.r * 2 + c0.r) / 3, (c1.g * 2 + c0.g) / 3, (c1.b * 2 + c0.b) / 3, 255);
    ghost var pal := Colors4(color0, color1, false);
    assert dst[2] == pal[2] && dst[3] == pal[3];
    assert dst[..4] == [pal[0], pal[1], pal[2], pal[3]];
    n := 4;
  }

  /** `dxt1_block::get_block_colors3_round`: the 3-colour palette with a rounded midpoint. */
  method GetBlockColors3Round(dst: array<Rgba>, color0: U16, color1: U16) returns (n: U32)
    requires dst.Length >= 4
    modifies dst
    ensures dst[..4] == Colors3(color0, color1, true)
    ensures dst[4..] == old(dst[4..])
    ensures n == 3
  {
    var c0 := UnpackColor(color0, true, DefaultAlpha);
    var c1 := UnpackColor(color1, true, DefaultAlpha);
    dst[0] := c0;
    dst[1] := c1;
    dst[2] := Rgba((c0.r + c1.r + 1) / 2, (c0.g + c1.g + 1) / 2, (c0.b + c1.b + 1) / 2, 255);
    dst[3] := Rgba(0, 0, 0, 0);
    ghost var pal := Colors3(color0, color1, true);
    assert dst[2] == pal[2] && dst[3] == pal[3];
    assert dst[..4] == [pal[0], pal[1], pal[2], pal[3]];
    n := 3;
  }

  /** `dxt1_block::get_block_colors4_round`: the 4-colour palette with rounded two-thirds points. */
  method GetBlockColors4Round(dst: array<Rgba>, color0: U16, color1: U16) returns (n: U32)
    requires dst.Length >= 4
    modifies dst
    ensures dst[..4] == Colors4(color0, color1, true)
    ensures dst[4..] == old(dst[4..])
    ensures n == 4
  {
    var c0 := UnpackColor(color0, true, DefaultAlpha);
    var c1 := UnpackColor(color1, true, DefaultAlpha);
    dst[0] := c0;
    dst[1] := c1;
    dst[2] := Rgba((c0.r * 2 + c1.r + 1) / 3, (c0.g * 2 + c1.g + 1) / 3, (c0.b * 2 + c1.b + 1) / 3, 255);
    dst[3] := Rgba((c1.r * 2 + c0.r + 1) / 3, (c1.g * 2 + c0.g + 1) / 3, (c1.b * 2 + c0.b + 1) / 3, 255);
    ghost var pal := Colors4(color0, color1, true);
    assert dst[2] == pal[2] && dst[3] == pal[3];
    assert dst[..4] == [pal[0], pal[1], pal[2], pal[3]];
    n := 4;
  }

  /** `dxt1_block::get_block_colors`: four colours when `color0 > color1`, else three. */
  method GetBlockColors(dst: array<Rgba>, color0: U16, color1: U16) returns (n: U32)
    requires dst.Length >= 4
    modifies dst
    ensures dst[..4] == BlockColors(color0, color1, false)
    ensures dst[4..] == old(dst[4..])
    ensures n == ColorCount(color0, color1)
  {
    if color0 > color1 {
      n := GetBlockColors4(dst, color0, color1);
    } else {
      n := GetBlockColors3(dst, color0, color1);
    }
  }

  /** `dxt1_block::get_block_colors_round`: the rounding variant of `GetBlockColors`. */
  method GetBlockColorsRound(dst: array<Rgba>, color0: U16, color1: U16) returns (n: U32)
    requires dst.Length >= 4
    modifies dst
    ensures dst[..4] == BlockColors(color0, color1, true)
    ensures dst[4..] == old(dst[4..])
    ensures n == ColorCount(color0, color1)
  {
    if color0 > color1 {
      n := GetBlockColors4Round(dst, color0, color1);
    } else {
      n := GetBlockColors3Round(dst, color0, color1);
    }
  }

  // ---------------------------------------------------------------------------
  // The NV5x palette: a particular GPU family's own interpolation weights

  /** Euclidean division of a non-negative numerator rounds down. */
  lemma DivBounds(n: int, d: int)
    requires 0 <= n && 0 < d
    ensures 0 <= (n / d) * d <= n < (n / d) * d + d
  {
    assert n == d * (n / d) + n % d;
  }

  /** C's `/` on a signed `int`: the quotient is truncated toward zero. */
  function CDiv(n: int, d: int): (q: int)
    requires d > 0
    ensures 0 <= n ==> 0 <= q * d <= n < q * d + d
    ensures n < 0 ==> q * d - d < n <= q * d <= 0
  {
    if n >= 0 then DivBounds(n, d); n / d
    else DivBounds(-n, d); -((-n) / d)
  }

  /** NV5x endpoint red/blue, `(3 * v * 22) / 8`: the same as bit replication. */
  function NvEndpoint5(v: int): (c: int)
    requires 0 <= v < 32
    ensures c == Expand5(v)
  {
    (3 * v * 22) / 8
  }

  /** NV5x 4-colour red/blue, `((2 * near + far) * 22) / 8`, before the cast to 8 bits. */
  function NvBlend5(near: int, far: int): (c: int)
    requires 0 <= near < 32 && 0 <= far < 32
    ensures 0 <= c < 0x100
    ensures Between(c, NvEndpoint5(near), NvEndpoint5(far))
  {
    ((2 * near + far) * 22) / 8
  }

  /** NV5x 3-colour red/blue midpoint, `((x + y) * 33) / 8`, before the cast to 8 bits. */
  function NvMid5(x: int, y: int): (c: int)
    requires 0 <= x < 32 && 0 <= y < 32
    ensures 0 <= c < 0x100
    ensures Between(c, NvEndpoint5(x), NvEndpoint5(y))
  {
    ((x + y) * 33) / 8
  }

  /** NV5x entry-2 green of the 4-colour palette, before the cast; `g0`, `g1` are the expanded endpoint greens. */
  function NvGreen2(g0: Byte, g1: Byte): (g: int)
    ensures 0 <= g < 0x100
    ensures Between(g, g0, g1)
  {
    var gdiff := g1 - g0;
    CDiv(256 * g0 + CDiv(gdiff, 4) + 128 + gdiff * 80, 256)
  }

  /** NV5x entry-3 green of the 4-colour palette, before the cast. */
  function NvGreen3(g0: Byte, g1: Byte): (g: int)
    ensures 0 <= g < 0x100
    ensures Between(g, g0, g1)
  {
    var gdiff := g1 - g0;
    CDiv(256 * g1 - CDiv(gdiff, 4) + 128 - gdiff * 80, 256)
  }

  /** NV5x midpoint green of the 3-colour palette, before the cast. */
  function NvGreenMid(g0: Byte, g1: Byte): (g: int)
    ensures 0 <= g < 0x100
    ensures Between(g, g0, g1)
  {
    var gdiff := g1 - g0;
    CDiv(256 * g0 + CDiv(gdiff, 4) + 128 + gdiff * 128, 256)
  }

  /** Entries 0 and 1 of the NV5x palette: the same colour as the standard opaque scaled unpack. */
  function NvEndpoint(c: U16): (e: Rgba)
    ensures e == UnpackColor(c, true, 255)
  {
    var g := GreenField(c);
    Rgba(U8Cast(NvEndpoint5(RedField(c))), U8Cast(g * 4 + g / 16), U8Cast(NvEndpoint5(BlueField(c))), 0xFF)
  }

  /** Entry 2 of the NV5x palette: the two-thirds point, or the midpoint without `color4`. */
  function NvEntry2(color0: U16, color1: U16, color4: bool): (e: Rgba)
    ensures Interpolates(e, UnpackColor(color0, true, 255), UnpackColor(color1, true, 255))
  {
    var r0, b0, r1, b1 := RedField(color0), BlueField(color0), RedField(color1), BlueField(color1);
    var g0, g1 := NvEndpoint(color0).g, NvEndpoint(color1).g;
    if color4 then Rgba(U8Cast(NvBlend5(r0, r1)), U8Cast(NvGreen2(g0, g1)), U8Cast(NvBlend5(b0, b1)), 0xFF)
    else Rgba(U8Cast(NvMid5(r0, r1)), U8Cast(NvGreenMid(g0, g1)), U8Cast(NvMid5(b0, b1)), 0xFF)
  }

  /** Entry 3 of the NV5x palette: the one-third point, or transparent black without `color4`. */
  function NvEntry3(color0: U16, color1: U16, color4: bool): (e: Rgba)
    ensures color4 ==> Interpolates(e, UnpackColor(color0, true, 255), UnpackColor(color1, true, 255))
    ensures !color4 ==> e == TransparentBlack
  {
    var r0, b0, r1, b1 := RedField(color0), BlueField(color0), RedField(color1), BlueField(color1);
    var g0, g1 := NvEndpoint(color0).g, NvEndpoint(color1).g;
    if color4 then Rgba(U8Cast(NvBlend5(r1, r0)), U8Cast(NvGreen3(g0, g1)), U8Cast(NvBlend5(b1, b0)), 0xFF)
    else Rgba(0x00, 0x00, 0x00, 0x00)
  }

  /** The palette of `get_block_colors_NV5x`. */
  function ColorsNV5x(color0: U16, color1: U16, color4: bool): (pal: seq<Rgba>)
    ensures |pal| == 4
    ensures pal[0] == UnpackColor(color0, true, 255) && pal[1] == UnpackColor(color1, true, 255)
  {
    [NvEndpoint(color0), NvEndpoint(color1), NvEntry2(color0, color1, color4), NvEntry3(color0, color1, color4)]
  }

  /**
   * The NV5x palette's endpoints agree with the standard opaque scaled unpack,
   * its interpolants stay between them, and without `color4` the last entry is
   * transparent black.
   */
  lemma ColorsNV5xProperties(color0: U16, color1: U16, color4: bool)
    ensures var pal := ColorsNV5x(color0, color1, color4);
      && pal[0] == UnpackColor(color0, true, 255) && pal[1] == UnpackColor(color1, true, 255)
      && Interpolates(pal[2], pal[0], pal[1])
      && (color4 ==> Interpolates(pal[3], pal[0], pal[1]))
      && (!color4 ==> pal[3] == TransparentBlack)
  {
  }

  /** NV5x red/blue two-thirds point: the standard truncating blend of the expanded endpoints, or 1 more. */
  lemma NvBlend5NearBlend(near: int, far: int)
    requires 0 <= near < 32 && 0 <= far < 32
    ensures 0 <= NvBlend5(near, far) - Blend(Expand5(near), Expand5(far), false) <= 1
  {
    // Split each field into its top three bits and its low two bits.
    var e := 2 * (near / 4) + far / 4;
    var s := 2 * (near % 4) + far % 4;
    assert 2 * near + far == 4 * e + s && 0 <= s <= 9;
    assert NvBlend5(near, far) == 11 * e + (11 * s) / 4;
    assert Blend(Expand5(near), Expand5(far), false) == 11 * e + (8 * s) / 3;
  }

  /** NV5x red/blue midpoint: the standard truncating midpoint of the expanded endpoints, or 1 more. */
  lemma NvMid5NearAverage(x: int, y: int)
    requires 0 <= x < 32 && 0 <= y < 32
    ensures 0 <= NvMid5(x, y) - Average(Expand5(x), Expand5(y), false) <= 1
  {
    var e := x / 4 + y / 4;
    var s := x % 4 + y % 4;
    assert x + y == 4 * e + s && 0 <= s <= 6;
    assert NvMid5(x, y) == (132 * e + 33 * s) / 8;
    assert Average(Expand5(x), Expand5(y), false) == (132 * e + 32 * s) / 8;
  }

  /** NV5x entry-2 green: weighting the difference by 80.25/256 instead of 1/3 moves it -5..+6 from the standard blend. */
  lemma NvGreen2NearBlend(g0: Byte, g1: Byte)
    ensures -5 <= NvGreen2(g0, g1) - Blend(g0, g1, false) <= 6
  {
  }

  /** NV5x entry-3 green: -5..+6 from the standard blend nearer endpoint 1. */
  lemma NvGreen3NearBlend(g0: Byte, g1: Byte)
    ensures -5 <= NvGreen3(g0, g1) - Blend(g1, g0, false) <= 6
  {
  }

  /** NV5x 3-colour green: the standard truncating midpoint, or 1 more. */
  lemma NvGreenMidNearAverage(g0: Byte, g1: Byte)
    ensures 0 <= NvGreenMid(g0, g1) - Average(g0, g1, false) <= 1
  {
  }

  /** Entry `nv` departs from `std` by 0 or 1 in red and blue, by `gLo..gHi` in green, and not in alpha. */
  predicate NearEntry(nv: Rgba, std: Rgba, gLo: int, gHi: int) {
    0 <= nv.r - std.r <= 1 && gLo <= nv.g - std.g <= gHi && 0 <= nv.b - std.b <= 1 && nv.a == std.a
  }

  /**
   * Against the standard truncating palette of the same mode, the NV5x palette
   * has the same endpoints and alphas; its interpolants are 0 or 1 higher in red
   * and blue, and in green 0 or 1 higher for 3 colours and -5..+6 off for 4.
   */
  lemma ColorsNV5xNearStandard(color0: U16, color1: U16, color4: bool)
    ensures var nv := ColorsNV5x(color0, color1, color4);
      var std := if color4 then Colors4(color0, color1, false) else Colors3(color0, color1, false);
      nv[0] == std[0] && nv[1] == std[1] &&
      (color4 ==> NearEntry(nv[2], std[2], -5, 6) && NearEntry(nv[3], std[3], -5, 6)) &&
      (!color4 ==> NearEntry(nv[2], std[2], 0, 1) && nv[3] == std[3])
  {
    var r0, g0, b0 := RedField(color0), GreenField(color0), BlueField(color0);
    var r1, g1, b1 := RedField(color1), GreenField(color1), BlueField(color1);
    var c0, c1 := UnpackColor(color0, true, 255), UnpackColor(color1, true, 255);
    if color4 {
      NvBlend5NearBlend(r0, r1);
      NvBlend5NearBlend(b0, b1);
      NvBlend5NearBlend(r1, r0);
      NvBlend5NearBlend(b1, b0);
      NvGreen2NearBlend(c0.g, c1.g);
      NvGreen3NearBlend(c0.g, c1.g);
    } else {
      NvMid5NearAverage(r0, r1);
      NvMid5NearAverage(b0, b1);
      NvGreenMidNearAverage(c0.g, c1.g);
    }
  }

  /**
   * `get_block_colors_NV5x`: stores the endpoints, then the two derived
   * entries, whose greens are computed from the endpoint greens just stored.
   */
  method GetBlockColorsNV5x(dst: array<Rgba>, packedCol0: U16, packedCol1: U16, color4: bool)
    requires dst.Length >= 4
    modifies dst
    ensures dst[..4] == ColorsNV5x(packedCol0, packedCol1, color4)
    ensures dst[4..] == old(dst[4..])
  {
    dst[0] := NvEndpoint(packedCol0);
    dst[1] := NvEndpoint(packedCol1);
    dst[2] := NvEntry2(packedCol0, packedCol1, color4);
    dst[3] := NvEntry3(packedCol0, packedCol1, color4);
  }

  // ---------------------------------------------------------------------------
  // Endpoint pairs in one 32-bit word

  /** `dxt1_block::pack_endpoints`, `lo | (hi << 16)`: `lo` is the low half, `hi` the high half. */
  function PackEndpoints(lo: U32, hi: U32): (w: U32)
    requires lo <= 0xFFFF && hi <= 0xFFFF
    ensures w % 0x1_0000 == lo && w / 0x1_0000 == hi
  {
    lo + hi * 0x1_0000
  }

  /** `dxt1_block::unpack_endpoint`: unpacks the low (index 0) or high (index 1) half. */
  function UnpackEndpoint(endpoints: U32, index: U32, scaled: bool, alpha: U32): (c: Rgba)
    requires index < 2
    ensures index == 0 ==> c == UnpackColor(endpoints % 0x1_0000, scaled, alpha)
    ensures index == 1 ==> c == UnpackColor(endpoints / 0x1_0000, scaled, alpha)
  {
    UnpackColor((endpoints / (if index == 0 then 1 else 0x1_0000)) % 0x1_0000, scaled, alpha)
  }

  /** Unpacking a packed endpoint pair gives back each endpoint's colour. */
  lemma EndpointsRoundTrip(lo: U32, hi: U32, index: U32, scaled: bool, alpha: U32)
    requires lo <= 0xFFFF && hi <= 0xFFFF && index < 2
    ensures UnpackEndpoint(PackEndpoints(lo, hi), index, scaled, alpha)
         == UnpackColor(if index == 0 then lo else hi, scaled, alpha)
  {
  }
}
