# S3TC block codec primitives, modelled in Dafny

This project models the block-codec core of vogl's `src/voglcore/vogl_dxt.cpp`. That core holds the
primitives behind the S3TC texture formats of the OpenGL `EXT_texture_compression_s3tc` extension
(DXT1, DXT1A, DXT3 and DXT5):

- the selector remap and invert tables;
- the `dxt_format` metadata lookups;
- the 16-bit RGB 5:6:5 endpoint codec (`dxt1_block::pack_color`, `unpack_color`);
- the DXT1 colour palettes: 3 and 4 colours, truncating and rounding, plus the NV5x GPU variant;
- the explicit 4-bit alphas of a DXT3 block (`dxt3_block::set_alpha`, `get_alpha`);
- the DXT5 alpha ramps: 6 and 8 values, in both the `color_quad_u8` and the `uint32_t` form;
- the endpoint pair packers of both block kinds.

Files:

| file | module | contents |
|---|---|---|
| `dxt_types.dfy` | `DxtTypes` | `uint8_t`/`uint16_t`/`uint32_t` ranges, `color_quad_u8`, 32-bit wrap, `uint8_t` cast |
| `dxt_tables.dfy` | `DxtTables` | the remap and invert tables |
| `dxt_format.dfy` | `DxtFormat` | format name, bits per pixel, has-alpha |
| `dxt1.dfy` | `Dxt1` | 5:6:5 pack/unpack, DXT1 and NV5x palettes, 32-bit endpoint pairs |
| `dxt3.dfy` | `Dxt3` | the DXT3 alpha nibbles as a class over the `m_alpha` byte array |
| `dxt5.dfy` | `Dxt5` | DXT5 alpha ramps and 16-bit endpoint pairs |

How the model is written:

- Expression-only routines are functions. Properties about them are lemmas.
- Each routine that writes through a caller's `pDst` pointer is a method on an `array`. Its postcondition says that the written prefix equals the palette or ramp function, and that nothing past it changes. The `color_quad_u8` DXT5 methods change only the alpha of each entry.
- `dxt3_block::set_alpha` is a method of the class `Dxt3Block`. It rewrites one byte of the `alpha` array (`m_alpha`) in place.
- Shifts and masks on integers are written as division and remainder by powers of two. The bit-vector operators are kept where the source's masking is the point: the 5:6:5 fields in `Rgb565UnpackBits` and the DXT3 nibble read-modify-write. Lemmas tie each bit-vector form to the arithmetic one.
- `uint32_t` overflow is written out with `Wrap32` where it can occur: `pack_color`'s `v * 31 + bias`, and the DXT5 `uint32_t` ramps. A narrowing store into a `uint8_t` is `U8Cast`.
- C's signed `int` division, which truncates toward zero, is `CDiv`. It is used in the NV5x green channel, where the difference of the two greens can be negative.

The plain `get_block_colors` and `get_block_values` palettes and ramps follow the interpolation of `EXT_texture_compression_s3tc`. Three variants do not:

- `get_block_colors3_round` and `get_block_colors4_round` add a rounding bias before dividing. The source's own comment at src/voglcore/vogl_dxt.cpp:273 notes that this conflicts with the OpenGL S3TC extension.
- `get_block_colors_NV5x` uses the fixed-point weights of one GPU family, not the extension's thirds and halves.

The model follows the code in all three variants. These lemmas bound how far each variant departs from the standard palette:

- `RoundingAddsAtMostOne`: the rounding palettes exceed the plain ones by 0 or 1 per channel.
- `NvEndpoint`: the NV5x endpoints equal the standard unpacks.
- `ColorsNV5xNearStandard`: each NV5x interpolated entry has red and blue 0 or 1 above the standard entry. Its green is between 5 below and 6 above in 4-colour mode, and 0 or 1 above in 3-colour mode. Its alpha is equal. The bounds come from `NvBlend5NearBlend`, `NvMid5NearAverage`, `NvGreen2NearBlend`, `NvGreen3NearBlend` and `NvGreenMidNearAverage`.

## Model

| member | source | states |
|---|---|---|
| DxtTables.Dxt1TablesInverse | src/voglcore/vogl_dxt.cpp:42-43 | `g_dxt1_from_linear` and `g_dxt1_to_linear` are mutually inverse permutations of 0..3 |
| DxtTables.Dxt5TablesInverse | src/voglcore/vogl_dxt.cpp:37-38 | `g_dxt5_from_linear` and `g_dxt5_to_linear` are mutually inverse permutations of 0..7 |
| DxtTables.Dxt5Alpha6ToLinearPermutes | src/voglcore/vogl_dxt.cpp:40 | on the six interpolating selectors, `g_dxt5_alpha6_to_linear` is injective into 0..5 |
| DxtTables.InvertTablesInvolutive | src/voglcore/vogl_dxt.cpp:45-46 | both invert tables map 0..7 into 0..7, and applying either one twice is the identity |
| DxtTypes.Wrap32 | src/voglcore/vogl_dxt.cpp:140-142 | a `uint32_t` result differs from the exact value by a multiple of 2^32, and equals it when it fits |
| DxtTypes.U8Cast | src/voglcore/vogl_dxt.cpp:200-214 | a `static_cast<uint8_t>` keeps any value that fits in a byte |
| DxtFormat.BlockBytes | src/voglcore/vogl_dxt.cpp:96-115 | a block is 8 bytes, or 16 exactly for DXT3/DXT5/DXN_XY/DXN_YX; derived from the block layouts independently of the bits-per-pixel table |
| DxtFormat.FormatString | src/voglcore/vogl_dxt.cpp:48-73 | every known tag has a non-empty name other than the fallback `"?"`; an unknown tag is a precondition violation |
| DxtFormat.FormatStringInjective | src/voglcore/vogl_dxt.cpp:48-73 | distinct known tags have distinct names |
| DxtFormat.BitsPerPixel | src/voglcore/vogl_dxt.cpp:96-115 | 4 exactly for DXT1/DXT1A/DXT5A/ETC1 and 8 exactly for DXT3/DXT5/DXN_XY/DXN_YX, which agrees with each format's 16-texel block size; an unknown tag is a precondition violation |
| DxtFormat.HasAlpha | src/voglcore/vogl_dxt.cpp:117-130 | true exactly for DXT1A/DXT3/DXT5/DXT5A, and false for any other tag including an unknown one |
| Dxt1.RedField | src/voglcore/vogl_dxt.cpp:161 | `(p >> 11) & 31` is a 5-bit field |
| Dxt1.GreenField | src/voglcore/vogl_dxt.cpp:160 | `(p >> 5) & 63` is a 6-bit field |
| Dxt1.BlueField | src/voglcore/vogl_dxt.cpp:159 | `p & 31` is a 5-bit field |
| Dxt1.Compose565 | src/voglcore/vogl_dxt.cpp:159-161 | a packed endpoint is exactly the sum of its three placed fields, so no bit is lost by unpacking |
| Dxt1.Fields565 | src/voglcore/vogl_dxt.cpp:149 | fields placed by `b \| g<<5 \| r<<11` fit in 16 bits and are read back unchanged |
| Dxt1.QuantizeNoOverflow | src/voglcore/vogl_dxt.cpp:138-143 | with a field maximum of at most 63 and a bias below 255, `v * maxValue + bias` does not wrap in 32 bits, and the quotient by 255 is at most the field maximum |
| Dxt1.Quantize | src/voglcore/vogl_dxt.cpp:138-143 | unscaled, a channel passes unchanged; scaled with a bias below 255, the quantized channel never exceeds the field maximum, so the clamp after it only matters for larger biases |
| Dxt1.PackColor | src/voglcore/vogl_dxt.cpp:132-150 | each packed field is its channel clamped to the field width; when scaled, the channel is first quantized as `(v*max + bias)/255` in 32-bit unsigned arithmetic |
| Dxt1.PackColorRgb | src/voglcore/vogl_dxt.cpp:152-155 | packing `(r,g,b)` is packing the quad `(r,g,b,a)`, whatever `a` is |
| Dxt1.UnpackColor | src/voglcore/vogl_dxt.cpp:157-171 | alpha is `min(alpha,255)`; unscaled channels are the fields; scaled channels are bit-replicated, so their top bits are the fields |
| Dxt1.UnpackColorRgb | src/voglcore/vogl_dxt.cpp:173-179 | the channel-only overload returns the channels of the full unpack for every alpha |
| Dxt1.Rgb565UnpackBits | src/voglcore/vogl_dxt.cpp:159-161 | the shifts and masks on a 16-bit word agree with the arithmetic field readers |
| Dxt1.Rgb565PackBits | src/voglcore/vogl_dxt.cpp:149 | `b \| g<<5 \| r<<11` of in-range fields is `b + 32g + 2048r` |
| Dxt1.Expand5 | src/voglcore/vogl_dxt.cpp:163-167 | bit replication of a 5-bit field keeps the field in the top 5 bits and maps 0 to 0 and 31 to 255 |
| Dxt1.Expand6 | src/voglcore/vogl_dxt.cpp:163-167 | bit replication of a 6-bit field keeps the field in the top 6 bits and maps 0 to 0 and 63 to 255 |
| Dxt1.PackUnpackUnscaled | src/voglcore/vogl_dxt.cpp:132-171 | an unscaled pack then unpack clamps each channel to its field width and changes nothing else |
| Dxt1.UnpackPackUnscaled | src/voglcore/vogl_dxt.cpp:132-171 | every 16-bit endpoint survives an unscaled unpack and repack, for any bias |
| Dxt1.UnpackPackScaled | src/voglcore/vogl_dxt.cpp:132-171 | with bias 128, scaled packing is the exact inverse of scaled unpacking for every 16-bit endpoint |
| Dxt1.Requantize5 | src/voglcore/vogl_dxt.cpp:132-171 | quantizing an expanded 5-bit value with bias 128 returns the value |
| Dxt1.Requantize6 | src/voglcore/vogl_dxt.cpp:132-171 | quantizing an expanded 6-bit value with bias 128 returns the value |
| Dxt1.QuantizationError5 | src/voglcore/vogl_dxt.cpp:132-171 | an 8-bit channel quantized to 5 bits with bias 128 and expanded again is off by at most 4 |
| Dxt1.QuantizationError6 | src/voglcore/vogl_dxt.cpp:132-171 | an 8-bit channel quantized to 6 bits with bias 128 and expanded again is off by at most 2 |
| Dxt1.PackUnpackScaledError | src/voglcore/vogl_dxt.cpp:132-171 | a scaled round trip of any colour with bias 128 keeps red and blue within 4 and green within 2 |
| Dxt1.Average | src/voglcore/vogl_dxt.cpp:224-263 | the 3-colour midpoint, truncated or rounded, lies between the endpoint channels |
| Dxt1.Blend | src/voglcore/vogl_dxt.cpp:237-279 | each two-thirds point, truncated or rounded, lies between the endpoint channels |
| Dxt1.BlendOrder | src/voglcore/vogl_dxt.cpp:246-247 | the point nearer endpoint 0 precedes the point nearer endpoint 1 on the way from 0 to 1 |
| Dxt1.Colors3 | src/voglcore/vogl_dxt.cpp:224-235 | for either endpoint order: entries 0 and 1 are the opaque scaled unpacks of the endpoints, entry 2 interpolates them with alpha 255, and entry 3 is (0,0,0,0) |
| Dxt1.Colors4 | src/voglcore/vogl_dxt.cpp:237-250 | for either endpoint order: entries 0 and 1 are the opaque scaled unpacks of the endpoints, and entries 2 and 3 interpolate them with alpha 255 |
| Dxt1.ColorCount | src/voglcore/vogl_dxt.cpp:281-287 | 4 iff `color0 > color1` as unsigned 16-bit words, 3 otherwise, so equal endpoints select 3 colours |
| Dxt1.BlockColors | src/voglcore/vogl_dxt.cpp:281-295 | entries 0 and 1 are the opaque scaled unpacks of the endpoints; every entry below the count interpolates them; in 3-colour mode entry 3 is transparent black |
| Dxt1.Colors4LinearOrder | src/voglcore/vogl_dxt.cpp:237-250 | read through `g_dxt1_from_linear`, the 4-colour palette moves monotonically from endpoint 0 to endpoint 1 in every channel |
| Dxt1.RoundingStep | src/voglcore/vogl_dxt.cpp:224-279 | adding the rounding bias raises a midpoint or a two-thirds point by 0 or 1 |
| Dxt1.Colors3RoundsUp | src/voglcore/vogl_dxt.cpp:224-263 | the rounding 3-colour palette is the truncating one with each channel raised by 0 or 1 |
| Dxt1.Colors4RoundsUp | src/voglcore/vogl_dxt.cpp:237-279 | the rounding 4-colour palette is the truncating one with each channel raised by 0 or 1 |
| Dxt1.RoundingAddsAtMostOne | src/voglcore/vogl_dxt.cpp:281-295 | for every endpoint pair, `get_block_colors_round` exceeds `get_block_colors` by 0 or 1 per channel, with the same alphas |
| Dxt1.WhiteOverBlackPalette | src/voglcore/vogl_dxt.cpp:237-287 | endpoints 0xFFFF over 0x0000 select 4 colours, and entry 2 is (170,170,170,255) |
| Dxt1.Colors4Entry2 | src/voglcore/vogl_dxt.cpp:246 | in 4-colour mode entry 2 is the two-thirds blend of the unpacked endpoints |
| Dxt1.TwoThirdsWhite | src/voglcore/vogl_dxt.cpp:246 | the two-thirds blend of channel 255 toward channel 0 is 170 |
| Dxt1.UnpackWhite | src/voglcore/vogl_dxt.cpp:157-171 | 0xFFFF unpacks, scaled and opaque, to white |
| Dxt1.UnpackBlack | src/voglcore/vogl_dxt.cpp:157-171 | 0x0000 unpacks, scaled and opaque, to black |
| Dxt1.GetBlockColors3 | src/voglcore/vogl_dxt.cpp:224-235 | writes the 3-colour palette into `dst[0..4]`, leaves the rest alone, and returns 3 |
| Dxt1.GetBlockColors4 | src/voglcore/vogl_dxt.cpp:237-250 | writes the 4-colour palette into `dst[0..4]`, leaves the rest alone, and returns 4 |
| Dxt1.GetBlockColors3Round | src/voglcore/vogl_dxt.cpp:252-263 | writes the rounding 3-colour palette and returns 3 |
| Dxt1.GetBlockColors4Round | src/voglcore/vogl_dxt.cpp:265-279 | writes the rounding 4-colour palette and returns 4 |
| Dxt1.GetBlockColors | src/voglcore/vogl_dxt.cpp:281-287 | writes `BlockColors` (truncating) and returns `ColorCount` |
| Dxt1.GetBlockColorsRound | src/voglcore/vogl_dxt.cpp:289-295 | writes `BlockColors` (rounding) and returns `ColorCount` |
| Dxt1.CDiv | src/voglcore/vogl_dxt.cpp:196-213 | C's signed division truncates toward zero, for either sign of the numerator |
| Dxt1.NvEndpoint5 | src/voglcore/vogl_dxt.cpp:186-193 | the NV5x endpoint formula `(3*v*22)/8` equals 5-bit bit replication for every 5-bit `v` |
| Dxt1.NvEndpoint | src/voglcore/vogl_dxt.cpp:183-194 | NV5x entries 0 and 1 equal the standard scaled unpack with alpha 255 |
| Dxt1.NvBlend5 | src/voglcore/vogl_dxt.cpp:200-207 | the NV5x two-thirds red/blue fits in a byte before the cast and lies between the NV5x endpoint values |
| Dxt1.NvMid5 | src/voglcore/vogl_dxt.cpp:212-214 | the NV5x 3-colour red/blue midpoint fits in a byte before the cast and lies between the endpoint values |
| Dxt1.NvGreen2 | src/voglcore/vogl_dxt.cpp:196-201 | the NV5x entry-2 green, computed with truncating signed `gdiff/4` and `/256`, fits in a byte and lies between the endpoint greens |
| Dxt1.NvGreen3 | src/voglcore/vogl_dxt.cpp:196-206 | the NV5x entry-3 green fits in a byte and lies between the endpoint greens |
| Dxt1.NvGreenMid | src/voglcore/vogl_dxt.cpp:196-213 | the NV5x 3-colour midpoint green fits in a byte and lies between the endpoint greens |
| Dxt1.ColorsNV5xProperties | src/voglcore/vogl_dxt.cpp:181-222 | NV5x entries 0 and 1 are the opaque scaled unpacks; entry 2 (and entry 3 with `color4`) interpolates them with alpha 255; without `color4`, entry 3 is (0,0,0,0) |
| Dxt1.NvEntry2 | src/voglcore/vogl_dxt.cpp:196-215 | NV5x entry 2, in both modes, interpolates the opaque scaled unpacks of the endpoints with alpha 255 |
| Dxt1.NvEntry3 | src/voglcore/vogl_dxt.cpp:205-220 | NV5x entry 3 interpolates the endpoints with alpha 255 when `color4`, and is (0,0,0,0) otherwise |
| Dxt1.ColorsNV5x | src/voglcore/vogl_dxt.cpp:181-222 | the NV5x palette has four entries, and entries 0 and 1 equal the standard opaque scaled unpacks of the endpoints |
| Dxt1.NvBlend5NearBlend | src/voglcore/vogl_dxt.cpp:200-207 | for 5-bit fields, the NV5x one-third point `((2*near+far)*22)/8` is 0 or 1 above the standard two-thirds blend of the bit-replicated fields |
| Dxt1.NvMid5NearAverage | src/voglcore/vogl_dxt.cpp:212-214 | for 5-bit fields, the NV5x midpoint `((x+y)*33)/8` is 0 or 1 above the standard average of the bit-replicated fields |
| Dxt1.NvGreen2NearBlend | src/voglcore/vogl_dxt.cpp:196-201 | the NV5x entry-2 green, computed from the green difference, lies from 5 below to 6 above the standard two-thirds blend of the endpoint greens |
| Dxt1.NvGreen3NearBlend | src/voglcore/vogl_dxt.cpp:196-206 | the NV5x entry-3 green lies from 5 below to 6 above the standard blend nearer endpoint 1 |
| Dxt1.NvGreenMidNearAverage | src/voglcore/vogl_dxt.cpp:196-213 | the NV5x 3-colour midpoint green is 0 or 1 above the standard average of the endpoint greens |
| Dxt1.ColorsNV5xNearStandard | src/voglcore/vogl_dxt.cpp:181-222 | the NV5x palette equals the standard one in entries 0 and 1 (and in entry 3 in 3-colour mode). Elsewhere it is within the per-channel bounds above, with equal alpha |
| Dxt1.GetBlockColorsNV5x | src/voglcore/vogl_dxt.cpp:181-222 | writes the NV5x palette into `dst[0..4]` and leaves the rest alone |
| Dxt1.PackEndpoints | src/voglcore/vogl_dxt.cpp:303-307 | `lo` is the low 16 bits and `hi` the high 16 bits of the word; inputs above 0xFFFF are precondition violations |
| Dxt1.UnpackEndpoint | src/voglcore/vogl_dxt.cpp:297-301 | index 0 unpacks the low half and index 1 the high half; an index of 2 or more is a precondition violation |
| Dxt1.EndpointsRoundTrip | src/voglcore/vogl_dxt.cpp:297-307 | unpacking endpoint `i` of `pack_endpoints(lo,hi)` gives `unpack_color` of `lo` or `hi` |
| Dxt3.NibbleAtWithNibble | src/voglcore/vogl_dxt.cpp:323-339 | replacing one texel's nibble changes that texel's alpha to the new value and no other texel's, including its neighbour in the same byte |
| Dxt3.NibbleBits | src/voglcore/vogl_dxt.cpp:336-339 | `b >> 4` and `b & 0xF` are the quotient and remainder of the byte by 16 |
| Dxt3.NibbleOf | src/voglcore/vogl_dxt.cpp:336-339 | the masked nibble is the high half for an odd column and the low half for an even one |
| Dxt3.Replicate | src/voglcore/vogl_dxt.cpp:341-342 | `(n << 4) \| n` is `17n` |
| Dxt3.MaskInHigh | src/voglcore/vogl_dxt.cpp:326-327 | clearing and refilling the high nibble keeps the low nibble and stores the value above it |
| Dxt3.MaskInLow | src/voglcore/vogl_dxt.cpp:326-327 | clearing and refilling the low nibble keeps the high nibble and stores the value below it |
| Dxt3.MaskIn | src/voglcore/vogl_dxt.cpp:326-327 | with shift 4 the high nibble becomes `v` and the low nibble is kept; with shift 0 the low nibble becomes `v` and the high nibble is kept |
| Dxt3.AlphaOffset | src/voglcore/vogl_dxt.cpp:323 | `(y << 1) + (x >> 1)` stays inside the 8 alpha bytes for every texel of the 4x4 block |
| Dxt3.NibbleAt | src/voglcore/vogl_dxt.cpp:336-339 | the texel's alpha, read from its byte, is a 4-bit value |
| Dxt3.WithNibble | src/voglcore/vogl_dxt.cpp:323-329 | replacing one texel's alpha keeps the array length and every byte other than the texel's own |
| Dxt3.ReplaceNibble | src/voglcore/vogl_dxt.cpp:323-329 | the byte written back is the old byte with the texel's nibble replaced |
| Dxt3.Quantize4 | src/voglcore/vogl_dxt.cpp:313-317 | the scaled input `(v*15+128)/255` is at most 15 for `v <= 255` |
| Dxt3.Expand4 | src/voglcore/vogl_dxt.cpp:341-342 | the scaled output repeats the nibble in both halves of the byte |
| Dxt3.Requantize4 | src/voglcore/vogl_dxt.cpp:313-342 | a scaled get then a scaled set stores the same nibble again |
| Dxt3.Quantize4Error | src/voglcore/vogl_dxt.cpp:313-342 | a scaled set then a scaled get returns the input within 8 |
| Dxt3.StoredAlpha | src/voglcore/vogl_dxt.cpp:311-321 | the stored nibble is below 16, and unscaled it is the value itself |
| Dxt3.Dxt3Block.GetAlpha | src/voglcore/vogl_dxt.cpp:332-345 | returns the texel's nibble, or 17 times it when scaled |
| Dxt3.Dxt3Block.SetAlpha | src/voglcore/vogl_dxt.cpp:309-330 | rewrites only the texel's nibble in place; afterwards `get_alpha` there returns the stored nibble and every other texel's alpha is unchanged; `x, y < 4`, and `value <= 15` unscaled or `<= 255` scaled, are preconditions |
| Dxt5.Ramp6 | src/voglcore/vogl_dxt.cpp:381-392 | for any two 32-bit endpoints, in either order: 8 entries, entries 0 and 1 are `l` and `h`, and entries 6 and 7 are 0 and 255 |
| Dxt5.Ramp8 | src/voglcore/vogl_dxt.cpp:394-405 | for any two 32-bit endpoints, in either order: 8 entries, and entries 0 and 1 are `l` and `h` |
| Dxt5.ValueCount | src/voglcore/vogl_dxt.cpp:419-425 | 8 iff `l > h`, 6 otherwise |
| Dxt5.BlockValues | src/voglcore/vogl_dxt.cpp:419-425 | entries 0 and 1 are `l` and `h`; in 6-value mode entries 6 and 7 are 0 and 255 |
| Dxt5.Ramp6Exact | src/voglcore/vogl_dxt.cpp:381-392 | for byte endpoints no intermediate sum wraps |
| Dxt5.Ramp8Exact | src/voglcore/vogl_dxt.cpp:394-405 | for byte endpoints no intermediate sum wraps |
| Dxt5.Ramp6Between | src/voglcore/vogl_dxt.cpp:385-388 | for byte endpoints the four interpolants lie between `l` and `h` |
| Dxt5.Ramp8Between | src/voglcore/vogl_dxt.cpp:398-403 | for byte endpoints the six interpolants lie between `l` and `h` |
| Dxt5.RampsFitInByte | src/voglcore/vogl_dxt.cpp:347-405 | for byte endpoints every ramp entry is a byte, so the `color_quad_u8` form stores the same values as the `uint32_t` form |
| Dxt5.BlockValuesProperties | src/voglcore/vogl_dxt.cpp:373-425 | for byte endpoints: count 8 iff `l > h`; entries 0/1 are `l`/`h`; interpolants lie between them; a 6-value ramp ends in 0 and 255 |
| Dxt5.Ramp8LinearSteps | src/voglcore/vogl_dxt.cpp:394-405 | consecutive entries of the 8-value ramp in linear order each move toward `h` |
| Dxt5.Ramp8LinearOrder | src/voglcore/vogl_dxt.cpp:394-405 | read through `g_dxt5_from_linear`, the 8-value ramp moves monotonically from `l` to `h` |
| Dxt5.Ramp6LinearOrder | src/voglcore/vogl_dxt.cpp:381-392 | ordered by `g_dxt5_alpha6_to_linear`, the six non-fixed entries move monotonically from `l` to `h` |
| Dxt5.TowardChain | src/voglcore/vogl_dxt.cpp:381-405 | monotone steps along a sequence compose into monotone runs; used by `Ramp8LinearOrder` and `Ramp6LinearOrder` for both ramps |
| Dxt5.Ramp6Invert | src/voglcore/vogl_dxt.cpp:381-392 | swapping `l` and `h` permutes the 6-value ramp as `g_six_alpha_invert_table` says, for all 32-bit inputs |
| Dxt5.Ramp8Invert | src/voglcore/vogl_dxt.cpp:394-405 | swapping `l` and `h` permutes the 8-value ramp as `g_eight_alpha_invert_table` says, for all 32-bit inputs |
| Dxt5.OpaqueOverTransparentRamp | src/voglcore/vogl_dxt.cpp:394-425 | `l=255, h=0` selects the 8-value ramp, whose entry 3 is `(255*5)/7 = 182` |
| Dxt5.GetBlockValues6 | src/voglcore/vogl_dxt.cpp:381-392 | writes `Ramp6` into `dst[0..8]`, leaves the rest alone, and returns 6 |
| Dxt5.GetBlockValues8 | src/voglcore/vogl_dxt.cpp:394-405 | writes `Ramp8` into `dst[0..8]`, leaves the rest alone, and returns 8 |
| Dxt5.GetBlockValues | src/voglcore/vogl_dxt.cpp:419-425 | writes `BlockValues` and returns `ValueCount` |
| Dxt5.GetBlockValues6Quad | src/voglcore/vogl_dxt.cpp:347-358 | sets only the alpha of `dst[0..8]` to the narrowed `Ramp6` entries and returns 6 |
| Dxt5.GetBlockValues8Quad | src/voglcore/vogl_dxt.cpp:360-371 | sets only the alpha of `dst[0..8]` to the narrowed `Ramp8` entries and returns 8 |
| Dxt5.GetBlockValuesQuad | src/voglcore/vogl_dxt.cpp:373-379 | sets only the alphas to the narrowed `BlockValues` and returns `ValueCount` |
| Dxt5.PackEndpoints | src/voglcore/vogl_dxt.cpp:413-417 | `lo \| (hi << 8)` of two bytes fits in 16 bits; inputs above 0xFF are precondition violations |
| Dxt5.UnpackEndpoint | src/voglcore/vogl_dxt.cpp:407-411 | index 0 gives the low byte and index 1 the next byte; an index of 2 or more is a precondition violation |
| Dxt5.EndpointsRoundTrip | src/voglcore/vogl_dxt.cpp:407-417 | unpacking endpoint 0 or 1 of `pack_endpoints(lo,hi)` gives back `lo` or `hi` |

## Left out

- `get_dxt_compressor_name` (src/voglcore/vogl_dxt.cpp:75-94): its cases depend on a build flag, and it is a name lookup with no codec behaviour.
- The encoders and helpers in `vogl_ryg_dxt`, `vogl_dxt_fast` and `vogl_intersect`, and the declarations in `vogl_dxt1.h`, are not part of this model.
- The `dxt1_block` selector bits and the colour half of `dxt3_block` are not part of this model. The `dxt_format` enumeration's own values are represented by `DxtFormat.Format`, with `Invalid` standing for every tag the lookups do not list.
- `VOGL_ASSERT` is read as a precondition. The fallback results of the format lookups on an unknown tag (`"?"` and 0) are therefore not modelled, and neither is what happens in a build that compiles the assertions out.
- `unpack_color`'s default alpha argument is declared in an unseen header. `DefaultAlpha` takes it as 255 (opaque). NV5x entries 0 and 1 set alpha to 0xFF explicitly, so they do not depend on it.
- Dxt1.PackColorRgb: accepts only channels already in 0..255. The `uint32_t` overload goes through the `color_quad_u8` constructor, whose clamping of larger inputs is declared in an unseen header.
- Dxt1.GetBlockColorsNV5x: stores each palette entry as a whole `color_quad_u8` rather than field by field. Every field of entries 0 to 3 is written, so the final array is the same.
- Dxt5.Ramp6Between, Dxt5.Ramp8Between, Dxt5.BlockValuesProperties, Dxt5.Ramp6LinearOrder, Dxt5.Ramp8LinearOrder and Dxt5.RampsFitInByte: stated for byte endpoints only. Larger `uint32_t` endpoints can wrap in the sums; the ramp functions themselves model that wrap for every 32-bit input.
- Dxt5.GetBlockValues6Quad, Dxt5.GetBlockValues8Quad and Dxt5.GetBlockValuesQuad: `l` and `h` are each narrowed to `uint8_t` on store, which `U8Cast` models. The postcondition states the narrowed values, not that they equal the `uint32_t` ramp; `RampsFitInByte` connects the two for byte endpoints.
- The per-texel selector decoding of whole blocks, the optional `pxfmt` S3TC decoder (a foreign library loaded at run time, with floating-point output), the test runner and the editor's trace replayer are outside the codec core and are not modelled.
