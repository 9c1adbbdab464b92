/** Metadata queries on the `dxt_format` tag. */
module DxtFormat {

  /**
   * `dxt_format`. The eight tags the lookups handle, and `Invalid` for any
   * other value of the enumeration (such as its invalid marker).
   */
  datatype Format = Dxt1 | Dxt1A | Dxt3 | Dxt5 | Dxt5A | DxnXY | DxnYX | Etc1 | Invalid

  predicate Known(fmt: Format) {
    !fmt.Invalid?
  }

  /**
   * Size in bytes of one 4x4 block, from the block layouts: a colour block is two
   * 16-bit endpoints and sixteen 2-bit selectors; a DXT3 alpha block is sixteen
   * 4-bit alphas; a DXT5 alpha block is two 8-bit endpoints and sixteen 3-bit
   * selectors; an ETC1 block is one 64-bit word.
   */
  function BlockBytes(fmt: Format): (bytes: nat)
    requires Known(fmt)
    ensures bytes == 8 || bytes == 16
    ensures bytes == 16 <==> fmt in {Dxt3, Dxt5, DxnXY, DxnYX}
  {
    var colorBlock := 2 * 2 + 16 * 2 / 8;
    var explicitAlphaBlock := 16 * 4 / 8;
    var interpolatedAlphaBlock := 2 + 16 * 3 / 8;
    match fmt
    case Dxt1 | Dxt1A => colorBlock
    case Dxt3 => explicitAlphaBlock + colorBlock
    case Dxt5 => interpolatedAlphaBlock + colorBlock
    case Dxt5A => interpolatedAlphaBlock
    case DxnXY | DxnYX => 2 * interpolatedAlphaBlock
    case Etc1 => 64 / 8
  }

  /** `get_dxt_format_string`; an unknown tag trips the assertion. */
  function FormatString(fmt: Format): (name: string)
    requires Known(fmt)
    ensures |name| > 0 && name != "?"
  {
    match fmt
    case Dxt1 => "DXT1"
    case Dxt1A => "DXT1A"
    case Dxt3 => "DXT3"
    case Dxt5 => "DXT5"
    case Dxt5A => "DXT5A"
    case DxnXY => "DXN_XY"
    case DxnYX => "DXN_YX"
    case Etc1 => "ETC1"
  }

  /** `get_dxt_format_bits_per_pixel`; an unknown tag trips the assertion. */
  function BitsPerPixel(fmt: Format): (bpp: nat)
    requires Known(fmt)
    ensures bpp == 4 <==> fmt in {Dxt1, Dxt1A, Dxt5A, Etc1}
    ensures bpp == 8 <==> fmt in {Dxt3, Dxt5, DxnXY, DxnYX}
    ensures bpp * 16 == BlockBytes(fmt) * 8
  {
    match fmt
    case Dxt1 | Dxt1A | Dxt5A | Etc1 => 4
    case Dxt3 | Dxt5 | DxnXY | DxnYX => 8
  }

  /** `get_dxt_format_has_alpha`: total, and false for every tag it does not list. */
  function HasAlpha(fmt: Format): (alpha: bool)
    ensures alpha <==> fmt in {Dxt1A, Dxt3, Dxt5, Dxt5A}
    ensures !Known(fmt) ==> !alpha
  {
    match fmt
    case Dxt1A | Dxt3 | Dxt5 | Dxt5A => true
    case _ => false
  }

  /** Distinct tags have distinct names. */
  lemma FormatStringInjective(f: Format, g: Format)
    requires Known(f) && Known(g) && f != g
    ensures FormatString(f) != FormatString(g)
  {
  }
}
