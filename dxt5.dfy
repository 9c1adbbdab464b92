/**
 * `dxt5_block`: the interpolated-alpha half of a DXT5 block. Two 8-bit
 * endpoints `l` and `h` define an 8-entry ramp: with `l > h`, six values
 * interpolated in sevenths; otherwise four values interpolated in fifths
 * plus the fixed values 0 and 255.
 */
module Dxt5 {
  import opened DxtTypes
  import opened DxtTables

  /** `cDXT5SelectorValues`: a 3-bit selector picks one of eight ramp entries. */
  const RampSize: nat := 8

  /** `get_block_values6`: the 6-interpolant ramp in `uint32_t` arithmetic. */
  function Ramp6(l: U32, h: U32): (v: seq<U32>)
    ensures |v| == RampSize
    ensures v[0] == l && v[1] == h
    ensures v[6] == 0 && v[7] == 255
  {
    [l, h,
     Wrap32(l * 4 + h) / 5,
     Wrap32(l * 3 + h * 2) / 5,
     Wrap32(l * 2 + h * 3) / 5,
     Wrap32(l + h * 4) / 5,
     0, 255]
  }

  /** `get_block_values8`: the 8-interpolant ramp in `uint32_t` arithmetic. */
  function Ramp8(l: U32, h: U32): (v: seq<U32>)
    ensures |v| == RampSize
    ensures v[0] == l && v[1] == h
  {
    [l, h,
     Wrap32(l * 6 + h) / 7,
     Wrap32(l * 5 + h * 2) / 7,
     Wrap32(l * 4 + h * 3) / 7,
     Wrap32(l * 3 + h * 4) / 7,
     Wrap32(l * 2 + h * 5) / 7,
     Wrap32(l + h * 6) / 7]
  }

  /** The number of distinct values `get_block_values` reports. */
  function ValueCount(l: U32, h: U32): (n: U32)
    ensures n == 8 <==> l > h
    ensures n == 6 <==> l <= h
  {
    if l > h then 8 else 6
  }

  /** `get_block_values`: the ramp selected by comparing the endpoints. */
  function BlockValues(l: U32, h: U32): (v: seq<U32>)
    ensures |v| == RampSize
    ensures v[0] == l && v[1] == h
    ensures ValueCount(l, h) == 6 ==> v[6] == 0 && v[7] == 255
  {
    if l > h then Ramp8(l, h) else Ramp6(l, h)
  }

  // ---------------------------------------------------------------------------
  // Ramp properties

  /** For byte endpoints no intermediate sum of the 6-value ramp wraps. */
  lemma Ramp6Exact(l: Byte, h: Byte)
    ensures Ramp6(l, h) == [l, h, (l * 4 + h) / 5, (l * 3 + h * 2) / 5, (l * 2 + h * 3) / 5, (l + h * 4) / 5, 0, 255]
  {
    var v := Ramp6(l, h);
    assert v[2] == (l * 4 + h) / 5 by { Wrap32Small(l * 4 + h); }
    assert v[3] == (l * 3 + h * 2) / 5 by { Wrap32Small(l * 3 + h * 2); }
    assert v[4] == (l * 2 + h * 3) / 5 by { Wrap32Small(l * 2 + h * 3); }
    assert v[5] == (l + h * 4) / 5 by { Wrap32Small(l + h * 4); }
  }

  /** For byte endpoints no intermediate sum of the 8-value ramp wraps. */
  lemma Ramp8Exact(l: Byte, h: Byte)
    ensures Ramp8(l, h) == [l, h, (l * 6 + h) / 7, (l * 5 + h * 2) / 7, (l * 4 + h * 3) / 7,
                            (l * 3 + h * 4) / 7, (l * 2 + h * 5) / 7, (l + h * 6) / 7]
  {
    var v := Ramp8(l, h);
    assert v[2] == (l * 6 + h) / 7 by { Wrap32Small(l * 6 + h); }
    assert v[3] == (l * 5 + h * 2) / 7 by { Wrap32Small(l * 5 + h * 2); }
    assert v[4] == (l * 4 + h * 3) / 7 by { Wrap32Small(l * 4 + h * 3); }
    assert v[5] == (l * 3 + h * 4) / 7 by { Wrap32Small(l * 3 + h * 4); }
    assert v[6] == (l * 2 + h * 5) / 7 by { Wrap32Small(l * 2 + h * 5); }
    assert v[7] == (l + h * 6) / 7 by { Wrap32Small(l + h * 6); }
  }

  /** For byte endpoints the four interpolants of the 6-value ramp lie between `l` and `h`. */
  lemma Ramp6Between(l: Byte, h: Byte)
    ensures forall i :: 2 <= i < 6 ==> Between(Ramp6(l, h)[i], l, h)
  {
    Ramp6Exact(l, h);
  }

  /** For byte endpoints the six interpolants of the 8-value ramp lie between `l` and `h`. */
  lemma Ramp8Between(l: Byte, h: Byte)
    ensures forall i :: 2 <= i < 8 ==> Between(Ramp8(l, h)[i], l, h)
  {
    Ramp8Exact(l, h);
  }

  /**
   * For byte endpoints every entry of either ramp is a byte, so the
   * `color_quad_u8` form, which narrows each entry to `uint8_t`, stores the
   * same values as the `uint32_t` form.
   */
  lemma RampsFitInByte(l: Byte, h: Byte)
    ensures forall i :: 0 <= i < RampSize ==> Ramp6(l, h)[i] < 0x100 && U8Cast(Ramp6(l, h)[i]) == Ramp6(l, h)[i]
    ensures forall i :: 0 <= i < RampSize ==> Ramp8(l, h)[i] < 0x100 && U8Cast(Ramp8(l, h)[i]) == Ramp8(l, h)[i]
  {
    Ramp6Between(l, h);
    Ramp8Between(l, h);
  }

  /**
   * For byte endpoints, `get_block_values` reports 8 values exactly when
   * `l > h`; entries 0 and 1 are the endpoints, every interpolant lies
   * between them, and a 6-value ramp ends in the fixed values 0 and 255.
   */
  lemma BlockValuesProperties(l: Byte, h: Byte)
    ensures var v, n := BlockValues(l, h), ValueCount(l, h);
      && (n == 8 <==> l > h)
      && v[0] == l && v[1] == h
      && (forall i :: 2 <= i < n ==> Between(v[i], l, h))
      && (n == 6 ==> v[6] == 0 && v[7] == 255)
  {
    if l > h {
      Ramp8Between(l, h);
    } else {
      Ramp6Between(l, h);
    }
  }

  /** Read in linear selector order, the 8-value ramp moves monotonically from `l` to `h`. */
  lemma Ramp8LinearOrder(l: Byte, h: Byte)
    ensures var v := Ramp8(l, h);
      forall j, k :: 0 <= j <= k < RampSize ==> Toward(v[Dxt5FromLinear[j]], v[Dxt5FromLinear[k]], l, h)
  {
    var v := Ramp8(l, h);
    var lin := [v[0], v[2], v[3], v[4], v[5], v[6], v[7], v[1]];
    forall j | 0 <= j < RampSize ensures v[Dxt5FromLinear[j]] == lin[j] {
      if j < 4 {} else {}
    }
    Ramp8LinearSteps(l, h);
    forall j, k | 0 <= j <= k < RampSize ensures Toward(lin[j], lin[k], l, h) {
      TowardChain(lin, l, h, j, k);
    }
  }

  /** Consecutive entries of the 8-value ramp in linear order each move toward `h`. */
  lemma Ramp8LinearSteps(l: Byte, h: Byte)
    ensures var v := Ramp8(l, h);
      && Toward(v[0], v[2], l, h) && Toward(v[2], v[3], l, h) && Toward(v[3], v[4], l, h)
      && Toward(v[4], v[5], l, h) && Toward(v[5], v[6], l, h) && Toward(v[6], v[7], l, h)
      && Toward(v[7], v[1], l, h)
  {
    Ramp8Exact(l, h);
  }

  /** Read in linear selector order, the four interpolants and endpoints of the 6-value ramp move monotonically from `l` to `h`. */
  lemma Ramp6LinearOrder(l: Byte, h: Byte)
    ensures var v := Ramp6(l, h);
      forall s, t :: 0 <= s < 6 && 0 <= t < 6 && Dxt5Alpha6ToLinear[s] <= Dxt5Alpha6ToLinear[t] ==>
        Toward(v[s], v[t], l, h)
  {
    var v := Ramp6(l, h);
    var lin := [v[0], v[2], v[3], v[4], v[5], v[1]];
    forall s | 0 <= s < 6 ensures Dxt5Alpha6ToLinear[s] < 6 && v[s] == lin[Dxt5Alpha6ToLinear[s]] {
      if s < 3 {} else {}
    }
    Ramp6Exact(l, h);
    forall j | 0 <= j < 5 ensures Toward(lin[j], lin[j + 1], l, h) {
      if j < 3 {} else {}
    }
    forall s, t | 0 <= s < 6 && 0 <= t < 6 && Dxt5Alpha6ToLinear[s] <= Dxt5Alpha6ToLinear[t]
      ensures Toward(v[s], v[t], l, h)
    {
      TowardChain(lin, l, h, Dxt5Alpha6ToLinear[s], Dxt5Alpha6ToLinear[t]);
    }
  }

  /** Steps that each move toward `h` compose: the whole run from `j` to `k` does. */
  lemma {:induction false} TowardChain(lin: seq<int>, l: int, h: int, j: nat, k: nat)
    requires j <= k < |lin|
    requires forall m :: 0 <= m < |lin| - 1 ==> Toward(lin[m], lin[m + 1], l, h)
    ensures Toward(lin[j], lin[k], l, h)
    decreases k - j
  {
    if j < k {
      TowardChain(lin, l, h, j + 1, k);
      assert Toward(lin[j], lin[j + 1], l, h);
    }
  }

  /** Swapping the endpoints of the 6-value ramp permutes it as `g_six_alpha_invert_table` says. */
  lemma Ramp6Invert(l: U32, h: U32)
    ensures forall s :: 0 <= s < RampSize ==> SixAlphaInvert[s] < RampSize && Ramp6(h, l)[SixAlphaInvert[s]] == Ramp6(l, h)[s]
  {
    var v, w := Ramp6(l, h), Ramp6(h, l);
    assert w[1] == v[0] && w[0] == v[1] && w[5] == v[2] && w[4] == v[3];
    assert w[3] == v[4] && w[2] == v[5] && w[6] == v[6] && w[7] == v[7];
    forall s | 0 <= s < RampSize ensures SixAlphaInvert[s] < RampSize && w[SixAlphaInvert[s]] == v[s] {
      if s < 4 {} else {}
    }
  }

  /** Swapping the endpoints of the 8-value ramp permutes it as `g_eight_alpha_invert_table` says. */
  lemma Ramp8Invert(l: U32, h: U32)
    ensures forall s :: 0 <= s < RampSize ==> EightAlphaInvert[s] < RampSize && Ramp8(h, l)[EightAlphaInvert[s]] == Ramp8(l, h)[s]
  {
    var v, w := Ramp8(l, h), Ramp8(h, l);
    assert w[1] == v[0] && w[0] == v[1] && w[7] == v[2] && w[6] == v[3];
    assert w[5] == v[4] && w[4] == v[5] && w[3] == v[6] && w[2] == v[7];
    forall s | 0 <= s < RampSize ensures EightAlphaInvert[s] < RampSize && w[EightAlphaInvert[s]] == v[s] {
      if s < 4 {} else {}
    }
  }

  /** Endpoints 255 over 0 give an 8-value ramp whose selector 3 is 255 * 5 / 7, rounded down to 182. */
  lemma OpaqueOverTransparentRamp()
    ensures ValueCount(255, 0) == 8
    ensures BlockValues(255, 0)[3] == 182
  {
    assert Ramp8(255, 0)[3] == Wrap32(1275) / 7;
  }

  // ---------------------------------------------------------------------------
  // Writing a ramp into a caller's array

  /** `get_block_values6(uint32_t*, l, h)` */
  method GetBlockValues6(dst: array<U32>, l: U32, h: U32) returns (n: U32)
    requires dst.Length >= RampSize
    modifies dst
    ensures dst[..RampSize] == Ramp6(l, h)
    ensures dst[RampSize..] == old(dst[RampSize..])
    ensures n == 6
  {
    dst[0] := l;
    dst[1] := h;
    dst[2] := Wrap32(l * 4 + h) / 5;
    dst[3] := Wrap32(l * 3 + h * 2) / 5;
    dst[4] := Wrap32(l * 2 + h * 3) / 5;
    dst[5] := Wrap32(l + h * 4) / 5;
    dst[6] := 0;
    dst[7] := 255;
    return 6;
  }

  /** `get_block_values8(uint32_t*, l, h)` */
  method GetBlockValues8(dst: array<U32>, l: U32, h: U32) returns (n: U32)
    requires dst.Length >= RampSize
    modifies dst
    ensures dst[..RampSize] == Ramp8(l, h)
    ensures dst[RampSize..] == old(dst[RampSize..])
    ensures n == 8
  {
    dst[0] := l;
    dst[1] := h;
    dst[2] := Wrap32(l * 6 + h) / 7;
    dst[3] := Wrap32(l * 5 + h * 2) / 7;
    dst[4] := Wrap32(l * 4 + h * 3) / 7;
    dst[5] := Wrap32(l * 3 + h * 4) / 7;
    dst[6] := Wrap32(l * 2 + h * 5) / 7;
    dst[7] := Wrap32(l + h * 6) / 7;
    return 8;
  }

  /** `get_block_values(uint32_t*, l, h)` */
  method GetBlockValues(dst: array<U32>, l: U32, h: U32) returns (n: U32)
    requires dst.Length >= RampSize
    modifies dst
    ensures dst[..RampSize] == BlockValues(l, h)
    ensures dst[RampSize..] == old(dst[RampSize..])
    ensures n == ValueCount(l, h)
  {
    if l > h {
      n := GetBlockValues8(dst, l, h);
    } else {
      n := GetBlockValues6(dst, l, h);
    }
  }

  /** `dst` holds the old texels with only their alpha replaced by the ramp, narrowed to 8 bits. */
  ghost predicate AlphasWritten(dst: array<Rgba>, before: seq<Rgba>, ramp: seq<U32>)
    requires dst.Length >= RampSize && |before| == dst.Length && |ramp| == RampSize
    reads dst
  {
    && (forall i :: 0 <= i < RampSize ==> dst[i] == before[i].(a := U8Cast(ramp[i])))
    && dst[RampSize..] == before[RampSize..]
  }

  /** `get_block_values6(color_quad_u8*, l, h)`: writes only the alpha channel. */
  method GetBlockValues6Quad(dst: array<Rgba>, l: U32, h: U32) returns (n: U32)
    requires dst.Length >= RampSize
    modifies dst
    ensures AlphasWritten(dst, old(dst[..]), Ramp6(l, h))
    ensures n == 6
  {
    ghost var before, ramp := dst[..], Ramp6(l, h);
    dst[0] := dst[0].(a := U8Cast(l));
    dst[1] := dst[1].(a := U8Cast(h));
    dst[2] := dst[2].(a := U8Cast(Wrap32(l * 4 + h) / 5));
    dst[3] := dst[3].(a := U8Cast(Wrap32(l * 3 + h * 2) / 5));
    dst[4] := dst[4].(a := U8Cast(Wrap32(l * 2 + h * 3) / 5));
    dst[5] := dst[5].(a := U8Cast(Wrap32(l + h * 4) / 5));
    dst[6] := dst[6].(a := 0);
    dst[7] := dst[7].(a := 255);
    assert forall i :: 0 <= i < RampSize ==> dst[i] == before[i].(a := U8Cast(ramp[i])) by {
      assert dst[0] == before[0].(a := U8Cast(ramp[0])) && dst[1] == before[1].(a := U8Cast(ramp[1]));
      assert dst[2] == before[2].(a := U8Cast(ramp[2])) && dst[3] == before[3].(a := U8Cast(ramp[3]));
      assert dst[4] == before[4].(a := U8Cast(ramp[4])) && dst[5] == before[5].(a := U8Cast(ramp[5]));
      assert dst[6] == before[6].(a := U8Cast(ramp[6])) && dst[7] == before[7].(a := U8Cast(ramp[7]));
    }
    return 6;
  }

  /** `get_block_values8(color_quad_u8*, l, h)`: writes only the alpha channel. */
  method GetBlockValues8Quad(dst: array<Rgba>, l: U32, h: U32) returns (n: U32)
    requires dst.Length >= RampSize
    modifies dst
    ensures AlphasWritten(dst, old(dst[..]), Ramp8(l, h))
    ensures n == 8
  {
    ghost var before, ramp := dst[..], Ramp8(l, h);
    dst[0] := dst[0].(a := U8Cast(l));
    dst[1] := dst[1].(a := U8Cast(h));
    dst[2] := dst[2].(a := U8Cast(Wrap32(l * 6 + h) / 7));
    dst[3] := dst[3].(a := U8Cast(Wrap32(l * 5 + h * 2) / 7));
    dst[4] := dst[4].(a := U8Cast(Wrap32(l * 4 + h * 3) / 7));
    dst[5] := dst[5].(a := U8Cast(Wrap32(l * 3 + h * 4) / 7));
    dst[6] := dst[6].(a := U8Cast(Wrap32(l * 2 + h * 5) / 7));
    dst[7] := dst[7].(a := U8Cast(Wrap32(l + h * 6) / 7));
    assert forall i :: 0 <= i < RampSize ==> dst[i] == before[i].(a := U8Cast(ramp[i])) by {
      assert dst[0] == before[0].(a := U8Cast(ramp[0])) && dst[1] == before[1].(a := U8Cast(ramp[1]));
      assert dst[2] == before[2].(a := U8Cast(ramp[2])) && dst[3] == before[3].(a := U8Cast(ramp[3]));
      assert dst[4] == before[4].(a := U8Cast(ramp[4])) && dst[5] == before[5].(a := U8Cast(ramp[5]));
      assert dst[6] == before[6].(a := U8Cast(ramp[6])) && dst[7] == before[7].(a := U8Cast(ramp[7]));
    }
    return 8;
  }

  /** `get_block_values(color_quad_u8*, l, h)` */
  method GetBlockValuesQuad(dst: array<Rgba>, l: U32, h: U32) returns (n: U32)
    requires dst.Length >= RampSize
    modifies dst
    ensures AlphasWritten(dst, old(dst[..]), BlockValues(l, h))
    ensures n == ValueCount(l, h)
  {
    if l > h {
      n := GetBlockValues8Quad(dst, l, h);
    } else {
      n := GetBlockValues6Quad(dst, l, h);
    }
  }

  // ---------------------------------------------------------------------------
  // Endpoint pairs

  /** `dxt5_block::pack_endpoints`: `lo | (hi << 8)`. */
  function PackEndpoints(lo: U32, hi: U32): (w: U32)
    requires lo <= 0xFF && hi <= 0xFF
    ensures w <= 0xFFFF
  {
    lo + hi * 0x100
  }

  /** `dxt5_block::unpack_endpoint`: `(packed >> (8 * index)) & 0xFF`. */
  function UnpackEndpoint(packed: U32, index: U32): (e: U32)
    requires index < 2
    ensures e <= 0xFF
    ensures index == 0 ==> e == packed % 0x100
    ensures index == 1 ==> e == packed / 0x100 % 0x100
  {
    (packed / (if index == 0 then 1 else 0x100)) % 0x100
  }

  /** Packing two 8-bit endpoints and unpacking either one gives it back. */
  lemma EndpointsRoundTrip(lo: U32, hi: U32)
    requires lo <= 0xFF && hi <= 0xFF
    ensures UnpackEndpoint(PackEndpoints(lo, hi), 0) == lo
    ensures UnpackEndpoint(PackEndpoints(lo, hi), 1) == hi
  {
  }
}
