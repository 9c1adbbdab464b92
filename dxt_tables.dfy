/**
 * Selector remap tables. A selector is the per-texel index stored in a block;
 * "linear" order numbers the ramp entries from the first endpoint to the second.
 * `FromLinear` maps a linear position to the selector that encodes it and
 * `ToLinear` maps back. The invert tables give, for each DXT5 selector, the
 * selector that picks the same alpha once the two endpoints are swapped.
 */
module DxtTables {

  /** `g_dxt5_from_linear` */
  const Dxt5FromLinear: seq<nat> := [0, 2, 3, 4, 5, 6, 7, 1]
  /** `g_dxt5_to_linear` */
  const Dxt5ToLinear: seq<nat> := [0, 7, 1, 2, 3, 4, 5, 6]
  /** `g_dxt5_alpha6_to_linear`: only the first six entries are meaningful */
  const Dxt5Alpha6ToLinear: seq<nat> := [0, 5, 1, 2, 3, 4, 0, 0]
  /** `g_dxt1_from_linear` */
  const Dxt1FromLinear: seq<nat> := [0, 2, 3, 1]
  /** `g_dxt1_to_linear` */
  const Dxt1ToLinear: seq<nat> := [0, 3, 1, 2]
  /** `g_six_alpha_invert_table` */
  const SixAlphaInvert: seq<nat> := [1, 0, 5, 4, 3, 2, 6, 7]
  /** `g_eight_alpha_invert_table` */
  const EightAlphaInvert: seq<nat> := [1, 0, 7, 6, 5, 4, 3, 2]

  /** The two DXT1 tables are mutually inverse permutations of 0..3. */
  lemma Dxt1TablesInverse()
    ensures |Dxt1FromLinear| == 4 && |Dxt1ToLinear| == 4
    ensures forall k :: 0 <= k < 4 ==> Dxt1FromLinear[k] < 4 && Dxt1ToLinear[Dxt1FromLinear[k]] == k
    ensures forall s :: 0 <= s < 4 ==> Dxt1ToLinear[s] < 4 && Dxt1FromLinear[Dxt1ToLinear[s]] == s
  {
  }

  /** The two DXT5 tables are mutually inverse permutations of 0..7. */
  lemma Dxt5TablesInverse()
    ensures |Dxt5FromLinear| == 8 && |Dxt5ToLinear| == 8
    ensures forall k :: 0 <= k < 8 ==> Dxt5FromLinear[k] < 8 && Dxt5ToLinear[Dxt5FromLinear[k]] == k
    ensures forall s :: 0 <= s < 8 ==> Dxt5ToLinear[s] < 8 && Dxt5FromLinear[Dxt5ToLinear[s]] == s
  {
  }

  /** On the six interpolating selectors the 6-value table is a permutation of 0..5. */
  lemma Dxt5Alpha6ToLinearPermutes()
    ensures |Dxt5Alpha6ToLinear| == 8
    ensures forall s :: 0 <= s < 6 ==> Dxt5Alpha6ToLinear[s] < 6
    ensures forall s, t :: 0 <= s < t < 6 ==> Dxt5Alpha6ToLinear[s] != Dxt5Alpha6ToLinear[t]
  {
  }

  /** Both invert tables are involutions on 0..7: swapping the endpoints twice changes nothing. */
  lemma InvertTablesInvolutive()
    ensures |SixAlphaInvert| == 8 && |EightAlphaInvert| == 8
    ensures forall s :: 0 <= s < 8 ==> SixAlphaInvert[s] < 8 && SixAlphaInvert[SixAlphaInvert[s]] == s
    ensures forall s :: 0 <= s < 8 ==> EightAlphaInvert[s] < 8 && EightAlphaInvert[EightAlphaInvert[s]] == s
  {
  }
}
