/**
 * The 9-bit LTPF pitch index (Bluetooth LC3 specification, sections
 * 3.3.9.7 and 3.4.9.4). A pitch lag is an integer part `e` at 12.8 kHz and a
 * fractional phase `f` in quarter samples; the index quantises it in three
 * bands: quarter-sample resolution below 127, half-sample resolution from
 * 127 to 156, whole samples from 157 up.
 */
module LtpfIndex {

  /** Lowest and highest integer pitch lag `refine_pitch` searches. */
  const MinLag: int := 32
  const MaxLag: int := 228

  /** The phases each band can represent, once `refine_pitch` normalised them. */
  predicate ValidPhase(e: int, f: int) {
    && MinLag <= e <= MaxLag
    && 0 <= f <= 3
    && (127 <= e < 157 ==> f % 2 == 0)
    && (157 <= e ==> f == 0)
  }

  /**
   * The index `refine_pitch` returns for the lag (e, f). `f >> 1` is the
   * floor of f / 2, which Dafny's `/` computes for a positive divisor.
   */
  function PitchIndex(e: int, f: int): int {
    if e < 127 then 4 * e + f - 128
    else if e < 157 then 2 * e + f / 2 + 126
    else e + 283
  }

  /**
   * The pitch lag in quarter samples `lc3_ltpf_synthesize` decodes from an
   * index. `>> 1`, `>> 2`, `& 1` and `& 3` are floor division and the
   * (non-negative) remainder by 2 and 4, as Dafny computes them.
   */
  function DecodePitch(idx: int): int {
    if idx >= 440 then (idx - 283) * 4
    else if idx >= 380 then (idx / 2 - 63) * 4 + (idx % 2) * 2
    else (idx / 4 + 32) * 4 + idx % 4
  }

  /** Every lag in its band's resolution gets a 9-bit index that decodes back to 4e+f. */
  lemma DecodeEncode(e: int, f: int)
    requires ValidPhase(e, f)
    ensures 0 <= PitchIndex(e, f) < 512
    ensures DecodePitch(PitchIndex(e, f)) == 4 * e + f
  {
    if 127 <= e < 157 {
      var idx := 2 * e + f / 2 + 126;
      assert f == 2 * (f / 2);
      assert idx / 2 == e + 63 && idx % 2 == f / 2;
    } else if e < 127 {
      var idx := 4 * e + f - 128;
      assert idx / 4 == e - 32 && idx % 4 == f;
    }
  }

  /**
   * The three bands occupy exactly [0, 379], [380, 439] and [440, 511]: the
   * decoder's thresholds 380 and 440 separate them.
   */
  lemma IndexBands(e: int, f: int)
    requires ValidPhase(e, f)
    ensures e < 127 <==> PitchIndex(e, f) < 380
    ensures 127 <= e < 157 <==> 380 <= PitchIndex(e, f) < 440
    ensures 157 <= e <==> 440 <= PitchIndex(e, f)
  {
    if 127 <= e < 157 {
      assert 0 <= f / 2 <= 1;
    }
  }

  /** The integer part and phase of a decoded lag. */
  function Lag(idx: int): (ef: (int, int)) {
    var p := DecodePitch(idx);
    (p / 4, p % 4)
  }

  /**
   * Every 9-bit index is the encoding of exactly one representable lag: the
   * decoder's lag satisfies the band rule and encodes back to the index.
   */
  lemma EncodeDecode(idx: int)
    requires 0 <= idx < 512
    ensures ValidPhase(Lag(idx).0, Lag(idx).1)
    ensures PitchIndex(Lag(idx).0, Lag(idx).1) == idx
    ensures 4 * Lag(idx).0 + Lag(idx).1 == DecodePitch(idx)
  {
    var p := DecodePitch(idx);
    if idx >= 440 {
      assert p / 4 == idx - 283 && p % 4 == 0;
    } else if idx >= 380 {
      var h, b := idx / 2, idx % 2;
      assert idx == 2 * h + b;
      assert p == 4 * (h - 63) + 2 * b;
      assert p / 4 == h - 63 && p % 4 == 2 * b;
    } else {
      var q, m := idx / 4, idx % 4;
      assert idx == 4 * q + m;
      assert p / 4 == q + 32 && p % 4 == m;
    }
  }

  /** Two representable lags with the same index are the same lag. */
  lemma IndexInjective(e1: int, f1: int, e2: int, f2: int)
    requires ValidPhase(e1, f1) && ValidPhase(e2, f2)
    requires PitchIndex(e1, f1) == PitchIndex(e2, f2)
    ensures e1 == e2 && f1 == f2
  {
    DecodeEncode(e1, f1);
    DecodeEncode(e2, f2);
    assert 4 * e1 + f1 == 4 * e2 + f2;
  }
}
