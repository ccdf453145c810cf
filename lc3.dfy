/**
 * Shared vocabulary of the LC3 tooling: fixed-width integers as the C code
 * stores them, little-endian struct images, and the two enumerations (frame
 * duration, sample rate) with the constants of lc3.h that the core relies on.
 *
 * lc3.h is not part of this model; the values below are those of the LC3
 * codec it belongs to (two frame durations, five sample rates, bitrate range
 * and the largest frame size in bytes).
 */
module Lc3 {

  type u8 = x: int | 0 <= x < 0x100
  type u16 = x: int | 0 <= x < 0x1_0000
  type u32 = x: int | 0 <= x < 0x1_0000_0000
  type i32 = x: int | -0x8000_0000 <= x < 0x8000_0000

  /** Conversion of a C integer to uint16_t (reduction modulo 2^16). */
  function ToU16(x: int): (r: u16)
    ensures (r - x) % 0x1_0000 == 0
  {
    x % 0x1_0000
  }

  /** Conversion of a C integer to uint32_t (reduction modulo 2^32). */
  function ToU32(x: int): (r: u32)
    ensures (r - x) % 0x1_0000_0000 == 0
  {
    x % 0x1_0000_0000
  }

  /** Two's complement wrap-around of a result into a 32-bit int. */
  function WrapI32(x: int): (r: i32)
    ensures (r - x) % 0x1_0000_0000 == 0
    ensures -0x8000_0000 <= x < 0x8000_0000 ==> r == x
  {
    var m := x % 0x1_0000_0000;
    if m < 0x8000_0000 then m else m - 0x1_0000_0000
  }

  // ---------------------------------------------------------------------
  // Little-endian images of uint16_t / uint32_t fields (host order of the
  // `memcpy` of a struct on the little-endian targets the tools run on).
  // ---------------------------------------------------------------------

  function LeU16(v: u16): (s: seq<u8>)
    ensures |s| == 2
  {
    [v % 0x100, v / 0x100]
  }

  function GetU16(s: seq<u8>, off: nat): u16
    requires off + 2 <= |s|
  {
    s[off] as int + 0x100 * s[off + 1] as int
  }

  function LeU32(v: u32): (s: seq<u8>)
    ensures |s| == 4
  {
    LeU16(v % 0x1_0000) + LeU16(v / 0x1_0000)
  }

  function GetU32(s: seq<u8>, off: nat): u32
    requires off + 4 <= |s|
  {
    GetU16(s, off) as int + 0x1_0000 * GetU16(s, off + 2) as int
  }

  lemma U16RoundTrip(v: u16, pre: seq<u8>, post: seq<u8>)
    ensures GetU16(pre + LeU16(v) + post, |pre|) == v
  {
    var s := pre + LeU16(v) + post;
    assert s[|pre|] == v % 0x100 && s[|pre| + 1] == v / 0x100;
  }

  /** A uint16_t field read from bytes that hold its image. */
  lemma U16Of(s: seq<u8>, off: nat, v: u16)
    requires off + 2 <= |s| && s[off] == LeU16(v)[0] && s[off + 1] == LeU16(v)[1]
    ensures GetU16(s, off) == v
  {
    U16RoundTrip(v, [], []);
    assert [] + LeU16(v) + [] == LeU16(v);
  }

  lemma U32RoundTrip(v: u32, pre: seq<u8>, post: seq<u8>)
    ensures GetU32(pre + LeU32(v) + post, |pre|) == v
  {
    var lo, hi := v % 0x1_0000, v / 0x1_0000;
    assert pre + LeU32(v) + post == pre + LeU16(lo) + (LeU16(hi) + post);
    U16RoundTrip(lo, pre, LeU16(hi) + post);
    assert pre + LeU32(v) + post == (pre + LeU16(lo)) + LeU16(hi) + post;
    U16RoundTrip(hi, pre + LeU16(lo), post);
  }

  // ---------------------------------------------------------------------
  // Frame durations and sample rates (enum lc3_dt, enum lc3_srate)
  // ---------------------------------------------------------------------

  datatype Duration = Dt7M5 | Dt10M {
    /** The enumerator's value, LC3_DT_7M5 = 0, LC3_DT_10M = 1. */
    function Ordinal(): nat { if Dt7M5? then 0 else 1 }
    /** LC3_DT_US: the frame duration in microseconds. */
    function Us(): nat { (3 + Ordinal()) * 2500 }
  }

  datatype SampleRate = Sr8K | Sr16K | Sr24K | Sr32K | Sr48K {
    /** The enumerator's value, LC3_SRATE_8K = 0 ... LC3_SRATE_48K = 4. */
    function Ordinal(): nat {
      match this
      case Sr8K => 0
      case Sr16K => 1
      case Sr24K => 2
      case Sr32K => 3
      case Sr48K => 4
    }
    /** LC3_SRATE_KHZ */
    function Khz(): nat {
      match this
      case Sr8K => 8
      case Sr16K => 16
      case Sr24K => 24
      case Sr32K => 32
      case Sr48K => 48
    }
  }

  /** LC3_NS: samples in one frame at the native rate. */
  function Ns(dt: Duration, sr: SampleRate): (n: nat)
    ensures n == 20 * (3 + dt.Ordinal()) * sr.Khz() / 8
  {
    sr.Khz() * dt.Us() / 1000
  }

  /** LC3_CHECK_SR_HZ: the sample rates the codec supports, in Hz. */
  predicate CheckSrHz(hz: int) {
    hz == 8000 || hz == 16000 || hz == 24000 || hz == 32000 || hz == 48000
  }

  /** LC3_CHECK_DT_US: the frame durations the codec supports, in us. */
  predicate CheckDtUs(us: int) {
    us == 7500 || us == 10000
  }

  /** LC3_MAX and LC3_MIN. */
  function Max(a: int, b: int): int { if a < b then b else a }
  function Min(a: int, b: int): int { if a < b then a else b }

  const MinBitrate: int := 16000
  const MaxBitrate: int := 320000
  const MaxFrameBytes: int := 400

  // ---------------------------------------------------------------------
  // Nonlinear arithmetic facts the solver needs spelled out
  // ---------------------------------------------------------------------

  lemma DivExact(a: int, b: int)
    requires b > 0
    ensures (a * b) % b == 0 && (a * b) / b == a
  {
    var q, m := (a * b) / b, (a * b) % b;
    assert a * b == q * b + m && 0 <= m < b;
    assert (a - q) * b == m;
    MulBounds(a - q, b);
  }

  lemma MulBounds(d: int, b: int)
    requires b > 0
    ensures d >= 1 ==> d * b >= b
    ensures d <= -1 ==> d * b <= -b
  {
    if d >= 1 {
      assert d * b == (d - 1) * b + b;
    } else if d <= -1 {
      assert d * b == (d + 1) * b - b;
    }
  }

  lemma DivMod(v: int, m: int)
    requires m > 0
    ensures v == m * (v / m) + v % m && 0 <= v % m < m
  {
  }

  /** Euclidean division is determined by its quotient and remainder. */
  lemma ModUnique(v: int, m: int, q: int, r: int)
    requires m > 0 && v == m * q + r && 0 <= r < m
    ensures v / m == q && v % m == r
  {
    var q', r' := v / m, v % m;
    assert (q - q') * m == r' - r;
    MulBounds(q - q', m);
  }
}
