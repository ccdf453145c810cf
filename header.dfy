/**
 * The 18-byte header of an LC3 binary file (struct lc3bin_header): nine
 * uint16_t fields, copied to and from bytes in host (little-endian) order.
 * `FromBytes` and `Init` model the two functions that fill a caller's
 * header through an out-parameter: each returns the status code together
 * with the header as the caller sees it afterwards.
 */
module Lc3Header {
  import opened Lc3

  /** LC3_FILE_ID */
  const FileId: u16 := 0x1C + 0xCC * 0x100
  /** LC3_HDR_SIZ: sizeof(struct lc3bin_header) */
  const HdrSize: nat := 18

  datatype Header = Header(
    fileId: u16,
    headerSize: u16,
    srate100Hz: u16,
    bitrate100Bps: u16,
    channels: u16,
    frame10Us: u16,
    rfu: u16,
    nsamplesLow: u16,
    nsamplesHigh: u16)

  const Zero: Header := Header(0, 0, 0, 0, 0, 0, 0, 0, 0)

  /** Status code and the out-parameter after the call. */
  datatype Filled = Filled(code: int, hdr: Header)

  /** The struct's image in memory. */
  function ToBytes(h: Header): (s: seq<u8>)
    ensures |s| == HdrSize
  {
    LeU16(h.fileId) + LeU16(h.headerSize) + LeU16(h.srate100Hz)
    + LeU16(h.bitrate100Bps) + LeU16(h.channels) + LeU16(h.frame10Us)
    + LeU16(h.rfu) + LeU16(h.nsamplesLow) + LeU16(h.nsamplesHigh)
  }

  /** The struct that `memcpy` builds from the first 18 bytes of `s`. */
  function Decode(s: seq<u8>): Header
    requires |s| >= HdrSize
  {
    Header(GetU16(s, 0), GetU16(s, 2), GetU16(s, 4), GetU16(s, 6), GetU16(s, 8),
           GetU16(s, 10), GetU16(s, 12), GetU16(s, 14), GetU16(s, 16))
  }

  lemma {:induction false} DecodeToBytes(h: Header, rest: seq<u8>)
    ensures Decode(ToBytes(h) + rest) == h
  {
    var s := ToBytes(h) + rest;
    U16Of(s, 0, h.fileId);
    U16Of(s, 2, h.headerSize);
    U16Of(s, 4, h.srate100Hz);
    U16Of(s, 6, h.bitrate100Bps);
    U16Of(s, 8, h.channels);
    U16Of(s, 10, h.frame10Us);
    U16Of(s, 12, h.rfu);
    U16Of(s, 14, h.nsamplesLow);
    U16Of(s, 16, h.nsamplesHigh);
  }

  /**
   * lc3bin_header_from_bytes(dtr, siz, hdr). `siz` is the caller's claim on
   * the size of `dtr` (an uint8_t); `prev` is the header before the call.
   */
  function FromBytes(dtr: seq<u8>, siz: u8, prev: Header): (r: Filled)
    requires siz <= |dtr|
    ensures r.code in {0, -1, -2}
    ensures r.code == -1 <==> siz < HdrSize
    ensures r.code == -1 ==> r.hdr == prev
    ensures r.code == -2 <==> siz >= HdrSize && Decode(dtr).fileId != FileId
    ensures r.code == -2 ==> r.hdr == Zero
    ensures r.code == 0 ==> r.hdr == Decode(dtr) && r.hdr.fileId == FileId
  {
    if siz < HdrSize then Filled(-1, prev)
    else
      var h := Decode(dtr);
      if h.fileId != FileId then Filled(-2, Zero) else Filled(0, h)
  }

  /** The bitrate field: the bitrate clamped to the codec's range, in 100 bps. */
  function ClampBitrate(bitrate: int): (w: int)
    ensures MinBitrate <= w <= MaxBitrate
    ensures MinBitrate <= bitrate <= MaxBitrate ==> w == bitrate
    ensures bitrate < MinBitrate ==> w == MinBitrate
    ensures bitrate > MaxBitrate ==> w == MaxBitrate
  {
    if MinBitrate > bitrate then MinBitrate
    else if MaxBitrate < bitrate then MaxBitrate
    else bitrate
  }

  /** nsamples split into its two 16-bit halves (`& 0xffff`, `>> 16`). */
  function SplitLow(n: i32): u16 { n % 0x1_0000 }
  function SplitHigh(n: i32): u16 { ToU16(n / 0x1_0000) }

  /** `low | (high << 16)` evaluated in a 32-bit int. */
  function Join(low: u16, high: u16): (n: i32)
    ensures high < 0x8000 ==> n == low + 0x1_0000 * high
  {
    WrapI32(low + 0x1_0000 * high)
  }

  /** Splitting then joining gives back every 32-bit sample count. */
  lemma JoinSplit(n: i32)
    ensures Join(SplitLow(n), SplitHigh(n)) == n
  {
    var q := n / 0x1_0000;
    assert n == q * 0x1_0000 + SplitLow(n);
    assert -0x8000 <= q < 0x8000;
    if q < 0 {
      assert SplitHigh(n) == q + 0x1_0000;
    } else {
      assert SplitHigh(n) == q;
    }
  }

  /**
   * lc3bin_header_init(frame_us, srate_hz, bitrate, nchannels, nsamples, hdr).
   * `prev` is the header before the call; `rfu` is never written.
   */
  function Init(frameUs: i32, srateHz: i32, bitrate: i32, nchannels: i32, nsamples: i32,
                prev: Header): (r: Filled)
    ensures r.code == -1 <==> !CheckSrHz(srateHz)
    ensures r.code == -2 <==> CheckSrHz(srateHz) && !CheckDtUs(frameUs)
    ensures r.code == 0 <==> CheckSrHz(srateHz) && CheckDtUs(frameUs)
    ensures r.code != 0 ==> r.hdr == prev
    ensures r.code == 0 ==>
      && r.hdr.fileId == FileId && r.hdr.headerSize == HdrSize
      && r.hdr.srate100Hz * 100 == srateHz
      && r.hdr.frame10Us * 10 == frameUs
      && r.hdr.bitrate100Bps == ClampBitrate(bitrate) / 100
      && 160 <= r.hdr.bitrate100Bps <= 3200
      && r.hdr.rfu == prev.rfu
      && (r.hdr.channels - nchannels) % 0x1_0000 == 0
      && Join(r.hdr.nsamplesLow, r.hdr.nsamplesHigh) == nsamples
  {
    if !CheckSrHz(srateHz) then Filled(-1, prev)
    else if !CheckDtUs(frameUs) then Filled(-2, prev)
    else
      JoinSplit(nsamples);
      Filled(0, prev.(fileId := FileId,
                     headerSize := HdrSize,
                     srate100Hz := srateHz / 100,
                     bitrate100Bps := ClampBitrate(bitrate) / 100,
                     channels := ToU16(nchannels),
                     frame10Us := frameUs / 10,
                     nsamplesLow := SplitLow(nsamples),
                     nsamplesHigh := SplitHigh(nsamples)))
  }

  /** A header built by `Init` is accepted by `FromBytes`, field for field. */
  lemma InitThenFromBytes(frameUs: i32, srateHz: i32, bitrate: i32, nchannels: i32,
                          nsamples: i32, junk: Header, dst: Header)
    requires CheckSrHz(srateHz) && CheckDtUs(frameUs)
    ensures var h := Init(frameUs, srateHz, bitrate, nchannels, nsamples, junk).hdr;
      FromBytes(ToBytes(h), HdrSize as u8, dst) == Filled(0, h)
  {
    var h := Init(frameUs, srateHz, bitrate, nchannels, nsamples, junk).hdr;
    DecodeToBytes(h, []);
    assert ToBytes(h) + [] == ToBytes(h);
  }
}
