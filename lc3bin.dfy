/**
 * LC3 binary container over a byte stream (the `bstream_t` variants of
 * lc3bin.c): an 18-byte header, then frame blocks, each a 2-byte
 * little-endian length followed by that many bytes of all channels' frames.
 *
 * Each method is tied to a pure function over the stream's bytes (what is
 * parsed, how many bytes are consumed, what image is written); the
 * round-trip lemmas are stated on those functions.
 */
module Lc3Bin {
  import opened Lc3
  import opened Lc3Header
  import opened ByteStream

  /** The values `lc3bin_bread_header` passes back. */
  datatype StreamInfo = StreamInfo(frameUs: int, srateHz: int, nchannels: int, nsamples: int)

  /**
   * The values read from a header: duration and rate scaled back to us and
   * Hz, and the sample count rebuilt from its two halves.
   */
  function Info(h: Header): (i: StreamInfo)
    ensures h.nsamplesHigh < 0x8000 ==> i.nsamples == h.nsamplesLow + 0x1_0000 * h.nsamplesHigh
  {
    StreamInfo(h.frame10Us * 10, h.srate100Hz * 100, h.channels,
               Join(h.nsamplesLow, h.nsamplesHigh))
  }

  /**
   * lc3bin_bread_header(fp, frame_us, srate_hz, nchannels, nsamples): -1
   * when 18 bytes cannot be read, -2 when they are not an LC3 header, 0 with
   * the decoded values otherwise. `prev` holds the four out-values before
   * the call; both failures leave them as they were.
   */
  method ReadHeader(s: Stream, prev: StreamInfo) returns (r: int, info: StreamInfo)
    requires s.Valid()
    modifies s`pos, s`size
    ensures s.Valid()
    ensures r == 0 || r == -1 || r == -2
    ensures r == -1 <==> s.mode != ModeRead || old(s.size) < HdrSize
    ensures r == -1 ==> s.pos == old(s.pos) && s.size == old(s.size)
    ensures r != 0 ==> info == prev
    ensures r != -1 ==>
      && s.pos == old(s.pos) + HdrSize
      && s.Remaining() == old(s.Remaining())[HdrSize..]
      && (r == -2 <==> Decode(old(s.Remaining())).fileId != FileId)
      && (r == 0 ==> info == Info(Decode(old(s.Remaining()))))
  {
    var data := new u8[HdrSize];
    var readRes := s.Read(data, HdrSize as u32, 1);
    if 1 != readRes {
      return -1, prev;
    }
    assert data[..] == old(s.Remaining())[..HdrSize];
    var converted := FromBytes(data[..], HdrSize as u8, Zero);
    if 0 != converted.code {
      return -2, prev;
    }
    info := Info(converted.hdr);
    r := 0;
  }

  /** What reading a frame block yields: frame bytes per channel, or a failure. */
  datatype FrameRead =
    | FrameBytes(perChannel: nat)
    | Invalid        // the -1 return
    | ZeroDivision   // a zero length reaches `bread` with obj_siz 0

  datatype Parsed = Parsed(status: FrameRead, consumed: nat)

  /**
   * The frame block at the front of `rem` as `lc3bin_bread_data` reads it
   * for `nch` channels, and the number of bytes consumed.
   */
  function ParseFrame(rem: seq<u8>, nch: int): (p: Parsed)
    requires nch > 0
    ensures p.consumed <= |rem|
    ensures p.status.FrameBytes? ==>
      && |rem| >= 2
      && var n := GetU16(rem, 0);
         && 0 < n <= nch * MaxFrameBytes && n % nch == 0
         && p.consumed == 2 + n && p.status.perChannel == n / nch
    ensures |rem| < 2 ==> p == Parsed(Invalid, 0)
    ensures p.status.ZeroDivision? ==> |rem| >= 2 && GetU16(rem, 0) == 0
  {
    if |rem| < 2 then Parsed(Invalid, 0)
    else
      var n := GetU16(rem, 0);
      if n > nch * MaxFrameBytes || n % nch != 0 then Parsed(Invalid, 2)
      else if n == 0 then Parsed(ZeroDivision, 2)
      else if |rem| - 2 < n then Parsed(Invalid, 2)
      else Parsed(FrameBytes(n / nch), 2 + n)
  }

  /**
   * lc3bin_bread_data(fp, nchannels, buffer). `buffer` holds the largest
   * block for `nch` channels. A zero length is reported as ZeroDivision and
   * the model stops there.
   */
  method ReadData(s: Stream, nch: int, buffer: array<u8>) returns (st: FrameRead)
    requires s.Valid()
    requires 0 < nch && nch * MaxFrameBytes < 0x8000_0000
    requires buffer != s.buf && buffer.Length >= nch * MaxFrameBytes
    modifies s`pos, s`size, buffer
    ensures s.Valid()
    ensures s.mode != ModeRead ==> st == Invalid && s.pos == old(s.pos)
    ensures s.mode == ModeRead ==>
      var p := ParseFrame(old(s.Remaining()), nch);
      && st == p.status
      && s.pos == old(s.pos) + p.consumed
      && s.Remaining() == old(s.Remaining())[p.consumed..]
    ensures st.FrameBytes? ==>
      var n := GetU16(old(s.Remaining()), 0);
      buffer[..n] == old(s.Remaining())[2..2 + n] && buffer[n..] == old(buffer[n..])
    ensures !st.FrameBytes? ==> buffer[..] == old(buffer[..])
  {
    ghost var rem := s.Remaining();
    var prefix := new u8[2];
    CountOne(s.size, 2);
    var res := s.Read(prefix, 2, 1);
    if res < 1 {
      return Invalid;
    }
    assert prefix[..] == rem[..2];
    var nbytes := GetU16(prefix[..], 0);
    assert nbytes == GetU16(rem, 0);
    if nbytes > nch * MaxFrameBytes || nbytes % nch != 0 {
      return Invalid;
    }
    if nbytes == 0 {
      return ZeroDivision;
    }
    var ok := ReadBlock(s, buffer, nbytes);
    if !ok {
      return Invalid;
    }
    st := FrameBytes(nbytes / nch);
  }

  /** `bread(buffer, n, 1, fp) < 1` in `lc3bin_bread_data`, on a reading stream. */
  method ReadBlock(s: Stream, buffer: array<u8>, n: nat) returns (ok: bool)
    requires s.Valid() && s.mode == ModeRead
    requires 0 < n < 0x1_0000_0000 && buffer != s.buf && buffer.Length >= n
    modifies s`pos, s`size, buffer
    ensures s.Valid()
    ensures ok <==> old(s.size) >= n
    ensures !ok ==> s.pos == old(s.pos) && s.size == old(s.size) && buffer[..] == old(buffer[..])
    ensures ok ==> && s.pos == old(s.pos) + n
                   && buffer[..n] == old(s.Remaining())[..n]
                   && buffer[n..] == old(buffer[n..])
                   && s.Remaining() == old(s.Remaining())[n..]
  {
    CountOne(s.size, n);
    ghost var k := Count(s.size, n, 1);
    assert k * n <= n by {
      if k == 1 { assert k * n == n; } else { assert k * n == 0; }
    }
    var res := s.Read(buffer, n as u32, 1);
    ok := res >= 1;
    if ok {
      assert k == 1 && k * n == n;
    }
  }

  /** The block `lc3bin_bwrite_data` writes: the length, then the bytes. */
  function FrameImage(data: seq<u8>, nbytes: u16): (s: seq<u8>)
    requires nbytes <= |data|
    ensures |s| == 2 + nbytes
  {
    LeU16(nbytes) + data[..nbytes]
  }

  /**
   * lc3bin_bwrite_data(fp, data, nchannels, frame_bytes). The length is
   * nchannels * frame_bytes stored in an uint16_t. Returns -1 when either
   * write is short. Once the prefix is written, the payload write puts as
   * many of the n bytes as fit (none when no byte is left) behind it.
   */
  method WriteData(s: Stream, data: seq<u8>, nch: i32, frameBytes: i32) returns (r: int)
    requires s.Valid()
    requires -0x8000_0000 <= nch * frameBytes < 0x8000_0000
    requires |data| >= ToU16(nch * frameBytes)
    modifies s`pos, s`size, s.buf
    ensures s.Valid()
    ensures r == 0 || r == -1
    ensures s.mode != ModeWrite || old(s.size) < 2 ==>
      r == -1 && s.pos == old(s.pos) && s.buf[..] == old(s.buf[..])
    ensures var n := ToU16(nch * frameBytes);
      r == 0 <==> s.mode == ModeWrite && old(s.size) >= 3 && old(s.size) >= 2 + n
    ensures var n := ToU16(nch * frameBytes);
      r == 0 ==> && s.pos == old(s.pos) + 2 + n
                 && Overwritten(old(s.buf[..]), s.buf[..], old(s.pos), FrameImage(data, n))
    ensures s.mode == ModeWrite && old(s.size) >= 2 ==>
      var n := ToU16(nch * frameBytes);
      var k := Min(old(s.size) - 2, n);
      && s.pos == old(s.pos) + 2 + k && s.size == old(s.size) - (2 + k)
      && Overwritten(old(s.buf[..]), s.buf[..], old(s.pos), LeU16(n) + data[..k])
  {
    var nbytes := ToU16(nch * frameBytes);
    ghost var p0 := s.pos;
    ghost var b0 := s.buf[..];
    var written := WriteLength(s, nbytes);
    if !written {
      return -1;
    }
    ghost var b1 := s.buf[..];
    ghost var k := Min(s.size, nbytes);
    written := WritePayload(s, data, nbytes);
    TwoWrites(b0, p0, nbytes, data, k, b1, s.buf[..]);
    if !written {
      return -1;
    }
    r := 0;
  }

  /** `bwrite(&nbytes, 2, 1, fp) == 1`: the length prefix is written whole or not at all. */
  method WriteLength(s: Stream, n: u16) returns (ok: bool)
    requires s.Valid()
    modifies s`pos, s`size, s.buf
    ensures s.Valid()
    ensures ok <==> s.mode == ModeWrite && old(s.size) >= 2
    ensures !ok ==> s.pos == old(s.pos) && s.size == old(s.size) && s.buf[..] == old(s.buf[..])
    ensures ok ==> && s.pos == old(s.pos) + 2 && s.size == old(s.size) - 2
                   && Overwritten(old(s.buf[..]), s.buf[..], old(s.pos), LeU16(n))
  {
    MovedUnits(s.size, 0);
    var cnt := s.Write(LeU16(n), 2, 1);
    ok := cnt == 1;
    assert LeU16(n)[..2] == LeU16(n);
    assert s.pos <= s.buf.Length;
  }

  /**
   * `bwrite(data, 1, nbytes, fp) == nbytes`: as many of the n bytes as fit
   * are written; it succeeds when all of them fit and at least one byte was left.
   */
  method WritePayload(s: Stream, data: seq<u8>, n: u16) returns (ok: bool)
    requires s.Valid() && s.mode == ModeWrite && |data| >= n
    modifies s`pos, s`size, s.buf
    ensures s.Valid()
    ensures ok <==> old(s.size) >= 1 && old(s.size) >= n
    ensures var k := Min(old(s.size), n);
      && s.pos == old(s.pos) + k && s.size == old(s.size) - k
      && Overwritten(old(s.buf[..]), s.buf[..], old(s.pos), data[..k])
  {
    MovedUnits(s.size, n);
    var cnt := s.Write(data, 1, n);
    ok := cnt == n;
  }

  /** The length prefix written at `p0`, then `k` payload bytes behind it. */
  lemma TwoWrites(b0: seq<u8>, p0: nat, n: u16, data: seq<u8>, k: nat, b1: seq<u8>, b2: seq<u8>)
    requires k <= |data|
    requires Overwritten(b0, b1, p0, LeU16(n)) && Overwritten(b1, b2, p0 + 2, data[..k])
    ensures Overwritten(b0, b2, p0, LeU16(n) + data[..k])
  {
    assert b1[..p0 + 2] == b0[..p0] + LeU16(n);
    assert b1[p0 + 2 + k..] == b0[p0 + 2 + k..];
  }

  /**
   * lc3bin_bwrite_header. `junk` is the indeterminate content of the local
   * header that `lc3bin_header_init` fills (its `rfu` field is written as is).
   */
  method WriteHeader(s: Stream, frameUs: i32, srateHz: i32, bitrate: i32, nch: i32,
                     nsamples: i32, junk: Header) returns (r: int)
    requires s.Valid()
    modifies s`pos, s`size, s.buf
    ensures s.Valid()
    ensures r == 0 || r == -1 || r == -2
    ensures r == -1 <==> Init(frameUs, srateHz, bitrate, nch, nsamples, junk).code != 0
    ensures r == -2 <==> r != -1 && (s.mode != ModeWrite || old(s.size) < HdrSize)
    ensures r != 0 ==> s.pos == old(s.pos) && s.buf[..] == old(s.buf[..])
    ensures r == 0 ==>
      && s.pos == old(s.pos) + HdrSize
      && s.buf[..] == old(s.buf[..s.pos]) + ToBytes(Init(frameUs, srateHz, bitrate, nch, nsamples, junk).hdr)
                      + old(s.buf[s.pos + HdrSize..])
  {
    var init := Init(frameUs, srateHz, bitrate, nch, nsamples, junk);
    if 0 != init.code {
      return -1;
    }
    var writeRes := s.Write(ToBytes(init.hdr), HdrSize as u32, 1);
    if 1 != writeRes {
      return -2;
    }
    r := 0;
  }

  // ---------------------------------------------------------------------
  // Round trips
  // ---------------------------------------------------------------------

  /**
   * A header written for a supported rate and duration reads back as the
   * values it was written with.
   */
  lemma HeaderRoundTrip(frameUs: i32, srateHz: i32, bitrate: i32, nch: i32, nsamples: i32,
                        junk: Header, rest: seq<u8>)
    requires CheckSrHz(srateHz) && CheckDtUs(frameUs) && 0 <= nch < 0x1_0000
    ensures var h := Init(frameUs, srateHz, bitrate, nch, nsamples, junk).hdr;
      && Decode(ToBytes(h) + rest).fileId == FileId
      && Info(Decode(ToBytes(h) + rest)) == StreamInfo(frameUs, srateHz, nch, nsamples)
  {
    var h := Init(frameUs, srateHz, bitrate, nch, nsamples, junk).hdr;
    DecodeToBytes(h, rest);
  }

  /**
   * A frame block written for `nch` channels of `fb` bytes each reads back
   * as `fb` bytes per channel with the same payload.
   */
  lemma FrameRoundTrip(data: seq<u8>, nch: int, fb: int, rest: seq<u8>)
    requires 0 < nch && 0 < fb <= MaxFrameBytes && nch * fb < 0x1_0000
    requires |data| >= nch * fb
    ensures var img := FrameImage(data, nch * fb) + rest;
      && ParseFrame(img, nch) == Parsed(FrameBytes(fb), 2 + nch * fb)
      && img[2..2 + nch * fb] == data[..nch * fb]
  {
    var n: u16 := nch * fb;
    var img := FrameImage(data, n) + rest;
    assert img == [] + LeU16(n) + (data[..n] + rest);
    U16RoundTrip(n, [], data[..n] + rest);
    assert GetU16(img, 0) == n;
    assert n <= nch * MaxFrameBytes by {
      assert nch * MaxFrameBytes - n == nch * (MaxFrameBytes - fb);
      MulBounds(MaxFrameBytes - fb, nch);
    }
    DivExact(fb, nch);
    assert n % nch == 0 && n / nch == fb;
  }

  /**
   * Without the bound nch * fb < 2^16 the block does not round-trip: the
   * length prefix keeps nch * fb mod 2^16 and only that many payload bytes
   * are written. At 164 channels of 400 bytes the prefix is 64, which is not
   * a multiple of 164, so the reader rejects the block.
   */
  lemma LargeBlockDoesNotRoundTrip(data: seq<u8>, rest: seq<u8>)
    requires |data| >= 64
    ensures ToU16(164 * MaxFrameBytes) == 64
    ensures ParseFrame(FrameImage(data, ToU16(164 * MaxFrameBytes)) + rest, 164) == Parsed(Invalid, 2)
  {
    var n: u16 := 64;
    var img := FrameImage(data, n) + rest;
    assert img == [] + LeU16(n) + (data[..n] + rest);
    U16RoundTrip(n, [], data[..n] + rest);
  }
}
