/**
 * The 44-byte RIFF/WAVE header (struct wave_header): a file statement, an
 * audio format statement and a data statement, copied to and from bytes in
 * host (little-endian) order. `Read` checks a header image the way
 * `wave_header_read` does; `Init` builds the header `wave_header_init`
 * writes for a PCM stream.
 */
module Wave {
  import opened Lc3

  /** struct wave_file */
  datatype WaveFile = WaveFile(typeId: u32, size: u32, fmtId: u32)

  /** struct wave_format */
  datatype WaveFormat = WaveFormat(
    id: u32,
    size: u32,
    fmt: u16,
    channels: u16,
    samplerate: u32,
    byterate: u32,
    framesize: u16,
    bitdepth: u16)

  /** struct wave_data */
  datatype WaveData = WaveData(id: u32, size: u32)

  /** struct wave_header */
  datatype WaveHeader = WaveHeader(file: WaveFile, format: WaveFormat, data: WaveData)

  /** Status code and the out-parameter after the call. */
  datatype Filled = Filled(code: int, hdr: WaveHeader)

  /** sizeof each statement and WAVE_HEADER_SIZ (no padding: every field is aligned). */
  const FileSize: nat := 12
  const FormatSize: nat := 24
  const DataSize: nat := 8
  const HeaderSize: nat := FileSize + FormatSize + DataSize

  /** The four characters of an id, as bytes. */
  predicate IsId(s: string) {
    |s| == 4 && forall i :: 0 <= i < 4 ==> s[i] as int < 0x100
  }

  /** __WAVE_ID(s): the four characters packed little-endian into a 32-bit word. */
  function WaveId(s: string): (v: u32)
    requires IsId(s)
    ensures LeU32(v) == [s[0] as int, s[1] as int, s[2] as int, s[3] as int]
  {
    var a, b, c, d := s[0] as int, s[1] as int, s[2] as int, s[3] as int;
    var v := a + 0x100 * b + 0x1_0000 * (c + 0x100 * d);
    ModUnique(v, 0x1_0000, c + 0x100 * d, a + 0x100 * b);
    ModUnique(a + 0x100 * b, 0x100, b, a);
    ModUnique(c + 0x100 * d, 0x100, d, c);
    v
  }

  const RiffId: u32 := WaveId("RIFF")
  const WaveTypeId: u32 := WaveId("WAVE")
  const FormatId: u32 := WaveId("fmt ")
  const DataId: u32 := WaveId("data")
  /** WAVE_FORMAT_PCM */
  const Pcm: u16 := 1

  // ---------------------------------------------------------------------
  // The struct image
  // ---------------------------------------------------------------------

  function FileBytes(f: WaveFile): (s: seq<u8>)
    ensures |s| == FileSize
  {
    LeU32(f.typeId) + LeU32(f.size) + LeU32(f.fmtId)
  }

  function FormatBytes(f: WaveFormat): (s: seq<u8>)
    ensures |s| == FormatSize
  {
    LeU32(f.id) + LeU32(f.size) + LeU16(f.fmt) + LeU16(f.channels)
    + LeU32(f.samplerate) + LeU32(f.byterate) + LeU16(f.framesize) + LeU16(f.bitdepth)
  }

  function DataBytes(d: WaveData): (s: seq<u8>)
    ensures |s| == DataSize
  {
    LeU32(d.id) + LeU32(d.size)
  }

  /** The header's image in memory. */
  function ToBytes(h: WaveHeader): (s: seq<u8>)
    ensures |s| == HeaderSize
  {
    FileBytes(h.file) + FormatBytes(h.format) + DataBytes(h.data)
  }

  /** The struct that `memcpy` builds from the first 44 bytes of `s`. */
  function Decode(s: seq<u8>): WaveHeader
    requires |s| >= HeaderSize
  {
    WaveHeader(
      WaveFile(GetU32(s, 0), GetU32(s, 4), GetU32(s, 8)),
      WaveFormat(GetU32(s, 12), GetU32(s, 16), GetU16(s, 20), GetU16(s, 22),
                 GetU32(s, 24), GetU32(s, 28), GetU16(s, 32), GetU16(s, 34)),
      WaveData(GetU32(s, 36), GetU32(s, 40)))
  }

  /** A uint32_t field read from bytes that hold its image. */
  lemma U32Of(s: seq<u8>, off: nat, v: u32)
    requires off + 4 <= |s|
    requires s[off] == LeU32(v)[0] && s[off + 1] == LeU32(v)[1]
    requires s[off + 2] == LeU32(v)[2] && s[off + 3] == LeU32(v)[3]
    ensures GetU32(s, off) == v
  {
    U32RoundTrip(v, [], []);
    assert [] + LeU32(v) + [] == LeU32(v);
  }

  lemma DecodeFile(f: WaveFile, s: seq<u8>, off: nat)
    requires off + FileSize <= |s|
    requires s[off..off + FileSize] == FileBytes(f)
    ensures GetU32(s, off) == f.typeId && GetU32(s, off + 4) == f.size
    ensures GetU32(s, off + 8) == f.fmtId
  {
    var b := FileBytes(f);
    assert s[off] == b[0] && s[off + 1] == b[1] && s[off + 2] == b[2] && s[off + 3] == b[3];
    U32Of(s, off, f.typeId);
    assert s[off + 4] == b[4] && s[off + 5] == b[5] && s[off + 6] == b[6] && s[off + 7] == b[7];
    U32Of(s, off + 4, f.size);
    assert s[off + 8] == b[8] && s[off + 9] == b[9] && s[off + 10] == b[10] && s[off + 11] == b[11];
    U32Of(s, off + 8, f.fmtId);
  }

  lemma DecodeFormat(f: WaveFormat, s: seq<u8>, off: nat)
    requires off + FormatSize <= |s|
    requires s[off..off + FormatSize] == FormatBytes(f)
    ensures GetU32(s, off) == f.id && GetU32(s, off + 4) == f.size
    ensures GetU16(s, off + 8) == f.fmt && GetU16(s, off + 10) == f.channels
    ensures GetU32(s, off + 12) == f.samplerate && GetU32(s, off + 16) == f.byterate
    ensures GetU16(s, off + 20) == f.framesize && GetU16(s, off + 22) == f.bitdepth
  {
    var b := FormatBytes(f);
    assert s[off] == b[0] && s[off + 1] == b[1] && s[off + 2] == b[2] && s[off + 3] == b[3];
    U32Of(s, off, f.id);
    assert s[off + 4] == b[4] && s[off + 5] == b[5] && s[off + 6] == b[6] && s[off + 7] == b[7];
    U32Of(s, off + 4, f.size);
    assert s[off + 8] == b[8] && s[off + 9] == b[9];
    U16Of(s, off + 8, f.fmt);
    assert s[off + 10] == b[10] && s[off + 11] == b[11];
    U16Of(s, off + 10, f.channels);
    assert s[off + 12] == b[12] && s[off + 13] == b[13] && s[off + 14] == b[14] && s[off + 15] == b[15];
    U32Of(s, off + 12, f.samplerate);
    assert s[off + 16] == b[16] && s[off + 17] == b[17] && s[off + 18] == b[18] && s[off + 19] == b[19];
    U32Of(s, off + 16, f.byterate);
    assert s[off + 20] == b[20] && s[off + 21] == b[21];
    U16Of(s, off + 20, f.framesize);
    assert s[off + 22] == b[22] && s[off + 23] == b[23];
    U16Of(s, off + 22, f.bitdepth);
  }

  lemma DecodeData(d: WaveData, s: seq<u8>, off: nat)
    requires off + DataSize <= |s|
    requires s[off..off + DataSize] == DataBytes(d)
    ensures GetU32(s, off) == d.id && GetU32(s, off + 4) == d.size
  {
    var b := DataBytes(d);
    assert s[off] == b[0] && s[off + 1] == b[1] && s[off + 2] == b[2] && s[off + 3] == b[3];
    U32Of(s, off, d.id);
    assert s[off + 4] == b[4] && s[off + 5] == b[5] && s[off + 6] == b[6] && s[off + 7] == b[7];
    U32Of(s, off + 4, d.size);
  }

  /** Copying a header's image back gives the same header, whatever follows it. */
  lemma DecodeToBytes(h: WaveHeader, rest: seq<u8>)
    ensures Decode(ToBytes(h) + rest) == h
  {
    var s := ToBytes(h) + rest;
    Pieces(FileBytes(h.file), FormatBytes(h.format), DataBytes(h.data), rest);
    DecodeFile(h.file, s, 0);
    DecodeFormat(h.format, s, 12);
    DecodeData(h.data, s, 36);
  }

  /** Where the three statements of an image lie. */
  lemma Pieces<T>(a: seq<T>, b: seq<T>, c: seq<T>, rest: seq<T>)
    ensures var s := a + b + c + rest;
      && s[..|a|] == a && s[|a|..|a| + |b|] == b && s[|a| + |b|..|a| + |b| + |c|] == c
  {
  }

  // ---------------------------------------------------------------------
  // wave_header_read
  // ---------------------------------------------------------------------

  /** The bytes per second the format statement implies, in uint32_t arithmetic. */
  function CalcByterate(f: WaveFormat): u32 {
    ToU32(f.samplerate * f.framesize)
  }

  /**
   * The header `wave_header_read` accepts: RIFF/WAVE file statement, a PCM
   * format statement with non-zero channels, rate and frame size, a byte
   * rate consistent with them and a bit depth of 16 or 24, and a data
   * statement. The sizes of the file, format block and data are not checked.
   */
  predicate Acceptable(h: WaveHeader) {
    && h.file.typeId == RiffId && h.file.fmtId == WaveTypeId
    && h.format.id == FormatId && h.format.fmt == Pcm
    && h.format.channels > 0 && h.format.samplerate > 0 && h.format.framesize > 0
    && h.format.byterate == CalcByterate(h.format)
    && h.format.bitdepth in {16, 24}
    && h.data.id == DataId
  }

  /**
   * wave_header_read(data, siz, hdr). `siz` is the caller's size of `data`;
   * `prev` is the header before the call. On -1 the header is untouched;
   * otherwise it holds the copied bytes, also when they are rejected.
   */
  function Read(data: seq<u8>, siz: u32, prev: WaveHeader): (r: Filled)
    requires siz <= |data|
    ensures r.code in {0, -1, -2}
    ensures r.code == -1 <==> siz < HeaderSize
    ensures r.code == -1 ==> r.hdr == prev
    ensures r.code != -1 ==> r.hdr == Decode(data)
    ensures r.code == 0 <==> siz >= HeaderSize && Acceptable(Decode(data))
  {
    if HeaderSize > siz then Filled(-1, prev)
    else
      var hdr := Decode(data);
      var file, format, hdata := hdr.file, hdr.format, hdr.data;
      if file.typeId != RiffId || file.fmtId != WaveTypeId then Filled(-2, hdr)
      else
        var calcbyterate := CalcByterate(format);
        if || format.id != FormatId || format.fmt != Pcm
           || format.channels <= 0 || format.samplerate <= 0
           || format.framesize <= 0 || format.byterate != calcbyterate
           || (16 != format.bitdepth && 24 != format.bitdepth)
        then Filled(-2, hdr)
        else if hdata.id != DataId then Filled(-2, hdr)
        else Filled(0, hdr)
  }

  // ---------------------------------------------------------------------
  // wave_header_init
  // ---------------------------------------------------------------------

  /**
   * wave_header_init(bitdepth, samplesize, samplerate, nchannels, nframes,
   * header). Its arguments are C ints and its products are computed in int;
   * an overflowing product is taken to wrap around in two's complement.
   * Every field of the header is written; the result is always 0.
   */
  function Init(bitdepth: i32, samplesize: i32, samplerate: i32, nchannels: i32, nframes: i32): (r: Filled)
    ensures r.code == 0
    ensures var n := nchannels * nframes * samplesize;
      && r.hdr.data.size == n % 0x1_0000_0000
      && r.hdr.file.size == (n + HeaderSize - 8) % 0x1_0000_0000
    ensures r.hdr.format.byterate == (samplerate * nchannels * samplesize) % 0x1_0000_0000
    ensures r.hdr.format.framesize == (nchannels * samplesize) % 0x1_0000
    ensures r.hdr.format.size == FormatSize - 8
    ensures r.hdr.format.channels == nchannels % 0x1_0000
    ensures r.hdr.format.samplerate == samplerate % 0x1_0000_0000
    ensures r.hdr.format.bitdepth == bitdepth % 0x1_0000
    ensures r.hdr.file.typeId == RiffId && r.hdr.file.fmtId == WaveTypeId
    ensures r.hdr.format.id == FormatId && r.hdr.format.fmt == Pcm && r.hdr.data.id == DataId
  {
    var dataSize := WrapI32(WrapI32(nchannels * nframes) * samplesize);
    var fileSize := HeaderSize + dataSize;
    var byterate := WrapI32(WrapI32(samplerate * nchannels) * samplesize);
    var framesize := WrapI32(nchannels * samplesize);
    WrapProduct(nchannels * nframes, samplesize);
    WrapProduct(samplerate * nchannels, samplesize);
    SameMod32(fileSize - 8, nchannels * nframes * samplesize + HeaderSize - 8);
    SameMod32(dataSize, nchannels * nframes * samplesize);
    SameMod32(byterate, samplerate * nchannels * samplesize);
    SameMod16(framesize, nchannels * samplesize);
    var file := WaveFile(RiffId, ToU32(fileSize - 8), WaveTypeId);
    var format := WaveFormat(FormatId, FormatSize - 8, Pcm, ToU16(nchannels), ToU32(samplerate),
                             ToU32(byterate), ToU16(framesize), ToU16(bitdepth));
    var hdata := WaveData(DataId, ToU32(dataSize));
    Filled(0, WaveHeader(file, format, hdata))
  }

  /** A product computed with a wrapped first factor wraps to the true product. */
  lemma WrapProduct(a: int, b: int)
    ensures (WrapI32(WrapI32(a) * b) - a * b) % 0x1_0000_0000 == 0
  {
    var m := 0x1_0000_0000;
    var w := WrapI32(a);
    DivMod(w - a, m);
    var k := (w - a) / m;
    assert w * b - a * b == (w - a) * b == m * (k * b);
    DivExact(k * b, m);
    assert m * (k * b) == (k * b) * m;
    var r := WrapI32(w * b);
    DivMod(r - w * b, m);
    var j := (r - w * b) / m;
    assert r - a * b == m * (j + k * b);
    DivExact(j + k * b, m);
    assert m * (j + k * b) == (j + k * b) * m;
  }

  /** Numbers that differ by a multiple of 2^32 have the same uint32_t value. */
  lemma SameMod32(x: int, y: int)
    requires (x - y) % 0x1_0000_0000 == 0
    ensures x % 0x1_0000_0000 == y % 0x1_0000_0000
  {
    var m := 0x1_0000_0000;
    DivMod(x - y, m);
    DivMod(y, m);
    ModUnique(x, m, (x - y) / m + y / m, y % m);
  }

  /** Numbers that differ by a multiple of 2^32 have the same uint16_t value. */
  lemma SameMod16(x: int, y: int)
    requires (x - y) % 0x1_0000_0000 == 0
    ensures x % 0x1_0000 == y % 0x1_0000
  {
    var m := 0x1_0000;
    DivMod(x - y, 0x1_0000_0000);
    DivMod(y, m);
    var k := (x - y) / 0x1_0000_0000;
    assert x == m * (0x1_0000 * k + y / m) + y % m;
    ModUnique(x, m, 0x1_0000 * k + y / m, y % m);
  }

  /**
   * Build then validate: the image of the header `Init` builds is accepted,
   * given positive channels, rate and sample size, a bit depth of 16 or 24,
   * and a frame size that fits the 16-bit field.
   */
  lemma BuildThenValidate(bitdepth: i32, samplesize: i32, samplerate: i32, nchannels: i32,
                          nframes: i32, rest: seq<u8>, prev: WaveHeader)
    requires nchannels > 0 && samplerate > 0 && samplesize > 0
    requires bitdepth == 16 || bitdepth == 24
    requires nchannels * samplesize < 0x1_0000
    ensures var bytes := ToBytes(Init(bitdepth, samplesize, samplerate, nchannels, nframes).hdr) + rest;
      Read(bytes, HeaderSize, prev) == Filled(0, Init(bitdepth, samplesize, samplerate, nchannels, nframes).hdr)
  {
    var h := Init(bitdepth, samplesize, samplerate, nchannels, nframes).hdr;
    DecodeToBytes(h, rest);
    var fs := nchannels * samplesize;
    MulMonotoneU(nchannels, samplesize);
    MulAssoc(samplerate, nchannels, samplesize);
    BuiltFormat(h.format, nchannels, samplerate, fs);
  }

  /**
   * The format statement `Init` writes is consistent once channels, rate and
   * frame size fit their fields.
   */
  lemma BuiltFormat(f: WaveFormat, nch: int, rate: int, fs: int)
    requires 0 < nch <= fs < 0x1_0000 && 0 < rate < 0x8000_0000
    requires f.channels == nch % 0x1_0000 && f.samplerate == rate % 0x1_0000_0000
    requires f.framesize == fs % 0x1_0000 && f.byterate == (rate * fs) % 0x1_0000_0000
    ensures f.channels > 0 && f.samplerate > 0 && f.framesize > 0
    ensures f.byterate == CalcByterate(f)
  {
    assert f.framesize == fs && f.samplerate == rate;
  }

  lemma MulAssoc(a: int, b: int, c: int)
    ensures a * b * c == a * (b * c)
  {
  }

  lemma MulMonotoneU(a: int, b: int)
    requires a > 0 && b > 0
    ensures a <= a * b
  {
    MulBounds(b, a);
    assert b * a == a * b;
  }
}
