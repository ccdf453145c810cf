/**
 * A byte stream over a caller's memory buffer (bstream_t): a cursor `b`
 * into the buffer, the number of bytes `bsiz` left after it, and a mode
 * that allows either reading or writing. `bread` and `bwrite` move whole
 * objects of `obj_siz` bytes and advance the cursor past them.
 *
 * The cursor is modelled as the buffer `buf` and the offset `pos` of `b`
 * in it; `binit` points `b` at the start of the buffer, so `pos` is also
 * the number of bytes consumed so far.
 */
module ByteStream {
  import opened Lc3

  /** bmode_t */
  const ModeNone: u32 := 0
  const ModeRead: u32 := 1
  const ModeWrite: u32 := 2

  /** The number of whole objects `bread`/`bwrite` move: min(bsiz / obj_siz, obj_cnt). */
  function Count(size: nat, objSize: nat, objCount: nat): (k: nat)
    requires objSize > 0
    ensures k <= objCount && k * objSize <= size
    ensures k == objCount || (k + 1) * objSize > size
  {
    Min(size / objSize, objCount)
  }

  lemma NoWholeObject(size: nat, objSize: nat)
    requires objSize > 0
    ensures size / objSize == 0 <==> size < objSize
  {
    if size >= objSize {
      assert size / objSize >= 1 by {
        assert size == (size / objSize) * objSize + size % objSize;
      }
    }
  }

  /** Moving a single object: it goes as a whole or not at all. */
  lemma CountOne(size: nat, objSize: nat)
    requires objSize > 0
    ensures Count(size, objSize, 1) == if size >= objSize then 1 else 0
  {
    NoWholeObject(size, objSize);
  }

  class Stream {
    var buf: array<u8>
    var pos: nat
    var size: u32
    var mode: u32
    /** The size the stream was set up with; consumed + left never changes. */
    ghost var capacity: nat

    ghost predicate Valid()
      reads this
    {
      pos + size == capacity <= buf.Length
    }

    /** The bytes after the cursor. */
    ghost function Remaining(): (s: seq<u8>)
      reads this, buf
      requires Valid()
      ensures |s| == size
    {
      buf[pos..pos + size]
    }

    /** A `bstream_t` that `binit` has not set up yet. */
    constructor ()
      ensures Valid() && mode == ModeNone && size == 0 && fresh(buf)
    {
      buf := new u8[0];
      pos, size, mode := 0, 0, ModeNone;
      capacity := 0;
    }

    /**
     * binit(stream, fin, in_siz, mode): `fin` is null or a buffer of at least
     * `inSize` bytes. On failure the stream is left as it was.
     */
    method Init(fin: array?<u8>, inSize: u32, m: u32) returns (r: int)
      requires Valid()
      requires fin != null ==> inSize <= fin.Length
      modifies this
      ensures Valid()
      ensures r == -1 || r == 0
      ensures r == -1 <==> fin == null || inSize == 0 || m == ModeNone || m > ModeWrite
      ensures r == -1 ==> buf == old(buf) && pos == old(pos) && size == old(size)
                          && mode == old(mode) && capacity == old(capacity)
      ensures r == 0 ==> buf == fin && pos == 0 && size == inSize && mode == m
                         && capacity == inSize && Remaining() == fin[..inSize]
    {
      if fin == null || inSize == 0 || m == ModeNone || ModeWrite < m {
        return -1;
      }
      buf, pos, size, mode := fin, 0, inSize, m;
      capacity := inSize;
      r := 0;
    }

    /**
     * bread(fill, obj_siz, obj_cnt, stream): copies the next whole objects
     * into `fill`. `fill` has room for what is copied and is not the
     * stream's own buffer. The `uint32_t` count is returned as an `int`, so a
     * count from 2^31 on comes back negative.
     */
    method Read(fill: array<u8>, objSize: u32, objCount: u32) returns (r: int)
      requires Valid()
      requires objSize > 0
      requires fill != buf
      requires fill.Length >= Moved(size, objSize, objCount)
      modifies this`pos, this`size, fill
      ensures Valid()
      ensures mode != ModeRead ==> r == -1
      ensures mode == ModeRead && old(size) < objSize ==> r == -2
      ensures mode != ModeRead || old(size) < objSize ==>
        pos == old(pos) && size == old(size) && fill[..] == old(fill[..])
      ensures mode == ModeRead && old(size) >= objSize ==>
        var n := Moved(old(size), objSize, objCount);
        && r == WrapI32(Count(old(size), objSize, objCount))
        && pos == old(pos) + n && size == old(size) - n
        && fill[..n] == old(Remaining())[..n]
        && fill[n..] == old(fill[n..])
        && Remaining() == old(Remaining())[n..]
    {
      if ModeRead != mode {
        return -1;
      }
      var canRead := size / objSize;
      NoWholeObject(size, objSize);
      if canRead == 0 {
        return -2;
      }
      var cnt := if canRead < objCount then canRead else objCount;
      assert cnt == Count(size, objSize, objCount);
      var n := cnt * objSize;
      // memcpy(fill, stream->b, read_siz)
      CopyOut(fill, buf, pos, n);
      pos := pos + n;
      size := size - n;
      r := WrapI32(cnt);
    }

    /**
     * bwrite(data, obj_siz, obj_cnt, stream): copies whole objects from
     * `data` to the cursor; every other byte of the buffer is unchanged. The
     * count is returned as an `int`, as for `bread`.
     */
    method Write(data: seq<u8>, objSize: u32, objCount: u32) returns (r: int)
      requires Valid()
      requires objSize > 0
      requires |data| >= Moved(size, objSize, objCount)
      modifies this`pos, this`size, buf
      ensures Valid()
      ensures mode != ModeWrite ==> r == -1
      ensures mode == ModeWrite && old(size) < objSize ==> r == -2
      ensures mode != ModeWrite || old(size) < objSize ==>
        pos == old(pos) && size == old(size) && buf[..] == old(buf[..])
      ensures mode == ModeWrite && old(size) >= objSize ==>
        var n := Moved(old(size), objSize, objCount);
        && r == WrapI32(Count(old(size), objSize, objCount))
        && pos == old(pos) + n && size == old(size) - n
        && buf[..] == old(buf[..pos]) + data[..n] + old(buf[pos + n..])
    {
      if ModeWrite != mode {
        return -1;
      }
      var canWrite := size / objSize;
      NoWholeObject(size, objSize);
      if canWrite == 0 {
        return -2;
      }
      var cnt := if canWrite < objCount then canWrite else objCount;
      assert cnt == Count(size, objSize, objCount);
      var n := cnt * objSize;
      // memcpy(stream->b, data, write_siz)
      CopyIn(buf, pos, data, n);
      pos := pos + n;
      size := size - n;
      r := WrapI32(cnt);
    }
  }

  /** The bytes `bread`/`bwrite` move: the whole objects that fit, at most obj_cnt. */
  function Moved(size: nat, objSize: nat, objCount: nat): (n: nat)
    requires objSize > 0
    ensures n <= size && n <= objCount * objSize
  {
    var k := Count(size, objSize, objCount);
    assert k * objSize <= objCount * objSize by {
      MulLe(k, objCount, objSize);
    }
    k * objSize
  }

  /** `after` is `before` with `bytes` stored from index `at` on; nothing else differs. */
  ghost predicate Overwritten(before: seq<u8>, after: seq<u8>, at: nat, bytes: seq<u8>) {
    at + |bytes| <= |before| && after == before[..at] + bytes + before[at + |bytes|..]
  }

  /** Writing one 2-byte object, and writing `n` single bytes. */
  lemma MovedUnits(size: nat, n: nat)
    ensures Count(size, 2, 1) == (if size >= 2 then 1 else 0) && Moved(size, 2, 1) == 2 * Count(size, 2, 1)
    ensures Count(size, 1, n) == Min(size, n) && Moved(size, 1, n) == Min(size, n)
  {
  }

  lemma MulLe(a: nat, b: nat, m: nat)
    requires a <= b
    ensures a * m <= b * m
  {
    assert b * m == a * m + (b - a) * m;
  }

  /** memcpy(dst, src + from, n) between two distinct buffers. */
  method CopyOut(dst: array<u8>, src: array<u8>, from: nat, n: nat)
    requires dst != src && n <= dst.Length && from + n <= src.Length
    modifies dst
    ensures dst[..n] == src[from..from + n] && dst[n..] == old(dst[n..])
  {
    var i := 0;
    while i < n
      invariant 0 <= i <= n
      invariant forall j :: 0 <= j < i ==> dst[j] == src[from + j]
      invariant forall j :: i <= j < dst.Length ==> dst[j] == old(dst[j])
    {
      dst[i] := src[from + i];
      i := i + 1;
    }
  }

  /** memcpy(dst + at, data, n): the n bytes land at `at`, nothing else changes. */
  method CopyIn(dst: array<u8>, at: nat, data: seq<u8>, n: nat)
    requires n <= |data| && at + n <= dst.Length
    modifies dst
    ensures dst[..] == old(dst[..at]) + data[..n] + old(dst[at + n..])
  {
    var i := 0;
    while i < n
      invariant 0 <= i <= n
      invariant forall j :: 0 <= j < dst.Length ==>
        dst[j] == if at <= j < at + i then data[j - at] else old(dst[j])
    {
      dst[at + i] := data[i];
      i := i + 1;
    }
    assert dst[..] == old(dst[..at]) + data[..n] + old(dst[at + n..]);
  }
}
