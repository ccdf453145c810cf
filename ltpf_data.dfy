/**
 * LTPF side information in the bitstream: the `lc3_ltpf_data` record
 * (active flag and 9-bit pitch index) and the functions that size, put, get
 * and disable it.
 *
 * The bit writer and reader belong to the codec's bitstream layer and are
 * modelled as ideal bit sequences: `PutBits(v, n)` appends the `n` low bits of
 * `v`, most significant first, and `GetBits(n)` reads them back in the same
 * order; reading past the end yields zero bits.
 */
module LtpfData {
  import opened Lc3

  function Pow2(n: nat): (p: nat)
    ensures p >= 1
  {
    if n == 0 then 1 else 2 * Pow2(n - 1)
  }

  /** The `n` low bits of `v`, most significant first. */
  function ToBits(v: int, n: nat): (s: seq<bool>)
    ensures |s| == n
    decreases n
  {
    if n == 0 then [] else ToBits(v / 2, n - 1) + [v % 2 == 1]
  }

  /** The unsigned value of a bit sequence, most significant first. */
  function FromBits(s: seq<bool>): (v: nat)
    ensures v < Pow2(|s|)
  {
    if |s| == 0 then 0 else 2 * FromBits(s[..|s| - 1]) + (if s[|s| - 1] then 1 else 0)
  }

  /** Reading back `n` written bits gives the written value reduced modulo 2^n. */
  lemma {:induction false} FromToBits(v: int, n: nat)
    ensures FromBits(ToBits(v, n)) == v % Pow2(n)
    decreases n
  {
    if n > 0 {
      var s := ToBits(v, n);
      assert s[..n - 1] == ToBits(v / 2, n - 1);
      assert (if s[n - 1] then 1 else 0) == v % 2;
      FromToBits(v / 2, n - 1);
      ModStep(v, Pow2(n - 1));
    }
  }

  /** Dropping the lowest bit: v mod 2p is twice (v / 2) mod p plus that bit. */
  lemma ModStep(v: int, p: int)
    requires p > 0
    ensures v % (2 * p) == 2 * ((v / 2) % p) + v % 2
  {
    var q, b := v / 2, v % 2;
    DivMod(v, 2);
    DivMod(q, p);
    var k, r := q / p, q % p;
    assert (2 * p) * k == 2 * (p * k);
    ModUnique(v, 2 * p, k, 2 * r + b);
  }

  lemma BitsRoundTrip(v: int, n: nat)
    requires 0 <= v < Pow2(n)
    ensures FromBits(ToBits(v, n)) == v
  {
    FromToBits(v, n);
  }

  /** struct lc3_ltpf_data, which the analysis and `lc3_ltpf_get_data` fill. */
  class Data {
    var active: bool
    var pitchIndex: int

    constructor (active: bool, pitchIndex: int)
      ensures this.active == active && this.pitchIndex == pitchIndex
    {
      this.active, this.pitchIndex := active, pitchIndex;
    }

    /** lc3_ltpf_disable: clears the active flag, nothing else. */
    method Disable()
      modifies this`active
      ensures !active && pitchIndex == old(pitchIndex)
    {
      active := false;
    }
  }

  /**
   * lc3_ltpf_get_nbits(pitch): the pitch-present flag, plus the 10 bits of
   * `Payload` when a pitch is present.
   */
  function GetNbits(pitch: bool): (n: nat)
    ensures n == 1 + (if pitch then |Payload(false, 0)| else 0)
  {
    1 + 10 * (if pitch then 1 else 0)
  }

  /** The bits `lc3_ltpf_put_data` emits: the active bit, then the 9-bit index. */
  function Payload(active: bool, pitchIndex: int): (s: seq<bool>)
    ensures |s| == 10 && s[0] == active
  {
    [active] + ToBits(pitchIndex, 9)
  }

  /** What `lc3_ltpf_get_data` reads from the front of `s`. */
  function ParsePayload(s: seq<bool>): (r: (bool, nat))
    requires |s| >= 10
    ensures r.1 < 512
  {
    assert Pow2(9) == 512;
    (s[0], FromBits(s[1..10]))
  }

  /** Put then get gives back the record, for any 9-bit index. */
  lemma PayloadRoundTrip(active: bool, pitchIndex: int, rest: seq<bool>)
    requires 0 <= pitchIndex < 512
    ensures ParsePayload(Payload(active, pitchIndex) + rest) == (active, pitchIndex)
  {
    var s := Payload(active, pitchIndex) + rest;
    assert s[1..10] == ToBits(pitchIndex, 9);
    assert Pow2(9) == 512;
    BitsRoundTrip(pitchIndex, 9);
  }

  /** Ideal bit writer. */
  class BitWriter {
    var bits: seq<bool>

    constructor ()
      ensures bits == []
    {
      bits := [];
    }

    method PutBit(b: bool)
      modifies this
      ensures bits == old(bits) + [b]
    {
      bits := bits + [b];
    }

    method PutBits(v: int, n: nat)
      modifies this
      ensures bits == old(bits) + ToBits(v, n)
    {
      bits := bits + ToBits(v, n);
    }
  }

  /** Ideal bit reader over `bits`, positioned at `pos`. */
  class BitReader {
    const bits: seq<bool>
    var pos: nat

    constructor (bits: seq<bool>)
      ensures this.bits == bits && pos == 0
    {
      this.bits, pos := bits, 0;
    }

    /** The `n` bits from `pos` on, zero bits past the end. */
    function Window(n: nat): (w: seq<bool>)
      reads this
      ensures |w| == n
      ensures pos + n <= |bits| ==> w == bits[pos..pos + n]
    {
      var p := pos;
      seq(n, i requires 0 <= i < n => p + i < |bits| && bits[p + i])
    }

    method GetBit() returns (b: bool)
      modifies this
      ensures b == old(Window(1))[0] && pos == old(pos) + 1
    {
      b := Window(1)[0];
      pos := pos + 1;
    }

    method GetBits(n: nat) returns (v: nat)
      modifies this
      ensures v == FromBits(old(Window(n))) && pos == old(pos) + n
    {
      v := FromBits(Window(n));
      pos := pos + n;
    }
  }

  /** lc3_ltpf_put_data. */
  method PutData(bw: BitWriter, data: Data)
    modifies bw
    ensures bw.bits == old(bw.bits) + Payload(data.active, data.pitchIndex)
  {
    bw.PutBit(data.active);
    bw.PutBits(data.pitchIndex, 9);
  }

  /** lc3_ltpf_get_data. */
  method GetData(br: BitReader, data: Data)
    modifies br, data
    ensures br.pos == old(br.pos) + 10
    ensures (data.active, data.pitchIndex) == ParsePayload(old(br.Window(10)))
  {
    ghost var w := br.Window(10);
    data.active := br.GetBit();
    assert data.active == w[0];
    assert br.Window(9) == w[1..10];
    data.pitchIndex := br.GetBits(9);
  }

  /**
   * Writing a record and reading it back from the written bits restores it,
   * for any 9-bit index.
   */
  method PutThenGet(active: bool, pitchIndex: int) returns (got: Data)
    requires 0 <= pitchIndex < 512
    ensures got.active == active && got.pitchIndex == pitchIndex
  {
    var bw := new BitWriter();
    var sent := new Data(active, pitchIndex);
    PutData(bw, sent);
    var br := new BitReader(bw.bits);
    ghost var payload := Payload(active, pitchIndex);
    assert br.Window(10) == payload;
    PayloadRoundTrip(active, pitchIndex, []);
    assert payload + [] == payload;
    got := new Data(false, 0);
    GetData(br, got);
  }
}
