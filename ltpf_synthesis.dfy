/**
 * The decision logic of the LTPF synthesis (`lc3_ltpf_synthesize` and
 * `synthesize_template`): the filter parameters derived from the side
 * information and the frame size, the choice of filter calls that handle the
 * transition from the previous frame, and the index arithmetic on the ring
 * buffer of past output samples.
 *
 * The coefficient tables and the filter arithmetic are inputs: `cden` and
 * `cnum` stand for the current rate's rows of `lc3_ltpf_cden` and
 * `lc3_ltpf_cnum`, and a `Filter` gives the output sample a filter call
 * computes from its arguments and the ring's contents.
 */
module LtpfSynthesis {
  import opened Lc3
  import opened LtpfIndex

  /**
   * C's `/` on int for a positive divisor: the quotient truncated towards
   * zero, so the remainder a - b q has the sign of `a` and is smaller than `b`
   * in magnitude (Dafny's own `/` is Euclidean).
   */
  function CDiv(a: int, b: int): (q: int)
    requires b > 0
    ensures a >= 0 ==> 0 <= a - b * q < b
    ensures a < 0 ==> -b < a - b * q <= 0
  {
    if a >= 0 then DivMod(a, b); a / b
    else DivMod(-a, b); -((-a) / b)
  }

  // ---------------------------------------------------------------------
  // Filter parameters
  // ---------------------------------------------------------------------

  /**
   * The side information `lc3_ltpf_synthesize` receives: a null pointer when
   * no pitch was transmitted, or the decoded record.
   */
  datatype Side = NoPitch | Pitch(active: bool, pitchIndex: int)

  /** The pitch index used: the side information's, or 0 without it. */
  function PitchIndexOf(data: Side): int {
    if data.Pitch? then data.pitchIndex else 0
  }

  /** The pitch lag at the output rate, in quarter samples: (p * khz * 10 + 64) / 128. */
  function ScaledPitch(pIdx: int, sr: SampleRate): int {
    CDiv(DecodePitch(pIdx) * sr.Khz() * 10 + 64, 128)
  }

  /**
   * A 9-bit index gives a lag of at least one sample per 100 Hz of the
   * sample rate (so at least 20 whole samples), and at most the scaled
   * longest lag.
   */
  lemma ScaledPitchRange(pIdx: int, sr: SampleRate)
    requires 0 <= pIdx < 512
    ensures sr.Khz() * 10 <= ScaledPitch(pIdx, sr) <= (915 * sr.Khz() * 10 + 64) / 128
    ensures ScaledPitch(pIdx, sr) / 4 >= 20
  {
    EncodeDecode(pIdx);
    var p := DecodePitch(pIdx);
    var k := sr.Khz() * 10;
    assert p * sr.Khz() * 10 == p * k;
    MulMonotone(128, p, k);
    MulMonotone(p, 915, k);
    ModUnique(128 * k + 64, 128, k, 64);
    DivMonotone(128 * k + 64, p * k + 64, 128);
    DivMonotone(p * k + 64, 915 * k + 64, 128);
  }

  lemma MulMonotone(a: int, b: int, k: int)
    requires a <= b && k >= 0
    ensures a * k <= b * k
  {
    if a < b && k > 0 {
      MulBounds(b - a, k);
      assert b * k - a * k == (b - a) * k;
    }
  }

  lemma DivMonotone(a: int, b: int, m: int)
    requires 0 <= a <= b && m > 0
    ensures a / m <= b / m
  {
    DivMod(a, m);
    DivMod(b, m);
    MulBounds(a / m - b / m, m);
  }

  /**
   * The bitrate in bits per frame of 10 ms: (nbytes * 8 * 10000 + dt_us / 2)
   * / dt_us. From nbytes = 26844 on the numerator overflows a 32-bit int,
   * which C leaves undefined; the model takes it to wrap. Frames of at most
   * 400 bytes stay far inside `int`.
   */
  function Nbits(dt: Duration, nbytes: i32): int {
    CDiv(WrapI32(nbytes * 8 * 10000 + dt.Us() / 2), dt.Us())
  }

  /** `g_idx`: how many steps of 80 bits the bitrate is above the rate's lowest gain step. */
  function GainIndex(dt: Duration, sr: SampleRate, nbytes: i32): (g: int)
    ensures g >= 0
    ensures g == 0 <==> CDiv(Nbits(dt, nbytes), 80) <= 3 + sr.Ordinal()
    ensures g > 0 ==> g == CDiv(Nbits(dt, nbytes), 80) - (3 + sr.Ordinal())
  {
    Max(CDiv(Nbits(dt, nbytes), 80), 3 + sr.Ordinal()) - (3 + sr.Ordinal())
  }

  /** The filter is on when the side information says so and the gain index is below 4. */
  function FilterActive(data: Side, gIdx: int): bool {
    data.Pitch? && data.active && gIdx < 4
  }

  /** The filter width w = max(4, khz / 4). */
  function Width(sr: SampleRate): (w: nat)
    ensures 4 <= w <= 12
  {
    Max(4, sr.Khz() / 4)
  }

  /** The width of the filter the `synthesize` table dispatches to for each rate. */
  function TableWidth(sr: SampleRate): nat {
    match sr
    case Sr8K => 4
    case Sr16K => 4
    case Sr24K => 6
    case Sr32K => 8
    case Sr48K => 12
  }

  /** The computed width and the dispatch table agree on every rate. */
  lemma WidthMatchesTable(sr: SampleRate)
    ensures Width(sr) == TableWidth(sr)
  {
  }

  /** Samples per frame `ns` and the transition length `nt = ns / (3 + dt)`. */
  function TransitionLength(dt: Duration, sr: SampleRate): (nt: nat)
    ensures dt == Dt7M5 ==> 3 * nt == Ns(dt, sr)
    ensures dt == Dt10M ==> 4 * nt == Ns(dt, sr)
  {
    Ns(dt, sr) / (3 + dt.Ordinal())
  }

  /**
   * Both parts of the frame are whole multiples of the filter width, so
   * `synthesize_template`'s blocks of w samples cover each part exactly; and
   * the w - 1 samples saved at the end of the frame and copied before the
   * remainder lie outside the transition.
   */
  lemma FrameSplit(dt: Duration, sr: SampleRate)
    ensures SplitsEvenly(Ns(dt, sr), TransitionLength(dt, sr), Width(sr))
  {
    if dt == Dt7M5 {
      FrameSplitShort(sr);
    } else {
      FrameSplitLong(sr);
    }
  }

  /** The frame split above, as a property of the three lengths. */
  predicate SplitsEvenly(ns: int, nt: int, w: int) {
    && w > 0
    && nt % w == 0 && (ns - nt) % w == 0
    && w - 1 <= nt <= ns - (w - 1)
  }

  lemma FrameSplitShort(sr: SampleRate)
    ensures SplitsEvenly(Ns(Dt7M5, sr), TransitionLength(Dt7M5, sr), Width(sr))
  {
    var ns, nt := Ns(Dt7M5, sr), TransitionLength(Dt7M5, sr);
    match sr
    case Sr8K => assert ns == 60 && nt == 20 && Width(sr) == 4; assert SplitsEvenly(60, 20, 4);
    case Sr16K => assert ns == 120 && nt == 40 && Width(sr) == 4; assert SplitsEvenly(120, 40, 4);
    case Sr24K => assert ns == 180 && nt == 60 && Width(sr) == 6; assert SplitsEvenly(180, 60, 6);
    case Sr32K => assert ns == 240 && nt == 80 && Width(sr) == 8; assert SplitsEvenly(240, 80, 8);
    case Sr48K => assert ns == 360 && nt == 120 && Width(sr) == 12; assert SplitsEvenly(360, 120, 12);
  }

  lemma FrameSplitLong(sr: SampleRate)
    ensures SplitsEvenly(Ns(Dt10M, sr), TransitionLength(Dt10M, sr), Width(sr))
  {
    var ns, nt := Ns(Dt10M, sr), TransitionLength(Dt10M, sr);
    match sr
    case Sr8K => assert ns == 80 && nt == 20 && Width(sr) == 4; assert SplitsEvenly(80, 20, 4);
    case Sr16K => assert ns == 160 && nt == 40 && Width(sr) == 4; assert SplitsEvenly(160, 40, 4);
    case Sr24K => assert ns == 240 && nt == 60 && Width(sr) == 6; assert SplitsEvenly(240, 60, 6);
    case Sr32K => assert ns == 320 && nt == 80 && Width(sr) == 8; assert SplitsEvenly(320, 80, 8);
    case Sr48K => assert ns == 480 && nt == 120 && Width(sr) == 12; assert SplitsEvenly(480, 120, 12);
  }

  // ---------------------------------------------------------------------
  // Coefficients
  // ---------------------------------------------------------------------

  /** The table has one row of numerator coefficients per gain index 0 .. 3. */
  const NumRows: int := 4

  /** The row of `lc3_ltpf_cnum` the source reads: `g_idx` itself. */
  function NumRowAsWritten(gIdx: int): int {
    gIdx
  }

  /**
   * The row index the source reads leaves the table on ordinary input: at
   * 48 kHz, 10 ms and 155 bytes per frame, g_idx is 8 (the filter is off, but
   * the read happens before the gain of 0 applies).
   */
  lemma NumRowAsWrittenLeavesTable()
    ensures GainIndex(Dt10M, Sr48K, 155) == 8
    ensures !(0 <= NumRowAsWritten(GainIndex(Dt10M, Sr48K, 155)) < NumRows)
  {
  }

  /** The row read with the index clamped to the table: min(g_idx, 3). */
  function NumRow(gIdx: int): int {
    Min(gIdx, NumRows - 1)
  }

  /**
   * The clamped row is always in the table and is the row the source reads
   * whenever the filter is active, so the coefficients that matter are
   * unchanged.
   */
  lemma NumRowInTable(data: Side, gIdx: int)
    requires gIdx >= 0
    ensures 0 <= NumRow(gIdx) < NumRows
    ensures FilterActive(data, gIdx) ==> NumRow(gIdx) == NumRowAsWritten(gIdx)
  {
  }

  /** The single-precision literals 0.4f, 0.05f and 0.85f of the gain, at their exact values. */
  const GainBase: real := 0.4000000059604644775390625
  const GainStep: real := 0.0500000007450580596923828125
  const NumScale: real := 0.85000002384185791015625

  /** The gain `g`: 0.4f - 0.05f g_idx when active, 0 otherwise. */
  function Gain(active: bool, gIdx: int): real {
    if active then GainBase - GainStep * (gIdx as real) else 0.0
  }

  /**
   * Coefficient `i` of the 2w the filter uses: the `cden` row of the pitch's
   * phase in reverse order scaled by g, then the `cnum` row of the gain
   * index in reverse order scaled by 0.85f g. `cden(f, k)` and `cnum(g, k)`
   * stand for `lc3_ltpf_cden[sr][f][k]` and `lc3_ltpf_cnum[sr][g][k]`.
   */
  function Coefficient(w: nat, active: bool, gIdx: int, pitch: int,
                       cden: (int, int) -> real, cnum: (int, int) -> real, i: int): (r: real)
    requires 0 <= i < 2 * w
    ensures !active ==> r == 0.0
  {
    var g := Gain(active, gIdx);
    if i < w then g * cden(pitch % 4, (w - 1) - i)
    else NumScale * g * cnum(NumRow(gIdx), (w - 1) - (i - w))
  }

  /** The 2w coefficients of a filter. */
  function CoefficientSeq(w: nat, active: bool, gIdx: int, pitch: int,
                          cden: (int, int) -> real, cnum: (int, int) -> real): (c: seq<real>)
    ensures |c| == 2 * w
  {
    seq(2 * w, i requires 0 <= i < 2 * w => Coefficient(w, active, gIdx, pitch, cden, cnum, i))
  }

  /** The coefficient loop of lc3_ltpf_synthesize, filling `float c[2*w]`. */
  method ComputeCoefficients(w: nat, active: bool, gIdx: int, pitch: int,
                             cden: (int, int) -> real, cnum: (int, int) -> real) returns (c: seq<real>)
    ensures c == CoefficientSeq(w, active, gIdx, pitch, cden, cnum)
  {
    c := seq(2 * w, _ => 0.0);
    for i := 0 to w
      invariant |c| == 2 * w
      invariant forall k :: 0 <= k < i ==> c[k] == Coefficient(w, active, gIdx, pitch, cden, cnum, k)
      invariant forall k :: w <= k < w + i ==> c[k] == Coefficient(w, active, gIdx, pitch, cden, cnum, k)
    {
      var g := if active then GainBase - GainStep * (gIdx as real) else 0.0;
      c := c[i := g * cden(pitch % 4, (w - 1) - i)];
      c := c[w + i := NumScale * g * cnum(NumRow(gIdx), (w - 1) - i)];
    }
  }

  // ---------------------------------------------------------------------
  // Ring buffer indexing
  // ---------------------------------------------------------------------

  /**
   * Where `synthesize_template` starts reading past output: `lag` samples
   * before the frame position `pos` in a ring of `nr` samples.
   */
  function RingStart(pos: int, lag: int, nr: int): int {
    if pos < lag then pos + (nr - lag) else pos - lag
  }

  /** `y < y_end ? y + 1 : xr`: the next position in the ring. */
  function RingNext(y: int, nr: int): int {
    if y < nr - 1 then y + 1 else 0
  }

  lemma RingStartInRing(pos: int, lag: int, nr: int)
    requires 0 <= pos < nr && 0 <= lag <= nr
    ensures 0 <= RingStart(pos, lag, nr) < nr
    ensures RingStart(pos, lag, nr) == (pos - lag) % nr
  {
    if pos < lag {
      ModUnique(pos - lag, nr, -1, pos + (nr - lag));
    } else {
      ModUnique(pos - lag, nr, 0, pos - lag);
    }
  }

  lemma RingNextInRing(y: int, nr: int)
    requires 0 <= y < nr
    ensures 0 <= RingNext(y, nr) < nr
    ensures RingNext(y, nr) == (y + 1) % nr
  {
    if y < nr - 1 {
      ModUnique(y + 1, nr, 0, y + 1);
    } else {
      ModUnique(y + 1, nr, 1, 0);
    }
  }

  /**
   * The ring positions `synthesize_template` reads, in order: it starts
   * `lag + w / 2` before `pos` and advances once per sample for the w - 1
   * samples of the preload and the n samples of the filter.
   */
  method ReadPositions(pos: int, lag: int, w: nat, n: nat, nr: int) returns (ys: seq<int>)
    requires 0 <= pos < nr && 0 <= lag && lag + w / 2 <= nr && w >= 1
    ensures |ys| == (w - 1) + n
    ensures forall k :: 0 <= k < |ys| ==> 0 <= ys[k] < nr && ys[k] == (pos - (lag + w / 2) + k) % nr
  {
    var l := lag + w / 2;
    var y := RingStart(pos, l, nr);
    RingStartInRing(pos, l, nr);
    ys := [];
    while |ys| < (w - 1) + n
      invariant |ys| <= (w - 1) + n
      invariant 0 <= y < nr && y == (pos - l + |ys|) % nr
      invariant forall k :: 0 <= k < |ys| ==> 0 <= ys[k] < nr && ys[k] == (pos - l + k) % nr
    {
      ys := ys + [y];
      RingNextInRing(y, nr);
      ModNext(pos - l + |ys| - 1, nr);
      y := RingNext(y, nr);
    }
  }

  lemma ModNext(v: int, nr: int)
    requires nr > 0
    ensures (v + 1) % nr == (v % nr + 1) % nr
  {
    DivMod(v, nr);
    DivMod(v % nr + 1, nr);
    var q, r := v / nr, v % nr;
    var q', r' := (r + 1) / nr, (r + 1) % nr;
    assert v + 1 == nr * (q + q') + r' by {
      assert nr * (q + q') == nr * q + nr * q';
    }
    ModUnique(v + 1, nr, q + q', r');
  }

  /**
   * The start of the w - 1 samples before the frame that the pitch change
   * hands to the fade-in: `(x <= xr ? x + nr : x) - (w - 1)`.
   */
  function CrossfadeStart(pos: int, w: int, nr: int): int {
    (if pos <= 0 then pos + nr else pos) - (w - 1)
  }

  /**
   * Where the pointer arithmetic stays in the ring: at the ring's start, or
   * with at least w - 1 samples before the frame.
   */
  predicate CrossfadeInRing(pos: int, w: int, nr: int) {
    0 <= pos < nr && 1 <= w && w - 1 <= nr && (pos == 0 || pos >= w - 1)
  }

  /**
   * The cross-fade history is the w - 1 samples that precede the frame in
   * the ring, wrapping round its start.
   */
  lemma CrossfadeWraps(pos: int, w: int, ring: seq<real>)
    requires CrossfadeInRing(pos, w, |ring|)
    ensures var s := CrossfadeStart(pos, w, |ring|);
      && 0 <= s && s + (w - 1) <= |ring|
      && ring[s..s + (w - 1)] == seq(w - 1, k requires 0 <= k < w - 1 => ring[(pos - (w - 1) + k) % |ring|])
  {
    var nr := |ring|;
    var s := CrossfadeStart(pos, w, nr);
    var before := ring[s..s + (w - 1)];
    forall k | 0 <= k < w - 1
      ensures before[k] == ring[(pos - (w - 1) + k) % nr]
    {
      CrossfadeIndex(pos, w, nr, k);
    }
  }

  lemma CrossfadeIndex(pos: int, w: int, nr: int, k: int)
    requires CrossfadeInRing(pos, w, nr) && 0 <= k < w - 1
    ensures CrossfadeStart(pos, w, nr) + k == (pos - (w - 1) + k) % nr
  {
    var s := CrossfadeStart(pos, w, nr);
    if pos == 0 {
      ModUnique(pos - (w - 1) + k, nr, -1, s + k);
    } else {
      ModUnique(pos - (w - 1) + k, nr, 0, s + k);
    }
  }

  // ---------------------------------------------------------------------
  // Filter calls and the transition
  // ---------------------------------------------------------------------

  /** The `fade` argument: -1 fades the filter out, 1 fades it in, 0 keeps it. */
  datatype Fade = FadeOut | Steady | FadeIn

  /** The `x0` argument: given samples, or the w - 1 ring samples before the frame. */
  datatype Inputs = Given(samples: seq<real>) | BeforeFrame

  /** One call of the filter on `len` samples from `start` within the frame. */
  datatype FilterCall = FilterCall(lag: int, x0: Inputs, start: nat, len: nat, c: seq<real>, fade: Fade)

  /**
   * The output sample `k` of a call, given the call, its `x0` samples and
   * the ring's contents when it starts.
   */
  type Filter = (FilterCall, seq<real>, seq<real>, int) -> real

  /** The `x0` samples a call reads from `ring`. */
  function X0Of(call: FilterCall, ring: seq<real>, pos: int, w: int): seq<real>
    requires call.x0.BeforeFrame? ==> CrossfadeInRing(pos, w, |ring|)
  {
    if call.x0.Given? then call.x0.samples
    else
      var s := CrossfadeStart(pos, w, |ring|);
      ring[s..s + (w - 1)]
  }

  /** A call fits the frame at `pos` and the ring. */
  predicate Fits(call: FilterCall, ring: seq<real>, pos: nat, w: int) {
    && pos + call.start + call.len <= |ring|
    && (call.x0.BeforeFrame? ==> CrossfadeInRing(pos, w, |ring|))
  }

  /** The ring after one call: its samples are replaced, nothing else changes. */
  function Apply(call: FilterCall, ring: seq<real>, pos: nat, w: int, filter: Filter): (out: seq<real>)
    requires Fits(call, ring, pos, w)
    ensures |out| == |ring|
  {
    var x0 := X0Of(call, ring, pos, w);
    var lo := pos + call.start;
    seq(|ring|, i requires 0 <= i < |ring| =>
      if lo <= i < lo + call.len then filter(call, x0, ring, i - lo) else ring[i])
  }

  /** One call changes only its own samples. */
  lemma ApplyOutside(call: FilterCall, ring: seq<real>, pos: nat, w: int, filter: Filter, i: int)
    requires Fits(call, ring, pos, w)
    requires 0 <= i < |ring| && !(pos + call.start <= i < pos + call.start + call.len)
    ensures Apply(call, ring, pos, w, filter)[i] == ring[i]
  {
  }

  predicate AllFit(calls: seq<FilterCall>, nr: nat, pos: nat, w: int) {
    forall k :: 0 <= k < |calls| ==>
      pos + calls[k].start + calls[k].len <= nr
      && (calls[k].x0.BeforeFrame? ==> CrossfadeInRing(pos, w, nr))
  }

  /** The calls applied in order. */
  function Run(calls: seq<FilterCall>, ring: seq<real>, pos: nat, w: int, filter: Filter): (out: seq<real>)
    requires AllFit(calls, |ring|, pos, w)
    ensures |out| == |ring|
    decreases |calls|
  {
    if |calls| == 0 then ring
    else Run(calls[1..], Apply(calls[0], ring, pos, w, filter), pos, w, filter)
  }

  /** Calls that stay within [lo, hi) of the frame leave every other sample as it was. */
  lemma {:induction false} RunOutside(calls: seq<FilterCall>, ring: seq<real>, pos: nat, w: int,
                                      filter: Filter, lo: nat, hi: nat, i: int)
    requires AllFit(calls, |ring|, pos, w)
    requires forall k :: 0 <= k < |calls| ==> lo <= calls[k].start && calls[k].start + calls[k].len <= hi
    requires 0 <= i < |ring| && !(pos + lo <= i < pos + hi)
    ensures Run(calls, ring, pos, w, filter)[i] == ring[i]
    decreases |calls|
  {
    if |calls| > 0 {
      var next := Apply(calls[0], ring, pos, w, filter);
      ApplyOutside(calls[0], ring, pos, w, filter, i);
      RunOutside(calls[1..], next, pos, w, filter, lo, hi, i);
    }
  }

  lemma {:induction false} RunAppend(a: seq<FilterCall>, b: seq<FilterCall>, ring: seq<real>, pos: nat, w: int, filter: Filter)
    requires AllFit(a + b, |ring|, pos, w)
    ensures AllFit(a, |ring|, pos, w)
    ensures AllFit(b, |Run(a, ring, pos, w, filter)|, pos, w)
    ensures Run(a + b, ring, pos, w, filter) == Run(b, Run(a, ring, pos, w, filter), pos, w, filter)
    decreases |a|
  {
    AllFitSplit(a, b, |ring|, pos, w);
    if |a| == 0 {
      assert a + b == b;
    } else {
      var ring1 := Apply(a[0], ring, pos, w, filter);
      assert (a + b)[0] == a[0];
      assert (a + b)[1..] == a[1..] + b;
      RunAppend(a[1..], b, ring1, pos, w, filter);
    }
  }

  /** Both parts of a fitting sequence of calls fit. */
  lemma AllFitSplit(a: seq<FilterCall>, b: seq<FilterCall>, nr: nat, pos: nat, w: int)
    requires AllFit(a + b, nr, pos, w)
    ensures AllFit(a, nr, pos, w) && AllFit(b, nr, pos, w)
  {
    forall k | 0 <= k < |a| ensures (a + b)[k] == a[k] { }
    forall k | 0 <= k < |b| ensures (a + b)[|a| + k] == b[k] { }
  }

  /**
   * The calls over the first `nt` samples, chosen by the previous and the
   * new activity and pitch: fade in the new filter, fade out the previous
   * one, keep a steady filter, or on a pitch change fade the previous one
   * out and the new one in from the samples before the frame. Nothing is
   * filtered when the filter stays off.
   */
  function Transition(prevActive: bool, active: bool, prevPitch: int, pitch: int,
                      prevC: seq<real>, c: seq<real>, saved: seq<real>, nt: nat): seq<FilterCall>
  {
    if !prevActive && active then
      [FilterCall(CDiv(pitch, 4), Given(saved), 0, nt, c, FadeIn)]
    else if prevActive && !active then
      [FilterCall(CDiv(prevPitch, 4), Given(saved), 0, nt, prevC, FadeOut)]
    else if prevActive && active && prevPitch == pitch then
      [FilterCall(CDiv(pitch, 4), Given(saved), 0, nt, c, Steady)]
    else if prevActive && active then
      [FilterCall(CDiv(prevPitch, 4), Given(saved), 0, nt, prevC, FadeOut),
       FilterCall(CDiv(pitch, 4), BeforeFrame, 0, nt, c, FadeIn)]
    else []
  }

  /** The call on the rest of the frame, made only when the filter is on. */
  function Remainder(active: bool, pitch: int, c: seq<real>, x0: seq<real>, nt: nat, ns: nat): seq<FilterCall>
    requires nt <= ns
  {
    if active then [FilterCall(CDiv(pitch, 4), Given(x0), nt, ns - nt, c, Steady)] else []
  }

  /**
   * The transition: no call exactly when the filter stays off; otherwise
   * every call covers the first `nt` samples, the last one is the filter
   * that ends up in use (the new one when active, the previous one faded out
   * otherwise), and a previous filter is faded out exactly when the
   * activity or the pitch changes.
   */
  lemma TransitionShape(prevActive: bool, active: bool, prevPitch: int, pitch: int,
                        prevC: seq<real>, c: seq<real>, saved: seq<real>, nt: nat)
    ensures var t := Transition(prevActive, active, prevPitch, pitch, prevC, c, saved, nt);
      && (|t| == 0 <==> !prevActive && !active)
      && (|t| == 2 <==> prevActive && active && prevPitch != pitch)
      && (forall k :: 0 <= k < |t| ==> t[k].start == 0 && t[k].len == nt)
      && (|t| > 0 ==>
            && (active ==> t[|t| - 1] == FilterCall(CDiv(pitch, 4), t[|t| - 1].x0, 0, nt, c, t[|t| - 1].fade)
                           && t[|t| - 1].fade != FadeOut)
            && (!active ==> t[|t| - 1] == FilterCall(CDiv(prevPitch, 4), Given(saved), 0, nt, prevC, FadeOut))
            && (t[0].fade == FadeOut <==> prevActive && (!active || prevPitch != pitch))
            && (t[0].fade == FadeIn <==> !prevActive))
  {
  }

  /** What `lc3_ltpf_synthesize` derives from the frame and the side information. */
  datatype Params = Params(on: bool, pitch: int, gIdx: int, w: nat, ns: nat, nt: nat)

  /**
   * The parameters of one frame: the filter is on as `FilterActive` says,
   * the pitch is the scaled decoded index, and the frame splits at `nt`.
   */
  function ParamsOf(dt: Duration, sr: SampleRate, nbytes: i32, data: Side): (q: Params)
    ensures q.w == Width(sr) && q.ns == Ns(dt, sr) && q.nt == TransitionLength(dt, sr)
    ensures q.gIdx == GainIndex(dt, sr, nbytes) && q.on == FilterActive(data, q.gIdx)
    ensures q.w - 1 <= q.nt <= q.ns - (q.w - 1)
  {
    FrameSplit(dt, sr);
    var gIdx := GainIndex(dt, sr, nbytes);
    var on := data.Pitch? && data.active && gIdx < 4;
    var p := ScaledPitch(PitchIndexOf(data), sr);
    Params(on, p, gIdx, Width(sr), Ns(dt, sr), TransitionLength(dt, sr))
  }

  /** `after` is the ring `before` once the calls have run in order on the frame at `pos`. */
  ghost predicate Filtered(before: seq<real>, after: seq<real>, calls: seq<FilterCall>, pos: nat, w: int, filter: Filter) {
    AllFit(calls, |before|, pos, w) && after == Run(calls, before, pos, w, filter)
  }

  /**
   * The frame at `pos` of ring `before` became `after` by the plan of a frame
   * with parameters `q`: the previous activity, pitch and coefficients
   * `prevC`, the saved inputs at the head of `hist`, the remainder's inputs
   * before it taken from `before`, and the new coefficients.
   */
  ghost predicate FrameFiltered(before: seq<real>, after: seq<real>, q: Params, prevActive: bool, prevPitch: int,
                                prevC: seq<real>, hist: seq<real>, pos: nat,
                                cden: (int, int) -> real, cnum: (int, int) -> real, filter: Filter) {
    && 1 <= q.w && q.w - 1 <= q.nt <= q.ns && pos + q.ns <= |before| && q.w - 1 <= |hist|
    && var x0 := if q.on then before[pos + q.nt - (q.w - 1)..pos + q.nt] else [];
      var coef := CoefficientSeq(q.w, q.on, q.gIdx, q.pitch, cden, cnum);
      Filtered(before, after, Plan(prevActive, q.on, prevPitch, q.pitch, prevC, coef, hist[..q.w - 1], x0, q.nt, q.ns), pos, q.w, filter)
  }

  /** All the calls on one frame: the transition, then the remainder. */
  function Plan(prevActive: bool, active: bool, prevPitch: int, pitch: int,
                prevC: seq<real>, c: seq<real>, saved: seq<real>, x0: seq<real>, nt: nat, ns: nat): seq<FilterCall>
    requires nt <= ns
  {
    Transition(prevActive, active, prevPitch, pitch, prevC, c, saved, nt) + Remainder(active, pitch, c, x0, nt, ns)
  }

  /**
   * The calls stay in the frame: the transition within its first `nt`
   * samples, the remainder within [nt, ns).
   */
  lemma PlanFits(prevActive: bool, active: bool, prevPitch: int, pitch: int,
                 prevC: seq<real>, c: seq<real>, saved: seq<real>, x0: seq<real>,
                 nt: nat, ns: nat, nr: nat, pos: nat, w: int)
    requires nt <= ns && pos + ns <= nr && CrossfadeInRing(pos, w, nr)
    ensures var t := Transition(prevActive, active, prevPitch, pitch, prevC, c, saved, nt);
      && AllFit(Plan(prevActive, active, prevPitch, pitch, prevC, c, saved, x0, nt, ns), nr, pos, w)
      && (forall k :: 0 <= k < |t| ==> 0 <= t[k].start && t[k].start + t[k].len <= nt)
      && (forall k :: 0 <= k < |Remainder(active, pitch, c, x0, nt, ns)| ==>
            nt <= Remainder(active, pitch, c, x0, nt, ns)[k].start
            && Remainder(active, pitch, c, x0, nt, ns)[k].start + Remainder(active, pitch, c, x0, nt, ns)[k].len <= ns)
  {
  }

  /** Synthesis writes only the frame: every ring sample outside [pos, pos + ns) keeps its value. */
  lemma PlanStaysInFrame(before: seq<real>, after: seq<real>, prevActive: bool, active: bool,
                         prevPitch: int, pitch: int, prevC: seq<real>, c: seq<real>,
                         saved: seq<real>, x0: seq<real>, nt: nat, ns: nat, pos: nat, w: int,
                         filter: Filter, i: int)
    requires nt <= ns && pos + ns <= |before| && CrossfadeInRing(pos, w, |before|)
    requires Filtered(before, after, Plan(prevActive, active, prevPitch, pitch, prevC, c, saved, x0, nt, ns), pos, w, filter)
    requires 0 <= i < |before| && !(pos <= i < pos + ns)
    ensures after[i] == before[i]
  {
    var t := Transition(prevActive, active, prevPitch, pitch, prevC, c, saved, nt);
    var r := Remainder(active, pitch, c, x0, nt, ns);
    var plan := t + r;
    PlanFits(prevActive, active, prevPitch, pitch, prevC, c, saved, x0, nt, ns, |before|, pos, w);
    forall k | 0 <= k < |plan|
      ensures 0 <= plan[k].start && plan[k].start + plan[k].len <= ns
    {
      if k >= |t| {
        assert plan[k] == r[k - |t|];
      }
    }
    RunOutside(plan, before, pos, w, filter, 0, ns, i);
  }

  /** A filter that stays off leaves the frame as it was. */
  lemma StaysOffLeavesFrame(before: seq<real>, after: seq<real>, prevPitch: int, pitch: int,
                            prevC: seq<real>, c: seq<real>, saved: seq<real>, x0: seq<real>,
                            nt: nat, ns: nat, pos: nat, w: int, filter: Filter)
    requires nt <= ns
    requires Filtered(before, after, Plan(false, false, prevPitch, pitch, prevC, c, saved, x0, nt, ns), pos, w, filter)
    ensures after == before
  {
    assert Plan(false, false, prevPitch, pitch, prevC, c, saved, x0, nt, ns) == [];
  }

  lemma RunOne(call: FilterCall, ring: seq<real>, pos: nat, w: int, filter: Filter)
    requires Fits(call, ring, pos, w)
    ensures AllFit([call], |ring|, pos, w)
    ensures Run([call], ring, pos, w, filter) == Apply(call, ring, pos, w, filter)
  {
    assert [call][1..] == [];
  }

  // ---------------------------------------------------------------------
  // Synthesis state
  // ---------------------------------------------------------------------

  /** struct lc3_ltpf_synthesis. */
  class Synthesis {
    var active: bool
    var pitch: int
    const c: array<real>
    const x: array<real>

    ghost predicate Valid()
      reads this
    {
      c.Length == 2 * 12 && x.Length == 12 && c != x
    }

    /**
     * The state holds what a frame with parameters `q` stores: its activity,
     * pitch and coefficients, and at the head of `x` the frame's last w - 1
     * input samples in `before`; the rest of `c` and `x` keeps `prevC` and `prevX`.
     */
    ghost predicate Stored(q: Params, prevC: seq<real>, prevX: seq<real>, before: seq<real>, pos: nat,
                           cden: (int, int) -> real, cnum: (int, int) -> real)
      reads this, c, x
    {
      && Valid() && active == q.on && pitch == q.pitch
      && 1 <= q.w <= 12 && q.w - 1 <= q.ns && pos + q.ns <= |before|
      && |prevC| == c.Length && |prevX| == x.Length
      && c[..2 * q.w] == CoefficientSeq(q.w, q.on, q.gIdx, q.pitch, cden, cnum) && c[2 * q.w..] == prevC[2 * q.w..]
      && x[..q.w - 1] == before[pos + q.ns - (q.w - 1)..pos + q.ns] && x[q.w - 1..] == prevX[q.w - 1..]
    }

    /** A freshly set up synthesis: inactive, no history. */
    constructor ()
      ensures Valid() && !active && pitch == 0
      ensures forall i :: 0 <= i < c.Length ==> c[i] == 0.0
      ensures forall i :: 0 <= i < x.Length ==> x[i] == 0.0
    {
      active, pitch := false, 0;
      c := new real[24](_ => 0.0);
      x := new real[12](_ => 0.0);
    }

    /**
     * lc3_ltpf_synthesize(dt, sr, nbytes, ltpf, data, xr, x). The ring `xr`
     * holds the frame at offset `pos`. The frame samples become the result of the planned
     * calls; the state keeps the w - 1 input samples at the end of the
     * frame, the activity, the pitch and the coefficients.
     */
    method Synthesize(dt: Duration, sr: SampleRate, nbytes: i32, data: Side,
                      xr: array<real>, pos: nat,
                      cden: (int, int) -> real, cnum: (int, int) -> real, filter: Filter)
      requires Valid()
      requires xr != c && xr != x
      requires pos + Ns(dt, sr) <= xr.Length
      requires CrossfadeInRing(pos, Width(sr), xr.Length)
      modifies this`active, this`pitch, c, x, xr
      ensures Stored(ParamsOf(dt, sr, nbytes, data), old(c[..]), old(x[..]), old(xr[..]), pos, cden, cnum)
      ensures FrameFiltered(old(xr[..]), xr[..], ParamsOf(dt, sr, nbytes, data), old(active), old(pitch), old(c[..]), old(x[..]), pos, cden, cnum, filter)
    {
      var q := ParamsOf(dt, sr, nbytes, data);
      SynthesizeWith(q, xr, pos, cden, cnum, filter);
    }

    /**
     * The work of lc3_ltpf_synthesize once the parameters `q` of the frame
     * are known: the coefficients, the filtering, then the stores into the state.
     */
    method SynthesizeWith(q: Params, xr: array<real>, pos: nat,
                          cden: (int, int) -> real, cnum: (int, int) -> real, filter: Filter)
      requires Valid()
      requires xr != c && xr != x
      requires 1 <= q.w <= 12 && q.w - 1 <= q.nt <= q.ns - (q.w - 1) && pos + q.ns <= xr.Length
      requires CrossfadeInRing(pos, q.w, xr.Length)
      modifies this`active, this`pitch, c, x, xr
      ensures Stored(q, old(c[..]), old(x[..]), old(xr[..]), pos, cden, cnum)
      ensures FrameFiltered(old(xr[..]), xr[..], q, old(active), old(pitch), old(c[..]), old(x[..]), pos, cden, cnum, filter)
    {
      var coef := ComputeCoefficients(q.w, q.on, q.gIdx, q.pitch, cden, cnum);
      var tail := Filter(q, coef, xr, pos, filter);
      assert |tail| == q.w - 1;
      ghost var after := xr[..];
      Commit(q.on, q.pitch, coef, tail);
      assert xr[..] == after;
      assert x[..q.w - 1] == tail;
    }

    /**
     * The filtering of lc3_ltpf_synthesize with the parameters `q` and the
     * coefficients `coef`: the saved inputs and the cross-fade history come
     * from the state and the frame, the previous filter from the state.
     */
    method Filter(q: Params, coef: seq<real>, xr: array<real>, pos: nat, filter: Filter) returns (tail: seq<real>)
      requires Valid() && xr != c && xr != x
      requires 1 <= q.w <= 12 && q.w - 1 <= q.nt <= q.ns - (q.w - 1) && pos + q.ns <= xr.Length
      requires CrossfadeInRing(pos, q.w, xr.Length)
      modifies xr
      ensures tail == old(xr[pos + q.ns - (q.w - 1)..pos + q.ns])
      ensures var x0 := if q.on then old(xr[pos + q.nt - (q.w - 1)..pos + q.nt]) else [];
        Filtered(old(xr[..]), xr[..], Plan(old(active), q.on, old(pitch), q.pitch, old(c[..]), coef, old(x[..q.w - 1]), x0, q.nt, q.ns), pos, q.w, filter)
    {
      // x0: the inputs before the remainder, copied before any filtering
      tail := FilterFrame(xr, pos, q.w, q.nt, q.ns, active, q.on, pitch, q.pitch, c[..], coef, x[..q.w - 1],
                          if q.on then xr[pos + q.nt - (q.w - 1)..pos + q.nt] else [], filter);
    }

    /**
     * The stores of lc3_ltpf_synthesize into its state: the saved history
     * `tail` (taken before the remainder is filtered), then the activity,
     * the pitch and the coefficients.
     */
    method Commit(on: bool, p: int, coef: seq<real>, tail: seq<real>)
      requires Valid() && |coef| <= c.Length && |tail| <= x.Length
      modifies this`active, this`pitch, c, x
      ensures Valid() && active == on && pitch == p
      ensures c[..|coef|] == coef && c[|coef|..] == old(c[|coef|..])
      ensures x[..|tail|] == tail && x[|tail|..] == old(x[|tail|..])
    {
      CopyInto(x, tail);
      active := on;
      pitch := p;
      CopyInto(c, coef);
    }
  }

  /**
   * The filtering of lc3_ltpf_synthesize on the frame at `pos` of the ring
   * `xr`: the transition calls, then the capture of the frame's last w - 1
   * samples (still unfiltered), then the call on the remainder.
   */
  method FilterFrame(xr: array<real>, pos: nat, w: int, nt: nat, ns: nat,
                     prevActive: bool, active: bool, prevPitch: int, pitch: int,
                     prevC: seq<real>, c: seq<real>, saved: seq<real>, x0: seq<real>,
                     filter: Filter) returns (tail: seq<real>)
    requires w >= 1 && nt <= ns - (w - 1) && pos + ns <= xr.Length
    requires CrossfadeInRing(pos, w, xr.Length)
    modifies xr
    ensures Filtered(old(xr[..]), xr[..], Plan(prevActive, active, prevPitch, pitch, prevC, c, saved, x0, nt, ns), pos, w, filter)
    ensures tail == old(xr[pos + ns - (w - 1)..pos + ns])
  {
    ghost var ring0 := xr[..];
    var t := Transition(prevActive, active, prevPitch, pitch, prevC, c, saved, nt);
    var rest := Remainder(active, pitch, c, x0, nt, ns);
    PlanFits(prevActive, active, prevPitch, pitch, prevC, c, saved, x0, nt, ns, xr.Length, pos, w);
    RunAppend(t, rest, ring0, pos, w, filter);
    ghost var ring1 := Run(t, ring0, pos, w, filter);

    // Transition handling
    if !prevActive && active {
      RunOne(t[0], ring0, pos, w, filter);
      Step(xr, pos, w, t[0], filter);
    } else if prevActive && !active {
      RunOne(t[0], ring0, pos, w, filter);
      Step(xr, pos, w, t[0], filter);
    } else if prevActive && active && prevPitch == pitch {
      RunOne(t[0], ring0, pos, w, filter);
      Step(xr, pos, w, t[0], filter);
    } else if prevActive && active {
      Step(xr, pos, w, t[0], filter);
      RunOne(t[1], xr[..], pos, w, filter);
      assert t[1..] == [t[1]];
      Step(xr, pos, w, t[1], filter);
    }
    assert xr[..] == ring1;

    // The remainder's history is the frame's unfiltered tail
    forall j | pos + ns - (w - 1) <= j < pos + ns
      ensures ring1[j] == ring0[j]
    {
      RunOutside(t, ring0, pos, w, filter, 0, nt, j);
    }
    tail := xr[pos + ns - (w - 1)..pos + ns];
    assert tail == ring0[pos + ns - (w - 1)..pos + ns];

    if active {
      RunOne(rest[0], ring1, pos, w, filter);
      Step(xr, pos, w, rest[0], filter);
    } else {
      assert rest == [];
    }
  }

  /** memcpy of `src` to the start of `dst`. */
  method CopyInto(dst: array<real>, src: seq<real>)
    requires |src| <= dst.Length
    modifies dst
    ensures dst[..|src|] == src && dst[|src|..] == old(dst[|src|..])
  {
    var k := 0;
    while k < |src|
      invariant 0 <= k <= |src|
      invariant forall j :: 0 <= j < k ==> dst[j] == src[j]
      invariant forall j :: k <= j < dst.Length ==> dst[j] == old(dst[j])
    {
      dst[k] := src[k];
      k := k + 1;
    }
  }

  /** One call of `synthesize[sr]` on the frame at `pos` of the ring `xr`. */
  method Step(xr: array<real>, pos: nat, w: int, call: FilterCall, filter: Filter)
    requires Fits(call, xr[..], pos, w)
    modifies xr
    ensures xr[..] == Apply(call, old(xr[..]), pos, w, filter)
  {
    var ring := xr[..];
    var x0 := X0Of(call, ring, pos, w);
    var lo := pos + call.start;
    var i := 0;
    while i < call.len
      invariant 0 <= i <= call.len
      invariant forall j :: 0 <= j < xr.Length ==>
        xr[j] == if lo <= j < lo + i then filter(call, x0, ring, j - lo) else ring[j]
    {
      xr[lo + i] := filter(call, x0, ring, i);
      i := i + 1;
    }
    assert xr[..] == Apply(call, ring, pos, w, filter);
  }
}
