/**
 * The decision logic of the LTPF analysis (`lc3_ltpf_analyse` and the
 * functions it calls): the slide of the two resampled histories, the pitch
 * detection over a clamped lag window, the fractional refinement of the
 * pitch, and the activation hysteresis.
 *
 * Every floating-point quantity (resampled samples, correlations, their
 * interpolations and normalisations) enters as a `real` input with the value
 * the C code would compute; the model covers what is done with those values:
 * which lags and phases are searched, which is selected, and what state is
 * kept for the next frame.
 */
module LtpfAnalysis {
  import opened Lc3
  import opened LtpfIndex
  import opened LtpfData

  // ---------------------------------------------------------------------
  // Maximum search
  // ---------------------------------------------------------------------

  /** `k` is the first position holding the maximum of `xs`. */
  predicate IsFirstMax(xs: seq<real>, k: int) {
    && 0 <= k < |xs|
    && (forall i :: 0 <= i < |xs| ==> xs[i] <= xs[k])
    && (forall i :: 0 <= i < k ==> xs[i] < xs[k])
  }

  /** There is only one first maximum. */
  lemma FirstMaxUnique(xs: seq<real>, k1: int, k2: int)
    requires IsFirstMax(xs, k1) && IsFirstMax(xs, k2)
    ensures k1 == k2
  {
    assert xs[k1] == xs[k2];
  }

  /** The first maximum, as a reference function on a non-empty vector. */
  function ArgmaxOf(xs: seq<real>): (k: nat)
    requires |xs| >= 1
    ensures IsFirstMax(xs, k)
  {
    if |xs| == 1 then 0
    else
      var k := ArgmaxOf(xs[..|xs| - 1]);
      assert forall i :: 0 <= i < |xs| - 1 ==> xs[..|xs| - 1][i] == xs[i];
      if xs[k] < xs[|xs| - 1] then |xs| - 1 else k
  }

  /**
   * argmax(x, n, &x_max) with n = |x|: a candidate replaces the current one
   * only when strictly greater, so the first maximum wins.
   */
  method Argmax(x: seq<real>) returns (arg: int, xMax: real)
    requires |x| >= 1
    ensures IsFirstMax(x, arg) && xMax == x[arg]
  {
    arg, xMax := 0, x[0];
    var i := 1;
    while i < |x|
      invariant 1 <= i <= |x|
      invariant IsFirstMax(x[..i], arg) && xMax == x[arg]
    {
      if xMax < x[i] {
        arg, xMax := i, x[i];
      }
      i := i + 1;
    }
    assert x[..i] == x;
  }

  /** The weighted vector argmax_weighted compares: x[i] * (1 + i * w_incr). */
  function Weighted(x: seq<real>, wIncr: real): (y: seq<real>)
    ensures |y| == |x|
  {
    seq(|x|, i requires 0 <= i < |x| => x[i] * (1.0 + (i as real) * wIncr))
  }

  /**
   * argmax_weighted(x, n, w_incr, &x_max) with n = |x|: the first maximum of
   * the weighted values; `xMax` is the unweighted value there.
   */
  method ArgmaxWeighted(x: seq<real>, wIncr: real) returns (arg: int, xMax: real)
    requires |x| >= 1
    ensures IsFirstMax(Weighted(x, wIncr), arg) && xMax == x[arg]
  {
    ghost var y := Weighted(x, wIncr);
    arg, xMax := 0, x[0];
    var xwMax := x[0];
    var w := 1.0 + wIncr;
    var i := 1;
    while i < |x|
      invariant 1 <= i <= |x|
      invariant w == 1.0 + (i as real) * wIncr
      invariant IsFirstMax(y[..i], arg) && xMax == x[arg] && xwMax == y[arg]
    {
      assert y[i] == x[i] * w;
      assert y[..i + 1] == y[..i] + [y[i]];
      if xwMax < x[i] * w {
        arg, xMax := i, x[i];
        xwMax := xMax * w;
      }
      assert ((i + 1) as real) * wIncr == (i as real) * wIncr + wIncr;
      i, w := i + 1, w + wIncr;
    }
    assert y[..i] == y;
  }

  // ---------------------------------------------------------------------
  // Pitch detection at 6.4 kHz (detect_pitch)
  // ---------------------------------------------------------------------

  /** The detector's lags are 17 + t for t in [0, 97] (`r0` and `nr`). */
  const DetectFirstLag: int := 17
  const DetectLags: int := 98

  /**
   * The weight increment of the global search, `-.5f / (nr - 1)`: the
   * single-precision quotient -0.0051546390168368816375732421875.
   */
  const WeightIncr: real := -11069503.0 / 2147483648.0

  /*
   * The single-precision literals the detector and the activation compare
   * with, at their exact values (0.6f is slightly above 0.6, 0.9f slightly
   * below 0.9).
   */
  /** 0.85f: the share of the global candidate's correlation the local one must exceed. */
  const LocalShare: real := 0.85000002384185791015625
  /** 0.6f: the correlation above which a pitch is present. */
  const PresentNc: real := 0.60000002384185791015625
  /** 0.9f: the correlation that keeps an active filter on at any pitch. */
  const StrongNc: real := 0.89999997615814208984375
  /** 0.84f: the correlation that keeps it on at a nearby pitch. */
  const KeepNc: real := 0.839999973773956298828125
  /** 0.1f: the largest drop of the correlation at a nearby pitch. */
  const NcDrop: real := 0.100000001490116119384765625
  /** 0.94f: the correlation an inactive filter needs in each frame to switch on. */
  const StartNc: real := 0.939999997615814208984375

  /**
   * The local search window (`k0`, `nk`): the lags within 4 of the previous
   * estimate, clamped to the correlation vector.
   */
  function DetectWindow(tc: int): (w: (int, int))
    ensures 0 <= tc < DetectLags ==>
      && 0 <= w.0 <= tc <= w.0 + w.1 - 1 <= DetectLags - 1
      && 5 <= w.1 <= 9
  {
    var k0 := Max(0, tc - 4);
    (k0, Min(DetectLags - 1, tc + 4) - k0 + 1)
  }

  /**
   * The normalised correlation at lag index `t`: 0 when the correlation is
   * not positive, otherwise the value the division by the energies gives.
   */
  function NcOf(r: seq<real>, ncAt: seq<real>, t: int): (nc: real)
    requires 0 <= t < |r| && |ncAt| == |r|
    ensures r[t] <= 0.0 ==> nc == 0.0
  {
    if r[t] <= 0.0 then 0.0 else ncAt[t]
  }

  // ---------------------------------------------------------------------
  // Pitch refinement at 12.8 kHz (refine_pitch)
  // ---------------------------------------------------------------------

  /**
   * The refinement window (`r0`, `nr`): the integer lags within 4 of twice
   * the detected lag, clamped to [32, 228]; `nr + 8` correlations fit the
   * 17-entry vector.
   */
  function RefineWindow(tc: int): (w: (int, int))
    ensures 17 <= tc <= 114 ==>
      && MinLag <= w.0 <= 2 * tc <= w.0 + w.1 - 1 <= MaxLag
      && 5 <= w.1 <= 9 && w.1 + 8 <= 17
  {
    var r0 := Max(MinLag, 2 * tc - 4);
    (r0, Min(MaxLag, 2 * tc + 4) - r0 + 1)
  }

  /** Whether the phase loop skips the phases +i and -i at integer lag e. */
  predicate Skipped(e: int, i: int) {
    e >= 127 && (i % 2 == 1 || e >= 157)
  }

  /**
   * The phases `refine_pitch` compares, in the order it tries them: 0, then
   * for i = 1 .. n the phase +i and, above the lowest lag, -i, unless skipped.
   */
  function Trials(e: int, n: nat): (ds: seq<int>)
    ensures |ds| >= 1 && ds[0] == 0
  {
    if n == 0 then [0]
    else Trials(e, n - 1) + (if Skipped(e, n) then [] else [n as int] + (if e > MinLag then [-(n as int)] else []))
  }

  /** The phases tried satisfy the band rule of their lag. */
  lemma {:induction false} TrialsInBand(e: int, n: nat, k: int)
    requires 0 <= k < |Trials(e, n)|
    ensures var d := Trials(e, n)[k];
      && -(n as int) <= d <= n
      && (e <= MinLag ==> d >= 0)
      && (e >= 127 ==> d % 2 == 0)
      && (e >= 157 ==> d == 0)
  {
    if n > 0 && k >= |Trials(e, n - 1)| {
      var i := k - |Trials(e, n - 1)|;
      assert Trials(e, n)[k] == if i == 0 then n as int else -(n as int);
    } else if n > 0 {
      TrialsInBand(e, n - 1, k);
    }
  }

  /** The interpolated correlation of each tried phase. */
  function Values(ds: seq<int>, interp: int -> real): (vs: seq<real>)
    ensures |vs| == |ds|
  {
    seq(|ds|, k requires 0 <= k < |ds| => interp(ds[k]))
  }

  lemma ValuesAppend(ds: seq<int>, d: int, interp: int -> real)
    ensures Values(ds + [d], interp) == Values(ds, interp) + [interp(d)]
  {
  }

  /** A new value becomes the first maximum only when it is strictly greater. */
  lemma FirstMaxStep(xs: seq<real>, k: int, v: real)
    requires IsFirstMax(xs, k)
    ensures IsFirstMax(xs + [v], if v > xs[k] then |xs| else k)
  {
    var ys := xs + [v];
    assert forall i :: 0 <= i < |xs| ==> ys[i] == xs[i];
  }

  /** One more step of the phase loop. */
  lemma TrialsNext(e: int, i: nat)
    requires i >= 1
    ensures Skipped(e, i) ==> Trials(e, i) == Trials(e, i - 1)
    ensures !Skipped(e, i) && e <= MinLag ==> Trials(e, i) == Trials(e, i - 1) + [i as int]
    ensures !Skipped(e, i) && e > MinLag ==> Trials(e, i) == Trials(e, i - 1) + [i as int] + [-(i as int)]
  {
    var ts := Trials(e, i - 1);
    assert ts + ([i as int] + [-(i as int)]) == ts + [i as int] + [-(i as int)];
  }

  /** The phase the loop selects: the first tried phase of largest interpolated correlation. */
  function BestPhase(e: int, interp: int -> real): int {
    var ts := Trials(e, 3);
    ts[ArgmaxOf(Values(ts, interp))]
  }

  /** Phase `f`, the `k`-th of `ts`, is the first best so far and `dm` is its value. */
  ghost predicate BestSoFar(ts: seq<int>, interp: int -> real, k: int, f: int, dm: real) {
    IsFirstMax(Values(ts, interp), k) && f == ts[k] && dm == interp(f)
  }

  /** Trying one more phase `d` keeps the best so far, or replaces it when strictly better. */
  lemma BestStep(ts: seq<int>, interp: int -> real, k: int, f: int, dm: real, d: int)
    requires BestSoFar(ts, interp, k, f, dm)
    ensures var better := interp(d) > dm;
      BestSoFar(ts + [d], interp, if better then |ts| else k, if better then d else f, if better then interp(d) else dm)
  {
    ValuesAppend(ts, d, interp);
    FirstMaxStep(Values(ts, interp), k, interp(d));
  }

  /**
   * `if ((d = interpolate_4(re, d)) > dm) dm = d, f = d`: phase `d` replaces
   * the best so far only when strictly better.
   */
  method Consider(d: int, interp: int -> real, f: int, dm: real, ghost ts: seq<int>, ghost k: int)
    returns (f': int, dm': real, ghost k': int)
    requires BestSoFar(ts, interp, k, f, dm)
    ensures BestSoFar(ts + [d], interp, k', f', dm')
  {
    BestStep(ts, interp, k, f, dm, d);
    var v := interp(d);
    if v > dm {
      f', dm', k' := d, v, |ts|;
    } else {
      f', dm', k' := f, dm, k;
    }
  }

  /**
   * The phase loop of `refine_pitch` around integer lag `e`. `interp(d)` is
   * the interpolated correlation `interpolate_4` yields for phase d. The
   * result is the first tried phase of largest value.
   */
  method SelectPhase(e: int, interp: int -> real) returns (f: int)
    ensures f == BestPhase(e, interp)
  {
    ghost var k := 0;
    ghost var ts: seq<int> := [0];
    f := 0;
    var dm := interp(0);
    var i := 1;
    while i <= 3
      invariant 1 <= i <= 4 && ts == Trials(e, i - 1)
      invariant BestSoFar(ts, interp, k, f, dm)
    {
      TrialsNext(e, i);
      if e >= 127 && (i % 2 == 1 || e >= 157) {
        assert Skipped(e, i);
        i := i + 1;
        continue;
      }
      assert !Skipped(e, i);
      f, dm, k := Consider(i, interp, f, dm, ts, k);
      ts := ts + [i];
      if e > 32 {
        f, dm, k := Consider(-i, interp, f, dm, ts, k);
        ts := ts + [-i];
      }
      i := i + 1;
    }
    BestSoFarIsBest(e, interp, ts, k, f, dm);
  }

  /** Once every phase has been tried, the best so far is the selected phase. */
  lemma BestSoFarIsBest(e: int, interp: int -> real, ts: seq<int>, k: int, f: int, dm: real)
    requires ts == Trials(e, 3) && BestSoFar(ts, interp, k, f, dm)
    ensures f == BestPhase(e, interp)
  {
    FirstMaxUnique(Values(ts, interp), k, ArgmaxOf(Values(ts, interp)));
  }

  /** `e -= (f < 0); f += 4 * (f < 0)`: a negative phase borrows from e. */
  function Normalise(e: int, d: int): (ef: (int, int))
    ensures 4 * ef.0 + ef.1 == 4 * e + d
  {
    if d < 0 then (e - 1, d + 4) else (e, d)
  }

  /**
   * Normalising a tried phase yields a lag the index can represent; the
   * lag in quarter samples is unchanged.
   */
  lemma NormaliseValid(e: int, k: int)
    requires MinLag <= e <= MaxLag && 0 <= k < |Trials(e, 3)|
    ensures ValidPhase(Normalise(e, Trials(e, 3)[k]).0, Normalise(e, Trials(e, 3)[k]).1)
  {
    TrialsInBand(e, 3, k);
  }

  /** The index of the normalised selected phase decodes to its lag. */
  lemma PhaseIndex(e: int, interp: int -> real)
    requires MinLag <= e <= MaxLag
    ensures var ef := Normalise(e, BestPhase(e, interp));
      && ValidPhase(ef.0, ef.1)
      && 0 <= PitchIndex(ef.0, ef.1) < 512 && DecodePitch(PitchIndex(ef.0, ef.1)) == 4 * ef.0 + ef.1
  {
    var ts := Trials(e, 3);
    NormaliseValid(e, ArgmaxOf(Values(ts, interp)));
    var ef := Normalise(e, BestPhase(e, interp));
    DecodeEncode(ef.0, ef.1);
  }

  /** The integer lag of the refinement: the first maximum of the window's correlations. */
  function BestLag(tc: int, r: seq<real>): int
    requires 17 <= tc <= 114 && |r| == 17
  {
    var w := RefineWindow(tc);
    w.0 + ArgmaxOf(r[4..4 + w.1])
  }

  /**
   * refine_pitch(x, n, tc, &pitch) for a detected lag `tc`. `r` is the
   * correlation vector (lags r0 - 4 .. r0 + nr + 3) and `interp` the
   * interpolated correlation around the selected integer lag. Returns the
   * bitstream index and the pitch in quarter samples.
   */
  method RefinePitch(tc: int, r: seq<real>, interp: int -> real) returns (index: int, pitch: int)
    requires 17 <= tc <= 114 && |r| == 17
    ensures var w := RefineWindow(tc);
      var e := BestLag(tc, r);
      var d := BestPhase(e, interp);
      var ef := Normalise(e, d);
      && w.0 <= e < w.0 + w.1
      && ValidPhase(ef.0, ef.1)
      && pitch == 4 * e + d == 4 * ef.0 + ef.1
      && index == PitchIndex(ef.0, ef.1)
    ensures 0 <= index < 512 && DecodePitch(index) == pitch
  {
    var e := IntegerLag(tc, r);
    index, pitch := Fraction(e, interp);
  }

  /** `e = r0 + argmax(r + 4, nr, &rm)`: the integer lag of best correlation in the window. */
  method IntegerLag(tc: int, r: seq<real>) returns (e: int)
    requires 17 <= tc <= 114 && |r| == 17
    ensures var w := RefineWindow(tc);
      e == BestLag(tc, r) && w.0 <= e < w.0 + w.1
  {
    var (r0, nr) := RefineWindow(tc);
    var arg, rm := Argmax(r[4..4 + nr]);
    FirstMaxUnique(r[4..4 + nr], arg, ArgmaxOf(r[4..4 + nr]));
    e := r0 + arg;
  }

  /**
   * The phase loop around `e`, the normalisation and the index of
   * `refine_pitch`: the pitch is 4e + d for the selected phase d, and the
   * index encodes the normalised lag.
   */
  method Fraction(e: int, interp: int -> real) returns (index: int, pitch: int)
    requires MinLag <= e <= MaxLag
    ensures var d := BestPhase(e, interp);
      var ef := Normalise(e, d);
      && ValidPhase(ef.0, ef.1)
      && pitch == 4 * e + d == 4 * ef.0 + ef.1
      && index == PitchIndex(ef.0, ef.1)
    ensures 0 <= index < 512 && DecodePitch(index) == pitch
  {
    var f := SelectPhase(e, interp);
    PhaseIndex(e, interp);
    var ef := Normalise(e, f);
    pitch := 4 * ef.0 + ef.1;
    index := PitchIndex(ef.0, ef.1);
  }

  // ---------------------------------------------------------------------
  // Activation
  // ---------------------------------------------------------------------

  /** LC3_MAX(a, b) - LC3_MIN(a, b) */
  function PitchDiff(a: int, b: int): (d: int)
    ensures d >= 0 && (d == a - b || d == b - a)
  {
    Max(a, b) - Min(a, b)
  }

  /**
   * The activation decision. An active filter stays on with a strong
   * normalised correlation, or a fair one at a nearby pitch that did not
   * drop much; an inactive one needs three (10 ms: two) strong frames in a
   * row. Nothing is active without a pitch.
   */
  function Activation(wasActive: bool, present: bool, dt: Duration, pitch: int, prevPitch: int,
                      nc: real, nc0: real, nc1: real): (on: bool)
    ensures !present ==> !on
  {
    if wasActive then
      present && (nc > StrongNc || (nc > KeepNc && PitchDiff(pitch, prevPitch) < 8 && nc - nc0 > -NcDrop))
    else
      present && ((dt == Dt10M || nc1 > StartNc) && (nc0 > StartNc && nc > StartNc))
  }

  /** Hysteresis: whatever switches the filter on also keeps it on. */
  lemma ActivationHysteresis(dt: Duration, pitch: int, prevPitch: int, nc: real, nc0: real, nc1: real)
    ensures Activation(false, true, dt, pitch, prevPitch, nc, nc0, nc1)
        ==> Activation(true, true, dt, pitch, prevPitch, nc, nc0, nc1)
  {
  }

  /** An active filter with a strong correlation stays on, whatever the pitch. */
  lemma StrongKeepsActive(dt: Duration, pitch: int, prevPitch: int, nc: real, nc0: real, nc1: real)
    requires nc > StrongNc
    ensures Activation(true, true, dt, pitch, prevPitch, nc, nc0, nc1)
  {
  }

  /** An inactive filter never switches on with a correlation at or below 0.94f. */
  lemma WeakStaysInactive(dt: Duration, present: bool, pitch: int, prevPitch: int,
                          nc: real, nc0: real, nc1: real)
    requires nc <= StartNc || nc0 <= StartNc
    ensures !Activation(false, present, dt, pitch, prevPitch, nc, nc0, nc1)
  {
  }

  // ---------------------------------------------------------------------
  // Histories and the analysis state
  // ---------------------------------------------------------------------

  /** Samples added per frame at 12.8 kHz (`n_12k8`); half that at 6.4 kHz. */
  function N12k8(dt: Duration): (n: nat)
    ensures n % 2 == 0 && n == 128 * dt.Us() / 10000
  {
    if dt == Dt7M5 then 96 else 128
  }

  /**
   * The `memmove` of a history by |s| samples, followed by the resampler
   * writing its |s| new samples `s` into the freed tail.
   */
  method Slide(a: array<real>, s: seq<real>)
    requires |s| <= a.Length
    modifies a
    ensures a[..] == old(a[..])[|s|..] + s
  {
    var n, z := |s|, a.Length;
    ghost var before := a[..];
    var i := 0;
    while i < z - n
      invariant 0 <= i <= z - n
      invariant forall j :: 0 <= j < i ==> a[j] == before[j + n]
      invariant forall j :: i <= j < z ==> a[j] == before[j]
    {
      a[i] := a[i + n];
      i := i + 1;
    }
    while i < z
      invariant z - n <= i <= z
      invariant forall j :: 0 <= j < z - n ==> a[j] == before[j + n]
      invariant forall j :: z - n <= j < i ==> a[j] == s[j - (z - n)]
    {
      a[i] := s[i - (z - n)];
      i := i + 1;
    }
    assert forall j :: 0 <= j < z ==> a[j] == (before[n..] + s)[j];
  }

  /** struct lc3_ltpf_analysis, without the resampler's filter state. */
  class Analysis {
    const x12k8: array<real>
    const x6k4: array<real>
    var tc: int
    var active: bool
    var pitch: int
    const nc: array<real>

    ghost predicate Valid()
      reads this
    {
      && 0 <= tc < DetectLags
      && nc.Length == 2
      && x12k8 != x6k4 && nc != x12k8 && nc != x6k4
    }

    /** A freshly set up analysis: no pitch, inactive, zero histories. */
    constructor (z12k8: nat, z6k4: nat)
      ensures Valid() && x12k8.Length == z12k8 && x6k4.Length == z6k4
      ensures tc == 0 && !active && pitch == 0 && nc[0] == 0.0 && nc[1] == 0.0
    {
      x12k8 := new real[z12k8](_ => 0.0);
      x6k4 := new real[z6k4](_ => 0.0);
      nc := new real[2](_ => 0.0);
      tc, active, pitch := 0, false, 0;
    }

    /**
     * detect_pitch(ltpf, x, n, &tc). `r` holds the 98 correlations at
     * lags 17 .. 114 and `ncAt` the normalised correlation at each. The
     * global candidate is the first maximum of the weighted correlations,
     * the local one the first maximum within the window around the previous
     * estimate; the global one is taken unless the local one is more than
     * 0.85f times as well correlated.
     */
    method DetectPitch(r: seq<real>, ncAt: seq<real>) returns (present: bool, lag: int)
      requires Valid() && |r| == DetectLags && |ncAt| == DetectLags
      modifies this`tc
      ensures Valid() && lag == DetectFirstLag + tc && 17 <= lag <= 114
      ensures var (k0, nk) := DetectWindow(old(tc));
        var t1 := ArgmaxOf(Weighted(r, WeightIncr));
        var t2 := k0 + ArgmaxOf(r[k0..k0 + nk]);
        var t1sel := NcOf(r, ncAt, t2) <= LocalShare * NcOf(r, ncAt, t1);
        && tc == (if t1sel then t1 else t2)
        && present == ((if t1sel then NcOf(r, ncAt, t1) else NcOf(r, ncAt, t2)) > PresentNc)
    {
      var (k0, nk) := DetectWindow(tc);
      var t1, rm1 := ArgmaxWeighted(r, WeightIncr);
      FirstMaxUnique(Weighted(r, WeightIncr), t1, ArgmaxOf(Weighted(r, WeightIncr)));
      var a2, rm2 := Argmax(r[k0..k0 + nk]);
      FirstMaxUnique(r[k0..k0 + nk], a2, ArgmaxOf(r[k0..k0 + nk]));
      var t2 := k0 + a2;
      var nc1 := if rm1 <= 0.0 then 0.0 else ncAt[t1];
      var nc2 := if rm2 <= 0.0 then 0.0 else ncAt[t2];
      var t1sel := nc2 <= LocalShare * nc1;
      tc := if t1sel then t1 else t2;
      lag := DetectFirstLag + tc;
      present := (if t1sel then nc1 else nc2) > PresentNc;
    }

    /**
     * lc3_ltpf_analyse(dt, sr, ltpf, x, data). The resampler's outputs
     * `s12k8` and `s6k4`, the correlations of the detector (`r6k4`, `ncAt`)
     * and of the refinement (`r12k8`, `interp`), and the normalised
     * correlation `ncPitch` at the refined pitch are inputs. Returns whether
     * a pitch is present; `data` receives the index (only when a pitch is
     * present) and the activation.
     */
    method Analyse(dt: Duration, data: Data, s12k8: seq<real>, s6k4: seq<real>,
                   r6k4: seq<real>, ncAt: seq<real>, r12k8: seq<real>, interp: int -> real,
                   ncPitch: real) returns (present: bool)
      requires Valid()
      requires |s12k8| == N12k8(dt) <= x12k8.Length && |s6k4| == N12k8(dt) / 2 <= x6k4.Length
      requires |r6k4| == DetectLags && |ncAt| == DetectLags && |r12k8| == 17
      modifies this`tc, this`active, this`pitch, x12k8, x6k4, nc, data
      ensures Valid()
      ensures x12k8[..] == old(x12k8[..])[|s12k8|..] + s12k8
      ensures x6k4[..] == old(x6k4[..])[|s6k4|..] + s6k4
      ensures !present ==> pitch == 0 && nc[0] == 0.0 && data.pitchIndex == old(data.pitchIndex)
      ensures present ==>
        && nc[0] == ncPitch
        && 0 <= data.pitchIndex < 512 && DecodePitch(data.pitchIndex) == pitch
        && 128 <= pitch <= 4 * MaxLag + 3
      ensures nc[1] == old(nc[0])
      ensures data.active == active
      ensures active == Activation(old(active), present, dt, pitch, old(pitch), nc[0], old(nc[0]), old(nc[1]))
    {
      Slide(x12k8, s12k8);
      Slide(x6k4, s6k4);
      var lag;
      present, lag := DetectPitch(r6k4, ncAt);
      var p := 0;
      var c := 0.0;
      if present {
        var index;
        index, p := RefinePitch(lag, r12k8, interp);
        EncodeDecode(index);
        data.pitchIndex := index;
        c := ncPitch;
      }
      var on := Activation(active, present, dt, p, pitch, c, nc[0], nc[1]);
      data.active := on;
      active := on;
      pitch := p;
      nc[1] := nc[0];
      nc[0] := c;
    }
  }
}
