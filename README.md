# liblc3 tooling core in Dafny

This project models four sequential parts of an LC3 codec fork and its command-line tools, and proves properties of the model:

- **The discrete logic of the Long-Term Postfilter (LTPF)** of the Bluetooth LC3 codec, from `src/ltpf.c`:
  - the three-band 9-bit pitch index and its decoder;
  - the clamped lag search windows and the first-maximum searches of the pitch detector;
  - the phase loop of the pitch refinement;
  - the activation hysteresis;
  - the slide of the resampled histories;
  - the synthesis parameters (gain index, width, activity, coefficients);
  - the choice of filter calls for the transition between frames;
  - index arithmetic on the synthesis ring buffer;
  - the 10-bit side information in the bitstream.
- **The byte stream** `bstream_t` (`src/bytestream/bytestream.c`): a cursor over a memory buffer with a read or write mode. It moves whole objects.
- **The LC3 binary container:**
  - the 18-byte file header (`src/header/header.c`);
  - the `bstream_t` readers and writers of the header and the length-prefixed frame blocks (`src/lc3bin.c`).
- **The 44-byte RIFF/WAVE header:** its check and its builder (`src/wave/wave.c`).

Files:
- `lc3.dfy` (module `Lc3`) holds the fixed-width integers and little-endian struct images. It also holds the two codec enumerations with the `lc3.h` constants the core uses.
- `ltpf_index.dfy` is the pitch index.
- `ltpf_data.dfy` is the side information.
- `ltpf_analysis.dfy` is the analysis.
- `ltpf_synthesis.dfy` is the synthesis.
- `bytestream.dfy`, `header.dfy`, `lc3bin.dfy` and `wave.dfy` are the containers.

Modelling choices:
- **Struct images.** Structs copied with `memcpy` are modelled as little-endian byte sequences.
- **Out-parameters.** Functions that fill an out-parameter return the status code together with the out-parameter as the caller sees it afterwards. The previous contents are a parameter wherever the code leaves them untouched.
- **Imperative code stays imperative.** These are methods with loop invariants, each proved against a function of its inputs:
  - the maximum searches, the phase loop, the history slides and the ring reads;
  - the byte copies of the stream;
  - the in-place filtering of the frame.
- **State.** The state structs of the analysis and the synthesis are classes whose methods update their fields.
- **Floating point is an input.** The floating-point values the core takes from code outside it are `real` parameters: resampled samples, correlations, interpolations, normalised correlations, table coefficients and filter outputs. The `float` literals the core compares and scales with (0.6f, 0.85f, 0.9f, 0.84f, 0.1f, 0.94f, 0.4f, 0.05f and the weight step `-.5f/97`) are written as their exact single-precision values. The model's own arithmetic on these reals is exact; "## Left out" lists where C rounds.
- **Integer arithmetic follows C where C defines it.** An overflow of `nbytes*8 * 10000` in the bitrate, undefined in C, is taken to wrap in two's complement (`WrapI32`); frames of at most 400 bytes stay far inside `int`. Conversions to `uint16_t` and `uint32_t` reduce modulo 2^16 and 2^32. The `uint32_t` object count of `bread`/`bwrite` is returned through an `int` and wraps the same way. C's truncating division is spelled out where an operand could be negative. Products that stay far inside `int` for the inputs the core sees are exact (see "## Left out").

## Model

| member | source | states |
|---|---|---|
| LtpfIndex.ValidPhase | src/ltpf.c:392-406 | definition: the lags (e, f) the index can represent, one resolution per band; `NormaliseValid` shows every tried phase is one |
| LtpfIndex.PitchIndex | src/ltpf.c:409-410 | definition: the three-band 9-bit encoder; `DecodeEncode`, `IndexBands` and `IndexInjective` carry its properties |
| LtpfIndex.DecodePitch | src/ltpf.c:600-603 | definition: the synthesis decoder of the index into 4e + f; `DecodeEncode` and `EncodeDecode` carry its properties |
| LtpfIndex.Lag | src/ltpf.c:600-603 | definition: the decoded pitch split into integer lag and phase; `EncodeDecode` carries its property |
| LtpfIndex.DecodeEncode | src/ltpf.c:600-603 | every lag (e, f) of its band's resolution, e in [32, 228], encodes to an index in [0, 512) that the synthesis decoder maps back to 4e + f |
| LtpfIndex.IndexBands | src/ltpf.c:409-410 | the quarter, half and whole sample bands occupy exactly [0, 379], [380, 439] and [440, 511], the decoder's thresholds |
| LtpfIndex.EncodeDecode | src/ltpf.c:600-603 | every 9-bit index decodes to a lag that follows the band rule and encodes back to the same index |
| LtpfIndex.IndexInjective | src/ltpf.c:409-410 | two representable lags with the same index are equal |
| LtpfData.ToBits | src/ltpf.c:683 | definition: the n low bits of a value, most significant first, as `lc3_put_bits` writes them; `FromToBits` carries its property |
| LtpfData.FromBits | src/ltpf.c:692 | definition: the value of bits read most significant first, as `lc3_get_bits` returns it; `FromToBits` carries its property |
| LtpfData.FromToBits | src/ltpf.c:692 | reading back n written bits gives the value modulo 2^n |
| LtpfData.BitsRoundTrip | src/ltpf.c:683 | a 9-bit value written and read back is unchanged |
| LtpfData.Data.Disable | src/ltpf.c:663-666 | clears the active flag and leaves the pitch index |
| LtpfData.GetNbits | src/ltpf.c:671-674 | 1 bit for the pitch flag plus the 10 bits of the payload when a pitch is present |
| LtpfData.Payload | src/ltpf.c:679-684 | the payload is 10 bits and starts with the active flag |
| LtpfData.ParsePayload | src/ltpf.c:689-693 | the index read back is below 512 |
| LtpfData.PayloadRoundTrip | src/ltpf.c:679-693 | parsing the front of put bits recovers the flag and any 9-bit index, whatever follows |
| LtpfData.BitWriter.PutBit | src/ltpf.c:682 | the writer's bits grow by the one bit |
| LtpfData.BitWriter.PutBits | src/ltpf.c:683 | the writer's bits grow by the n low bits of v, most significant first |
| LtpfData.BitReader.Window | src/ltpf.c:691-692 | the n bits at the reader's position, equal to the stream's bits when they are there |
| LtpfData.BitReader.GetBit | src/ltpf.c:691 | returns the next bit and advances by one |
| LtpfData.BitReader.GetBits | src/ltpf.c:692 | returns the value of the next n bits and advances by n |
| LtpfData.PutData | src/ltpf.c:679-684 | appends the active bit, then the 9-bit index |
| LtpfData.GetData | src/ltpf.c:689-693 | reads the flag and the index from the next 10 bits and advances by 10 |
| LtpfData.PutThenGet | src/ltpf.c:679-693 | a record written and read back is the same record |
| LtpfAnalysis.IsFirstMax | src/ltpf.c:240-250 | definition: k holds a maximum and no earlier position holds one as large; `FirstMaxUnique` and `ArgmaxOf` carry its properties |
| LtpfAnalysis.FirstMaxUnique | src/ltpf.c:240-250 | the first position of the maximum is unique |
| LtpfAnalysis.ArgmaxOf | src/ltpf.c:240-250 | reference definition: the first position of the maximum of a non-empty vector |
| LtpfAnalysis.Argmax | src/ltpf.c:240-250 | the loop returns the first maximum and its value; later equal values never replace it |
| LtpfAnalysis.Weighted | src/ltpf.c:265-269 | the weighted vector x[i]·(1 + i·w_incr) has x's length; `ArgmaxWeighted` searches it |
| LtpfAnalysis.ArgmaxWeighted | src/ltpf.c:259-272 | returns the first maximum of x[i]·(1 + i·w_incr) and the unweighted value there |
| LtpfAnalysis.DetectWindow | src/ltpf.c:347-348 | for tc in [0, 97] the local window contains tc, lies in [0, 97] and has 5 to 9 lags |
| LtpfAnalysis.NcOf | src/ltpf.c:358-362 | the normalised correlation is 0 when the correlation is not positive |
| LtpfAnalysis.RefineWindow | src/ltpf.c:383-386 | for tc in [17, 114] the window contains 2tc, lies in [32, 228] and has at most 9 lags, so nr + 8 ≤ 17 |
| LtpfAnalysis.Skipped | src/ltpf.c:395-396 | definition: from lag 127 the odd phases, and from lag 157 all phases, are not tried; `TrialsInBand` and `TrialsNext` carry its effect |
| LtpfAnalysis.Trials | src/ltpf.c:391-403 | the phases tried start with 0 |
| LtpfAnalysis.TrialsInBand | src/ltpf.c:392-403 | every tried phase is in [-3, 3], is never negative at e = 32, is even from 127 and is 0 from 157 |
| LtpfAnalysis.Values | src/ltpf.c:398-402 | the interpolated correlation of each tried phase, one per phase; `ValuesAppend` carries its step |
| LtpfAnalysis.BestPhase | src/ltpf.c:391-403 | definition: the tried phase at the first maximum of their values; `SelectPhase` and `BestSoFarIsBest` tie the loop to it |
| LtpfAnalysis.BestStep | src/ltpf.c:398-402 | trying one more phase keeps the best so far, or replaces it exactly when the new value is strictly greater |
| LtpfAnalysis.Consider | src/ltpf.c:398-402 | `if ((d = interpolate_4(re, d)) > dm) dm = d, f = d` keeps the first best phase of the phases tried so far |
| LtpfAnalysis.TrialsNext | src/ltpf.c:392-402 | each pass of the loop tries nothing when skipped, else +i, then −i above lag 32 |
| LtpfAnalysis.BestSoFarIsBest | src/ltpf.c:391-403 | once all phases are tried, the best so far is the first phase of largest value |
| LtpfAnalysis.SelectPhase | src/ltpf.c:391-403 | the loop returns the first tried phase of largest interpolated correlation (strictly greater replaces) |
| LtpfAnalysis.Normalise | src/ltpf.c:405-406 | a negative phase borrows from e, keeping 4e + f |
| LtpfAnalysis.NormaliseValid | src/ltpf.c:395-406 | every normalised tried phase gives a lag the index can represent |
| LtpfAnalysis.FirstMaxStep | src/ltpf.c:398-402 | a new value becomes the first maximum only when strictly greater than the current one |
| LtpfAnalysis.ValuesAppend | src/ltpf.c:398-402 | the values of one more tried phase extend the values by its own |
| LtpfAnalysis.PhaseIndex | src/ltpf.c:405-410 | the normalised selected phase is a representable lag whose 9-bit index decodes back to 4e + f |
| LtpfAnalysis.BestLag | src/ltpf.c:388 | definition: r0 plus the first maximum over the window's correlations; `IntegerLag` and `RefinePitch` carry its properties |
| LtpfAnalysis.IntegerLag | src/ltpf.c:388 | the integer lag is the first maximum of the window's correlations and lies in the window |
| LtpfAnalysis.Fraction | src/ltpf.c:391-410 | the selected phase, normalised, gives pitch 4e + d and an index in [0, 512) that decodes to it |
| LtpfAnalysis.RefinePitch | src/ltpf.c:378-411 | e is the first maximum in the window, f the selected phase; the pitch is 4e + f and the index encodes it and decodes back to it |
| LtpfAnalysis.PitchDiff | src/ltpf.c:464-465 | the absolute difference of the two pitches |
| LtpfAnalysis.Activation | src/ltpf.c:463-475 | no activation without a pitch |
| LtpfAnalysis.ActivationHysteresis | src/ltpf.c:463-475 | whatever turns the filter on also keeps it on |
| LtpfAnalysis.StrongKeepsActive | src/ltpf.c:468-469 | an active filter with nc > 0.9f stays on whatever the pitch |
| LtpfAnalysis.WeakStaysInactive | src/ltpf.c:472-474 | an inactive filter stays off while nc ≤ 0.94f or the previous nc ≤ 0.94f |
| LtpfAnalysis.N12k8 | src/ltpf.c:422 | the samples per frame at 12.8 kHz are the frame duration at that rate, and even |
| LtpfAnalysis.Slide | src/ltpf.c:424-428 | the history becomes old[n..] followed by the n new samples; its length is unchanged |
| LtpfAnalysis.Analysis.DetectPitch | src/ltpf.c:340-369 | tc is the weighted global first maximum unless the local one is more than 0.85f times as well correlated; lag = 17 + tc in [17, 114]; pitch present iff the chosen nc > 0.6f |
| LtpfAnalysis.Analysis.Analyse | src/ltpf.c:416-483 | both histories slide; without a pitch: pitch 0, nc 0, index untouched; with one: a valid index decoding to the pitch; nc[1] ← old nc[0]; active and data.active follow the hysteresis |
| LtpfSynthesis.PitchIndexOf | src/ltpf.c:599 | definition: the side information's pitch index, 0 without side information; `ParamsOf` uses it |
| LtpfSynthesis.ScaledPitch | src/ltpf.c:600-605 | definition: the decoded pitch rescaled to the sample rate; `ScaledPitchRange` carries its bounds |
| LtpfSynthesis.Nbits | src/ltpf.c:607 | definition: the bitrate per frame with the `int` product wrapped and C's division; `GainIndex` carries its use |
| LtpfSynthesis.FilterActive | src/ltpf.c:609 | definition: side information present, active and g_idx < 4; `ParamsOf` and `NumRowInTable` carry its properties |
| LtpfSynthesis.CDiv | src/ltpf.c:605 | C's `/` for a positive divisor truncates toward zero: the remainder a − b·q has the sign of a and magnitude below b |
| LtpfSynthesis.ScaledPitchRange | src/ltpf.c:605 | for every 9-bit index the scaled pitch is between khz·10 and (915·khz·10 + 64)/128, so at least 20 whole samples |
| LtpfSynthesis.GainIndex | src/ltpf.c:607-608 | g_idx ≥ 0; it is 0 exactly when nbits/80 ≤ 3 + sr, otherwise nbits/80 − (3 + sr) |
| LtpfSynthesis.Width | src/ltpf.c:611 | the width is between 4 and 12 |
| LtpfSynthesis.TableWidth | src/ltpf.c:576-584 | definition: the filter width of each rate's entry in the dispatch table; `WidthMatchesTable` carries its property |
| LtpfSynthesis.WidthMatchesTable | src/ltpf.c:576-584 | max(4, khz/4) is the width the per-rate dispatch table uses (4, 4, 6, 8, 12) |
| LtpfSynthesis.TransitionLength | src/ltpf.c:622-623 | ns / (3 + dt) divides exactly: ns = 3·nt at 7.5 ms and 4·nt at 10 ms |
| LtpfSynthesis.FrameSplit | src/ltpf.c:622-646 | nt and ns − nt are multiples of w, and the w − 1 samples before nt and before ns lie inside the frame |
| LtpfSynthesis.NumRowAsWritten | src/ltpf.c:617 | definition: the numerator row as the source indexes it, g_idx unclamped; `NumRowAsWrittenLeavesTable` shows it leaves the table |
| LtpfSynthesis.NumRow | src/ltpf.c:617 | definition: the corrected row min(g_idx, 3); `NumRowInTable` carries its property |
| LtpfSynthesis.Gain | src/ltpf.c:615 | definition: 0.4f − 0.05f·g_idx when active, otherwise 0; `Coefficient` carries its effect |
| LtpfSynthesis.NumRowAsWrittenLeavesTable | src/ltpf.c:617 | at 48 kHz, 10 ms and 155 bytes, g_idx is 8 and the numerator row read is outside the 4-row table |
| LtpfSynthesis.NumRowInTable | src/ltpf.c:617 | the clamped row is always in the table and equals the row read whenever the filter is active |
| LtpfSynthesis.Coefficient | src/ltpf.c:614-618 | every coefficient is 0 when the filter is off |
| LtpfSynthesis.CoefficientSeq | src/ltpf.c:612-618 | there are 2w coefficients |
| LtpfSynthesis.ComputeCoefficients | src/ltpf.c:614-618 | the loop fills c[i] and c[w+i] for i < w with the reversed, gain-scaled table rows |
| LtpfSynthesis.RingStart | src/ltpf.c:510 | definition: `x - xr < lag ? x + (nr - lag) : x - lag` on ring indices; `RingStartInRing` carries its property |
| LtpfSynthesis.RingNext | src/ltpf.c:518 | definition: `y < y_end ? y + 1 : xr` on ring indices; `RingNextInRing` carries its property |
| LtpfSynthesis.RingStartInRing | src/ltpf.c:510 | the read start is in the ring and equals (pos − lag) mod nr |
| LtpfSynthesis.RingNextInRing | src/ltpf.c:511-518 | advancing stays in the ring and equals (y + 1) mod nr, wrapping from nr − 1 to 0 |
| LtpfSynthesis.ReadPositions | src/ltpf.c:508-535 | the w − 1 + n positions read are (pos − (lag + w/2) + k) mod nr, all in the ring |
| LtpfSynthesis.CrossfadeStart | src/ltpf.c:638 | definition: `(x <= xr ? x + nr : x) - (w-1)` on ring indices; `CrossfadeWraps` carries its property |
| LtpfSynthesis.CrossfadeWraps | src/ltpf.c:637-638 | the fade-in history with `(x <= xr ? x + nr : x) - (w-1)` is the w − 1 ring samples before the frame, wrapping |
| LtpfSynthesis.X0Of | src/ltpf.c:624-638 | definition: the `x0` samples a call reads, saved ones or the w − 1 ring samples before the frame; `CrossfadeWraps` carries the latter |
| LtpfSynthesis.Apply | src/ltpf.c:499-546 | one `synthesize_template` call keeps the ring's length and replaces only its own samples; `ApplyOutside` and `Step` carry this |
| LtpfSynthesis.ApplyOutside | src/ltpf.c:531-545 | one filter call changes only the samples it covers |
| LtpfSynthesis.Run | src/ltpf.c:629-646 | the calls applied in order keep the ring's length; `RunAppend` and `RunOutside` carry its properties |
| LtpfSynthesis.RunOutside | src/ltpf.c:629-646 | calls within [lo, hi) of the frame leave every other sample unchanged |
| LtpfSynthesis.AllFitSplit | src/ltpf.c:629-646 | both parts of a sequence of calls that fits the ring fit it |
| LtpfSynthesis.RunAppend | src/ltpf.c:629-646 | calls applied in sequence compose: running a + b is running b after a |
| LtpfSynthesis.Transition | src/ltpf.c:629-639 | definition: the four-way choice of calls over the first nt samples; `TransitionShape` carries its properties |
| LtpfSynthesis.Remainder | src/ltpf.c:645-646 | definition: the steady call over [nt, ns) when the filter is on; `PlanFits` carries its property |
| LtpfSynthesis.Plan | src/ltpf.c:629-646 | definition: the transition, then the remainder; `PlanFits`, `PlanStaysInFrame` and `StaysOffLeavesFrame` carry its properties |
| LtpfSynthesis.PlanStaysInFrame | src/ltpf.c:626-646 | the synthesis of a frame leaves every ring sample outside the frame unchanged |
| LtpfSynthesis.TransitionShape | src/ltpf.c:629-639 | no call iff the filter stays off; two calls iff both frames are active with different pitches; every call covers the first nt samples; the last call is the filter in use; the previous filter fades out iff activity or pitch changes |
| LtpfSynthesis.StaysOffLeavesFrame | src/ltpf.c:629-646 | a filter that stays off leaves the frame unchanged |
| LtpfSynthesis.ParamsOf | src/ltpf.c:599-623 | w, ns, nt and g_idx as derived above, active iff data ∧ data.active ∧ g_idx < 4, and the frame split |
| LtpfSynthesis.PlanFits | src/ltpf.c:626-646 | the transition stays within [0, nt) and the remainder within [nt, ns) of the frame |
| LtpfSynthesis.Synthesis.Synthesize | src/ltpf.c:590-653 | the frame becomes the planned calls applied in order; the state keeps the frame's last w − 1 unfiltered inputs, the activity, the pitch and the 2w coefficients, and nothing else of it changes |
| LtpfSynthesis.Synthesis.SynthesizeWith | src/ltpf.c:610-652 | with the frame's parameters known: the state stores what `Stored` lists and the frame is filtered as `FrameFiltered` says |
| LtpfSynthesis.Synthesis.Filter | src/ltpf.c:624-646 | filters the frame with the state's previous filter and history and returns the unfiltered tail |
| LtpfSynthesis.Synthesis.Commit | src/ltpf.c:643-652 | stores the tail, activity, pitch and coefficients; the rest of the arrays is unchanged |
| LtpfSynthesis.FilterFrame | src/ltpf.c:626-646 | the transition, then the remainder, applied to the ring; the tail is captured before the remainder is filtered |
| LtpfSynthesis.CopyInto | src/ltpf.c:652 | memcpy: the prefix becomes the source and the rest is unchanged |
| LtpfSynthesis.Step | src/ltpf.c:531-545 | one filter call writes its samples in place, as `Apply` says |
| ByteStream.Count | src/bytestream/bytestream.c:27-32 | at most obj_cnt objects whose bytes fit, and as many as fit |
| ByteStream.NoWholeObject | src/bytestream/bytestream.c:27-30 | no whole object fits iff fewer than obj_siz bytes remain |
| ByteStream.CountOne | src/bytestream/bytestream.c:27-31 | a single object moves whole or not at all |
| ByteStream.Stream.Init | src/bytestream/bytestream.c:5-17 | −1 exactly for a null buffer, zero size, BM_NONE or a mode above BM_WRITE, leaving the stream as it was; otherwise the stream covers the buffer |
| ByteStream.Moved | src/bytestream/bytestream.c:32 | the bytes moved fit in what is left and in obj_cnt objects |
| ByteStream.MovedUnits | src/bytestream/bytestream.c:27-32 | one 2-byte object moves when 2 bytes are left; n single bytes move min(left, n) |
| ByteStream.CopyOut | src/bytestream/bytestream.c:34 | `memcpy(fill, b, n)`: the first n bytes of `fill` become the n bytes at the cursor, the rest of `fill` is unchanged |
| ByteStream.CopyIn | src/bytestream/bytestream.c:57 | `memcpy(b, data, n)`: the buffer becomes its prefix, the first n data bytes and its old tail |
| ByteStream.Stream.Read | src/bytestream/bytestream.c:19-40 | −1 unless reading, −2 when no whole object remains, both with no change; otherwise count = min(bsiz/obj_siz, obj_cnt) returned as an `int` (wrapping from 2^31), the next count·obj_siz bytes are copied and consumed, the rest of `fill` is unchanged, and consumed + left is unchanged |
| ByteStream.Stream.Write | src/bytestream/bytestream.c:42-63 | −1 unless writing, −2 when no whole object fits, both with no change; otherwise the count is as for reading and returned the same way, the data's first count·obj_siz bytes land at the cursor, and every other byte is unchanged |
| Lc3Header.ToBytes | src/header/header.c:24 | the 18-byte little-endian image of the header struct; `DecodeToBytes` carries its property |
| Lc3Header.Decode | src/header/header.c:24 | definition: the header read from the first 18 bytes copied; `DecodeToBytes` carries its property |
| Lc3Header.DecodeToBytes | src/header/header.c:24 | copying a header's image back gives the same header |
| Lc3Header.FromBytes | src/header/header.c:17-31 | −1 iff siz < 18, header untouched; −2 iff the file id is wrong, header zeroed; else 0 with the copied header |
| Lc3Header.ClampBitrate | src/header/header.c:63-69 | the bitrate clamped to [16000, 320000] |
| Lc3Header.SplitLow | src/header/header.c:77 | definition: `nsamples & 0xffff`; `JoinSplit` carries its property |
| Lc3Header.SplitHigh | src/header/header.c:78 | definition: `nsamples >> 16` stored into a `uint16_t`; `JoinSplit` carries its property |
| Lc3Header.Join | src/lc3bin.c:144 | low ∣ high << 16 is low + 65536·high when high < 2^15 |
| Lc3Header.JoinSplit | src/header/header.c:77-78 | splitting any 32-bit count into halves and joining them gives it back |
| Lc3Header.Init | src/header/header.c:47-81 | −1 on a bad rate before −2 on a bad duration, header untouched; else id, size 18, rate/100, clamped bitrate/100, channels, duration/10 and split sample count, `rfu` kept |
| Lc3Header.InitThenFromBytes | src/header/header.c:17-81 | the image of an initialised header is accepted and read back field for field |
| Lc3Bin.Info | src/lc3bin.c:141-144 | while the high half stays below 2^15, the sample count is low + 65536·high |
| Lc3Bin.ReadHeader | src/lc3bin.c:123-147 | −1 iff 18 bytes cannot be read, with no change; otherwise 18 bytes consumed, −2 iff the id is wrong, else 0 with the header's values; on −1 and −2 the caller's four values are left as they were |
| Lc3Bin.ParseFrame | src/lc3bin.c:152-164 | success only for a readable length n with 0 < n ≤ nch·400, n mod nch = 0 and n bytes present, giving n/nch; a zero length is the divide-by-zero case |
| Lc3Bin.ReadData | src/lc3bin.c:152-164 | the result and the bytes consumed are those of ParseFrame; on success the buffer's first n bytes hold the payload and the rest is unchanged, on failure it is all unchanged |
| Lc3Bin.ReadBlock | src/lc3bin.c:159 | succeeds iff n bytes remain; then they are copied and consumed and the rest of the buffer is unchanged, otherwise nothing changes |
| Lc3Bin.FrameImage | src/lc3bin.c:203-208 | a block is 2 + n bytes |
| Lc3Bin.WriteLength | src/lc3bin.c:204-207 | the 2-byte length is written whole, when the stream writes and 2 bytes are left, or not at all |
| Lc3Bin.WritePayload | src/lc3bin.c:208-211 | min(left, n) payload bytes land at the cursor; success iff all n fit and a byte was left |
| Lc3Bin.TwoWrites | src/lc3bin.c:204-211 | the prefix then k payload bytes written behind it are the two stored together |
| Lc3Bin.WriteData | src/lc3bin.c:198-213 | 0 iff writable with room for the prefix and n bytes, and at least 3 bytes; then the buffer holds the prefix (nch·frame_bytes) mod 65536 and the payload at the cursor; no change when even the prefix cannot be written; after a short payload write the prefix and the min(left − 2, n) bytes that fit are there, the cursor advanced |
| Lc3Bin.WriteHeader | src/lc3bin.c:169-193 | −1 iff header init fails, −2 iff the 18 bytes do not fit, both with no change; else the header's image at the cursor |
| Lc3Bin.HeaderRoundTrip | src/lc3bin.c:141-144 | a header written for a supported rate and duration and a channel count below 2^16 (the `uint16_t` field of src/header/header.c:75) reads back the same duration, rate, channels and sample count |
| Lc3Bin.FrameRoundTrip | src/lc3bin.c:156-163 | a block written for nch channels of 0 < fb ≤ 400 bytes with nch·fb < 2^16 (the `uint16_t` prefix of src/lc3bin.c:203) reads back as fb with the same payload |
| Lc3Bin.LargeBlockDoesNotRoundTrip | src/lc3bin.c:203-208 | without that bound the block is lost: at 164 channels of 400 bytes the prefix is 64, only 64 bytes are written, and the reader rejects the block since 64 is not a multiple of 164 |
| Wave.WaveId | src/include/wave.h:9-10 | an id's little-endian image is its four characters |
| Wave.ToBytes | src/wave/wave.c:20 | the 44-byte little-endian image of the header struct; `DecodeToBytes` carries its property |
| Wave.Decode | src/wave/wave.c:20 | definition: the header read from the first 44 bytes copied; `DecodeToBytes` carries its property |
| Wave.DecodeToBytes | src/wave/wave.c:20 | copying a header's image back gives the same header |
| Wave.CalcByterate | src/wave/wave.c:30 | definition: samplerate·framesize in `uint32_t` arithmetic; `Read` and `BuiltFormat` use it |
| Wave.Acceptable | src/wave/wave.c:26-42 | definition: every check `wave_header_read` makes; `Read` and `BuildThenValidate` carry its properties |
| Wave.Read | src/wave/wave.c:13-45 | −1 iff siz < 44, header untouched; otherwise the header holds the copy and the result is 0 iff it is acceptable (RIFF/WAVE, "fmt ", PCM, non-zero channels, rate and frame size, byterate = rate·framesize mod 2^32, bit depth 16 or 24, "data"), else −2 |
| Wave.Init | src/wave/wave.c:53-85 | always 0; data size n·f·s mod 2^32, file size 36 + data size mod 2^32, format size 16, byte rate rate·n·s mod 2^32, frame size n·s mod 2^16, ids and PCM |
| Wave.BuiltFormat | src/wave/wave.c:30-37 | the built format passes the field checks once channels, rate and frame size fit their fields |
| Wave.BuildThenValidate | src/wave/wave.c:13-85 | the image of a built header is accepted when channels, rate and sample size are positive, bit depth is 16 or 24 and n·s < 65536 |

## Left out

- Floating-point numerics. Their values are `real` inputs:
  - the resampling filters, `dot`, `correlate`, `interpolate`, `interpolate_4` and the `sqrtf` normalisations (src/ltpf.c:36-232, 282-331, 358-362, 455-458);
  - the filter arithmetic of `synthesize_template` (src/ltpf.c:513-545), whose outputs a `Filter` function gives for each call, including the gain ramp `g`/`g_incr`. Since that code is deterministic, its output is a function of the call's arguments and the ring at the call's start.
- The tables. `tables.h` is not part of this model. `lc3_ltpf_cden` and `lc3_ltpf_cnum` are parameters, and the four numerator rows per rate follow the LC3 specification.
- `lc3.h` is not part of this model. Its sample rates, durations, bitrate bounds (16000 and 320000) and largest frame size (400 bytes) are the LC3 codec's values. `LC3_NR` and the history sizes are the lengths of the arrays passed in.
- `LtpfSynthesis.Synthesis.Synthesize`: the ring layout is a requirement (`CrossfadeInRing`). The frame does not wrap inside the ring, and at least w − 1 samples precede it unless it starts the ring. The source leaves this to the caller.
- `LtpfSynthesis.Synthesis.Synthesize`: the side information is passed by value (`Side`). A null pointer is `NoPitch`.
- The bit writer and reader (`lc3_put_bit`, `lc3_put_bits`, `lc3_get_bit`, `lc3_get_bits`) are foreign. They are modelled as ideal bit sequences.
- `LtpfAnalysis.Analysis.Analyse` is weaker than the source on one point. It states that the stored pitch is in range and that the index decodes to it. It does not restate which lag is chosen; `Analysis.DetectPitch` and `RefinePitch` state that choice.
- The analysis history offset (`x_12k8 -= 44 or 24`, src/ltpf.c:430) positions the input of the 6.4 kHz resampler, of `refine_pitch`'s correlation and of both `interpolate` calls (src/ltpf.c:441, 453-456). The model does not track positions in the 12.8 kHz history: the resampled samples, the correlations and the interpolations that read it are inputs.
- Rounding of the core's own `float` arithmetic. The model computes these exactly on reals: `0.85f * nc1` and `nc - ltpf->nc[0]` in the comparisons (src/ltpf.c:364, 466), the weight `w += w_incr` and the products `x[i] * w` of `argmax_weighted` (src/ltpf.c:265-269), the gain `0.4f - 0.05f * g_idx` and the coefficient products `g * cden` and `0.85f * g * cnum` (src/ltpf.c:615-617). A comparison whose operands lie within a rounding error of each other can therefore come out differently in C.
- The pitch products `4e + f` and `(pitch * khz * 10 + 64) / 128` (src/ltpf.c:408-410, 600-605) are exact. For the 9-bit indices that the analysis and `lc3_ltpf_get_data` produce they stay far inside `int`.
- The zero-length frame block. `lc3bin_bread_data` passes a zero length to `bread`, which divides by it. `Lc3Bin.ReadData` reports this as `ZeroDivision` and stops; C gives it no defined result.
- `Lc3Bin.WriteData` requires nchannels·frame_bytes to fit a C `int`, since an overflow there is undefined.
- Blocks of 65536 bytes or more. `lc3bin_bwrite_data` stores nchannels·frame_bytes in a `uint16_t` prefix (src/lc3bin.c:203) and writes only that many payload bytes (src/lc3bin.c:208), so a larger block is silently truncated and cannot be read back. `Lc3Bin.FrameRoundTrip` is stated for nch·fb < 2^16 only, and `Lc3Bin.LargeBlockDoesNotRoundTrip` shows the failure at 164 channels of 400 bytes.
- `Lc3Header.Join`: `hdr.nsamples_high << 16` (src/lc3bin.c:144) overflows a C `int` once the high half is 0x8000 or more, which C leaves undefined. `Join` wraps it in two's complement, so the negative sample counts `Lc3Bin.HeaderRoundTrip` covers rest on that choice.
- `wave_header_init`'s `int` products can overflow. `Wave.Init` wraps them in two's complement, which C leaves undefined.
- The stdio `FILE*` functions of src/lc3bin.c:29-118. They are I/O.
- `src/file_coder.c`, `src/stream_coder.c`, `tools/elc3.c` and `tools/dlc3.c`. They orchestrate the codec, memory allocation, files, the command line and timing.
- `src/include/log.h` is logging to stderr.

## Findings

| source | as written | input that shows it | evidently intended | confidence | as-written member | corrected member |
|---|---|---|---|---|---|---|
| src/ltpf.c:617 | the coefficient loop reads row `g_idx` of `lc3_ltpf_cnum[sr]` for every frame, also when g_idx ≥ 4 and the filter is off (the gain is then 0, but the read is outside the table) | 48 kHz, 10 ms, nbytes = 155: nbits = 1240, g_idx = 8 | read row min(g_idx, 3); an active filter always has g_idx < 4, so its coefficients are unchanged | not executed; four rows per rate as in the LC3 specification | LtpfSynthesis.NumRowAsWrittenLeavesTable | LtpfSynthesis.NumRowInTable |
