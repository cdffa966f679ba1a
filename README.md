# sonify-synth, modelled in Dafny

This project models the sample-level core of **sonify-synth**, a small additive
synthesizer that turns data into spatial stereo audio:

- `AudioEngine` (`engine.py`):
  - `_generate_wave` builds harmonics with optional vibrato, skips anything at or above Nyquist, and normalises each note to its peak.
  - `_apply_adsr` applies the ADSR envelope, with its integer segment split and short-note fallback.
  - `_apply_lpf` is the one-pole low-pass recurrence.
  - `_calculate_spatial_gains` computes the distance gain `1 / (1 + 0.5 d)` and the constant-power pan.
  - `render` mixes every note into a 2 x N buffer in place, then normalises the whole buffer once by its peak.
- `scale_data` and `midi_to_freq` (`utils.py`).
- `DataSonifier.sonify_2d` and `sonify_3d` (`sonification.py`): `sonify_2d` maps X to start time and Y to pitch; `sonify_3d` also maps X to pan, Y to depth, and a third input Z to filter cutoff and height.
- The `PRESETS` instrument table (`instruments.py`).

The modules follow the program:

| Module | What it holds |
|---|---|
| `Wrappers` | `Option` and `Result`. |
| `ArrayOps` | The numpy operations the code relies on: `int()` truncation, `np.max(np.abs(..))`, min and max, `linspace`, and dividing by the peak. |
| `Instruments` | The preset records. |
| `Utils` | `scale_data` and `midi_to_freq`. |
| `Engine` | `AudioEngine`. |
| `Sonification` | `DataSonifier`. |

How the model represents things:

- **Samples** are exact reals.
- **Floating-point functions** (`sin`, `cos`, `sqrt`, `arctan2` and `2**x`) are parameters.
  - They are the `Engine.Trig` record of function values and `exp2`.
  - The types record only their ranges: `sin` and `cos` lie in [-1, 1], `sqrt` is non-negative, and `2**x` is positive.
  - A lemma that needs a particular value, such as `arctan2(0, 0) = 0`, takes it as a precondition.
- **`np.pi`** is the decimal constant 3.141592653589793.
- **Errors.** The numpy calls that raise are modelled as `Engine.Error` inside a `Result`:
  - `NegativeDimension`: `np.linspace` or `np.zeros` asked for a negative length.
  - `EmptyReduction`: `np.max` over an empty array, which happens for a zero-length note or buffer.
- **Imperative parts** are methods with loops or arrays, each proved equal to a specification function:
  - `GenerateWave`: `SumHarmonics`, a harmonics loop that adds into an `array`, then `NormalizeWaveInPlace`, an in-place divide.
  - `ApplyLpf`: the `prev`-carrying loop.
  - `Render`: an `array2` buffer, with in-place adds per note and an in-place normalisation.
  - `Sonify2D` and `Sonify3D`: the append loops `Collect2D` and `Collect3D`, run over the mapped sequences.
- **The rest** (ADSR, spatial gains, `scale_data`, the presets) is pure functions and constants.

Notes on the code's behaviour, which the model follows:

- **Sample counts** use `int()` (truncation), not rounding.
- **The time axis of a note** is `linspace(0, duration, n, endpoint=False)`. Sample k is therefore at `k * duration / n`, not `k / sample_rate`.
- **The filter's `rc`** includes the `1e-10` term of the code.
- **`render`** always produces a stereo 2 x N buffer. The code has no mono path.
- **The distance gain.** A comment in the code calls it the inverse square law, but the code computes `1 / (1 + 0.5 d)`. The model uses the formula.

## Model

| member | source | states |
|---|---|---|
| ArrayOps.Trunc | sonify-synth/src/sonify_synth/engine.py:66-68 | `int(x)` truncates toward zero: for x >= 0 the result r is the largest integer with r <= x; for x < 0 it is the smallest with x <= r. |
| ArrayOps.PeakAbs | sonify-synth/src/sonify_synth/engine.py:58 | `np.max(np.abs(s))` bounds the absolute value of every sample and is attained by one of them. |
| ArrayOps.PeakZeroIffSilent | sonify-synth/src/sonify_synth/engine.py:58-59 | The peak is non-negative, and it is zero exactly when every sample is zero, so the division branch is skipped exactly for silence. |
| ArrayOps.SeqMin | sonify-synth/src/sonify_synth/utils.py:58 | `np.min` is an element of the data and a lower bound of all of it. |
| ArrayOps.SeqMax | sonify-synth/src/sonify_synth/utils.py:58 | `np.max` is an element of the data and an upper bound of all of it. |
| ArrayOps.Div | sonify-synth/src/sonify_synth/engine.py:59 | Dividing by the peak keeps the length, and each result times the peak gives back the original sample. |
| ArrayOps.DivConcat | sonify-synth/src/sonify_synth/engine.py:203 | Dividing the whole 2 x N buffer equals dividing each row by the same peak. |
| ArrayOps.NormalizePeak | sonify-synth/src/sonify_synth/engine.py:58-59 | Peak normalisation keeps the length, leaves a silent signal unchanged, and otherwise divides every sample by the one positive peak: r[k] * peak == s[k]. |
| ArrayOps.AbsDiv | sonify-synth/src/sonify_synth/engine.py:59 | After dividing by the peak, each absolute value is at most 1, and exactly 1 where it was the peak. |
| ArrayOps.DivByPeak | sonify-synth/src/sonify_synth/engine.py:58-59 | A signal divided by its positive peak has peak exactly 1. |
| ArrayOps.NormalizePeakUnit | sonify-synth/src/sonify_synth/engine.py:58-61 | A silent signal is returned unchanged; any other signal comes out with peak exactly 1. |
| ArrayOps.Linspace | sonify-synth/src/sonify_synth/engine.py:81-84 | `np.linspace(start, stop, num)` has `num` points, the first is `start`, and when `num > 1` the last is `stop`; a one-point ramp holds only `start`. |
| ArrayOps.Blend | sonify-synth/src/sonify_synth/engine.py:81-84 | A point a fraction f in [0, 1] of the way from a to b lies between a and b. |
| ArrayOps.LinspaceBetween | sonify-synth/src/sonify_synth/engine.py:81-84 | Every linspace point lies between its two ends. |
| Instruments.PresetNames | sonify-synth/src/sonify_synth/instruments.py:3-28 | Exactly four presets exist: piano, violin, cello and flute. |
| Instruments.PresetsWellFormed | sonify-synth/src/sonify_synth/instruments.py:3-28 | Every preset has a non-empty harmonics list starting with 1.0 and with weights in [0, 1], attack, decay and release > 0, sustain in [0, 1], and a non-negative vibrato rate. |
| Instruments.PresetVibrato | sonify-synth/src/sonify_synth/instruments.py:3-28 | Piano has vibrato rate 0, so it never takes the vibrato branch; violin, cello and flute have a positive rate. |
| Instruments.FluteOddHarmonics | sonify-synth/src/sonify_synth/instruments.py:23 | The flute has five harmonic weights, and the even harmonics (indices 1 and 3) weigh 0. |
| Utils.MidiToFreq | sonify-synth/src/sonify_synth/utils.py:10-20 | `440 * 2**((n - 69) / 12)` is a positive frequency. |
| Utils.MidiA4 | sonify-synth/src/sonify_synth/utils.py:20 | MIDI note 69 is 440 Hz. |
| Utils.MidiOctave | sonify-synth/src/sonify_synth/utils.py:20 | Twelve semitones up doubles the frequency. |
| Utils.Rescale | sonify-synth/src/sonify_synth/utils.py:62 | The affine rescale `out_min + (x - d_min) * (out_max - out_min) / (d_max - d_min)`, as a plain definition; the `Rescale*` lemmas below state what it promises. |
| Utils.RescaleAsFraction | sonify-synth/src/sonify_synth/utils.py:62 | The affine rescale equals out_min plus the input's fraction of [d_min, d_max] times the output width. |
| Utils.RescaleEnds | sonify-synth/src/sonify_synth/utils.py:62 | The rescale sends d_min to out_min and d_max to out_max. |
| Utils.FractionInUnit | sonify-synth/src/sonify_synth/utils.py:62 | A point of [lo, hi] is a fraction in [0, 1] of the way from lo to hi. |
| Utils.RescaleBetween | sonify-synth/src/sonify_synth/utils.py:62 | A point of [d_min, d_max] is rescaled between out_min and out_max. |
| Utils.RescaleMonotone | sonify-synth/src/sonify_synth/utils.py:62 | With out_min <= out_max, the rescale preserves order. |
| Utils.RescaleInverse | sonify-synth/src/sonify_synth/utils.py:62 | Rescaling to [0, 1] and back to [lo, hi] recovers the point. |
| Utils.RescaleCoupled | sonify-synth/src/sonify_synth/utils.py:62 | Two rescales of one point onto different ranges are affine images of each other. |
| Utils.ScaleData | sonify-synth/src/sonify_synth/utils.py:43-62 | `scale_data` keeps the length, and all-equal data maps every element to out_min. |
| Utils.ScaleEndpoints | sonify-synth/src/sonify_synth/utils.py:62 | For non-constant data, an element equal to the minimum maps to out_min and one equal to the maximum maps to out_max. |
| Utils.ScaleBounds | sonify-synth/src/sonify_synth/utils.py:58-62 | With out_min <= out_max, every output lies in [out_min, out_max]. |
| Utils.ScaleMonotone | sonify-synth/src/sonify_synth/utils.py:58-62 | With out_min <= out_max, a smaller input never gets a larger output. |
| Utils.UnitScaleExtremes | sonify-synth/src/sonify_synth/utils.py:62 | Non-constant data scaled to [0, 1] has minimum exactly 0 and maximum exactly 1. |
| Utils.ScaleRoundTrip | sonify-synth/src/sonify_synth/utils.py:62 | Scaling non-constant data to [0, 1] and then to its own [min, max] gives back the data. |
| Engine.SampleCount | sonify-synth/src/sonify_synth/engine.py:166 | `int(sample_rate * seconds)` is the whole number of samples the time holds, never more; a negative time gives a count <= 0. |
| Engine.TimeAxis | sonify-synth/src/sonify_synth/engine.py:38 | The time axis has n points and starts at 0. |
| Engine.VibratoPhase | sonify-synth/src/sonify_synth/engine.py:41-47 | The phase term has one value per time point, and every value is 0 unless `v_rate > 0`. |
| Engine.Partial | sonify-synth/src/sonify_synth/engine.py:54-56 | One weighted sine term; its absolute value never exceeds the absolute weight. |
| Engine.HarmonicTerm | sonify-synth/src/sonify_synth/engine.py:51-56 | Harmonic i + 1 contributes nothing at or above the Nyquist frequency, and never more than its absolute weight. |
| Engine.HarmonicSumBounded | sonify-synth/src/sonify_synth/engine.py:49-56 | The sum `HarmonicSum` accumulates never exceeds the sum of the absolute harmonic weights. |
| Engine.RawWave | sonify-synth/src/sonify_synth/engine.py:49-56 | The harmonic sum has one sample per time point. |
| Engine.Wave | sonify-synth/src/sonify_synth/engine.py:26-61 | `_generate_wave` succeeds exactly when `int(sr * duration) > 0` and then returns that many samples. Otherwise it fails with the numpy error for a negative or an empty length. |
| Engine.WaveUnitPeak | sonify-synth/src/sonify_synth/engine.py:58-61 | A generated note is silent or has peak absolute value exactly 1. |
| Engine.NyquistSkip | sonify-synth/src/sonify_synth/engine.py:50-56 | The weight of a harmonic at or above Nyquist has no effect on the sum. |
| Engine.WaveIgnoresAboveNyquist | sonify-synth/src/sonify_synth/engine.py:50-56 | Changing the weight of a harmonic at or above Nyquist leaves the generated wave unchanged. |
| Engine.WaveIgnoresWidthWithoutVibrato | sonify-synth/src/sonify_synth/engine.py:44-47 | With vibrato rate <= 0, the vibrato width has no effect on the wave. |
| Engine.SumAllAboveNyquist | sonify-synth/src/sonify_synth/engine.py:50-56 | When every harmonic is at or above Nyquist, the sum is 0. |
| Engine.SilentAboveNyquist | sonify-synth/src/sonify_synth/engine.py:50-61 | A fundamental at or above Nyquist gives an all-zero wave, which is returned without division. |
| Engine.SumHarmonics | sonify-synth/src/sonify_synth/engine.py:49-56 | The harmonics loop adds every harmonic below the Nyquist limit into a fresh zeroed buffer and yields exactly `RawWave`. |
| Engine.NormalizeWaveInPlace | sonify-synth/src/sonify_synth/engine.py:58-59 | The in-place divide leaves the buffer equal to `NormalizePeak` of its old contents: divided by the peak when that is positive, unchanged otherwise. |
| Engine.GenerateWave | sonify-synth/src/sonify_synth/engine.py:26-61 | The in-place harmonics loop and the in-place divide by the peak compute exactly `Wave`. |
| Engine.AdsrSegments | sonify-synth/src/sonify_synth/engine.py:65-76 | The attack is `int(attack * sr)`; the segments fill the note exactly when the attack fits and are the attack alone otherwise; when all three fit, decay and release are `int(t * sr)` too. |
| Engine.SplitSegments | sonify-synth/src/sonify_synth/engine.py:65-78 | The attack is kept. If it fits, the segments add up to the note length. If everything fits, decay and release are kept. Otherwise sustain is 0 and the remainder is halved, with release getting the odd sample. If even the attack does not fit, decay and release are 0. |
| Engine.Envelope | sonify-synth/src/sonify_synth/engine.py:80-85 | The concatenated envelope is as long as its four segments together. |
| Engine.AdsrEnvelope | sonify-synth/src/sonify_synth/engine.py:65-88 | The envelope is never shorter than the note, so the zero pad never fires. It has the note's length, or the attack's length when the attack alone overruns the note. |
| Engine.PadTo | sonify-synth/src/sonify_synth/engine.py:87-88 | The envelope padded with zeros to at least the note length, with its own samples kept in front. |
| Engine.ApplyAdsr | sonify-synth/src/sonify_synth/engine.py:63-90 | `_apply_adsr` keeps the wave's length, and each sample is the wave sample times the envelope at the same index. |
| Engine.EnvelopeInUnit | sonify-synth/src/sonify_synth/engine.py:80-85 | With sustain in [0, 1], every envelope value lies in [0, 1]. |
| Engine.EnvelopeStartsSilent | sonify-synth/src/sonify_synth/engine.py:81 | The attack ramp starts at 0. |
| Engine.EnvelopeShape | sonify-synth/src/sonify_synth/engine.py:81-83 | For an attack longer than one sample the last attack sample is at level 1 (a one-sample attack holds only 0), and the sustain segment holds the sustain level. |
| Engine.AdsrAttenuates | sonify-synth/src/sonify_synth/engine.py:80-90 | With sustain in [0, 1], the envelope never increases a sample's absolute value. |
| Engine.LpfAlpha | sonify-synth/src/sonify_synth/engine.py:94-96 | For a positive cutoff, the filter coefficient lies strictly between 0 and 1. |
| Engine.Prev | sonify-synth/src/sonify_synth/engine.py:97-101 | The carried filter state, 0 before the first sample and then the last output, as a plain definition; `LowpassRecurrence` states what it gives the filter. |
| Engine.FilterStep | sonify-synth/src/sonify_synth/engine.py:100 | One filter step: an input equal to the state keeps the state, and alpha = 1 passes the input through. |
| Engine.Lowpass | sonify-synth/src/sonify_synth/engine.py:97-102 | The filtered signal has the input's length. |
| Engine.LowpassPrefix | sonify-synth/src/sonify_synth/engine.py:99-101 | The filter is causal: the first j outputs depend only on the first j inputs. |
| Engine.LowpassRecurrence | sonify-synth/src/sonify_synth/engine.py:98-101 | `filtered[0] = alpha * audio[0]`, and `filtered[i] = filtered[i-1] + alpha * (audio[i] - filtered[i-1])`. |
| Engine.StepBetween | sonify-synth/src/sonify_synth/engine.py:100 | One filter step with alpha in [0, 1] lands between the previous output and the input. |
| Engine.LowpassBounded | sonify-synth/src/sonify_synth/engine.py:97-102 | If 0 and every input lie in [lo, hi], so does every output. |
| Engine.LowpassWithinInput | sonify-synth/src/sonify_synth/engine.py:97-102 | Every output lies between min(0, min audio) and max(0, max audio). |
| Engine.LowpassIdentity | sonify-synth/src/sonify_synth/engine.py:100 | With alpha = 1 the filter passes the signal through unchanged. |
| Engine.ApplyLpf | sonify-synth/src/sonify_synth/engine.py:92-102 | The `prev`-carrying loop computes exactly `Lowpass` with the coefficient from the cutoff. |
| Engine.Distance | sonify-synth/src/sonify_synth/engine.py:126-129 | The source-to-listener distance is non-negative. |
| Engine.DistanceGain | sonify-synth/src/sonify_synth/engine.py:131 | `1 / (1 + 0.5 d)` lies in (0, 1] and is exactly 1 iff the distance is 0. |
| Engine.DistanceGainDecreasing | sonify-synth/src/sonify_synth/engine.py:131 | A farther source never gets a larger distance gain. |
| Engine.PanAngle | sonify-synth/src/sonify_synth/engine.py:135-141 | The constant-power angle `(sin(arctan2(dx, dy)) + 1) / 2 * pi / 2` lies in [0, pi/2]. |
| Engine.SpatialGains | sonify-synth/src/sonify_synth/engine.py:104-145 | Both gains are the distance gain scaled by a panning factor in [-1, 1], so neither exceeds the distance gain in absolute value. |
| Engine.GainsAtListener | sonify-synth/src/sonify_synth/engine.py:126-143 | A source at the listener gets distance gain 1 and the centre pan, with gains cos(pi/4) and sin(pi/4). |
| Engine.ConstantPower | sonify-synth/src/sonify_synth/engine.py:140-143 | Where cos^2 + sin^2 = 1 at the panning angle, left^2 + right^2 equals the squared distance gain. |
| Engine.Truthy | sonify-synth/src/sonify_synth/engine.py:182 | `if cutoff:` is false for a missing cutoff and for 0.0. |
| Engine.PositionOf | sonify-synth/src/sonify_synth/engine.py:177 | A note's position data, or the origin when it has none, as a plain definition; `OptionalFieldDefaults` states the default. |
| Engine.NoteGains | sonify-synth/src/sonify_synth/engine.py:186 | A note's gains at its position; neither exceeds 1 in absolute value. |
| Engine.NoteWave | sonify-synth/src/sonify_synth/engine.py:179-183 | A note's mono signal exists exactly when its sample count is positive, and it has that many samples. |
| Engine.OptionalFieldDefaults | sonify-synth/src/sonify_synth/engine.py:175-183 | A falsy cutoff (missing or 0) leaves the note unfiltered, and a missing position is the origin. |
| Engine.StartIndex | sonify-synth/src/sonify_synth/engine.py:189 | A non-negative start time gives a non-negative start index. |
| Engine.Silence | sonify-synth/src/sonify_synth/engine.py:168 | `np.zeros((2, n))`: two rows of n zeros. |
| Engine.AddAt | sonify-synth/src/sonify_synth/engine.py:198-199 | Adding a slice into a row keeps the row's length. |
| Engine.MixNote | sonify-synth/src/sonify_synth/engine.py:189-199 | Mixing a note keeps both rows at the buffer length. |
| Engine.MixAll | sonify-synth/src/sonify_synth/engine.py:170-199 | After the note loop, both rows have the buffer length. |
| Engine.NormalizeStereo | sonify-synth/src/sonify_synth/engine.py:201-203 | Both rows keep their length; a silent buffer is unchanged, and otherwise both rows are divided by the one peak of the whole 2 x N buffer. |
| Engine.RenderSpec | sonify-synth/src/sonify_synth/engine.py:147-205 | `render` fails when the buffer length `int(sr * total_duration)` is not positive; on success it returns two rows of exactly that length. |
| Engine.MixNoteEffect | sonify-synth/src/sonify_synth/engine.py:189-199 | Mixing a note adds `wave[k - start] * gain` to both rows at every index in [start, min(N, start + len)). Every other sample is unchanged. |
| Engine.MixNoteDropped | sonify-synth/src/sonify_synth/engine.py:192 | A note with start index >= N changes nothing. |
| Engine.MixNoteTruncated | sonify-synth/src/sonify_synth/engine.py:193-199 | A note running past the end is cut to N - start samples, not dropped, and still lands in [start, N). |
| Engine.MixNoteCommutes | sonify-synth/src/sonify_synth/engine.py:198-199 | Mixing is addition, so the order of two notes does not change the buffer. |
| Engine.RenderSilent | sonify-synth/src/sonify_synth/engine.py:166-205 | With no notes and a positive length, `render` returns silence. |
| Engine.RenderNormalized | sonify-synth/src/sonify_synth/engine.py:201-205 | The returned buffer is all zeros, or has peak absolute value exactly 1 across both channels. |
| Engine.MixAllSucceeds | sonify-synth/src/sonify_synth/engine.py:170-199 | The note loop fails only through a note whose sample count is not positive. |
| Engine.RenderSucceeds | sonify-synth/src/sonify_synth/engine.py:166-205 | With a positive buffer length and every note at least one sample long, `render` succeeds. |
| Engine.MixNoteBalanced | sonify-synth/src/sonify_synth/engine.py:198-199 | Adding a note whose gains are in the ratio a : b keeps every sample pair of the buffer in that ratio. |
| Engine.NormalizeBalanced | sonify-synth/src/sonify_synth/engine.py:202-203 | The master normalisation divides both rows by the one joint peak, so it keeps every left/right ratio. |
| Engine.MixAllBalanced | sonify-synth/src/sonify_synth/engine.py:170-199 | When every note's gains are in the ratio a : b, the mixed buffer's sample pairs are all in that ratio. |
| Engine.RenderBalanced | sonify-synth/src/sonify_synth/engine.py:166-203 | When every note's gains are in the ratio a : b, so is every sample pair of the rendered buffer: panning survives mixing and normalisation. |
| Engine.RenderCentred | sonify-synth/src/sonify_synth/engine.py:186-203 | When every note has equal left and right gains, the two rendered channels are identical. |
| Engine.MixAllFailureSticks | sonify-synth/src/sonify_synth/engine.py:170-183 | Once a note raises, the whole render raises that error. |
| Engine.MixInto | sonify-synth/src/sonify_synth/engine.py:189-199 | The in-place slice additions on the 2 x N array compute exactly `MixNote`. |
| Engine.NormalizeInPlace | sonify-synth/src/sonify_synth/engine.py:201-203 | The in-place division computes exactly `NormalizeStereo`. |
| Engine.RenderNote | sonify-synth/src/sonify_synth/engine.py:179-183 | Wave, then envelope, then the filter when the cutoff is truthy, compute exactly `NoteWave`. |
| Engine.Render | sonify-synth/src/sonify_synth/engine.py:147-205 | The method returns a fresh 2-row array whose rows are `RenderSpec`'s result, or `RenderSpec`'s error. |
| Sonification.MidiNotes | sonify-synth/src/sonify_synth/sonification.py:54 | `scale_data(y, lo, hi).astype(int)` keeps the length and gives notes in [lo, hi]. Constant data gives every note lo. |
| Sonification.MidiNotesOrder | sonify-synth/src/sonify_synth/sonification.py:54 | A larger data value never gives a lower note. For non-constant data, the minimum gives lo and the maximum gives hi. |
| Sonification.Shorter | sonify-synth/src/sonify_synth/sonification.py:30 | The length `zip` stops at: one of the two lengths and no more than either. |
| Sonification.Zip2D | sonify-synth/src/sonify_synth/sonification.py:29-33 | One event per index up to the given count; each starts at its scaled time, lasts 0.2 s, has no cutoff and sits at the origin. |
| Sonification.Notes2D | sonify-synth/src/sonify_synth/sonification.py:26-35 | `sonify_2d` returns one note per (x, y) pair, up to the shorter input. With duration >= 0 the list is renderable. |
| Sonification.Collect2D | sonify-synth/src/sonify_synth/sonification.py:29-35 | Appending one 0.2 s unfiltered event at the origin per index builds exactly `Zip2D` of the mapped sequences. |
| Sonification.Sonify2D | sonify-synth/src/sonify_synth/sonification.py:21-35 | Scaling the data and then running the append loop builds exactly `Notes2D`. |
| Sonification.Notes2DShape | sonify-synth/src/sonify_synth/sonification.py:26-33 | Every 2D note is 0.2 s long, has no cutoff, sits at the origin, starts within [0, duration] and plays a MIDI note in [48, 84]. |
| Sonification.Notes2DOrder | sonify-synth/src/sonify_synth/sonification.py:26-31 | A smaller x never starts later; the minimum x starts at 0 and the maximum at `duration`. A smaller y never gives a higher pitch. |
| Sonification.Notes2DRenderBalanced | sonify-synth/src/sonify_synth/sonification.py:33 | With the listener at the origin, every 2D note gets the gains cos(pi/4) and sin(pi/4), so each rendered sample pair satisfies left * sin(pi/4) == right * cos(pi/4): the channels differ only by that fixed ratio. |
| Sonification.Zip3D | sonify-synth/src/sonify_synth/sonification.py:65-73 | One event per index up to the given count; each starts at its scaled time, lasts 0.3 s, and takes its cutoff and its position from the same index. |
| Sonification.Notes3D | sonify-synth/src/sonify_synth/sonification.py:53-75 | `sonify_3d` returns one note per x value; with duration >= 0 the list is renderable. |
| Sonification.Collect3D | sonify-synth/src/sonify_synth/sonification.py:65-75 | Appending one 0.3 s event per index, with that index's cutoff and position, builds exactly `Zip3D` of the mapped sequences. |
| Sonification.Sonify3D | sonify-synth/src/sonify_synth/sonification.py:37-75 | Scaling the data and then running the append loop builds exactly `Notes3D`. |
| Sonification.Notes3DShape | sonify-synth/src/sonify_synth/sonification.py:53-73 | Every 3D note is 0.3 s long, starts within [0, duration], has a cutoff in [500, 8000], sits in the room x in [-10, 10], y in [0, 20], z in [-5, 5], and plays a MIDI note in [48, 72]. |
| Sonification.ScaleCoupled | sonify-synth/src/sonify_synth/sonification.py:53-63 | Two `scale_data` calls on the same data are affine images of each other, element by element. |
| Sonification.PanFollowsTime | sonify-synth/src/sonify_synth/sonification.py:53-59 | The x position is `-10 + 20 * start / duration`. |
| Sonification.HeightFollowsCutoff | sonify-synth/src/sonify_synth/sonification.py:55-63 | The z position is `-5 + 10 * (cutoff - 500) / 7500`. |
| Sonification.Notes3DCoupling | sonify-synth/src/sonify_synth/sonification.py:47-73 | A note's x position is tied to its start time, and its height to its cutoff. |
| Sonification.Notes3DOrder | sonify-synth/src/sonify_synth/sonification.py:53-63 | Larger x, y and z never give a smaller x position, y position or z position and cutoff, respectively. |

## Left out

- `save_wav` is not modelled. It writes a file through scipy and casts to 16-bit integers.
- The sonify-plot package is not part of this model: `extract.py` (pandas and matplotlib dispatch), `wrapper.py` (glue and IPython playback), `__init__.py` and `demo_spatial.py`.
- `install.py` is not part of this model. It uses git, pip and the network.
- Floating point is not modelled: samples are exact reals.
- `sin`, `cos`, `sqrt`, `arctan2` and `2**x` are parameters constrained only by their ranges. Facts about particular values are preconditions of the lemmas that need them.
- The `AudioEngine` and `DataSonifier` constructors are not modelled.
  - The sample rate is a parameter of type `Rate`, a positive integer. A rate of 0 would divide by zero in the filter (engine.py:95). A negative rate gives a negative `int(sr * dur)` for a positive duration, so `np.linspace` raises first.
  - The unused `engine` field of `DataSonifier` is dropped.
- `Instruments.Instrument` always carries a vibrato rate and width. The `params.get(.., 0)` defaults for missing keys are therefore not modelled; a dictionary without them behaves like rate and width 0.
- `Engine.NoteWave` requires a positive cutoff when the cutoff is truthy (`FilterValid`). A negative cutoff makes the filter coefficient meaningless.
- `Engine.MixAll`, `Engine.RenderSpec` and `Engine.Render` also require every note to start at or after 0 (`Renderable`). A negative start index would hit Python's negative slicing.
- `Engine.AdsrSegments` requires non-negative attack, decay and release (`ValidAdsr`). The model excludes negative times, which the code sometimes rejects and sometimes silently accepts. A negative count that reaches `np.linspace` raises. But when `s_len` is already negative, for example because the release is long, a negative decay is recomputed from what the attack leaves, and nothing raises. A tiny negative attack truncates to 0.
- `Engine.Render`: a note tuple of length 5 or 6, which has a partial position, is not modelled. A note is either fully positioned or has no position.
- `Utils.ScaleData` requires non-empty data, because `np.min` raises on an empty array. `Sonify2D` and `Sonify3D` inherit this.
- `Sonification.Sonify3D` requires the y and z data to be at least as long as the x data. Shorter data raises an IndexError in the loop.
- `Utils.ScaleData`: data is real-valued. numpy's `full_like` keeps an integer dtype for integer input, but every call in the core uses an integer `out_min`, so this makes no difference.
- `Engine.Render` returns only the first error raised. Python raises it as an exception and returns no partial buffer; `Result` models the same thing.
