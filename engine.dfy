/**
 * `AudioEngine` of engine.py: additive synthesis with vibrato, the ADSR
 * envelope, the one-pole low-pass filter, stereo gains from a 3-D position,
 * and the mixer that renders a note sequence into a normalised 2 x N buffer.
 *
 * Samples are exact reals. The floating-point functions the engine calls
 * (sin, cos, sqrt, arctan2) are the parameter `m: Trig`; only their ranges
 * are known. The sample rate, a field of the Python object that is never
 * reassigned, is the parameter `sr`.
 */
module Engine {
  import opened Wrappers
  import opened ArrayOps
  import opened Instruments

  /** numpy's `np.pi`. */
  const PI: real := 3.141592653589793

  type Rate = r: int | 0 < r witness 44100
  type Unit = x: real | -1.0 <= x <= 1.0
  type NonNegative = x: real | 0.0 <= x

  /** `np.sin`, `np.cos`, `np.sqrt`, `np.arctan2`, known only by their ranges. */
  datatype Trig = Trig(sin: real -> Unit, cos: real -> Unit, sqrt: real -> NonNegative, atan2: (real, real) -> real)

  /** The ValueErrors numpy raises inside the engine. */
  datatype Error =
    | NegativeDimension  // a negative sample count handed to np.linspace or np.zeros
    | EmptyReduction     // np.max over an array of length zero

  datatype Vec3 = Vec3(x: real, y: real, z: real)

  const Origin: Vec3 := Vec3(0.0, 0.0, 0.0)

  /**
   * One note of the sequence `render` consumes: `(freq, start, dur[, cutoff[, x, y, z]])`.
   * A missing cutoff or position is `None`.
   */
  datatype NoteEvent = NoteEvent(freq: real, start: real, duration: real, cutoff: Option<real>, position: Option<Vec3>)

  // ---------------------------------------------------------------- sample counts

  lemma RateTimesSign(sr: Rate, seconds: real)
    ensures 0.0 <= seconds ==> 0.0 <= sr as real * seconds
    ensures seconds < 0.0 ==> sr as real * seconds < 0.0
  {
    if seconds < 0.0 {
      MulPositive(sr as real, -seconds);
    } else {
      MulNonNegative(sr as real, seconds);
    }
  }

  /** `int(sample_rate * seconds)`: truncation, so never more samples than the time holds. */
  function SampleCount(sr: Rate, seconds: real): (n: int)
    ensures 0.0 <= seconds ==> 0 <= n && n as real <= sr as real * seconds < n as real + 1.0
    ensures seconds < 0.0 ==> n <= 0
  {
    RateTimesSign(sr, seconds);
    Trunc(sr as real * seconds)
  }

  // ---------------------------------------------------------------- _generate_wave

  /** `np.linspace(0, duration, n, endpoint=False)`: sample k is at k * duration / n. */
  function TimeAxis(duration: real, n: nat): (t: seq<real>)
    ensures |t| == n
    ensures 0 < n ==> t[0] == 0.0
  {
    seq(n, k requires 0 <= k < n => k as real * (duration / n as real))
  }

  /** The vibrato phase term at each time; all zeros unless the vibrato rate is positive. */
  function VibratoPhase(m: Trig, vRate: real, vWidth: real, t: seq<real>): (phase: seq<real>)
    ensures |phase| == |t|
    ensures !(0.0 < vRate) ==> forall k :: 0 <= k < |t| ==> phase[k] == 0.0
  {
    if 0.0 < vRate then seq(|t|, k requires 0 <= k < |t| => (vWidth / vRate) * m.sin(2.0 * PI * vRate * t[k]))
    else seq(|t|, _ => 0.0)
  }

  /** `weight * sin(2*pi*hf*t + (i + 1) * phase)`: harmonic i + 1, at frequency hf, at time t. */
  function Partial(m: Trig, hf: real, i: nat, weight: real, t: real, phase: real): (r: real)
    ensures Abs(r) <= Abs(weight)
  {
    var s := m.sin(2.0 * PI * hf * t + (i + 1) as real * phase);
    SineScaled(weight, s);
    weight * s
  }

  /** A weight times a value in [-1, 1] is no larger in absolute value than the weight. */
  lemma SineScaled(w: real, s: real)
    requires -1.0 <= s <= 1.0
    ensures Abs(w * s) <= Abs(w)
  {
    if 0.0 <= s {
      ScaledByUnit(w, s);
    } else {
      ScaledByUnit(w, -s);
      assert w * -s == -(w * s);
    }
  }

  /** Harmonic i + 1 at time t; it contributes nothing at or above the Nyquist frequency. */
  function HarmonicTerm(m: Trig, sr: Rate, freq: real, i: nat, weight: real, t: real, phase: real): (r: real)
    ensures sr as real / 2.0 <= freq * (i + 1) as real ==> r == 0.0
    ensures Abs(r) <= Abs(weight)
  {
    var hf := freq * (i + 1) as real;
    if hf < sr as real / 2.0 then Partial(m, hf, i, weight, t, phase) else 0.0
  }

  /** The sum of the absolute harmonic weights. */
  function AbsSum(weights: seq<real>): real
    decreases |weights|
  {
    if |weights| == 0 then 0.0 else AbsSum(weights[..|weights| - 1]) + Abs(weights[|weights| - 1])
  }

  /** The sum the harmonics loop accumulates, one harmonic at a time. */
  function HarmonicSum(m: Trig, sr: Rate, freq: real, weights: seq<real>, t: real, phase: real): real
    decreases |weights|
  {
    if |weights| == 0 then 0.0
    else
      HarmonicSum(m, sr, freq, weights[..|weights| - 1], t, phase)
        + HarmonicTerm(m, sr, freq, |weights| - 1, weights[|weights| - 1], t, phase)
  }

  /** The harmonic sum never exceeds the sum of the absolute weights. */
  lemma {:induction false} HarmonicSumBounded(m: Trig, sr: Rate, freq: real, weights: seq<real>, t: real, phase: real)
    ensures Abs(HarmonicSum(m, sr, freq, weights, t, phase)) <= AbsSum(weights)
    decreases |weights|
  {
    if 0 < |weights| {
      HarmonicSumBounded(m, sr, freq, weights[..|weights| - 1], t, phase);
    }
  }

  /** The waveform before peak normalisation. */
  function RawWave(m: Trig, sr: Rate, freq: real, duration: real, n: nat, inst: Instrument): (w: seq<real>)
    ensures |w| == n
  {
    var t := TimeAxis(duration, n);
    var phase := VibratoPhase(m, inst.vRate, inst.vWidth, t);
    seq(n, k requires 0 <= k < n => HarmonicSum(m, sr, freq, inst.harmonics, t[k], phase[k]))
  }

  /**
   * `_generate_wave`: exactly `int(sr * duration)` samples, peak-normalised.
   * A negative count makes np.linspace raise; a zero count makes np.max raise.
   */
  function Wave(m: Trig, sr: Rate, freq: real, duration: real, inst: Instrument): (r: Result<seq<real>, Error>)
    ensures r.Success? <==> 0 < SampleCount(sr, duration)
    ensures r.Success? ==> |r.value| == SampleCount(sr, duration)
    ensures r.Failure? ==> r.error == if SampleCount(sr, duration) < 0 then NegativeDimension else EmptyReduction
  {
    var n := SampleCount(sr, duration);
    if n < 0 then Failure(NegativeDimension)
    else if n == 0 then Failure(EmptyReduction)
    else Success(NormalizePeak(RawWave(m, sr, freq, duration, n, inst)))
  }

  /** A generated wave is silent or has peak absolute value exactly 1. */
  lemma WaveUnitPeak(m: Trig, sr: Rate, freq: real, duration: real, inst: Instrument)
    requires Wave(m, sr, freq, duration, inst).Success?
    ensures var w := Wave(m, sr, freq, duration, inst).value;
      AllZero(w) || PeakAbs(w) == 1.0
  {
    var n := SampleCount(sr, duration);
    NormalizePeakUnit(RawWave(m, sr, freq, duration, n, inst));
  }

  /** The weight of a harmonic at or above the Nyquist frequency does not matter. */
  lemma {:induction false} NyquistSkip(m: Trig, sr: Rate, freq: real, weights: seq<real>, i: nat, w: real, t: real, phase: real)
    requires i < |weights| && sr as real / 2.0 <= freq * (i + 1) as real
    ensures HarmonicSum(m, sr, freq, weights[i := w], t, phase) == HarmonicSum(m, sr, freq, weights, t, phase)
    decreases |weights|
  {
    var last := |weights| - 1;
    var changed := weights[i := w];
    assert changed[..last] == if i < last then weights[..last][i := w] else weights[..last];
    if i < last {
      NyquistSkip(m, sr, freq, weights[..last], i, w, t, phase);
    }
  }

  /** Changing the weight of a harmonic at or above Nyquist leaves the generated wave unchanged. */
  lemma WaveIgnoresAboveNyquist(m: Trig, sr: Rate, freq: real, duration: real, inst: Instrument, i: nat, w: real)
    requires i < |inst.harmonics| && sr as real / 2.0 <= freq * (i + 1) as real
    ensures Wave(m, sr, freq, duration, inst.(harmonics := inst.harmonics[i := w])) == Wave(m, sr, freq, duration, inst)
  {
    var other := inst.(harmonics := inst.harmonics[i := w]);
    var n := SampleCount(sr, duration);
    if 0 < n {
      var t := TimeAxis(duration, n);
      var phase := VibratoPhase(m, inst.vRate, inst.vWidth, t);
      forall k | 0 <= k < n
        ensures RawWave(m, sr, freq, duration, n, other)[k] == RawWave(m, sr, freq, duration, n, inst)[k]
      {
        NyquistSkip(m, sr, freq, inst.harmonics, i, w, t[k], phase[k]);
      }
      assert RawWave(m, sr, freq, duration, n, other) == RawWave(m, sr, freq, duration, n, inst);
    }
  }

  /** With the vibrato rate at or below zero the vibrato width plays no part. */
  lemma WaveIgnoresWidthWithoutVibrato(m: Trig, sr: Rate, freq: real, duration: real, inst: Instrument, width: real)
    requires inst.vRate <= 0.0
    ensures Wave(m, sr, freq, duration, inst.(vWidth := width)) == Wave(m, sr, freq, duration, inst)
  {
    var n := SampleCount(sr, duration);
    if 0 < n {
      assert RawWave(m, sr, freq, duration, n, inst.(vWidth := width)) == RawWave(m, sr, freq, duration, n, inst);
    }
  }

  lemma {:induction false} SumAllAboveNyquist(m: Trig, sr: Rate, freq: real, weights: seq<real>, t: real, phase: real)
    requires sr as real / 2.0 <= freq
    ensures HarmonicSum(m, sr, freq, weights, t, phase) == 0.0
    decreases |weights|
  {
    if 0 < |weights| {
      var i := |weights| - 1;
      MulNonNegative(freq, i as real);
      assert freq <= freq * (i + 1) as real;
      SumAllAboveNyquist(m, sr, freq, weights[..i], t, phase);
    }
  }

  /** A fundamental at or above Nyquist gives silence: every harmonic is skipped and nothing is divided. */
  lemma SilentAboveNyquist(m: Trig, sr: Rate, freq: real, duration: real, inst: Instrument)
    requires sr as real / 2.0 <= freq
    requires Wave(m, sr, freq, duration, inst).Success?
    ensures AllZero(Wave(m, sr, freq, duration, inst).value)
  {
    var n := SampleCount(sr, duration);
    var raw := RawWave(m, sr, freq, duration, n, inst);
    var t := TimeAxis(duration, n);
    var phase := VibratoPhase(m, inst.vRate, inst.vWidth, t);
    forall k | 0 <= k < n ensures raw[k] == 0.0 {
      SumAllAboveNyquist(m, sr, freq, inst.harmonics, t[k], phase[k]);
    }
    PeakZeroIffSilent(raw);
  }

  lemma HarmonicSumStep(m: Trig, sr: Rate, freq: real, weights: seq<real>, i: nat, t: seq<real>, phase: seq<real>)
    requires i < |weights| && |t| == |phase|
    ensures forall k :: 0 <= k < |t| ==>
      HarmonicSum(m, sr, freq, weights[..i + 1], t[k], phase[k])
        == HarmonicSum(m, sr, freq, weights[..i], t[k], phase[k]) + HarmonicTerm(m, sr, freq, i, weights[i], t[k], phase[k])
  {
    assert weights[..i + 1][..i] == weights[..i];
  }

  /** The harmonics loop of `_generate_wave`: `wave += weight * sin(..)` for each harmonic below Nyquist. */
  method SumHarmonics(m: Trig, sr: Rate, freq: real, duration: real, n: nat, inst: Instrument) returns (wave: array<real>)
    ensures fresh(wave) && wave[..] == RawWave(m, sr, freq, duration, n, inst)
  {
    var t := TimeAxis(duration, n);
    var phase := VibratoPhase(m, inst.vRate, inst.vWidth, t);
    wave := new real[n](_ => 0.0);
    for i := 0 to |inst.harmonics|
      invariant wave.Length == n
      invariant forall k :: 0 <= k < n ==> wave[k] == HarmonicSum(m, sr, freq, inst.harmonics[..i], t[k], phase[k])
    {
      var weight := inst.harmonics[i];
      var harmonicFreq := freq * (i + 1) as real;
      ghost var before := wave[..];
      if harmonicFreq < sr as real / 2.0 {
        forall k | 0 <= k < n {
          wave[k] := wave[k] + Partial(m, harmonicFreq, i, weight, t[k], phase[k]);
        }
      }
      assert forall k :: 0 <= k < n ==> wave[k] == before[k] + HarmonicTerm(m, sr, freq, i, weight, t[k], phase[k]);
      HarmonicSumStep(m, sr, freq, inst.harmonics, i, t, phase);
    }
    assert inst.harmonics[..|inst.harmonics|] == inst.harmonics;
  }

  /** `if np.max(np.abs(wave)) > 0: wave /= np.max(np.abs(wave))`, in place. */
  method NormalizeWaveInPlace(wave: array<real>)
    requires 0 < wave.Length
    modifies wave
    ensures wave[..] == NormalizePeak(old(wave[..]))
  {
    ghost var raw := wave[..];
    var peak := PeakAbs(wave[..]);
    if 0.0 < peak {
      forall k | 0 <= k < wave.Length {
        wave[k] := wave[k] / peak;
      }
      assert wave[..] == Div(raw, peak);
    }
  }

  /** `_generate_wave`, accumulating the harmonics into a zeroed buffer and dividing it by its peak in place. */
  method GenerateWave(m: Trig, sr: Rate, freq: real, duration: real, inst: Instrument) returns (res: Result<seq<real>, Error>)
    ensures res == Wave(m, sr, freq, duration, inst)
  {
    var n := SampleCount(sr, duration);
    if n < 0 {
      return Failure(NegativeDimension);
    }
    var wave := SumHarmonics(m, sr, freq, duration, n, inst);
    if n == 0 {
      return Failure(EmptyReduction);
    }
    NormalizeWaveInPlace(wave);
    return Success(wave[..]);
  }


  // ---------------------------------------------------------------- _apply_adsr

  /** Sample counts of the attack, decay, sustain and release segments. */
  datatype Segments = Segments(attack: nat, decay: nat, sustain: nat, release: nat)
  {
    function Total(): nat
    {
      attack + decay + sustain + release
    }
  }

  /**
   * The segment split of `_apply_adsr` for a note of `total` samples. When the
   * note is too short for the full envelope, sustain is dropped and what the
   * attack leaves is halved between decay and release.
   */
  function SplitSegments(total: nat, a: nat, d: nat, r: nat): (seg: Segments)
    ensures seg.attack == a
    ensures a <= total ==> seg.Total() == total
    ensures total < a ==> seg == Segments(a, 0, 0, 0)
    ensures a + d + r <= total ==> seg.decay == d && seg.release == r
    ensures total < a + d + r ==> seg.sustain == 0 && seg.decay <= seg.release <= seg.decay + 1
  {
    if a + d + r <= total then Segments(a, d, total - (a + d + r), r)
    else
      var remaining := total - a;
      if 0 < remaining then Segments(a, remaining / 2, 0, remaining - remaining / 2)
      else Segments(a, 0, 0, 0)
  }

  /** The four concatenated pieces: ramp 0 to 1, ramp 1 to sustain, constant sustain, ramp sustain to 0. */
  function Envelope(seg: Segments, sustain: real): (env: seq<real>)
    ensures |env| == seg.Total()
  {
    Linspace(0.0, 1.0, seg.attack) + Linspace(1.0, sustain, seg.decay)
      + seq(seg.sustain, _ => sustain) + Linspace(sustain, 0.0, seg.release)
  }

  /** The segments for an ADSR in seconds, each count truncated by `int()`. */
  function AdsrSegments(sr: Rate, total: nat, adsr: Adsr): (seg: Segments)
    requires ValidAdsr(adsr)
    ensures seg.attack == Trunc(adsr.attack * sr as real)
    ensures seg.attack <= total ==> seg.Total() == total
    ensures total < seg.attack ==> seg.Total() == seg.attack
    ensures seg.attack + Trunc(adsr.decay * sr as real) + Trunc(adsr.release * sr as real) <= total ==>
      seg.decay == Trunc(adsr.decay * sr as real) && seg.release == Trunc(adsr.release * sr as real)
  {
    MulNonNegative(adsr.attack, sr as real);
    MulNonNegative(adsr.decay, sr as real);
    MulNonNegative(adsr.release, sr as real);
    SplitSegments(total, Trunc(adsr.attack * sr as real), Trunc(adsr.decay * sr as real), Trunc(adsr.release * sr as real))
  }

  /** The envelope before padding; it is never shorter than the note, so the zero pad never fires. */
  function AdsrEnvelope(sr: Rate, total: nat, adsr: Adsr): (env: seq<real>)
    requires ValidAdsr(adsr)
    ensures total <= |env|
    ensures |env| == total || |env| == AdsrSegments(sr, total, adsr).attack
  {
    Envelope(AdsrSegments(sr, total, adsr), adsr.sustain)
  }

  /** `np.pad` with zeros up to `total`. */
  function PadTo(env: seq<real>, total: nat): (r: seq<real>)
    ensures |r| == if |env| < total then total else |env|
    ensures r[..|env|] == env
    ensures forall k :: |env| <= k < |r| ==> r[k] == 0.0
  {
    if |env| < total then env + seq(total - |env|, _ => 0.0) else env
  }

  /** Padding an envelope that is already long enough changes nothing. */
  lemma PadNoOp(env: seq<real>, total: nat)
    requires total <= |env|
    ensures PadTo(env, total) == env
  {
  }

  /** `_apply_adsr`: the wave times the envelope, sample by sample, at the wave's own length. */
  function ApplyAdsr(sr: Rate, wave: seq<real>, adsr: Adsr): (r: seq<real>)
    requires ValidAdsr(adsr)
    ensures |r| == |wave|
    ensures forall k :: 0 <= k < |wave| ==> r[k] == Gained(wave[k], AdsrEnvelope(sr, |wave|, adsr)[k])
  {
    var full := AdsrEnvelope(sr, |wave|, adsr);
    PadNoOp(full, |wave|);
    var env := PadTo(full, |wave|);
    seq(|wave|, k requires 0 <= k < |wave| => Gained(wave[k], env[k]))
  }

  /** With sustain in [0, 1], every envelope value lies in [0, 1]. */
  lemma EnvelopeInUnit(seg: Segments, sustain: real)
    requires 0.0 <= sustain <= 1.0
    ensures forall k :: 0 <= k < |Envelope(seg, sustain)| ==> 0.0 <= Envelope(seg, sustain)[k] <= 1.0
  {
    LinspaceBetween(0.0, 1.0, seg.attack);
    LinspaceBetween(1.0, sustain, seg.decay);
    LinspaceBetween(sustain, 0.0, seg.release);
    var env := Envelope(seg, sustain);
    forall k | 0 <= k < |env| ensures 0.0 <= env[k] <= 1.0 {
      assert env[k] in env;
    }
  }

  /** The attack ramp starts from silence. */
  lemma EnvelopeStartsSilent(seg: Segments, sustain: real)
    requires 0 < seg.attack
    ensures Envelope(seg, sustain)[0] == 0.0
  {
  }

  /** The ramp reaches full level on the last attack sample, and the sustain segment holds the sustain level. */
  lemma EnvelopeShape(seg: Segments, sustain: real, k: nat)
    requires k < seg.Total()
    ensures 1 < seg.attack && k == seg.attack - 1 ==> Envelope(seg, sustain)[k] == 1.0
    ensures seg.attack + seg.decay <= k < seg.attack + seg.decay + seg.sustain ==> Envelope(seg, sustain)[k] == sustain
  {
  }

  /** With sustain in [0, 1] the envelope never amplifies a sample. */
  lemma AdsrAttenuates(sr: Rate, wave: seq<real>, adsr: Adsr)
    requires ValidAdsr(adsr) && 0.0 <= adsr.sustain <= 1.0
    ensures forall k :: 0 <= k < |wave| ==> Abs(ApplyAdsr(sr, wave, adsr)[k]) <= Abs(wave[k])
  {
    var env := AdsrEnvelope(sr, |wave|, adsr);
    var r := ApplyAdsr(sr, wave, adsr);
    AdsrEnvelopeInUnit(sr, |wave|, adsr);
    forall k | 0 <= k < |wave| ensures Abs(r[k]) <= Abs(wave[k]) {
      AttenuatedSample(r[k], wave[k], env[k]);
    }
  }

  lemma AttenuatedSample(r: real, x: real, e: real)
    requires 0.0 <= e <= 1.0 && r == Gained(x, e)
    ensures Abs(r) <= Abs(x)
  {
    ScaledByUnit(x, e);
  }

  lemma AdsrEnvelopeInUnit(sr: Rate, total: nat, adsr: Adsr)
    requires ValidAdsr(adsr) && 0.0 <= adsr.sustain <= 1.0
    ensures forall k :: 0 <= k < |AdsrEnvelope(sr, total, adsr)| ==> 0.0 <= AdsrEnvelope(sr, total, adsr)[k] <= 1.0
  {
    EnvelopeInUnit(AdsrSegments(sr, total, adsr), adsr.sustain);
  }

  lemma ScaledByUnit(x: real, e: real)
    requires 0.0 <= e <= 1.0
    ensures Abs(x * e) <= Abs(x)
  {
    MulNonNegative(Abs(x), e);
    MulNonNegative(Abs(x), 1.0 - e);
    assert Abs(x * e) == Abs(x) * e;
  }


  // ---------------------------------------------------------------- _apply_lpf

  /** `alpha = dt / (rc + dt)` with `rc = 1 / (2*pi*cutoff + 1e-10)` and `dt = 1 / sr`. */
  function LpfAlpha(sr: Rate, cutoff: real): (alpha: real)
    requires 0.0 < cutoff
    ensures 0.0 < alpha < 1.0
  {
    MulPositive(2.0 * PI, cutoff);
    var rc := 1.0 / (2.0 * PI * cutoff + 0.0000000001);
    var dt := 1.0 / sr as real;
    RatioInUnit(1.0, 2.0 * PI * cutoff + 0.0000000001);
    RatioInUnit(dt, rc + dt);
    dt / (rc + dt)
  }

  lemma RatioInUnit(x: real, y: real)
    requires 0.0 < x && 0.0 < y
    ensures 0.0 < x / y
    ensures x < y ==> x / y < 1.0
  {
    var q := x / y;
    assert q * y == x;
    if q <= 0.0 {
      MulNonNegative(-q, y);
    }
    if x < y && 1.0 <= q {
      MulNonNegative(q - 1.0, y);
    }
  }

  /** The filter state carried into the next sample: the last output, 0 before the first. */
  function Prev(y: seq<real>): real
  {
    if |y| == 0 then 0.0 else y[|y| - 1]
  }

  /** One step of the recurrence: move from the previous output toward the input by the fraction alpha. */
  function FilterStep(prev: real, x: real, alpha: real): (r: real)
    ensures x == prev ==> r == prev
    ensures alpha == 1.0 ==> r == x
  {
    prev + alpha * (x - prev)
  }

  /** The outputs of the one-pole recurrence `y[i] = prev + alpha * (x[i] - prev)`, from prev = 0. */
  function Lowpass(audio: seq<real>, alpha: real): (y: seq<real>)
    ensures |y| == |audio|
    decreases |audio|
  {
    if |audio| == 0 then []
    else
      var p := Lowpass(audio[..|audio| - 1], alpha);
      p + [FilterStep(Prev(p), audio[|audio| - 1], alpha)]
  }

  lemma LowpassSnoc(audio: seq<real>, alpha: real)
    requires 0 < |audio|
    ensures var p := Lowpass(audio[..|audio| - 1], alpha);
      Lowpass(audio, alpha) == p + [FilterStep(Prev(p), audio[|audio| - 1], alpha)]
  {
  }

  /** Filtering a prefix gives the prefix of the filtered signal: each output depends only on earlier inputs. */
  lemma {:induction false} LowpassPrefix(audio: seq<real>, alpha: real, j: nat)
    requires j <= |audio|
    ensures Lowpass(audio[..j], alpha) == Lowpass(audio, alpha)[..j]
    decreases |audio|
  {
    if j < |audio| {
      var init := audio[..|audio| - 1];
      LowpassPrefix(init, alpha, j);
      assert init[..j] == audio[..j];
    } else {
      assert audio[..j] == audio;
    }
  }

  /** The first output is `alpha * x[0]`; each later one moves from the previous output toward the input by alpha. */
  lemma LowpassRecurrence(audio: seq<real>, alpha: real, i: nat)
    requires i < |audio|
    ensures i == 0 ==> Lowpass(audio, alpha)[0] == alpha * audio[0]
    ensures 0 < i ==>
      Lowpass(audio, alpha)[i] == Lowpass(audio, alpha)[i - 1] + alpha * (audio[i] - Lowpass(audio, alpha)[i - 1])
  {
    var y := Lowpass(audio, alpha);
    var prefix := audio[..i + 1];
    LowpassPrefix(audio, alpha, i + 1);
    LowpassPrefix(audio, alpha, i);
    assert prefix[..i] == audio[..i];
    LowpassSnoc(prefix, alpha);
    var p := Prev(Lowpass(audio[..i], alpha));
    assert y[i] == FilterStep(p, audio[i], alpha);
    assert p == if i == 0 then 0.0 else y[i - 1];
  }

  /** One filter step stays between the previous output and the input. */
  lemma StepBetween(prev: real, x: real, alpha: real)
    requires 0.0 <= alpha <= 1.0
    ensures Between(prev, x, FilterStep(prev, x, alpha))
  {
    Blend(prev, x, alpha);
  }

  /**
   * For 0 <= alpha <= 1 the filter never leaves any range [lo, hi] that holds
   * the input and the initial state 0.
   */
  lemma {:induction false} LowpassBounded(audio: seq<real>, alpha: real, lo: real, hi: real)
    requires 0.0 <= alpha <= 1.0 && lo <= 0.0 <= hi
    requires forall k :: 0 <= k < |audio| ==> lo <= audio[k] <= hi
    ensures forall k :: 0 <= k < |audio| ==> lo <= Lowpass(audio, alpha)[k] <= hi
    decreases |audio|
  {
    if 0 < |audio| {
      var last := |audio| - 1;
      var p := Lowpass(audio[..last], alpha);
      LowpassBounded(audio[..last], alpha, lo, hi);
      assert lo <= Prev(p) <= hi;
      StepBetween(Prev(p), audio[last], alpha);
      LowpassSnoc(audio, alpha);
    }
  }

  /** Every output lies between min(0, min audio) and max(0, max audio). */
  lemma LowpassWithinInput(audio: seq<real>, alpha: real)
    requires 0.0 <= alpha <= 1.0 && 0 < |audio|
    ensures forall k :: 0 <= k < |audio| ==>
      (if SeqMin(audio) < 0.0 then SeqMin(audio) else 0.0) <= Lowpass(audio, alpha)[k]
        <= (if 0.0 < SeqMax(audio) then SeqMax(audio) else 0.0)
  {
    LowpassBounded(audio, alpha,
      if SeqMin(audio) < 0.0 then SeqMin(audio) else 0.0,
      if 0.0 < SeqMax(audio) then SeqMax(audio) else 0.0);
  }

  /** With alpha = 1 (an infinite cutoff) the filter passes the signal through unchanged. */
  lemma {:induction false} LowpassIdentity(audio: seq<real>)
    ensures Lowpass(audio, 1.0) == audio
    decreases |audio|
  {
    if 0 < |audio| {
      LowpassIdentity(audio[..|audio| - 1]);
      assert audio[..|audio| - 1] + [audio[|audio| - 1]] == audio;
    }
  }

  /** `_apply_lpf`: one pass over the samples in index order, carrying the previous output. */
  method ApplyLpf(sr: Rate, audio: seq<real>, cutoff: real) returns (filtered: seq<real>)
    requires 0.0 < cutoff
    ensures filtered == Lowpass(audio, LpfAlpha(sr, cutoff))
  {
    var alpha := LpfAlpha(sr, cutoff);
    var buf := new real[|audio|](_ => 0.0);
    var prev := 0.0;
    for i := 0 to |audio|
      invariant buf[..i] == Lowpass(audio[..i], alpha)
      invariant prev == Prev(buf[..i])
    {
      buf[i] := FilterStep(prev, audio[i], alpha);
      prev := buf[i];
      assert audio[..i + 1][..i] == audio[..i];
      LowpassSnoc(audio[..i + 1], alpha);
      assert buf[..i + 1] == buf[..i] + [buf[i]];
    }
    assert audio[..|audio|] == audio;
    filtered := buf[..];
  }

  // ---------------------------------------------------------------- _calculate_spatial_gains

  /** Left and right channel gains. */
  datatype Gains = Gains(left: real, right: real)

  /** Euclidean distance from the listener to the source. */
  function Distance(m: Trig, source: Vec3, listener: Vec3): (d: real)
    ensures 0.0 <= d
  {
    var dx, dy, dz := source.x - listener.x, source.y - listener.y, source.z - listener.z;
    m.sqrt(dx * dx + dy * dy + dz * dz)
  }

  /** Distance attenuation `1 / (1 + 0.5 * distance)`: full gain at the listener, falling with distance. */
  function DistanceGain(distance: real): (g: real)
    requires 0.0 <= distance
    ensures 0.0 < g <= 1.0
    ensures g == 1.0 <==> distance == 0.0
  {
    1.0 / (1.0 + 0.5 * distance)
  }

  /** A farther source is never louder. */
  lemma DistanceGainDecreasing(d1: real, d2: real)
    requires 0.0 <= d1 <= d2
    ensures DistanceGain(d2) <= DistanceGain(d1)
  {
    var g1, g2 := DistanceGain(d1), DistanceGain(d2);
    assert g1 * (1.0 + 0.5 * d1) == 1.0 && g2 * (1.0 + 0.5 * d2) == 1.0;
    MulNonNegative(g2, 0.5 * (d2 - d1));
    if g1 < g2 {
      MulPositive(g2 - g1, 1.0 + 0.5 * d1);
    }
  }

  /** `p_norm * pi / 2` with `p_norm = (sin(arctan2(dx, dy)) + 1) / 2`: the constant-power panning angle. */
  function PanAngle(m: Trig, source: Vec3, listener: Vec3): (theta: real)
    ensures 0.0 <= theta <= PI / 2.0
  {
    var dx, dy := source.x - listener.x, source.y - listener.y;
    var pan := m.sin(m.atan2(dx, dy));
    var pNorm := (pan + 1.0) / 2.0;
    pNorm * PI / 2.0
  }

  /** `_calculate_spatial_gains`: both gains are the distance gain times the cos and sin of the panning angle. */
  function SpatialGains(m: Trig, source: Vec3, listener: Vec3): (g: Gains)
    ensures var gd := DistanceGain(Distance(m, source, listener));
      -gd <= g.left <= gd && -gd <= g.right <= gd
  {
    var gainDist := DistanceGain(Distance(m, source, listener));
    var theta := PanAngle(m, source, listener);
    UnitTimesGain(m.cos(theta), gainDist);
    UnitTimesGain(m.sin(theta), gainDist);
    Gains(m.cos(theta) * gainDist, m.sin(theta) * gainDist)
  }

  lemma UnitTimesGain(u: Unit, g: real)
    requires 0.0 <= g
    ensures -g <= u * g <= g
  {
    MulNonNegative(1.0 - u, g);
    MulNonNegative(1.0 + u, g);
  }

  /**
   * A source at the listener's position gets full distance gain and the centre
   * pan: with arctan2(0, 0) = 0 and sin(0) = 0, the gains are cos(pi/4) and sin(pi/4).
   */
  lemma GainsAtListener(m: Trig, listener: Vec3)
    requires m.sqrt(0.0) == 0.0 && m.atan2(0.0, 0.0) == 0.0 && m.sin(0.0) == 0.0
    ensures DistanceGain(Distance(m, listener, listener)) == 1.0
    ensures SpatialGains(m, listener, listener) == Gains(m.cos(PI / 4.0), m.sin(PI / 4.0))
  {
    assert Distance(m, listener, listener) == 0.0;
    assert PanAngle(m, listener, listener) == PI / 4.0;
  }

  /** Constant-power law: where cos^2 + sin^2 = 1 at the panning angle, left^2 + right^2 is the squared distance gain. */
  lemma ConstantPower(m: Trig, source: Vec3, listener: Vec3)
    requires var theta := PanAngle(m, source, listener);
      m.cos(theta) * m.cos(theta) + m.sin(theta) * m.sin(theta) == 1.0
    ensures var g := SpatialGains(m, source, listener);
      var gd := DistanceGain(Distance(m, source, listener));
      g.left * g.left + g.right * g.right == gd * gd
  {
    var theta := PanAngle(m, source, listener);
    var gd := DistanceGain(Distance(m, source, listener));
    var c, s := m.cos(theta), m.sin(theta);
    assert (c * gd) * (c * gd) + (s * gd) * (s * gd) == (c * c + s * s) * (gd * gd);
  }

  // ---------------------------------------------------------------- render

  /** Python truthiness of the cutoff: `None` and 0.0 both switch the filter off. */
  predicate Truthy(cutoff: Option<real>)
    ensures cutoff == None ==> !Truthy(cutoff)
    ensures cutoff == Some(0.0) ==> !Truthy(cutoff)
  {
    cutoff.Some? && cutoff.value != 0.0
  }

  /** A note without position data sits at the origin. */
  function PositionOf(note: NoteEvent): Vec3
  {
    if note.position.Some? then note.position.value else Origin
  }

  /** A note whose filter is modelled: any truthy cutoff it has is positive. */
  predicate FilterValid(note: NoteEvent)
  {
    Truthy(note.cutoff) ==> 0.0 < note.cutoff.value
  }

  /** A note the mixing step is modelled for: it starts at or after 0 and its filter is modelled. */
  predicate NoteRenderable(note: NoteEvent)
  {
    0.0 <= note.start && FilterValid(note)
  }

  predicate Renderable(notes: seq<NoteEvent>)
  {
    forall j :: 0 <= j < |notes| ==> NoteRenderable(notes[j])
  }

  /** The mono signal of one note: wave, then envelope, then the filter when the cutoff is truthy. */
  function NoteWave(m: Trig, sr: Rate, inst: Instrument, note: NoteEvent): (r: Result<seq<real>, Error>)
    requires ValidAdsr(inst.adsr) && FilterValid(note)
    ensures r.Success? <==> 0 < SampleCount(sr, note.duration)
    ensures r.Success? ==> |r.value| == SampleCount(sr, note.duration)
  {
    match Wave(m, sr, note.freq, note.duration, inst)
    case Failure(e) => Failure(e)
    case Success(raw) =>
      var shaped := ApplyAdsr(sr, raw, inst.adsr);
      Success(if Truthy(note.cutoff) then Lowpass(shaped, LpfAlpha(sr, note.cutoff.value)) else shaped)
  }

  /** The gains of a note at its position; they never amplify. */
  function NoteGains(m: Trig, note: NoteEvent, listener: Vec3): (g: Gains)
    ensures -1.0 <= g.left <= 1.0 && -1.0 <= g.right <= 1.0
  {
    SpatialGains(m, PositionOf(note), listener)
  }

  /**
   * The optional fields of a note: a falsy cutoff (missing or 0.0) leaves the
   * note unfiltered, and a missing position places it at the origin.
   */
  lemma OptionalFieldDefaults(m: Trig, sr: Rate, inst: Instrument, note: NoteEvent, listener: Vec3)
    requires ValidAdsr(inst.adsr) && !Truthy(note.cutoff)
    ensures NoteWave(m, sr, inst, note) == NoteWave(m, sr, inst, note.(cutoff := None))
    ensures NoteWave(m, sr, inst, note).Success? ==>
      NoteWave(m, sr, inst, note).value == ApplyAdsr(sr, Wave(m, sr, note.freq, note.duration, inst).value, inst.adsr)
    ensures NoteGains(m, note.(position := None), listener) == NoteGains(m, note.(position := Some(Origin)), listener)
  {
  }

  /** `int(start * sample_rate)`, the first buffer index a note covers. */
  function StartIndex(sr: Rate, start: real): (i: int)
    ensures 0.0 <= start ==> 0 <= i
  {
    RateTimesSign(sr, start);
    Trunc(start * sr as real)
  }

  /** The two rows of the master buffer: row 0 is left, row 1 is right. */
  datatype Stereo = Stereo(left: seq<real>, right: seq<real>)

  function Silence(n: nat): (s: Stereo)
    ensures |s.left| == n && |s.right| == n
    ensures AllZero(s.left) && AllZero(s.right)
  {
    Stereo(seq(n, _ => 0.0), seq(n, _ => 0.0))
  }

  /** `x * gain`, one sample of a note scaled by a channel gain. */
  function Gained(x: real, gain: real): real
  {
    x * gain
  }

  /** `row[start:start + len(w)] += w * gain`. */
  function AddAt(row: seq<real>, w: seq<real>, gain: real, start: nat): (r: seq<real>)
    requires start + |w| <= |row|
    ensures |r| == |row|
  {
    seq(|row|, k requires 0 <= k < |row| => if start <= k < start + |w| then row[k] + Gained(w[k - start], gain) else row[k])
  }

  /**
   * Mixing one note into the buffer: a note starting at or past the end is
   * dropped, one running past the end is cut to fit, and the rest is added
   * into both rows.
   */
  function MixNote(buf: Stereo, wave: seq<real>, g: Gains, start: nat): (out: Stereo)
    requires |buf.left| == |buf.right|
    ensures |out.left| == |out.right| == |buf.left|
  {
    var n := |buf.left|;
    if n <= start then buf
    else
      var w := if n < start + |wave| then wave[..n - start] else wave;
      Stereo(AddAt(buf.left, w, g.left, start), AddAt(buf.right, w, g.right, start))
  }

  /** The buffer after the note loop has run over `notes`, or the error raised by the first note that fails. */
  function MixAll(m: Trig, sr: Rate, inst: Instrument, listener: Vec3, notes: seq<NoteEvent>, n: nat): (r: Result<Stereo, Error>)
    requires ValidAdsr(inst.adsr) && Renderable(notes)
    ensures r.Success? ==> |r.value.left| == n && |r.value.right| == n
    decreases |notes|
  {
    if |notes| == 0 then Success(Silence(n))
    else
      var last := notes[|notes| - 1];
      match MixAll(m, sr, inst, listener, notes[..|notes| - 1], n)
      case Failure(e) => Failure(e)
      case Success(buf) =>
        match NoteWave(m, sr, inst, last)
        case Failure(e) => Failure(e)
        case Success(wave) => Success(MixNote(buf, wave, NoteGains(m, last, listener), StartIndex(sr, last.start)))
  }

  /** Master normalisation: both rows divided by the peak over the whole 2 x N buffer, unless it is silent. */
  function NormalizeStereo(buf: Stereo): (r: Stereo)
    requires |buf.left| == |buf.right| && 0 < |buf.left|
    ensures |r.left| == |r.right| == |buf.left|
    ensures var p := PeakAbs(buf.left + buf.right);
      && (p == 0.0 ==> r == buf)
      && (0.0 < p ==> ScaledBy(r.left, buf.left, p) && ScaledBy(r.right, buf.right, p))
  {
    var p := PeakAbs(buf.left + buf.right);
    if 0.0 < p then Stereo(Div(buf.left, p), Div(buf.right, p)) else buf
  }

  /**
   * `render`: a 2 x int(sr * total_duration) buffer holding every note, normalised once.
   * np.zeros refuses a negative length; np.max refuses the empty buffer.
   */
  function RenderSpec(m: Trig, sr: Rate, notes: seq<NoteEvent>, inst: Instrument, totalDuration: real, listener: Vec3): (r: Result<Stereo, Error>)
    requires ValidAdsr(inst.adsr) && Renderable(notes)
    ensures SampleCount(sr, totalDuration) <= 0 ==> r.Failure?
    ensures r.Success? ==> |r.value.left| == |r.value.right| == SampleCount(sr, totalDuration)
  {
    var n := SampleCount(sr, totalDuration);
    if n < 0 then Failure(NegativeDimension)
    else
      match MixAll(m, sr, inst, listener, notes, n)
      case Failure(e) => Failure(e)
      case Success(buf) => if n == 0 then Failure(EmptyReduction) else Success(NormalizeStereo(buf))
  }

  /**
   * What mixing one note does to each sample: inside [start, min(n, start + len))
   * it adds the note's sample times the channel gain; everywhere else it changes nothing.
   */
  lemma MixNoteEffect(buf: Stereo, wave: seq<real>, g: Gains, start: nat, k: nat)
    requires |buf.left| == |buf.right| && k < |buf.left|
    ensures var out := MixNote(buf, wave, g, start);
      var end := if |buf.left| < start + |wave| then |buf.left| else start + |wave|;
      && (start <= k < end ==>
            out.left[k] == buf.left[k] + Gained(wave[k - start], g.left) && out.right[k] == buf.right[k] + Gained(wave[k - start], g.right))
      && (!(start <= k < end) ==> out.left[k] == buf.left[k] && out.right[k] == buf.right[k])
  {
    var n := |buf.left|;
    if start < n && n < start + |wave| {
      var w := wave[..n - start];
      if start <= k {
        assert w[k - start] == wave[k - start];
      }
    }
  }

  /** A note starting at or past the end of the buffer changes nothing. */
  lemma MixNoteDropped(buf: Stereo, wave: seq<real>, g: Gains, start: nat)
    requires |buf.left| == |buf.right| && |buf.left| <= start
    ensures MixNote(buf, wave, g, start) == buf
  {
  }

  /**
   * A note running past the end is cut, not dropped: its first n - start
   * samples still land in the last n - start slots of both rows.
   */
  lemma MixNoteTruncated(buf: Stereo, wave: seq<real>, g: Gains, start: nat)
    requires |buf.left| == |buf.right| && start < |buf.left| < start + |wave|
    ensures var out := MixNote(buf, wave, g, start);
      forall k :: start <= k < |buf.left| ==>
        out.left[k] == buf.left[k] + Gained(wave[k - start], g.left) && out.right[k] == buf.right[k] + Gained(wave[k - start], g.right)
  {
    forall k | start <= k < |buf.left| {
      MixNoteEffect(buf, wave, g, start, k);
    }
  }

  /** Mixing is addition, so the order of two notes does not matter (over the reals). */
  lemma MixNoteCommutes(buf: Stereo, w1: seq<real>, g1: Gains, s1: nat, w2: seq<real>, g2: Gains, s2: nat)
    requires |buf.left| == |buf.right|
    ensures MixNote(MixNote(buf, w1, g1, s1), w2, g2, s2) == MixNote(MixNote(buf, w2, g2, s2), w1, g1, s1)
  {
    var a := MixNote(MixNote(buf, w1, g1, s1), w2, g2, s2);
    var b := MixNote(MixNote(buf, w2, g2, s2), w1, g1, s1);
    forall k | 0 <= k < |buf.left| ensures a.left[k] == b.left[k] && a.right[k] == b.right[k] {
      MixNoteEffect(buf, w1, g1, s1, k);
      MixNoteEffect(buf, w2, g2, s2, k);
      MixNoteEffect(MixNote(buf, w1, g1, s1), w2, g2, s2, k);
      MixNoteEffect(MixNote(buf, w2, g2, s2), w1, g1, s1, k);
    }
    assert a.left == b.left && a.right == b.right;
  }

  /** Rendering no notes into a non-empty buffer gives silence, with no division. */
  lemma RenderSilent(m: Trig, sr: Rate, inst: Instrument, totalDuration: real, listener: Vec3)
    requires ValidAdsr(inst.adsr) && 0 < SampleCount(sr, totalDuration)
    ensures RenderSpec(m, sr, [], inst, totalDuration, listener) == Success(Silence(SampleCount(sr, totalDuration)))
  {
    var n := SampleCount(sr, totalDuration);
    var s := Silence(n);
    assert AllZero(s.left + s.right);
    PeakZeroIffSilent(s.left + s.right);
  }

  /** The rendered buffer is silent or has peak absolute value exactly 1 across both channels. */
  lemma RenderNormalized(m: Trig, sr: Rate, notes: seq<NoteEvent>, inst: Instrument, totalDuration: real, listener: Vec3)
    requires ValidAdsr(inst.adsr) && Renderable(notes)
    requires RenderSpec(m, sr, notes, inst, totalDuration, listener).Success?
    ensures var out := RenderSpec(m, sr, notes, inst, totalDuration, listener).value;
      AllZero(out.left + out.right) || PeakAbs(out.left + out.right) == 1.0
  {
    var n := SampleCount(sr, totalDuration);
    var buf := MixAll(m, sr, inst, listener, notes, n).value;
    var both := buf.left + buf.right;
    NormalizePeakUnit(both);
    var p := PeakAbs(both);
    if 0.0 < p {
      DivConcat(buf.left, buf.right, p);
    }
  }

  /** The note loop fails only through a note whose sample count is not positive. */
  lemma {:induction false} MixAllSucceeds(m: Trig, sr: Rate, inst: Instrument, listener: Vec3, notes: seq<NoteEvent>, n: nat)
    requires ValidAdsr(inst.adsr) && Renderable(notes)
    requires forall j :: 0 <= j < |notes| ==> 0 < SampleCount(sr, notes[j].duration)
    ensures MixAll(m, sr, inst, listener, notes, n).Success?
    decreases |notes|
  {
    if 0 < |notes| {
      MixAllSucceeds(m, sr, inst, listener, notes[..|notes| - 1], n);
    }
  }

  /** With a non-empty buffer and every note at least one sample long, render succeeds. */
  lemma RenderSucceeds(m: Trig, sr: Rate, notes: seq<NoteEvent>, inst: Instrument, totalDuration: real, listener: Vec3)
    requires ValidAdsr(inst.adsr) && Renderable(notes)
    requires 0 < SampleCount(sr, totalDuration)
    requires forall j :: 0 <= j < |notes| ==> 0 < SampleCount(sr, notes[j].duration)
    ensures RenderSpec(m, sr, notes, inst, totalDuration, listener).Success?
  {
    MixAllSucceeds(m, sr, inst, listener, notes, SampleCount(sr, totalDuration));
  }

  /** A left/right pair in the ratio a : b, that is l * b == r * a. */
  predicate InRatio(l: real, r: real, a: real, b: real)
  {
    l * b == r * a
  }

  /** Every sample pair of the buffer stands in the ratio a : b. */
  predicate Balanced(buf: Stereo, a: real, b: real)
  {
    |buf.left| == |buf.right| && forall k :: 0 <= k < |buf.left| ==> InRatio(buf.left[k], buf.right[k], a, b)
  }

  /** Adding one note sample with gains in the ratio a : b keeps a pair in that ratio. */
  lemma AddBalanced(x: real, y: real, w: real, gl: real, gr: real, a: real, b: real)
    requires InRatio(x, y, a, b) && InRatio(gl, gr, a, b)
    ensures InRatio(x + Gained(w, gl), y + Gained(w, gr), a, b)
  {
    calc {
      (x + Gained(w, gl)) * b;
      == x * b + w * (gl * b);
      == y * a + w * (gr * a);
      == (y + Gained(w, gr)) * a;
    }
  }

  /** Dividing both samples of a pair by one peak keeps their ratio. */
  lemma DivBalanced(x: real, y: real, u: real, v: real, p: real, a: real, b: real)
    requires 0.0 < p && u * p == x && v * p == y && InRatio(x, y, a, b)
    ensures InRatio(u, v, a, b)
  {
    assert (u * b) * p == (u * p) * b;
    assert (v * a) * p == (v * p) * a;
  }

  /** Two rows divided by one peak keep the ratio between them. */
  lemma ScaledBalanced(left: seq<real>, right: seq<real>, l: seq<real>, r: seq<real>, p: real, a: real, b: real)
    requires 0.0 < p && ScaledBy(l, left, p) && ScaledBy(r, right, p) && Balanced(Stereo(left, right), a, b)
    ensures Balanced(Stereo(l, r), a, b)
  {
    forall k | 0 <= k < |l| ensures InRatio(l[k], r[k], a, b) {
      DivBalanced(left[k], right[k], l[k], r[k], p, a, b);
    }
  }

  /** Mixing a note whose gains are in the ratio a : b keeps the buffer in that ratio. */
  lemma MixNoteBalanced(buf: Stereo, wave: seq<real>, g: Gains, start: nat, a: real, b: real)
    requires Balanced(buf, a, b) && InRatio(g.left, g.right, a, b)
    ensures Balanced(MixNote(buf, wave, g, start), a, b)
  {
    var out := MixNote(buf, wave, g, start);
    var end := if |buf.left| < start + |wave| then |buf.left| else start + |wave|;
    forall k | 0 <= k < |buf.left| ensures InRatio(out.left[k], out.right[k], a, b) {
      MixNoteEffect(buf, wave, g, start, k);
      if start <= k < end {
        AddBalanced(buf.left[k], buf.right[k], wave[k - start], g.left, g.right, a, b);
      }
    }
  }

  /** The master normalisation divides both rows by one peak, so it keeps every ratio between them. */
  lemma NormalizeBalanced(buf: Stereo, a: real, b: real)
    requires Balanced(buf, a, b) && 0 < |buf.left|
    ensures Balanced(NormalizeStereo(buf), a, b)
  {
    var r := NormalizeStereo(buf);
    var p := PeakAbs(buf.left + buf.right);
    if 0.0 < p {
      ScaledBalanced(buf.left, buf.right, r.left, r.right, p, a, b);
    }
  }

  /** A successful note loop is the successful loop over all but the last note, with the last note mixed in. */
  lemma MixAllLast(m: Trig, sr: Rate, inst: Instrument, listener: Vec3, notes: seq<NoteEvent>, n: nat)
    requires ValidAdsr(inst.adsr) && Renderable(notes) && 0 < |notes|
    requires MixAll(m, sr, inst, listener, notes, n).Success?
    ensures var init, last := notes[..|notes| - 1], notes[|notes| - 1];
      && MixAll(m, sr, inst, listener, init, n).Success?
      && NoteWave(m, sr, inst, last).Success?
      && MixAll(m, sr, inst, listener, notes, n).value
         == MixNote(MixAll(m, sr, inst, listener, init, n).value, NoteWave(m, sr, inst, last).value,
                    NoteGains(m, last, listener), StartIndex(sr, last.start))
  {
  }

  /** Notes whose gains are all in the ratio a : b leave the mixed buffer in that ratio. */
  lemma {:induction false} MixAllBalanced(m: Trig, sr: Rate, inst: Instrument, listener: Vec3, notes: seq<NoteEvent>, n: nat, a: real, b: real)
    requires ValidAdsr(inst.adsr) && Renderable(notes)
    requires forall j :: 0 <= j < |notes| ==> InRatio(NoteGains(m, notes[j], listener).left, NoteGains(m, notes[j], listener).right, a, b)
    requires MixAll(m, sr, inst, listener, notes, n).Success?
    ensures Balanced(MixAll(m, sr, inst, listener, notes, n).value, a, b)
    decreases |notes|
  {
    if |notes| == 0 {
      assert Balanced(Silence(n), a, b);
    } else {
      var init := notes[..|notes| - 1];
      var last := notes[|notes| - 1];
      MixAllLast(m, sr, inst, listener, notes, n);
      assert forall j :: 0 <= j < |init| ==> init[j] == notes[j];
      MixAllBalanced(m, sr, inst, listener, init, n, a, b);
      MixNoteBalanced(MixAll(m, sr, inst, listener, init, n).value, NoteWave(m, sr, inst, last).value,
                      NoteGains(m, last, listener), StartIndex(sr, last.start), a, b);
    }
  }

  /**
   * Panning survives rendering: when every note's left and right gains are in
   * the ratio a : b, so are the two channels of the rendered buffer, sample by sample.
   */
  lemma RenderBalanced(m: Trig, sr: Rate, notes: seq<NoteEvent>, inst: Instrument, totalDuration: real, listener: Vec3, a: real, b: real)
    requires ValidAdsr(inst.adsr) && Renderable(notes)
    requires forall j :: 0 <= j < |notes| ==> InRatio(NoteGains(m, notes[j], listener).left, NoteGains(m, notes[j], listener).right, a, b)
    requires RenderSpec(m, sr, notes, inst, totalDuration, listener).Success?
    ensures Balanced(RenderSpec(m, sr, notes, inst, totalDuration, listener).value, a, b)
  {
    var n := SampleCount(sr, totalDuration);
    MixAllBalanced(m, sr, inst, listener, notes, n, a, b);
    NormalizeBalanced(MixAll(m, sr, inst, listener, notes, n).value, a, b);
  }

  /**
   * When every note has equal left and right gains, both channels of the
   * rendered buffer are the same. A note at the listener has gains cos(pi/4)
   * and sin(pi/4), which are not equal in floating point, so it falls under
   * `RenderBalanced` rather than this lemma.
   */
  lemma RenderCentred(m: Trig, sr: Rate, notes: seq<NoteEvent>, inst: Instrument, totalDuration: real, listener: Vec3)
    requires ValidAdsr(inst.adsr) && Renderable(notes)
    requires forall j :: 0 <= j < |notes| ==> NoteGains(m, notes[j], listener).left == NoteGains(m, notes[j], listener).right
    requires RenderSpec(m, sr, notes, inst, totalDuration, listener).Success?
    ensures RenderSpec(m, sr, notes, inst, totalDuration, listener).value.left
         == RenderSpec(m, sr, notes, inst, totalDuration, listener).value.right
  {
    RenderBalanced(m, sr, notes, inst, totalDuration, listener, 1.0, 1.0);
    var out := RenderSpec(m, sr, notes, inst, totalDuration, listener).value;
    assert forall k :: 0 <= k < |out.left| ==> out.left[k] == out.right[k];
  }

  /** Once a prefix of the notes fails, the whole loop fails with the same error. */
  lemma {:induction false} MixAllFailureSticks(m: Trig, sr: Rate, inst: Instrument, listener: Vec3, notes: seq<NoteEvent>, n: nat, j: nat)
    requires ValidAdsr(inst.adsr) && Renderable(notes) && j <= |notes|
    requires MixAll(m, sr, inst, listener, notes[..j], n).Failure?
    ensures MixAll(m, sr, inst, listener, notes, n) == MixAll(m, sr, inst, listener, notes[..j], n)
    decreases |notes|
  {
    if j < |notes| {
      assert notes[..|notes| - 1][..j] == notes[..j];
      MixAllFailureSticks(m, sr, inst, listener, notes[..|notes| - 1], n, j);
    } else {
      assert notes[..j] == notes;
    }
  }

  /** The two rows of a 2 x N array. */
  function Rows(buf: array2<real>): (s: Stereo)
    reads buf
    requires buf.Length0 == 2
    ensures |s.left| == |s.right| == buf.Length1
  {
    Stereo(seq(buf.Length1, k requires 0 <= k < buf.Length1 reads buf => buf[0, k]),
           seq(buf.Length1, k requires 0 <= k < buf.Length1 reads buf => buf[1, k]))
  }

  /** `master_buffer[:, start:end] += wave[:end - start] * gains`, in place; a note starting past the end is skipped. */
  method MixInto(buf: array2<real>, wave: seq<real>, g: Gains, startIdx: nat)
    requires buf.Length0 == 2
    modifies buf
    ensures Rows(buf) == MixNote(old(Rows(buf)), wave, g, startIdx)
  {
    ghost var before := Rows(buf);
    var n := buf.Length1;
    if startIdx < n {
      var w := wave;
      var endIdx := startIdx + |w|;
      if endIdx > n {
        w := w[..n - startIdx];
        endIdx := n;
      }
      forall c, k | 0 <= c < 2 && startIdx <= k < endIdx {
        buf[c, k] := buf[c, k] + Gained(w[k - startIdx], if c == 0 then g.left else g.right);
      }
      assert Rows(buf).left == MixNote(before, wave, g, startIdx).left;
      assert Rows(buf).right == MixNote(before, wave, g, startIdx).right;
    }
  }

  /** `master_buffer /= max_val` when the peak is positive, in place. */
  method NormalizeInPlace(buf: array2<real>)
    requires buf.Length0 == 2 && 0 < buf.Length1
    modifies buf
    ensures Rows(buf) == NormalizeStereo(old(Rows(buf)))
  {
    ghost var mixed := Rows(buf);
    var peak := PeakAbs(Rows(buf).left + Rows(buf).right);
    if 0.0 < peak {
      forall c, k | 0 <= c < 2 && 0 <= k < buf.Length1 {
        buf[c, k] := buf[c, k] / peak;
      }
      assert Rows(buf).left == Div(mixed.left, peak);
      assert Rows(buf).right == Div(mixed.right, peak);
    }
  }

  /** One note's mono signal, as the loop body of `render` computes it. */
  method RenderNote(m: Trig, sr: Rate, inst: Instrument, note: NoteEvent) returns (res: Result<seq<real>, Error>)
    requires ValidAdsr(inst.adsr) && FilterValid(note)
    ensures res == NoteWave(m, sr, inst, note)
  {
    var generated := GenerateWave(m, sr, note.freq, note.duration, inst);
    if generated.Failure? {
      return Failure(generated.error);
    }
    var wave := ApplyAdsr(sr, generated.value, inst.adsr);
    if Truthy(note.cutoff) {
      wave := ApplyLpf(sr, wave, note.cutoff.value);
    }
    return Success(wave);
  }

  /**
   * `render`: allocate a zeroed 2 x N buffer, add each note into both rows in
   * place, then divide the whole buffer by its peak in place.
   */
  method Render(m: Trig, sr: Rate, notes: seq<NoteEvent>, inst: Instrument, totalDuration: real, listener: Vec3)
    returns (res: Result<array2<real>, Error>)
    requires ValidAdsr(inst.adsr) && Renderable(notes)
    ensures res.Failure? ==> RenderSpec(m, sr, notes, inst, totalDuration, listener) == Failure(res.error)
    ensures res.Success? ==>
      fresh(res.value) && res.value.Length0 == 2 && RenderSpec(m, sr, notes, inst, totalDuration, listener) == Success(Rows(res.value))
  {
    var n := SampleCount(sr, totalDuration);
    if n < 0 {
      return Failure(NegativeDimension);
    }
    var buf := new real[2, n]((c, k) => 0.0);
    assert Rows(buf) == Silence(n);
    for i := 0 to |notes|
      invariant MixAll(m, sr, inst, listener, notes[..i], n) == Success(Rows(buf))
    {
      var note := notes[i];
      assert notes[..i + 1][..i] == notes[..i] && notes[..i + 1][i] == note;
      var wave := RenderNote(m, sr, inst, note);
      if wave.Failure? {
        MixAllFailureSticks(m, sr, inst, listener, notes, n, i + 1);
        assert notes[..|notes|] == notes;
        return Failure(wave.error);
      }
      var g := SpatialGains(m, PositionOf(note), listener);
      MixInto(buf, wave.value, g, StartIndex(sr, note.start));
    }
    assert notes[..|notes|] == notes;
    if n == 0 {
      return Failure(EmptyReduction);
    }
    NormalizeInPlace(buf);
    return Success(buf);
  }
}
