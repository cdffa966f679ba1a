/** `scale_data` and `midi_to_freq`. */
module Utils {
  import opened ArrayOps

  type Positive = x: real | 0.0 < x witness 1.0

  /**
   * `440 * 2**((note - 69) / 12)`; the power of two is floating-point and is
   * passed in as `exp2`.
   */
  function MidiToFreq(exp2: real -> Positive, note: int): (f: real)
    ensures 0.0 < f
  {
    440.0 * exp2((note - 69) as real / 12.0)
  }

  /** MIDI note 69 is A4 at 440 Hz. */
  lemma MidiA4(exp2: real -> Positive)
    requires exp2(0.0) == 1.0
    ensures MidiToFreq(exp2, 69) == 440.0
  {
  }

  /** Twelve semitones up doubles the frequency. */
  lemma MidiOctave(exp2: real -> Positive, note: int)
    requires exp2((note - 69) as real / 12.0 + 1.0) == 2.0 * exp2((note - 69) as real / 12.0)
    ensures MidiToFreq(exp2, note + 12) == 2.0 * MidiToFreq(exp2, note)
  {
    assert (note + 12 - 69) as real / 12.0 == (note - 69) as real / 12.0 + 1.0;
  }

  /** The affine map that sends lo to outMin and hi to outMax. */
  function Rescale(x: real, lo: real, hi: real, outMin: real, outMax: real): real
    requires lo != hi
  {
    outMin + (x - lo) * (outMax - outMin) / (hi - lo)
  }

  lemma RescaleAsFraction(x: real, lo: real, hi: real, outMin: real, outMax: real)
    requires lo != hi
    ensures Rescale(x, lo, hi, outMin, outMax) == outMin + ((x - lo) / (hi - lo)) * (outMax - outMin)
  {
  }

  lemma RescaleEnds(lo: real, hi: real, outMin: real, outMax: real)
    requires lo != hi
    ensures Rescale(lo, lo, hi, outMin, outMax) == outMin
    ensures Rescale(hi, lo, hi, outMin, outMax) == outMax
  {
    RescaleAsFraction(hi, lo, hi, outMin, outMax);
  }

  lemma FractionInUnit(x: real, lo: real, hi: real)
    requires lo <= x <= hi && lo < hi
    ensures 0.0 <= (x - lo) / (hi - lo) <= 1.0
  {
    var d := hi - lo;
    var f := (x - lo) / d;
    assert f * d == x - lo;
    if f < 0.0 { MulPositive(-f, d); }
    if 1.0 < f { MulPositive(f - 1.0, d); }
  }

  lemma RescaleBetween(x: real, lo: real, hi: real, outMin: real, outMax: real)
    requires lo <= x <= hi && lo < hi
    ensures Between(outMin, outMax, Rescale(x, lo, hi, outMin, outMax))
  {
    RescaleAsFraction(x, lo, hi, outMin, outMax);
    FractionInUnit(x, lo, hi);
    Blend(outMin, outMax, (x - lo) / (hi - lo));
  }

  lemma RescaleMonotone(x: real, y: real, lo: real, hi: real, outMin: real, outMax: real)
    requires x <= y && lo < hi && outMin <= outMax
    ensures Rescale(x, lo, hi, outMin, outMax) <= Rescale(y, lo, hi, outMin, outMax)
  {
    var d := hi - lo;
    var fx, fy := (x - lo) / d, (y - lo) / d;
    assert fx * d == x - lo && fy * d == y - lo;
    if fy < fx { MulPositive(fx - fy, d); }
    RescaleAsFraction(x, lo, hi, outMin, outMax);
    RescaleAsFraction(y, lo, hi, outMin, outMax);
    MulNonNegative(fy - fx, outMax - outMin);
  }

  lemma RescaleInverse(x: real, lo: real, hi: real)
    requires lo != hi
    ensures Rescale(Rescale(x, lo, hi, 0.0, 1.0), 0.0, 1.0, lo, hi) == x
  {
    var f := (x - lo) / (hi - lo);
    RescaleAsFraction(x, lo, hi, 0.0, 1.0);
    assert Rescale(x, lo, hi, 0.0, 1.0) == f;
    assert f * (hi - lo) == x - lo;
  }

  lemma CancelFactor(f: real, a: real)
    requires a != 0.0
    ensures (f * a) / a == f
  {
  }

  /** Two rescalings of the same point onto different ranges are affine images of each other. */
  lemma RescaleCoupled(x: real, lo: real, hi: real, aMin: real, aMax: real, bMin: real, bMax: real)
    requires lo != hi && aMin != aMax
    ensures Rescale(x, lo, hi, bMin, bMax) == bMin + (Rescale(x, lo, hi, aMin, aMax) - aMin) / (aMax - aMin) * (bMax - bMin)
  {
    var f := (x - lo) / (hi - lo);
    RescaleAsFraction(x, lo, hi, aMin, aMax);
    RescaleAsFraction(x, lo, hi, bMin, bMax);
    assert Rescale(x, lo, hi, aMin, aMax) - aMin == f * (aMax - aMin);
    CancelFactor(f, aMax - aMin);
  }

  /**
   * Linear rescale of `data` so that its minimum goes to `outMin` and its
   * maximum to `outMax`; all-equal data maps to `outMin` without a division.
   * numpy refuses the min of an empty array.
   */
  function ScaleData(data: seq<real>, outMin: real, outMax: real): (r: seq<real>)
    requires 0 < |data|
    ensures |r| == |data|
    ensures SeqMin(data) == SeqMax(data) ==> forall k :: 0 <= k < |r| ==> r[k] == outMin
  {
    var dMin, dMax := SeqMin(data), SeqMax(data);
    if dMax == dMin then seq(|data|, _ => outMin)
    else seq(|data|, k requires 0 <= k < |data| => Rescale(data[k], dMin, dMax, outMin, outMax))
  }

  /** The data minimum maps to `outMin` and the data maximum to `outMax`. */
  lemma ScaleEndpoints(data: seq<real>, outMin: real, outMax: real, k: int)
    requires 0 < |data| && 0 <= k < |data| && SeqMin(data) != SeqMax(data)
    ensures data[k] == SeqMin(data) ==> ScaleData(data, outMin, outMax)[k] == outMin
    ensures data[k] == SeqMax(data) ==> ScaleData(data, outMin, outMax)[k] == outMax
  {
    var lo, hi := SeqMin(data), SeqMax(data);
    assert ScaleData(data, outMin, outMax)[k] == Rescale(data[k], lo, hi, outMin, outMax);
    RescaleEnds(lo, hi, outMin, outMax);
  }

  /** With `outMin <= outMax`, every output lies in [outMin, outMax]. */
  lemma ScaleBounds(data: seq<real>, outMin: real, outMax: real)
    requires 0 < |data| && outMin <= outMax
    ensures forall k :: 0 <= k < |data| ==> outMin <= ScaleData(data, outMin, outMax)[k] <= outMax
  {
    var lo, hi := SeqMin(data), SeqMax(data);
    if lo != hi {
      forall k | 0 <= k < |data| ensures outMin <= ScaleData(data, outMin, outMax)[k] <= outMax {
        RescaleBetween(data[k], lo, hi, outMin, outMax);
      }
    }
  }

  /** With `outMin <= outMax`, the rescale keeps the order of the data. */
  lemma ScaleMonotone(data: seq<real>, outMin: real, outMax: real, i: int, j: int)
    requires 0 < |data| && outMin <= outMax
    requires 0 <= i < |data| && 0 <= j < |data| && data[i] <= data[j]
    ensures ScaleData(data, outMin, outMax)[i] <= ScaleData(data, outMin, outMax)[j]
  {
    var lo, hi := SeqMin(data), SeqMax(data);
    if lo != hi {
      RescaleMonotone(data[i], data[j], lo, hi, outMin, outMax);
    }
  }

  /** Scaled data in [0, 1] reaches both ends, so its own minimum is 0 and its maximum 1. */
  lemma UnitScaleExtremes(data: seq<real>)
    requires 0 < |data| && SeqMin(data) != SeqMax(data)
    ensures SeqMin(ScaleData(data, 0.0, 1.0)) == 0.0
    ensures SeqMax(ScaleData(data, 0.0, 1.0)) == 1.0
  {
    var u := ScaleData(data, 0.0, 1.0);
    ScaleBounds(data, 0.0, 1.0);
    var i :| 0 <= i < |data| && data[i] == SeqMin(data);
    var j :| 0 <= j < |data| && data[j] == SeqMax(data);
    ScaleEndpoints(data, 0.0, 1.0, i);
    ScaleEndpoints(data, 0.0, 1.0, j);
    var a :| 0 <= a < |u| && u[a] == SeqMin(u);
    var b :| 0 <= b < |u| && u[b] == SeqMax(u);
    assert u[a] <= u[i] && u[j] <= u[b];
  }

  /**
   * Scaling non-constant data to [0, 1] and back to its own [min, max]
   * gives the data back exactly (over the reals).
   */
  lemma ScaleRoundTrip(data: seq<real>)
    requires 0 < |data| && SeqMin(data) != SeqMax(data)
    ensures ScaleData(ScaleData(data, 0.0, 1.0), SeqMin(data), SeqMax(data)) == data
  {
    var lo, hi := SeqMin(data), SeqMax(data);
    var u := ScaleData(data, 0.0, 1.0);
    UnitScaleExtremes(data);
    var back := ScaleData(u, lo, hi);
    forall k | 0 <= k < |data| ensures back[k] == data[k] {
      assert u[k] == Rescale(data[k], lo, hi, 0.0, 1.0);
      assert back[k] == Rescale(u[k], 0.0, 1.0, lo, hi);
      RescaleInverse(data[k], lo, hi);
    }
  }
}
