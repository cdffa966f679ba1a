/**
 * The data-to-sound mapping of `DataSonifier`: each data point becomes one
 * note event for the engine. X sets the start time, Y the pitch, and in three
 * dimensions Z the filter cutoff, while all three also place the note in a
 * 20 x 20 x 10 metre room.
 */
module Sonification {
  import opened Wrappers
  import opened ArrayOps
  import opened Utils
  import opened Instruments
  import opened Engine

  /** `scale_data(data, lo, hi).astype(int)`: one MIDI note number per data point. */
  function MidiNotes(data: seq<real>, lo: int, hi: int): (notes: seq<int>)
    requires 0 < |data| && 0 <= lo <= hi
    ensures |notes| == |data|
    ensures forall k :: 0 <= k < |notes| ==> lo <= notes[k] <= hi
    ensures SeqMin(data) == SeqMax(data) ==> forall k :: 0 <= k < |notes| ==> notes[k] == lo
  {
    ScaleBounds(data, lo as real, hi as real);
    var scaled := ScaleData(data, lo as real, hi as real);
    seq(|data|, k requires 0 <= k < |data| => Trunc(scaled[k]))
  }

  /** Higher data never gives a lower note, and the extremes of non-constant data give the two end notes. */
  lemma MidiNotesOrder(data: seq<real>, lo: int, hi: int, i: nat, j: nat)
    requires 0 < |data| && 0 <= lo <= hi && i < |data| && j < |data|
    ensures data[i] <= data[j] ==> MidiNotes(data, lo, hi)[i] <= MidiNotes(data, lo, hi)[j]
    ensures SeqMin(data) != SeqMax(data) && data[i] == SeqMin(data) ==> MidiNotes(data, lo, hi)[i] == lo
    ensures SeqMin(data) != SeqMax(data) && data[i] == SeqMax(data) ==> MidiNotes(data, lo, hi)[i] == hi
  {
    var scaled := ScaleData(data, lo as real, hi as real);
    ScaleBounds(data, lo as real, hi as real);
    if data[i] <= data[j] {
      ScaleMonotone(data, lo as real, hi as real, i, j);
      assert Trunc(scaled[i]) <= Trunc(scaled[j]);
    }
    if SeqMin(data) != SeqMax(data) {
      ScaleEndpoints(data, lo as real, hi as real, i);
    }
  }

  /** `freq` is the pitch of some MIDI note number in [lo, hi]. */
  predicate PlaysNoteIn(exp2: real -> Positive, freq: real, lo: int, hi: int)
  {
    exists n :: lo <= n <= hi && freq == MidiToFreq(exp2, n)
  }

  /** The length `zip` stops at: the shorter of the two. */
  function Shorter(a: nat, b: nat): (r: nat)
    ensures r <= a && r <= b
    ensures r == a || r == b
  {
    if a < b then a else b
  }

  /** Events built index by index from the already-mapped sequences, as the loop of `sonify_2d` does. */
  function Zip2D(exp2: real -> Positive, notes: seq<int>, times: seq<real>, count: nat): (r: seq<NoteEvent>)
    requires count <= |notes| && count <= |times|
    ensures |r| == count
    ensures forall i :: 0 <= i < count ==> r[i].duration == 0.2 && r[i].cutoff == None && PositionOf(r[i]) == Origin
    ensures forall i :: 0 <= i < count ==> r[i].start == times[i]
  {
    seq(count, i requires 0 <= i < count => NoteEvent(MidiToFreq(exp2, notes[i]), times[i], 0.2, None, Some(Origin)))
  }

  /** The note list `sonify_2d` builds: start from X, pitch from Y, 0.2 s long, no filter, at the origin. */
  function Notes2D(exp2: real -> Positive, xData: seq<real>, yData: seq<real>, duration: real): (r: seq<NoteEvent>)
    requires 0 < |xData| && 0 < |yData|
    ensures |r| == Shorter(|xData|, |yData|)
    ensures 0.0 <= duration ==> Renderable(r)
  {
    var r := Zip2D(exp2, MidiNotes(yData, 48, 84), ScaleData(xData, 0.0, duration), Shorter(|xData|, |yData|));
    if 0.0 <= duration then ScaleBounds(xData, 0.0, duration); r else r
  }

  /** The appending loop of `sonify_2d`, over the mapped sequences. */
  method Collect2D(exp2: real -> Positive, notes: seq<int>, times: seq<real>, count: nat) returns (sequence: seq<NoteEvent>)
    requires count <= |notes| && count <= |times|
    ensures sequence == Zip2D(exp2, notes, times, count)
  {
    sequence := [];
    var i := 0;
    while i < count
      invariant 0 <= i <= count
      invariant sequence == Zip2D(exp2, notes, times, count)[..i]
    {
      var freq := MidiToFreq(exp2, notes[i]);
      sequence := sequence + [NoteEvent(freq, times[i], 0.2, None, Some(Origin))];
      i := i + 1;
    }
  }

  /**
   * `sonify_2d`: zip the scaled times with the note numbers, stopping at the
   * shorter input, and append one event per pair.
   */
  method Sonify2D(exp2: real -> Positive, xData: seq<real>, yData: seq<real>, duration: real) returns (sequence: seq<NoteEvent>)
    requires 0 < |xData| && 0 < |yData|
    ensures sequence == Notes2D(exp2, xData, yData, duration)
  {
    var times := ScaleData(xData, 0.0, duration);
    var notes := MidiNotes(yData, 48, 84);
    sequence := Collect2D(exp2, notes, times, Shorter(|xData|, |yData|));
  }

  /**
   * Every 2D note is a 0.2 s unfiltered note at the origin, pitched at a MIDI
   * note in [48, 84], starting inside [0, duration]; the list is `Renderable` by the contract of `Notes2D`.
   */
  lemma Notes2DShape(exp2: real -> Positive, xData: seq<real>, yData: seq<real>, duration: real)
    requires 0 < |xData| && 0 < |yData| && 0.0 <= duration
    ensures var r := Notes2D(exp2, xData, yData, duration);
      && (forall i :: 0 <= i < |r| ==> r[i].duration == 0.2 && r[i].cutoff == None && PositionOf(r[i]) == Origin)
      && (forall i :: 0 <= i < |r| ==> 0.0 <= r[i].start <= duration)
      && (forall i :: 0 <= i < |r| ==> PlaysNoteIn(exp2, r[i].freq, 48, 84))
  {
    var r := Notes2D(exp2, xData, yData, duration);
    ScaleBounds(xData, 0.0, duration);
    forall i | 0 <= i < |r| ensures PlaysNoteIn(exp2, r[i].freq, 48, 84) {
      var n := MidiNotes(yData, 48, 84)[i];
      assert r[i] == NoteEvent(MidiToFreq(exp2, n), ScaleData(xData, 0.0, duration)[i], 0.2, None, Some(Origin));
    }
  }

  /**
   * X is time: a smaller X never starts later, the smallest X starts at 0 and
   * the largest at `duration`; Y is pitch: a smaller Y never plays a higher
   * note, given that 2**x grows with x.
   */
  lemma Notes2DOrder(exp2: real -> Positive, xData: seq<real>, yData: seq<real>, duration: real, i: nat, j: nat)
    requires 0 < |xData| && 0 < |yData| && 0.0 <= duration
    requires i < Shorter(|xData|, |yData|) && j < Shorter(|xData|, |yData|)
    requires forall a: real, b: real :: a <= b ==> exp2(a) <= exp2(b)
    ensures var r := Notes2D(exp2, xData, yData, duration);
      && (xData[i] <= xData[j] ==> r[i].start <= r[j].start)
      && (yData[i] <= yData[j] ==> r[i].freq <= r[j].freq)
      && (SeqMin(xData) != SeqMax(xData) && xData[i] == SeqMin(xData) ==> r[i].start == 0.0)
      && (SeqMin(xData) != SeqMax(xData) && xData[i] == SeqMax(xData) ==> r[i].start == duration)
  {
    if xData[i] <= xData[j] {
      ScaleMonotone(xData, 0.0, duration, i, j);
    }
    if SeqMin(xData) != SeqMax(xData) {
      ScaleEndpoints(xData, 0.0, duration, i);
    }
    var notes := MidiNotes(yData, 48, 84);
    MidiNotesOrder(yData, 48, 84, i, j);
    if yData[i] <= yData[j] {
      assert (notes[i] - 69) as real / 12.0 <= (notes[j] - 69) as real / 12.0;
    }
  }

  /**
   * With the listener at the origin (the default of `render`), every 2D note
   * sits at the listener and gets the gains cos(pi/4) and sin(pi/4), so the
   * rendered channels differ only by that fixed ratio:
   * left[k] * sin(pi/4) == right[k] * cos(pi/4).
   */
  lemma Notes2DRenderBalanced(m: Trig, exp2: real -> Positive, sr: Rate, inst: Instrument, xData: seq<real>, yData: seq<real>, duration: real, total: real)
    requires 0 < |xData| && 0 < |yData| && 0.0 <= duration && ValidAdsr(inst.adsr)
    requires m.sqrt(0.0) == 0.0 && m.atan2(0.0, 0.0) == 0.0 && m.sin(0.0) == 0.0
    ensures var out := RenderSpec(m, sr, Notes2D(exp2, xData, yData, duration), inst, total, Origin);
      out.Success? ==> Balanced(out.value, m.cos(PI / 4.0), m.sin(PI / 4.0))
  {
    var r := Notes2D(exp2, xData, yData, duration);
    var c, s := m.cos(PI / 4.0), m.sin(PI / 4.0);
    Notes2DShape(exp2, xData, yData, duration);
    GainsAtListener(m, Origin);
    forall j | 0 <= j < |r| ensures InRatio(NoteGains(m, r[j], Origin).left, NoteGains(m, r[j], Origin).right, c, s) {
      assert NoteGains(m, r[j], Origin) == Gains(c, s);
    }
    if RenderSpec(m, sr, r, inst, total, Origin).Success? {
      RenderBalanced(m, sr, r, inst, total, Origin, c, s);
    }
  }

  /** Events built index by index from the already-mapped sequences, as the loop of `sonify_3d` does. */
  function Zip3D(exp2: real -> Positive, notes: seq<int>, times: seq<real>, cutoffs: seq<real>,
                 sx: seq<real>, sy: seq<real>, sz: seq<real>, count: nat): (r: seq<NoteEvent>)
    requires count <= |notes| && count <= |times| && count <= |cutoffs|
    requires count <= |sx| && count <= |sy| && count <= |sz|
    ensures |r| == count
    ensures forall i :: 0 <= i < count ==> r[i].duration == 0.3 && r[i].start == times[i]
    ensures forall i :: 0 <= i < count ==> r[i].cutoff == Some(cutoffs[i]) && PositionOf(r[i]) == Vec3(sx[i], sy[i], sz[i])
  {
    seq(count, i requires 0 <= i < count =>
      NoteEvent(MidiToFreq(exp2, notes[i]), times[i], 0.3, Some(cutoffs[i]), Some(Vec3(sx[i], sy[i], sz[i]))))
  }

  /** The appending loop of `sonify_3d`, over the mapped sequences. */
  method Collect3D(exp2: real -> Positive, notes: seq<int>, times: seq<real>, cutoffs: seq<real>,
                   sx: seq<real>, sy: seq<real>, sz: seq<real>, count: nat) returns (sequence: seq<NoteEvent>)
    requires count <= |notes| && count <= |times| && count <= |cutoffs|
    requires count <= |sx| && count <= |sy| && count <= |sz|
    ensures sequence == Zip3D(exp2, notes, times, cutoffs, sx, sy, sz, count)
  {
    sequence := [];
    var i := 0;
    while i < count
      invariant 0 <= i <= count
      invariant sequence == Zip3D(exp2, notes, times, cutoffs, sx, sy, sz, count)[..i]
    {
      var freq := MidiToFreq(exp2, notes[i]);
      var pos := Vec3(sx[i], sy[i], sz[i]);
      sequence := sequence + [NoteEvent(freq, times[i], 0.3, Some(cutoffs[i]), Some(pos))];
      i := i + 1;
    }
  }

  /** The note list `sonify_3d` builds: 0.3 s notes whose cutoff and position come from the data. */
  function Notes3D(exp2: real -> Positive, xData: seq<real>, yData: seq<real>, zData: seq<real>, duration: real): (r: seq<NoteEvent>)
    requires 0 < |xData| <= |yData| && |xData| <= |zData|
    ensures |r| == |xData|
    ensures 0.0 <= duration ==> Renderable(r)
  {
    ScaleBounds(zData, 500.0, 8000.0);
    var r := Zip3D(exp2, MidiNotes(yData, 48, 72), ScaleData(xData, 0.0, duration), ScaleData(zData, 500.0, 8000.0),
                   ScaleData(xData, -10.0, 10.0), ScaleData(yData, 0.0, 20.0), ScaleData(zData, -5.0, 5.0), |xData|);
    if 0.0 <= duration then ScaleBounds(xData, 0.0, duration); r else r
  }

  /** The i-th 3D note, field by field. */
  lemma Notes3DAt(exp2: real -> Positive, xData: seq<real>, yData: seq<real>, zData: seq<real>, duration: real, i: nat)
    requires 0 < |xData| <= |yData| && |xData| <= |zData| && i < |xData|
    ensures var r := Notes3D(exp2, xData, yData, zData, duration)[i];
      && r.freq == MidiToFreq(exp2, MidiNotes(yData, 48, 72)[i])
      && r.start == ScaleData(xData, 0.0, duration)[i]
      && r.duration == 0.3
      && r.cutoff == Some(ScaleData(zData, 500.0, 8000.0)[i])
      && r.position == Some(Vec3(ScaleData(xData, -10.0, 10.0)[i], ScaleData(yData, 0.0, 20.0)[i], ScaleData(zData, -5.0, 5.0)[i]))
  {
  }

  /** `sonify_3d`: one event per X value, indexing the Y and Z mappings at the same position. */
  method Sonify3D(exp2: real -> Positive, xData: seq<real>, yData: seq<real>, zData: seq<real>, duration: real)
    returns (sequence: seq<NoteEvent>)
    requires 0 < |xData| <= |yData| && |xData| <= |zData|
    ensures sequence == Notes3D(exp2, xData, yData, zData, duration)
  {
    var times := ScaleData(xData, 0.0, duration);
    var notes := MidiNotes(yData, 48, 72);
    var cutoffs := ScaleData(zData, 500.0, 8000.0);
    var sx := ScaleData(xData, -10.0, 10.0);
    var sy := ScaleData(yData, 0.0, 20.0);
    var sz := ScaleData(zData, -5.0, 5.0);
    sequence := Collect3D(exp2, notes, times, cutoffs, sx, sy, sz, |times|);
  }

  /** The simulated room of `sonify_3d`: 20 m wide, 20 m deep in front of the listener, 10 m high. */
  predicate InRoom(p: Vec3)
  {
    -10.0 <= p.x <= 10.0 && 0.0 <= p.y <= 20.0 && -5.0 <= p.z <= 5.0
  }

  /**
   * Every 3D note is 0.3 s long, pitched at a MIDI note in [48, 72], filtered
   * at a cutoff in [500, 8000] Hz, placed inside the room x in [-10, 10],
   * y in [0, 20], z in [-5, 5], and starts inside [0, duration].
   */
  lemma Notes3DShape(exp2: real -> Positive, xData: seq<real>, yData: seq<real>, zData: seq<real>, duration: real)
    requires 0 < |xData| <= |yData| && |xData| <= |zData| && 0.0 <= duration
    ensures var r := Notes3D(exp2, xData, yData, zData, duration);
      && (forall i :: 0 <= i < |r| ==> r[i].duration == 0.3 && 0.0 <= r[i].start <= duration)
      && (forall i :: 0 <= i < |r| ==> r[i].cutoff.Some? && 500.0 <= r[i].cutoff.value <= 8000.0)
      && (forall i :: 0 <= i < |r| ==> r[i].position.Some? && InRoom(r[i].position.value))
      && (forall i :: 0 <= i < |r| ==> PlaysNoteIn(exp2, r[i].freq, 48, 72))
  {
    var r := Notes3D(exp2, xData, yData, zData, duration);
    ScaleBounds(xData, 0.0, duration);
    ScaleBounds(zData, 500.0, 8000.0);
    ScaleBounds(xData, -10.0, 10.0);
    ScaleBounds(yData, 0.0, 20.0);
    ScaleBounds(zData, -5.0, 5.0);
    forall i | 0 <= i < |r| ensures PlaysNoteIn(exp2, r[i].freq, 48, 72) {
      var n := MidiNotes(yData, 48, 72)[i];
      assert r[i].freq == MidiToFreq(exp2, n);
    }
  }

  /** Two scalings of the same data are affine images of each other: both are the same fraction of their range. */
  lemma ScaleCoupled(data: seq<real>, k: nat, aMin: real, aMax: real, bMin: real, bMax: real)
    requires 0 < |data| && k < |data| && aMin != aMax
    ensures ScaleData(data, bMin, bMax)[k]
         == bMin + (ScaleData(data, aMin, aMax)[k] - aMin) / (aMax - aMin) * (bMax - bMin)
  {
    var lo, hi := SeqMin(data), SeqMax(data);
    if lo != hi {
      assert ScaleData(data, aMin, aMax)[k] == Rescale(data[k], lo, hi, aMin, aMax);
      assert ScaleData(data, bMin, bMax)[k] == Rescale(data[k], lo, hi, bMin, bMax);
      RescaleCoupled(data[k], lo, hi, aMin, aMax, bMin, bMax);
    } else {
      CoupledAtMinimum(ScaleData(data, aMin, aMax)[k], ScaleData(data, bMin, bMax)[k], aMin, aMax, bMin, bMax);
    }
  }

  /** Two scalings of constant data both sit at their minimum, which the affine relation maps onto each other. */
  lemma CoupledAtMinimum(a: real, b: real, aMin: real, aMax: real, bMin: real, bMax: real)
    requires a == aMin && b == bMin && aMin != aMax
    ensures b == bMin + (a - aMin) / (aMax - aMin) * (bMax - bMin)
  {
    assert a - aMin == 0.0;
  }

  lemma PanFollowsTime(xData: seq<real>, duration: real, i: nat)
    requires 0 < |xData| && i < |xData| && duration != 0.0
    ensures ScaleData(xData, -10.0, 10.0)[i] == -10.0 + ScaleData(xData, 0.0, duration)[i] / duration * 20.0
  {
    ScaleCoupled(xData, i, 0.0, duration, -10.0, 10.0);
  }

  lemma HeightFollowsCutoff(zData: seq<real>, i: nat)
    requires 0 < |zData| && i < |zData|
    ensures ScaleData(zData, -5.0, 5.0)[i] == -5.0 + (ScaleData(zData, 500.0, 8000.0)[i] - 500.0) / 7500.0 * 10.0
  {
    ScaleCoupled(zData, i, 500.0, 8000.0, -5.0, 5.0);
  }

  /**
   * The double mappings of `sonify_3d`: X moves a note both later and further
   * right, Z makes it both brighter and higher, in lock step:
   * pos.x = -10 + 20 * start / duration and pos.z = -5 + 10 * (cutoff - 500) / 7500.
   */
  lemma Notes3DCoupling(exp2: real -> Positive, xData: seq<real>, yData: seq<real>, zData: seq<real>, duration: real, i: nat)
    requires 0 < |xData| <= |yData| && |xData| <= |zData| && duration != 0.0 && i < |xData|
    ensures var r := Notes3D(exp2, xData, yData, zData, duration);
      && r[i].position.value.x == -10.0 + r[i].start / duration * 20.0
      && r[i].position.value.z == -5.0 + (r[i].cutoff.value - 500.0) / 7500.0 * 10.0
  {
    Notes3DAt(exp2, xData, yData, zData, duration, i);
    PanFollowsTime(xData, duration, i);
    HeightFollowsCutoff(zData, i);
  }

  /** Z is brightness and height: a larger Z never gets a lower cutoff or a lower position. */
  lemma Notes3DOrder(exp2: real -> Positive, xData: seq<real>, yData: seq<real>, zData: seq<real>, duration: real, i: nat, j: nat)
    requires 0 < |xData| <= |yData| && |xData| <= |zData| && i < |xData| && j < |xData|
    ensures var r := Notes3D(exp2, xData, yData, zData, duration);
      && (xData[i] <= xData[j] ==> r[i].position.value.x <= r[j].position.value.x)
      && (yData[i] <= yData[j] ==> r[i].position.value.y <= r[j].position.value.y)
      && (zData[i] <= zData[j] ==> r[i].cutoff.value <= r[j].cutoff.value && r[i].position.value.z <= r[j].position.value.z)
  {
    if xData[i] <= xData[j] {
      ScaleMonotone(xData, -10.0, 10.0, i, j);
    }
    if yData[i] <= yData[j] {
      ScaleMonotone(yData, 0.0, 20.0, i, j);
    }
    if zData[i] <= zData[j] {
      ScaleMonotone(zData, 500.0, 8000.0, i, j);
      ScaleMonotone(zData, -5.0, 5.0, i, j);
    }
  }
}
