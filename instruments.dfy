/** The instrument presets: harmonic weights, vibrato and ADSR envelope per instrument. */
module Instruments {

  /** Envelope times in seconds; `sustain` is a gain. */
  datatype Adsr = Adsr(attack: real, decay: real, sustain: real, release: real)

  /**
   * `harmonics[i]` weighs harmonic i + 1 (index 0 is the fundamental);
   * `vRate` is the vibrato rate in Hz (0 switches vibrato off), `vWidth` its depth.
   */
  datatype Instrument = Instrument(harmonics: seq<real>, vRate: real, vWidth: real, adsr: Adsr)

  const Piano: Instrument := Instrument([1.0, 0.5, 0.2, 0.1], 0.0, 0.0, Adsr(0.01, 0.1, 0.6, 0.4))
  const Violin: Instrument := Instrument([1.0, 0.8, 0.7, 0.6, 0.5, 0.4], 5.0, 2.0, Adsr(0.2, 0.1, 0.8, 0.3))
  const Cello: Instrument := Instrument([1.0, 0.8, 0.5, 0.3], 4.5, 3.0, Adsr(0.15, 0.1, 0.7, 0.4))
  const Flute: Instrument := Instrument([1.0, 0.0, 0.5, 0.0, 0.2], 6.0, 1.5, Adsr(0.1, 0.05, 0.9, 0.2))

  /** `PRESETS`, keyed by instrument name. */
  const Presets: map<string, Instrument> :=
    map["piano" := Piano, "violin" := Violin, "cello" := Cello, "flute" := Flute]

  /** The envelope times the model covers: none of them negative. */
  predicate ValidAdsr(a: Adsr)
  {
    0.0 <= a.attack && 0.0 <= a.decay && 0.0 <= a.release
  }

  /** What every preset satisfies: positive envelope times, a unit-weight fundamental, weights and sustain in [0, 1]. */
  predicate WellFormed(inst: Instrument)
  {
    && 0 < |inst.harmonics|
    && inst.harmonics[0] == 1.0
    && (forall i :: 0 <= i < |inst.harmonics| ==> 0.0 <= inst.harmonics[i] <= 1.0)
    && 0.0 < inst.adsr.attack && 0.0 < inst.adsr.decay && 0.0 < inst.adsr.release
    && 0.0 <= inst.adsr.sustain <= 1.0
    && 0.0 <= inst.vRate
  }

  lemma PresetNames()
    ensures Presets.Keys == {"piano", "violin", "cello", "flute"}
    ensures |Presets| == 4
  {
    assert Presets.Keys == {"piano", "violin", "cello", "flute"};
  }

  lemma PresetsWellFormed()
    ensures forall name :: name in Presets ==> WellFormed(Presets[name]) && ValidAdsr(Presets[name].adsr)
  {
  }

  /** Only the piano has vibrato switched off. */
  lemma PresetVibrato()
    ensures Presets["piano"].vRate == 0.0
    ensures forall name :: name in Presets && name != "piano" ==> 0.0 < Presets[name].vRate
  {
  }

  /** The flute sounds odd harmonics only: harmonics 2 and 4 have weight 0. */
  lemma FluteOddHarmonics()
    ensures |Presets["flute"].harmonics| == 5
    ensures Presets["flute"].harmonics[1] == 0.0 && Presets["flute"].harmonics[3] == 0.0
  {
  }
}
