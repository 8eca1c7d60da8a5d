/**
 * The parameter mapper of the dome reverb: the preset table and the curves
 * that turn the one knob, `domeAmount` in [0, 1], into the engine's gains,
 * pre-delay lengths, comb coefficients and tone-filter settings.
 */
module DomeParams {
  import opened DelayLine

  /** `enum class DomePreset`. */
  datatype DomePreset = Arena | Stadium | Hall | Club

  /** The three values a preset overrides. */
  datatype PresetSettings = PresetSettings(domeAmount: real, stereoWidth: real, bassBoost: real)

  /**
   * The preset table of `setPreset`. Every preset keeps the knob in [0, 1],
   * the width between half and full, and boosts the bass by 1.2 to 2.
   */
  function Settings(p: DomePreset): (s: PresetSettings)
    ensures 0.0 <= s.domeAmount <= 1.0
    ensures 0.5 <= s.stereoWidth <= 1.0
    ensures 1.2 <= s.bassBoost <= 2.0
  {
    match p
    case Arena => PresetSettings(0.6, 0.8, 1.5)
    case Stadium => PresetSettings(0.8, 1.0, 1.8)
    case Hall => PresetSettings(0.4, 0.6, 1.2)
    case Club => PresetSettings(0.25, 0.5, 2.0)
  }

  /** The wet gain rises with the knob, up to 60%. */
  function WetGain(d: real): (g: real)
    ensures 0.0 <= d <= 1.0 ==> 0.0 <= g <= 0.6
    ensures d == 0.0 ==> g == 0.0
  {
    d * 0.6
  }

  /** The dry gain falls with the knob, never below 70%. */
  function DryGain(d: real): (g: real)
    ensures 0.0 <= d <= 1.0 ==> 0.7 <= g <= 1.0
    ensures d == 0.0 ==> g == 1.0
  {
    1.0 - d * 0.3
  }

  /** The largest comb feedback the knob reaches. */
  const MaxCombFeedback: real := 0.87

  /** The feedback of all 16 combs: from 0.75 to 0.87, strictly below unity. */
  function CombFeedback(d: real): (fb: real)
    ensures 0.0 <= d <= 1.0 ==> 0.75 <= fb <= MaxCombFeedback < 1.0
  {
    0.75 + d * 0.12
  }

  /** The damping of all 16 combs: from 0.15 to 0.5. */
  function CombDamping(d: real): (damp: real)
    ensures 0.0 <= d <= 1.0 ==> 0.15 <= damp <= 0.5
  {
    0.15 + d * 0.35
  }

  /** The low-pass cutoff after the network: from 10 kHz down to 5 kHz. */
  function Cutoff(d: real): (hz: real)
    ensures 0.0 <= d <= 1.0 ==> 5000.0 <= hz <= 10000.0
  {
    10000.0 - d * 5000.0
  }

  /** The left and right pre-delay times at full knob, in milliseconds. */
  const PreDelayMsL: real := 25.0
  const PreDelayMsR: real := 30.0

  /** The capacity of each pre-delay buffer, in milliseconds. */
  const PreDelayCapacityMs: real := 50.0

  /**
   * A pre-delay length: the knob's share of `ms` converted to samples, limited
   * to the last cell of a buffer of `size` cells.
   */
  function PreDelayLength(d: real, ms: real, sampleRate: real, size: int): (n: int)
    requires 0.0 <= d && 0.0 <= ms && 0.0 < sampleRate
    ensures 1 <= size ==> 0 <= n <= size - 1
    ensures n <= Trunc(d * ms * sampleRate / 1000.0)
    ensures Trunc(d * ms * sampleRate / 1000.0) < size ==> n == Trunc(d * ms * sampleRate / 1000.0)
    ensures d == 0.0 ==> n == if size <= 0 then size - 1 else 0
  {
    var n := Trunc(d * ms * sampleRate / 1000.0);
    if n >= size then size - 1 else n
  }

  /** The pre-delay length grows with the knob. */
  lemma PreDelayMonotone(d1: real, d2: real, ms: real, sampleRate: real, size: int)
    requires 0.0 <= d1 <= d2 && 0.0 <= ms && 0.0 < sampleRate
    ensures PreDelayLength(d1, ms, sampleRate, size) <= PreDelayLength(d2, ms, sampleRate, size)
  {
    assert d1 * ms <= d2 * ms;
    assert d1 * ms * sampleRate <= d2 * ms * sampleRate;
    TruncMonotone(d1 * ms * sampleRate / 1000.0, d2 * ms * sampleRate / 1000.0);
  }

  /**
   * The right pre-delay is never shorter than the left one, and both vanish
   * when the knob is at zero.
   */
  lemma PreDelayLeftBeforeRight(d: real, sampleRate: real, size: int)
    requires 0.0 <= d && 0.0 < sampleRate && 1 <= size
    ensures PreDelayLength(d, PreDelayMsL, sampleRate, size)
         <= PreDelayLength(d, PreDelayMsR, sampleRate, size)
    ensures d == 0.0 ==> PreDelayLength(d, PreDelayMsL, sampleRate, size) == 0
    ensures d == 0.0 ==> PreDelayLength(d, PreDelayMsR, sampleRate, size) == 0
  {
    assert d * PreDelayMsL <= d * PreDelayMsR;
    assert d * PreDelayMsL * sampleRate <= d * PreDelayMsR * sampleRate;
    TruncMonotone(d * PreDelayMsL * sampleRate / 1000.0, d * PreDelayMsR * sampleRate / 1000.0);
  }

  /** Frequency and Q of the low shelf after the network; its gain is the preset's bass boost. */
  const BassShelfHz: real := 200.0
  const BassShelfQ: real := 0.7
}
