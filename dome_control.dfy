/**
 * What the control members of the dome reverb (`prepare`, `updateParameters`
 * behind `setDomeAmount` and `setPreset`, and `clear`) do to the engine's
 * per-sample state, as functions on values.
 */
module DomeControl {
  import opened DelayLine
  import opened DomeParams
  import Comb
  import AllPass
  import Iir
  import opened DomePipeline

  /** Filters per channel. */
  const NumCombs: nat := 8
  const NumAllPasses: nat := 4
  const NumEqBands: nat := 7

  /** Comb delay times in milliseconds; the right channel's are a little longer. */
  const CombDelaysL: seq<real> := [29.7, 37.1, 41.1, 43.7, 47.3, 53.9, 59.3, 61.7]
  const CombDelaysR: seq<real> := [31.1, 39.7, 43.3, 47.1, 51.7, 57.3, 63.1, 67.9]

  /** All-pass delay times in milliseconds. */
  const AllPassDelaysL: seq<real> := [5.0, 6.7, 10.0, 12.4]
  const AllPassDelaysR: seq<real> := [5.3, 7.1, 11.3, 13.7]

  /** What `prepare` gives every comb: 150 ms of buffer, feedback 0.82, damping 0.3. */
  const CombCapacityMs: real := 150.0
  const CombInitialFeedback: real := 0.82
  const CombInitialDamping: real := 0.3

  /** What `prepare` gives every all-pass filter: 30 ms of buffer, coefficient 0.5. */
  const AllPassCapacityMs: real := 30.0
  const AllPassInitialCoefficient: real := 0.5

  /** The tone filters `prepare` designs before the knob first moves. */
  const LowPassInitialHz: real := 8000.0
  const BassShelfInitialGain: real := 1.5

  /** Up to this sample rate every sample count of the engine fits the source's 32-bit `int`. */
  const MaxSampleRate: real := 1000000000.0

  /** From this sample rate on, `prepare` gives every delay line at least one cell. */
  const MinSampleRate: real := 40.0

  /** A duration of at most 150 ms is a sample count that fits an `int` and a `size_t`. */
  lemma SamplesFit(ms: real, sampleRate: real)
    requires 0.0 <= ms <= CombCapacityMs && 0.0 < sampleRate <= MaxSampleRate
    ensures 0 <= MsToSamples(ms, sampleRate) <= 150000000
    ensures IsInt(MsToSamples(ms, sampleRate)) && IsSize(MsToSamples(ms, sampleRate))
  {
    ProductBound(ms, sampleRate, CombCapacityMs, MaxSampleRate);
    TruncMonotone(ms * sampleRate / 1000.0, 150000000.0);
  }

  /** From `MinSampleRate` on, 30 ms or more is at least one sample. */
  lemma SamplesAtLeastOne(ms: real, sampleRate: real)
    requires AllPassCapacityMs <= ms && MinSampleRate <= sampleRate
    ensures 1 <= MsToSamples(ms, sampleRate)
  {
    assert ms * sampleRate >= AllPassCapacityMs * sampleRate >= AllPassCapacityMs * MinSampleRate;
  }

  /**
   * The designs `prepare` gives the seven pre-EQ bands: a low shelf at 50 Hz,
   * peaks at 100 Hz, 200 Hz, 400 Hz, 1 kHz and 4 kHz, a low-pass at 10 kHz.
   */
  function PreEqDesigns(sampleRate: real): (ds: seq<Iir.Design>)
    ensures |ds| == NumEqBands
    ensures forall k :: 0 <= k < |ds| ==> !ds[k].Unset? && ds[k].sampleRate == sampleRate
    ensures ds[0].LowShelf? && ds[NumEqBands - 1].LowPass?
    ensures forall k :: 1 <= k < NumEqBands - 1 ==> ds[k].Peak?
  {
    [ Iir.LowShelf(sampleRate, 50.0, 0.7, 1.12),
      Iir.Peak(sampleRate, 100.0, 1.5, 0.89),
      Iir.Peak(sampleRate, 200.0, 1.0, 0.71),
      Iir.Peak(sampleRate, 400.0, 1.2, 0.63),
      Iir.Peak(sampleRate, 1000.0, 1.0, 1.26),
      Iir.Peak(sampleRate, 4000.0, 1.5, 2.0),
      Iir.LowPass(sampleRate, 10000.0, Iir.Q(0.5)) ]
  }

  /**
   * A comb after `prepare(sampleRate, 150)`, `setDelayTime(delayMs)`,
   * `setFeedback(0.82)` and `setDamping(0.3)`. What the buffer held and the
   * damping memory survive.
   */
  function PreparedComb(s: Comb.CombState, sampleRate: real, delayMs: real): (c: Comb.CombState)
    requires 0.0 < sampleRate <= MaxSampleRate && 0.0 <= delayMs <= CombCapacityMs
    ensures |c.buffer| == MsToSamples(CombCapacityMs, sampleRate)
    ensures forall i :: 0 <= i < |c.buffer| && i < |s.buffer| ==> c.buffer[i] == s.buffer[i]
    ensures forall i :: |s.buffer| <= i < |c.buffer| ==> c.buffer[i] == 0.0
    ensures c.writeIndex == 0 && c.filterStore == s.filterStore
    ensures c.feedback == CombInitialFeedback && c.damping == CombInitialDamping
    ensures 2 <= |c.buffer| ==> 1 <= c.delaySamples <= |c.buffer| - 1
    ensures MinSampleRate <= sampleRate ==> c.Ready()
  {
    SamplesFit(CombCapacityMs, sampleRate);
    SamplesFit(delayMs, sampleRate);
    assert MinSampleRate <= sampleRate ==> 1 <= MsToSamples(CombCapacityMs, sampleRate) by {
      if MinSampleRate <= sampleRate { SamplesAtLeastOne(CombCapacityMs, sampleRate); }
    }
    var cells := Resized(s.buffer, MsToSamples(CombCapacityMs, sampleRate));
    s.(buffer := cells,
       writeIndex := 0,
       delaySamples := ClampDelay(MsToSamples(delayMs, sampleRate), |cells|),
       feedback := Clamp(CombInitialFeedback, 0.0, Comb.MaxFeedback),
       damping := Clamp(CombInitialDamping, 0.0, 1.0))
  }

  /**
   * An all-pass filter after `prepare(sampleRate, 30)`, `setDelayTime(delayMs)`
   * and `setCoefficient(0.5)`. What the buffer held survives.
   */
  function PreparedAllPass(s: AllPass.AllPassState, sampleRate: real, delayMs: real): (a: AllPass.AllPassState)
    requires 0.0 < sampleRate <= MaxSampleRate && 0.0 <= delayMs <= AllPassCapacityMs
    ensures |a.buffer| == MsToSamples(AllPassCapacityMs, sampleRate)
    ensures forall i :: 0 <= i < |a.buffer| && i < |s.buffer| ==> a.buffer[i] == s.buffer[i]
    ensures forall i :: |s.buffer| <= i < |a.buffer| ==> a.buffer[i] == 0.0
    ensures a.writeIndex == 0 && a.coefficient == AllPassInitialCoefficient
    ensures 2 <= |a.buffer| ==> 1 <= a.delaySamples <= |a.buffer| - 1
    ensures MinSampleRate <= sampleRate ==> a.Ready()
  {
    SamplesFit(AllPassCapacityMs, sampleRate);
    SamplesFit(delayMs, sampleRate);
    assert MinSampleRate <= sampleRate ==> 1 <= MsToSamples(AllPassCapacityMs, sampleRate) by {
      if MinSampleRate <= sampleRate { SamplesAtLeastOne(AllPassCapacityMs, sampleRate); }
    }
    var cells := Resized(s.buffer, MsToSamples(AllPassCapacityMs, sampleRate));
    s.(buffer := cells,
       writeIndex := 0,
       delaySamples := ClampDelay(MsToSamples(delayMs, sampleRate), |cells|),
       coefficient := Clamp(AllPassInitialCoefficient, 0.0, AllPass.MaxCoefficient))
  }

  /**
   * The calls `prepare` makes on one comb object, in the same order; the
   * object ends in the state `PreparedComb` describes.
   */
  method PrepareCombFilter(f: Comb.CombFilter, sampleRate: real, delayMs: real)
    requires f.Valid() && 0.0 < sampleRate <= MaxSampleRate && 0.0 <= delayMs <= CombCapacityMs
    modifies f
    ensures f.Valid() && f.sampleRate == sampleRate
    ensures f.State() == PreparedComb(old(f.State()), sampleRate, delayMs)
  {
    SamplesFit(CombCapacityMs, sampleRate);
    SamplesFit(delayMs, sampleRate);
    f.Prepare(sampleRate, CombCapacityMs);
    f.SetDelayTime(delayMs);
    f.SetFeedback(CombInitialFeedback);
    f.SetDamping(CombInitialDamping);
  }

  /**
   * The calls `prepare` makes on one all-pass object, in the same order; the
   * object ends in the state `PreparedAllPass` describes.
   */
  method PrepareAllPassFilter(f: AllPass.AllPassFilter, sampleRate: real, delayMs: real)
    requires f.Valid() && 0.0 < sampleRate <= MaxSampleRate && 0.0 <= delayMs <= AllPassCapacityMs
    modifies f
    ensures f.Valid() && f.sampleRate == sampleRate
    ensures f.State() == PreparedAllPass(old(f.State()), sampleRate, delayMs)
  {
    SamplesFit(AllPassCapacityMs, sampleRate);
    SamplesFit(delayMs, sampleRate);
    f.Prepare(sampleRate, AllPassCapacityMs);
    f.SetDelayTime(delayMs);
    f.SetCoefficient(AllPassInitialCoefficient);
  }

  /** Every delay time of a table is between 0 and `maxMs`. */
  predicate DelaysWithin(delays: seq<real>, maxMs: real)
  {
    forall k :: 0 <= k < |delays| ==> 0.0 <= delays[k] <= maxMs
  }

  /** The engine has eight combs, four all-pass filters and seven pre-EQ bands per channel. */
  predicate Shaped(e: Engine)
  {
    && |e.left.preEq| == NumEqBands && |e.right.preEq| == NumEqBands
    && |e.left.combs| == NumCombs && |e.right.combs| == NumCombs
    && |e.left.allPasses| == NumAllPasses && |e.right.allPasses| == NumAllPasses
  }

  /**
   * The coefficient ranges the engine keeps: every comb's feedback between 0
   * and 0.87 (so below unity) and its damping between 0 and 1, every
   * all-pass coefficient between 0 and 0.9.
   */
  predicate Stable(ch: Channel)
  {
    && (forall k :: 0 <= k < |ch.combs| ==>
          0.0 <= ch.combs[k].feedback <= MaxCombFeedback && 0.0 <= ch.combs[k].damping <= 1.0)
    && (forall k :: 0 <= k < |ch.allPasses| ==> 0.0 <= ch.allPasses[k].coefficient <= AllPass.MaxCoefficient)
  }

  /** Both channels of the engine are in the stable ranges. */
  predicate EngineStable(e: Engine)
  {
    Stable(e.left) && Stable(e.right)
  }

  /**
   * A block of samples leaves every coefficient where it was, so a stable
   * engine stays stable: every comb's feedback is still below unity.
   */
  lemma {:induction false} BlockKeepsStable(respond: Iir.Response, e: Engine, insL: seq<real>, insR: seq<real>)
    requires e.Ready() && |insL| == |insR| && EngineStable(e)
    ensures EngineStable(RunBlock(respond, e, insL, insR).last)
    ensures forall k :: 0 <= k < |e.left.combs| ==> RunBlock(respond, e, insL, insR).last.left.combs[k].feedback < 1.0
    ensures forall k :: 0 <= k < |e.right.combs| ==> RunBlock(respond, e, insL, insR).last.right.combs[k].feedback < 1.0
  {
    var last := RunBlock(respond, e, insL, insR).last;
    StableKept(e.left, last.left);
    StableKept(e.right, last.right);
  }

  /** Keeping the tuning keeps the stable ranges. */
  lemma StableKept(a: Channel, b: Channel)
    requires Stable(a) && SameTuning(a, b)
    ensures Stable(b) && |b.combs| == |a.combs|
  {
  }

  /**
   * One channel after `prepare`: every comb and all-pass filter prepared with
   * its delay time, the pre-delay resized to 50 ms and rewound, the pre-EQ
   * and tone filters redesigned. No filter memory is reset and the pre-delay
   * length is kept.
   */
  function PreparedChannel(ch: Channel, sampleRate: real, combDelays: seq<real>, allPassDelays: seq<real>): (c: Channel)
    requires 0.0 < sampleRate <= MaxSampleRate
    requires |ch.preEq| == NumEqBands && |ch.combs| == |combDelays| && |ch.allPasses| == |allPassDelays|
    requires DelaysWithin(combDelays, CombCapacityMs) && DelaysWithin(allPassDelays, AllPassCapacityMs)
    ensures MinSampleRate <= sampleRate ==> c.Allocated()
    ensures |c.preEq| == NumEqBands && |c.combs| == |ch.combs| && |c.allPasses| == |ch.allPasses|
    ensures forall k :: 0 <= k < |ch.combs| ==> c.combs[k] == PreparedComb(ch.combs[k], sampleRate, combDelays[k])
    ensures forall k :: 0 <= k < |ch.allPasses| ==>
              c.allPasses[k] == PreparedAllPass(ch.allPasses[k], sampleRate, allPassDelays[k])
    ensures forall k :: 0 <= k < NumEqBands ==>
              c.preEq[k] == Iir.IirState(PreEqDesigns(sampleRate)[k], ch.preEq[k].history)
    ensures c.preDelay.buffer == Resized(ch.preDelay.buffer, MsToSamples(PreDelayCapacityMs, sampleRate))
    ensures c.preDelay.writeIndex == 0 && c.preDelaySamples == ch.preDelaySamples
    ensures c.lowPass == ch.lowPass.(design := Iir.LowPass(sampleRate, LowPassInitialHz, Iir.DefaultQ))
    ensures c.lowShelf == ch.lowShelf.(design := Iir.LowShelf(sampleRate, BassShelfHz, BassShelfQ, BassShelfInitialGain))
  {
    SamplesFit(PreDelayCapacityMs, sampleRate);
    assert MinSampleRate <= sampleRate ==> 1 <= MsToSamples(PreDelayCapacityMs, sampleRate) by {
      if MinSampleRate <= sampleRate { SamplesAtLeastOne(PreDelayCapacityMs, sampleRate); }
    }
    var designs := PreEqDesigns(sampleRate);
    Channel(
      seq(NumEqBands, k requires 0 <= k < NumEqBands => Iir.IirState(designs[k], ch.preEq[k].history)),
      PreDelayLine(Resized(ch.preDelay.buffer, MsToSamples(PreDelayCapacityMs, sampleRate)), 0),
      ch.preDelaySamples,
      seq(|ch.combs|, k requires 0 <= k < |ch.combs| => PreparedComb(ch.combs[k], sampleRate, combDelays[k])),
      seq(|ch.allPasses|, k requires 0 <= k < |ch.allPasses| =>
        PreparedAllPass(ch.allPasses[k], sampleRate, allPassDelays[k])),
      ch.lowPass.(design := Iir.LowPass(sampleRate, LowPassInitialHz, Iir.DefaultQ)),
      ch.lowShelf.(design := Iir.LowShelf(sampleRate, BassShelfHz, BassShelfQ, BassShelfInitialGain)))
  }

  /** The engine after `prepare(sampleRate, _)`: both channels prepared with their own delay tables. */
  function PreparedEngine(e: Engine, sampleRate: real): (p: Engine)
    requires Shaped(e) && 0.0 < sampleRate <= MaxSampleRate
    ensures Shaped(p)
    ensures MinSampleRate <= sampleRate ==> p.left.Allocated() && p.right.Allocated()
    ensures EngineStable(p)
    ensures p.stereoWidth == e.stereoWidth && p.wetGain == e.wetGain && p.dryGain == e.dryGain
  {
    e.(left := PreparedChannel(e.left, sampleRate, CombDelaysL, AllPassDelaysL),
       right := PreparedChannel(e.right, sampleRate, CombDelaysR, AllPassDelaysR))
  }

  /**
   * One channel after `updateParameters` with knob `d`: the pre-delay length
   * follows the knob, every comb gets the knob's feedback and damping, the
   * tone filters are redesigned. No buffer, cursor or filter memory changes.
   */
  function RetunedChannel(ch: Channel, d: real, bassBoost: real, sampleRate: real, preDelayMs: real): (c: Channel)
    requires 0.0 <= d <= 1.0 && 0.0 <= preDelayMs && 0.0 < sampleRate
    ensures c.preDelaySamples == PreDelayLength(d, preDelayMs, sampleRate, |ch.preDelay.buffer|)
    ensures c.preEq == ch.preEq && c.preDelay == ch.preDelay && c.allPasses == ch.allPasses
    ensures |c.combs| == |ch.combs|
    ensures forall k :: 0 <= k < |ch.combs| ==>
              c.combs[k] == ch.combs[k].(feedback := CombFeedback(d), damping := CombDamping(d))
    ensures forall k :: 0 <= k < |ch.combs| ==> c.combs[k].feedback < 1.0
    ensures c.lowPass == ch.lowPass.(design := Iir.LowPass(sampleRate, Cutoff(d), Iir.DefaultQ))
    ensures c.lowShelf == ch.lowShelf.(design := Iir.LowShelf(sampleRate, BassShelfHz, BassShelfQ, bassBoost))
    ensures c.Allocated() == ch.Allocated()
    ensures ch.Allocated() ==> c.Ready()
  {
    ch.(preDelaySamples := PreDelayLength(d, preDelayMs, sampleRate, |ch.preDelay.buffer|),
        combs := seq(|ch.combs|, k requires 0 <= k < |ch.combs| =>
          ch.combs[k].(feedback := CombFeedback(d), damping := CombDamping(d))),
        lowPass := ch.lowPass.(design := Iir.LowPass(sampleRate, Cutoff(d), Iir.DefaultQ)),
        lowShelf := ch.lowShelf.(design := Iir.LowShelf(sampleRate, BassShelfHz, BassShelfQ, bassBoost)))
  }

  /**
   * The engine after `updateParameters` with knob `d` and bass boost
   * `bassBoost`: both channels retuned (left with the 25 ms pre-delay, right
   * with the 30 ms one) and the gains set from the knob.
   */
  function Retuned(e: Engine, d: real, bassBoost: real, sampleRate: real): (r: Engine)
    requires 0.0 <= d <= 1.0 && 0.0 < sampleRate
    ensures r.wetGain == WetGain(d) && r.dryGain == DryGain(d) && r.stereoWidth == e.stereoWidth
    ensures Shaped(e) ==> Shaped(r)
    ensures EngineStable(e) ==> EngineStable(r)
    ensures e.left.Allocated() && e.right.Allocated() ==> r.Ready()
  {
    e.(left := RetunedChannel(e.left, d, bassBoost, sampleRate, PreDelayMsL),
       right := RetunedChannel(e.right, d, bassBoost, sampleRate, PreDelayMsR),
       wetGain := WetGain(d),
       dryGain := DryGain(d))
  }

  /**
   * One channel after `clear`: comb buffers and damping memories, all-pass
   * buffers and the pre-delay buffer zeroed, the tone filters reset. The
   * pre-EQ bands keep their memory and every cursor stays where it was.
   */
  function ClearedChannel(ch: Channel): (c: Channel)
    ensures c.preEq == ch.preEq && c.preDelaySamples == ch.preDelaySamples
    ensures c.preDelay.writeIndex == ch.preDelay.writeIndex
    ensures |c.preDelay.buffer| == |ch.preDelay.buffer| && Silent(c.preDelay.buffer)
    ensures |c.combs| == |ch.combs| && forall k :: 0 <= k < |c.combs| ==> c.combs[k].Quiet()
    ensures |c.allPasses| == |ch.allPasses| && forall k :: 0 <= k < |c.allPasses| ==> Silent(c.allPasses[k].buffer)
    ensures c.lowPass == Iir.IirState(ch.lowPass.design, []) && c.lowShelf == Iir.IirState(ch.lowShelf.design, [])
    ensures ch.Allocated() ==> c.Allocated()
    ensures ch.Ready() ==> c.Ready()
  {
    ch.(preDelay := ch.preDelay.(buffer := Zeros(|ch.preDelay.buffer|)),
        combs := seq(|ch.combs|, k requires 0 <= k < |ch.combs| => Comb.Cleared(ch.combs[k])),
        allPasses := seq(|ch.allPasses|, k requires 0 <= k < |ch.allPasses| => AllPass.Cleared(ch.allPasses[k])),
        lowPass := Iir.IirState(ch.lowPass.design, []),
        lowShelf := Iir.IirState(ch.lowShelf.design, []))
  }

  /** The engine after `clear`. */
  function ClearedEngine(e: Engine): (c: Engine)
    ensures c.stereoWidth == e.stereoWidth && c.wetGain == e.wetGain && c.dryGain == e.dryGain
    ensures e.Ready() ==> c.Ready()
    ensures Shaped(e) ==> Shaped(c)
    ensures EngineStable(e) ==> EngineStable(c)
  {
    e.(left := ClearedChannel(e.left), right := ClearedChannel(e.right))
  }

  /** Clearing a cleared engine changes nothing. */
  lemma ClearIdempotent(e: Engine)
    ensures ClearedEngine(ClearedEngine(e)) == ClearedEngine(e)
  {
    var c := ClearedEngine(e);
    forall ch | ch == e.left || ch == e.right
      ensures ClearedChannel(ClearedChannel(ch)) == ClearedChannel(ch)
    {
      var once := ClearedChannel(ch);
      var twice := ClearedChannel(once);
      assert twice.combs == once.combs;
      assert twice.allPasses == once.allPasses;
      assert twice.preDelay == once.preDelay;
    }
  }

  /** Retuning twice with the same settings is retuning once. */
  lemma RetuneIdempotent(e: Engine, d: real, bassBoost: real, sampleRate: real)
    requires 0.0 <= d <= 1.0 && 0.0 < sampleRate
    ensures Retuned(Retuned(e, d, bassBoost, sampleRate), d, bassBoost, sampleRate)
         == Retuned(e, d, bassBoost, sampleRate)
  {
    var once := Retuned(e, d, bassBoost, sampleRate);
    var twice := Retuned(once, d, bassBoost, sampleRate);
    assert twice.left.combs == once.left.combs;
    assert twice.right.combs == once.right.combs;
  }

  /**
   * Retuning only touches coefficients: the engine it produces processes the
   * next sample from the same delay-line contents, cursors and memories as
   * before, in both channels.
   */
  lemma RetuneKeepsMemory(e: Engine, d: real, bassBoost: real, sampleRate: real)
    requires 0.0 <= d <= 1.0 && 0.0 < sampleRate
    ensures forall k :: 0 <= k < |e.left.combs| ==>
              && Retuned(e, d, bassBoost, sampleRate).left.combs[k].buffer == e.left.combs[k].buffer
              && Retuned(e, d, bassBoost, sampleRate).left.combs[k].writeIndex == e.left.combs[k].writeIndex
              && Retuned(e, d, bassBoost, sampleRate).left.combs[k].filterStore == e.left.combs[k].filterStore
    ensures forall k :: 0 <= k < |e.right.combs| ==>
              && Retuned(e, d, bassBoost, sampleRate).right.combs[k].buffer == e.right.combs[k].buffer
              && Retuned(e, d, bassBoost, sampleRate).right.combs[k].writeIndex == e.right.combs[k].writeIndex
              && Retuned(e, d, bassBoost, sampleRate).right.combs[k].filterStore == e.right.combs[k].filterStore
    ensures Retuned(e, d, bassBoost, sampleRate).left.allPasses == e.left.allPasses
    ensures Retuned(e, d, bassBoost, sampleRate).right.allPasses == e.right.allPasses
    ensures Retuned(e, d, bassBoost, sampleRate).left.preEq == e.left.preEq
    ensures Retuned(e, d, bassBoost, sampleRate).right.preEq == e.right.preEq
    ensures Retuned(e, d, bassBoost, sampleRate).left.preDelay == e.left.preDelay
    ensures Retuned(e, d, bassBoost, sampleRate).right.preDelay == e.right.preDelay
    ensures Retuned(e, d, bassBoost, sampleRate).left.lowPass.history == e.left.lowPass.history
    ensures Retuned(e, d, bassBoost, sampleRate).left.lowShelf.history == e.left.lowShelf.history
    ensures Retuned(e, d, bassBoost, sampleRate).right.lowPass.history == e.right.lowPass.history
    ensures Retuned(e, d, bassBoost, sampleRate).right.lowShelf.history == e.right.lowShelf.history
  {
  }
}
