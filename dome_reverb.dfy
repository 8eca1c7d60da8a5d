/**
 * The dome reverb object (`DomeReverb`): two channels of eight damped combs
 * and four all-pass filters, two pre-delay lines, seven pre-EQ bands and a
 * low-pass and low-shelf per channel, and the knob-derived parameters.
 *
 * The object holds its filters by value (fixed arrays of filter objects and
 * plain filter members), so each filter is a field holding that filter's
 * state, and every call on a filter is the function its class's method is
 * proved against (`Comb.Step`, `Comb.Cleared`, `Iir.Step`, ...). Every
 * method of the object is proved against the value model: `State()` is the
 * engine as a value, and each method's effect on it is a function of
 * `DomePipeline` or `DomeControl`.
 */
module Dome {
  import opened DelayLine
  import opened DomeParams
  import Comb
  import AllPass
  import Iir
  import opened DomePipeline
  import opened DomeControl

  /** The cursor of a pre-delay vector is inside it, or 0 while it is empty. */
  predicate CursorValid(cells: seq<real>, writeIndex: int)
  {
    IsSize(|cells|) && 0 <= writeIndex && (|cells| == 0 ==> writeIndex == 0) && (0 < |cells| ==> writeIndex < |cells|)
  }

  /** The loop of `prepare` over one comb bank, each comb getting its own delay time. */
  method PrepareCombBank(bank: seq<Comb.CombState>, delays: seq<real>, sampleRate: real)
    returns (next: seq<Comb.CombState>)
    requires |delays| == |bank| && DelaysWithin(delays, CombCapacityMs)
    requires 0.0 < sampleRate <= MaxSampleRate
    ensures |next| == |bank|
    ensures forall k :: 0 <= k < |bank| ==> next[k] == PreparedComb(bank[k], sampleRate, delays[k])
  {
    next := bank;
    for i := 0 to |bank|
      invariant |next| == |bank|
      invariant forall k :: 0 <= k < i ==> next[k] == PreparedComb(bank[k], sampleRate, delays[k])
      invariant forall k :: i <= k < |bank| ==> next[k] == bank[k]
    {
      next := next[i := PreparedComb(next[i], sampleRate, delays[i])];
    }
  }

  /** The loop of `prepare` over one all-pass chain. */
  method PrepareAllPassBank(bank: seq<AllPass.AllPassState>, delays: seq<real>, sampleRate: real)
    returns (next: seq<AllPass.AllPassState>)
    requires |delays| == |bank| && DelaysWithin(delays, AllPassCapacityMs)
    requires 0.0 < sampleRate <= MaxSampleRate
    ensures |next| == |bank|
    ensures forall k :: 0 <= k < |bank| ==> next[k] == PreparedAllPass(bank[k], sampleRate, delays[k])
  {
    next := bank;
    for i := 0 to |bank|
      invariant |next| == |bank|
      invariant forall k :: 0 <= k < i ==> next[k] == PreparedAllPass(bank[k], sampleRate, delays[k])
      invariant forall k :: i <= k < |bank| ==> next[k] == bank[k]
    {
      next := next[i := PreparedAllPass(next[i], sampleRate, delays[i])];
    }
  }

  /** `setCoefficients` on every pre-EQ band of a channel: new designs, histories kept. */
  method DesignBands(bands: seq<Iir.IirState>, designs: seq<Iir.Design>) returns (next: seq<Iir.IirState>)
    requires |designs| == |bands|
    ensures |next| == |bands|
    ensures forall k :: 0 <= k < |bands| ==> next[k] == Iir.IirState(designs[k], bands[k].history)
  {
    next := bands;
    for i := 0 to |bands|
      invariant |next| == |bands|
      invariant forall k :: 0 <= k < i ==> next[k] == Iir.IirState(designs[k], bands[k].history)
      invariant forall k :: i <= k < |bands| ==> next[k] == bands[k]
    {
      next := next[i := next[i].(design := designs[i])];
    }
  }

  /** The `setFeedback` loop of `updateParameters` over one comb bank. */
  method SetBankFeedback(bank: seq<Comb.CombState>, feedback: real) returns (next: seq<Comb.CombState>)
    ensures |next| == |bank|
    ensures forall k :: 0 <= k < |bank| ==> next[k] == bank[k].(feedback := Clamp(feedback, 0.0, Comb.MaxFeedback))
  {
    next := bank;
    for i := 0 to |bank|
      invariant |next| == |bank|
      invariant forall k :: 0 <= k < i ==> next[k] == bank[k].(feedback := Clamp(feedback, 0.0, Comb.MaxFeedback))
      invariant forall k :: i <= k < |bank| ==> next[k] == bank[k]
    {
      next := next[i := next[i].(feedback := Clamp(feedback, 0.0, Comb.MaxFeedback))];
    }
  }

  /** The `setDamping` loop of `updateParameters` over one comb bank. */
  method SetBankDamping(bank: seq<Comb.CombState>, damping: real) returns (next: seq<Comb.CombState>)
    ensures |next| == |bank|
    ensures forall k :: 0 <= k < |bank| ==> next[k] == bank[k].(damping := Clamp(damping, 0.0, 1.0))
  {
    next := bank;
    for i := 0 to |bank|
      invariant |next| == |bank|
      invariant forall k :: 0 <= k < i ==> next[k] == bank[k].(damping := Clamp(damping, 0.0, 1.0))
      invariant forall k :: i <= k < |bank| ==> next[k] == bank[k]
    {
      next := next[i := next[i].(damping := Clamp(damping, 0.0, 1.0))];
    }
  }

  /** The `clear` loop over one comb bank. */
  method ClearCombBank(bank: seq<Comb.CombState>) returns (next: seq<Comb.CombState>)
    ensures |next| == |bank|
    ensures forall k :: 0 <= k < |bank| ==> next[k] == Comb.Cleared(bank[k])
  {
    next := bank;
    for i := 0 to |bank|
      invariant |next| == |bank|
      invariant forall k :: 0 <= k < i ==> next[k] == Comb.Cleared(bank[k])
      invariant forall k :: i <= k < |bank| ==> next[k] == bank[k]
    {
      next := next[i := Comb.Cleared(next[i])];
    }
  }

  /** The `clear` loop over one all-pass chain. */
  method ClearAllPassBank(bank: seq<AllPass.AllPassState>) returns (next: seq<AllPass.AllPassState>)
    ensures |next| == |bank|
    ensures forall k :: 0 <= k < |bank| ==> next[k] == AllPass.Cleared(bank[k])
  {
    next := bank;
    for i := 0 to |bank|
      invariant |next| == |bank|
      invariant forall k :: 0 <= k < i ==> next[k] == AllPass.Cleared(bank[k])
      invariant forall k :: i <= k < |bank| ==> next[k] == bank[k]
    {
      next := next[i := AllPass.Cleared(next[i])];
    }
  }

  /** The pre-EQ bands of one channel, one after the other, on one sample. */
  method RunEqCascade(respond: Iir.Response, bands: seq<Iir.IirState>, x: real)
    returns (next: seq<Iir.IirState>, y: real)
    ensures StageOutput(next, y) == EqCascade(respond, bands, x)
  {
    ghost var ins := [x];
    next := [];
    y := x;
    for i := 0 to |bands|
      invariant |ins| == i + 1 && |next| == i && ins[0] == x && y == ins[i]
      invariant forall k :: 0 <= k < i ==> Iir.IirOutput(next[k], ins[k + 1]) == Iir.Step(respond, bands[k], ins[k])
    {
      var band := Iir.Step(respond, bands[i], y);
      next := next + [band.next];
      y := band.out;
      ins := ins + [y];
    }
    EqChain(respond, bands, ins, next, x);
  }

  /** The comb bank of one channel on one sample: every comb fed the same sample, outputs summed. */
  method RunCombBank(bank: seq<Comb.CombState>, x: real) returns (next: seq<Comb.CombState>, sum: real)
    requires CombsReady(bank)
    ensures StageOutput(next, sum) == CombBank(bank, x)
  {
    ghost var outs := CombOutputs(bank, x);
    next := bank;
    sum := 0.0;
    for i := 0 to |bank|
      invariant |next| == |bank|
      invariant forall k :: 0 <= k < i ==> next[k] == Comb.Step(bank[k], x).next
      invariant forall k :: i <= k < |bank| ==> next[k] == bank[k]
      invariant sum == Sum(outs[..i])
    {
      assert outs[..i + 1][..i] == outs[..i];
      var comb := Comb.Step(next[i], x);
      next := next[i := comb.next];
      sum := sum + comb.out;
    }
    assert outs[..|bank|] == outs;
  }

  /** The all-pass chain of one channel, one filter after the other, on one sample. */
  method RunAllPassCascade(bank: seq<AllPass.AllPassState>, x: real)
    returns (next: seq<AllPass.AllPassState>, y: real)
    requires AllPassesReady(bank)
    ensures StageOutput(next, y) == AllPassCascade(bank, x)
  {
    ghost var ins := [x];
    next := [];
    y := x;
    for i := 0 to |bank|
      invariant |ins| == i + 1 && |next| == i && ins[0] == x && y == ins[i]
      invariant forall k :: 0 <= k < i ==> AllPass.AllPassOutput(next[k], ins[k + 1]) == AllPass.Step(bank[k], ins[k])
    {
      var filter := AllPass.Step(bank[i], y);
      next := next + [filter.next];
      y := filter.out;
      ins := ins + [y];
    }
    AllPassChain(bank, ins, next, x);
  }

  /** `processPreDelay`: the vector and the cursor are passed by reference in the source. */
  method ProcessPreDelay(input: real, buffer: seq<real>, writeIndex: int, delaySamples: int)
    returns (output: real, newBuffer: seq<real>, newWriteIndex: int)
    requires 0 <= delaySamples <= |buffer|
    requires delaySamples != 0 ==> 0 <= writeIndex < |buffer|
    ensures PreDelayOutput(PreDelayLine(newBuffer, newWriteIndex), output)
         == PreDelayStep(PreDelayLine(buffer, writeIndex), delaySamples, input)
  {
    newBuffer, newWriteIndex := buffer, writeIndex;
    if delaySamples == 0 {
      return input, newBuffer, newWriteIndex;
    }
    var readIndex := writeIndex - delaySamples;
    if readIndex < 0 {
      readIndex := readIndex + |buffer|;
    }
    var delayed := buffer[readIndex];
    newBuffer := newBuffer[writeIndex := input];
    newWriteIndex := newWriteIndex + 1;
    if newWriteIndex >= |newBuffer| {
      newWriteIndex := 0;
    }
    output := delayed;
  }

  /**
   * The part of `prepare` that concerns one channel: its combs and all-pass
   * filters prepared with their delay tables, its pre-delay vector resized
   * to 50 ms and rewound, its tone filters and pre-EQ bands redesigned.
   */
  method PrepareChannel(ch: Channel, sampleRate: real, combDelays: seq<real>, allPassDelays: seq<real>)
    returns (c: Channel)
    requires 0.0 < sampleRate <= MaxSampleRate
    requires |ch.preEq| == NumEqBands && |ch.combs| == |combDelays| && |ch.allPasses| == |allPassDelays|
    requires DelaysWithin(combDelays, CombCapacityMs) && DelaysWithin(allPassDelays, AllPassCapacityMs)
    ensures c == PreparedChannel(ch, sampleRate, combDelays, allPassDelays)
  {
    var combs := PrepareCombBank(ch.combs, combDelays, sampleRate);
    var allPasses := PrepareAllPassBank(ch.allPasses, allPassDelays, sampleRate);
    SamplesFit(PreDelayCapacityMs, sampleRate);
    var maxPreDelaySamples := MsToSamples(PreDelayCapacityMs, sampleRate);
    var preDelay := PreDelayLine(Resized(ch.preDelay.buffer, maxPreDelaySamples), 0);
    var lowPass := ch.lowPass.(design := Iir.LowPass(sampleRate, LowPassInitialHz, Iir.DefaultQ));
    var lowShelf := ch.lowShelf.(design := Iir.LowShelf(sampleRate, BassShelfHz, BassShelfQ, BassShelfInitialGain));
    var preEq := DesignBands(ch.preEq, PreEqDesigns(sampleRate));
    c := Channel(preEq, preDelay, ch.preDelaySamples, combs, allPasses, lowPass, lowShelf);
    ghost var p := PreparedChannel(ch, sampleRate, combDelays, allPassDelays);
    assert combs == p.combs && allPasses == p.allPasses && preEq == p.preEq;
  }

  /**
   * The part of `updateParameters` that concerns one channel: the pre-delay
   * length from the knob, the knob's feedback and damping into every comb,
   * the low-pass and low-shelf redesigned.
   */
  method RetuneChannel(ch: Channel, d: real, bassBoost: real, sampleRate: real, preDelayMs: real)
    returns (c: Channel)
    requires 0.0 <= d <= 1.0 && 0.0 <= preDelayMs && 0.0 < sampleRate
    ensures c == RetunedChannel(ch, d, bassBoost, sampleRate, preDelayMs)
  {
    var preDelaySamples := PreDelayLength(d, preDelayMs, sampleRate, |ch.preDelay.buffer|);
    var feedback := CombFeedback(d);
    var combs := SetBankFeedback(ch.combs, feedback);
    var damping := CombDamping(d);
    combs := SetBankDamping(combs, damping);
    var cutoff := Cutoff(d);
    var lowPass := ch.lowPass.(design := Iir.LowPass(sampleRate, cutoff, Iir.DefaultQ));
    var lowShelf := ch.lowShelf.(design := Iir.LowShelf(sampleRate, BassShelfHz, BassShelfQ, bassBoost));
    c := ch.(preDelaySamples := preDelaySamples, combs := combs, lowPass := lowPass, lowShelf := lowShelf);
    assert combs == RetunedChannel(ch, d, bassBoost, sampleRate, preDelayMs).combs;
  }

  /**
   * The part of `clear` that concerns one channel: comb buffers and damping
   * memories, all-pass buffers and the pre-delay vector zeroed, the tone
   * filters reset.
   */
  method ClearChannel(ch: Channel) returns (c: Channel)
    ensures c == ClearedChannel(ch)
  {
    var combs := ClearCombBank(ch.combs);
    var allPasses := ClearAllPassBank(ch.allPasses);
    var preDelay := ch.preDelay.(buffer := Zeros(|ch.preDelay.buffer|));
    var lowPass := Iir.IirState(ch.lowPass.design, []);
    var lowShelf := Iir.IirState(ch.lowShelf.design, []);
    c := ch.(preDelay := preDelay, combs := combs, allPasses := allPasses, lowPass := lowPass, lowShelf := lowShelf);
    assert combs == ClearedChannel(ch).combs && allPasses == ClearedChannel(ch).allPasses;
  }

  /** One channel's path through `process` up to the cross-feed: pre-EQ, pre-delay, comb bank, 1/8. */
  method RunFront(respond: Iir.Response, ch: Channel, x: real) returns (c: Channel, y: real)
    requires ch.Ready()
    ensures ChannelOutput(c, y) == Front(respond, ch, x)
  {
    var preEq, eq := RunEqCascade(respond, ch.preEq, x);
    var preDelayed, buffer, writeIndex :=
      ProcessPreDelay(eq, ch.preDelay.buffer, ch.preDelay.writeIndex, ch.preDelaySamples);
    var combs, combOut := RunCombBank(ch.combs, preDelayed);
    c := ch.(preEq := preEq, preDelay := PreDelayLine(buffer, writeIndex), combs := combs);
    y := combOut * CombScale;
  }

  /** One channel's path through `process` after the cross-feed: all-pass chain, low-pass, low shelf. */
  method RunBack(respond: Iir.Response, ch: Channel, x: real) returns (c: Channel, y: real)
    requires ch.Ready()
    ensures ChannelOutput(c, y) == Back(respond, ch, x)
  {
    var allPasses, diffused := RunAllPassCascade(ch.allPasses, x);
    var low := Iir.Step(respond, ch.lowPass, diffused);
    var shelf := Iir.Step(respond, ch.lowShelf, low.out);
    c := ch.(allPasses := allPasses, lowPass := low.next, lowShelf := shelf.next);
    y := shelf.out;
  }

  /** The two `setSample` calls of one sample: the mix into channel 0 and, when it exists, channel 1. */
  method WriteOutput(audio: array2<real>, sample: int, outL: real, outR: real)
    requires 1 <= audio.Length0 && 0 <= sample < audio.Length1
    modifies audio
    ensures forall c, s :: 0 <= c < audio.Length0 && 0 <= s < audio.Length1 ==>
              audio[c, s] == if s == sample && c == 0 then outL
                             else if s == sample && c == 1 then outR
                             else old(audio[c, s])
  {
    audio[0, sample] := outL;
    if 1 < audio.Length0 {
      audio[1, sample] := outR;
    }
  }

  /** Channel `c` of a block of audio, as a sequence of samples. */
  ghost function ChannelSamples(audio: array2<real>, c: int): (xs: seq<real>)
    requires 0 <= c < audio.Length0
    reads audio
    ensures |xs| == audio.Length1 && forall s :: 0 <= s < audio.Length1 ==> xs[s] == audio[c, s]
  {
    seq(audio.Length1, s reads audio requires 0 <= s < audio.Length1 => audio[c, s])
  }

  class DomeReverb {
    /** The biquad library every IIR filter of the engine uses. */
    const library: Iir.Response

    var sampleRate: real
    var domeAmount: real
    var stereoWidth: real
    var bassBoost: real
    var currentPreset: DomePreset
    var wetGain: real
    var dryGain: real

    /**
     * The members of each channel's path: the pre-EQ bands, the pre-delay
     * vector with its write cursor and length, the eight combs, the four
     * all-pass filters, the low-pass and the low shelf.
     */
    var left: Channel
    var right: Channel

    /** The per-sample state of the engine, as a value. */
    ghost function State(): Engine
      reads this
    {
      Engine(left, right, stereoWidth, wetGain, dryGain)
    }

    /** The engine's shape, the parameter ranges and the pre-delay cursors. */
    ghost predicate InRange()
      reads this
    {
      && Shaped(State())
      && 0.0 < sampleRate <= MaxSampleRate
      && 0.0 <= domeAmount <= 1.0
      && 0.0 <= stereoWidth <= 1.0
      && 1.0 <= bassBoost <= 2.0
      && CursorValid(left.preDelay.buffer, left.preDelay.writeIndex)
      && CursorValid(right.preDelay.buffer, right.preDelay.writeIndex)
    }

    /**
     * The object invariant, except the tie between the gains and the knob:
     * the ranges above and the coefficient ranges that keep every comb and
     * all-pass filter stable.
     */
    ghost predicate ValidExceptGains()
      reads this
    {
      InRange() && EngineStable(State())
    }

    /** The object invariant every public member keeps. */
    ghost predicate Valid()
      reads this
    {
      ValidExceptGains() && wetGain == WetGain(domeAmount) && dryGain == DryGain(domeAmount)
    }

    /** Every delay line has cells and a cursor inside them. */
    ghost predicate Prepared()
      reads this
    {
      Valid() && State().left.Allocated() && State().right.Allocated()
    }

    /** `process` may run: every delay line, pre-delay lengths included, is in range. */
    ghost predicate Ready()
      reads this
    {
      Valid() && State().Ready()
    }

    /**
     * `Ready()` without the coefficient ranges, which the sample loop never
     * changes (`BlockKeepsStable`).
     */
    ghost predicate Runnable()
      reads this
    {
      InRange() && wetGain == WetGain(domeAmount) && dryGain == DryGain(domeAmount) && State().Ready()
    }

    /** The default member initialisers; the filters exist but have no buffers yet. */
    constructor (library: Iir.Response)
      ensures Valid() && this.library == library
      ensures sampleRate == 44100.0 && currentPreset == Arena
      ensures domeAmount == 0.5 && stereoWidth == 0.8 && bassBoost == 1.5
      ensures wetGain == 0.3 && dryGain == 0.85
      ensures left == right && left.preDelay == PreDelayLine([], 0) && left.preDelaySamples == 0
      ensures forall k :: 0 <= k < NumCombs ==> left.combs[k] == Comb.CombState([], 0, 1, 0.7, 0.5, 0.0)
      ensures forall k :: 0 <= k < NumAllPasses ==> left.allPasses[k] == AllPass.AllPassState([], 0, 1, 0.5)
      ensures forall k :: 0 <= k < NumEqBands ==> left.preEq[k] == Iir.IirState(Iir.Unset, [])
      ensures left.lowPass == Iir.IirState(Iir.Unset, []) && left.lowShelf == Iir.IirState(Iir.Unset, [])
    {
      this.library := library;
      sampleRate := 44100.0;
      domeAmount := 0.5;
      stereoWidth := 0.8;
      bassBoost := 1.5;
      currentPreset := Arena;
      wetGain := 0.3;
      dryGain := 0.85;
      var unset := Iir.IirState(Iir.Unset, []);
      var channel := Channel(
        seq(NumEqBands, _ => unset),
        PreDelayLine([], 0),
        0,
        seq(NumCombs, _ => Comb.CombState([], 0, 1, 0.7, 0.5, 0.0)),
        seq(NumAllPasses, _ => AllPass.AllPassState([], 0, 1, 0.5)),
        unset,
        unset);
      left := channel;
      right := channel;
    }

    /**
     * `prepare(newSampleRate, samplesPerBlock)`: every comb, all-pass filter,
     * pre-delay line and IIR design of both channels prepared for the new
     * rate. `samplesPerBlock` is not used.
     */
    method Prepare(newSampleRate: real, samplesPerBlock: int)
      requires Valid() && 0.0 < newSampleRate <= MaxSampleRate
      modifies this
      ensures Valid() && sampleRate == newSampleRate
      ensures State() == PreparedEngine(old(State()), newSampleRate)
      ensures domeAmount == old(domeAmount) && bassBoost == old(bassBoost) && currentPreset == old(currentPreset)
      ensures MinSampleRate <= newSampleRate ==> Prepared()
    {
      sampleRate := newSampleRate;
      left := PrepareChannel(left, sampleRate, CombDelaysL, AllPassDelaysL);
      right := PrepareChannel(right, sampleRate, CombDelaysR, AllPassDelaysR);
    }

    /** `setDomeAmount`: the knob clamped to [0, 1], then every parameter derived from it. */
    method SetDomeAmount(amount: real)
      requires Valid()
      modifies this
      ensures Valid() && domeAmount == Clamp(amount, 0.0, 1.0)
      ensures State() == Retuned(old(State()), domeAmount, bassBoost, sampleRate)
      ensures sampleRate == old(sampleRate) && bassBoost == old(bassBoost) && currentPreset == old(currentPreset)
      ensures old(Prepared()) ==> Ready()
    {
      domeAmount := Clamp(amount, 0.0, 1.0);
      UpdateParameters();
    }

    /** `getDomeAmount`. */
    function GetDomeAmount(): (d: real)
      reads this
      requires Valid()
      ensures 0.0 <= d <= 1.0 && d == domeAmount
    {
      domeAmount
    }

    /** `setPreset`: the preset's knob, width and bass boost, then every parameter derived from them. */
    method SetPreset(preset: DomePreset)
      requires Valid()
      modifies this
      ensures Valid() && currentPreset == preset
      ensures domeAmount == Settings(preset).domeAmount
      ensures stereoWidth == Settings(preset).stereoWidth
      ensures bassBoost == Settings(preset).bassBoost
      ensures State() == Retuned(old(State()).(stereoWidth := stereoWidth), domeAmount, bassBoost, sampleRate)
      ensures sampleRate == old(sampleRate)
      ensures old(Prepared()) ==> Ready()
    {
      currentPreset := preset;
      var settings := Settings(preset);
      domeAmount := settings.domeAmount;
      stereoWidth := settings.stereoWidth;
      bassBoost := settings.bassBoost;
      UpdateParameters();
    }

    /** `getPreset`. */
    function GetPreset(): (p: DomePreset)
      reads this
      ensures p == currentPreset
    {
      currentPreset
    }

    /**
     * `updateParameters`: gains and both pre-delay lengths from the knob, the
     * knob's feedback and damping into all 16 combs, the tone filters redesigned.
     */
    method UpdateParameters()
      requires ValidExceptGains()
      modifies this
      ensures Valid()
      ensures State() == Retuned(old(State()), domeAmount, bassBoost, sampleRate)
      ensures domeAmount == old(domeAmount) && stereoWidth == old(stereoWidth) && bassBoost == old(bassBoost)
      ensures sampleRate == old(sampleRate) && currentPreset == old(currentPreset)
      ensures old(State().left.Allocated() && State().right.Allocated()) ==> Ready()
    {
      wetGain := WetGain(domeAmount);
      dryGain := DryGain(domeAmount);
      left := RetuneChannel(left, domeAmount, bassBoost, sampleRate, PreDelayMsL);
      right := RetuneChannel(right, domeAmount, bassBoost, sampleRate, PreDelayMsR);
    }

    /** The body of the sample loop of `process`: one stereo sample through the engine. */
    method ProcessFrame(inputL: real, inputR: real) returns (outL: real, outR: real)
      requires Runnable()
      modifies this
      ensures Runnable()
      ensures Stepped(library, old(State()), inputL, inputR, State(), outL, outR)
      ensures domeAmount == old(domeAmount) && bassBoost == old(bassBoost)
      ensures sampleRate == old(sampleRate) && currentPreset == old(currentPreset)
    {
      var combOutL, combOutR;
      left, combOutL := RunFront(library, left, inputL);
      right, combOutR := RunFront(library, right, inputR);

      var fed := CrossFeed(Stereo(combOutL, combOutR));

      var filteredL, filteredR;
      left, filteredL := RunBack(library, left, fed.left);
      right, filteredR := RunBack(library, right, fed.right);

      var wide := Width(Stereo(filteredL, filteredR), stereoWidth);
      outL := Mix(inputL, wide.left, dryGain, wetGain);
      outR := Mix(inputR, wide.right, dryGain, wetGain);
    }

    /**
     * `process(buffer)`: an empty channel list is left alone; otherwise every
     * sample of channel 0 (and of channel 1, or a copy of channel 0 for mono
     * input) runs through the engine, the mix replaces channel 0 and, when it
     * exists, channel 1. Further channels are not touched.
     */
    method Process(audio: array2<real>)
      requires Ready()
      modifies this, audio
      ensures Ready()
      ensures domeAmount == old(domeAmount) && bassBoost == old(bassBoost)
      ensures sampleRate == old(sampleRate) && currentPreset == old(currentPreset)
      ensures audio.Length0 == 0 ==> State() == old(State())
      ensures 1 <= audio.Length0 ==>
                var block := RunBlock(library, old(State()), old(ChannelSamples(audio, 0)),
                                      old(ChannelSamples(audio, if 1 < audio.Length0 then 1 else 0)));
                && State() == block.last
                && ChannelSamples(audio, 0) == block.outsL
                && (1 < audio.Length0 ==> ChannelSamples(audio, 1) == block.outsR)
      ensures forall c, s :: 2 <= c < audio.Length0 && 0 <= s < audio.Length1 ==> audio[c, s] == old(audio[c, s])
    {
      if audio.Length0 == 0 {
        return;
      }
      ghost var insL := ChannelSamples(audio, 0);
      ghost var insR := ChannelSamples(audio, if 1 < audio.Length0 then 1 else 0);
      ghost var states, outsL, outsR := RunFrames(audio);
      assert ChannelSamples(audio, 0) == outsL;
      assert 1 < audio.Length0 ==> ChannelSamples(audio, 1) == outsR;
      BlockChain(library, old(State()), insL, insR, states, outsL, outsR);
      BlockKeepsStable(library, old(State()), insL, insR);
    }

    /**
     * The sample loop of `process`, described sample by sample: the engine
     * states it passes through and the output samples it writes.
     */
    method RunFrames(audio: array2<real>) returns (ghost states: seq<Engine>, ghost outsL: seq<real>, ghost outsR: seq<real>)
      requires Runnable() && 1 <= audio.Length0
      modifies this, audio
      ensures Runnable()
      ensures domeAmount == old(domeAmount) && bassBoost == old(bassBoost)
      ensures sampleRate == old(sampleRate) && currentPreset == old(currentPreset)
      ensures |states| == audio.Length1 + 1 && states[0] == old(State()) && states[audio.Length1] == State()
      ensures |outsL| == audio.Length1 && |outsR| == audio.Length1
      ensures forall k :: 0 <= k < audio.Length1 ==>
                Stepped(library, states[k], old(audio[0, k]), old(audio[if 1 < audio.Length0 then 1 else 0, k]),
                        states[k + 1], outsL[k], outsR[k])
      ensures forall c, s :: 0 <= c < audio.Length0 && 0 <= s < audio.Length1 ==>
                audio[c, s] == if c == 0 then outsL[s] else if c == 1 then outsR[s] else old(audio[c, s])
    {
      var numChannels := audio.Length0;
      var numSamples := audio.Length1;
      var r := if 1 < numChannels then 1 else 0;
      states, outsL, outsR := [State()], [], [];
      for sample := 0 to numSamples
        invariant Runnable()
        invariant domeAmount == old(domeAmount) && bassBoost == old(bassBoost)
        invariant sampleRate == old(sampleRate) && currentPreset == old(currentPreset)
        invariant |states| == sample + 1 && states[0] == old(State()) && states[sample] == State()
        invariant |outsL| == sample && |outsR| == sample
        invariant forall k :: 0 <= k < sample ==>
                    Stepped(library, states[k], old(audio[0, k]), old(audio[r, k]), states[k + 1], outsL[k], outsR[k])
        invariant forall c, s :: 0 <= c < numChannels && 0 <= s < numSamples ==>
                    audio[c, s] == if s < sample && c == 0 then outsL[s]
                                   else if s < sample && c == 1 then outsR[s]
                                   else old(audio[c, s])
      {
        var inputL := audio[0, sample];
        var inputR := if 1 < numChannels then audio[1, sample] else inputL;
        var outL, outR := ProcessFrame(inputL, inputR);
        states := states + [State()];
        outsL, outsR := outsL + [outL], outsR + [outR];
        WriteOutput(audio, sample, outL, outR);
      }
    }

    /**
     * `clear`: comb and all-pass buffers, comb damping memories and both
     * pre-delay vectors zeroed, the four tone filters reset. The pre-EQ bands,
     * the cursors and every parameter are left as they are.
     */
    method Clear()
      requires Valid()
      modifies this
      ensures Valid()
      ensures State() == ClearedEngine(old(State()))
      ensures domeAmount == old(domeAmount) && bassBoost == old(bassBoost)
      ensures sampleRate == old(sampleRate) && currentPreset == old(currentPreset)
    {
      left := ClearChannel(left);
      right := ClearChannel(right);
    }
  }
}
