/**
 * The per-sample signal path of the dome reverb, as values: each channel
 * runs pre-EQ, pre-delay and its comb bank; the two comb sums are cross-fed;
 * each channel then runs its all-pass cascade, low-pass and low shelf; the
 * result is narrowed or widened and mixed with the dry input.
 */
module DomePipeline {
  import opened DelayLine
  import Comb
  import AllPass
  import Iir

  /** Scale of the summed comb bank (eight combs, so their mean). */
  const CombScale: real := 0.125

  /** Share of one channel's comb sum that leaks into the other. */
  const CrossFeedAmount: real := 0.15

  /** A left/right pair of samples. */
  datatype Stereo = Stereo(left: real, right: real)

  /** Sum of a block of samples, accumulated from the front. */
  function Sum(xs: seq<real>): real
    decreases |xs|
  {
    if xs == [] then 0.0 else Sum(xs[..|xs| - 1]) + xs[|xs| - 1]
  }

  /** The pre-delay line of one channel (`processPreDelay`'s buffer and cursor). */
  datatype PreDelayLine = PreDelayLine(buffer: seq<real>, writeIndex: int)

  /** The pre-delay line can run with a delay of `delay` samples. */
  predicate PreDelayReady(line: PreDelayLine, delay: int)
  {
    1 <= |line.buffer| && 0 <= line.writeIndex < |line.buffer| && 0 <= delay < |line.buffer|
  }

  datatype PreDelayOutput = PreDelayOutput(next: PreDelayLine, out: real)

  /**
   * `processPreDelay`: a zero delay passes the input through and leaves the
   * line alone; otherwise the cell `delay` behind the cursor is returned,
   * the input is stored at the cursor and the cursor advances.
   */
  function PreDelayStep(line: PreDelayLine, delay: int, input: real): (r: PreDelayOutput)
    requires 0 <= delay <= |line.buffer|
    requires delay != 0 ==> 0 <= line.writeIndex < |line.buffer|
    ensures delay == 0 ==> r == PreDelayOutput(line, input)
    ensures delay != 0 ==> r.out == line.buffer[(line.writeIndex - delay) % |line.buffer|]
    ensures delay != 0 ==> r.next.buffer == line.buffer[line.writeIndex := input]
    ensures delay != 0 ==> r.next.writeIndex == (line.writeIndex + 1) % |line.buffer|
  {
    if delay == 0 then PreDelayOutput(line, input)
    else
      var readIndex := ReadIndex(line.writeIndex, delay, |line.buffer|);
      PreDelayOutput(
        PreDelayLine(line.buffer[line.writeIndex := input], Advance(line.writeIndex, |line.buffer|)),
        line.buffer[readIndex])
  }

  /** The result of a serial or parallel stage: the filters' new states and the stage output. */
  datatype StageOutput<S> = StageOutput(next: seq<S>, out: real)

  /** The pre-EQ bands in series: each band filters the previous band's output. */
  function EqCascade(respond: Iir.Response, bands: seq<Iir.IirState>, x: real): (r: StageOutput<Iir.IirState>)
    ensures |r.next| == |bands|
    ensures forall k :: 0 <= k < |bands| ==> r.next[k].design == bands[k].design
    ensures forall k :: 0 <= k < |bands| ==> |r.next[k].history| == |bands[k].history| + 1
    ensures bands == [] ==> r.out == x
    decreases |bands|
  {
    if bands == [] then StageOutput([], x)
    else
      var front := EqCascade(respond, bands[..|bands| - 1], x);
      var last := Iir.Step(respond, bands[|bands| - 1], front.out);
      StageOutput(front.next + [last.next], last.out)
  }

  /** The pre-EQ cascade described sample by sample, as `AllPassChain` describes an all-pass cascade. */
  lemma {:induction false} EqChain(respond: Iir.Response, bands: seq<Iir.IirState>, ins: seq<real>,
                                   outs: seq<Iir.IirState>, x: real)
    requires |ins| == |bands| + 1 && |outs| == |bands| && ins[0] == x
    requires forall k :: 0 <= k < |bands| ==> Iir.IirOutput(outs[k], ins[k + 1]) == Iir.Step(respond, bands[k], ins[k])
    ensures EqCascade(respond, bands, x) == StageOutput(outs, ins[|bands|])
    decreases |bands|
  {
    if bands != [] {
      var n := |bands| - 1;
      EqChain(respond, bands[..n], ins[..n + 1], outs[..n], x);
      assert outs == outs[..n] + [outs[n]];
    }
  }

  /** All combs are ready to run. */
  predicate CombsReady(combs: seq<Comb.CombState>)
  {
    forall k :: 0 <= k < |combs| ==> combs[k].Ready()
  }

  /** What each comb of a bank outputs when all of them are fed `x`. */
  function CombOutputs(combs: seq<Comb.CombState>, x: real): (ys: seq<real>)
    requires CombsReady(combs)
    ensures |ys| == |combs|
    ensures forall k :: 0 <= k < |combs| ==> ys[k] == Comb.Step(combs[k], x).out
  {
    seq(|combs|, k requires 0 <= k < |combs| => Comb.Step(combs[k], x).out)
  }

  /**
   * The comb bank in parallel: every comb is fed the same sample and steps
   * on its own; the stage output is the sum of the comb outputs.
   */
  function CombBank(combs: seq<Comb.CombState>, x: real): (r: StageOutput<Comb.CombState>)
    requires CombsReady(combs)
    ensures |r.next| == |combs| && CombsReady(r.next)
    ensures forall k :: 0 <= k < |combs| ==> r.next[k] == Comb.Step(combs[k], x).next
    ensures r.out == Sum(CombOutputs(combs, x))
  {
    StageOutput(
      seq(|combs|, k requires 0 <= k < |combs| => Comb.Step(combs[k], x).next),
      Sum(CombOutputs(combs, x)))
  }

  /** All all-pass filters are ready to run. */
  predicate AllPassesReady(filters: seq<AllPass.AllPassState>)
  {
    forall k :: 0 <= k < |filters| ==> filters[k].Ready()
  }

  /** The all-pass filters in series: each filters the previous one's output. */
  function AllPassCascade(filters: seq<AllPass.AllPassState>, x: real): (r: StageOutput<AllPass.AllPassState>)
    requires AllPassesReady(filters)
    ensures |r.next| == |filters| && AllPassesReady(r.next)
    ensures forall k :: 0 <= k < |filters| ==> SameAllPassTuning(filters[k], r.next[k])
    ensures filters == [] ==> r.out == x
    decreases |filters|
  {
    if filters == [] then StageOutput([], x)
    else
      var front := AllPassCascade(filters[..|filters| - 1], x);
      var last := AllPass.Step(filters[|filters| - 1], front.out);
      StageOutput(front.next + [last.next], last.out)
  }

  /**
   * A cascade described sample by sample: filter `k` is fed `ins[k]`, becomes
   * `outs[k]` and passes `ins[k + 1]` on. Its end is the cascade's output.
   */
  lemma {:induction false} AllPassChain(filters: seq<AllPass.AllPassState>, ins: seq<real>,
                                        outs: seq<AllPass.AllPassState>, x: real)
    requires AllPassesReady(filters) && |ins| == |filters| + 1 && |outs| == |filters| && ins[0] == x
    requires forall k :: 0 <= k < |filters| ==>
               AllPass.AllPassOutput(outs[k], ins[k + 1]) == AllPass.Step(filters[k], ins[k])
    ensures AllPassCascade(filters, x) == StageOutput(outs, ins[|filters|])
    decreases |filters|
  {
    if filters != [] {
      var n := |filters| - 1;
      AllPassChain(filters[..n], ins[..n + 1], outs[..n], x);
      assert outs == outs[..n] + [outs[n]];
    }
  }

  /** From `(L, R)` to `(L + 0.15 R, R + 0.15 L)`. */
  function CrossFeed(s: Stereo): (r: Stereo)
    ensures r.left + r.right == (1.0 + CrossFeedAmount) * (s.left + s.right)
    ensures r.left - r.right == (1.0 - CrossFeedAmount) * (s.left - s.right)
  {
    Stereo(s.left + s.right * CrossFeedAmount, s.right + s.left * CrossFeedAmount)
  }

  /**
   * Mid/side width: the mid `(L+R)/2` is kept, the side `(L-R)/2` is scaled
   * by `width`. Width 1 leaves the pair alone, width 0 makes it mono.
   */
  function Width(s: Stereo, width: real): (r: Stereo)
    ensures r.left + r.right == s.left + s.right
    ensures r.left - r.right == width * (s.left - s.right)
    ensures width == 1.0 ==> r == s
    ensures width == 0.0 ==> r.left == r.right == (s.left + s.right) / 2.0
  {
    var mid := (s.left + s.right) * 0.5;
    var side := (s.left - s.right) * 0.5 * width;
    Stereo(mid + side, mid - side)
  }

  /** The wet/dry mix of one output sample. */
  function Mix(input: real, processed: real, dryGain: real, wetGain: real): real
  {
    input * dryGain + processed * wetGain
  }

  /** Everything one channel's path keeps from one sample to the next. */
  datatype Channel = Channel(
    preEq: seq<Iir.IirState>,
    preDelay: PreDelayLine,
    preDelaySamples: int,
    combs: seq<Comb.CombState>,
    allPasses: seq<AllPass.AllPassState>,
    lowPass: Iir.IirState,
    lowShelf: Iir.IirState)
  {
    /** Every delay line of the channel has cells and a cursor inside them. */
    predicate Allocated()
    {
      && 1 <= |preDelay.buffer| && 0 <= preDelay.writeIndex < |preDelay.buffer|
      && CombsReady(combs) && AllPassesReady(allPasses)
    }

    /** Every delay line of the channel can run. */
    predicate Ready()
    {
      PreDelayReady(preDelay, preDelaySamples) && CombsReady(combs) && AllPassesReady(allPasses)
    }
  }

  /** Two comb states with the same buffer length, delay, feedback and damping. */
  predicate SameCombTuning(a: Comb.CombState, b: Comb.CombState)
  {
    |b.buffer| == |a.buffer| && b.delaySamples == a.delaySamples && b.feedback == a.feedback && b.damping == a.damping
  }

  /** Two all-pass states with the same buffer length, delay and coefficient. */
  predicate SameAllPassTuning(a: AllPass.AllPassState, b: AllPass.AllPassState)
  {
    |b.buffer| == |a.buffer| && b.delaySamples == a.delaySamples && b.coefficient == a.coefficient
  }

  /**
   * `b` has the filters of `a` tuned as in `a`: the same designs, delays,
   * coefficients and buffer lengths; only signal (buffer contents, cursors,
   * memories) may differ.
   */
  predicate SameTuning(a: Channel, b: Channel)
  {
    && |b.preEq| == |a.preEq| && (forall k :: 0 <= k < |a.preEq| ==> b.preEq[k].design == a.preEq[k].design)
    && |b.preDelay.buffer| == |a.preDelay.buffer| && b.preDelaySamples == a.preDelaySamples
    && |b.combs| == |a.combs| && (forall k :: 0 <= k < |a.combs| ==> SameCombTuning(a.combs[k], b.combs[k]))
    && |b.allPasses| == |a.allPasses|
    && (forall k :: 0 <= k < |a.allPasses| ==> SameAllPassTuning(a.allPasses[k], b.allPasses[k]))
    && b.lowPass.design == a.lowPass.design && b.lowShelf.design == a.lowShelf.design
  }

  /** Keeping the tuning twice keeps it. */
  lemma SameTuningChains(a: Channel, b: Channel, c: Channel)
    requires SameTuning(a, b) && SameTuning(b, c)
    ensures SameTuning(a, c)
  {
  }

  datatype ChannelOutput = ChannelOutput(next: Channel, out: real)

  /** The channel path up to the comb sum: pre-EQ, pre-delay, comb bank scaled by 1/8. */
  function Front(respond: Iir.Response, ch: Channel, x: real): (r: ChannelOutput)
    requires ch.Ready()
    ensures r.next.Ready()
    ensures r.next.allPasses == ch.allPasses && r.next.lowPass == ch.lowPass && r.next.lowShelf == ch.lowShelf
    ensures r.next.preDelaySamples == ch.preDelaySamples
    ensures |r.next.preEq| == |ch.preEq| && |r.next.combs| == |ch.combs|
    ensures SameTuning(ch, r.next)
  {
    var eq := EqCascade(respond, ch.preEq, x);
    var pre := PreDelayStep(ch.preDelay, ch.preDelaySamples, eq.out);
    var bank := CombBank(ch.combs, pre.out);
    ChannelOutput(ch.(preEq := eq.next, preDelay := pre.next, combs := bank.next), bank.out * CombScale)
  }

  /** The sum of samples that are all equal to `v` is their number times `v`. */
  lemma {:induction false} SumOfEqual(xs: seq<real>, v: real)
    requires forall k :: 0 <= k < |xs| ==> xs[k] == v
    ensures Sum(xs) == |xs| as real * v
    decreases |xs|
  {
    if xs != [] {
      SumOfEqual(xs[..|xs| - 1], v);
    }
  }

  /**
   * The comb stage of a channel of eight combs is their mean: an eighth of
   * the sum of their outputs, so `v` whenever every comb outputs `v`.
   */
  lemma CombStageIsMean(respond: Iir.Response, ch: Channel, x: real, v: real)
    requires ch.Ready() && |ch.combs| == 8
    ensures var pre := PreDelayStep(ch.preDelay, ch.preDelaySamples, EqCascade(respond, ch.preEq, x).out).out;
            && Front(respond, ch, x).out == CombScale * Sum(CombOutputs(ch.combs, pre))
            && ((forall k :: 0 <= k < 8 ==> Comb.Step(ch.combs[k], pre).out == v) ==> Front(respond, ch, x).out == v)
  {
    var pre := PreDelayStep(ch.preDelay, ch.preDelaySamples, EqCascade(respond, ch.preEq, x).out).out;
    if forall k :: 0 <= k < 8 ==> Comb.Step(ch.combs[k], pre).out == v {
      SumOfEqual(CombOutputs(ch.combs, pre), v);
    }
  }

  /** The channel path after the cross-feed: all-pass cascade, low-pass, low shelf. */
  function Back(respond: Iir.Response, ch: Channel, x: real): (r: ChannelOutput)
    requires ch.Ready()
    ensures r.next.Ready()
    ensures r.next.preEq == ch.preEq && r.next.preDelay == ch.preDelay && r.next.combs == ch.combs
    ensures r.next.preDelaySamples == ch.preDelaySamples
    ensures |r.next.allPasses| == |ch.allPasses|
    ensures SameTuning(ch, r.next)
  {
    var diffused := AllPassCascade(ch.allPasses, x);
    var low := Iir.Step(respond, ch.lowPass, diffused.out);
    var shelf := Iir.Step(respond, ch.lowShelf, low.out);
    ChannelOutput(ch.(allPasses := diffused.next, lowPass := low.next, lowShelf := shelf.next), shelf.out)
  }

  /** The engine's per-sample state: both channel paths and the mixing parameters. */
  datatype Engine = Engine(left: Channel, right: Channel, stereoWidth: real, wetGain: real, dryGain: real)
  {
    predicate Ready()
    {
      left.Ready() && right.Ready()
    }
  }

  /** `b` has the filters and mixing parameters of `a`, tuned as in `a`. */
  predicate SameEngineTuning(a: Engine, b: Engine)
  {
    && SameTuning(a.left, b.left) && SameTuning(a.right, b.right)
    && b.stereoWidth == a.stereoWidth && b.wetGain == a.wetGain && b.dryGain == a.dryGain
  }

  /** The engine after one stereo sample, and the wet signal it produced. */
  datatype WetOutput = WetOutput(next: Engine, wet: Stereo)

  /** One stereo sample through both channel paths, the cross-feed and the width stage. */
  function WetStep(respond: Iir.Response, e: Engine, inL: real, inR: real): (w: WetOutput)
    requires e.Ready()
    ensures w.next.Ready()
    ensures w.next.stereoWidth == e.stereoWidth && w.next.wetGain == e.wetGain && w.next.dryGain == e.dryGain
    ensures SameEngineTuning(e, w.next)
  {
    var frontL := Front(respond, e.left, inL);
    var frontR := Front(respond, e.right, inR);
    var fed := CrossFeed(Stereo(frontL.out, frontR.out));
    var backL := Back(respond, frontL.next, fed.left);
    var backR := Back(respond, frontR.next, fed.right);
    WetOutput(e.(left := backL.next, right := backR.next), Width(Stereo(backL.out, backR.out), e.stereoWidth))
  }

  /** The engine after one stereo sample, the wet signal and the two output samples. */
  datatype Frame = Frame(next: Engine, wet: Stereo, outL: real, outR: real)

  /** One stereo sample through the whole engine: the wet signal mixed with the dry input. */
  function EngineStep(respond: Iir.Response, e: Engine, inL: real, inR: real): (f: Frame)
    requires e.Ready()
    ensures f.next.Ready()
    ensures f.next.stereoWidth == e.stereoWidth && f.next.wetGain == e.wetGain && f.next.dryGain == e.dryGain
    ensures SameEngineTuning(e, f.next)
    ensures f.outL == Mix(inL, f.wet.left, e.dryGain, e.wetGain)
    ensures f.outR == Mix(inR, f.wet.right, e.dryGain, e.wetGain)
  {
    var w := WetStep(respond, e, inL, inR);
    Frame(w.next, w.wet, Mix(inL, w.wet.left, e.dryGain, e.wetGain), Mix(inR, w.wet.right, e.dryGain, e.wetGain))
  }

  /** With the width at zero the wet signal is mono: both channels carry the same sample. */
  lemma ZeroWidthIsMono(respond: Iir.Response, e: Engine, inL: real, inR: real)
    requires e.Ready() && e.stereoWidth == 0.0
    ensures EngineStep(respond, e, inL, inR).wet.left == EngineStep(respond, e, inL, inR).wet.right
  {
  }

  /** The engine after a block, and the output samples of both channels. */
  datatype Block = Block(last: Engine, outsL: seq<real>, outsR: seq<real>)

  /** A block of stereo samples through the engine, one sample after the other. */
  function RunBlock(respond: Iir.Response, e: Engine, insL: seq<real>, insR: seq<real>): (b: Block)
    requires e.Ready() && |insL| == |insR|
    ensures b.last.Ready() && |b.outsL| == |insL| && |b.outsR| == |insR|
    ensures b.last.stereoWidth == e.stereoWidth && b.last.wetGain == e.wetGain && b.last.dryGain == e.dryGain
    ensures SameEngineTuning(e, b.last)
    decreases |insL|
  {
    if insL == [] then Block(e, [], [])
    else
      var n := |insL| - 1;
      var before := RunBlock(respond, e, insL[..n], insR[..n]);
      var step := EngineStep(respond, before.last, insL[n], insR[n]);
      SameTuningChains(e.left, before.last.left, step.next.left);
      SameTuningChains(e.right, before.last.right, step.next.right);
      Block(step.next, before.outsL + [step.outL], before.outsR + [step.outR])
  }

  /** One engine step takes `e` to `next` while producing the output pair `(outL, outR)`. */
  predicate Stepped(respond: Iir.Response, e: Engine, inL: real, inR: real, next: Engine, outL: real, outR: real)
  {
    e.Ready() && EngineStep(respond, e, inL, inR).next == next
    && EngineStep(respond, e, inL, inR).outL == outL && EngineStep(respond, e, inL, inR).outR == outR
  }

  /**
   * A block described sample by sample: if each state steps to the next one
   * producing the given outputs, the block ends in the last state with those outputs.
   */
  lemma {:induction false} BlockChain(respond: Iir.Response, e: Engine, insL: seq<real>, insR: seq<real>,
                                      states: seq<Engine>, outsL: seq<real>, outsR: seq<real>)
    requires e.Ready() && |insL| == |insR| && |states| == |insL| + 1 && states[0] == e
    requires |outsL| == |insL| && |outsR| == |insL|
    requires forall k :: 0 <= k < |insL| ==>
               Stepped(respond, states[k], insL[k], insR[k], states[k + 1], outsL[k], outsR[k])
    ensures RunBlock(respond, e, insL, insR) == Block(states[|insL|], outsL, outsR)
    decreases |insL|
  {
    if insL != [] {
      var n := |insL| - 1;
      assert outsL == outsL[..n] + [outsL[n]];
      assert outsR == outsR[..n] + [outsR[n]];
      BlockChain(respond, e, insL[..n], insR[..n], states[..n + 1], outsL[..n], outsR[..n]);
      assert Stepped(respond, states[n], insL[n], insR[n], states[n + 1], outsL[n], outsR[n]);
    }
  }

  /**
   * With the knob at zero the wet gain is 0 and the dry gain 1: every output
   * sample equals its input sample, whatever the reverb holds.
   */
  lemma {:induction false} KnobAtZeroPassesThrough(respond: Iir.Response, e: Engine, insL: seq<real>, insR: seq<real>)
    requires e.Ready() && |insL| == |insR|
    requires e.wetGain == 0.0 && e.dryGain == 1.0
    ensures RunBlock(respond, e, insL, insR).outsL == insL
    ensures RunBlock(respond, e, insL, insR).outsR == insR
    decreases |insL|
  {
    if insL != [] {
      var n := |insL| - 1;
      assert insL == insL[..n] + [insL[n]];
      assert insR == insR[..n] + [insR[n]];
      var before := RunBlock(respond, e, insL[..n], insR[..n]);
      KnobAtZeroPassesThrough(respond, e, insL[..n], insR[..n]);
      var step := EngineStep(respond, before.last, insL[n], insR[n]);
      assert step.outL == insL[n] && step.outR == insR[n];
    }
  }
}
