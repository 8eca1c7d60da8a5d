/**
 * The damped feedback comb filter (`CombFilter`): a ring buffer, a write
 * cursor, a delay length, a feedback and a damping coefficient, and the
 * one-pole low-pass memory `filterStore` that smooths the feedback path.
 */
module Comb {
  import opened DelayLine

  /** Upper bound `setFeedback` keeps the feedback below. */
  const MaxFeedback: real := 0.99

  /** The value of a comb filter's per-sample state. */
  datatype CombState = CombState(
    buffer: seq<real>,
    writeIndex: int,
    delaySamples: int,
    feedback: real,
    damping: real,
    filterStore: real)
  {
    /** `process` may run: the buffer has a cell, cursor and delay are in range. */
    predicate Ready()
    {
      1 <= |buffer| && 0 <= writeIndex < |buffer| && 1 <= delaySamples <= |buffer|
    }

    /** No energy is stored: every cell and the damping memory are zero. */
    predicate Quiet()
    {
      Silent(buffer) && filterStore == 0.0
    }
  }

  /** The state after one sample and the sample produced. */
  datatype CombOutput = CombOutput(next: CombState, out: real)

  /** The state after a run and the samples produced. */
  datatype CombRun = CombRun(last: CombState, outs: seq<real>)

  /**
   * One call of `process(input)`: read the cell `delaySamples` behind the
   * cursor, smooth it into `filterStore`, write the input plus the damped
   * feedback at the cursor, advance the cursor and return the value read.
   */
  function Step(s: CombState, input: real): (r: CombOutput)
    requires s.Ready()
    ensures r.next.Ready()
    ensures r.out == s.buffer[(s.writeIndex - s.delaySamples) % |s.buffer|]
    ensures r.next.filterStore == r.out * (1.0 - s.damping) + s.filterStore * s.damping
    ensures |r.next.buffer| == |s.buffer|
    ensures r.next.buffer[s.writeIndex] == input + r.next.filterStore * s.feedback
    ensures forall i :: 0 <= i < |s.buffer| && i != s.writeIndex ==> r.next.buffer[i] == s.buffer[i]
    ensures r.next.writeIndex == (s.writeIndex + 1) % |s.buffer|
    ensures r.next.delaySamples == s.delaySamples
    ensures r.next.feedback == s.feedback && r.next.damping == s.damping
  {
    var readIndex := ReadIndex(s.writeIndex, s.delaySamples, |s.buffer|);
    var delayed := s.buffer[readIndex];
    var store := delayed * (1.0 - s.damping) + s.filterStore * s.damping;
    CombOutput(
      s.(buffer := s.buffer[s.writeIndex := input + store * s.feedback],
         writeIndex := Advance(s.writeIndex, |s.buffer|),
         filterStore := store),
      delayed)
  }

  /** Successive calls of `process` on the samples `xs`. */
  function Run(s: CombState, xs: seq<real>): (r: CombRun)
    requires s.Ready()
    ensures r.last.Ready() && |r.outs| == |xs|
    decreases |xs|
  {
    if xs == [] then CombRun(s, [])
    else
      var first := Step(s, xs[0]);
      var rest := Run(first.next, xs[1..]);
      CombRun(rest.last, [first.out] + rest.outs)
  }

  /** The state `clear` leaves: silent buffer and memory, nothing else changed. */
  function Cleared(s: CombState): (c: CombState)
    ensures c.Quiet()
    ensures |c.buffer| == |s.buffer| && c.writeIndex == s.writeIndex && c.delaySamples == s.delaySamples
    ensures c.feedback == s.feedback && c.damping == s.damping
  {
    s.(buffer := Zeros(|s.buffer|), filterStore := 0.0)
  }

  /**
   * A quiet comb filter fed silence stays quiet and outputs silence, however
   * long the run: `clear` removes the whole reverberation tail.
   */
  lemma {:induction false} SilenceAfterClear(s: CombState, xs: seq<real>)
    requires s.Ready() && s.Quiet()
    requires forall i :: 0 <= i < |xs| ==> xs[i] == 0.0
    ensures Run(s, xs).last.Quiet()
    ensures forall k :: 0 <= k < |xs| ==> Run(s, xs).outs[k] == 0.0
    decreases |xs|
  {
    if xs != [] {
      var first := Step(s, xs[0]);
      assert first.out == 0.0;
      assert first.next.Quiet();
      SilenceAfterClear(first.next, xs[1..]);
    }
  }

  class CombFilter {
    var buffer: seq<real>
    var sampleRate: real
    var writeIndex: int
    var delaySamples: int
    var feedback: real
    var damping: real
    var filterStore: real

    /** The object invariant every member keeps. */
    ghost predicate Valid()
      reads this
    {
      && IsSize(|buffer|)
      && 0.0 < sampleRate
      && 0 <= writeIndex
      && (|buffer| == 0 ==> writeIndex == 0)
      && (0 < |buffer| ==> writeIndex < |buffer|)
      && 1 <= delaySamples
      && 0.0 <= feedback <= MaxFeedback
      && 0.0 <= damping <= 1.0
    }

    /** The per-sample state as a value. */
    ghost function State(): CombState
      reads this
    {
      CombState(buffer, writeIndex, delaySamples, feedback, damping, filterStore)
    }

    /** The default member initialisers. */
    constructor ()
      ensures Valid() && sampleRate == 44100.0
      ensures State() == CombState([], 0, 1, 0.7, 0.5, 0.0)
    {
      buffer := [];
      sampleRate := 44100.0;
      writeIndex := 0;
      delaySamples := 1;
      feedback := 0.7;
      damping := 0.5;
      filterStore := 0.0;
    }

    /**
     * `prepare`: the buffer is resized to `maxDelayMs` worth of samples (cells
     * already there are kept) and the cursor returns to 0.
     */
    method Prepare(newSampleRate: real, maxDelayMs: real := 200.0)
      requires Valid()
      requires 0.0 < newSampleRate && 0.0 <= maxDelayMs
      requires IsInt(MsToSamples(maxDelayMs, newSampleRate))
      modifies this
      ensures Valid() && sampleRate == newSampleRate
      ensures State() == old(State()).(
        buffer := Resized(old(buffer), MsToSamples(maxDelayMs, newSampleRate)),
        writeIndex := 0)
    {
      sampleRate := newSampleRate;
      var maxDelaySamples := MsToSamples(maxDelayMs, sampleRate);
      buffer := Resized(buffer, maxDelaySamples);
      writeIndex := 0;
    }

    /** `setDelayTime`: the delay length in samples, clamped to the buffer. */
    method SetDelayTime(delayMs: real)
      requires Valid()
      requires IsInt(MsToSamples(delayMs, sampleRate))
      modifies this
      ensures Valid() && sampleRate == old(sampleRate)
      ensures State() == old(State()).(
        delaySamples := ClampDelay(MsToSamples(delayMs, sampleRate), |buffer|))
      ensures 2 <= |buffer| ==> 1 <= delaySamples <= |buffer| - 1
    {
      delaySamples := ClampDelay(MsToSamples(delayMs, sampleRate), |buffer|);
    }

    /** `setFeedback`: the feedback clamped to [0, 0.99]. */
    method SetFeedback(fb: real)
      requires Valid()
      modifies this
      ensures Valid() && sampleRate == old(sampleRate)
      ensures State() == old(State()).(feedback := Clamp(fb, 0.0, MaxFeedback))
    {
      feedback := Clamp(fb, 0.0, MaxFeedback);
    }

    /** `setDamping`: the damping clamped to [0, 1]. */
    method SetDamping(damp: real)
      requires Valid()
      modifies this
      ensures Valid() && sampleRate == old(sampleRate)
      ensures State() == old(State()).(damping := Clamp(damp, 0.0, 1.0))
    {
      damping := Clamp(damp, 0.0, 1.0);
    }

    /** `process`: one sample through the comb, as `Step` describes it. */
    method Process(input: real) returns (output: real)
      requires Valid() && State().Ready()
      modifies this
      ensures Valid() && sampleRate == old(sampleRate)
      ensures CombOutput(State(), output) == Step(old(State()), input)
    {
      var readIndex := writeIndex - delaySamples;
      if readIndex < 0 {
        readIndex := readIndex + |buffer|;
      }
      var delayed := buffer[readIndex];
      filterStore := delayed * (1.0 - damping) + filterStore * damping;
      var written := input + filterStore * feedback;
      buffer := buffer[writeIndex := written];
      writeIndex := writeIndex + 1;
      if writeIndex >= |buffer| {
        writeIndex := 0;
      }
      output := delayed;
      ghost var expected := Step(old(State()), input);
      assert expected.next.buffer[old(writeIndex)] == written;
    }

    /** `clear`: the buffer and the damping memory are zeroed. */
    method Clear()
      requires Valid()
      modifies this
      ensures Valid() && sampleRate == old(sampleRate)
      ensures State() == Cleared(old(State()))
    {
      buffer := Zeros(|buffer|);
      filterStore := 0.0;
    }
  }
}
