/**
 * The diffusing all-pass filter (`AllPassFilter`): a ring buffer, a write
 * cursor, a delay length and one coefficient. One sample reads the cell
 * `delaySamples` behind the cursor, outputs `-g*input + delayed` and writes
 * `input + g*delayed` at the cursor.
 */
module AllPass {
  import opened DelayLine

  /** Upper bound `setCoefficient` keeps the coefficient below. */
  const MaxCoefficient: real := 0.9

  /** The value of an all-pass filter's per-sample state. */
  datatype AllPassState = AllPassState(
    buffer: seq<real>,
    writeIndex: int,
    delaySamples: int,
    coefficient: real)
  {
    /** `process` may run: the buffer has a cell, cursor and delay are in range. */
    predicate Ready()
    {
      1 <= |buffer| && 0 <= writeIndex < |buffer| && 1 <= delaySamples <= |buffer|
    }
  }

  /** The state after one sample and the sample produced. */
  datatype AllPassOutput = AllPassOutput(next: AllPassState, out: real)

  /** The state after a run and the samples produced. */
  datatype AllPassRun = AllPassRun(last: AllPassState, outs: seq<real>)

  /** One call of `process(input)`. */
  function Step(s: AllPassState, input: real): (r: AllPassOutput)
    requires s.Ready()
    ensures r.next.Ready()
    ensures r.out == -s.coefficient * input + s.buffer[(s.writeIndex - s.delaySamples) % |s.buffer|]
    ensures |r.next.buffer| == |s.buffer|
    ensures r.next.buffer[s.writeIndex]
         == input + s.coefficient * s.buffer[(s.writeIndex - s.delaySamples) % |s.buffer|]
    ensures forall i :: 0 <= i < |s.buffer| && i != s.writeIndex ==> r.next.buffer[i] == s.buffer[i]
    ensures r.next.writeIndex == (s.writeIndex + 1) % |s.buffer|
    ensures r.next.delaySamples == s.delaySamples && r.next.coefficient == s.coefficient
  {
    var readIndex := ReadIndex(s.writeIndex, s.delaySamples, |s.buffer|);
    var delayed := s.buffer[readIndex];
    AllPassOutput(
      s.(buffer := s.buffer[s.writeIndex := input + s.coefficient * delayed],
         writeIndex := Advance(s.writeIndex, |s.buffer|)),
      -s.coefficient * input + delayed)
  }

  /** Successive calls of `process` on the samples `xs`. */
  function Run(s: AllPassState, xs: seq<real>): (r: AllPassRun)
    requires s.Ready()
    ensures r.last.Ready() && |r.outs| == |xs|
    decreases |xs|
  {
    if xs == [] then AllPassRun(s, [])
    else
      var first := Step(s, xs[0]);
      var rest := Run(first.next, xs[1..]);
      AllPassRun(rest.last, [first.out] + rest.outs)
  }

  /** The state `clear` leaves: a silent buffer, nothing else changed. */
  function Cleared(s: AllPassState): (c: AllPassState)
    ensures Silent(c.buffer) && |c.buffer| == |s.buffer|
    ensures c.writeIndex == s.writeIndex && c.delaySamples == s.delaySamples
    ensures c.coefficient == s.coefficient
  {
    s.(buffer := Zeros(|s.buffer|))
  }

  /** The buffer holds 1 at `hot` and 0 everywhere else. */
  ghost predicate OneHot(cells: seq<real>, hot: int)
  {
    forall i :: 0 <= i < |cells| ==> cells[i] == if i == hot then 1.0 else 0.0
  }

  /**
   * The tail of an impulse response: the impulse sits at `hot`, the cursor
   * is `j` cells past it. Feeding silence gives silence until the read
   * position reaches `hot`, `delaySamples - j` calls later, and then 1.
   */
  lemma {:induction false} ImpulseTail(t: AllPassState, hot: int, j: int, xs: seq<real>)
    requires t.Ready() && 0 <= hot < |t.buffer| && OneHot(t.buffer, hot)
    requires 1 <= j <= t.delaySamples
    requires t.writeIndex == if hot + j < |t.buffer| then hot + j else hot + j - |t.buffer|
    requires |xs| == t.delaySamples - j + 1
    requires forall i :: 0 <= i < |xs| ==> xs[i] == 0.0
    ensures Run(t, xs).outs[t.delaySamples - j] == 1.0
    ensures forall k :: 0 <= k < t.delaySamples - j ==> Run(t, xs).outs[k] == 0.0
    decreases t.delaySamples - j
  {
    var n := |t.buffer|;
    var readIndex := ReadIndex(t.writeIndex, t.delaySamples, n);
    var first := Step(t, xs[0]);
    if j == t.delaySamples {
      assert readIndex == hot;
      assert first.out == 1.0;
    } else {
      assert readIndex != hot;
      assert first.out == 0.0;
      assert t.writeIndex != hot;
      assert OneHot(first.next.buffer, hot) by {
        forall i | 0 <= i < n
          ensures first.next.buffer[i] == if i == hot then 1.0 else 0.0
        {
          if i == t.writeIndex {
            assert first.next.buffer[i] == 0.0 + t.coefficient * 0.0;
          }
        }
      }
      ImpulseTail(first.next, hot, j + 1, xs[1..]);
    }
  }

  /**
   * A unit impulse into a filter with a silent buffer: the first output is
   * `-coefficient`, the next `delaySamples - 1` outputs are 0, and the output
   * exactly `delaySamples` calls after the impulse is 1.
   */
  lemma ImpulseResponse(s: AllPassState)
    requires s.Ready() && Silent(s.buffer)
    ensures Run(s, [1.0] + Zeros(s.delaySamples)).outs[0] == -s.coefficient
    ensures Run(s, [1.0] + Zeros(s.delaySamples)).outs[s.delaySamples] == 1.0
    ensures forall k :: 1 <= k < s.delaySamples ==>
              Run(s, [1.0] + Zeros(s.delaySamples)).outs[k] == 0.0
  {
    var xs := [1.0] + Zeros(s.delaySamples);
    var first := Step(s, 1.0);
    assert first.out == -s.coefficient;
    assert OneHot(first.next.buffer, s.writeIndex) by {
      forall i | 0 <= i < |s.buffer|
        ensures first.next.buffer[i] == if i == s.writeIndex then 1.0 else 0.0
      {
        if i == s.writeIndex {
          assert first.next.buffer[i] == 1.0 + s.coefficient * 0.0;
        }
      }
    }
    assert xs[1..] == Zeros(s.delaySamples);
    ImpulseTail(first.next, s.writeIndex, 1, xs[1..]);
  }

  class AllPassFilter {
    var buffer: seq<real>
    var sampleRate: real
    var writeIndex: int
    var delaySamples: int
    var coefficient: real

    /** The object invariant every member keeps. */
    ghost predicate Valid()
      reads this
    {
      && IsSize(|buffer|)
      && 0.0 < sampleRate
      && 0 <= writeIndex
      && (|buffer| == 0 ==> writeIndex == 0)
      && (0 < |buffer| ==> writeIndex < |buffer|)
      && 1 <= delaySamples
      && 0.0 <= coefficient <= MaxCoefficient
    }

    /** The per-sample state as a value. */
    ghost function State(): AllPassState
      reads this
    {
      AllPassState(buffer, writeIndex, delaySamples, coefficient)
    }

    /** The default member initialisers. */
    constructor ()
      ensures Valid() && sampleRate == 44100.0
      ensures State() == AllPassState([], 0, 1, 0.5)
    {
      buffer := [];
      sampleRate := 44100.0;
      writeIndex := 0;
      delaySamples := 1;
      coefficient := 0.5;
    }

    /**
     * `prepare`: the buffer is resized to `maxDelayMs` worth of samples (cells
     * already there are kept) and the cursor returns to 0.
     */
    method Prepare(newSampleRate: real, maxDelayMs: real := 100.0)
      requires Valid()
      requires 0.0 < newSampleRate && 0.0 <= maxDelayMs
      requires IsInt(MsToSamples(maxDelayMs, newSampleRate))
      modifies this
      ensures Valid() && sampleRate == newSampleRate
      ensures State() == old(State()).(
        buffer := Resized(old(buffer), MsToSamples(maxDelayMs, newSampleRate)),
        writeIndex := 0)
    {
      sampleRate := newSampleRate;
      var maxDelaySamples := MsToSamples(maxDelayMs, sampleRate);
      buffer := Resized(buffer, maxDelaySamples);
      writeIndex := 0;
    }

    /** `setDelayTime`: the delay length in samples, clamped to the buffer. */
    method SetDelayTime(delayMs: real)
      requires Valid()
      requires IsInt(MsToSamples(delayMs, sampleRate))
      modifies this
      ensures Valid() && sampleRate == old(sampleRate)
      ensures State() == old(State()).(
        delaySamples := ClampDelay(MsToSamples(delayMs, sampleRate), |buffer|))
      ensures 2 <= |buffer| ==> 1 <= delaySamples <= |buffer| - 1
    {
      delaySamples := ClampDelay(MsToSamples(delayMs, sampleRate), |buffer|);
    }

    /** `setCoefficient`: the coefficient clamped to [0, 0.9]. */
    method SetCoefficient(coeff: real)
      requires Valid()
      modifies this
      ensures Valid() && sampleRate == old(sampleRate)
      ensures State() == old(State()).(coefficient := Clamp(coeff, 0.0, MaxCoefficient))
    {
      coefficient := Clamp(coeff, 0.0, MaxCoefficient);
    }

    /** `process`: one sample through the filter, as `Step` describes it. */
    method Process(input: real) returns (output: real)
      requires Valid() && State().Ready()
      modifies this
      ensures Valid() && sampleRate == old(sampleRate)
      ensures AllPassOutput(State(), output) == Step(old(State()), input)
    {
      var readIndex := writeIndex - delaySamples;
      if readIndex < 0 {
        readIndex := readIndex + |buffer|;
      }
      var delayed := buffer[readIndex];
      output := -coefficient * input + delayed;
      var written := input + coefficient * delayed;
      buffer := buffer[writeIndex := written];
      writeIndex := writeIndex + 1;
      if writeIndex >= |buffer| {
        writeIndex := 0;
      }
      ghost var expected := Step(old(State()), input);
      assert expected.next.buffer[old(writeIndex)] == written;
    }

    /** `clear`: the buffer is zeroed. */
    method Clear()
      requires Valid()
      modifies this
      ensures Valid() && sampleRate == old(sampleRate)
      ensures State() == Cleared(old(State()))
    {
      buffer := Zeros(|buffer|);
    }
  }
}
