/**
 * The boundary to the external biquad library (`juce::IIRFilter` with its
 * `juce::IIRCoefficients` designs). Nothing of the library's arithmetic is
 * modelled: a filter remembers its current design and every (design, input)
 * pair it has processed since its last reset, and its output is whatever the
 * library's response function makes of that history.
 */
module Iir {

  /** The Q argument of a low-pass design: the library's default or a given value. */
  datatype QFactor = DefaultQ | Q(value: real)

  /** A coefficient design request, as the engine passes it to the library. */
  datatype Design =
    | Unset
    | LowPass(sampleRate: real, cutoff: real, q: QFactor)
    | LowShelf(sampleRate: real, cutoff: real, shelfQ: real, gain: real)
    | Peak(sampleRate: real, centre: real, peakQ: real, gain: real)

  /** One processed sample together with the design in force when it was processed. */
  datatype Tap = Tap(design: Design, input: real)

  /** The library: a causal filter's output as a function of the taps since its last reset. */
  type Response = seq<Tap> -> real

  /** The value of a filter's state. */
  datatype IirState = IirState(design: Design, history: seq<Tap>)

  /** The state after one sample and the sample produced. */
  datatype IirOutput = IirOutput(next: IirState, out: real)

  /** `processSingleSampleRaw(x)` under the library `respond`. */
  function Step(respond: Response, s: IirState, x: real): (r: IirOutput)
    ensures r.next.design == s.design
    ensures |r.next.history| == |s.history| + 1 && r.next.history[..|s.history|] == s.history
    ensures r.next.history[|s.history|] == Tap(s.design, x)
    ensures r.out == respond(r.next.history)
  {
    var h := s.history + [Tap(s.design, x)];
    IirOutput(IirState(s.design, h), respond(h))
  }
}
