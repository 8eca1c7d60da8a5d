# Dome reverb DSP core in Dafny

This project models the signal-processing core of a "dome live" reverb
plug-in and proves properties of it. The core has three parts:

- `CombFilter`: a damped feedback comb on a ring buffer.
- `AllPassFilter`: a diffusing filter on a ring buffer.
- `DomeReverb`: a stereo engine. Each channel runs seven pre-EQ biquads, a
  pre-delay line and eight combs summed and scaled by 1/8. The two comb sums
  are cross-fed by 15%. Each channel then runs four all-pass filters in
  series, a low-pass and a low shelf. Next comes a mid/side width stage, and
  last the wet/dry mix is written back into the audio buffer. One knob
  (`domeAmount`) and four presets set the gains, the pre-delay lengths, the
  comb coefficients and the tone filters.

Samples and coefficients are `real`. `static_cast<int>` is truncation toward
zero (`DelayLine.Trunc`). The `int` against `size_t` comparison in
`setDelayTime` is modelled as a conversion modulo 2^64 (`DelayLine.AsSize`).
`std::vector::resize` keeps the existing cells and zero-fills the new ones
(`DelayLine.Resized`).

## Layout

- `delay_line.dfy` (`DelayLine`): integer conversions, `std::clamp`, and the
  cursor arithmetic of every ring buffer.
- `comb_filter.dfy` (`Comb`) and `all_pass_filter.dfy` (`AllPass`): two layers.
  - The filter's state as a value, with `Step` (one `process` call), `Run`
    (successive calls) and `Cleared`.
  - The class, with the source's fields. Each method is proved against those
    functions.
- `iir_filter.dfy` (`Iir`): the boundary to the JUCE biquad library.
  - A filter's state is its current design plus the (design, input) pairs it
    has processed since its last reset.
  - Its output is an arbitrary function `respond` of that history. The engine
    receives `respond` when it is constructed.
- `dome_params.dfy` (`DomeParams`): the preset table and the knob-to-parameter
  curves.
- `dome_pipeline.dfy` (`DomePipeline`): the per-sample signal path as
  functions on values, from a single channel stage up to a whole block
  (`RunBlock`).
- `dome_control.dfy` (`DomeControl`): what `prepare`, `updateParameters` and
  `clear` do to the engine state, as functions, with lemmas about them.
- `dome_reverb.dfy` (`Dome`): the `DomeReverb` class.
  - The source holds its filters by value. The rows below map each member to
    its field:

    | source members | field |
    |---|---|
    | `combFiltersL`, `allPassFiltersL`, `preDelayBufferL`, `preDelayWriteIndexL`, `preDelaySamplesL`, `lowPassFilterL`, `lowShelfFilterL`, `preEQ_Band1L` … `preEQ_Band7L` | `left: Channel` |
    | the same members with the `R` suffix | `right: Channel` |

  - The class's methods update those fields with loops over the filter
    arrays.
  - Each method is proved against the value model: `State()` is the engine
    as a value, and every method's effect on it is stated as a function of
    `DomePipeline` or `DomeControl`.
  - `process` writes its results into an `array2<real>`, the audio buffer
    (channels × samples).

## Model

| member | source | states |
|---|---|---|
| DelayLine.Trunc | Source/DSP/CombFilter.h:26 | `static_cast<int>`: a non-negative value becomes its floor; a negative value is truncated toward zero |
| DelayLine.Clamp | Source/DSP/CombFilter.h:44 | `std::clamp`: the result lies in `[lo, hi]`; it is `v` when `v` is inside and `lo` when `v` is below |
| DelayLine.AsSize | Source/DSP/CombFilter.h:35 | an `int` compared with `size()` is converted modulo 2^64: a non-negative value is kept and a negative one gains 2^64 |
| DelayLine.ClampDelay | Source/DSP/CombFilter.h:34-38 | the delay length is at least 1; it is at most `size - 1` when the buffer has 2 cells or more; it is kept when already in `[1, size)`; a negative or too-long request becomes `size - 1` |
| DelayLine.ReadIndex | Source/DSP/CombFilter.h:57-59 | the read position is a valid index equal to `(writeIndex - delay) mod size`, and it differs from the write position when `delay < size` |
| DelayLine.Advance | Source/DSP/CombFilter.h:71-73 | the cursor becomes `(writeIndex + 1) mod size` and stays in `[0, size)` |
| DelayLine.Zeros | Source/DSP/CombFilter.h:81 | `std::fill` with 0: `n` cells, all zero |
| DelayLine.Resized | Source/DSP/CombFilter.h:27 | `resize(n, 0)`: length `n`, the first cells kept, the added cells zero |
| DelayLine.TruncMonotone | Source/DSP/DomeReverb.h:342-343 | truncation of non-negative values is monotone |
| Comb.Step | Source/DSP/CombFilter.h:54-76 | one `process` call: the output is the cell at `(writeIndex - delaySamples) mod size`, read before the write; `filterStore' = delayed*(1-damping) + filterStore*damping`; only the cell at the old cursor changes, becoming `input + filterStore'*feedback`; the cursor advances modulo the size; delay and coefficients are unchanged |
| Comb.Run | Source/DSP/CombFilter.h:54-76 | successive `process` calls yield one output per input, and the filter stays ready to run |
| Comb.Cleared | Source/DSP/CombFilter.h:79-83 | `clear`: every cell and `filterStore` are zero; length, cursor, delay, feedback and damping are unchanged |
| Comb.SilenceAfterClear | Source/DSP/CombFilter.h:62-68 | a cleared comb fed zeros outputs zero on every call and stays silent, for runs of any length |
| Comb.CombFilter.constructor | Source/DSP/CombFilter.h:85-92 | the default member values: empty buffer, rate 44100, cursor 0, delay 1, feedback 0.7, damping 0.5, memory 0 |
| Comb.CombFilter.Prepare | Source/DSP/CombFilter.h:23-29 | the buffer is resized to `trunc(maxDelayMs*sampleRate/1000)` cells (old cells kept) and the cursor is set to 0; nothing else changes |
| Comb.CombFilter.SetDelayTime | Source/DSP/CombFilter.h:32-39 | `delaySamples` becomes `ClampDelay` of the truncated length, so it lies in `[1, size-1]` once the buffer has 2 cells; nothing else changes |
| Comb.CombFilter.SetFeedback | Source/DSP/CombFilter.h:42-45 | the feedback becomes `clamp(fb, 0, 0.99)`; nothing else changes |
| Comb.CombFilter.SetDamping | Source/DSP/CombFilter.h:48-51 | the damping becomes `clamp(damp, 0, 1)`; nothing else changes |
| Comb.CombFilter.Process | Source/DSP/CombFilter.h:54-76 | the new state and the output are exactly `Comb.Step` of the old state |
| Comb.CombFilter.Clear | Source/DSP/CombFilter.h:79-83 | the new state is `Comb.Cleared` of the old one |
| AllPass.Step | Source/DSP/AllPassFilter.h:48-69 | one `process` call: the output is `-coefficient*input + delayed`, where `delayed` is the cell at `(writeIndex - delaySamples) mod size` read before the write; only the old cursor's cell changes, to `input + coefficient*delayed`; the cursor advances modulo the size |
| AllPass.Run | Source/DSP/AllPassFilter.h:48-69 | successive `process` calls yield one output per input, and the filter stays ready to run |
| AllPass.Cleared | Source/DSP/AllPassFilter.h:72-75 | `clear`: a silent buffer of the same length; cursor, delay and coefficient are unchanged |
| AllPass.ImpulseTail | Source/DSP/AllPassFilter.h:51-61 | with a single 1 in the buffer `j` cells behind the cursor, silence in gives zeros for `delaySamples - j` calls and then 1 |
| AllPass.ImpulseResponse | Source/DSP/AllPassFilter.h:51-61 | a unit impulse into a silent filter gives `-coefficient` first, then `delaySamples - 1` zeros, then 1 exactly `delaySamples` calls later |
| AllPass.AllPassFilter.constructor | Source/DSP/AllPassFilter.h:77-82 | the default member values: empty buffer, rate 44100, cursor 0, delay 1, coefficient 0.5 |
| AllPass.AllPassFilter.Prepare | Source/DSP/AllPassFilter.h:23-29 | the buffer is resized to `trunc(maxDelayMs*sampleRate/1000)` cells (old cells kept) and the cursor is set to 0 |
| AllPass.AllPassFilter.SetDelayTime | Source/DSP/AllPassFilter.h:32-39 | `delaySamples` becomes `ClampDelay` of the truncated length, in `[1, size-1]` once the buffer has 2 cells |
| AllPass.AllPassFilter.SetCoefficient | Source/DSP/AllPassFilter.h:42-45 | the coefficient becomes `clamp(coeff, 0, 0.9)`; nothing else changes |
| AllPass.AllPassFilter.Process | Source/DSP/AllPassFilter.h:48-69 | the new state and the output are exactly `AllPass.Step` of the old state |
| AllPass.AllPassFilter.Clear | Source/DSP/AllPassFilter.h:72-75 | the new state is `AllPass.Cleared` of the old one |
| Iir.Step | Source/DSP/DomeReverb.h:289-294 | `processSingleSampleRaw`: the design is kept, the history grows by exactly this (design, input) pair, and the output is the library's response to that history |
| DomeParams.Settings | Source/DSP/DomeReverb.h:183-205 | the preset table; every preset keeps the knob in [0, 1], the width in [0.5, 1] and the bass boost in [1.2, 2] |
| DomeParams.WetGain | Source/DSP/DomeReverb.h:338 | the wet gain lies in [0, 0.6] for a knob in [0, 1], and is 0 at knob 0 |
| DomeParams.DryGain | Source/DSP/DomeReverb.h:339 | the dry gain lies in [0.7, 1] for a knob in [0, 1], and is 1 at knob 0 |
| DomeParams.CombFeedback | Source/DSP/DomeReverb.h:351 | the comb feedback lies in [0.75, 0.87], strictly below 1 |
| DomeParams.CombDamping | Source/DSP/DomeReverb.h:358 | the comb damping lies in [0.15, 0.5] |
| DomeParams.Cutoff | Source/DSP/DomeReverb.h:365 | the low-pass cutoff lies between 5 kHz and 10 kHz |
| DomeParams.PreDelayLength | Source/DSP/DomeReverb.h:342-348 | `trunc(d*ms*sr/1000)`, limited to `size - 1`: it lies in `[0, size-1]` for a buffer with cells; it never exceeds the truncated value and equals it when that fits; it is 0 at knob 0 |
| DomeParams.PreDelayMonotone | Source/DSP/DomeReverb.h:342-348 | the pre-delay length grows with the knob |
| DomeParams.PreDelayLeftBeforeRight | Source/DSP/DomeReverb.h:342-348 | the left (25 ms) length never exceeds the right (30 ms) one, and both are 0 at knob 0 |
| DomePipeline.PreDelayStep | Source/DSP/DomeReverb.h:383-400 | a delay of 0 passes the input through and leaves buffer and cursor alone; otherwise the output is the cell at `(writeIndex - delay) mod size`, the input replaces the cell at the cursor and the cursor advances modulo the size |
| DomePipeline.EqCascade | Source/DSP/DomeReverb.h:228-257 | the bands in series keep their designs and each processes exactly one more sample; with no band the input passes through |
| DomePipeline.EqChain | Source/DSP/DomeReverb.h:228-257 | a cascade described band by band (band `k` fed the previous band's output) is `EqCascade` |
| DomePipeline.CombOutputs | Source/DSP/DomeReverb.h:266-270 | comb `k` of the bank outputs `Comb.Step(combs[k], x).out` |
| DomePipeline.CombBank | Source/DSP/DomeReverb.h:264-270 | all combs are fed the same sample; each comb's new state is its own `Comb.Step`; the stage output is the sum of their outputs |
| DomePipeline.CombStageIsMean | Source/DSP/DomeReverb.h:264-272 | an eight-comb stage outputs 1/8 of the comb sum, so the common value when all combs agree |
| DomePipeline.AllPassCascade | Source/DSP/DomeReverb.h:282-286 | each filter in series keeps its buffer length, delay and coefficient and stays ready to run; with no filter the input passes through |
| DomePipeline.AllPassChain | Source/DSP/DomeReverb.h:282-286 | a cascade described filter by filter (filter `k` fed the previous output) is `AllPassCascade` |
| DomePipeline.CrossFeed | Source/DSP/DomeReverb.h:275-279 | `(L + 0.15R, R + 0.15L)`: the sum is scaled by 1.15 and the difference by 0.85 |
| DomePipeline.Width | Source/DSP/DomeReverb.h:297-300 | the mid is kept and the side is scaled by `width`; width 1 is the identity; width 0 gives L = R = (L+R)/2 |
| DomePipeline.Front | Source/DSP/DomeReverb.h:228-272 | pre-EQ, pre-delay and comb bank of one channel: all-pass, tone filters and pre-delay length are untouched; every filter keeps its design, delay, coefficients and buffer length (`SameTuning`); the channel stays ready to run |
| DomePipeline.Back | Source/DSP/DomeReverb.h:282-294 | all-pass chain, low-pass and low shelf of one channel: pre-EQ, pre-delay and combs are untouched; every filter keeps its design, delay, coefficients and buffer length (`SameTuning`); the channel stays ready to run |
| DomePipeline.SameTuningChains | Source/DSP/DomeReverb.h:219-311 | keeping the tuning over two steps keeps it over both, so it carries across a block |
| DomePipeline.WetStep | Source/DSP/DomeReverb.h:228-300 | one stereo sample through both paths keeps the engine ready, the width and gains unchanged, and every filter of both channels tuned as before (`SameEngineTuning`) |
| DomePipeline.EngineStep | Source/DSP/DomeReverb.h:219-310 | one stereo sample: each output is the `Mix` (`input*dryGain + wet*wetGain`) of its dry input with its wet sample; the engine stays ready and keeps its tuning and parameters |
| DomePipeline.ZeroWidthIsMono | Source/DSP/DomeReverb.h:297-300 | with width 0 both channels carry the same wet sample |
| DomePipeline.RunBlock | Source/DSP/DomeReverb.h:219-311 | a block of samples through the engine, one after the other: one output per input on each channel; the engine ends ready, with every filter's delay, coefficients, design and buffer length, the width and the gains as before |
| DomePipeline.BlockChain | Source/DSP/DomeReverb.h:219-311 | a block described sample by sample (each state steps to the next, producing the given outputs) is `RunBlock` |
| DomePipeline.KnobAtZeroPassesThrough | Source/DSP/DomeReverb.h:303-310 | with wet gain 0 and dry gain 1 every output sample equals its input sample, whatever the reverb holds |
| DomeControl.SamplesFit | Source/DSP/DomeReverb.h:55 | up to 150 ms at a sample rate up to 10^9, the sample count fits an `int` |
| DomeControl.SamplesAtLeastOne | Source/DSP/DomeReverb.h:73 | from 40 Hz on, 30 ms or more is at least one sample |
| DomeControl.PreEqDesigns | Source/DSP/DomeReverb.h:114-167 | seven designs at the engine's rate: a low shelf, five peaks, a low-pass |
| DomeControl.PreparedComb | Source/DSP/DomeReverb.h:55-58 | a comb after prepare(150 ms), its delay time and feedback 0.82 / damping 0.3: 150 ms of cells, old cells and memory kept, new cells zero, cursor 0, delay in `[1, size-1]`, ready from 40 Hz on |
| DomeControl.PrepareCombFilter | Source/DSP/DomeReverb.h:55-58 | the four calls `prepare` makes on a comb object, in order, leave it in the `PreparedComb` state |
| DomeControl.PrepareAllPassFilter | Source/DSP/DomeReverb.h:73-75 | the three calls `prepare` makes on an all-pass object, in order, leave it in the `PreparedAllPass` state |
| DomeControl.PreparedAllPass | Source/DSP/DomeReverb.h:73-75 | an all-pass filter after prepare(30 ms), its delay time and coefficient 0.5: 30 ms of cells, old cells kept, cursor 0, delay in `[1, size-1]` |
| DomeControl.PreparedChannel | Source/DSP/DomeReverb.h:33-168 | one channel after `prepare`: each comb and all-pass prepared with its table entry, pre-delay resized to 50 ms and rewound, pre-EQ and tone filters redesigned, memories and pre-delay length kept |
| DomeControl.PreparedEngine | Source/DSP/DomeReverb.h:33-168 | both channels prepared with their own tables; width and gains kept; every delay line allocated from 40 Hz on; the coefficient ranges of `EngineStable` hold |
| DomeControl.RetunedChannel | Source/DSP/DomeReverb.h:342-379 | one channel after `updateParameters`: the pre-delay length from the knob; every comb's feedback and damping from the knob (feedback below 1); the tone filters redesigned; buffers, cursors and memories untouched |
| DomeControl.Retuned | Source/DSP/DomeReverb.h:335-380 | the gains follow the knob, the width is kept, a stable engine stays stable, and an allocated engine becomes ready to run |
| DomeControl.ClearedChannel | Source/DSP/DomeReverb.h:315-331 | one channel after `clear`: combs quiet, all-pass and pre-delay buffers silent, tone filters reset; pre-EQ, cursors and pre-delay length kept |
| DomeControl.ClearedEngine | Source/DSP/DomeReverb.h:315-331 | `clear` keeps the width, the gains, the engine's readiness and its stability |
| DomeControl.StableKept | Source/DSP/DomeReverb.h:219-311 | an engine channel tuned as a stable one (comb feedback in [0, 0.87], damping in [0, 1], all-pass coefficient in [0, 0.9]) is stable |
| DomeControl.BlockKeepsStable | Source/DSP/DomeReverb.h:219-311 | a block of samples keeps a stable engine stable: every comb's feedback is still below 1 afterwards |
| DomeControl.ClearIdempotent | Source/DSP/DomeReverb.h:315-331 | clearing twice is clearing once |
| DomeControl.RetuneIdempotent | Source/DSP/DomeReverb.h:335-380 | retuning twice with the same settings is retuning once |
| DomeControl.RetuneKeepsMemory | Source/DSP/DomeReverb.h:335-380 | retuning leaves, in both channels, the comb buffers, cursors and damping memories, the all-pass filters, the pre-EQ bands, the pre-delay line and the histories of both tone filters alone |
| Dome.PrepareCombBank | Source/DSP/DomeReverb.h:53-68 | the `prepare` loop over a comb bank makes comb `k` `PreparedComb` with delay table entry `k` |
| Dome.PrepareAllPassBank | Source/DSP/DomeReverb.h:71-84 | the `prepare` loop over an all-pass chain makes filter `k` `PreparedAllPass` with delay table entry `k` |
| Dome.DesignBands | Source/DSP/DomeReverb.h:114-167 | every pre-EQ band gets its design and keeps its history |
| Dome.SetBankFeedback | Source/DSP/DomeReverb.h:352-355 | every comb of the bank gets the same clamped feedback; nothing else changes |
| Dome.SetBankDamping | Source/DSP/DomeReverb.h:359-362 | every comb of the bank gets the same clamped damping; nothing else changes |
| Dome.ClearCombBank | Source/DSP/DomeReverb.h:317-320 | every comb of the bank is `Comb.Cleared` |
| Dome.ClearAllPassBank | Source/DSP/DomeReverb.h:321-324 | every all-pass filter of the chain is `AllPass.Cleared` |
| Dome.RunEqCascade | Source/DSP/DomeReverb.h:228-257 | the band-by-band loop computes `EqCascade` |
| Dome.RunCombBank | Source/DSP/DomeReverb.h:264-270 | the accumulating loop computes `CombBank`: the sum of the comb outputs and their new states |
| Dome.RunAllPassCascade | Source/DSP/DomeReverb.h:282-286 | the filter-by-filter loop computes `AllPassCascade` |
| Dome.ProcessPreDelay | Source/DSP/DomeReverb.h:383-400 | the new vector, the cursor and the output are `PreDelayStep` |
| Dome.PrepareChannel | Source/DSP/DomeReverb.h:33-168 | computes `PreparedChannel` |
| Dome.RetuneChannel | Source/DSP/DomeReverb.h:335-380 | computes `RetunedChannel` |
| Dome.ClearChannel | Source/DSP/DomeReverb.h:315-331 | computes `ClearedChannel` |
| Dome.RunFront | Source/DSP/DomeReverb.h:228-272 | computes `Front` |
| Dome.RunBack | Source/DSP/DomeReverb.h:282-294 | computes `Back` |
| Dome.WriteOutput | Source/DSP/DomeReverb.h:308-310 | channel 0 gets the left mix and channel 1, when it exists, the right mix, at this sample only; every other cell is unchanged |
| Dome.DomeReverb.constructor | Source/DSP/DomeReverb.h:402-446 | the default member values: rate 44100, knob 0.5, width 0.8, bass 1.5, Arena, gains 0.3 / 0.85, empty delay lines, IIR filters without coefficients |
| Dome.DomeReverb.Prepare | Source/DSP/DomeReverb.h:33-168 | the engine becomes `PreparedEngine`, the rate is stored, the knob, bass boost and preset are kept, and every delay line is allocated from 40 Hz on |
| Dome.DomeReverb.SetDomeAmount | Source/DSP/DomeReverb.h:171-175 | the knob becomes `clamp(amount, 0, 1)` and the engine is `Retuned` for it |
| Dome.DomeReverb.GetDomeAmount | Source/DSP/DomeReverb.h:177 | returns the stored knob, which lies in [0, 1] |
| Dome.DomeReverb.SetPreset | Source/DSP/DomeReverb.h:180-207 | the preset is recorded, knob, width and bass boost come from the table, and the engine is `Retuned` |
| Dome.DomeReverb.GetPreset | Source/DSP/DomeReverb.h:209 | returns the recorded preset |
| Dome.DomeReverb.UpdateParameters | Source/DSP/DomeReverb.h:335-380 | the engine becomes `Retuned` for the stored knob and bass boost, and the gains match the knob afterwards |
| Dome.DomeReverb.ProcessFrame | Source/DSP/DomeReverb.h:221-310 | one pass of the sample loop is one `EngineStep`; the object stays runnable |
| Dome.DomeReverb.RunFrames | Source/DSP/DomeReverb.h:219-311 | the sample loop: each sample steps the engine once; the mixes replace channel 0 and channel 1; other channels are kept |
| Dome.DomeReverb.Process | Source/DSP/DomeReverb.h:212-312 | a buffer with no channel leaves everything alone; otherwise the engine ends in `RunBlock`'s last state and channels 0 and 1 hold `RunBlock`'s outputs; mono input feeds channel 0 to both paths and writes only channel 0; further channels are not touched; the object invariant, coefficient ranges included, still holds |
| Dome.DomeReverb.Clear | Source/DSP/DomeReverb.h:315-331 | the engine becomes `ClearedEngine`; parameters are kept |

## Left out

- Floating-point rounding: samples, gains and coefficients are exact reals,
  and the `float`/`double` conversions are not modelled.
- The JUCE biquads (`IIRFilter`, `IIRCoefficients`) are an arbitrary response
  function of each filter's history. No coefficient formula and no frequency
  response is modelled. A design is recorded as the request the engine makes,
  e.g. `LowPass(rate, cutoff, q)`.
- The all-pass filter is not proved flat. Its update uses `-g*input` where a
  Schroeder all-pass would use the internal state, so the code is not an exact
  all-pass. The model follows the code.
- `Comb.CombFilter.Prepare`, `AllPass.AllPassFilter.Prepare`: a negative
  `maxDelayMs`, or one whose sample count overflows `int`, is excluded by the
  preconditions. In the source, `resize` of a negative count throws and the
  cast overflows.
- `SetDelayTime` (both filters): requests whose sample count overflows `int`
  are excluded. Negative requests are modelled and end at `size - 1`.
- Sample rates above 10^9 are excluded from `Dome.DomeReverb.Prepare`, so that
  every buffer length fits the source's `int`.
- `Dome.DomeReverb.Process` requires every delay line to be ready to run.
  - The source reads out of bounds on a filter whose buffer is empty, i.e.
    before `prepare`.
  - It also does so on a pre-delay length of -1, which `updateParameters`
    sets while the pre-delay vector is empty.
  - It also does so after a second `prepare` at a lower sample rate, before
    the knob is set again. `prepare` shrinks the pre-delay vectors but does
    not call `updateParameters`, so `processPreDelay` reads below the vector
    with the old length. Example: knob 0.8 at 96 kHz gives a right length of
    2304 samples; after `prepare(44100)` the vector has 2205 cells. The model
    treats this state as not ready (`Dome.DomeReverb.Prepare` promises
    `Prepared()`, not `Ready()`). The plug-in sets the knob again right after
    `prepare`, which makes it ready.
- Order of calls inside the loops:
  - `process` interleaves the left and right combs and all-pass filters, but
    the model runs one channel, then the other.
  - `updateParameters` sets feedback on all combs before damping; the model
    sets both per channel.
  - The filters of the two channels share no state, so the results are the
    same.
- The seven pre-EQ bands, which the source unrolls, are a sequence run by a
  loop.
- The engine's `prepare` does not reset filter memories, comb damping
  memories or the pre-delay lengths. `clear` does not reset the pre-EQ bands
  or the cursors. The model keeps those values, as the code does.
- `samplesPerBlock` is accepted and not used, as in the source.
- Thread safety between parameter updates and `process` is not modelled.
- The plug-in host code and the editor (`PluginProcessor`, `PluginEditor`) are
  not part of this model.
