# Glitch-effect audio processor: a verified model of its DSP core

This project models the signal-processing core of a JUCE audio plugin that
runs a four-stage glitch effect over the host's audio buffer in place:

1. **glitch**: a decimator that holds a sample for a random number of samples;
2. **corruption**: a bit crusher that rounds down to a grid of 2^bits steps;
3. **malware**: a tremolo whose frequency is redrawn at random for every sample;
4. **neuronic**: a feedback delay over a circular buffer with one row per channel.

The processor keeps a state between blocks: two decimator slots, the tremolo
phase, the delay line, its write cursor and its capacity. Three calls change
that state, and each is modelled as a method of the class
`PluginProcessor.Processor`:
- `Prepare` sizes and clears the delay line for a sample rate;
- `Release` frees the delay line;
- `ProcessBlock` silences the output channels that have no input, runs every
  input channel through the four stages sample by sample, and advances the
  cursor.

The model is in three modules:

- `Stages` (`stages.dfy`): the per-sample formulas, written out with C++
  semantics. These are `juce::jmap`, the `(int)` cast (truncation toward zero),
  the truncating `%`, `nextInt`, the decimator step, the crusher, the tremolo
  mix and phase advance, the delay length, the ring indices and the delay mix.
  The module also proves facts about them: crushing is idempotent, the
  read index trails the write index by the delay on the ring, and cursor
  advances compose.
- `Chain` (`chain.dfy`): a pure specification of one block. `Step` sends one
  sample through the four stages. `RunChannels`, `RunSamples` and `RunSample`
  follow the source's nested loop over channels and samples, carrying the
  state from sample to sample. The module's lemmas prove:
  - bypass identity;
  - that one sample writes exactly one delay slot;
  - that a channel leaves the other channels' state alone;
  - that the state invariant is preserved.
- `PluginProcessor` (`plugin_processor.dfy`): the class, with the header's fields
  as mutable fields (`sampleAccumulator` and `skipCounter` are two-element
  arrays) and the host buffer as a sequence of sample arrays. Every method
  that processes samples is proved equal to the specification above, through
  the ghost function `State()`. `ProcessBlock`'s postcondition states:
  - the new state and every output channel;
  - that the extra output channels are zero;
  - that the other channels are unchanged;
  - the new cursor;
  - the bypass identity.

Modelling choices:
- Samples are reals.
- `juce::Random` is a stream `random: nat -> real` of values in [0, 1) plus a
  count `randomDraws` of values taken so far. `nextInt(n)` is `floor(u * n)`
  and `nextFloat()` is `u`.
- `std::sin` and `powf(2, ·)` are the function parameters `sine` and `exp2` of
  `ProcessBlock`.
- The four knob values arrive as `Params`.

Releasing resources (Source/PluginProcessor.cpp:115-119) only resizes the
delay buffer to zero channels and zero samples: `Release` empties the delay
line and keeps `maxDelayInSamples` and `writePosition` as they were.

## Model

| member | source | states |
|---|---|---|
| Stages.Active | Source/PluginProcessor.cpp:155 | the 0.01 gate every stage tests; it has no contract of its own, and what it decides is stated by `DelayLength` (0 exactly when not active), `Decimate` and `Processor.TremoloStage` (bypassed when not active) |
| Stages.JMap | Source/PluginProcessor.cpp:179 | the linear map of v in [0, 1] onto [lo, hi] stays between lo and hi, for either order of the bounds |
| Stages.Trunc | Source/PluginProcessor.cpp:179 | `(int)x` truncates toward zero: for x >= 0 it is the floor, for x < 0 the ceiling |
| Stages.CRem | Source/PluginProcessor.cpp:241 | C++ `%`: the remainder has the dividend's sign, is smaller than the divisor in magnitude, and differs from the dividend by a multiple of it |
| Stages.NextInt | Source/PluginProcessor.cpp:184 | `nextInt(n)` with a generator value in [0, 1) lies in [0, n) |
| Stages.MaxSkipFactor | Source/PluginProcessor.cpp:179 | the longest hold lies in [1, 100] for glitch amounts in [0, 1] |
| Stages.Decimate | Source/PluginProcessor.cpp:177-189 | bypassed: output x, state untouched, no draw; engaged: output is the held sample; mid-hold: counter down by one, no draw; end of hold: x captured, one draw, new counter in [0, maxSkipFactor); counter stays in [0, 100) |
| Stages.BitDepth | Source/PluginProcessor.cpp:197 | the bit depth lies in [2, 16] for amounts in [0, 1] |
| Stages.Crush | Source/PluginProcessor.cpp:198-201 | the crushed sample q satisfies q <= x < q + 1/steps |
| Stages.CrushIdempotent | Source/PluginProcessor.cpp:201 | crushing a crushed sample gives the same sample |
| Stages.CrushGrid | Source/PluginProcessor.cpp:201 | a multiple of 1/steps crushes to itself |
| Stages.CrushAtTwoBits | Source/PluginProcessor.cpp:196-201 | with 4 steps, 0.9 crushes to 0.75 and -0.1 to -0.25 |
| Stages.TremoloFrequency | Source/PluginProcessor.cpp:209-213 | the tremolo frequency lies in [1, 25) Hz for amounts in [0, 1] and generator values in [0, 1) |
| Stages.Modulator | Source/PluginProcessor.cpp:216 | the modulator lies in [0, 1] whenever sin lies in [-1, 1] |
| Stages.Tremolo | Source/PluginProcessor.cpp:218-222 | with amount and modulator in [0, 1], the output is no louder than the input; at amount 1 it is x * m |
| Stages.AdvancePhase | Source/PluginProcessor.cpp:224-227 | the phase stays non-negative, and stays below 2 pi when it started below 2 pi and the frequency is below the sample rate |
| Stages.DelayCapacity | Source/PluginProcessor.cpp:100-102 | the capacity is `(int)(0.1 * rate)`: the largest integer not above 0.1 * rate, at least 1 from 10 Hz up |
| Stages.DelayLength | Source/PluginProcessor.cpp:153-160 | 0 exactly when neuronic is at or below the gate; otherwise at least 1 and at most the capacity; the whole capacity at amount 1 |
| Stages.RingSlot | Source/PluginProcessor.cpp:252 | the write index lies in [0, cap) for a non-negative position |
| Stages.ReadIndex | Source/PluginProcessor.cpp:235-241 | the read index lies in [0, cap) whenever the cursor and sample are non-negative and the delay is at most the capacity |
| Stages.ReadIndexIsResidue | Source/PluginProcessor.cpp:236-241 | the wrapped read index equals the mathematical residue of cursor + sample - delay |
| Stages.UnwrappedIndexIsNegative | Source/PluginProcessor.cpp:238-241 | without the add-cap wrap, C++ `%` leaves a negative index whenever the delay reaches before the buffer start |
| Stages.ReadTrailsWrite | Source/PluginProcessor.cpp:236-252 | write index minus read index is the delay, modulo the capacity |
| Stages.DelayMix | Source/PluginProcessor.cpp:246-248 | the mix lies between the input and the delayed sample and moves at most half way; at amount 1 it is their average |
| Stages.MixBetween | Source/PluginProcessor.cpp:246-248 | for amounts in [0, 1] the mix moves x toward the delayed sample by at most half the gap, so it stays between the two |
| Stages.Feedback | Source/PluginProcessor.cpp:251 | the value written back to the delay line; it has no contract of its own, and its value is stated by `Chain.StepWritesOneSlot` and `Processor.DelayStage` (output plus half the delayed sample) |
| Stages.CursorCompose | Source/PluginProcessor.cpp:263-268 | advancing the cursor by two blocks in turn equals advancing it once by their total length |
| Stages.DelayLengthAtZeroCapacity | Source/PluginProcessor.cpp:155-160 | with capacity 0 an active neuronic amount still gives a delay of 1 sample, because of the `jmax(1, …)` |
| Stages.DelayLineAt48k | Source/PluginProcessor.cpp:100-102 | at 48 kHz the capacity is 4800 and full neuronic delays 4800 samples; two 3000-sample blocks leave the cursor at 1200 |
| Chain.Step | Source/PluginProcessor.cpp:171-259 | one sample through the four stages keeps the shape of the state (slots, rows, row lengths) |
| Chain.RunChannels | Source/PluginProcessor.cpp:164-261 | a block over k channels keeps the state's shape and yields k output rows |
| Chain.RunSamples | Source/PluginProcessor.cpp:169-260 | n samples of a channel keep the state's shape and yield n outputs |
| Chain.RunSample | Source/PluginProcessor.cpp:169-260 | one sample of a channel, after those before it, keeps the state's shape |
| Chain.RunChannelsReadsInputs | Source/PluginProcessor.cpp:164-171 | a block's result depends only on its first k input channels |
| Chain.RunSamplesReadsInputs | Source/PluginProcessor.cpp:169-171 | a channel's partial run depends only on the channels up to it |
| Chain.StepBypass | Source/PluginProcessor.cpp:177-254 | with every amount at or below 0.01, a sample passes unchanged and no state moves |
| Chain.RunSamplesBypass | Source/PluginProcessor.cpp:169-260 | bypassed, a channel's first n outputs are its first n inputs and the state is unchanged |
| Chain.RunChannelsBypass | Source/PluginProcessor.cpp:164-261 | bypassed, every channel comes out as it went in and the state, delay line included, is unchanged |
| Chain.StepWritesOneSlot | Source/PluginProcessor.cpp:233-254 | with the delay engaged, exactly slot RingSlot(cursor, i) of the channel's row changes, to output + half the delayed sample; otherwise the line is unchanged |
| Chain.StepKeepsOtherChannels | Source/PluginProcessor.cpp:177-253 | a sample of channel c leaves the decimator slot and delay row of every other channel unchanged |
| Chain.RunSamplesKeepsOtherChannels | Source/PluginProcessor.cpp:169-260 | a whole channel leaves the other channels' decimator slots and delay rows unchanged |
| Chain.RunChannelsKeepsLaterRows | Source/PluginProcessor.cpp:164-261 | a block leaves the delay rows of channels it does not process unchanged |
| Chain.StepHealthy | Source/PluginProcessor.cpp:177-228 | one sample keeps the hold counters in [0, 100) and the phase in [0, 2 pi) |
| Chain.RunSamplesHealthy | Source/PluginProcessor.cpp:169-260 | the state invariant holds after any number of samples of a channel |
| Chain.RunChannelsHealthy | Source/PluginProcessor.cpp:164-261 | the state invariant holds after a whole block |
| PluginProcessor.ClearChannel | Source/PluginProcessor.cpp:145 | every sample of the cleared channel is 0 |
| PluginProcessor.ClearOutputs | Source/PluginProcessor.cpp:143-145 | the output channels from numInputs up to numOutputs are all zeros; every other channel is unchanged |
| PluginProcessor.Processor.constructor | PluginProcessor.h:54-67 | a new processor has sample rate 44100, both decimator slots 0, phase 0, cursor 0, capacity 0 and an empty delay line, and is valid |
| PluginProcessor.Processor.Prepare | Source/PluginProcessor.cpp:95-113 | capacity `(int)(0.1 * rate)`, one all-zero row of that length per output channel, cursor, slots and phase reset to 0, sample rate stored, invariant kept |
| PluginProcessor.Processor.Release | Source/PluginProcessor.cpp:115-119 | the delay line has no rows; everything else, capacity and cursor included, is unchanged |
| PluginProcessor.Processor.DecimatorStage | Source/PluginProcessor.cpp:177-189 | the output, the channel's slot and counter, and the draw count are those of `Decimate`; the other slot is unchanged |
| PluginProcessor.Processor.TremoloStage | Source/PluginProcessor.cpp:207-228 | bypassed: nothing changes; engaged: the output is the tremolo at the old phase, the phase advances by the freshly drawn frequency, one value is drawn |
| PluginProcessor.Processor.DelayStage | Source/PluginProcessor.cpp:233-254 | the output mixes the sample read `delay` slots back; only the channel's slot at the write index changes, to output + half the delayed sample |
| PluginProcessor.Processor.Context | Source/PluginProcessor.cpp:153-160 | what a block keeps fixed: the parameters, the crusher's step count `powf(2, bits)`, the delay length, the cursor, the capacity, the sample rate; it has no contract of its own and is used by the contracts of `ProcessInputs` and `ProcessBlock` |
| PluginProcessor.Processor.ProcessSample | Source/PluginProcessor.cpp:171-259 | the new state and the output sample are those of `Chain.Step` |
| PluginProcessor.Processor.ProcessNextSample | Source/PluginProcessor.cpp:169-260 | after sample i is processed in place, the state and the channel's first i + 1 samples match the run; the rest of the channel is unchanged |
| PluginProcessor.Processor.ProcessChannel | Source/PluginProcessor.cpp:167-260 | the channel's samples, overwritten in place, and the new state are those of the channel's run |
| PluginProcessor.Processor.ProcessNextChannel | Source/PluginProcessor.cpp:165-261 | one more channel done in place: the state and outputs match the run over one more channel, and later channels are unchanged |
| PluginProcessor.Processor.ProcessChannels | Source/PluginProcessor.cpp:164-261 | the first n channels, overwritten in place, and the new state are those of the block run |
| PluginProcessor.Processor.RunKeepsValid | Source/PluginProcessor.cpp:164-261 | a state reached by a block run from a valid state is valid |
| PluginProcessor.Processor.ProcessInputs | Source/PluginProcessor.cpp:153-261 | the input channels and the new state are the block run with this block's delay length and cursor; the invariant is kept; bypassed, nothing changes |
| PluginProcessor.Processor.AdvanceCursor | Source/PluginProcessor.cpp:263-268 | the cursor becomes (cursor + block length) mod capacity and stays in range |
| PluginProcessor.Processor.ProcessBlock | Source/PluginProcessor.cpp:137-269 | the invariant is kept; the input channels and the new state are the block run over the old buffer; extra output channels are zero and all other channels unchanged; the cursor advances by the block length mod capacity when there is an input channel; bypassed, only the cursor moves |

## Left out

- The editor (Source/PluginEditor.h, Source/pluginEditor.cpp): knobs, painting and repaint timers, with no DSP state.
- Parameter plumbing: the parameter layout and the value-tree reads (Source/PluginProcessor.cpp:6-16, 148-151). The four amounts are the `Params` argument of `ProcessBlock`.
- State persistence (`getStateInformation`, `setStateInformation`), bus-layout negotiation, MIDI flags, program stubs and editor creation. These are host plumbing done by JUCE.
- `juce::ScopedNoDenormals`: denormal flushing is a floating-point mode, and samples here are reals.
- Floating-point rounding: samples, the amounts, the constants 0.01 and 0.1 and the phase are exact reals. The float32 arithmetic and the double-to-float casts are not modelled. Pi is the exact value of the float constant.
- `std::sin` and `powf`: both are function parameters. Only `exp2 > 0` is assumed; nothing is assumed about `sine`, so the phase invariant does not depend on it.
- The internals of `juce::Random`: it is modelled as a fixed stream of values in [0, 1) with a count of values taken.
- `samplesPerBlock`, the second argument of `prepareToPlay`, is unused by the source and ignored here.
- PluginProcessor.Processor.ProcessBlock: requires the following, where the source would index past the two-slot arrays, divide by zero or index a missing delay row:
  - at most two input channels;
  - a positive capacity when there is an input channel. Before the first prepare, or after a prepare at a rate below 10 Hz, `maxDelayInSamples` is 0 and the cursor update at Source/PluginProcessor.cpp:267 takes `% 0` on every block with an input channel. With neuronic active, the `jmax(1, …)` at line 159 makes the delay 1 even at capacity 0 (`Stages.DelayLengthAtZeroCapacity`), so lines 241 and 252 take `% 0` as well. The code has no guard that bypasses the delay when there is no delay line, so the model requires one;
  - a delay row per input channel when neuronic is active.
- Chain.StepHealthy: the bound of the phase below 2 pi holds only for sample rates of at least 25 Hz. Below that, one step of the tremolo can exceed 2 pi and a single subtraction does not wrap it back.
