/** The audio processor: the DSP state it keeps between blocks and the three
    calls a host makes on it (prepare, release, process a block). The host's
    audio buffer is a channel-by-sample array processed in place; the delay
    line, which prepare and release resize, is a sequence of channel rows. */
module PluginProcessor {
  import opened Stages
  import opened Chain

  /** The samples of every channel of a buffer. */
  ghost function Contents(buffer: seq<array<real>>): seq<seq<real>>
    reads set a | a in buffer
  {
    seq(|buffer|, k requires 0 <= k < |buffer| reads set a | a in buffer => buffer[k][..])
  }

  /** No channel of a buffer is another one. */
  predicate DistinctChannels(buffer: seq<array<real>>)
  {
    forall k, l :: 0 <= k < l < |buffer| ==> buffer[k] != buffer[l]
  }

  /** The shape of a host buffer: distinct channels of numSamples samples each. */
  predicate IsAudioBuffer(buffer: seq<array<real>>, numSamples: nat)
  {
    (forall k :: 0 <= k < |buffer| ==> buffer[k].Length == numSamples) && DistinctChannels(buffer)
  }

  /** Silences one channel (`AudioBuffer::clear(channel, 0, numSamples)`). */
  method ClearChannel(channelData: array<real>)
    modifies channelData
    ensures forall j :: 0 <= j < channelData.Length ==> channelData[j] == 0.0
  {
    var j := 0;
    while j < channelData.Length
      invariant 0 <= j <= channelData.Length
      invariant forall j' :: 0 <= j' < j ==> channelData[j'] == 0.0
    {
      channelData[j] := 0.0;
      j := j + 1;
    }
  }

  /** The output channels from..to-1 of the buffer silenced; every other
      channel untouched. */
  method ClearOutputs(buffer: seq<array<real>>, numSamples: nat, from: nat, to: nat)
    requires IsAudioBuffer(buffer, numSamples) && to <= |buffer|
    modifies set a | a in buffer
    ensures forall k, j :: from <= k < to && 0 <= j < numSamples ==> buffer[k][j] == 0.0
    ensures forall k :: 0 <= k < |buffer| && (k < from || to <= k) ==> buffer[k][..] == old(buffer[k][..])
  {
    var ch := from;
    while ch < to
      invariant from <= ch
      invariant ch <= to || ch == from
      invariant forall k, j :: from <= k < ch && 0 <= j < numSamples ==> buffer[k][j] == 0.0
      invariant forall k :: 0 <= k < |buffer| && (k < from || ch <= k) ==> buffer[k][..] == old(buffer[k][..])
    {
      ClearChannel(buffer[ch]);
      ch := ch + 1;
    }
  }

  class Processor {
    /** The random generator: the stream of values in [0, 1) it yields, and
        how many of them have been taken. */
    const random: nat -> real
    var randomDraws: nat

    var currentSampleRate: real

    // glitch: held sample and hold counter of each of the two channels
    const sampleAccumulator: array<real>
    const skipCounter: array<int>

    // malware: the tremolo's phase, shared by the channels
    var tremoloPhase: real

    // neuronic: the delay line (one row of samples per channel), its write
    // cursor and its capacity
    var delayBuffer: seq<seq<real>>
    var writePosition: int
    var maxDelayInSamples: int

    /** The part of the object invariant that processing a sample leaves
        alone: two decimator slots, a generator yielding values in [0, 1),
        a positive sample rate, and the cursor inside the capacity. */
    ghost predicate Static()
      reads this`currentSampleRate, this`maxDelayInSamples, this`writePosition
    {
      sampleAccumulator.Length == 2 && skipCounter.Length == 2 &&
      Uniform(random) &&
      0.0 < currentSampleRate &&
      0 <= maxDelayInSamples &&
      0 <= writePosition && (writePosition < maxDelayInSamples || writePosition == 0)
    }

    /** The object invariant: the hold counters in [0, MaxHold), the tremolo
        phase in range, and every delay row as long as the capacity. */
    ghost predicate Valid()
      reads this, sampleAccumulator, skipCounter
    {
      Static() && Healthy(State(), currentSampleRate) &&
      forall k :: 0 <= k < |delayBuffer| ==> |delayBuffer[k]| == maxDelayInSamples
    }

    /** The state a block reads and updates. */
    ghost function State(): Engine
      reads this`tremoloPhase, this`randomDraws, this`delayBuffer, sampleAccumulator, skipCounter
    {
      Engine(sampleAccumulator[..], skipCounter[..], tremoloPhase, randomDraws, delayBuffer)
    }

    /** What a block with parameters p keeps fixed. */
    ghost function Context(p: Params, sine: real -> real, exp2: real -> real): BlockContext
      reads this
    {
      BlockContext(p, exp2(BitDepth(p.corruption)), DelayLength(p.neuronic, maxDelayInSamples),
                   writePosition, maxDelayInSamples, currentSampleRate, sine, random)
    }

    /** A new processor, before any prepare: no delay capacity, cursor 0,
        phase 0, both decimator slots 0, sample rate 44100 Hz. */
    constructor (random: nat -> real)
      requires Uniform(random)
      ensures Valid()
      ensures this.random == random && randomDraws == 0
      ensures currentSampleRate == 44100.0
      ensures sampleAccumulator[..] == [0.0, 0.0] && skipCounter[..] == [0, 0]
      ensures tremoloPhase == 0.0
      ensures maxDelayInSamples == 0 && writePosition == 0
      ensures delayBuffer == []
      ensures fresh(sampleAccumulator) && fresh(skipCounter)
    {
      this.random := random;
      randomDraws := 0;
      currentSampleRate := 44100.0;
      sampleAccumulator := new real[2](_ => 0.0);
      skipCounter := new int[2](_ => 0);
      tremoloPhase := 0.0;
      delayBuffer := [];
      writePosition := 0;
      maxDelayInSamples := 0;
    }

    /** prepareToPlay: size the delay line to 100 ms at the new sample rate
        for the output channels, clear it, and reset the cursor, both
        decimator slots and the phase. */
    method Prepare(sampleRate: real, samplesPerBlock: int, numOutputChannels: nat)
      requires Valid()
      requires 0.0 < sampleRate
      modifies this, sampleAccumulator, skipCounter
      ensures Valid()
      ensures currentSampleRate == sampleRate
      ensures maxDelayInSamples == DelayCapacity(sampleRate)
      ensures 10.0 <= sampleRate ==> 1 <= maxDelayInSamples
      ensures |delayBuffer| == numOutputChannels
      ensures forall k :: 0 <= k < |delayBuffer| ==> |delayBuffer[k]| == maxDelayInSamples
      ensures forall k, j :: 0 <= k < |delayBuffer| && 0 <= j < |delayBuffer[k]| ==>
                delayBuffer[k][j] == 0.0
      ensures writePosition == 0
      ensures sampleAccumulator[..] == [0.0, 0.0] && skipCounter[..] == [0, 0]
      ensures tremoloPhase == 0.0
      ensures randomDraws == old(randomDraws)
    {
      currentSampleRate := sampleRate;
      var capacity := DelayCapacity(sampleRate);
      maxDelayInSamples := capacity;
      delayBuffer := seq(numOutputChannels, _ => seq(capacity, _ => 0.0));
      writePosition := 0;
      sampleAccumulator[0] := 0.0;
      sampleAccumulator[1] := 0.0;
      skipCounter[0] := 0;
      skipCounter[1] := 0;
      tremoloPhase := 0.0;
      assert sampleAccumulator[..] == [0.0, 0.0] && skipCounter[..] == [0, 0];
      assert Healthy(State(), currentSampleRate);
    }

    /** releaseResources: the delay line shrinks to no channels and no
        samples. The capacity and the cursor keep their values. */
    method Release()
      requires Valid()
      modifies this`delayBuffer
      ensures Valid()
      ensures delayBuffer == []
    {
      delayBuffer := [];
    }

    /** Stage 1, glitch: sample-rate reduction of channel c. Holds a sample
        for a random number of samples, drawing a new hold length when the
        counter runs out. */
    method DecimatorStage(glitch: real, c: nat, x: real) returns (y: real)
      requires c < 2 && sampleAccumulator.Length == 2 && skipCounter.Length == 2
      modifies this`randomDraws, sampleAccumulator, skipCounter
      ensures var dec := Decimate(x, glitch, Hold(old(sampleAccumulator[c]), old(skipCounter[c])),
                                  random(old(randomDraws)));
              y == dec.out && randomDraws == old(randomDraws) + dec.draws &&
              sampleAccumulator[..] == old(sampleAccumulator[..])[c := dec.hold.held] &&
              skipCounter[..] == old(skipCounter[..])[c := dec.hold.skip]
    {
      y := x;
      if Active(glitch) {
        var maxSkipFactor := MaxSkipFactor(glitch);
        if skipCounter[c] <= 0 {
          sampleAccumulator[c] := y;
          skipCounter[c] := NextInt(random(randomDraws), maxSkipFactor) + 1;
          randomDraws := randomDraws + 1;
        }
        y := sampleAccumulator[c];
        skipCounter[c] := skipCounter[c] - 1;
      }
    }

    /** Stage 3, malware: the tremolo at the current phase, at a frequency
        drawn afresh for this sample; the phase then advances. */
    method TremoloStage(malware: real, sine: real -> real, x: real) returns (y: real)
      requires 0.0 < currentSampleRate
      modifies this`tremoloPhase, this`randomDraws
      ensures !Active(malware) ==>
                y == x && tremoloPhase == old(tremoloPhase) && randomDraws == old(randomDraws)
      ensures Active(malware) ==>
                y == Tremolo(x, malware, Modulator(sine(old(tremoloPhase)))) &&
                tremoloPhase == AdvancePhase(old(tremoloPhase),
                                             TremoloFrequency(malware, random(old(randomDraws))),
                                             currentSampleRate) &&
                randomDraws == old(randomDraws) + 1
    {
      y := x;
      if Active(malware) {
        var tremoloFreq := TremoloFrequency(malware, random(randomDraws));
        randomDraws := randomDraws + 1;
        y := Tremolo(y, malware, Modulator(sine(tremoloPhase)));
        tremoloPhase := AdvancePhase(tremoloPhase, tremoloFreq, currentSampleRate);
      }
    }

    /** Stage 4, neuronic: mixes in the sample `delay` positions behind the
        write index of sample i and writes the output plus half the delayed
        sample back at the write index of channel c. */
    method DelayStage(neuronic: real, delay: int, c: nat, i: nat, x: real) returns (y: real)
      requires 1 <= delay <= maxDelayInSamples && 0 <= writePosition
      requires c < |delayBuffer| && |delayBuffer[c]| == maxDelayInSamples
      modifies this`delayBuffer
      ensures var delayed := old(delayBuffer)[c][ReadIndex(writePosition, i, delay, maxDelayInSamples)];
              var slot := RingSlot(writePosition, i, maxDelayInSamples);
              y == DelayMix(x, delayed, neuronic) &&
              delayBuffer == old(delayBuffer)[c := old(delayBuffer)[c][slot := Feedback(y, delayed)]]
    {
      var readPosition := ReadIndex(writePosition, i, delay, maxDelayInSamples);
      var delayedSample := delayBuffer[c][readPosition];
      y := DelayMix(x, delayedSample, neuronic);
      var writeIndex := RingSlot(writePosition, i, maxDelayInSamples);
      delayBuffer := delayBuffer[c := delayBuffer[c][writeIndex := Feedback(y, delayedSample)]];
    }

    /** One sample x, at index i of channel c, through the four stages. */
    method ProcessSample(ctx: BlockContext, c: nat, i: nat, x: real) returns (y: real)
      requires Static()
      requires ctx.writePos == writePosition && ctx.cap == maxDelayInSamples
      requires ctx.sampleRate == currentSampleRate && ctx.random == random
      requires Fits(State(), ctx, c + 1)
      modifies this`tremoloPhase, this`randomDraws, this`delayBuffer, sampleAccumulator, skipCounter
      ensures (State(), y) == Step(old(State()), ctx, c, i, x)
    {
      ghost var e := State();
      y := DecimatorStage(ctx.p.glitch, c, x);
      if Active(ctx.p.corruption) {
        y := Crush(y, ctx.steps);
      }
      y := TremoloStage(ctx.p.malware, ctx.sine, y);
      if ctx.delay > 0 {
        assert |e.line[c]| == maxDelayInSamples;
        y := DelayStage(ctx.p.neuronic, ctx.delay, c, i, y);
      }
    }

    /** Sample `sample` of channel `channel` through the chain, written back
        in place: one more sample of the block's run over the input rows. */
    method ProcessNextSample(channelData: array<real>, ctx: BlockContext, channel: nat, sample: nat,
                             ghost e: Engine, ghost rows: seq<seq<real>>, ghost out: seq<real>)
      returns (ghost out': seq<real>)
      requires Static()
      requires ctx.writePos == writePosition && ctx.cap == maxDelayInSamples
      requires ctx.sampleRate == currentSampleRate && ctx.random == random
      requires channelData != sampleAccumulator
      requires channel < |rows| && sample < channelData.Length == |rows[channel]| && Fits(e, ctx, channel + 1)
      requires (State(), out) == RunSamples(e, ctx, rows, channel, sample)
      requires channelData[..sample] == out && channelData[sample..] == rows[channel][sample..]
      modifies channelData, this`tremoloPhase, this`randomDraws, this`delayBuffer, sampleAccumulator, skipCounter
      ensures (State(), out') == RunSamples(e, ctx, rows, channel, sample + 1)
      ensures channelData[..sample + 1] == out' && channelData[sample + 1..] == rows[channel][sample + 1..]
    {
      var y := ProcessSample(ctx, channel, sample, channelData[sample]);
      channelData[sample] := y;
      out' := out + [y];
    }

    /** The samples of input channel `channel`, in order, through the chain,
        each output written back in place of its input, starting from the
        state the channels before it left. */
    method ProcessChannel(channelData: array<real>, ctx: BlockContext, channel: nat,
                          ghost e: Engine, ghost rows: seq<seq<real>>)
      requires Static()
      requires ctx.writePos == writePosition && ctx.cap == maxDelayInSamples
      requires ctx.sampleRate == currentSampleRate && ctx.random == random
      requires channel < |rows| && Fits(e, ctx, channel + 1)
      requires State() == RunChannels(e, ctx, rows, channel).0 && channelData[..] == rows[channel]
      requires channelData != sampleAccumulator
      modifies channelData, this`tremoloPhase, this`randomDraws, this`delayBuffer, sampleAccumulator, skipCounter
      ensures (State(), channelData[..]) == RunSamples(e, ctx, rows, channel, channelData.Length)
    {
      ghost var out: seq<real> := [];
      var sample := 0;
      while sample < channelData.Length
        invariant 0 <= sample <= channelData.Length
        invariant Static()
        invariant (State(), out) == RunSamples(e, ctx, rows, channel, sample)
        invariant channelData[..sample] == out && channelData[sample..] == rows[channel][sample..]
      {
        out := ProcessNextSample(channelData, ctx, channel, sample, e, rows, out);
        sample := sample + 1;
      }
      assert channelData[..sample] == channelData[..];
    }

    /** Channel `channel` of the buffer through the chain in place: one more
        channel of the block's run over the input rows. */
    method ProcessNextChannel(buffer: seq<array<real>>, ctx: BlockContext, channel: nat, n: nat,
                              ghost e: Engine, ghost rows: seq<seq<real>>, ghost outs: seq<seq<real>>)
      returns (ghost outs': seq<seq<real>>)
      requires Static()
      requires ctx.writePos == writePosition && ctx.cap == maxDelayInSamples
      requires ctx.sampleRate == currentSampleRate && ctx.random == random
      requires channel < n <= |buffer| && n <= |rows| && Fits(e, ctx, n)
      requires DistinctChannels(buffer) && sampleAccumulator !in buffer
      requires (State(), outs) == RunChannels(e, ctx, rows, channel)
      requires forall k :: 0 <= k < channel ==> buffer[k][..] == outs[k]
      requires forall k :: channel <= k < n ==> buffer[k][..] == rows[k]
      modifies buffer[channel], this`tremoloPhase, this`randomDraws, this`delayBuffer, sampleAccumulator, skipCounter
      ensures Static()
      ensures (State(), outs') == RunChannels(e, ctx, rows, channel + 1)
      ensures forall k :: 0 <= k < channel + 1 ==> buffer[k][..] == outs'[k]
      ensures forall k :: channel + 1 <= k < n ==> buffer[k][..] == rows[k]
    {
      ProcessChannel(buffer[channel], ctx, channel, e, rows);
      outs' := outs + [buffer[channel][..]];
    }

    /** The first n channels of the buffer, holding the rows `rows`, channel 0
        first, each through the chain in place; the later channels are left
        alone. */
    method ProcessChannels(buffer: seq<array<real>>, ctx: BlockContext, n: nat, ghost rows: seq<seq<real>>)
      requires Static()
      requires ctx.writePos == writePosition && ctx.cap == maxDelayInSamples
      requires ctx.sampleRate == currentSampleRate && ctx.random == random
      requires Fits(State(), ctx, n) && n <= |buffer| && n <= |rows|
      requires DistinctChannels(buffer)
      requires sampleAccumulator !in buffer
      requires forall k :: 0 <= k < n ==> buffer[k][..] == rows[k]
      modifies set k | 0 <= k < n :: buffer[k]
      modifies this`tremoloPhase, this`randomDraws, this`delayBuffer, sampleAccumulator, skipCounter
      ensures Static()
      ensures var run := RunChannels(old(State()), ctx, rows, n);
              State() == run.0 && forall k :: 0 <= k < n ==> buffer[k][..] == run.1[k]
    {
      ghost var e := State();
      ghost var outs: seq<seq<real>> := [];
      var channel := 0;
      while channel < n
        invariant 0 <= channel <= n
        invariant Static()
        invariant (State(), outs) == RunChannels(e, ctx, rows, channel)
        invariant forall k :: 0 <= k < channel ==> buffer[k][..] == outs[k]
        invariant forall k :: channel <= k < n ==> buffer[k][..] == rows[k]
      {
        outs := ProcessNextChannel(buffer, ctx, channel, n, e, rows, outs);
        channel := channel + 1;
      }
    }

    /** The delay cursor moved on by a block of numSamples samples, wrapped
        to the capacity. */
    method AdvanceCursor(numSamples: nat)
      requires Valid() && 0 < maxDelayInSamples
      modifies this`writePosition
      ensures Valid()
      ensures writePosition == RingSlot(old(writePosition), numSamples, maxDelayInSamples)
    {
      writePosition := RingSlot(writePosition, numSamples, maxDelayInSamples);
    }

    /** A state reached by running a block from a valid state is valid. */
    lemma RunKeepsValid(e: Engine, ctx: BlockContext, rows: seq<seq<real>>, n: nat)
      requires Static() && WellFormed(ctx) && ctx.sampleRate == currentSampleRate
      requires Fits(e, ctx, n) && n <= |rows|
      requires Healthy(e, currentSampleRate)
      requires forall k :: 0 <= k < |e.line| ==> |e.line[k]| == maxDelayInSamples
      requires State() == RunChannels(e, ctx, rows, n).0
      ensures Valid()
    {
      RunChannelsHealthy(e, ctx, rows, n);
    }

    /** The input channels of a block, holding the rows `rows`, through the
        chain in place, with this block's parameters, delay length and
        delay cursor. */
    method ProcessInputs(buffer: seq<array<real>>, numSamples: nat, numInputChannels: nat,
                         p: Params, sine: real -> real, exp2: real -> real,
                         ghost e: Engine, ghost ctx: BlockContext, ghost rows: seq<seq<real>>)
      requires Valid() && State() == e && Context(p, sine, exp2) == ctx
      requires InRange(p)
      requires forall b :: 0.0 < exp2(b)
      requires IsAudioBuffer(buffer, numSamples) && sampleAccumulator !in buffer
      requires numInputChannels <= 2 && numInputChannels <= |buffer| && numInputChannels <= |rows|
      requires 0 < numInputChannels ==> 0 < maxDelayInSamples
      requires 0 < numInputChannels && Active(p.neuronic) ==> numInputChannels <= |delayBuffer|
      requires forall k :: 0 <= k < numInputChannels ==> buffer[k][..] == rows[k]
      modifies this`tremoloPhase, this`randomDraws, this`delayBuffer
      modifies set k | 0 <= k < numInputChannels :: buffer[k]
      modifies sampleAccumulator, skipCounter
      ensures Valid()
      ensures Fits(e, ctx, numInputChannels)
      ensures var run := RunChannels(e, ctx, rows, numInputChannels);
              State() == run.0 &&
              forall k :: 0 <= k < numInputChannels ==> buffer[k][..] == run.1[k]
      ensures AllBypassed(p) ==>
                State() == e &&
                forall k :: 0 <= k < numInputChannels ==> buffer[k][..] == rows[k]
    {
      var delayInSamples := DelayLength(p.neuronic, maxDelayInSamples);
      var blockCtx := BlockContext(p, exp2(BitDepth(p.corruption)), delayInSamples, writePosition,
                                   maxDelayInSamples, currentSampleRate, sine, random);
      assert blockCtx == ctx;
      ProcessChannels(buffer, blockCtx, numInputChannels, rows);
      RunKeepsValid(e, ctx, rows, numInputChannels);

      if AllBypassed(p) {
        RunChannelsBypass(e, ctx, rows, numInputChannels);
      }
    }

    /** processBlock: silence the output channels that have no input, run
        every input channel through the chain sample by sample in place, then
        advance the delay cursor by the block length. */
    method ProcessBlock(buffer: seq<array<real>>, numSamples: nat,
                        numInputChannels: nat, numOutputChannels: nat,
                        p: Params, sine: real -> real, exp2: real -> real)
      requires Valid()
      requires InRange(p)
      requires forall b :: 0.0 < exp2(b)
      requires IsAudioBuffer(buffer, numSamples) && sampleAccumulator !in buffer
      requires numInputChannels <= 2
      requires numInputChannels <= |buffer| && numOutputChannels <= |buffer|
      requires 0 < numInputChannels ==> 0 < maxDelayInSamples
      requires 0 < numInputChannels && Active(p.neuronic) ==> numInputChannels <= |delayBuffer|
      modifies this`tremoloPhase, this`randomDraws, this`delayBuffer, this`writePosition
      modifies set a | a in buffer
      modifies sampleAccumulator, skipCounter
      ensures Valid()
      ensures Fits(old(State()), old(Context(p, sine, exp2)), numInputChannels)
      ensures var run := RunChannels(old(State()), old(Context(p, sine, exp2)),
                                     old(Contents(buffer)), numInputChannels);
              State() == run.0 &&
              forall k :: 0 <= k < numInputChannels ==> buffer[k][..] == run.1[k]
      ensures forall k, j :: numInputChannels <= k < numOutputChannels && 0 <= j < numSamples ==>
                buffer[k][j] == 0.0
      ensures forall k :: numInputChannels <= k < |buffer| && numOutputChannels <= k ==>
                buffer[k][..] == old(buffer[k][..])
      ensures writePosition ==
                if 0 < numInputChannels
                then RingSlot(old(writePosition), numSamples, maxDelayInSamples)
                else old(writePosition)
      ensures AllBypassed(p) ==>
                State() == old(State()) &&
                forall k :: 0 <= k < numInputChannels ==> buffer[k][..] == old(buffer[k][..])
    {
      ghost var rowsIn := Contents(buffer);
      ghost var e0, ctx0 := State(), Context(p, sine, exp2);

      // Clear any output channels that didn't contain input data.
      ClearOutputs(buffer, numSamples, numInputChannels, numOutputChannels);
      ProcessInputs(buffer, numSamples, numInputChannels, p, sine, exp2, e0, ctx0, rowsIn);

      // Update write position after the loop.
      if 0 < numInputChannels {
        AdvanceCursor(numSamples);
      }
    }
  }
}
