/** The effect chain of one audio block as a pure function: the four stages run
    in order on every sample of every channel, with the decimator state, the
    tremolo phase, the random generator's position and the delay line carried
    from sample to sample. The processor's methods are proved equal to it. */
module Chain {
  import opened Stages

  /** The four knob values read once per block. */
  datatype Params = Params(glitch: real, corruption: real, malware: real, neuronic: real)

  /** Every parameter is declared with the range [0, 1]. */
  predicate InRange(p: Params)
  {
    0.0 <= p.glitch <= 1.0 && 0.0 <= p.corruption <= 1.0 &&
    0.0 <= p.malware <= 1.0 && 0.0 <= p.neuronic <= 1.0
  }

  predicate AllBypassed(p: Params)
  {
    !Active(p.glitch) && !Active(p.corruption) && !Active(p.malware) && !Active(p.neuronic)
  }

  /** The state a block reads and updates: per-channel held samples and hold
      counters, the shared tremolo phase, how many values were taken from the
      random generator, and the delay line (one row per channel). */
  datatype Engine = Engine(
    held: seq<real>,
    skip: seq<int>,
    phase: real,
    drawn: nat,
    line: seq<seq<real>>)

  /** What stays fixed during a block: the parameters, the crusher's step
      count, the delay length, the write cursor, the delay capacity, the
      sample rate, sin, and the generator's stream of values in [0, 1). */
  datatype BlockContext = BlockContext(
    p: Params,
    steps: real,
    delay: int,
    writePos: int,
    cap: int,
    sampleRate: real,
    sine: real -> real,
    random: nat -> real)

  /** Enough state for `channels` (at most two) channels: two decimator
      slots, and when the delay is engaged, a row for each of the channels
      and every row of the capacity. */
  predicate Fits(e: Engine, ctx: BlockContext, channels: nat)
  {
    channels <= 2 && |e.held| == 2 && |e.skip| == 2 &&
    ctx.steps > 0.0 && ctx.sampleRate > 0.0 &&
    (ctx.delay > 0 && channels > 0 ==>
       1 <= ctx.delay <= ctx.cap && 0 <= ctx.writePos && channels <= |e.line| &&
       forall k :: 0 <= k < |e.line| ==> |e.line[k]| == ctx.cap)
  }

  /** e' has as many slots and rows as e, each row of the same length. */
  predicate SameShape(e: Engine, e': Engine)
  {
    |e'.held| == |e.held| && |e'.skip| == |e.skip| && |e'.line| == |e.line| &&
    forall k :: 0 <= k < |e.line| ==> |e'.line[k]| == |e.line[k]|
  }

  /** The generator yields values in [0, 1). */
  ghost predicate Uniform(random: nat -> real)
  {
    forall k: nat :: 0.0 <= random(k) < 1.0
  }

  /** A context built the way a block builds it. */
  ghost predicate WellFormed(ctx: BlockContext)
  {
    InRange(ctx.p) && Uniform(ctx.random) && ctx.delay == DelayLength(ctx.p.neuronic, ctx.cap)
  }

  /** The invariant of the state: hold counters in [0, MaxHold), phase not
      negative, and below 2 pi whenever the sample rate is at least 25 Hz. */
  predicate Healthy(e: Engine, sampleRate: real)
  {
    |e.skip| == 2 && (forall k :: 0 <= k < 2 ==> 0 <= e.skip[k] < MaxHold) &&
    0.0 <= e.phase && (25.0 <= sampleRate ==> e.phase < TwoPi)
  }

  /** One sample x at index i of channel c through the four stages: the new
      state and the output sample. */
  function Step(e: Engine, ctx: BlockContext, c: nat, i: nat, x: real): (r: (Engine, real))
    requires Fits(e, ctx, c + 1)
    ensures SameShape(e, r.0)
  {
    // 1. glitch
    var dec := Decimate(x, ctx.p.glitch, Hold(e.held[c], e.skip[c]), ctx.random(e.drawn));
    var drawn1 := e.drawn + dec.draws;
    // 2. corruption
    var y2 := if Active(ctx.p.corruption) then Crush(dec.out, ctx.steps) else dec.out;
    // 3. malware
    var tremolo := Active(ctx.p.malware);
    var y3 := if tremolo then Tremolo(y2, ctx.p.malware, Modulator(ctx.sine(e.phase))) else y2;
    var phase3 :=
      if tremolo then
        AdvancePhase(e.phase, TremoloFrequency(ctx.p.malware, ctx.random(drawn1)), ctx.sampleRate)
      else e.phase;
    var drawn3 := if tremolo then drawn1 + 1 else drawn1;
    var e3 := Engine(e.held[c := dec.hold.held], e.skip[c := dec.hold.skip], phase3, drawn3, e.line);
    // 4. neuronic
    if ctx.delay > 0 then
      var delayed := e.line[c][ReadIndex(ctx.writePos, i, ctx.delay, ctx.cap)];
      var y4 := DelayMix(y3, delayed, ctx.p.neuronic);
      var w := RingSlot(ctx.writePos, i, ctx.cap);
      (e3.(line := e.line[c := e.line[c][w := Feedback(y4, delayed)]]), y4)
    else
      (e3, y3)
  }

  /** The first k channels of rows, channel 0 first, each whole: the state
      after them and their outputs. */
  function RunChannels(e: Engine, ctx: BlockContext, rows: seq<seq<real>>, k: nat): (r: (Engine, seq<seq<real>>))
    requires Fits(e, ctx, k) && k <= |rows|
    ensures SameShape(e, r.0) && |r.1| == k
    decreases k, 0, 0, 0
  {
    if k == 0 then (e, [])
    else
      var before := RunChannels(e, ctx, rows, k - 1);
      var last := RunSamples(e, ctx, rows, k - 1, |rows[k - 1]|);
      (last.0, before.1 + [last.1])
  }

  /** Channel c part way through: the state after the channels before c and
      the first n samples of c, and the outputs of those n samples. */
  function RunSamples(e: Engine, ctx: BlockContext, rows: seq<seq<real>>, c: nat, n: nat): (r: (Engine, seq<real>))
    requires Fits(e, ctx, c + 1) && c < |rows| && n <= |rows[c]|
    ensures SameShape(e, r.0) && |r.1| == n
    decreases c, 1, n, 0
  {
    if n == 0 then (RunChannels(e, ctx, rows, c).0, [])
    else
      var last := RunSample(e, ctx, rows, c, n - 1);
      (last.0, RunSamples(e, ctx, rows, c, n - 1).1 + [last.1])
  }

  /** Sample i of channel c through the chain, from the state the samples
      before it leave: the new state and the output sample. */
  function RunSample(e: Engine, ctx: BlockContext, rows: seq<seq<real>>, c: nat, i: nat): (r: (Engine, real))
    requires Fits(e, ctx, c + 1) && c < |rows| && i < |rows[c]|
    ensures SameShape(e, r.0)
    decreases c, 1, i, 1
  {
    Step(RunSamples(e, ctx, rows, c, i).0, ctx, c, i, rows[c][i])
  }

  // ---------------------------------------------------------------------------
  // Lemmas

  /** A block reads only its first k channels. */
  lemma {:induction false} RunChannelsReadsInputs(e: Engine, ctx: BlockContext, rows: seq<seq<real>>,
                                                  rows': seq<seq<real>>, k: nat)
    requires Fits(e, ctx, k) && k <= |rows| && k <= |rows'|
    requires forall j :: 0 <= j < k ==> rows[j] == rows'[j]
    ensures RunChannels(e, ctx, rows, k) == RunChannels(e, ctx, rows', k)
    decreases k, 0, 0
  {
    if k > 0 {
      RunChannelsReadsInputs(e, ctx, rows, rows', k - 1);
      RunSamplesReadsInputs(e, ctx, rows, rows', k - 1, |rows[k - 1]|);
    }
  }

  lemma {:induction false} RunSamplesReadsInputs(e: Engine, ctx: BlockContext, rows: seq<seq<real>>,
                                                 rows': seq<seq<real>>, c: nat, n: nat)
    requires Fits(e, ctx, c + 1) && c < |rows| && c < |rows'| && n <= |rows[c]|
    requires forall j :: 0 <= j <= c ==> rows[j] == rows'[j]
    ensures RunSamples(e, ctx, rows, c, n) == RunSamples(e, ctx, rows', c, n)
    decreases c, 1, n
  {
    if n == 0 {
      RunChannelsReadsInputs(e, ctx, rows, rows', c);
    } else {
      RunSamplesReadsInputs(e, ctx, rows, rows', c, n - 1);
    }
  }

  /** With every amount at or below the gate, a sample passes unchanged and
      no state moves. */
  lemma StepBypass(e: Engine, ctx: BlockContext, c: nat, i: nat, x: real)
    requires Fits(e, ctx, c + 1) && WellFormed(ctx) && AllBypassed(ctx.p)
    ensures Step(e, ctx, c, i, x) == (e, x)
  {
    assert e.held[c := e.held[c]] == e.held;
    assert e.skip[c := e.skip[c]] == e.skip;
  }

  /** Bypass identity for a whole block: every channel comes out as it went
      in and the state, the delay line included, is unchanged. */
  lemma {:induction false} RunChannelsBypass(e: Engine, ctx: BlockContext, rows: seq<seq<real>>, k: nat)
    requires Fits(e, ctx, k) && k <= |rows| && WellFormed(ctx) && AllBypassed(ctx.p)
    ensures RunChannels(e, ctx, rows, k) == (e, rows[..k])
    decreases k, 0, 0
  {
    if k > 0 {
      RunChannelsBypass(e, ctx, rows, k - 1);
      RunSamplesBypass(e, ctx, rows, k - 1, |rows[k - 1]|);
      assert rows[k - 1][..|rows[k - 1]|] == rows[k - 1];
      assert rows[..k - 1] + [rows[k - 1]] == rows[..k];
    }
  }

  lemma {:induction false} RunSamplesBypass(e: Engine, ctx: BlockContext, rows: seq<seq<real>>, c: nat, n: nat)
    requires Fits(e, ctx, c + 1) && c < |rows| && n <= |rows[c]| && WellFormed(ctx) && AllBypassed(ctx.p)
    ensures RunSamples(e, ctx, rows, c, n) == (e, rows[c][..n])
    decreases c, 1, n
  {
    if n == 0 {
      RunChannelsBypass(e, ctx, rows, c);
    } else {
      RunSamplesBypass(e, ctx, rows, c, n - 1);
      StepBypass(e, ctx, c, n - 1, rows[c][n - 1]);
      assert rows[c][..n - 1] + [rows[c][n - 1]] == rows[c][..n];
    }
  }

  /** The delay stage writes one slot: slot RingSlot(writePos, i) of channel
      c, with the output plus half the delayed sample; every other slot keeps
      its value, and with the delay bypassed no slot changes. */
  lemma StepWritesOneSlot(e: Engine, ctx: BlockContext, c: nat, i: nat, x: real)
    requires Fits(e, ctx, c + 1)
    ensures var r := Step(e, ctx, c, i, x);
            ctx.delay > 0 ==>
              var w := RingSlot(ctx.writePos, i, ctx.cap);
              var delayed := e.line[c][ReadIndex(ctx.writePos, i, ctx.delay, ctx.cap)];
              r.0.line[c][w] == r.1 + 0.5 * delayed &&
              forall k, j :: 0 <= k < |e.line| && 0 <= j < |e.line[k]| && (k, j) != (c, w) ==>
                r.0.line[k][j] == e.line[k][j]
    ensures ctx.delay <= 0 ==> Step(e, ctx, c, i, x).0.line == e.line
  {
  }

  /** Channel k's decimator slot and delay row are the same in s and s'. */
  predicate Untouched(s: Engine, s': Engine, k: nat)
  {
    (k < |s.held| && k < |s'.held| ==> s'.held[k] == s.held[k]) &&
    (k < |s.skip| && k < |s'.skip| ==> s'.skip[k] == s.skip[k]) &&
    (k < |s.line| && k < |s'.line| ==> s'.line[k] == s.line[k])
  }

  /** One sample of channel c leaves the decimator state and the delay row
      of every other channel alone. */
  lemma StepKeepsOtherChannels(e: Engine, ctx: BlockContext, c: nat, i: nat, x: real, k: nat)
    requires Fits(e, ctx, c + 1) && k != c
    ensures Untouched(e, Step(e, ctx, c, i, x).0, k)
  {
  }

  /** A channel's samples touch only that channel's decimator state and
      delay row. */
  lemma {:induction false} RunSamplesKeepsOtherChannels(e: Engine, ctx: BlockContext, rows: seq<seq<real>>,
                                                        c: nat, n: nat, k: nat)
    requires Fits(e, ctx, c + 1) && c < |rows| && n <= |rows[c]| && k != c
    ensures Untouched(RunChannels(e, ctx, rows, c).0, RunSamples(e, ctx, rows, c, n).0, k)
    decreases n
  {
    if n > 0 {
      RunSamplesKeepsOtherChannels(e, ctx, rows, c, n - 1, k);
      StepKeepsOtherChannels(RunSamples(e, ctx, rows, c, n - 1).0, ctx, c, n - 1, rows[c][n - 1], k);
    }
  }

  /** A block touches only the delay rows of its input channels. */
  lemma {:induction false} RunChannelsKeepsLaterRows(e: Engine, ctx: BlockContext, rows: seq<seq<real>>, n: nat, k: nat)
    requires Fits(e, ctx, n) && n <= |rows| && n <= k < |e.line|
    ensures RunChannels(e, ctx, rows, n).0.line[k] == e.line[k]
    decreases n
  {
    if n > 0 {
      RunChannelsKeepsLaterRows(e, ctx, rows, n - 1, k);
      RunSamplesKeepsOtherChannels(e, ctx, rows, n - 1, |rows[n - 1]|, k);
    }
  }

  /** One sample keeps the state invariant. */
  lemma StepHealthy(e: Engine, ctx: BlockContext, c: nat, i: nat, x: real)
    requires Fits(e, ctx, c + 1) && WellFormed(ctx) && Healthy(e, ctx.sampleRate)
    ensures Healthy(Step(e, ctx, c, i, x).0, ctx.sampleRate)
  {
    var u := ctx.random(e.drawn);
    assert 0.0 <= u < 1.0;
    var dec := Decimate(x, ctx.p.glitch, Hold(e.held[c], e.skip[c]), u);
    assert 0 <= dec.hold.skip < MaxHold;
    if Active(ctx.p.malware) {
      var u' := ctx.random(e.drawn + dec.draws);
      assert 0.0 <= u' < 1.0;
      var f := TremoloFrequency(ctx.p.malware, u');
      assert 0.0 <= f < 25.0;
    }
  }

  /** A whole block keeps the hold counters in [0, MaxHold) and the phase in
      range. */
  lemma {:induction false} RunChannelsHealthy(e: Engine, ctx: BlockContext, rows: seq<seq<real>>, k: nat)
    requires Fits(e, ctx, k) && k <= |rows| && WellFormed(ctx) && Healthy(e, ctx.sampleRate)
    ensures Healthy(RunChannels(e, ctx, rows, k).0, ctx.sampleRate)
    decreases k, 0, 0
  {
    if k > 0 {
      RunSamplesHealthy(e, ctx, rows, k - 1, |rows[k - 1]|);
    }
  }

  lemma {:induction false} RunSamplesHealthy(e: Engine, ctx: BlockContext, rows: seq<seq<real>>, c: nat, n: nat)
    requires Fits(e, ctx, c + 1) && c < |rows| && n <= |rows[c]| && WellFormed(ctx) && Healthy(e, ctx.sampleRate)
    ensures Healthy(RunSamples(e, ctx, rows, c, n).0, ctx.sampleRate)
    decreases c, 1, n
  {
    if n == 0 {
      RunChannelsHealthy(e, ctx, rows, c);
    } else {
      RunSamplesHealthy(e, ctx, rows, c, n - 1);
      StepHealthy(RunSamples(e, ctx, rows, c, n - 1).0, ctx, c, n - 1, rows[c][n - 1]);
    }
  }
}
