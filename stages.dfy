/** The per-sample formulas of the effect chain: parameter mappings, the four
    stages' arithmetic and the circular-buffer index arithmetic. Samples are
    reals; C++'s `(int)` cast and `%` operator are written out explicitly
    because both truncate toward zero. */
module Stages {

  function Abs(x: real): real { if x < 0.0 then -x else x }
  function Min(a: real, b: real): real { if a <= b then a else b }
  function Max(a: real, b: real): real { if a <= b then b else a }

  // ---------------------------------------------------------------------------
  // Arithmetic facts the proofs below rely on

  lemma MulAtLeast(n: int, b: int)
    requires n >= 1 && b > 0
    ensures n * b >= b
  {
  }

  /** Euclidean division has one quotient and one remainder. */
  lemma DivModUnique(a: int, b: int, q: int, r: int)
    requires b > 0 && 0 <= r < b && a == q * b + r
    ensures a / b == q && a % b == r
  {
    var q0, r0 := a / b, a % b;
    assert a == q0 * b + r0;
    if q > q0 {
      MulAtLeast(q - q0, b);
    } else if q < q0 {
      MulAtLeast(q0 - q, b);
    }
  }

  /** A weight in [0, 1] scales w to a value between 0 and w. */
  lemma MulBetween(v: real, w: real)
    requires 0.0 <= v <= 1.0
    ensures 0.0 <= w ==> 0.0 <= v * w <= w
    ensures w <= 0.0 ==> w <= v * w <= 0.0
  {
    assert w - v * w == (1.0 - v) * w;
  }

  lemma MulStrict(a: real, b: real, c: real)
    requires a < b && 0.0 < c
    ensures a * c < b * c
  {
    assert b * c - a * c == (b - a) * c;
  }

  lemma DivCancel(y: real, s: real)
    requires s > 0.0
    ensures y / s * s == y
  {
  }

  lemma MulMonotone(a: real, b: real, c: real)
    requires a <= b && 0.0 <= c
    ensures a * c <= b * c
  {
    assert b * c - a * c == (b - a) * c;
  }

  /** Adding a multiple of cap does not change the residue. */
  lemma ModMultiple(d: int, q: int, cap: int)
    requires cap > 0
    ensures (d + q * cap) % cap == d % cap
  {
    DivModUnique(d + q * cap, cap, d / cap + q, d % cap);
  }

  /** A stage runs only when its amount is above this gate. */
  const Gate: real := 0.01

  predicate Active(amount: real) { amount > Gate }

  /** `juce::jmap(v, 0, 1, lo, hi)`: the linear map of [0, 1] onto [lo, hi]. */
  function JMap(v: real, lo: real, hi: real): (r: real)
    ensures 0.0 <= v <= 1.0 && lo <= hi ==> lo <= r <= hi
    ensures 0.0 <= v <= 1.0 && hi <= lo ==> hi <= r <= lo
  {
    var span := hi - lo;
    if 0.0 <= v <= 1.0 then
      MulBetween(v, span);
      lo + v * span
    else
      lo + v * span
  }

  /** C++ `(int)x`: conversion toward zero. */
  function Trunc(x: real): (n: int)
    ensures 0.0 <= x ==> 0 <= n && n as real <= x < n as real + 1.0
    ensures x < 0.0 ==> n <= 0 && n as real - 1.0 < x <= n as real
  {
    if x >= 0.0 then x.Floor else -((-x).Floor)
  }

  /** C++ `a % b` for b > 0: the remainder takes the sign of the dividend. */
  function CRem(a: int, b: int): (r: int)
    requires b > 0
    ensures 0 <= a ==> 0 <= r < b
    ensures a < 0 ==> -b < r <= 0
    ensures (a - r) % b == 0
  {
    if a >= 0 then
      assert (a - a % b) % b == 0 by { DivModUnique(a - a % b, b, a / b, 0); }
      a % b
    else
      assert (a + (-a) % b) % b == 0 by { DivModUnique(a + (-a) % b, b, -((-a) / b), 0); }
      -((-a) % b)
  }

  /** `random.nextInt(n)`, where u in [0, 1) is the generator's next value. */
  function NextInt(u: real, n: int): (r: int)
    ensures 0.0 <= u < 1.0 && 1 <= n ==> 0 <= r < n
  {
    assert 0.0 <= u < 1.0 && 1 <= n ==> 0.0 <= u * n as real < n as real by {
      if 0.0 <= u < 1.0 && 1 <= n {
        assert (1.0 - u) * n as real > 0.0;
      }
    }
    (u * n as real).Floor
  }

  // ---------------------------------------------------------------------------
  // 1. Glitch: the decimator (Source/PluginProcessor.cpp:177-189)

  /** A hold counter is never larger than this bound after a draw. */
  const MaxHold: int := 100

  /** Longest hold, in samples, for a glitch amount: 1 at amount 0 up to 100. */
  function MaxSkipFactor(glitch: real): (m: int)
    ensures 0.0 <= glitch <= 1.0 ==> 1 <= m <= MaxHold
  {
    Trunc(JMap(glitch, 1.0, 100.0))
  }

  /** The per-channel decimator state: the held sample and the hold counter. */
  datatype Hold = Hold(held: real, skip: int)

  /** Output of one decimator step, its new state and how many random values
      it took from the generator (0 or 1). */
  datatype Decimated = Decimated(out: real, hold: Hold, draws: nat)

  /** One decimator step on input x, with u the generator's next value. */
  function Decimate(x: real, glitch: real, h: Hold, u: real): (r: Decimated)
    // bypassed: the sample passes through and the state is untouched
    ensures !Active(glitch) ==> r == Decimated(x, h, 0)
    // engaged: the output is always the held sample
    ensures Active(glitch) ==> r.out == r.hold.held
    // engaged mid-hold: same held sample, counter one lower, no draw
    ensures Active(glitch) && h.skip > 0 ==> r.hold == Hold(h.held, h.skip - 1) && r.draws == 0
    // engaged at the end of a hold: capture x and start a hold of 1..MaxSkipFactor samples
    ensures Active(glitch) && h.skip <= 0 ==> r.hold.held == x && r.draws == 1
    ensures Active(glitch) && h.skip <= 0 && glitch <= 1.0 && 0.0 <= u < 1.0 ==>
              0 <= r.hold.skip < MaxSkipFactor(glitch)
    // the counter stays in [0, MaxHold) for amounts in range
    ensures 0.0 <= glitch <= 1.0 && 0.0 <= u < 1.0 && 0 <= h.skip < MaxHold ==>
              0 <= r.hold.skip < MaxHold
  {
    if !Active(glitch) then Decimated(x, h, 0)
    else
      var captured := if h.skip <= 0 then Hold(x, NextInt(u, MaxSkipFactor(glitch)) + 1) else h;
      Decimated(captured.held, Hold(captured.held, captured.skip - 1), if h.skip <= 0 then 1 else 0)
  }

  // ---------------------------------------------------------------------------
  // 2. Corruption: the bit crusher (Source/PluginProcessor.cpp:194-202)

  /** Effective bit depth: 16 bits at amount 0 down to 2 bits at amount 1. */
  function BitDepth(corruption: real): (b: real)
    ensures 0.0 <= corruption <= 1.0 ==> 2.0 <= b <= 16.0
  {
    JMap(corruption, 16.0, 2.0)
  }

  /** Quantizes x down to the grid of step 1/steps: `floor(x * steps) / steps`. */
  function Crush(x: real, steps: real): (q: real)
    requires steps > 0.0
    ensures q <= x < q + 1.0 / steps
  {
    var k := (x * steps).Floor;
    GridBracket(x, steps, k);
    k as real / steps
  }

  /** k / s is the grid point below x when k <= x * s < k + 1. */
  lemma GridBracket(x: real, s: real, k: int)
    requires s > 0.0 && k as real <= x * s < k as real + 1.0
    ensures k as real / s <= x < k as real / s + 1.0 / s
  {
    var q := k as real / s;
    DivCancel(k as real, s);
    if x < q { MulStrict(x, q, s); }
    var q1 := q + 1.0 / s;
    assert q1 * s == k as real + 1.0 by {
      DivCancel(1.0, s);
      assert q1 * s == q * s + 1.0 / s * s;
    }
    if q1 <= x { MulMonotone(q1, x, s); }
  }

  // ---------------------------------------------------------------------------
  // 3. Malware: the randomized tremolo (Source/PluginProcessor.cpp:207-228)

  /** The float value of `juce::MathConstants<float>::pi`. */
  const Pi: real := 3.1415927410125732421875
  const TwoPi: real := 2.0 * Pi

  /** Tremolo frequency in Hz: 1..15 Hz from the amount, plus up to
      10 * amount Hz of jitter from the generator's next value u. */
  function TremoloFrequency(amount: real, u: real): (f: real)
    ensures 0.0 <= amount <= 1.0 && 0.0 <= u < 1.0 ==> 1.0 <= f < 25.0
  {
    assert 0.0 <= amount <= 1.0 && 0.0 <= u < 1.0 ==> 0.0 <= u * amount < 1.0 by {
      if 0.0 <= amount <= 1.0 && 0.0 <= u < 1.0 {
        assert u * amount <= u * 1.0;
      }
    }
    JMap(amount, 1.0, 15.0) + u * 10.0 * amount
  }

  /** The modulator `0.5 * sin(phase) + 0.5`, from the value of sin(phase). */
  function Modulator(sine: real): (m: real)
    ensures -1.0 <= sine <= 1.0 ==> 0.0 <= m <= 1.0
  {
    sine * 0.5 + 0.5
  }

  /** Dry/wet mix of x and x * m, weighted by the amount. */
  function Tremolo(x: real, amount: real, m: real): (y: real)
    ensures 0.0 <= amount <= 1.0 && 0.0 <= m <= 1.0 ==> Abs(y) <= Abs(x)
    ensures amount == 1.0 ==> y == x * m
  {
    var y := x * (1.0 - amount) + (x * m) * amount;
    if 0.0 <= amount <= 1.0 && 0.0 <= m <= 1.0 then
      // the blend is x scaled by a gain in [0, 1]
      var gain := 1.0 - amount + m * amount;
      assert y == gain * x;
      GainInUnit(amount, m);
      MulBetween(gain, x);
      y
    else
      y
  }

  /** The tremolo's gain 1 - amount + m * amount lies in [0, 1]. */
  lemma GainInUnit(amount: real, m: real)
    requires 0.0 <= amount <= 1.0 && 0.0 <= m <= 1.0
    ensures 0.0 <= 1.0 - amount + m * amount <= 1.0
  {
    MulBetween(m, amount);
  }

  /** The phase after one sample at frequency freq, wrapped by one subtraction. */
  function AdvancePhase(phase: real, freq: real, sampleRate: real): (next: real)
    requires sampleRate > 0.0
    ensures 0.0 <= phase && 0.0 <= freq ==> 0.0 <= next
    ensures 0.0 <= phase < TwoPi && 0.0 <= freq < sampleRate ==> next < TwoPi
  {
    var step := TwoPi * freq / sampleRate;
    assert 0.0 <= freq ==> 0.0 <= step;
    assert 0.0 <= freq < sampleRate ==> step < TwoPi by {
      if 0.0 <= freq < sampleRate {
        assert freq / sampleRate < 1.0;
        assert step == TwoPi * (freq / sampleRate);
      }
    }
    var p := phase + step;
    if p >= TwoPi then p - TwoPi else p
  }

  // ---------------------------------------------------------------------------
  // 4. Neuronic: the feedback delay (Source/PluginProcessor.cpp:95-113, 154-160, 233-268)

  /** Longest delay, in seconds. */
  const MaxDelayTimeSeconds: real := 0.1

  /** Delay-line capacity in samples for a sample rate: `(int)(0.1 * rate)`. */
  function DelayCapacity(sampleRate: real): (cap: int)
    ensures 0.0 <= sampleRate ==>
              0 <= cap && cap as real <= MaxDelayTimeSeconds * sampleRate < cap as real + 1.0
    ensures 10.0 <= sampleRate ==> 1 <= cap
  {
    Trunc(MaxDelayTimeSeconds * sampleRate)
  }

  /** Delay length for a neuronic amount: 0 when bypassed, otherwise
      1 sample at amount 0 up to the whole capacity at amount 1. */
  function DelayLength(neuronic: real, cap: int): (d: int)
    ensures !Active(neuronic) <==> d == 0
    ensures Active(neuronic) ==> 1 <= d
    ensures Active(neuronic) && neuronic <= 1.0 && 1 <= cap ==> d <= cap
    ensures neuronic == 1.0 && 1 <= cap ==> d == cap
  {
    if Active(neuronic) then
      var d := Trunc(JMap(neuronic, 1.0, cap as real));
      if d < 1 then 1 else d
    else 0
  }

  /** Slot of a circular buffer of capacity cap at offset past base:
      `(base + offset) % cap`. Gives both the write index of a sample and
      the write cursor after a block. */
  function RingSlot(base: int, offset: int, cap: int): (slot: int)
    requires cap > 0
    ensures 0 <= base + offset ==> 0 <= slot < cap
  {
    CRem(base + offset, cap)
  }

  /** Read index of the sample `delay` positions before the write index,
      wrapped by adding cap once when negative and then taking `% cap`. */
  function ReadIndex(writePos: int, sample: int, delay: int, cap: int): (idx: int)
    requires cap > 0
    ensures 0 <= writePos && 0 <= sample && delay <= cap ==> 0 <= idx < cap
  {
    var pos := writePos + sample - delay;
    var wrapped := if pos < 0 then pos + cap else pos;
    CRem(wrapped, cap)
  }

  /** Mix of the input with the delayed sample; the wet share is at most one half. */
  function DelayMix(x: real, delayed: real, amount: real): (y: real)
    ensures 0.0 <= amount <= 1.0 ==> Min(x, delayed) <= y <= Max(x, delayed)
    ensures 0.0 <= amount <= 1.0 ==> Abs(y - x) <= 0.5 * Abs(delayed - x)
    ensures amount == 1.0 ==> y == 0.5 * x + 0.5 * delayed
  {
    if 0.0 <= amount <= 1.0 then
      MixBetween(x, delayed, amount);
      x * (1.0 - amount * 0.5) + delayed * (amount * 0.5)
    else
      x * (1.0 - amount * 0.5) + delayed * (amount * 0.5)
  }

  /** The mix moves x towards the delayed sample by at most half the gap. */
  lemma MixBetween(x: real, delayed: real, amount: real)
    requires 0.0 <= amount <= 1.0
    ensures var y := x * (1.0 - amount * 0.5) + delayed * (amount * 0.5);
            Min(x, delayed) <= y <= Max(x, delayed) && Abs(y - x) <= 0.5 * Abs(delayed - x)
  {
    var half := 0.5 * (delayed - x);
    var t := amount * half;
    assert x <= delayed ==> 0.0 <= t <= half by { MulBetween(amount, half); }
    assert delayed <= x ==> half <= t <= 0.0 by { MulBetween(amount, half); }
    var y := x * (1.0 - amount * 0.5) + delayed * (amount * 0.5);
    assert y == x + t by {
      assert x * (1.0 - amount * 0.5) + delayed * (amount * 0.5) == x + amount * (0.5 * (delayed - x));
    }
  }

  /** The value written back into the delay line: the mixed output plus half
      of the delayed sample. */
  function Feedback(y: real, delayed: real): real
  {
    y + delayed * 0.5
  }

  // ---------------------------------------------------------------------------
  // Lemmas

  /** Crushing an already crushed sample changes nothing. */
  lemma CrushIdempotent(x: real, steps: real)
    requires steps > 0.0
    ensures Crush(Crush(x, steps), steps) == Crush(x, steps)
  {
    var k := (x * steps).Floor;
    var q := k as real / steps;
    assert Crush(x, steps) == q;
    DivCancel(k as real, steps);
    assert (q * steps).Floor == k;
    CrushGrid(q, steps);
  }

  /** A point on the grid of multiples of 1 / steps is left where it is. */
  lemma CrushGrid(q: real, steps: real)
    requires steps > 0.0 && (q * steps).Floor as real == q * steps
    ensures Crush(q, steps) == q
  {
    var k := (q * steps).Floor;
    assert k as real / steps * steps == q * steps;
  }

  /** With the explicit wrap, the read index is the mathematical residue of
      writePos + sample - delay, even when that is negative. */
  lemma {:induction false} ReadIndexIsResidue(writePos: int, sample: int, delay: int, cap: int)
    requires cap > 0 && 0 <= writePos && 0 <= sample && delay <= cap
    ensures ReadIndex(writePos, sample, delay, cap) == (writePos + sample - delay) % cap
  {
    var pos := writePos + sample - delay;
    if pos < 0 {
      assert 0 <= pos + cap < cap;
      DivModUnique(pos + cap, cap, 0, pos + cap);
      ModMultiple(pos, 1, cap);
    }
  }

  /** Without the wrap, C++'s `%` would give a negative index whenever the
      delay reaches back past the start of the buffer. */
  lemma UnwrappedIndexIsNegative(writePos: int, sample: int, delay: int, cap: int)
    requires 0 <= writePos + sample < delay < cap
    ensures CRem(writePos + sample - delay, cap) == writePos + sample - delay < 0
  {
    var pos := writePos + sample - delay;
    DivModUnique(-pos, cap, 0, -pos);
  }

  /** Write index and read index are delay slots apart on the ring: the
      sample read is the one written `delay` samples earlier. */
  lemma {:induction false} ReadTrailsWrite(writePos: int, sample: int, delay: int, cap: int)
    requires cap > 0 && 0 <= writePos && 0 <= sample && delay <= cap
    ensures (RingSlot(writePos, sample, cap) - ReadIndex(writePos, sample, delay, cap)) % cap
            == delay % cap
  {
    ReadIndexIsResidue(writePos, sample, delay, cap);
    var a := writePos + sample;
    assert RingSlot(writePos, sample, cap) == a % cap;
    ModDifference(a, delay, cap);
  }

  lemma ModDifference(a: int, d: int, cap: int)
    requires cap > 0
    ensures (a % cap - (a - d) % cap) % cap == d % cap
  {
    var q1, q2 := a / cap, (a - d) / cap;
    assert a % cap - (a - d) % cap == d + (q2 - q1) * cap;
    ModMultiple(d, q2 - q1, cap);
  }

  /** Advancing the cursor over two blocks is advancing it once over both. */
  lemma {:induction false} CursorCompose(writePos: int, first: int, second: int, cap: int)
    requires cap > 0 && 0 <= writePos && 0 <= first && 0 <= second
    ensures RingSlot(RingSlot(writePos, first, cap), second, cap)
            == RingSlot(writePos, first + second, cap)
  {
    var a := writePos + first;
    var q, r := a / cap, a % cap;
    assert RingSlot(writePos, first, cap) == r;
    assert RingSlot(r, second, cap) == (r + second) % cap;
    assert RingSlot(writePos, first + second, cap) == (a + second) % cap;
    assert a == q * cap + r;
    ModMultiple(r + second, q, cap);
    assert r + second + q * cap == a + second;
  }

  /** The delay line at 48 kHz holds 4800 samples; two 3000-sample blocks
      leave the cursor at 1200. */
  lemma DelayLineAt48k()
    ensures DelayCapacity(48000.0) == 4800
    ensures DelayLength(1.0, 4800) == 4800
    ensures RingSlot(RingSlot(0, 3000, 4800), 3000, 4800) == 1200
  {
  }

  /** Without a delay line (capacity 0) an active neuronic stage still
      delays by one sample, so its read and write indices are taken modulo 0. */
  lemma DelayLengthAtZeroCapacity(neuronic: real)
    requires Active(neuronic) && neuronic <= 1.0
    ensures DelayLength(neuronic, 0) == 1
  {
  }

  /** At two bits the crusher maps 0.9 to 0.75 and -0.1 down to -0.25. */
  lemma CrushAtTwoBits()
    ensures Crush(0.9, 4.0) == 0.75
    ensures Crush(-0.1, 4.0) == -0.25
  {
    assert (0.9 * 4.0).Floor == 3;
    assert (-0.1 * 4.0).Floor == -1;
  }
}
