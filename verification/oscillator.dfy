/**
  The waveform library of the synthesizer: the `Waveform` selector and the five oscillator
  closures, each a pure function from elapsed time (seconds) to one sample, scaled by the
  shared amplitude and frequency settings.

  Time, period and phase are exact reals. The periodic waveforms reduce time to a normalised
  phase `fmod(t, period) / period` with `period = 1 / frequency`, where `fmod` truncates toward
  zero as C's does. The sine of the sine wave and the uniform draw of the white noise are
  foreign calls: the sine is a parameter `sin`, the draw a parameter `draw`.
 */
module Oscillator {
  import opened Optionals
  import opened RealArith

  /** The waveform selector; its raw values are the implicit `Int` raw values 0 to 4. */
  datatype Waveform = Sine | Triangle | Sawtooth | Square | WhiteNoise

  const WaveformCount: int := 5

  function RawValue(w: Waveform): (i: int)
    ensures 0 <= i < WaveformCount
  {
    match w
    case Sine => 0
    case Triangle => 1
    case Sawtooth => 2
    case Square => 3
    case WhiteNoise => 4
  }

  /** `Waveform(rawValue:)`: the failable initialiser, `None` outside 0 to 4. */
  function FromRawValue(i: int): (r: Option<Waveform>)
    ensures r.Some? <==> 0 <= i < WaveformCount
    ensures r.Some? ==> RawValue(r.value) == i
  {
    if i == 0 then Some(Sine)
    else if i == 1 then Some(Triangle)
    else if i == 2 then Some(Sawtooth)
    else if i == 3 then Some(Square)
    else if i == 4 then Some(WhiteNoise)
    else None
  }

  /** Raw values identify waveforms: converting to the raw value and back is the identity. */
  lemma RawValueRoundTrip(w: Waveform)
    ensures FromRawValue(RawValue(w)) == Some(w)
  {
  }

  /** Distinct waveforms have distinct raw values. */
  lemma RawValueInjective(v: Waveform, w: Waveform)
    requires RawValue(v) == RawValue(w)
    ensures v == w
  {
  }

  /** The shared static settings every oscillator reads. */
  datatype Params = Params(amplitude: real, frequency: real)

  const DefaultParams: Params := Params(1.0, 440.0)

  /** Swift's `Float.pi`, which is rounded toward zero to single precision (0x1.921fb4p+1). */
  const FloatPi: real := 13176794.0 / 4194304.0

  /** The foreign sine stays within [-1, 1]. */
  ghost predicate UnitRange(sin: real -> real)
  {
    forall x :: -1.0 <= sin(x) <= 1.0
  }

  /**
    The normalised phase `fmod(t, period) / period` with `period = 1 / frequency`. A zero
    frequency does not trap in floating point: the period is +infinity, `fmod(t, +infinity)`
    is `t`, and `t / +infinity` is 0, so the phase is 0.
   */
  function NormalisedPhase(t: real, frequency: real): (p: real)
    ensures frequency >= 0.0 && t >= 0.0 ==> 0.0 <= p < 1.0
    ensures frequency < 0.0 && t >= 0.0 ==> -1.0 < p <= 0.0
    ensures frequency > 0.0 && t <= 0.0 ==> -1.0 < p <= 0.0
    ensures frequency < 0.0 && t <= 0.0 ==> 0.0 <= p < 1.0
    ensures frequency == 0.0 ==> p == 0.0
  {
    if frequency == 0.0 then 0.0
    else
      var period := 1.0 / frequency;
      var m := Fmod(t, period);
      RemainderRatio(m, period);
      m / period
  }

  /**
    For non-negative time and positive frequency the truncating `fmod` phase is the
    fractional part of the number of elapsed cycles `t * frequency`.
   */
  lemma PhaseIsFraction(t: real, frequency: real)
    requires t >= 0.0 && frequency > 0.0
    ensures NormalisedPhase(t, frequency) == Frac(t * frequency)
  {
    var period := 1.0 / frequency;
    var cycles := t * frequency;
    assert t / period == cycles;
    TruncOfNonNegative(cycles);
    var k := cycles.Floor as real;
    var m := Fmod(t, period);
    assert m == t - period * k;
    var p := m / period;
    assert p * period == m;
    assert (cycles - k) * period == m;
    CancelFactor(p, cycles - k, period);
  }

  /** The phase of `n` whole periods plus a fraction `q` of one is `q`. */
  lemma PhaseAfterCycles(n: nat, q: real, frequency: real)
    requires 0.0 <= q < 1.0 && frequency > 0.0
    ensures NormalisedPhase((n as real + q) / frequency, frequency) == q
  {
    var t := (n as real + q) / frequency;
    CyclesOfTime(n as real + q, frequency, t);
    PhaseIsFraction(t, frequency);
    FracOfWholePlus(n, q);
  }

  /** The phase repeats after one period. */
  lemma PhasePeriodic(t: real, frequency: real)
    requires t >= 0.0 && frequency > 0.0
    ensures NormalisedPhase(t + 1.0 / frequency, frequency) == NormalisedPhase(t, frequency)
  {
    var later := t + 1.0 / frequency;
    OnePeriodMore(t, frequency, later);
    PhaseIsFraction(t, frequency);
    PhaseIsFraction(later, frequency);
    FracShift(t * frequency);
  }

  lemma CyclesOfTime(c: real, frequency: real, t: real)
    requires frequency > 0.0 && t == c / frequency
    ensures t * frequency == c
  {
  }

  lemma OnePeriodMore(t: real, frequency: real, later: real)
    requires frequency > 0.0 && later == t + 1.0 / frequency
    ensures later * frequency == t * frequency + 1.0
  {
  }

  // Triangle wave: a rise over the first quarter period, a fall over the middle half and a
  // rise over the last quarter.

  function TriangleShape(p: real): (v: real)
    ensures 0.0 <= p <= 1.0 ==> -1.0 <= v <= 1.0
  {
    if p < 0.25 then p * 4.0
    else if p < 0.75 then 2.0 - p * 4.0
    else p * 4.0 - 4.0
  }

  function TriangleSample(osc: Params, t: real): (v: real)
    ensures osc.amplitude == 0.0 ==> v == 0.0
  {
    osc.amplitude * TriangleShape(NormalisedPhase(t, osc.frequency))
  }

  /** For non-negative amplitude, frequency and time the triangle stays within the amplitude. */
  lemma TriangleWithinAmplitude(osc: Params, t: real)
    requires osc.amplitude >= 0.0 && osc.frequency >= 0.0 && t >= 0.0
    ensures -osc.amplitude <= TriangleSample(osc, t) <= osc.amplitude
  {
    var s := TriangleShape(NormalisedPhase(t, osc.frequency));
    ScaleWithinUnit(osc.amplitude, s);
    assert TriangleSample(osc, t) == osc.amplitude * s;
  }

  /**
    The triangle has no jump: within a period its slope never exceeds 4 (so the pieces meet
    at the breakpoints 0.25 and 0.75), and it returns to 0 as the period ends.
   */
  lemma TriangleContinuous(p: real, q: real)
    requires 0.0 <= p <= 1.0 && 0.0 <= q <= 1.0
    ensures Abs(TriangleShape(p) - TriangleShape(q)) <= 4.0 * Abs(p - q)
    ensures 0.75 <= p <= 1.0 ==> Abs(TriangleShape(p) - TriangleShape(0.0)) <= 4.0 * (1.0 - p)
  {
  }

  /** Peaks and zero crossings of the triangle at the quarter points of every period. */
  lemma TriangleQuarterPoints(osc: Params, n: nat)
    requires osc.frequency > 0.0
    ensures TriangleSample(osc, n as real / osc.frequency) == 0.0
    ensures TriangleSample(osc, (n as real + 0.25) / osc.frequency) == osc.amplitude
    ensures TriangleSample(osc, (n as real + 0.5) / osc.frequency) == 0.0
    ensures TriangleSample(osc, (n as real + 0.75) / osc.frequency) == -osc.amplitude
  {
    PhaseAfterCycles(n, 0.0, osc.frequency);
    assert n as real + 0.0 == n as real;
    PhaseAfterCycles(n, 0.25, osc.frequency);
    PhaseAfterCycles(n, 0.5, osc.frequency);
    PhaseAfterCycles(n, 0.75, osc.frequency);
  }

  // Sawtooth wave: a linear ramp from -amplitude that falls back at each period boundary.

  function SawtoothSample(osc: Params, t: real): (v: real)
    ensures osc.amplitude == 0.0 ==> v == 0.0
  {
    Ramp(osc.amplitude, NormalisedPhase(t, osc.frequency))
  }

  /** The sawtooth's linear rule: `amplitude * (2p - 1)`. */
  function Ramp(a: real, p: real): real
  {
    a * (p * 2.0 - 1.0)
  }

  /**
    For non-negative amplitude, frequency and time the sawtooth stays within the amplitude,
    and with a positive amplitude it never reaches the top.
   */
  lemma SawtoothWithinAmplitude(osc: Params, t: real)
    requires osc.amplitude >= 0.0 && osc.frequency >= 0.0 && t >= 0.0
    ensures -osc.amplitude <= SawtoothSample(osc, t) <= osc.amplitude
    ensures osc.amplitude > 0.0 ==> SawtoothSample(osc, t) < osc.amplitude
  {
    var p := NormalisedPhase(t, osc.frequency);
    RampBounds(osc.amplitude, p);
    assert SawtoothSample(osc, t) == osc.amplitude * (p * 2.0 - 1.0);
  }

  lemma RampIncreasing(a: real, p1: real, p2: real)
    requires a > 0.0 && p1 < p2
    ensures Ramp(a, p1) < Ramp(a, p2)
  {
    MulStrictMonotone(a, p1 * 2.0 - 1.0, p2 * 2.0 - 1.0);
  }

  lemma RampBounds(a: real, p: real)
    requires a >= 0.0 && 0.0 <= p < 1.0
    ensures -a <= Ramp(a, p) <= a
    ensures a > 0.0 ==> Ramp(a, p) < a
  {
    ScaleWithinUnit(a, p * 2.0 - 1.0);
    if a > 0.0 {
      MulStrictMonotone(a, p * 2.0 - 1.0, 1.0);
    }
  }

  /** Within one period the sawtooth rises strictly. */
  lemma SawtoothRisesWithinPeriod(osc: Params, n: nat, q1: real, q2: real)
    requires osc.amplitude > 0.0 && osc.frequency > 0.0
    requires 0.0 <= q1 < q2 < 1.0
    ensures SawtoothSample(osc, (n as real + q1) / osc.frequency) < SawtoothSample(osc, (n as real + q2) / osc.frequency)
  {
    PhaseAfterCycles(n, q1, osc.frequency);
    PhaseAfterCycles(n, q2, osc.frequency);
    SawtoothFollowsPhase(osc, (n as real + q1) / osc.frequency, (n as real + q2) / osc.frequency);
  }

  /** With a positive amplitude the sawtooth orders samples as their phases. */
  lemma SawtoothFollowsPhase(osc: Params, t1: real, t2: real)
    requires osc.amplitude > 0.0
    requires NormalisedPhase(t1, osc.frequency) < NormalisedPhase(t2, osc.frequency)
    ensures SawtoothSample(osc, t1) < SawtoothSample(osc, t2)
  {
    var p1 := NormalisedPhase(t1, osc.frequency);
    var p2 := NormalisedPhase(t2, osc.frequency);
    RampIncreasing(osc.amplitude, p1, p2);
  }

  /** Every period of the sawtooth starts at -amplitude. */
  lemma SawtoothRestartsEachPeriod(osc: Params, n: nat)
    requires osc.frequency > 0.0
    ensures SawtoothSample(osc, n as real / osc.frequency) == -osc.amplitude
  {
    SawtoothAtFraction(osc, n, 0.0);
    assert n as real + 0.0 == n as real;
  }

  lemma SawtoothAtFraction(osc: Params, n: nat, q: real)
    requires osc.frequency > 0.0
    requires 0.0 <= q < 1.0
    ensures SawtoothSample(osc, (n as real + q) / osc.frequency) == osc.amplitude * (q * 2.0 - 1.0)
  {
    PhaseAfterCycles(n, q, osc.frequency);
    assert SawtoothSample(osc, (n as real + q) / osc.frequency)
        == osc.amplitude * (NormalisedPhase((n as real + q) / osc.frequency, osc.frequency) * 2.0 - 1.0);
  }

  // Square wave: amplitude for the first half period, -1 times amplitude for the second.

  function SquareSample(osc: Params, t: real): (v: real)
    ensures v == osc.amplitude || v == -osc.amplitude
    ensures Abs(v) == Abs(osc.amplitude)
  {
    if NormalisedPhase(t, osc.frequency) < 0.5 then osc.amplitude else -1.0 * osc.amplitude
  }

  /** Which half of the period a time falls in decides the square's level. */
  lemma SquareHalves(osc: Params, n: nat, q: real)
    requires osc.frequency > 0.0
    requires 0.0 <= q < 1.0
    ensures SquareSample(osc, (n as real + q) / osc.frequency) == (if q < 0.5 then osc.amplitude else -osc.amplitude)
  {
    PhaseAfterCycles(n, q, osc.frequency);
  }

  // Sine wave and white noise: foreign values scaled by the amplitude.

  function SineSample(osc: Params, sin: real -> real, t: real): (v: real)
    ensures osc.amplitude == 0.0 ==> v == 0.0
  {
    osc.amplitude * sin(Angle(osc.frequency, t))
  }

  /** The angle `2 * Float.pi * frequency * t` handed to the sine. */
  function Angle(frequency: real, t: real): real
  {
    2.0 * FloatPi * frequency * t
  }

  /** With a sine bounded by one, the sine wave stays within the amplitude. */
  lemma SineWithinAmplitude(osc: Params, sin: real -> real, t: real)
    requires UnitRange(sin) && osc.amplitude >= 0.0
    ensures -osc.amplitude <= SineSample(osc, sin, t) <= osc.amplitude
  {
    var s := sin(Angle(osc.frequency, t));
    ScaleWithinUnit(osc.amplitude, s);
    assert SineSample(osc, sin, t) == osc.amplitude * s;
  }

  function WhiteNoiseSample(osc: Params, draw: real): (v: real)
    ensures osc.amplitude == 0.0 ==> v == 0.0
  {
    osc.amplitude * draw
  }

  /** A draw from [-1, 1] keeps white noise within the amplitude. */
  lemma WhiteNoiseWithinAmplitude(osc: Params, draw: real)
    requires -1.0 <= draw <= 1.0 && osc.amplitude >= 0.0
    ensures -osc.amplitude <= WhiteNoiseSample(osc, draw) <= osc.amplitude
  {
    ScaleWithinUnit(osc.amplitude, draw);
    assert WhiteNoiseSample(osc, draw) == osc.amplitude * draw;
  }

  // The installed signal: one sample of the selected waveform.

  /**
    The sample the selected waveform's closure returns at time `t`. `sin` stands for the
    foreign sine and `draw` for the value `Float.random(in: -1...1)` returns on this call.
   */
  function Evaluate(w: Waveform, osc: Params, sin: real -> real, t: real, draw: real): (v: real)
    ensures osc.amplitude == 0.0 ==> v == 0.0
  {
    match w
    case Sine => SineSample(osc, sin, t)
    case Triangle => TriangleSample(osc, t)
    case Sawtooth => SawtoothSample(osc, t)
    case Square => SquareSample(osc, t)
    case WhiteNoise => WhiteNoiseSample(osc, draw)
  }

  /**
    Every waveform stays within [-amplitude, amplitude] for non-negative amplitude, frequency
    and time, given a sine and a random draw that stay within [-1, 1].
   */
  lemma SampleWithinAmplitude(w: Waveform, osc: Params, sin: real -> real, t: real, draw: real)
    requires osc.amplitude >= 0.0 && osc.frequency >= 0.0 && t >= 0.0
    requires UnitRange(sin) && -1.0 <= draw <= 1.0
    ensures -osc.amplitude <= Evaluate(w, osc, sin, t, draw) <= osc.amplitude
  {
    match w
    case Sine => SineWithinAmplitude(osc, sin, t);
    case Triangle => TriangleWithinAmplitude(osc, t);
    case Sawtooth => SawtoothWithinAmplitude(osc, t);
    case Square =>
    case WhiteNoise => WhiteNoiseWithinAmplitude(osc, draw);
  }

  /**
    The zero-frequency fallback: with an infinite period the phase stays 0, so at every time
    the triangle is 0, the sawtooth is -amplitude and the square is amplitude.
   */
  lemma ZeroFrequencyFallback(osc: Params, t: real)
    requires osc.frequency == 0.0
    ensures TriangleSample(osc, t) == 0.0
    ensures SawtoothSample(osc, t) == -osc.amplitude
    ensures SquareSample(osc, t) == osc.amplitude
  {
  }

  /** At time zero the phase is zero for every frequency, including zero and negative ones. */
  lemma AtTimeZero(osc: Params, sin: real -> real)
    ensures TriangleSample(osc, 0.0) == 0.0
    ensures SawtoothSample(osc, 0.0) == -osc.amplitude
    ensures SquareSample(osc, 0.0) == osc.amplitude
    ensures sin(0.0) == 0.0 ==> SineSample(osc, sin, 0.0) == 0.0
  {
    PhaseAtZero(osc.frequency);
    assert Angle(osc.frequency, 0.0) == 0.0;
  }

  lemma PhaseAtZero(frequency: real)
    ensures NormalisedPhase(0.0, frequency) == 0.0
  {
    if frequency != 0.0 {
      var period := 1.0 / frequency;
      assert Fmod(0.0, period) == 0.0;
    }
  }

  /**
    Nothing keeps the frequency positive: with frequency -1 the phase at t = 0.5 is -0.5, and
    both the triangle and the sawtooth return -2 times the amplitude, outside [-1, 1].
   */
  lemma NegativeFrequencyLeavesRange()
    ensures TriangleSample(Params(1.0, -1.0), 0.5) == -2.0
    ensures SawtoothSample(Params(1.0, -1.0), 0.5) == -2.0
  {
    assert Trunc(0.5 / -1.0) == 0;
    assert Fmod(0.5, 1.0 / -1.0) == 0.5;
    assert NormalisedPhase(0.5, -1.0) == -0.5;
  }
}
