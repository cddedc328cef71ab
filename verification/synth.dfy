/**
  The signal engine: the state behind the audio source node's render callback (the time
  cursor, the per-sample duration and the installed signal), the render loop itself and the
  waveform swap. Output buffers are sequences of channels, each a sequence of samples; the
  render returns the filled channels instead of writing through pointers.
 */
module SynthEngine {
  import opened Oscillator

  /**
    The engine state. `signal` names the installed oscillator closure; the closures the app
    installs are exactly the five of the waveform library. `volume` is the main mixer's
    output volume, exposed as the synth's `volume` property.
   */
  datatype Synth = Synth(sampleRate: real, deltaTime: real, time: real, signal: Waveform, volume: real)

  /** The status code the render callback reports: `noErr`. */
  const NoErr: int := 0

  /**
    A new engine: cursor at 0, one sample lasting `1 / sampleRate` seconds, the given signal
    (the sine by default) and the mixer muted. The sample rate is the output format's.
   */
  function Init(sampleRate: real, signal: Waveform := Sine): (s: Synth)
    requires sampleRate > 0.0
    ensures s.time == 0.0 && s.signal == signal && s.volume == 0.0
    ensures s.sampleRate == sampleRate && s.deltaTime > 0.0 && s.deltaTime * sampleRate == 1.0
  {
    Synth(sampleRate, 1.0 / sampleRate, 0.0, signal, 0.0)
  }

  /** `setWaveformTo`: installs another signal and changes nothing else. */
  function SetWaveformTo(s: Synth, signal: Waveform): (r: Synth)
    ensures r.signal == signal
    ensures r.time == s.time && r.deltaTime == s.deltaTime
    ensures r.sampleRate == s.sampleRate && r.volume == s.volume
  {
    s.(signal := signal)
  }

  /** Swapping the waveform is last-write-wins, and reinstalling the current one changes nothing. */
  lemma SetWaveformToLastWins(s: Synth, a: Waveform, b: Waveform)
    ensures SetWaveformTo(SetWaveformTo(s, a), b) == SetWaveformTo(s, b)
    ensures SetWaveformTo(s, s.signal) == s
  {
  }

  /** The `volume` setter: forwards the value to the mixer and changes nothing else. */
  function SetVolume(s: Synth, volume: real): (r: Synth)
    ensures r.volume == volume
    ensures r.time == s.time && r.signal == s.signal
    ensures r.deltaTime == s.deltaTime && r.sampleRate == s.sampleRate
  {
    s.(volume := volume)
  }

  /**
    A signal as the render loop sees it: the sample at a time, given the random draw that a
    white-noise closure would make on that call (the other closures ignore it).
   */
  type Signal = (real, real) -> real

  /** The closure installed for a waveform, reading the shared settings `osc`. */
  function SignalOf(w: Waveform, osc: Params, sin: real -> real): Signal
  {
    (t, draw) => Evaluate(w, osc, sin, t, draw)
  }

  /**
    The samples of `n` consecutive frames as the callback produces them: evaluate the signal
    at the cursor, then advance the cursor by `dt`. `draws` supplies one random draw per frame.
   */
  function Samples(signal: Signal, t: real, dt: real, draws: seq<real>, n: nat): (r: seq<real>)
    requires n <= |draws|
    ensures |r| == n
    decreases n
  {
    if n == 0 then []
    else [signal(t, draws[0])] + Samples(signal, t + dt, dt, draws[1..], n - 1)
  }

  /** Frame `i` is sampled at `t + i * dt`: the sample is taken before the cursor advances. */
  lemma {:induction false} SamplesClosedForm(signal: Signal, t: real, dt: real, draws: seq<real>, n: nat)
    requires n <= |draws|
    ensures forall i :: 0 <= i < n ==>
      Samples(signal, t, dt, draws, n)[i] == signal(t + (i as real) * dt, draws[i])
    decreases n
  {
    if n > 0 {
      var rest := Samples(signal, t + dt, dt, draws[1..], n - 1);
      SamplesClosedForm(signal, t + dt, dt, draws[1..], n - 1);
      forall i | 0 < i < n
        ensures Samples(signal, t, dt, draws, n)[i] == signal(t + (i as real) * dt, draws[i])
      {
        CursorStep(t, dt, i);
        assert rest[i - 1] == signal((t + dt) + ((i - 1) as real) * dt, draws[1..][i - 1]);
        assert Samples(signal, t, dt, draws, n)[i] == rest[i - 1];
      }
    }
  }

  /**
    Frame `i` of a render of the installed waveform is that waveform's sample at
    `t + i * dt`, with the `i`-th random draw.
   */
  lemma InstalledSamples(w: Waveform, osc: Params, sin: real -> real, t: real, dt: real,
                         draws: seq<real>, n: nat)
    requires n <= |draws|
    ensures forall i :: 0 <= i < n ==>
      Samples(SignalOf(w, osc, sin), t, dt, draws, n)[i] == Evaluate(w, osc, sin, t + (i as real) * dt, draws[i])
  {
    SamplesClosedForm(SignalOf(w, osc, sin), t, dt, draws, n);
  }

  /**
    A render from a non-negative cursor with a non-negative step never leaves
    [-amplitude, amplitude], whichever waveform is installed, given a bounded sine and
    bounded random draws.
   */
  lemma RenderedWithinAmplitude(w: Waveform, osc: Params, sin: real -> real, t: real, dt: real,
                                draws: seq<real>, n: nat)
    requires n <= |draws|
    requires t >= 0.0 && dt >= 0.0
    requires osc.amplitude >= 0.0 && osc.frequency >= 0.0
    requires UnitRange(sin)
    requires forall i :: 0 <= i < |draws| ==> -1.0 <= draws[i] <= 1.0
    ensures forall i :: 0 <= i < n ==>
      -osc.amplitude <= Samples(SignalOf(w, osc, sin), t, dt, draws, n)[i] <= osc.amplitude
  {
    InstalledSamples(w, osc, sin, t, dt, draws, n);
    forall i | 0 <= i < n
      ensures -osc.amplitude <= Evaluate(w, osc, sin, FrameTime(t, dt, i), draws[i]) <= osc.amplitude
    {
      assert FrameTime(t, dt, i) >= 0.0 by {
        assert (i as real) * dt >= 0.0;
      }
      SampleWithinAmplitude(w, osc, sin, FrameTime(t, dt, i), draws[i]);
    }
  }

  /** One step of the cursor followed by `i - 1` more lands where `i` steps from `t` land. */
  lemma CursorStep(t: real, dt: real, i: int)
    ensures (t + dt) + ((i - 1) as real) * dt == t + (i as real) * dt
  {
  }

  /**
    Rendering `n + m` frames in one call yields the same samples as rendering `n` frames and
    then `m` more from where the cursor stopped: the signal stays continuous across calls.
   */
  lemma {:induction false} SamplesSplit(signal: Signal, t: real, dt: real, draws: seq<real>, n: nat, m: nat)
    requires n + m <= |draws|
    ensures Samples(signal, t, dt, draws, n + m)
         == Samples(signal, t, dt, draws, n) + Samples(signal, FrameTime(t, dt, n), dt, draws[n..], m)
    decreases n
  {
    if n > 0 {
      var later := t + dt;
      SamplesSplit(signal, later, dt, draws[1..], n - 1, m);
      LaterFrameTime(t, dt, n);
      assert draws[1..][n - 1..] == draws[n..];
      assert Samples(signal, t, dt, draws, n + m)
          == [signal(t, draws[0])] + Samples(signal, later, dt, draws[1..], n - 1 + m);
    }
  }

  /** `n` frames from `t` end where `n - 1` frames from one sample later end. */
  lemma LaterFrameTime(t: real, dt: real, n: nat)
    requires n > 0
    ensures FrameTime(t + dt, dt, n - 1) == FrameTime(t, dt, n)
  {
    CursorStep(t, dt, n);
  }

  /** Stores one sample at index `frame` of every channel; every other entry is kept. */
  method WriteFrame(buffers: seq<seq<real>>, frame: nat, v: real) returns (out: seq<seq<real>>)
    requires forall c :: 0 <= c < |buffers| ==> frame < |buffers[c]|
    ensures |out| == |buffers|
    ensures forall c :: 0 <= c < |out| ==> |out[c]| == |buffers[c]|
    ensures forall c :: 0 <= c < |out| ==> out[c][frame] == v
    ensures forall c, i :: 0 <= c < |out| && 0 <= i < |out[c]| && i != frame ==> out[c][i] == buffers[c][i]
  {
    out := buffers;
    var ch := 0;
    while ch < |out|
      invariant 0 <= ch <= |out| == |buffers|
      invariant forall c :: 0 <= c < |out| ==> |out[c]| == |buffers[c]|
      invariant forall c :: 0 <= c < ch ==> out[c][frame] == v
      invariant forall c :: ch <= c < |out| ==> out[c] == buffers[c]
      invariant forall c, i :: 0 <= c < |out| && 0 <= i < |out[c]| && i != frame ==> out[c][i] == buffers[c][i]
    {
      out := out[ch := out[ch][frame := v]];
      ch := ch + 1;
    }
  }

  /**
    The loop of the render callback for any signal: for each of `frameCount` frames, sample
    the signal at the cursor, advance the cursor by `dt`, and store the sample at index `frame`
    of every channel. Returns the final cursor and the channels.
   */
  method RenderFrames(signal: Signal, t0: real, dt: real, draws: seq<real>,
                      buffers: seq<seq<real>>, frameCount: nat)
    returns (time: real, out: seq<seq<real>>)
    requires frameCount <= |draws|
    requires forall c :: 0 <= c < |buffers| ==> frameCount <= |buffers[c]|
    ensures time == t0 + (frameCount as real) * dt
    ensures |out| == |buffers|
    ensures forall c :: 0 <= c < |out| ==> |out[c]| == |buffers[c]|
    ensures forall c, i :: 0 <= c < |out| && 0 <= i < frameCount ==>
              out[c][i] == signal(t0 + (i as real) * dt, draws[i])
    ensures forall c :: 0 <= c < |out| ==> out[c][..frameCount] == Samples(signal, t0, dt, draws, frameCount)
    ensures forall c, i :: 0 <= c < |out| && frameCount <= i < |out[c]| ==> out[c][i] == buffers[c][i]
  {
    time := t0;
    out := buffers;
    var frame := 0;
    while frame < frameCount
      invariant 0 <= frame <= frameCount
      invariant time == FrameTime(t0, dt, frame)
      invariant |out| == |buffers|
      invariant forall c :: 0 <= c < |out| ==> |out[c]| == |buffers[c]|
      invariant forall c, i :: 0 <= c < |out| && 0 <= i < frame ==>
                  out[c][i] == signal(FrameTime(t0, dt, i), draws[i])
      invariant forall c, i :: 0 <= c < |out| && frame <= i < |out[c]| ==> out[c][i] == buffers[c][i]
    {
      var sampleVal := signal(time, draws[frame]);
      NextFrameTime(t0, dt, frame);
      time := time + dt;
      out := WriteFrame(out, frame, sampleVal);
      frame := frame + 1;
    }
    forall c | 0 <= c < |out|
      ensures out[c][..frameCount] == Samples(signal, t0, dt, draws, frameCount)
    {
      PrefixIsSamples(out[c], signal, t0, dt, draws, frameCount);
    }
  }

  /** The cursor after `i` frames. */
  function FrameTime(t0: real, dt: real, i: nat): real
  {
    t0 + (i as real) * dt
  }

  /** Advancing the cursor by one sample moves it to the next frame's time. */
  lemma NextFrameTime(t0: real, dt: real, i: nat)
    ensures FrameTime(t0, dt, i) + dt == FrameTime(t0, dt, i + 1)
  {
  }

  /** A channel whose first `n` entries hold the closed-form samples starts with `Samples`. */
  lemma PrefixIsSamples(row: seq<real>, signal: Signal, t0: real, dt: real, draws: seq<real>, n: nat)
    requires n <= |draws| && n <= |row|
    requires forall i :: 0 <= i < n ==> row[i] == signal(t0 + (i as real) * dt, draws[i])
    ensures row[..n] == Samples(signal, t0, dt, draws, n)
  {
    SamplesClosedForm(signal, t0, dt, draws, n);
  }

  /**
    The render callback of the source node: renders `frameCount` frames of the installed
    signal from the engine's cursor, leaves the cursor `frameCount` samples later and reports
    `noErr` whatever the frame count. Only the cursor changes in the engine state.
   */
  method Render(s: Synth, osc: Params, sin: real -> real, draws: seq<real>,
                buffers: seq<seq<real>>, frameCount: nat)
    returns (s': Synth, out: seq<seq<real>>, status: int)
    requires frameCount <= |draws|
    requires forall c :: 0 <= c < |buffers| ==> frameCount <= |buffers[c]|
    ensures status == NoErr
    ensures s' == s.(time := s.time + (frameCount as real) * s.deltaTime)
    ensures |out| == |buffers|
    ensures forall c :: 0 <= c < |out| ==> |out[c]| == |buffers[c]|
    ensures forall c :: 0 <= c < |out| ==>
              out[c][..frameCount] == Samples(SignalOf(s.signal, osc, sin), s.time, s.deltaTime, draws, frameCount)
    ensures forall c, d, i :: 0 <= c < |out| && 0 <= d < |out| && 0 <= i < frameCount ==> out[c][i] == out[d][i]
    ensures forall c, i :: 0 <= c < |out| && frameCount <= i < |out[c]| ==> out[c][i] == buffers[c][i]
  {
    var time;
    time, out := RenderFrames(SignalOf(s.signal, osc, sin), s.time, s.deltaTime, draws, buffers, frameCount);
    s' := s.(time := time);
    status := NoErr;
  }
}
