/**
  The synth's single screen: a touch anywhere plays the synth, the touch's height sets the
  amplitude and its horizontal position the frequency, a label shows both as integers, and a
  five-segment control picks the waveform. The view controller's state is the engine, the
  shared oscillator settings and the two numbers the label displays.
 */
module SynthViewController {
  import opened Optionals
  import opened RealArith
  import opened Oscillator
  import opened SynthEngine

  /** A touch location in view coordinates: `x` grows to the right, `y` grows downwards. */
  datatype Point = Point(x: real, y: real)

  /** The size of the view. A laid-out view is never empty. */
  datatype Bounds = Bounds(width: real, height: real)

  predicate Nonempty(b: Bounds)
  {
    b.width > 0.0 && b.height > 0.0
  }

  /** The two integers the parameter label shows: frequency in hertz and amplitude in percent. */
  datatype Readout = Readout(hertz: int, percent: int)

  /** What the label shows before any touch and after a touch ends or is cancelled. */
  const IdleReadout: Readout := Readout(0, 0)

  /** The controller's state: the engine, the oscillator settings it shares, the label. */
  datatype App = App(synth: Synth, osc: Params, readout: Readout)

  /**
    A touch callback. `Began` and `Moved` carry the first touch of the set, if the set has one;
    `Ended` and `Cancelled` ignore their touches.
   */
  datatype TouchEvent = Began(touch: Option<Point>) | Moved(touch: Option<Point>) | Ended | Cancelled

  /** The lowest frequency a touch can select, at the left edge. */
  const LowestHertz: real := 32.0
  /** The width of the frequency range the screen spans, left edge to right edge. */
  const HertzSpan: real := 1014.0
  /** The mixer volume while a finger is down. */
  const PlayingVolume: real := 0.5
  /** The mixer volume while no finger is down. */
  const SilentVolume: real := 0.0

  /** The state at launch: the engine muted and playing the sine, the default settings, an idle label. */
  function InitialApp(sampleRate: real): (app: App)
    requires sampleRate > 0.0
    ensures app.synth.volume == SilentVolume && app.synth.signal == Sine && app.synth.time == 0.0
    ensures app.osc == DefaultParams && app.readout == IdleReadout
  {
    App(Init(sampleRate), DefaultParams, IdleReadout)
  }

  // ----- Touch position to synth parameters -----

  /**
    Amplitude from the touch height: 1 at the top edge, 0 at the bottom edge. Within the view
    it is a fraction in [0, 1].
   */
  function AmplitudeFromY(height: real, y: real): (a: real)
    requires height > 0.0
    ensures 0.0 <= y <= height ==> 0.0 <= a <= 1.0
    ensures y == 0.0 ==> a == 1.0
    ensures y == height ==> a == 0.0
  {
    DivBelowOne(height - y, height);
    (height - y) / height
  }

  /** Dividing a value in [0, z] by z gives a fraction in [0, 1], with 0 and z at the ends. */
  lemma DivBelowOne(m: real, z: real)
    requires z > 0.0
    ensures 0.0 <= m <= z ==> 0.0 <= m / z <= 1.0
    ensures m == 0.0 ==> m / z == 0.0
    ensures m == z ==> m / z == 1.0
  {
    if 0.0 <= m < z {
      DivBelow(m, z);
    }
  }

  /** The height at which a touch selects amplitude `a`. */
  function YForAmplitude(height: real, a: real): real
  {
    height - a * height
  }

  /** Amplitude is read off the height one-to-one: the two maps are mutually inverse. */
  lemma AmplitudeRoundTrip(height: real, y: real, a: real)
    requires height > 0.0
    ensures AmplitudeFromY(height, YForAmplitude(height, a)) == a
    ensures YForAmplitude(height, AmplitudeFromY(height, y)) == y
  {
    var y' := YForAmplitude(height, a);
    assert height - y' == a * height;
    var a' := AmplitudeFromY(height, y);
    assert a' * height == height - y;
  }

  /** Moving the finger down never raises the amplitude; moving it strictly down lowers it. */
  lemma AmplitudeNonIncreasing(height: real, y1: real, y2: real)
    requires height > 0.0
    requires y1 <= y2
    ensures AmplitudeFromY(height, y2) <= AmplitudeFromY(height, y1)
    ensures y1 < y2 ==> AmplitudeFromY(height, y2) < AmplitudeFromY(height, y1)
  {
    var a1 := AmplitudeFromY(height, y1);
    var a2 := AmplitudeFromY(height, y2);
    assert a1 * height == height - y1;
    assert a2 * height == height - y2;
    assert (a1 - a2) * height == y2 - y1;
    SignOfFactor(a1 - a2, height);
  }

  /**
    Frequency from the horizontal position: 32 Hz at the left edge, rising linearly by 1014 Hz
    across the width, so 1046 Hz at the right edge.
   */
  function FrequencyFromX(width: real, x: real): (f: real)
    requires width > 0.0
    ensures 0.0 <= x <= width ==> LowestHertz <= f <= LowestHertz + HertzSpan
    ensures x == 0.0 ==> f == LowestHertz
    ensures x == width ==> f == LowestHertz + HertzSpan
  {
    DivBelowOne(x, width);
    (x / width) * HertzSpan + LowestHertz
  }

  /** The horizontal position at which a touch selects frequency `f`. */
  function XForFrequency(width: real, f: real): real
  {
    (f - LowestHertz) / HertzSpan * width
  }

  /** Frequency is read off the position one-to-one: the two maps are mutually inverse. */
  lemma FrequencyRoundTrip(width: real, x: real, f: real)
    requires width > 0.0
    ensures FrequencyFromX(width, XForFrequency(width, f)) == f
    ensures XForFrequency(width, FrequencyFromX(width, x)) == x
  {
    var x' := XForFrequency(width, f);
    var u := (f - LowestHertz) / HertzSpan;
    assert x' / width == u;
    var f' := FrequencyFromX(width, x);
    assert (f' - LowestHertz) / HertzSpan == x / width;
  }

  /** Moving the finger right never lowers the frequency; moving it strictly right raises it. */
  lemma FrequencyNonDecreasing(width: real, x1: real, x2: real)
    requires width > 0.0
    requires x1 <= x2
    ensures FrequencyFromX(width, x1) <= FrequencyFromX(width, x2)
    ensures x1 < x2 ==> FrequencyFromX(width, x1) < FrequencyFromX(width, x2)
  {
    var u1 := x1 / width;
    var u2 := x2 / width;
    assert u1 * width == x1;
    assert u2 * width == x2;
    assert (u2 - u1) * width == x2 - x1;
    SignOfFactor(u2 - u1, width);
  }

  /** The label's amplitude figure: amplitude times 100, truncated toward zero. */
  function Percent(amplitude: real): (n: int)
    ensures 0.0 <= amplitude ==> 0 <= n && n as real <= amplitude * 100.0 < n as real + 1.0
    ensures 0.0 <= amplitude <= 1.0 ==> n <= 100
    ensures amplitude == 1.0 ==> n == 100
  {
    Trunc(amplitude * 100.0)
  }

  /** The label's frequency figure: the frequency truncated toward zero. */
  function Hertz(frequency: real): (n: int)
    ensures 0.0 <= frequency ==> 0 <= n && n as real <= frequency < n as real + 1.0
    ensures LowestHertz <= frequency <= LowestHertz + HertzSpan ==> 32 <= n <= 1046
  {
    Trunc(frequency)
  }

  /** A higher amplitude never shows a lower percent, and a higher frequency never a lower figure. */
  lemma ReadoutMonotone(a1: real, a2: real, f1: real, f2: real)
    requires a1 <= a2 && f1 <= f2
    ensures Percent(a1) <= Percent(a2)
    ensures Hertz(f1) <= Hertz(f2)
  {
    TruncMonotone(a1 * 100.0, a2 * 100.0);
    TruncMonotone(f1, f2);
  }

  /**
    `setSynthParametersFrom`: sets the shared amplitude from the touch height and the shared
    frequency from the touch position, then shows both, truncated, on the label.
   */
  function SetSynthParametersFrom(app: App, bounds: Bounds, coord: Point): (r: App)
    requires Nonempty(bounds)
    ensures r.synth == app.synth
    ensures 0.0 <= coord.y <= bounds.height ==> 0.0 <= r.osc.amplitude <= 1.0
    ensures 0.0 <= coord.x <= bounds.width ==> LowestHertz <= r.osc.frequency <= LowestHertz + HertzSpan
    ensures r.readout == Readout(Hertz(r.osc.frequency), Percent(r.osc.amplitude))
    ensures 0.0 <= coord.x <= bounds.width && 0.0 <= coord.y <= bounds.height ==>
              32 <= r.readout.hertz <= 1046 && 0 <= r.readout.percent <= 100
  {
    var osc := Params(AmplitudeFromY(bounds.height, coord.y), FrequencyFromX(bounds.width, coord.x));
    App(app.synth, osc, Readout(Hertz(osc.frequency), Percent(osc.amplitude)))
  }

  /** A frequency in the selectable range is selected by a position within the width. */
  lemma XForFrequencyInView(width: real, f: real)
    requires width > 0.0
    requires LowestHertz <= f <= LowestHertz + HertzSpan
    ensures 0.0 <= XForFrequency(width, f) <= width
  {
    var u := (f - LowestHertz) / HertzSpan;
    assert 0.0 <= u <= 1.0;
    ScaleWithinUnit(width, u);
    assert XForFrequency(width, f) == u * width;
  }

  /** An amplitude in [0, 1] is selected by a height within the view. */
  lemma YForAmplitudeInView(height: real, a: real)
    requires height > 0.0
    requires 0.0 <= a <= 1.0
    ensures 0.0 <= YForAmplitude(height, a) <= height
  {
    ScaleWithinUnit(height, a);
  }

  /**
    Any setting in range is reachable by touch: the point built from the inverse maps lies in
    the view and selects exactly that amplitude and frequency.
   */
  lemma EverySettingReachable(app: App, bounds: Bounds, a: real, f: real)
    requires Nonempty(bounds)
    requires 0.0 <= a <= 1.0
    requires LowestHertz <= f <= LowestHertz + HertzSpan
    ensures var p := Point(XForFrequency(bounds.width, f), YForAmplitude(bounds.height, a));
            0.0 <= p.x <= bounds.width && 0.0 <= p.y <= bounds.height &&
            SetSynthParametersFrom(app, bounds, p).osc == Params(a, f)
  {
    var x := XForFrequency(bounds.width, f);
    var y := YForAmplitude(bounds.height, a);
    XForFrequencyInView(bounds.width, f);
    YForAmplitudeInView(bounds.height, a);
    assert SetSynthParametersFrom(app, bounds, Point(x, y)).osc
        == Params(AmplitudeFromY(bounds.height, y), FrequencyFromX(bounds.width, x));
    AmplitudeRoundTrip(bounds.height, 0.0, a);
    FrequencyRoundTrip(bounds.width, 0.0, f);
  }

  // ----- Waveform selector -----

  /**
    `updateOscillatorWaveform`: converts the selected segment to a waveform and installs the
    matching oscillator (each case installs the closure of the same name, which the model
    identifies with the case itself). An index that is not a waveform's raw value stops the program at the
    force unwrap; that outcome is `None`.
   */
  function UpdateOscillatorWaveform(app: App, index: int): (r: Option<App>)
    ensures r.Some? <==> 0 <= index < WaveformCount
    ensures r.Some? ==> RawValue(r.value.synth.signal) == index
    ensures r.Some? ==> r.value == app.(synth := r.value.synth)
    ensures r.Some? ==> r.value.synth == app.synth.(signal := r.value.synth.signal)
  {
    match FromRawValue(index)
    case None => None
    case Some(w) => Some(app.(synth := SetWaveformTo(app.synth, w)))
  }

  /** The segments in order are sine, triangle, sawtooth, square and white noise. */
  lemma SegmentOrder(app: App)
    ensures UpdateOscillatorWaveform(app, 0) == Some(app.(synth := app.synth.(signal := Sine)))
    ensures UpdateOscillatorWaveform(app, 1) == Some(app.(synth := app.synth.(signal := Triangle)))
    ensures UpdateOscillatorWaveform(app, 2) == Some(app.(synth := app.synth.(signal := Sawtooth)))
    ensures UpdateOscillatorWaveform(app, 3) == Some(app.(synth := app.synth.(signal := Square)))
    ensures UpdateOscillatorWaveform(app, 4) == Some(app.(synth := app.synth.(signal := WhiteNoise)))
  {
  }

  /** Selecting the segment of a waveform installs that waveform, whichever was installed before. */
  lemma SelectingInstalls(app: App, w: Waveform)
    ensures UpdateOscillatorWaveform(app, RawValue(w)) == Some(app.(synth := SetWaveformTo(app.synth, w)))
  {
    RawValueRoundTrip(w);
  }

  // ----- Playback state and touches -----

  /** `setPlaybackStateTo`: volume 0.5 to play, 0 to stop; nothing else changes. */
  function SetPlaybackStateTo(app: App, state: bool): (r: App)
    ensures r.synth.volume == (if state then PlayingVolume else SilentVolume)
    ensures r.osc == app.osc && r.readout == app.readout
    ensures r.synth == app.synth.(volume := r.synth.volume)
  {
    app.(synth := SetVolume(app.synth, if state then 0.5 else 0.0))
  }

  /**
    The four touch callbacks. A touch that begins starts playback and, when the set holds a
    touch, takes the parameters from it; a moving touch only takes the parameters; a touch that
    ends or is cancelled stops playback and resets the label.
   */
  function Handle(app: App, bounds: Bounds, event: TouchEvent): (r: App)
    requires Nonempty(bounds)
    ensures r.synth.signal == app.synth.signal && r.synth.time == app.synth.time
    ensures r.synth.deltaTime == app.synth.deltaTime && r.synth.sampleRate == app.synth.sampleRate
    ensures event.Began? ==> r.synth.volume == PlayingVolume
    ensures event.Moved? ==> r.synth.volume == app.synth.volume
    ensures event.Ended? || event.Cancelled? ==>
              r.synth.volume == SilentVolume && r.osc == app.osc && r.readout == IdleReadout
    ensures (event.Began? || event.Moved?) && event.touch.None? ==> r.osc == app.osc && r.readout == app.readout
    ensures (event.Began? || event.Moved?) && event.touch.Some? ==>
              r.osc == SetSynthParametersFrom(app, bounds, event.touch.value).osc &&
              r.readout == SetSynthParametersFrom(app, bounds, event.touch.value).readout
  {
    match event
    case Began(touch) =>
      var playing := SetPlaybackStateTo(app, true);
      if touch.None? then playing else SetSynthParametersFrom(playing, bounds, touch.value)
    case Moved(touch) =>
      if touch.None? then app else SetSynthParametersFrom(app, bounds, touch.value)
    case Ended =>
      SetPlaybackStateTo(app, false).(readout := IdleReadout)
    case Cancelled =>
      SetPlaybackStateTo(app, false).(readout := IdleReadout)
  }

  /** The touch callbacks delivered in order, first event first. */
  function Replay(app: App, bounds: Bounds, events: seq<TouchEvent>): (r: App)
    requires Nonempty(bounds)
    ensures r.synth.signal == app.synth.signal && r.synth.time == app.synth.time
    decreases |events|
  {
    if |events| == 0 then app
    else Handle(Replay(app, bounds, events[..|events| - 1]), bounds, events[|events| - 1])
  }

  /**
    The playback switch the events leave behind: `Some(true)` when the last event that touches
    playback is a `Began`, `Some(false)` when it is an `Ended` or `Cancelled`, `None` when no
    event touches playback.
   */
  function LastPlaybackSwitch(events: seq<TouchEvent>): Option<bool>
    decreases |events|
  {
    if |events| == 0 then None
    else
      var e := events[|events| - 1];
      if e.Began? then Some(true)
      else if e.Ended? || e.Cancelled? then Some(false)
      else LastPlaybackSwitch(events[..|events| - 1])
  }

  /**
    Volume is a two-state machine driven by the touches: after any sequence of touch events
    it is 0.5 exactly when the last begin/end/cancel was a begin, 0 when it was an end or a
    cancel, and unchanged when there was none.
   */
  lemma {:induction false} VolumeFollowsLastSwitch(app: App, bounds: Bounds, events: seq<TouchEvent>)
    requires Nonempty(bounds)
    ensures Replay(app, bounds, events).synth.volume ==
              match LastPlaybackSwitch(events)
              case None => app.synth.volume
              case Some(on) => if on then PlayingVolume else SilentVolume
    decreases |events|
  {
    if |events| > 0 {
      VolumeFollowsLastSwitch(app, bounds, events[..|events| - 1]);
    }
  }

  /** Starting from a silent or playing engine, the volume is 0 or 0.5 after any touch events. */
  lemma {:induction false} VolumeTwoState(app: App, bounds: Bounds, events: seq<TouchEvent>)
    requires Nonempty(bounds)
    requires app.synth.volume == SilentVolume || app.synth.volume == PlayingVolume
    ensures var v := Replay(app, bounds, events).synth.volume;
            v == SilentVolume || v == PlayingVolume
  {
    VolumeFollowsLastSwitch(app, bounds, events);
  }

  /** After launch and any touches, the synth plays exactly while the last switch was a begin. */
  lemma {:induction false} PlaysOnlyWhileTouched(sampleRate: real, bounds: Bounds, events: seq<TouchEvent>)
    requires sampleRate > 0.0
    requires Nonempty(bounds)
    ensures Replay(InitialApp(sampleRate), bounds, events).synth.volume == PlayingVolume
        <==> LastPlaybackSwitch(events) == Some(true)
  {
    VolumeFollowsLastSwitch(InitialApp(sampleRate), bounds, events);
  }
}
