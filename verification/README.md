# swiftSynth signal path in Dafny

swiftSynth is a one-screen iOS synthesizer. While a finger is down it plays one of five
waveforms. The finger's height sets the amplitude and its horizontal position sets the
frequency. This project models the path from a touch to the samples:

- **`Oscillator`** (`oscillator.dfy`): the `Waveform` selector and its raw values, and the
  shared amplitude/frequency settings.
  - The five oscillator closures: sine, triangle, sawtooth, square and white noise.
  - The normalised phase `fmod(t, period) / period` that the periodic waveforms share.
- **`SynthEngine`** (`synth.dfy`): the engine state.
  - The engine's fields: time cursor, per-sample duration, installed signal and mixer volume.
  - `init` defaults, `setWaveformTo` and the `volume` setter.
  - The render callback of the audio source node. For each frame it samples the signal at the
    cursor, advances the cursor, and writes the sample to that frame of every channel.
- **`SynthViewController`** (`synth_view_controller.dfy`): the unit conversions from touch to
  parameters (y to amplitude, x to frequency, the two integers on the label).
  - The segment-index dispatch to a waveform.
  - The play/stop volume switch and the four touch callbacks that drive it.
- **`RealArith`** (`real_arith.dfy`): exact counterparts of the numeric primitives the code
  calls: C's `fmod`, which truncates toward zero, and Swift's `Int(_:)`, also truncation
  toward zero.
- **`Optionals`** (`optionals.dfy`): the `Option` type.

All numbers are exact reals. The foreign calls are parameters:
- `sin` is a function `real -> real`, assumed to stay within [-1, 1] (`UnitRange`).
- Each call to `Float.random(in: -1...1)` is one value of a `draws` sequence, one per frame.

Channel buffers are sequences of sample sequences. The render returns the filled buffers
rather than writing through pointers.

In these edge cases the model follows the code as written:
- **Zero frequency.** The code has no guard against it. In floating point, `1 / 0` is
  +infinity, `fmod(t, +infinity)` is `t`, and `t / +infinity` is 0. So the phase is 0 and
  nothing traps. `NormalisedPhase` returns that value.
- **Negative frequency.** Phases are modelled exactly as the truncating `fmod` gives them,
  and those phases can be negative. `NegativeFrequencyLeavesRange` shows a triangle and a
  sawtooth leaving [-amplitude, amplitude] at frequency -1.
- **Phase definition.** The phase is the truncating `fmod` quotient, not a floor-based
  fraction. `PhaseIsFraction` proves the two agree for non-negative time and positive
  frequency.
- **Render status.** The render callback reports `noErr` for every frame count, including 0.
  Nothing in it rejects a zero or undersized buffer.
- **Square wave.** The low half of the square wave is `-1.0 * amplitude`. That is
  `-amplitude` for every amplitude.

## Model

| member | source | states |
|---|---|---|
| Oscillator.RawValue | swiftSynth/Audio/Oscillator.swift:12-15 | each waveform's implicit `Int` raw value lies in 0..4 |
| Oscillator.FromRawValue | swiftSynth/Audio/Oscillator.swift:12-15 | `Waveform(rawValue:)` succeeds exactly for 0..4, and the waveform it yields has that raw value |
| Oscillator.RawValueRoundTrip | swiftSynth/Audio/Oscillator.swift:12-15 | converting a waveform to its raw value and back gives the same waveform |
| Oscillator.RawValueInjective | swiftSynth/Audio/Oscillator.swift:14 | distinct cases have distinct raw values |
| RealArith.Fmod | swiftSynth/Audio/Oscillator.swift:42 | C `fmod` differs from the dividend by an integer multiple of the divisor, has the dividend's sign and is smaller in magnitude than the divisor |
| RealArith.FmodUnique | swiftSynth/Audio/Oscillator.swift:42 | those three facts determine the value: any remainder meeting them equals `Fmod` |
| RealArith.Trunc | swiftSynth/Controllers/SynthViewController.swift:119-120 | `Int(x)` is the integer next to x toward zero: `n <= x < n + 1` for x >= 0, `n - 1 < x <= n` for x < 0 |
| RealArith.TruncMonotone | swiftSynth/Controllers/SynthViewController.swift:119-120 | truncation never turns a larger value into a smaller integer |
| Oscillator.NormalisedPhase | swiftSynth/Audio/Oscillator.swift:41-43 | the phase is 0 at frequency 0 and lies in [0, 1) for time >= 0 and frequency > 0; for the other signs of time and frequency, it is the sign-flipped range that truncating `fmod` gives |
| Oscillator.PhaseIsFraction | swiftSynth/Audio/Oscillator.swift:41-43 | for time >= 0 and frequency > 0, the phase is the fractional part of the elapsed cycles `t * frequency` |
| Oscillator.PhaseAfterCycles | swiftSynth/Audio/Oscillator.swift:41-43 | at time (n + q) periods, with 0 <= q < 1, the phase is q |
| Oscillator.PhasePeriodic | swiftSynth/Audio/Oscillator.swift:41-43 | the phase repeats one period later |
| Oscillator.ZeroFrequencyFallback | swiftSynth/Audio/Oscillator.swift:40-74 | at frequency 0, at every time, the triangle is 0, the sawtooth -amplitude and the square amplitude |
| Oscillator.PhaseAtZero | swiftSynth/Audio/Oscillator.swift:41-43 | at time 0 the phase is 0 for every frequency |
| Oscillator.TriangleShape | swiftSynth/Audio/Oscillator.swift:47-53 | the piecewise rule maps [0, 1] into [-1, 1] |
| Oscillator.TriangleSample | swiftSynth/Audio/Oscillator.swift:40-56 | amplitude 0 gives silence |
| Oscillator.TriangleWithinAmplitude | swiftSynth/Audio/Oscillator.swift:47-55 | for amplitude, frequency and time >= 0, the triangle lies in [-amplitude, amplitude] |
| Oscillator.TriangleContinuous | swiftSynth/Audio/Oscillator.swift:47-53 | within a period the rule changes by at most 4 times the phase change, so both breakpoints join; it returns toward 0 as the period ends |
| Oscillator.TriangleQuarterPoints | swiftSynth/Audio/Oscillator.swift:45-55 | at phases 0, 0.25, 0.5 and 0.75 of every period, the triangle is 0, amplitude, 0 and -amplitude |
| Oscillator.SawtoothSample | swiftSynth/Audio/Oscillator.swift:61-65 | amplitude 0 gives silence; the value is `Ramp`, the rule `amplitude * (2p - 1)` of line 64, at the shared phase |
| Oscillator.SawtoothWithinAmplitude | swiftSynth/Audio/Oscillator.swift:61-65 | for amplitude, frequency and time >= 0, the sawtooth lies in [-amplitude, amplitude], strictly below amplitude when amplitude > 0 |
| Oscillator.RampIncreasing | swiftSynth/Audio/Oscillator.swift:64 | for amplitude > 0, `amplitude * (2p - 1)` is strictly increasing in p |
| Oscillator.RampBounds | swiftSynth/Audio/Oscillator.swift:64 | for p in [0, 1) the ramp stays in [-amplitude, amplitude), and reaches amplitude only when amplitude is 0 |
| Oscillator.SawtoothRisesWithinPeriod | swiftSynth/Audio/Oscillator.swift:61-65 | within one period the sawtooth rises strictly over time |
| Oscillator.SawtoothFollowsPhase | swiftSynth/Audio/Oscillator.swift:61-65 | for amplitude > 0, the sawtooth orders two times the way their phases are ordered |
| Oscillator.SawtoothAtFraction | swiftSynth/Audio/Oscillator.swift:61-65 | at fraction q of any period the sawtooth is `amplitude * (2q - 1)` |
| Oscillator.SawtoothRestartsEachPeriod | swiftSynth/Audio/Oscillator.swift:61-65 | every period starts at -amplitude |
| Oscillator.SquareSample | swiftSynth/Audio/Oscillator.swift:70-74 | the square is always amplitude or -amplitude, so its magnitude equals the amplitude's |
| Oscillator.SquareHalves | swiftSynth/Audio/Oscillator.swift:70-74 | amplitude in the first half of each period, -amplitude in the second |
| Oscillator.SineSample | swiftSynth/Audio/Oscillator.swift:30-32 | amplitude 0 gives silence; the sine is taken of `Angle`, the product `2 * Float.pi * frequency * t` of line 31 |
| Oscillator.SineWithinAmplitude | swiftSynth/Audio/Oscillator.swift:30-32 | with a sine bounded by 1 and amplitude >= 0, the sine wave lies in [-amplitude, amplitude] |
| Oscillator.WhiteNoiseSample | swiftSynth/Audio/Oscillator.swift:80-82 | amplitude 0 gives silence, whatever the draw |
| Oscillator.WhiteNoiseWithinAmplitude | swiftSynth/Audio/Oscillator.swift:80-82 | a draw in [-1, 1] with amplitude >= 0 lies in [-amplitude, amplitude] |
| Oscillator.Evaluate | swiftSynth/Audio/Oscillator.swift:30-82 | every waveform is silent at amplitude 0 |
| Oscillator.SampleWithinAmplitude | swiftSynth/Audio/Oscillator.swift:30-82 | every waveform lies in [-amplitude, amplitude] for amplitude, frequency and time >= 0, given a bounded sine and draw |
| Oscillator.AtTimeZero | swiftSynth/Audio/Oscillator.swift:40-74 | at time 0 the triangle is 0, the sawtooth -amplitude, the square amplitude, and the sine 0 when sin(0) = 0 |
| Oscillator.NegativeFrequencyLeavesRange | swiftSynth/Audio/Oscillator.swift:41-43 | with frequency -1 at t = 0.5, the triangle and the sawtooth both give -2, outside the amplitude |
| SynthEngine.Init | swiftSynth/Audio/Synth.swift:64-87 | a new engine has its cursor at 0, sine by default, `deltaTime * sampleRate == 1` and the mixer at volume 0 |
| SynthEngine.SetWaveformTo | swiftSynth/Audio/Synth.swift:101-104 | only the installed signal changes: cursor, delta, sample rate and volume stay |
| SynthEngine.SetWaveformToLastWins | swiftSynth/Audio/Synth.swift:101-104 | two swaps equal the last one; reinstalling the current signal changes nothing |
| SynthEngine.SetVolume | swiftSynth/Audio/Synth.swift:24-31 | the volume setter changes only the volume |
| SynthEngine.Samples | swiftSynth/Audio/Synth.swift:48-50 | reference definition of n frames: sample at the cursor, then advance; yields exactly n samples |
| SynthEngine.SamplesClosedForm | swiftSynth/Audio/Synth.swift:49-50 | frame i is the signal at `t0 + i * deltaTime`, because the sample is taken before the cursor advances |
| SynthEngine.InstalledSamples | swiftSynth/Audio/Synth.swift:49-50 | frame i of the installed waveform is that waveform's sample at `t0 + i * deltaTime` with the i-th draw |
| SynthEngine.SamplesSplit | swiftSynth/Audio/Synth.swift:48-50 | n + m frames in one call equal n frames followed by m frames from where the cursor stopped |
| SynthEngine.RenderedWithinAmplitude | swiftSynth/Audio/Synth.swift:48-50 | from a cursor >= 0, every rendered sample of any waveform lies in [-amplitude, amplitude] |
| SynthEngine.NextFrameTime | swiftSynth/Audio/Synth.swift:50 | advancing the cursor by one delta moves it to the next frame's time |
| SynthEngine.WriteFrame | swiftSynth/Audio/Synth.swift:51-54 | every channel holds the sample at index `frame`; all other entries are unchanged |
| SynthEngine.RenderFrames | swiftSynth/Audio/Synth.swift:48-55 | the cursor ends at `t0 + frameCount * deltaTime`; every channel's prefix is the `Samples` of those frames; entries from `frameCount` on are untouched; buffer shapes are kept |
| SynthEngine.Render | swiftSynth/Audio/Synth.swift:42-58 | returns `noErr` for every frame count, including 0; only the cursor changes; the signal sampled is `SignalOf` the installed waveform, its closure over the shared settings; every channel agrees at each frame; prefix equals the reference samples; suffix is untouched |
| SynthViewController.InitialApp | swiftSynth/Audio/Synth.swift:64-87 | at launch the engine is silent and plays the sine; the settings are `DefaultParams`, amplitude 1 and 440 Hz (swiftSynth/Audio/Oscillator.swift:20-21); the label shows 0 Hz and 0% (swiftSynth/Controllers/SynthViewController.swift:19) |
| SynthViewController.AmplitudeFromY | swiftSynth/Controllers/SynthViewController.swift:116 | for 0 <= y <= height, the amplitude `(height - y) / height` lies in [0, 1]: 1 at the top, 0 at the bottom |
| SynthViewController.AmplitudeRoundTrip | swiftSynth/Controllers/SynthViewController.swift:116 | the height-to-amplitude map and its inverse undo each other in both directions |
| SynthViewController.AmplitudeNonIncreasing | swiftSynth/Controllers/SynthViewController.swift:116 | a lower touch never gives a higher amplitude; a strictly lower one gives a strictly lower amplitude |
| SynthViewController.YForAmplitudeInView | swiftSynth/Controllers/SynthViewController.swift:116 | every amplitude in [0, 1] comes from a height inside the view |
| SynthViewController.FrequencyFromX | swiftSynth/Controllers/SynthViewController.swift:117 | for 0 <= x <= width, the frequency `(x / width) * 1014 + 32` lies in [32, 1046] Hz: 32 at the left edge, 1046 at the right |
| SynthViewController.FrequencyRoundTrip | swiftSynth/Controllers/SynthViewController.swift:117 | the position-to-frequency map and its inverse undo each other in both directions |
| SynthViewController.FrequencyNonDecreasing | swiftSynth/Controllers/SynthViewController.swift:117 | a touch further right never gives a lower frequency; strictly further right gives a strictly higher one |
| SynthViewController.XForFrequencyInView | swiftSynth/Controllers/SynthViewController.swift:117 | every frequency in [32, 1046] comes from a position inside the view |
| SynthViewController.Percent | swiftSynth/Controllers/SynthViewController.swift:119 | the percent is the truncation of amplitude * 100, so it lies in 0..100 for amplitudes in [0, 1] and is 100 at amplitude 1 |
| SynthViewController.Hertz | swiftSynth/Controllers/SynthViewController.swift:120 | the frequency figure is the truncated frequency, so it lies in 32..1046 for frequencies in range |
| SynthViewController.ReadoutMonotone | swiftSynth/Controllers/SynthViewController.swift:119-120 | a higher amplitude or frequency never shows a lower figure |
| SynthViewController.SetSynthParametersFrom | swiftSynth/Controllers/SynthViewController.swift:115-122 | a touch inside the view sets amplitude in [0, 1] and frequency in [32, 1046]; the label shows their truncations, within 32..1046 and 0..100; the engine is untouched |
| SynthViewController.EverySettingReachable | swiftSynth/Controllers/SynthViewController.swift:115-118 | every amplitude in [0, 1] paired with every frequency in [32, 1046] is set by some touch inside the view |
| SynthViewController.UpdateOscillatorWaveform | swiftSynth/Controllers/SynthViewController.swift:55-64 | succeeds exactly for segment indices 0..4 (otherwise the force unwrap traps); installs the waveform with that raw value; changes nothing else |
| SynthViewController.SegmentOrder | swiftSynth/Controllers/SynthViewController.swift:56-63 | segments 0 to 4 install sine, triangle, sawtooth, square and white noise |
| SynthViewController.SelectingInstalls | swiftSynth/Controllers/SynthViewController.swift:56-63 | selecting the segment of any waveform installs exactly that waveform |
| SynthViewController.SetPlaybackStateTo | swiftSynth/Controllers/SynthViewController.swift:66-68 | playing sets the volume to 0.5, stopping sets it to 0; nothing else changes |
| SynthViewController.Handle | swiftSynth/Controllers/SynthViewController.swift:73-95 | begin sets volume 0.5; move keeps the volume; end and cancel set 0 and reset the label; a begin or move carrying a touch sets the settings and the label as `SetSynthParametersFrom` does for that point; one with no touch in the set leaves them alone; no touch changes the signal or the cursor |
| SynthViewController.Replay | swiftSynth/Controllers/SynthViewController.swift:73-95 | no sequence of touches changes the installed signal or the cursor |
| SynthViewController.VolumeFollowsLastSwitch | swiftSynth/Controllers/SynthViewController.swift:66-95 | after any touches the volume is 0.5 if the last begin/end/cancel was a begin, 0 if it was an end or cancel, unchanged if there was none |
| SynthViewController.VolumeTwoState | swiftSynth/Controllers/SynthViewController.swift:66-95 | from volume 0 or 0.5, the volume stays in {0, 0.5} after any touch events |
| SynthViewController.PlaysOnlyWhileTouched | swiftSynth/Controllers/SynthViewController.swift:66-95 | from launch, the synth is at volume 0.5 exactly when the last begin/end/cancel was a begin |

## Left out

- Floating point. `Float`/`Double` rounding is not modelled. That covers the mixed
  `Float`/`Double` arithmetic of the sawtooth, the precision of `fmod`, single-precision `time`,
  and the drift of the cursor over long runs. All values are exact reals; only `Float.pi`
  keeps its single-precision value.
- `sin` and `Float.random(in:)`: foreign calls. The sine is a parameter assumed bounded by 1.
  The draws are a parameter sequence, assumed in [-1, 1] where a bound is claimed.
- AVAudioEngine. Construction, node attach/connect, format negotiation, `start()` and its
  error print (`swiftSynth/Audio/Synth.swift:66-95`) are device I/O. The sample rate is a
  parameter of `Init`, and the `volume` property is a field rather than the mixer's output
  volume.
- Concurrency. The render callback, the static `amplitude`/`frequency` and the `signal` swap
  are shared across threads; the model is sequential.
- The singleton `Synth.shared`. The engine is one explicit state value.
- UIKit layout, colours, images and the label's strings
  (`swiftSynth/Controllers/SynthViewController.swift:16-38`, `:100-110`). The label is the
  pair of integers it shows. The slightly different strings written at launch, on end and on
  cancel are not distinguished.
- SynthEngine.Init: requires a positive sample rate. A zero rate would make `deltaTime`
  infinite in floating point, which reals cannot represent.
- SynthViewController.AmplitudeFromY, SynthViewController.FrequencyFromX,
  SynthViewController.SetSynthParametersFrom, SynthViewController.Handle: require a view of
  positive width and height. An empty view divides by zero into infinities or NaN, which reals
  cannot represent.
- SynthEngine.Render: requires every channel to hold at least `frameCount` samples, and
  `frameCount` draws. The code writes `buf[frame]` without checking. The audio system supplies
  buffers of that size, and a shorter one would be an out-of-bounds write.
- SynthViewController.Percent, SynthViewController.Hertz: Swift's `Int(_:)` traps on NaN,
  infinity and values outside `Int`'s range. With exact reals and the ranges above, those
  inputs do not arise, so the trap is not modelled.
