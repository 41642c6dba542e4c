# Sidechain ducker DSP core, modelled in Dafny

This project models the signal path of a look-ahead sidechain ducker
plugin. Every sample, the plugin does the following:

- sums the sidechain to mono;
- passes it through an optional high-pass and an optional low-pass
  biquad;
- runs a four-state envelope (Idle, Attack, Hold, Release) that triggers
  when the filtered level crosses a threshold in dB;
- turns the shaped envelope into a gain between 1 and a floor;
- latches that gain per channel at zero crossings, if asked to;
- delays the main signal through a circular delay line per channel;
- blends the delayed (dry) signal with its ducked (wet) copy;
- replaces the output with the filtered sidechain in "listen" mode;
- meters the block's peak gain reduction.

The project has five modules, one per source file and one for block-level
consequences of the ducker model:

- `DSPUtils` (`dsp_utils.dfy`) holds the pure helpers:
  - decibel conversion with a −100 dB floor;
  - the one-pole coefficient;
  - hard clipping and the affine remap;
  - the Audio EQ Cookbook high-pass and low-pass biquad designs;
  - the envelope curve shapes.
- `Envelope` (`envelope_generator.dfy`) holds the envelope state machine.
  - The pure function `Step` says what one sample does.
  - The class `EnvelopeGenerator` does it to its fields.
- `Sidechain` (`sidechain_processor.dfy`) holds the two cascaded
  direct-form-I biquads with per-channel histories.
  - The pure functions `FilterStep` and `RunChannel` describe one sample
    and one run.
  - The class `SidechainProcessor` updates its history fields and filters
    buffers in place.
- `Ducking` (`ducker.dfy`) holds the ducker.
  - The pure functions `Tick` and `Run` describe one sample and one block.
  - The class `Ducker` owns an envelope generator and a sidechain
    processor, keeps its delay lines as sequence fields, and processes
    `array<real>` buffers in place.
  - `Ducker.Process` is proved to leave exactly `Run`'s outputs, state and
    peak reduction.
- `DuckingBlocks` (`ducker_blocks.dfy`) proves that a sample of a block
  is settled once it has run, and so extends the delay property after a
  reset to every sample of a block. It also proves that the reported
  latency fits the delay lines.

Each imperative method is proved against a pure function of the old
state. The properties of the plugin are then proved as lemmas about those
functions.

Floating point is modelled by `real`. `static_cast<int>` is modelled by
`Trunc`, which truncates toward zero. The transcendental functions
`log10`, `pow`, `exp`, `sin`, `cos` and `sqrt` are the fields of a `Math`
value. The only facts assumed about them are the ones `Math.Sound()`
lists:

- `pow(10, y)` is positive, and at most 1 for `y ≤ 0`;
- `log10` and `pow(10, ·)` are inverse;
- `exp` maps negatives into (0, 1);
- `sin` lies in [−1, 1];
- `sqrt` is monotone, with fixed points 0 and 1;
- `cos(0) = 1`, `cos(π) = −1`, and `cos` falls on [0, π].

## Model

| member | source | states |
|---|---|---|
| DSPUtils.Trunc | Source/DSP/Ducker.cpp:17 | The cast to int truncates toward zero: for x ≥ 0 it is the largest integer not above x, for x < 0 the smallest not below it |
| DSPUtils.TruncMonotone | Source/DSP/Ducker.cpp:17 | Truncation is monotone |
| DSPUtils.MsToSamples | Source/DSP/EnvelopeGenerator.cpp:118 | A non-negative time at a non-negative rate gives a non-negative sample count |
| DSPUtils.LinearToDecibels | Source/DSP/DSPUtils.h:8-11 | Every input ≤ 0 gives exactly −100 dB, never −∞ |
| DSPUtils.DecibelsToLinearBounds | Source/DSP/DSPUtils.h:13-16 | The gain for a level in dB is positive, and at most 1 for a level ≤ 0 dB |
| DSPUtils.LevelRoundTrip | Source/DSP/DSPUtils.h:8-16 | For a positive linear value, converting to dB and back returns it |
| DSPUtils.DecibelRoundTrip | Source/DSP/DSPUtils.h:8-16 | Converting a level in dB to linear and back returns it |
| DSPUtils.MapRange | Source/DSP/DSPUtils.h:19-22 | When inMax ≠ inMin, inMin maps to outMin and inMax maps to outMax |
| DSPUtils.MapRangeInverse | Source/DSP/DSPUtils.h:19-22 | Mapping back with the ranges swapped recovers the value, so the remap is a bijection |
| DSPUtils.HardClip | Source/DSP/DSPUtils.h:30-33 | For a threshold t ≥ 0 the result lies in [−t, t]; it equals the sample when the sample is inside, −t below and t above |
| DSPUtils.CalculateCoefficient | Source/DSP/DSPUtils.h:36-40 | A time ≤ 0 gives the instant coefficient 1 |
| DSPUtils.CoefficientInUnit | Source/DSP/DSPUtils.h:36-40 | At a positive rate, every time gives a coefficient in (0, 1] |
| DSPUtils.HighPassRecipe | Source/DSP/DSPUtils.h:58-63 | For any cos ω0 and alpha with 1 + alpha ≠ 0: b1 = −2·b0, b2 = b0, zero gain at DC, unity gain at Nyquist |
| DSPUtils.LowPassRecipe | Source/DSP/DSPUtils.h:77-82 | For any cos ω0 and alpha with 1 + alpha ≠ 0: b1 = 2·b0, b2 = b0, unity gain at DC, zero gain at Nyquist |
| DSPUtils.RecipesSharePoles | Source/DSP/DSPUtils.h:58-82 | The high-pass and low-pass recipes have the same a1 and a2 |
| DSPUtils.ButterworthNormaliserPositive | Source/DSP/DSPUtils.h:50-55 | At Q = 0.707 the normaliser a0 = 1 + alpha is positive, so every design is defined |
| DSPUtils.CalcHighPass | Source/DSP/DSPUtils.h:50-66 | The designed high-pass has b1 = −2·b0, b2 = b0 and blocks DC |
| DSPUtils.CalcLowPass | Source/DSP/DSPUtils.h:69-85 | The designed low-pass has b1 = 2·b0, b2 = b0 and unity gain at DC |
| DSPUtils.DesignsSharePoles | Source/DSP/DSPUtils.h:50-85 | A high-pass and a low-pass designed for the same rate, cut-off and Q have the same a1 and a2 |
| DSPUtils.ApplyCurveShape | Source/DSP/DSPUtils.h:96-112 | A shape value outside the four named cases falls through to the default and returns the value unchanged |
| DSPUtils.CurveShapeInUnit | Source/DSP/DSPUtils.h:96-112 | Every shape maps [0, 1] into [0, 1], 0 to 0 and 1 to 1 |
| DSPUtils.CurveShapeMonotone | Source/DSP/DSPUtils.h:96-112 | Every shape is non-decreasing on [0, 1] |
| Envelope.AttackStaysInUnit | Source/DSP/EnvelopeGenerator.cpp:55 | An attack step with a coefficient in [0, 1] never lowers the envelope and keeps it at most 1 |
| Envelope.ReleaseStaysInUnit | Source/DSP/EnvelopeGenerator.cpp:72 | A release step with a coefficient in [0, 1] never raises the envelope and keeps it at least 0 |
| Envelope.ShouldTrigger | Source/DSP/EnvelopeGenerator.cpp:26-29 | A silent input triggers exactly when the threshold is below the −100 dB floor |
| Envelope.Step | Source/DSP/EnvelopeGenerator.cpp:23-80 | After every sample the envelope is exactly 0 in Idle and exactly 1 in Hold |
| Envelope.StepKeepsConsistent | Source/DSP/EnvelopeGenerator.cpp:20-80 | With coefficients in [0, 1], a step keeps the envelope in [0, 1], keeps `triggered ⇔ state ≠ Idle`, and keeps the Idle = 0 and Hold = 1 values |
| Envelope.TriggerStartsAttack | Source/DSP/EnvelopeGenerator.cpp:31-68 | A trigger sets `triggered` and loads the hold counter. It moves Idle and Release to Attack before the per-state update. The sample ends in Attack or Hold, with the counter at holdSamples, or holdSamples − 1 from Hold |
| Envelope.HoldRetrigger | Source/DSP/EnvelopeGenerator.cpp:40-67 | A trigger in Hold stays in Hold with the envelope at 1 and the counter at holdSamples − 1 |
| Envelope.AttackRises | Source/DSP/EnvelopeGenerator.cpp:54-61 | In Attack the envelope never falls and stays at most 1. It moves to Hold exactly when the new value reaches 0.999, snapping to 1; otherwise it stays in Attack at the new value |
| Envelope.ReleaseFalls | Source/DSP/EnvelopeGenerator.cpp:71-79 | In Release without a trigger the envelope never rises and stays at least 0. It moves to Idle exactly when the new value falls below 0.001, snapping to 0 and clearing `triggered`; otherwise it stays in Release |
| Envelope.HoldExit | Source/DSP/EnvelopeGenerator.cpp:63-69 | Hold is left only for Release, and exactly when the decremented counter is ≤ 0 and there was no trigger; the envelope stays 1 |
| Envelope.HoldLasts | Source/DSP/EnvelopeGenerator.cpp:63-69 | Without triggers, Hold lasts while the counter stays positive, counting down by one per sample |
| Envelope.HoldEnds | Source/DSP/EnvelopeGenerator.cpp:63-69 | Without triggers, Hold turns into Release after exactly holdCounter samples |
| Envelope.ReleaseDecays | Source/DSP/EnvelopeGenerator.cpp:71-79 | Without triggers, Release and Idle never rise again and stay consistent, however many samples pass |
| Envelope.QuietFirst | Source/DSP/EnvelopeGenerator.cpp:23-84 | n samples below threshold are the first such sample followed by n − 1 more |
| Envelope.LoudFirst | Source/DSP/EnvelopeGenerator.cpp:23-84 | n samples above threshold are the first such sample followed by n − 1 more |
| Envelope.ReleaseStep | Source/DSP/EnvelopeGenerator.cpp:71-79 | One quiet sample keeps the release bound: a releasing envelope within 1 / (1 + t) goes idle or stays releasing within 1 / (1 + t + releaseCoeff) |
| Envelope.ReleaseEndsWithin | Source/DSP/EnvelopeGenerator.cpp:71-79 | A quiet follower releasing within the bound for t is idle once t + n·releaseCoeff reaches 1000 |
| Envelope.ReleaseReachesIdle | Source/DSP/EnvelopeGenerator.cpp:71-79 | Without triggers, Release ends: after any n samples with n·releaseCoeff ≥ 1000 the follower is Idle, at 0 and untriggered |
| Envelope.AttackStep | Source/DSP/EnvelopeGenerator.cpp:31-61 | One loud sample keeps the attack bound: a follower short of Hold within distance 1 / (1 + t) of full scale reaches Hold or stays within 1 / (1 + t + attackCoeff); Hold stays Hold |
| Envelope.AttackEndsWithin | Source/DSP/EnvelopeGenerator.cpp:31-69 | A loud follower within the attack bound for t is holding once t + n·attackCoeff reaches 1000 |
| Envelope.AttackReachesHold | Source/DSP/EnvelopeGenerator.cpp:31-69 | Under a sustained trigger, Attack ends: after any n samples with n·attackCoeff ≥ 1000 the follower is in Hold, at 1 and triggered, whatever state it started from |
| Envelope.EnvelopeGenerator.constructor | Source/DSP/EnvelopeGenerator.h:40-59 | The header defaults: threshold −20 dB, attack 10 ms, hold 50 ms, release 200 ms, linear shape, zero coefficients, Idle, 44100 Hz, 512 samples |
| Envelope.EnvelopeGenerator.Prepare | Source/DSP/EnvelopeGenerator.cpp:7-13 | Takes the rate and block size, recomputes the coefficients from them and resets |
| Envelope.EnvelopeGenerator.Reset | Source/DSP/EnvelopeGenerator.cpp:15-21 | Leaves Idle, envelope 0, counter 0 and `triggered` false |
| Envelope.EnvelopeGenerator.ProcessSample | Source/DSP/EnvelopeGenerator.cpp:23-84 | The new state is `Step` of the old state, and the result is the new envelope under the curve shape; the object invariant is kept |
| Envelope.EnvelopeGenerator.HandleTrigger | Source/DSP/EnvelopeGenerator.cpp:31-45 | The trigger handling changes the state as `Retrigger` says |
| Envelope.EnvelopeGenerator.RunStateMachine | Source/DSP/EnvelopeGenerator.cpp:47-80 | The per-state update changes the state as `Advance` says |
| Envelope.EnvelopeGenerator.SetThreshold | Source/DSP/EnvelopeGenerator.cpp:86-89 | Stores the threshold |
| Envelope.EnvelopeGenerator.SetAttack | Source/DSP/EnvelopeGenerator.cpp:91-95 | Stores the attack time and leaves the coefficients fresh for it |
| Envelope.EnvelopeGenerator.SetHold | Source/DSP/EnvelopeGenerator.cpp:97-101 | Stores the hold time and leaves the hold length fresh for it |
| Envelope.EnvelopeGenerator.SetRelease | Source/DSP/EnvelopeGenerator.cpp:103-107 | Stores the release time and leaves the coefficients fresh for it |
| Envelope.EnvelopeGenerator.SetCurveShape | Source/DSP/EnvelopeGenerator.cpp:109-112 | Stores the shape |
| Envelope.EnvelopeGenerator.UpdateCoefficients | Source/DSP/EnvelopeGenerator.cpp:114-119 | The coefficients are the one-pole coefficients of the attack and release times; the hold length is the truncated hold time in samples; both coefficients lie in [0, 1] |
| Envelope.EnvelopeGenerator.GetCurrentEnvelope | Source/DSP/EnvelopeGenerator.h:25 | The unshaped envelope lies in [0, 1]: 0 in Idle and 1 in Hold |
| Envelope.EnvelopeGenerator.IsTriggered | Source/DSP/EnvelopeGenerator.h:26 | `triggered` holds exactly when the state is not Idle |
| Sidechain.Biquad | Source/DSP/SidechainProcessor.cpp:35-41 | After a biquad step, x1 is the input, x2 the old x1, y1 the output and y2 the old y1 |
| Sidechain.IdentityPassesThrough | Source/DSP/DSPUtils.h:43-47 | The default coefficients pass every sample through unchanged, whatever the history |
| Sidechain.CascadeOrder | Source/DSP/SidechainProcessor.cpp:30-57 | A disabled filter keeps its history; both disabled pass the input through; the high-pass history shifts as the direct form I says; the low-pass is fed the high-pass output; the last enabled filter gives the result |
| Sidechain.RunChannel | Source/DSP/SidechainProcessor.cpp:65-121 | A run gives one output per input |
| Sidechain.RunChannelAppend | Source/DSP/SidechainProcessor.cpp:65-121 | Running one more sample appends that sample's cascade output and continues from the state the run left |
| Sidechain.RunChannelPrefix | Source/DSP/SidechainProcessor.cpp:65-121 | The same, for consecutive prefixes of one buffer |
| Sidechain.BypassedRunIsIdentity | Source/DSP/SidechainProcessor.cpp:65-121 | With both filters off, a run returns its input and changes no history |
| Sidechain.LowPassPassesDC | Source/DSP/SidechainProcessor.cpp:44-51 | A low-pass with unity DC gain, at steady state, returns a constant input unchanged and keeps its history |
| Sidechain.HighPassBlocksDC | Source/DSP/SidechainProcessor.cpp:35-41 | A high-pass whose taps sum to 0, at steady state, turns a constant input into silence and keeps its history |
| Sidechain.DesignedFiltersAtDC | Source/DSP/SidechainProcessor.cpp:145-149 | The filters `updateFilters` designs, for any non-zero rate and any cut-offs, block DC (high-pass) and pass it (low-pass) |
| Sidechain.LowPassHoldsDC | Source/DSP/SidechainProcessor.cpp:65-121 | A low-pass-only channel at steady state passes a constant input unchanged for any number of samples |
| Sidechain.HighPassHoldsSilence | Source/DSP/SidechainProcessor.cpp:65-121 | A high-pass-only channel at steady state silences a constant input for any number of samples |
| Sidechain.TracksStep | Source/DSP/SidechainProcessor.cpp:65-121 | Writing output i over a buffer whose first i entries are outputs and the rest inputs extends the written part by one |
| Sidechain.SidechainProcessor.constructor | Source/DSP/SidechainProcessor.h:33-54 | The header defaults: 20 Hz and 20 kHz, both filters off, identity coefficients, silent histories, level 0, 44100 Hz, 512 samples |
| Sidechain.SidechainProcessor.Prepare | Source/DSP/SidechainProcessor.cpp:7-13 | Takes the rate and block size, designs both filters for them and resets |
| Sidechain.SidechainProcessor.Reset | Source/DSP/SidechainProcessor.cpp:15-26 | Zeroes all sixteen history values of both filters and channels, and the level |
| Sidechain.SidechainProcessor.ProcessSample | Source/DSP/SidechainProcessor.cpp:28-58 | The output and the left histories are `FilterStep` of the old left histories; the right histories are not touched (frame); the level is the output's magnitude |
| Sidechain.SidechainProcessor.ProcessBuffer | Source/DSP/SidechainProcessor.cpp:60-121 | Each channel ends as `RunChannel` over its own inputs and histories, so the left output depends only on the left channel. A one-channel buffer feeds its left input to the right histories and writes only channel 0 |
| Sidechain.SidechainProcessor.FilterFrame | Source/DSP/SidechainProcessor.cpp:67-119 | One sample of a buffer: each channel's output and histories are `FilterStep` of that channel alone |
| Sidechain.SidechainProcessor.SetHighPassFreq | Source/DSP/SidechainProcessor.cpp:123-127 | Stores the cut-off and redesigns both filters; no history changes (frame) |
| Sidechain.SidechainProcessor.SetLowPassFreq | Source/DSP/SidechainProcessor.cpp:129-133 | Stores the cut-off and redesigns both filters; no history changes (frame) |
| Sidechain.SidechainProcessor.SetHighPassEnabled | Source/DSP/SidechainProcessor.cpp:135-138 | Changes only its flag |
| Sidechain.SidechainProcessor.SetLowPassEnabled | Source/DSP/SidechainProcessor.cpp:140-143 | Changes only its flag |
| Sidechain.SidechainProcessor.UpdateFilters | Source/DSP/SidechainProcessor.cpp:145-149 | Both filters are the Q = 0.707 designs for the current rate and cut-offs, and the designs are defined |
| Sidechain.SidechainProcessor.GetFilteredLevel | Source/DSP/SidechainProcessor.h:27 | The level is non-negative |
| Ducking.DuckedGain | Source/DSP/Ducker.cpp:76-80 | The ducked level is the larger of the duck-amount gain and the range gain, so it never goes below the range floor |
| Ducking.DuckedGainBounds | Source/DSP/Ducker.cpp:76-80 | The ducked level is positive, and at most 1 when the duck amount and the range are ≤ 0 dB |
| Ducking.TargetGain | Source/DSP/Ducker.cpp:81 | Envelope 0 gives gain 1, envelope 1 gives the ducked level, and an envelope in [0, 1] gives a gain between the ducked level and 1 |
| Ducking.SumToMono | Source/DSP/Ducker.cpp:64-66 | The mono sum lies between the two channels and equals them when they agree |
| Ducking.WetMix | Source/DSP/Ducker.cpp:58 | Mix 0 % gives no wet share, 100 % all wet, and a mix in [0, 100] a share in [0, 1] |
| Ducking.Mixed | Source/DSP/Ducker.cpp:126-131 | No wet share returns the dry sample; a full wet share returns the dry sample times the pending gain |
| Ducking.MixIsBlendedGain | Source/DSP/Ducker.cpp:126-131 | The blend is the dry sample under the single gain 1 − w·(1 − g); for w and g in [0, 1] that gain lies between g and 1, so the output never exceeds the dry sample in magnitude |
| Ducking.BlendIsMixed | Source/DSP/Ducker.cpp:126-131 | The blend as written, with the dry share computed once per block, is the mix law |
| Ducking.ZeroCrossedIsSignChange | Source/DSP/Ducker.cpp:90-101 | The crossing test holds exactly when the sample is non-zero and its sign differs from, or follows, a zero previous sample |
| Ducking.Latch | Source/DSP/Ducker.cpp:86-110 | The gate remembers the current sample and holds either the new gain or its old one |
| Ducking.LatchOnlyNearZero | Source/DSP/Ducker.cpp:86-110 | The gate takes the new gain at a sign change or when the sample is within 0.001 of zero, and otherwise keeps its gain |
| Ducking.MaxDelaySamples | Source/DSP/Ducker.cpp:17 | Delay lines sized for a non-negative rate have at least one slot |
| Ducking.LookAheadFits | Source/DSP/Ducker.cpp:17-21 | A look-ahead of 0 to 20 ms always indexes inside delay lines sized for the same rate |
| Ducking.ReadPosition | Source/DSP/Ducker.cpp:118-120 | The read position lies in [0, size) and sits `delay` slots behind the write position, around the ring |
| Ducking.NextPosition | Source/DSP/Ducker.cpp:142 | The write position stays in [0, size) and steps one slot on, wrapping to 0 at the end |
| Ducking.Zeros | Source/DSP/Ducker.cpp:30-31 | n slots of silence |
| Ducking.Resize | Source/DSP/Ducker.cpp:18-19 | Resizing keeps the samples that fit and pads with zeros to exactly n slots |
| Ducking.Delayed | Source/DSP/Ducker.cpp:113-123 | No delay gives the newest sample; a delay reaching before the clear gives silence |
| Ducking.ClearedHolds | Source/DSP/Ducker.cpp:30-32 | A zero-filled line with the write position at 0 holds the empty history |
| Ducking.NextReadsBack | Source/DSP/Ducker.cpp:118-142 | After the write position steps on, k + 1 slots behind it is where k slots behind was |
| Ducking.ReadAfterWrite | Source/DSP/Ducker.cpp:113-123 | After writing x, the slot `delay` behind the write position holds the sample `delay` samples older than x, or silence before the clear |
| Ducking.WriteKeepsHolds | Source/DSP/Ducker.cpp:113-142 | Writing a sample and stepping the write position keeps the line in step with the grown history |
| Ducking.PeakReduction | Source/DSP/Ducker.cpp:145-149 | The metered reduction is non-negative |
| Ducking.PeakReductionIsPeak | Source/DSP/Ducker.cpp:145-149 | The metered reduction is the maximum of 0 and −linearToDecibels(gain) over the block: at least every sample's reduction, and equal to one of them unless it is 0 |
| Ducking.PeakReductionAppend | Source/DSP/Ducker.cpp:145-149 | One more sample folds its reduction in with max |
| Ducking.DetectGainFloor | Source/DSP/Ducker.cpp:68-81 | With a consistent envelope, coefficients in [0, 1] and duck amount and range ≤ 0 dB, a sample's gain lies between the ducked level and 1 and the envelope stays consistent |
| Ducking.MainPath | Source/DSP/Ducker.cpp:86-142 | A sample keeps both lines the same size, with the write position and the look-ahead inside them |
| Ducking.Tick | Source/DSP/Ducker.cpp:61-142 | One sample keeps the delay lines ready for the next |
| Ducking.DetectAll | Source/DSP/Ducker.cpp:61-81 | One detection per sample; the state after the block is that of the last detection |
| Ducking.MainRun | Source/DSP/Ducker.cpp:61-142 | One output, dry sample and gain per sample; the lines stay ready and the sidechain and envelope state is that of the last detection |
| Ducking.Run | Source/DSP/Ducker.cpp:61-142 | A block gives one output, dry sample and gain per sample and keeps the lines ready |
| Ducking.MainRunPrefix | Source/DSP/Ducker.cpp:61-142 | The main path of the first n samples depends only on their n detections |
| Ducking.RunStep | Source/DSP/Ducker.cpp:61-142 | Sample n of a block is one `Tick` from the state the first n samples left |
| Ducking.Gates | Source/DSP/Ducker.cpp:86-110 | With zero-crossing off both pending gains become the current gain; with it on each channel latches; a mono buffer leaves the right gate alone |
| Ducking.MonoMain | Source/DSP/Ducker.cpp:113-123 | A mono main buffer never writes the right delay line, and its right dry sample is the left one |
| Ducking.MixLaw | Source/DSP/Ducker.cpp:126-131 | Outside listen mode each output is its dry sample under the mix law with its latched gain; mix 0 gives the dry sample and mix 100 the dry sample times the pending gain |
| Ducking.Listen | Source/DSP/Ducker.cpp:134-139 | In listen mode both outputs are the filtered sidechain, while the delay lines, gates and envelope advance exactly as without listening |
| Ducking.MainPathDelays | Source/DSP/Ducker.cpp:113-142 | Each written line's dry sample is the input `lookAhead` samples back in its history, and the line keeps holding that history |
| Ducking.ExtendHistory | Source/DSP/Ducker.cpp:113-115 | The history grows by one sample at a time |
| Ducking.MainRunDelays | Source/DSP/Ducker.cpp:61-142 | Over a block the lines hold the history grown by the block's inputs, and the last dry sample is the input `lookAhead` samples back |
| Ducking.RunDry | Source/DSP/Ducker.cpp:113-123 | The last dry sample of a block is the main input `lookAhead` samples back in the history the lines held |
| Ducking.MainRunDry | Source/DSP/Ducker.cpp:113-123 | The same, for the main path alone |
| Ducking.DelayedPrefix | Source/DSP/Ducker.cpp:113-123 | Looking k back into the first n samples gives sample n − 1 − k, or silence when k ≥ n |
| Ducking.DryAfterReset | Source/DSP/Ducker.cpp:113-123 | After a reset, the dry sample at step n − 1 is the main input lookAhead steps earlier, or 0 if that is before the reset; with no look-ahead it is the current input |
| DuckingBlocks.RunGrows | Source/DSP/Ducker.cpp:61-149 | A run one sample longer keeps the earlier samples' outputs, dry samples and gains unchanged, and only appends |
| DuckingBlocks.RunPrefix | Source/DSP/Ducker.cpp:61-149 | Sample i of any run of more than i samples has the outputs, dry samples and gain of the run that ends at sample i |
| DuckingBlocks.DryAfterResetAt | Source/DSP/Ducker.cpp:113-123 | After a reset, every dry sample i of a block is the main input lookAhead samples earlier, or 0 if that is before the reset |
| Ducking.Snapshot | Source/DSP/Ducker.cpp:48-53 | The model sees a stereo main buffer exactly when there is a right channel, and likewise for the sidechain |
| Ducking.UnreadInputs | Source/DSP/Ducker.cpp:61-131 | Samples the pass has not reached still hold their inputs |
| Ducking.BlockProgressStep | Source/DSP/Ducker.cpp:61-149 | Writing one sample's outputs back and folding its gain into the peak advances the pass by one sample |
| Ducking.BlockProgressStart | Source/DSP/Ducker.cpp:55-61 | Before the first sample the pass holds the inputs, the starting state and no reduction |
| Ducking.BlockProgressDone | Source/DSP/Ducker.cpp:61-149 | A finished pass holds the whole block's outputs |
| Ducking.Ducker.constructor | Source/DSP/Ducker.h:52-88 | The header defaults for every parameter and state field; empty delay lines; fresh modules at 44100 Hz |
| Ducking.Ducker.Prepare | Source/DSP/Ducker.cpp:7-23 | Both modules are prepared for the rate. Both lines are sized to trunc(0.02·rate) + 1. The look-ahead is refreshed, and the state is cleared |
| Ducking.Ducker.PrepareModules | Source/DSP/Ducker.cpp:9-14 | Stores the rate and block size, and prepares both modules for them |
| Ducking.Ducker.PrepareLines | Source/DSP/Ducker.cpp:16-22 | Sizes the lines, refreshes the look-ahead and clears the state |
| Ducking.Ducker.SizeDelayLines | Source/DSP/Ducker.cpp:16-19 | Both lines are `vector::resize`d to trunc(0.02·rate) + 1 slots |
| Ducking.Ducker.Reset | Source/DSP/Ducker.cpp:25-38 | Resets both modules and zero-fills both lines without resizing them. Sets the write position to 0, the last samples to 0, the pending and target gains to 1, and the reduction to 0 |
| Ducking.Ducker.Process | Source/DSP/Ducker.cpp:40-150 | Bypassed, the buffer and all state are unchanged. Otherwise the buffer holds `Run`'s outputs (a mono buffer writes only channel 0), the state is `Run`'s, and the meter is the block's peak reduction |
| Ducking.Ducker.DuckBlock | Source/DSP/Ducker.cpp:55-149 | The loop over the block leaves `Run`'s outputs, state and peak reduction |
| Ducking.Ducker.AdvanceFrame | Source/DSP/Ducker.cpp:61-149 | One iteration of the loop advances the pass by one sample |
| Ducking.Ducker.FixedAtStart | Source/DSP/Ducker.cpp:48-59 | The buffers, parameters and mix shares that stay put during the block |
| Ducking.Ducker.ProcessFrame | Source/DSP/Ducker.cpp:61-149 | One sample: the state moves by `Tick`; only slot i of each written channel changes, to `Tick`'s output; the peak folds in `Tick`'s gain |
| Ducking.Ducker.WriteBack | Source/DSP/Ducker.cpp:129-138 | Writes slot i of the left channel, and of the right one only when it exists |
| Ducking.Ducker.TickFrame | Source/DSP/Ducker.cpp:64-142 | One sample on the object's fields is `Tick` of the old state |
| Ducking.Ducker.DetectGain | Source/DSP/Ducker.cpp:68-81 | The filter, the envelope and the gain follow `Detect` |
| Ducking.Ducker.MainFrame | Source/DSP/Ducker.cpp:86-142 | The main-signal fields and outputs follow `MainPath` |
| Ducking.Ducker.UpdateGates | Source/DSP/Ducker.cpp:86-110 | The gates move as `Latch` says with zero-crossing on, and take the gain with it off; a mono buffer leaves the right gate alone |
| Ducking.Ducker.WriteAndRead | Source/DSP/Ducker.cpp:113-123 | Writes the samples at the write position (the right line only for a stereo buffer), then reads `lookAheadSamples` slots behind it |
| Ducking.Ducker.ProcessSample | Source/DSP/Ducker.cpp:152-167 | The output is the input times the sample's gain, with the left filter histories, the sidechain level (the filtered sample's magnitude) and the envelope moved as `Detect` says |
| Ducking.Ducker.SetThreshold | Source/DSP/Ducker.cpp:169-173 | Stores the threshold here and in the envelope generator |
| Ducking.Ducker.SetDuckAmount | Source/DSP/Ducker.cpp:175-178 | Stores the duck amount |
| Ducking.Ducker.SetAttack | Source/DSP/Ducker.cpp:180-184 | Stores the attack time here and in the envelope generator, whose coefficients stay fresh |
| Ducking.Ducker.SetHold | Source/DSP/Ducker.cpp:186-190 | Stores the hold time here and in the envelope generator, whose hold length stays fresh |
| Ducking.Ducker.SetRelease | Source/DSP/Ducker.cpp:192-196 | Stores the release time here and in the envelope generator, whose coefficients stay fresh |
| Ducking.Ducker.SetRange | Source/DSP/Ducker.cpp:198-201 | Stores the range |
| Ducking.Ducker.SetLookAhead | Source/DSP/Ducker.cpp:203-207 | Stores the look-ahead time and recomputes the look-ahead in samples |
| Ducking.Ducker.SetCurveShape | Source/DSP/Ducker.cpp:209-213 | Stores the cast shape index here and in the envelope generator; an index outside the named shapes leaves the envelope unshaped |
| Ducking.Ducker.SetMix | Source/DSP/Ducker.cpp:215-218 | Stores the mix |
| Ducking.Ducker.SetBypass | Source/DSP/Ducker.cpp:220-223 | Stores the bypass flag |
| Ducking.Ducker.SetSidechainHPF | Source/DSP/Ducker.cpp:225-228 | The sidechain processor stores the cut-off and keeps its designs fresh |
| Ducking.Ducker.SetSidechainLPF | Source/DSP/Ducker.cpp:230-233 | The sidechain processor stores the cut-off and keeps its designs fresh |
| Ducking.Ducker.SetSidechainHPFEnabled | Source/DSP/Ducker.cpp:235-238 | The sidechain processor's high-pass flag is set |
| Ducking.Ducker.SetSidechainLPFEnabled | Source/DSP/Ducker.cpp:240-243 | The sidechain processor's low-pass flag is set |
| Ducking.Ducker.SetSidechainListen | Source/DSP/Ducker.cpp:245-248 | Stores the listen flag |
| Ducking.Ducker.SetZeroCrossingEnabled | Source/DSP/Ducker.cpp:250-253 | Stores the zero-crossing flag |
| Ducking.Ducker.UpdateLookAhead | Source/DSP/Ducker.cpp:255-258 | The look-ahead in samples is trunc(lookAheadMs · 0.001 · rate) |
| Ducking.Ducker.GetGainReduction | Source/DSP/Ducker.h:40 | The metered reduction is non-negative |
| Ducking.Ducker.GetEnvelopeValue | Source/DSP/Ducker.h:41 | The envelope value lies in [0, 1] |
| Ducking.Ducker.IsTriggered | Source/DSP/Ducker.h:42 | Triggered exactly when the envelope is not Idle |
| Ducking.Ducker.GetLatencyInSamples | Source/DSP/Ducker.h:46 | The latency is trunc(lookAheadMs · 0.001 · rate) |
| DuckingBlocks.LatencyFits | Source/DSP/Ducker.h:46 | For a look-ahead of 0 to 20 ms after `prepare`, the reported latency is a valid delay inside the lines |

## Left out

- Floating point: the model computes in `real`. It has no rounding and no
  denormals (`ScopedNoDenormals` is not modelled). It also ignores the
  float-versus-double difference between `0.02 * sampleRate` and
  `lookAheadMs * 0.001f * sampleRate`.
- Transcendental functions (`log10`, `pow`, `exp`, `sin`, `cos`, `sqrt`)
  are parameters. Only the facts listed under `Math.Sound()` are assumed.
  The numeric values of the coefficients are not modelled, only their
  algebra.
- `softClip` (`Source/DSP/DSPUtils.h:25-28`) is not modelled. It is a
  `tanh`, and nothing in the signal path calls it.
- `DSPUtils.Trunc` and `DSPUtils.MsToSamples`: the cast to `int` does not
  model overflow of very large times or rates.
- `juce::AudioBuffer` is replaced by one `array<real>` per channel, with
  the right channel optional. A buffer with more than two channels is not
  modelled; the source ignores channels beyond the second.
- `Ducking.Ducker.Process` requires `0 ≤ lookAheadSamples < |delayLineL|`
  when not bypassed. The source does not clamp the look-ahead, so an index
  outside the delay line would be out of bounds there.
  `Ducking.LookAheadFits` shows the requirement holds for any look-ahead of
  0 to 20 ms after `prepare`.
- `Ducking.Ducker.Process` also requires the main buffer and the sidechain
  buffer to be distinct arrays, and the sidechain to be at least as long
  as the main buffer. The source reads a separate sidechain buffer of the
  block's length.
- `Envelope.EnvelopeGenerator.Prepare`, `Sidechain.SidechainProcessor.Prepare`,
  `Ducking.Ducker.Prepare` and `DSPUtils.CalculateCoefficient` assume a
  positive sample rate (for the coefficient, a non-zero one when the time
  is positive). The source guards against neither a zero nor a negative
  rate, and the model does not cover either:
  - At a rate of 0, float arithmetic gives infinities: a coefficient of
    1 − exp(−inf) = 1, and one-slot delay lines.
  - At a negative rate, the envelope generator's one-pole coefficients
    come out negative and its hold length negative, so the envelope leaves
    [0, 1]; nothing fails there.
  - In `Ducker::prepare`, a rate ≤ −100 makes `std::vector::resize` fail.
    A rate above −100 and up to −50 gives zero-slot lines, on which the
    `%` in `process` divides by zero. A rate above −50 and below 0 gives
    one-slot lines.
  - Infinities and NaN are not modelled.
- `Sidechain.SidechainProcessor.ProcessSample`,
  `Sidechain.SidechainProcessor.SetHighPassFreq` and the other setters:
  "the right histories are not touched" and "no history changes" are
  stated by their `modifies` frames, not by `ensures` clauses.
- The delay lines are `seq<real>` fields that the methods reassign. A
  `std::vector` is modelled by value, and no aliasing of it is possible in
  the source either.
- `Source/PluginProcessor.cpp`, `Source/PluginEditor.cpp` and `Source/UI/`
  are not part of this model. They cover host integration, atomic
  parameter reads across threads, state save/restore, tempo sync, GUI
  painting, and metering with the editor's meter smoothing.
