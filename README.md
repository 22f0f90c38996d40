# soxy DSP core in Dafny

A model of the per-sample audio engine of soxy, a Go audio-processing tool,
with proofs about it. The model covers:

- **Biquad** (`biquad.dfy`): the `BiQuad` record as a class with its
  difference equation `DoBiQuad`, the denormal flush and `FlushDelays`. It
  also holds the in-place loop that every filter designer runs over its
  buffer (`FilterInPlace`). That loop is specified by `Run`, the sequence of
  wet/dry-mixed outputs.
- **DelayLine** (`delay.dfy`): the circular delay line used as the
  compressor's lookahead. It is a class over an `array<real>` with wrapping
  read and write indices and a ghost record `Written` of every sample
  stored. The central invariants are `Remembers` (the slot k places behind
  the write index holds the sample written k calls ago) and `Lagging` (the
  read index trails the write index by `int(DelayInSamples)`). Together
  they prove that a sample entering the line comes out `EffectiveLag()`
  calls later, times the output attenuation.
- **Envelope** (`envelope.dfy`): the envelope detector. It rectifies by
  mode, smooths with an attack or a release coefficient, flushes denormals,
  clamps to [0, 1] and reports linearly or in dB with a -96 dB floor.
- **Lagrange** (`lagrange.dfy`): `lagrpol`, the nested-loop Lagrange
  interpolation from `compressor/compressor.go`, proved against a recursive
  definition. The interpolant reproduces its nodes, and through two nodes
  it is the delay line's straight line.
- **Dynamics** (`compressor.dfy`): the gain law `calcCompressorGain` (slope,
  soft knee, dB gain clamped at 0) and the `Compressor` object with
  `Process`. `Compress` is proved to leave exactly `Compressed(...)` in the
  buffer. `Compressed` is a recursive function of the input samples, and
  its properties are lemmas: it only attenuates, it is transparent below
  the knee, and output i depends on input i minus the lag.
- **Filter designers**: `HighPassFilter` (`hpf.dfy`), `LowPassFilter`
  (`lpf.dfy`), `BandStopFilter` (`bsf.dfy`), `ParametricEq`
  (`parametric.dfy`) and `LowShelfFilter` (`lowshelf.dfy`). Each maps its
  arguments to coefficients with a function. The high-pass, low-pass,
  band-stop and parametric designers each run a buffer loop, a method proved
  to leave `Run(design, Flushed, old buffer)`. The low shelf is an object
  that processes one sample per call. The algebra
  the coefficients satisfy is proved without knowing `tan`, `cos` or `pow`:
  - unity gain at DC or at the Nyquist frequency;
  - the parametric equaliser is transparent at 0 dB;
  - a cut of g dB inverts a boost of g dB;
  - the low shelf's pole lies inside the unit circle.
- **Numerics** (`numerics.dfy`): `float64` is modelled as `real`. The Go
  `math` routines are fields of a `Library` value passed to every operation
  that uses them, so nothing is assumed about them. A lemma that needs a
  fact such as 10^0 = 1 or sqrt(2)^2 = 2 states it in its `requires`.

Two behaviours of the source are modelled exactly as written:

- `ReadDelay` never interpolates for a non-negative delay, because its
  fractional part is computed as `d - |d|`.
- The band-stop bandwidth term is `tan(pi * freq * (freq / q) / samplerate)`.

The high-pass and low-pass designers pass no factor of pi to `tan`, and the
model keeps that too.

## Model

| member | source | states |
|---|---|---|
| Numerics.TruncToInt | compressor/compressor.go:113 | Go's `int(x)` truncates toward zero: the magnitude of the result is within 1 below the magnitude of x, and the sign is kept |
| Numerics.FlushDenormal | biquad/biquad.go:46-51 | a value strictly between FLTMinMinus and FLTMinPlus becomes 0, and every other value is kept |
| Biquad.Output | biquad/biquad.go:44-51 | the returned sample is 0 or at least FLTMinPlus in magnitude; it is the difference equation unless that value lies in the denormal band, where it is 0 |
| Biquad.Run | biquad/biquad.go:42-63 | running a biquad over a sequence yields one output per input |
| Biquad.RunStep | biquad/biquad.go:55-60 | extending the input by one sample extends the outputs and the history by exactly one DoBiQuad step |
| Biquad.BiQuad.constructor | biquad/biquad.go:15-31 | a zero-valued BiQuad whose seven coefficients a designer has assigned, with flushed history |
| Biquad.BiQuad.SetCoefficients | biquad/biquad.go:15-24 | assigns all seven coefficients and leaves the four history cells unchanged |
| Biquad.BiQuad.FlushDelays | biquad/biquad.go:34-39 | zeroes XZ1, XZ2, YZ1 and YZ2 and leaves the coefficients unchanged |
| Biquad.BiQuad.DoBiQuad | biquad/biquad.go:42-63 | returns the flushed difference equation, shifts the history (YZ2 := YZ1, YZ1 := output, XZ2 := XZ1, XZ1 := input) and never changes A0..D0 |
| Biquad.FilterInPlace | biquad/hpf/hpf.go:21-25 | the designers' loop leaves exactly Run(coefficients, history, old buffer) in the buffer, advances the history over every sample, and keeps the coefficients |
| Biquad.ImpulseResponse | biquad/biquad.go:44-60 | from flushed history the impulse 1, 0 gives A0 and A1 - B1*A0, mixed, unless either falls in the denormal band |
| Biquad.SilenceStaysSilent | biquad/biquad.go:44-60 | zero input from zero history gives zero output, and the history stays flushed |
| Biquad.SteadyState | biquad/biquad.go:44-60 | a history that one more sample x leaves unchanged stays unchanged under constant x, and the output is constant |
| Biquad.SettledPassesDc | biquad/biquad.go:44-60 | a fully wet filter whose numerator and denominator weights have equal sums, settled on a constant input, passes it unchanged |
| Biquad.DryRun | biquad/shelving/lowshelf/lowshelf.go:18-19 | with C0 = 0 and D0 = 1 the mixed output is the input, whatever the coefficients and history |
| Biquad.TransparentRun | biquad/biquad.go:44-60 | with A0 = 1, A1 = B1, A2 = B2 (numerator equal to denominator) and no denormal input, the output equals the input from flushed history |
| DelayLine.DLinTerp | compressor/delay/delay.go:20-33 | returns y1 when x1 == x2 and y1 at x1; returns y2 at x2 when the nodes differ |
| DelayLine.DLinTerpAffine | compressor/delay/delay.go:26-29 | the interpolation is affine in x: it maps a weighted mean of two abscissas to the same weighted mean of the results |
| DelayLine.FracDelay | compressor/delay/delay.go:108 | `d - abs(d)` is 0 for every non-negative delay and 2d for a negative one |
| DelayLine.Behind | compressor/delay/delay.go:77-81 | with the write index in range, the read index lies in [0, BufferSize) exactly when the lag lies in (w - N, w + N] |
| DelayLine.SamplesOf | compressor/delay/delay.go:76 | the delay in samples is 0 at sample rate 0 and non-negative for a non-negative time and rate |
| DelayLine.Delay.constructor | compressor/delay/delay.go:8-18 | the zero value: no buffer and every field 0 |
| DelayLine.Delay.Init | compressor/delay/delay.go:36-41 | BufferSize := delayLength and a fresh zero-filled buffer of that length; nothing has been written yet |
| DelayLine.Delay.ResetDelay | compressor/delay/delay.go:44-53 | a fresh zero-filled buffer, both indices reset to 0, then re-cooked |
| DelayLine.Delay.SetDelayInMillis | compressor/delay/delay.go:56-59 | stores the delay time and re-cooks |
| DelayLine.Delay.SetOutputAttenuation | compressor/delay/delay.go:62-65 | stores the attenuation in dB and re-cooks |
| DelayLine.Delay.SetSampleRate | compressor/delay/delay.go:68-71 | stores the sample rate and re-cooks; when the lag then fits the buffer, the read index trails the write index by it |
| DelayLine.Delay.CookVariables | compressor/delay/delay.go:74-82 | attenuation = 10^(dB/20) and DelayInSamples = ms * rate / 1000; the read index is the write index minus int(DelayInSamples), wrapped once; it is in range exactly when that lag lies in (w - N, w + N] |
| DelayLine.Delay.WriteDelayAndInc | compressor/delay/delay.go:85-95 | only Buffer[WriteIndex] changes, to the input; both indices advance and wrap to 0; the indices stay in range; the read index keeps its lag; every slot k behind the write index still holds the sample written k calls ago |
| DelayLine.Delay.ReadDelay | compressor/delay/delay.go:98-110 | for a non-negative delay the result is exactly Buffer[ReadIndex]; when in addition Remembers and Lagging hold (so the lag fits the buffer), that is the sample written EffectiveLag() calls ago |
| DelayLine.Delay.ReadDelayAt | compressor/delay/delay.go:113-127 | reads without wrapping: for a non-negative delay the result is Buffer[WriteIndex - int(delay)]; under Remembers and for int(delay) >= 1 it is the sample written int(delay) calls ago |
| DelayLine.Delay.Output | compressor/delay/delay.go:130-140 | the bypass returns attenuation * input when DelayInSamples == 0; for a positive delay, with Remembers and Lagging, it returns attenuation times the sample written EffectiveLag() calls ago |
| DelayLine.Delay.ProcessAudio | compressor/delay/delay.go:130-140 | reads before writing: returns the old Output(x), then stores x and advances both indices, keeping both invariants |
| Envelope.TimeConstant | compressor/envelopedetector/envelopedetector.go:7-9 | both time constants (log 1% and log 36.7%) are negative |
| Envelope.Coefficient | compressor/envelopedetector/envelopedetector.go:48-66 | given exp > 0 and exp <= 1 on non-positive arguments, for a positive time and sample rate the coefficient exp(TC / (ms * rate * 0.001)) lies in (0, 1] |
| Envelope.Rectify | compressor/envelopedetector/envelopedetector.go:76-89 | modes 0 and unknown give abs(x); every mode except 2 is non-negative |
| Envelope.RmsModeIsPeak | compressor/envelopedetector/envelopedetector.go:84 | over the reals, mode 2, (abs(x)^2)^0.5, equals mode 0, abs(x) |
| Envelope.Smooth | compressor/envelopedetector/envelopedetector.go:92-96 | attack is used exactly when the input is strictly greater than the envelope; with coefficients in [0, 1] the smoothed value lies between the old envelope and the input |
| Envelope.Clamp01 | compressor/envelopedetector/envelopedetector.go:103-104 | the result lies in [0, 1] and equals the value when it is already there |
| Envelope.NextEnvelope | compressor/envelopedetector/envelopedetector.go:76-104 | after every Detect the envelope lies in [0, 1] and is 0 or at least FLTMinPlus |
| Envelope.NextEnvelopeBetween | compressor/envelopedetector/envelopedetector.go:92-104 | from a valid envelope the next one lies between the old envelope and the rectified input clamped to 1 |
| Envelope.DetectorOutput | compressor/envelopedetector/envelopedetector.go:106-112 | log mode reports at most 0 dB for an envelope of at most 1 (given log10(1) = 0 and monotone log10), and -96 for an envelope of 0; linear mode reports the envelope |
| Envelope.EnvelopeDetector.Init | compressor/envelopedetector/envelopedetector.go:35-46 | Envelope = 0, the flags and times stored, and both coefficients derived |
| Envelope.EnvelopeDetector.SetAttackTime | compressor/envelopedetector/envelopedetector.go:48-56 | AttackTime := exp(TC / (ms * rate * 0.001)), TC chosen by the analog flag |
| Envelope.EnvelopeDetector.SetReleaseTime | compressor/envelopedetector/envelopedetector.go:58-66 | stores the release time and derives its coefficient |
| Envelope.EnvelopeDetector.SetTCModeAnalog | compressor/envelopedetector/envelopedetector.go:68-72 | switches the convention and re-derives both coefficients from the stored times |
| Envelope.EnvelopeDetector.Detect | compressor/envelopedetector/envelopedetector.go:75-113 | the new Envelope is NextEnvelope of the old one, in [0, 1], and the result is its linear or dB reading |
| Lagrange.Interpolate | compressor/compressor.go:33-46 | through a single node the interpolant is the constant y[0] |
| Lagrange.Lagrpol | compressor/compressor.go:33-46 | the nested loops compute Interpolate, the sum over the nodes of y[i] times the product of the other nodes' factors |
| Lagrange.BasisAtOwnNode | compressor/compressor.go:38-42 | basis polynomial i is 1 at node i |
| Lagrange.BasisAtOtherNode | compressor/compressor.go:38-42 | basis polynomial i, once its product has passed node k != i, is 0 at node k |
| Lagrange.SumAtNode | compressor/compressor.go:36-44 | at node k the partial sum over the first m terms is y[k] when k < m, else 0 |
| Lagrange.ReproducesNodes | compressor/compressor.go:33-46 | with distinct nodes, lagrpol(x, y, n, x[k]) == y[k] |
| Lagrange.TwoPointIsLine | compressor/compressor.go:33-46 | through two nodes the interpolant is the delay line's straight line DLinTerp |
| Dynamics.Slope | compressor/compressor.go:49-52 | CS is 1 when limiting; for a ratio of at least 1 it lies in [0, 1) |
| Dynamics.KneeNodes | compressor/compressor.go:56-58 | the lower node is threshold - knee/2; the upper is capped at min(0, threshold + knee/2) |
| Dynamics.KneeSlope | compressor/compressor.go:53-62 | outside the knee (or with knee <= 0) the slope is CS unchanged |
| Dynamics.GainDb | compressor/compressor.go:63-64 | YG is never positive, and is 0 or CS * (threshold - d) |
| Dynamics.CalcCompressorGain | compressor/compressor.go:48-66 | given 10^x > 0 and 10^x <= 1 for x <= 0, the linear gain 10^(YG/20) lies in (0, 1]: the compressor never amplifies |
| Dynamics.UnityBelowThreshold | compressor/compressor.go:49-65 | with ratio >= 1, a reading at or below the threshold and below the knee gives YG = 0 and a gain of exactly 1 |
| Dynamics.StaticCurveAboveKnee | compressor/compressor.go:49-65 | above the threshold and the knee, the output level is threshold + (d - threshold) / ratio |
| Dynamics.KneeIsLine | compressor/compressor.go:53-61 | inside the knee the slope is the straight line from (lower node, 0) to (upper node, CS) |
| Dynamics.KneeSlopeBetween | compressor/compressor.go:53-62 | when the knee lies below 0 dB, its slope stays between 0 and CS |
| Dynamics.KneeContinuity | compressor/compressor.go:53-62 | with ratio >= 1 or limiting, the knee line meets the outer gain law at the lower node, and at the upper node when threshold + knee/2 <= 0; when threshold + knee/2 > 0 the capped node makes the line differ from Slope at threshold + knee/2, a step above 0 dB |
| Dynamics.BypassIsIdentity | compressor/delay/delay.go:130-140 | given 10^0 = 1, a cooked delay line with DelayInSamples == 0 and 0 dB attenuation, as Compress sets up, has Output(x) == x |
| Dynamics.ChainOf | compressor/compressor.go:99-116 | Compress's set-up yields a defined gain law and a lag of 0: the delay line is bypassed |
| Dynamics.EnvelopeAfter | compressor/compressor.go:122-124 | the detector's envelope after any input sequence lies in [0, 1] |
| Dynamics.Compressed | compressor/compressor.go:117-137 | the buffer Compress leaves has the input's length |
| Dynamics.Lookahead | compressor/compressor.go:113-115 | each delay line is sized 0.3 s but keeps sample rate 0, so DelayInSamples == 0 and the attenuation is 10^0 |
| Dynamics.Compressor.New | compressor/compressor.go:99-116 | parameters stored; both detectors in mode 2, log output, digital time constants; both delay lines sized int(0.3 * rate) with no sample rate |
| Dynamics.Compressor.Process | compressor/compressor.go:141-161 | the envelope becomes NextEnvelope of the gained input; out = gain(dB reading) * delay-line output * 10^(outGain/20); the delay line advances by one write |
| Dynamics.CompressSample | compressor/compressor.go:118-136 | one loop pass, stated over the chain: the new envelope, the recorded input and the output sample |
| Dynamics.Compress | compressor/compressor.go:77-138 | in place, the buffer becomes Compressed(ChainOf(settings), old buffer) |
| Dynamics.CompressLoop | compressor/compressor.go:117-137 | every sample in order through Process leaves Compressed(chain, old buffer) |
| Dynamics.StepMatches | compressor/compressor.go:117-137 | one Process call extends EnvelopeAfter and Compressed by exactly one sample |
| Dynamics.CompressedPrefix | compressor/compressor.go:117-137 | compressing a prefix gives the prefix of the compressed buffer: no output depends on later input |
| Dynamics.CompressedSample | compressor/compressor.go:134-136 | output i = FGN after i+1 inputs * 10^(0/20) * (input i - lag) * 10^(outGain/20) |
| Dynamics.OnlyAttenuates | compressor/compressor.go:134-136 | no output exceeds, in magnitude, the output gain times the sample the delay line hands over |
| Dynamics.TransparentBelowKnee | compressor/compressor.go:49-65 | with ratio >= 1 and a dB reading at or below the threshold and the knee, output i is the delayed sample times the output gain |
| Dynamics.EnvelopeBounded | compressor/compressor.go:122-124 | with coefficients in [0, 1], an envelope fed rectified inputs that are all at most m >= 0 never exceeds m |
| Dynamics.ChainAhead | compressor/compressor.go:113-116 | the corrected set-up: the gain law of ChainOf with the lookahead lag |
| Dynamics.DelayedOutput | compressor/compressor.go:134-136 | with 10^0 = 1, output i = FGN * the input lag calls back (0 before the start) * the output gain |
| Dynamics.LookaheadIgnored | compressor/compressor.go:113-116 | as written, output i = FGN * input i * the output gain: the lookahead has no effect |
| Dynamics.LookaheadExample | compressor/compressor.go:113-116 | for 5 ms at 48 kHz, Compress as written has lag 0 where the intended lag is 240 |
| Dynamics.CompressWithLookahead | compressor/compressor.go:77-138 | with the delay line given the sample rate, the buffer becomes Compressed(ChainAhead(settings), old buffer) |
| Dynamics.LookaheadRuns | compressor/compressor.go:113-116 | after SetSampleRate the left delay line trails by the lookahead lag, ready for the loop |
| Dynamics.DelayLags | compressor/delay/delay.go:74-82 | re-cooking with the sample rate gives DelayInSamples 0 for lag 0, or an effective lag equal to LookaheadLag |
| HighPassFilter.DenominatorPositive | biquad/hpf/hpf.go:31 | given sqrt(2)^2 = 2 and C^2 = C*C, 1 + sqrt(2)C + C^2 > 0 for every C |
| HighPassFilter.Design | biquad/hpf/hpf.go:29-38 | A0 * (1 + sqrt(2)C + C^2) = 1; A1 = -2A0 and A2 = A0, so the numerator sums to 0 (no DC gain); unity gain at Nyquist; C0 = 1, D0 = 0 |
| HighPassFilter.StereoDesign | biquad/hpf/hpf.go:29-48 | R gets the same coefficients as L |
| HighPassFilter.BlocksDc | biquad/hpf/hpf.go:31-33 | a settled constant input comes out as silence for ever |
| HighPassFilter.HighPass | biquad/hpf/hpf.go:18-26 | in place: the buffer becomes Run(L's design, flushed, old buffer); channel is ignored |
| LowPassFilter.Design | biquad/lpf/lpf.go:33-42 | A1 = 2A0 and A2 = A0; numerator and denominator both sum to 4A0 (unity DC gain); no gain at Nyquist; C0 = 1, D0 = 0 |
| LowPassFilter.StereoDesign | biquad/lpf/lpf.go:33-52 | R gets the same coefficients as L |
| LowPassFilter.PassesDc | biquad/lpf/lpf.go:35-39 | a settled constant input outside the denormal band comes out unchanged for ever |
| LowPassFilter.LowPass | biquad/lpf/lpf.go:18-30 | in place: the buffer becomes Run(L's design, flushed, old buffer) |
| BandStopFilter.Notch | biquad/bsf/bsf.go:37-43 | A0 = A2 = a0, A1 = B1 = -a0*D, B2 = a0*(1 - C), C0 = 1, D0 = 0 |
| BandStopFilter.UnityAtDcIff | biquad/bsf/bsf.go:36-40 | a notch with scale a0 has unity DC gain if and only if a0 * (1 + C) = 1 |
| BandStopFilter.Design | biquad/bsf/bsf.go:36-43 | as written the scale `1/1 + C` is 1 + C |
| BandStopFilter.DesignUnityAtDcIff | biquad/bsf/bsf.go:36 | as written, unity DC gain holds only when C is 0 or -2 |
| BandStopFilter.DesignQuadruplesDc | biquad/bsf/bsf.go:36 | with C = 1 and D = 0, a settled constant x comes out as 4x for ever |
| BandStopFilter.IntendedDesign | biquad/bsf/bsf.go:36 | with the scale 1/(1 + C), A0 * (1 + C) = 1 and the DC gain is 1 |
| BandStopFilter.IntendedPassesDc | biquad/bsf/bsf.go:36-40 | under the normalised scale a settled constant input comes out unchanged |
| BandStopFilter.StereoDesign | biquad/bsf/bsf.go:33-53 | R gets the same coefficients as L |
| BandStopFilter.BandStop | biquad/bsf/bsf.go:18-30 | in place: the buffer becomes Run(as-written design, flushed, old buffer) |
| BandStopFilter.BandStopNormalised | biquad/bsf/bsf.go:18-30 | the same loop with the normalised scale |
| ParametricEq.TermsOf | biquad/parametric/parametric.go:33-39 | D0 + D = A + G = E0 + E = 2 + 2K^2 and B = 2(K^2 - 1) |
| ParametricEq.Boost | biquad/parametric/parametric.go:43-49 | A1 = B1, C0 = 1, D0 = 0 in the boost branch |
| ParametricEq.Cut | biquad/parametric/parametric.go:60-66 | A1 = B1, C0 = 1, D0 = 0 in the cut branch |
| ParametricEq.BoostUnityAtEdges | biquad/parametric/parametric.go:43-47 | the boost section has unity gain at DC and at Nyquist |
| ParametricEq.CutUnityAtEdges | biquad/parametric/parametric.go:60-64 | the cut section has unity gain at DC and at Nyquist |
| ParametricEq.Design | biquad/parametric/parametric.go:41-75 | gain >= 0 selects boost, otherwise cut; either way the gain is 1 at DC and at Nyquist, A1 = B1, C0 = 1, D0 = 0 |
| ParametricEq.StereoDesign | biquad/parametric/parametric.go:41-75 | R gets the same coefficients as L |
| ParametricEq.TransparentAtZeroGain | biquad/parametric/parametric.go:32-47 | at 0 dB (10^0 = 1) the EQ returns every non-denormal input unchanged |
| ParametricEq.CutInvertsBoost | biquad/parametric/parametric.go:33-64 | with V0 and 1/V0, the cut's numerator is the boost's denominator and its denominator the boost's numerator, both over boost A0 |
| ParametricEq.DesignCutInvertsBoost | biquad/parametric/parametric.go:30-76 | given 10^(-g/20) = 1/10^(g/20), the section for -g dB is the inverse of the one for +g dB |
| ParametricEq.SwappedSections | biquad/parametric/parametric.go:43-64 | the coefficient algebra of the inverse for any terms whose E0, E are the other's A, G |
| ParametricEq.NormalisersPositive | biquad/parametric/parametric.go:33-34 | with q > 0, K >= 0, V0 > 0 and K^2 = K*K, D0 > 0 and E0 > 0 |
| ParametricEq.Eq | biquad/parametric/parametric.go:20-28 | in place: the buffer becomes Run(L's design, flushed, old buffer) |
| LowShelfFilter.PoleInside | biquad/shelving/lowshelf/lowshelf.go:32-33 | for omega >= 0, -1 < gamma <= 1, and gamma < 1 when omega > 0 |
| LowShelfFilter.Shelf | biquad/shelving/lowshelf/lowshelf.go:35-41 | A0 = A1, A2 = B2 = 0, B1 = -gamma, C0 = u - 1, D0 = 1; unity wet gain at DC and none at Nyquist |
| LowShelfFilter.ShelfScalesDc | biquad/shelving/lowshelf/lowshelf.go:35-41 | a settled constant x comes out as u * x for ever: the low band is scaled by 10^(gain/20) |
| LowShelfFilter.FlatAtZeroGain | biquad/shelving/lowshelf/lowshelf.go:30-41 | at 0 dB the wet weight is 0 and every input comes back unchanged, whatever the history |
| LowShelfFilter.Design | biquad/shelving/lowshelf/lowshelf.go:28-49 | wet weight C0 = 10^(gain/20) - 1 and D0 = 1; unity wet gain at DC; for omega >= 0 the pole -B1 lies in (-1, 1], and below 1 for omega > 0 |
| LowShelfFilter.LowShelf.constructor | biquad/shelving/lowshelf/lowshelf.go:7-12 | a zero-valued struct with distinct L and R biquads |
| LowShelfFilter.LowShelf.UpdateCoefficients | biquad/shelving/lowshelf/lowshelf.go:28-50 | both channels get Design(samplerate, Freq, Gain) and keep their history |
| LowShelfFilter.LowShelf.Process | biquad/shelving/lowshelf/lowshelf.go:15-25 | channel 0 advances only L, any other channel only R; out = DoBiQuad(x)*C0 + x*D0 |

## Left out

- Floating point: every `float64` is an exact real. Rounding, overflow,
  infinities and NaN are not modelled, and the FLT_MIN constants act only
  as the flush thresholds.
- `tan`, `cos`, `exp`, `pow`, `log10` and `sqrt` are opaque library
  functions. Only the laws a lemma names in its `requires` are used.
  `math.Pow(C, 2)` stays an opaque `Pow(C, 2)`, except where a lemma
  requires it to equal C*C.
- Division by zero: Go yields Inf or NaN where Dafny requires a non-zero
  divisor. These operations therefore require their divisor to be non-zero:
  - the detector's `ms * rate * 0.001`;
  - the ratio in `1 - 1/ratio`;
  - knee nodes that coincide (`KneeDefined`);
  - the designers' `samplerate`, `q`, `V0*q`, `1 + u` and `1 + omega`;
  - the low-pass prewarp `tan(freq / samplerate)` in `1 / tan(...)`;
  - the normalising denominators.
- Dynamics.KneeDefined: inside a knee whose nodes coincide, Go divides by
  zero. The model requires distinct nodes for every knee > 0, not only for
  readings inside the knee.
- ParametricEq.Design: it requires `V0 * q != 0` even in the boost branch,
  where Go computes E0 and E but never uses them.
- Dynamics.Compress: in Go a negative sample rate makes `make` panic on a
  negative buffer length, and a rate below 10/3 Hz gives a buffer of length 0,
  so the first `WriteDelayAndInc` panics on an out-of-range index. The model
  instead requires `int(0.3 * sampleRate) >= 0`, and at least 1 when the buffer
  is not empty. Dynamics.Compressor.New and Dynamics.CompressWithLookahead
  carry the same requirements.
- DelayLine.Delay.ReadDelay: CookVariables wraps the read index only once.
  A delay of more than WriteIndex + BufferSize samples leaves the index
  negative, and a large negative delay leaves it at BufferSize or above. The
  next `ProcessAudio` then panics indexing the buffer. The model requires the
  read index to be in range. DelayLine.Delay.Output and
  DelayLine.Delay.ProcessAudio carry the same requirement whenever
  DelayInSamples != 0. A delay between BufferSize and WriteIndex + BufferSize
  does not panic: it silently reads a wrong slot. The model keeps that
  behaviour, and the "written EffectiveLag() calls ago" results are
  promised only under Lagging, which needs the lag to fit the buffer.
- DelayLine.Delay.ReadDelayAt: Go does not wrap this read index, so an index
  below 0 panics; the model requires it to be in range.
- DelayLine.Delay.WriteDelayAndInc: the preserved distance between the
  indices is stated as "the read index stays `Lag()` slots behind the
  write index" (`Lagging`), not as an equation modulo BufferSize.
- Dynamics.Compress: in the source, the loop body repeats `Process`
  statement for statement. The model's loop calls `Process` through
  `CompressSample` and `CompressLoop` instead of repeating it.
- The right-hand detector `R` and delay line `RDelay` of the compressor are
  initialised as in the source but never advanced, because the source does
  not advance them. The right biquad of the HPF, LPF, BSF and parametric
  designers is computed (`StereoDesign`) and unused, as in the source.
- The commented-out stereo-link code and the commented-out stereo branches
  of the filter loops are not modelled. Neither is the unused `multMat`.
- Frequency responses, settling times and gain at the centre or corner
  frequency are not modelled. The filter lemmas state DC and Nyquist
  behaviour and coefficient relations only.
- `cmd/soxy/soxy.go` (WAV and config I/O, external tools, worker pool),
  `compressor/cmd/main.go` and `compressor/compressor_test.go` are not part
  of this model. Neither are `biquad/massberg/massberg.go` and
  `resample/lagrange/lagrange.go`.

## Findings

| source | as written | input that shows it | evidently intended | confidence | as-written member | corrected member |
|---|---|---|---|---|---|---|
| compressor/compressor.go:113-116 | `Compress` sizes the delay lines and sets their time in ms but never their sample rate. `DelayInSamples` stays 0, so the lookahead line is a bypass | `lookAheadDelay` = 5 ms at 48000 Hz: each output uses the current input (lag 0) | each output uses the input 240 calls earlier, and the gain comes from the current detector reading | not executed | Dynamics.LookaheadExample | Dynamics.CompressWithLookahead |
| biquad/bsf/bsf.go:36 | `1/1 + C` parses as `(1/1) + C`, so A0 = 1 + C | C = 1, D = 0: a settled constant x comes out as 4x | A0 = 1 / (1 + C), which gives unity gain at DC | not executed | BandStopFilter.DesignQuadruplesDc | BandStopFilter.IntendedDesign |
