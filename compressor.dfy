/** The feed-forward compressor (compressor/compressor.go): a static gain law
    with a soft knee, and a per-sample loop that drives one envelope
    detector (log output, "RMS" mode, digital time constants) and one
    lookahead delay line. */
module Dynamics {
  import opened Numerics
  import opened Envelope
  import opened DelayLine
  import opened Lagrange

  /** CS = 1 - 1/ratio, or 1 when limiting. */
  function Slope(ratio: real, limit: bool): (cs: real)
    requires limit || ratio != 0.0
    ensures limit ==> cs == 1.0
    ensures !limit && 1.0 <= ratio ==> 0.0 <= cs < 1.0
  {
    if limit then 1.0
    else
      var cs := 1.0 - 1.0 / ratio;
      assert 1.0 <= ratio ==> 0.0 < 1.0 / ratio <= 1.0 by {
        if 1.0 <= ratio {
          DivAtMostOne(1.0, ratio);
        }
      }
      cs
  }

  /** The detector value lies strictly inside the knee of width knee around the threshold. */
  predicate InKnee(d: real, threshold: real, knee: real)
  {
    knee > 0.0 && threshold - knee / 2.0 < d < threshold + knee / 2.0
  }

  /** The knee's two interpolation nodes; the upper one is capped at 0 dB. */
  function KneeNodes(threshold: real, knee: real): (x: seq<real>)
    ensures |x| == 2 && x[0] == threshold - knee / 2.0
    ensures x[1] <= 0.0 && x[1] <= threshold + knee / 2.0
  {
    [threshold - knee / 2.0, Min(0.0, threshold + knee / 2.0)]
  }

  /** The knee's nodes can be interpolated between. With knee > 0 they
      coincide only when threshold == knee/2. */
  predicate KneeDefined(threshold: real, knee: real)
  {
    knee > 0.0 ==> Distinct(KneeNodes(threshold, knee), 2)
  }

  /** The slope actually applied: interpolated from 0 at the lower knee node
      to Slope at the upper one inside the knee, Slope elsewhere. */
  function KneeSlope(d: real, threshold: real, ratio: real, knee: real, limit: bool): (cs: real)
    requires limit || ratio != 0.0
    requires KneeDefined(threshold, knee)
    ensures !InKnee(d, threshold, knee) ==> cs == Slope(ratio, limit)
  {
    if InKnee(d, threshold, knee) then
      Interpolate(KneeNodes(threshold, knee), [0.0, Slope(ratio, limit)], 2, d)
    else Slope(ratio, limit)
  }

  /** YG: the gain change in dB, never positive. */
  function GainDb(d: real, threshold: real, ratio: real, knee: real, limit: bool): (yg: real)
    requires limit || ratio != 0.0
    requires KneeDefined(threshold, knee)
    ensures yg <= 0.0
    ensures yg == 0.0 || yg == KneeSlope(d, threshold, ratio, knee, limit) * (threshold - d)
  {
    Min(0.0, KneeSlope(d, threshold, ratio, knee, limit) * (threshold - d))
  }

  /** calcCompressorGain: the linear gain 10^(YG/20). Since YG <= 0 the gain
      never amplifies: it lies in (0, 1]. */
  function CalcCompressorGain(lib: Library, d: real, threshold: real, ratio: real, knee: real, limit: bool): (g: real)
    requires limit || ratio != 0.0
    requires KneeDefined(threshold, knee)
    ensures Pow10Laws(lib) ==> 0.0 < g <= 1.0
  {
    var yg := GainDb(d, threshold, ratio, knee, limit);
    assert yg / 20.0 <= 0.0;
    assert Pow10Laws(lib) ==> Pow10(lib, yg / 20.0) <= Pow10(lib, 0.0);
    Pow10(lib, yg / 20.0)
  }

  /** Below the threshold, and below the knee when there is one, a ratio of at
      least 1 leaves the level alone: YG is 0 and the gain exactly 1. */
  lemma UnityBelowThreshold(lib: Library, d: real, threshold: real, ratio: real, knee: real)
    requires 1.0 <= ratio
    requires KneeDefined(threshold, knee)
    requires d <= threshold && (knee <= 0.0 || d <= threshold - knee / 2.0)
    ensures GainDb(d, threshold, ratio, knee, false) == 0.0
    ensures Pow10Laws(lib) ==> CalcCompressorGain(lib, d, threshold, ratio, knee, false) == 1.0
  {
    assert !InKnee(d, threshold, knee);
    var cs := Slope(ratio, false);
    assert 0.0 <= cs * (threshold - d) by {
      ProductNonNegative(cs, threshold - d);
    }
  }

  /** Above the threshold, and above the knee when there is one, the output
      level follows the static curve threshold + (d - threshold)/ratio. */
  lemma StaticCurveAboveKnee(d: real, threshold: real, ratio: real, knee: real)
    requires 1.0 <= ratio
    requires KneeDefined(threshold, knee)
    requires threshold <= d && (knee <= 0.0 || threshold + knee / 2.0 <= d)
    ensures d + GainDb(d, threshold, ratio, knee, false) == threshold + (d - threshold) / ratio
  {
    assert !InKnee(d, threshold, knee);
    var cs := Slope(ratio, false);
    var e := d - threshold;
    assert cs * (threshold - d) <= 0.0 by {
      ProductNonNegative(cs, e);
      assert cs * (threshold - d) == -(cs * e);
    }
    assert cs * (threshold - d) == -e + e / ratio by {
      assert cs == 1.0 - 1.0 / ratio;
      assert (1.0 - 1.0 / ratio) * (-e) == -e + e * (1.0 / ratio);
      DivScale(e, ratio);
    }
  }

  /** Inside the knee the slope is the straight line from (lower node, 0) to
      (upper node, Slope). */
  lemma KneeIsLine(d: real, threshold: real, ratio: real, knee: real, limit: bool)
    requires limit || ratio != 0.0
    requires KneeDefined(threshold, knee)
    requires InKnee(d, threshold, knee)
    ensures var x := KneeNodes(threshold, knee);
            KneeSlope(d, threshold, ratio, knee, limit) == DLinTerp(x[0], x[1], 0.0, Slope(ratio, limit), d)
  {
    TwoPointIsLine(KneeNodes(threshold, knee), [0.0, Slope(ratio, limit)], d);
  }

  /** When the knee lies wholly below 0 dB its slope rises from 0 to Slope
      and stays between them. */
  lemma KneeSlopeBetween(d: real, threshold: real, ratio: real, knee: real)
    requires 1.0 <= ratio
    requires KneeDefined(threshold, knee)
    requires InKnee(d, threshold, knee) && threshold + knee / 2.0 <= 0.0
    ensures 0.0 <= KneeSlope(d, threshold, ratio, knee, false) <= Slope(ratio, false)
  {
    var x := KneeNodes(threshold, knee);
    var s := Slope(ratio, false);
    KneeIsLine(d, threshold, ratio, knee, false);
    var w := x[1] - x[0];
    var t := (d - x[0]) / w;
    assert 0.0 < w;
    assert 0.0 <= t <= 1.0 by {
      DivAtMostOne(d - x[0], w);
    }
    assert DLinTerp(x[0], x[1], 0.0, s, d) == t * s + (1.0 - t) * 0.0;
    ScaledBetween(t, s);
  }

  /** The knee joins the outer gain law without a step at its lower node, and
      at its upper node when the knee lies wholly below 0 dB. When
      threshold + knee/2 is above 0 dB the upper node is capped at 0 dB, the
      line reaches Slope there instead, and at threshold + knee/2 it differs
      from the Slope used outside: the gain jumps there, at a level no log
      reading (at most 0 dB) reaches. */
  lemma KneeContinuity(threshold: real, ratio: real, knee: real, limit: bool)
    requires limit || 1.0 <= ratio
    requires 0.0 < knee && KneeDefined(threshold, knee)
    ensures var x := KneeNodes(threshold, knee);
            var cs := Slope(ratio, limit);
            Min(0.0, DLinTerp(x[0], x[1], 0.0, cs, x[0]) * (threshold - x[0]))
              == GainDb(x[0], threshold, ratio, knee, limit)
    ensures var x := KneeNodes(threshold, knee);
            var cs := Slope(ratio, limit);
            threshold + knee / 2.0 <= 0.0 ==>
              Min(0.0, DLinTerp(x[0], x[1], 0.0, cs, x[1]) * (threshold - x[1]))
                == GainDb(x[1], threshold, ratio, knee, limit)
    ensures var x := KneeNodes(threshold, knee);
            var cs := Slope(ratio, limit);
            0.0 < threshold + knee / 2.0 && cs != 0.0 ==>
              DLinTerp(x[0], x[1], 0.0, cs, threshold + knee / 2.0)
                != KneeSlope(threshold + knee / 2.0, threshold, ratio, knee, limit)
  {
    var x := KneeNodes(threshold, knee);
    var cs := Slope(ratio, limit);
    assert 0.0 <= cs;
    assert !InKnee(x[0], threshold, knee);
    assert 0.0 <= cs * (threshold - x[0]) by {
      ProductNonNegative(cs, threshold - x[0]);
    }
    var u := threshold + knee / 2.0;
    assert !InKnee(u, threshold, knee);
    if 0.0 < u && cs != 0.0 {
      assert x[1] == 0.0 && x[0] != 0.0;
      var t := (u - x[0]) / (x[1] - x[0]);
      assert t * (0.0 - x[0]) == u - x[0];
      assert t != 1.0;
      assert DLinTerp(x[0], x[1], 0.0, cs, u) == t * cs;
    }
  }

  /** The arguments of Compress. */
  datatype Settings = Settings(
    ratio: real, attackTime: real, releaseTime: real, threshold: real,
    inGain: real, outGain: real, sampleRate: real, lookAheadDelay: real, knee: real)

  /** What the real-number model needs of the settings: both detector
      coefficients and the gain law are defined. */
  predicate Defined(s: Settings)
  {
    s.attackTime * s.sampleRate * 0.001 != 0.0 &&
    s.releaseTime * s.sampleRate * 0.001 != 0.0 &&
    s.ratio != 0.0 &&
    KneeDefined(s.threshold, s.knee)
  }

  /** One output sample: FGN * lookAheadOut * outputGain. */
  function SampleOut(fgn: real, delayed: real, outputGain: real): real
  {
    fgn * delayed * outputGain
  }

  /** A sample x scaled by the 0 dB attenuation 10^(0/20) that Compress's
      delay lines keep. */
  function Unattenuated(lib: Library, x: real): real
  {
    Pow10(lib, 0.0) * x
  }

  lemma {:induction false} UnattenuatedIsIdentity(lib: Library, x: real)
    requires Pow10(lib, 0.0) == 1.0
    ensures Unattenuated(lib, x) == x
  {
    assert Pow10(lib, 0.0) == 1.0;
    MulLeft(Pow10(lib, 0.0), 1.0, x);
  }

  /** A cooked delay line with DelayInSamples == 0 and 0 dB attenuation, as
      Compress sets up its two, returns its input unchanged (given 10^0 = 1). */
  lemma BypassIsIdentity(lib: Library, d: Delay, x: real)
    requires Pow10(lib, 0.0) == 1.0
    requires d.Valid() && d.Cooked(lib)
    requires d.DelayInSamples == 0.0 && d.OutputAttentuationInDB == 0.0
    ensures d.Output(x) == x
  {
    assert 0.0 / 20.0 == 0.0;
    assert d.OutputAttentuation == Pow10(lib, 0.0);
    UnattenuatedIsIdentity(lib, x);
  }

  /** XNL: the input as the detector sees it, scaled by 10^(inGain/20). */
  function DetectorInput(lib: Library, inGain: real, x: real): real
  {
    Pow10(lib, inGain / 20.0) * x
  }

  /** The values the per-sample loop works with once the compressor is set
      up: the detector's two coefficients, the gain-law parameters and the
      number of calls a sample spends in the left delay line (0: bypass). */
  datatype Chain = Chain(attack: real, release: real, inGain: real, outGain: real,
                         threshold: real, ratio: real, knee: real, lag: nat)

  predicate ChainDefined(k: Chain)
  {
    k.ratio != 0.0 && KneeDefined(k.threshold, k.knee)
  }

  /** The chain Compress builds from its arguments: digital time constants,
      and a bypassed delay line whatever s.lookAheadDelay is. */
  function ChainOf(lib: Library, s: Settings): (k: Chain)
    requires Defined(s)
    ensures ChainDefined(k) && k.lag == 0
  {
    Chain(Coefficient(lib, false, s.attackTime, s.sampleRate),
          Coefficient(lib, false, s.releaseTime, s.sampleRate),
          s.inGain, s.outGain, s.threshold, s.ratio, s.knee, 0)
  }

  /** The sample lag calls before the last of xs (the last itself for lag 0),
      0 before the first. */
  function Aligned(xs: seq<real>, lag: nat): (r: real)
    requires xs != []
    ensures lag == 0 ==> r == xs[|xs| - 1]
    ensures 1 <= lag ==> r == Past(xs[..|xs| - 1], lag)
  {
    if lag < |xs| then xs[|xs| - 1 - lag] else 0.0
  }

  /** The detector's envelope after the samples xs, from the initial 0. */
  function EnvelopeAfter(lib: Library, k: Chain, xs: seq<real>): (e: real)
    ensures 0.0 <= e <= 1.0
    decreases |xs|
  {
    if xs == [] then 0.0
    else
      NextEnvelope(lib, 2, k.attack, k.release,
                   EnvelopeAfter(lib, k, xs[..|xs| - 1]), DetectorInput(lib, k.inGain, xs[|xs| - 1]))
  }

  /** The gain applied to the last sample of xs: the gain law evaluated at the
      detector's dB reading once that sample has gone in. */
  function GainAfter(lib: Library, k: Chain, xs: seq<real>): real
    requires ChainDefined(k)
  {
    CalcCompressorGain(lib, DetectorOutput(lib, true, EnvelopeAfter(lib, k, xs)),
                       k.threshold, k.ratio, k.knee, false)
  }

  /** The sample written for the last of the samples xs: the gain for it
      times what the delay line returns (the sample k.lag calls back, with
      attenuation 10^(0/20)) times the output gain. */
  function LastOut(lib: Library, k: Chain, xs: seq<real>): real
    requires ChainDefined(k) && xs != []
  {
    SampleOut(GainAfter(lib, k, xs), Unattenuated(lib, Aligned(xs, k.lag)), Pow10(lib, k.outGain / 20.0))
  }

  /** The buffer Compress leaves. */
  function Compressed(lib: Library, k: Chain, xs: seq<real>): (ys: seq<real>)
    requires ChainDefined(k)
    ensures |ys| == |xs|
    decreases |xs|
  {
    if xs == [] then []
    else
      Compressed(lib, k, xs[..|xs| - 1]) + [LastOut(lib, k, xs)]
  }

  /** A zero-valued delay line given a buffer of n samples and then a delay of
      ms milliseconds, as Compress sets up each of its two. Its sample rate
      stays 0, so the delay in samples is 0. */
  method Lookahead(lib: Library, n: int, ms: real) returns (d: Delay)
    requires 0 <= n
    ensures fresh(d) && fresh(d.Buffer)
    ensures d.Valid() && d.BufferSize == n && d.SampleRate == 0 && d.DelayInMillis == ms
    ensures d.DelayInSamples == 0.0 && d.OutputAttentuation == Pow10(lib, 0.0)
    ensures d.WriteIndex == 0 && d.ReadIndex == 0 && d.Written == []
    ensures d.OutputAttentuationInDB == 0.0 && (0 < n ==> d.Remembers())
  {
    d := new Delay();
    d.Init(n);
    d.SetDelayInMillis(lib, ms);
  }

  class Compressor {
    var L: EnvelopeDetector
    var R: EnvelopeDetector
    var LDelay: Delay
    var RDelay: Delay
    var InputGain: real
    var Threshold: real
    var AttackTime: real
    var ReleaseTime: real
    var Ratio: real
    var OutputGain: real
    var Knee: real
    var LookAheadDelay: real
    var StereoLink: int
    var ProcessorType: int
    var SampleRate: real
    var Analog: bool

    /** What Process needs: a gain law it can evaluate and a delay line whose
        write index, and read index when it reads, are inside the buffer. */
    ghost predicate Ready()
      reads this, LDelay
    {
      Ratio != 0.0 && KneeDefined(Threshold, Knee) &&
      LDelay.Valid() && 0 <= LDelay.WriteIndex < LDelay.BufferSize &&
      (LDelay.DelayInSamples != 0.0 ==> 0 <= LDelay.ReadIndex < LDelay.BufferSize)
    }

    /** The set-up at the top of Compress: the parameters stored, both
        detectors initialised (digital time constants, mode 2, log output) and
        both delay lines sized to 0.3 s and given the lookahead time. No
        sample rate is given to the delay lines. */
    constructor New(lib: Library, threshold: real, ratio: real, inGain: real, outGain: real,
                    attackTime: real, releaseTime: real, sampleRate: real,
                    lookAheadDelay: real, knee: real)
      requires attackTime * sampleRate * 0.001 != 0.0
      requires releaseTime * sampleRate * 0.001 != 0.0
      requires 0 <= TruncToInt(0.3 * sampleRate)
      ensures Threshold == threshold && Ratio == ratio && InputGain == inGain
      ensures OutputGain == outGain && AttackTime == attackTime && ReleaseTime == releaseTime
      ensures SampleRate == sampleRate && LookAheadDelay == lookAheadDelay && Knee == knee
      ensures StereoLink == 0 && ProcessorType == 0 && !Analog
      ensures fresh(L) && fresh(R) && fresh(LDelay) && fresh(RDelay) && fresh(LDelay.Buffer)
      ensures L.Envelope == 0.0 && L.DetectMode == 2 && L.LogDetector && !L.AnalogTC
      ensures L.AttackTime == Coefficient(lib, false, attackTime, sampleRate)
      ensures L.ReleaseTime == Coefficient(lib, false, releaseTime, sampleRate)
      ensures R.Envelope == 0.0 && R.DetectMode == 2 && R.LogDetector && !R.AnalogTC
      ensures LDelay.Valid() && LDelay.BufferSize == TruncToInt(0.3 * sampleRate)
      ensures LDelay.SampleRate == 0 && LDelay.DelayInMillis == lookAheadDelay
      ensures LDelay.DelayInSamples == 0.0 && LDelay.OutputAttentuation == Pow10(lib, 0.0)
      ensures LDelay.WriteIndex == 0 && LDelay.ReadIndex == 0 && LDelay.Written == []
      ensures RDelay.Valid() && RDelay.BufferSize == TruncToInt(0.3 * sampleRate)
      ensures RDelay.DelayInSamples == 0.0 && RDelay.DelayInMillis == lookAheadDelay
      ensures LDelay.OutputAttentuationInDB == 0.0 && (0 < LDelay.BufferSize ==> LDelay.Remembers())
    {
      Threshold, Ratio, InputGain, OutputGain := threshold, ratio, inGain, outGain;
      AttackTime, ReleaseTime, SampleRate := attackTime, releaseTime, sampleRate;
      LookAheadDelay, Knee := lookAheadDelay, knee;
      StereoLink, ProcessorType, Analog := 0, 0, false;
      var l := new EnvelopeDetector.Init(lib, sampleRate, attackTime, releaseTime, false, 2, true);
      var r := new EnvelopeDetector.Init(lib, sampleRate, attackTime, releaseTime, false, 2, true);
      var ld := Lookahead(lib, TruncToInt(0.3 * sampleRate), lookAheadDelay);
      var rd := Lookahead(lib, TruncToInt(0.3 * sampleRate), lookAheadDelay);
      L, R, LDelay, RDelay := l, r, ld, rd;
    }

    /** One sample: the gained input drives the left detector, the gain law
        reads its dB level, and the original input goes through the left
        delay line. Nothing on the right is touched. */
    method Process(lib: Library, inSample: real) returns (out: real)
      requires Ready()
      modifies L`Envelope, LDelay.Buffer, LDelay`WriteIndex, LDelay`ReadIndex, LDelay`Written
      ensures Ready()
      ensures L.Envelope == NextEnvelope(lib, L.DetectMode, L.AttackTime, L.ReleaseTime,
                                         old(L.Envelope), DetectorInput(lib, InputGain, inSample))
      ensures out == SampleOut(CalcCompressorGain(lib, DetectorOutput(lib, L.LogDetector, L.Envelope),
                                                  Threshold, Ratio, Knee, false),
                               old(LDelay.Output(inSample)), Pow10(lib, OutputGain / 20.0))
      ensures LDelay.Buffer[..] == old(LDelay.Buffer[..])[old(LDelay.WriteIndex) := inSample]
      ensures LDelay.WriteIndex == Next(old(LDelay.WriteIndex), LDelay.BufferSize)
      ensures LDelay.ReadIndex == Next(old(LDelay.ReadIndex), LDelay.BufferSize)
      ensures LDelay.Written == old(LDelay.Written) + [inSample]
      ensures old(LDelay.Remembers()) ==> LDelay.Remembers()
      ensures old(LDelay.Lagging()) ==> LDelay.Lagging()
    {
      var inputGain := Pow10(lib, InputGain / 20.0);
      var outputGain := Pow10(lib, OutputGain / 20.0);
      var XNL := DetectorInput(lib, InputGain, inSample);
      var leftDetector := L.Detect(lib, XNL);
      var linkDetector := leftDetector;
      var FGN := 1.0;
      FGN := CalcCompressorGain(lib, linkDetector, Threshold, Ratio, Knee, false);
      var lookAheadOut := LDelay.ProcessAudio(inSample);
      out := SampleOut(FGN, lookAheadOut, outputGain);
    }
  }

  /** The compressor c runs the chain k: its left detector and gain law hold
      k's values and its left delay line is a bypass. */
  ghost predicate Runs(lib: Library, c: Compressor, k: Chain)
    reads c, c.L, c.LDelay, c.LDelay.Buffer
  {
    c.L.DetectMode == 2 && c.L.LogDetector &&
    c.L.AttackTime == k.attack && c.L.ReleaseTime == k.release &&
    c.InputGain == k.inGain && c.OutputGain == k.outGain &&
    c.Threshold == k.threshold && c.Ratio == k.ratio && c.Knee == k.knee &&
    c.LDelay.OutputAttentuation == Pow10(lib, 0.0) &&
    if k.lag == 0 then c.LDelay.DelayInSamples == 0.0
    else
      0.0 < c.LDelay.DelayInSamples && c.LDelay.EffectiveLag() == k.lag &&
      c.LDelay.Remembers() && c.LDelay.Lagging()
  }

  /** One pass of Compress's loop: x through Process, stated in terms of the chain. */
  method CompressSample(lib: Library, c: Compressor, ghost k: Chain, x: real) returns (y: real)
    requires c.Ready() && Runs(lib, c, k)
    modifies c.L`Envelope, c.LDelay.Buffer, c.LDelay`WriteIndex, c.LDelay`ReadIndex, c.LDelay`Written
    ensures c.Ready() && Runs(lib, c, k)
    ensures c.L.Envelope == NextEnvelope(lib, 2, k.attack, k.release, old(c.L.Envelope), DetectorInput(lib, k.inGain, x))
    ensures c.LDelay.Written == old(c.LDelay.Written) + [x]
    ensures y == SampleOut(CalcCompressorGain(lib, DetectorOutput(lib, true, c.L.Envelope), k.threshold, k.ratio, k.knee, false),
                           Unattenuated(lib, Aligned(c.LDelay.Written, k.lag)), Pow10(lib, k.outGain / 20.0))
  {
    ghost var ws := c.LDelay.Written + [x];
    assert ws[..|ws| - 1] == c.LDelay.Written;
    MulLeft(c.LDelay.OutputAttentuation, Pow10(lib, 0.0), Aligned(ws, k.lag));
    y := c.Process(lib, x);
  }

  /** Compresses the buffer in place with a freshly set-up compressor, one
      Process step per sample. */
  method Compress(lib: Library, buf: array<real>, ratio: real, attackTime: real, releaseTime: real,
                  threshold: real, inGain: real, outGain: real, sampleRate: real,
                  lookAheadDelay: real, knee: real)
    requires Defined(Settings(ratio, attackTime, releaseTime, threshold, inGain, outGain,
                              sampleRate, lookAheadDelay, knee))
    requires 0 <= TruncToInt(0.3 * sampleRate)
    requires buf.Length == 0 || 1 <= TruncToInt(0.3 * sampleRate)
    modifies buf
    ensures buf[..] == Compressed(lib, ChainOf(lib, Settings(ratio, attackTime, releaseTime, threshold, inGain,
                                                             outGain, sampleRate, lookAheadDelay, knee)),
                                  old(buf[..]))
  {
    var c := new Compressor.New(lib, threshold, ratio, inGain, outGain, attackTime, releaseTime,
                                sampleRate, lookAheadDelay, knee);
    ghost var k := Chain(c.L.AttackTime, c.L.ReleaseTime, inGain, outGain, threshold, ratio, knee, 0);
    CompressLoop(lib, c, k, buf);
  }

  /** Compress's loop: every sample of the buffer, in order, through Process,
      its result written back in place. */
  method CompressLoop(lib: Library, c: Compressor, ghost k: Chain, buf: array<real>)
    requires buf.Length > 0 ==> c.Ready() && Runs(lib, c, k)
    requires ChainDefined(k)
    requires c.LDelay.Buffer != buf && c.LDelay.Written == [] && c.L.Envelope == 0.0
    modifies buf, c.L`Envelope, c.LDelay.Buffer, c.LDelay`WriteIndex, c.LDelay`ReadIndex, c.LDelay`Written
    ensures buf[..] == Compressed(lib, k, old(buf[..]))
  {
    ghost var xs := buf[..];
    var i := 0;
    while i < buf.Length
      modifies buf, c.L`Envelope, c.LDelay.Buffer, c.LDelay`WriteIndex, c.LDelay`ReadIndex, c.LDelay`Written
      invariant 0 <= i <= buf.Length
      invariant buf.Length > 0 ==> c.Ready() && Runs(lib, c, k)
      invariant c.LDelay.Buffer != buf
      invariant c.LDelay.Written == xs[..i]
      invariant c.L.Envelope == EnvelopeAfter(lib, k, xs[..i])
      invariant buf[..i] == Compressed(lib, k, xs[..i])
      invariant forall j :: i <= j < buf.Length ==> buf[j] == xs[j]
    {
      ghost var done := buf[..i];
      var x := buf[i];
      var y := CompressSample(lib, c, k, x);
      assert xs[..i + 1] == xs[..i] + [x];
      StepMatches(lib, k, xs, i, c.L.Envelope, y);
      buf[i] := y;
      assert buf[..i] == done;
      i := i + 1;
    }
    assert buf[..] == buf[..i];
    assert xs == xs[..i];
  }

  /** One Process call with the chain's detector and delay line extends EnvelopeAfter and Compressed by one sample. */
  lemma StepMatches(lib: Library, k: Chain, xs: seq<real>, i: nat, env: real, y: real)
    requires ChainDefined(k) && i < |xs|
    requires env == NextEnvelope(lib, 2, k.attack, k.release,
                                 EnvelopeAfter(lib, k, xs[..i]), DetectorInput(lib, k.inGain, xs[i]))
    requires y == SampleOut(CalcCompressorGain(lib, DetectorOutput(lib, true, env), k.threshold, k.ratio, k.knee, false),
                            Unattenuated(lib, Aligned(xs[..i + 1], k.lag)), Pow10(lib, k.outGain / 20.0))
    ensures env == EnvelopeAfter(lib, k, xs[..i + 1])
    ensures Compressed(lib, k, xs[..i + 1]) == Compressed(lib, k, xs[..i]) + [y]
  {
    var q := xs[..i + 1];
    assert q[..|q| - 1] == xs[..i];
    assert q[|q| - 1] == xs[i];
  }

  /** Compressed, sample by sample: output i is the gain after i+1 inputs times
      what the delay line returns at call i. */
  lemma {:induction false} CompressedPrefix(lib: Library, k: Chain, xs: seq<real>, m: nat)
    requires ChainDefined(k) && m <= |xs|
    ensures Compressed(lib, k, xs[..m]) == Compressed(lib, k, xs)[..m]
    decreases |xs|
  {
    if m < |xs| {
      var p := xs[..|xs| - 1];
      CompressedPrefix(lib, k, p, m);
      assert p[..m] == xs[..m];
    } else {
      assert xs[..m] == xs;
    }
  }

  /** The sample the delay line hands over at call i when it lags by lag
      calls: input i - lag, or 0 before the first. */
  function Delayed(xs: seq<real>, i: nat, lag: nat): (r: real)
    requires i < |xs|
    ensures lag == 0 ==> r == xs[i]
  {
    if lag <= i then xs[i - lag] else 0.0
  }

  /** Output i is the gain after i+1 inputs times what the delay line hands
      over at call i, times the output gain. */
  lemma {:induction false} CompressedSample(lib: Library, k: Chain, xs: seq<real>, i: nat)
    requires ChainDefined(k) && i < |xs|
    ensures Compressed(lib, k, xs)[i]
         == SampleOut(GainAfter(lib, k, xs[..i + 1]), Unattenuated(lib, Delayed(xs, i, k.lag)), Pow10(lib, k.outGain / 20.0))
  {
    var q := xs[..i + 1];
    CompressedPrefix(lib, k, xs, i + 1);
    assert Compressed(lib, k, xs)[i] == Compressed(lib, k, q)[i];
    assert q[..|q| - 1] == xs[..i];
    assert Compressed(lib, k, q)[i] == LastOut(lib, k, q);
    assert Aligned(q, k.lag) == Delayed(xs, i, k.lag);
  }

  /** The compressor only attenuates: no output exceeds, in magnitude, the
      sample the delay line hands over scaled by the output gain. */
  lemma {:induction false} OnlyAttenuates(lib: Library, k: Chain, xs: seq<real>, i: nat)
    requires Pow10Laws(lib)
    requires ChainDefined(k) && i < |xs|
    ensures Abs(Compressed(lib, k, xs)[i]) <= Pow10(lib, k.outGain / 20.0) * Abs(Delayed(xs, i, k.lag))
  {
    var g := GainAfter(lib, k, xs[..i + 1]);
    var a := Delayed(xs, i, k.lag);
    var o := Pow10(lib, k.outGain / 20.0);
    CompressedSample(lib, k, xs, i);
    assert 0.0 < g <= 1.0 && 0.0 < o;
    UnattenuatedIsIdentity(lib, a);
    assert Compressed(lib, k, xs)[i] == SampleOut(g, a, o);
    AttenuatedBelow(g, a, o);
  }

  /** Below the knee there is no gain reduction: output i is the delayed
      sample times the output gain alone. */
  lemma {:induction false} TransparentBelowKnee(lib: Library, k: Chain, xs: seq<real>, i: nat)
    requires Pow10Laws(lib)
    requires ChainDefined(k) && 1.0 <= k.ratio && i < |xs|
    requires var d := DetectorOutput(lib, true, EnvelopeAfter(lib, k, xs[..i + 1]));
             d <= k.threshold && (k.knee <= 0.0 || d <= k.threshold - k.knee / 2.0)
    ensures Compressed(lib, k, xs)[i] == Delayed(xs, i, k.lag) * Pow10(lib, k.outGain / 20.0)
  {
    CompressedSample(lib, k, xs, i);
    UnityBelowThreshold(lib, DetectorOutput(lib, true, EnvelopeAfter(lib, k, xs[..i + 1])), k.threshold, k.ratio, k.knee);
    UnattenuatedIsIdentity(lib, Delayed(xs, i, k.lag));
    assert Compressed(lib, k, xs)[i]
        == SampleOut(1.0, Delayed(xs, i, k.lag), Pow10(lib, k.outGain / 20.0));
  }

  /** With both detector coefficients in [0, 1], the envelope never rises above
      a bound m in [0, 1] on every rectified detector input it has seen. */
  lemma {:induction false} EnvelopeBounded(lib: Library, k: Chain, xs: seq<real>, m: real)
    requires 0.0 <= k.attack <= 1.0 && 0.0 <= k.release <= 1.0 && 0.0 <= m
    requires forall j :: 0 <= j < |xs| ==> Rectify(lib, 2, DetectorInput(lib, k.inGain, xs[j])) <= m
    ensures EnvelopeAfter(lib, k, xs) <= m
    decreases |xs|
  {
    if xs != [] {
      var p := xs[..|xs| - 1];
      EnvelopeBounded(lib, k, p, m);
      var r := Rectify(lib, 2, DetectorInput(lib, k.inGain, xs[|xs| - 1]));
    }
  }

  /** The settings' lookahead in whole delay-line calls once the delay line
      has the sample rate: int(ms * int(sampleRate) / 1000), or the whole
      buffer when that delay is under one sample, or 0 (bypass) when it is 0. */
  function LookaheadLag(ms: real, sampleRate: real): (lag: nat)
    requires 0.0 <= ms && 0.0 <= sampleRate
  {
    var d := SamplesOf(ms, TruncToInt(sampleRate));
    if d == 0.0 then 0
    else if TruncToInt(d) == 0 then TruncToInt(0.3 * sampleRate)
    else TruncToInt(d)
  }

  /** The chain of the corrected Compress: as ChainOf, with the delay line
      lagging by the lookahead. */
  function ChainAhead(lib: Library, s: Settings): (k: Chain)
    requires Defined(s) && 0.0 <= s.lookAheadDelay && 0.0 <= s.sampleRate
    ensures ChainDefined(k) && k.lag == LookaheadLag(s.lookAheadDelay, s.sampleRate)
  {
    ChainOf(lib, s).(lag := LookaheadLag(s.lookAheadDelay, s.sampleRate))
  }

  /** With 10^0 = 1, output i is the gain after i+1 inputs times the input
      k.lag calls back (0 before the first) times the output gain. */
  lemma {:induction false} DelayedOutput(lib: Library, k: Chain, xs: seq<real>, i: nat)
    requires Pow10(lib, 0.0) == 1.0 && ChainDefined(k) && i < |xs|
    ensures Compressed(lib, k, xs)[i]
         == GainAfter(lib, k, xs[..i + 1]) * Delayed(xs, i, k.lag) * Pow10(lib, k.outGain / 20.0)
  {
    CompressedSample(lib, k, xs, i);
    UnattenuatedIsIdentity(lib, Delayed(xs, i, k.lag));
    assert Compressed(lib, k, xs)[i]
        == SampleOut(GainAfter(lib, k, xs[..i + 1]), Delayed(xs, i, k.lag), Pow10(lib, k.outGain / 20.0));
  }

  /** With a bypassed delay line, which is what Compress as written builds
      whatever lookAheadDelay is (ChainOf), output i is made from input i
      itself. */
  lemma {:induction false} LookaheadIgnored(lib: Library, k: Chain, xs: seq<real>, i: nat)
    requires Pow10(lib, 0.0) == 1.0 && ChainDefined(k) && k.lag == 0 && i < |xs|
    ensures Compressed(lib, k, xs)[i] == GainAfter(lib, k, xs[..i + 1]) * xs[i] * Pow10(lib, k.outGain / 20.0)
  {
    DelayedOutput(lib, k, xs, i);
  }

  /** 5 ms of lookahead at 48 kHz should hold each sample back 240 calls;
      Compress as written holds it back 0. */
  lemma LookaheadExample(lib: Library)
    ensures var s := Settings(4.0, 10.0, 100.0, -20.0, 0.0, 0.0, 48000.0, 5.0, 0.0);
            ChainOf(lib, s).lag == 0 && ChainAhead(lib, s).lag == 240
  {
    var d: real := 5.0 * (TruncToInt(48000.0) as real / 1000.0);
    assert TruncToInt(48000.0) == 48000;
    assert d == 240.0;
    assert TruncToInt(d) == 240;
  }

  /** Compress with the delay lines given the sample rate, so that the
      lookahead delays the audio path as intended. */
  method CompressWithLookahead(lib: Library, buf: array<real>, ratio: real, attackTime: real, releaseTime: real,
                               threshold: real, inGain: real, outGain: real, sampleRate: real,
                               lookAheadDelay: real, knee: real)
    requires Defined(Settings(ratio, attackTime, releaseTime, threshold, inGain, outGain,
                              sampleRate, lookAheadDelay, knee))
    requires 0.0 <= sampleRate && 0.0 <= lookAheadDelay
    requires buf.Length == 0 || 1 <= TruncToInt(0.3 * sampleRate)
    requires TruncToInt(SamplesOf(lookAheadDelay, TruncToInt(sampleRate))) <= TruncToInt(0.3 * sampleRate)
    modifies buf
    ensures buf[..] == Compressed(lib, ChainAhead(lib, Settings(ratio, attackTime, releaseTime, threshold, inGain,
                                                                outGain, sampleRate, lookAheadDelay, knee)),
                                  old(buf[..]))
  {
    var c := new Compressor.New(lib, threshold, ratio, inGain, outGain, attackTime, releaseTime,
                                sampleRate, lookAheadDelay, knee);
    c.LDelay.SetSampleRate(lib, TruncToInt(sampleRate));
    c.RDelay.SetSampleRate(lib, TruncToInt(sampleRate));
    ghost var k := Chain(c.L.AttackTime, c.L.ReleaseTime, inGain, outGain, threshold, ratio, knee,
                         LookaheadLag(lookAheadDelay, sampleRate));
    if buf.Length > 0 {
      LookaheadRuns(lib, c, k, lookAheadDelay, sampleRate);
    }
    CompressLoop(lib, c, k, buf);
  }

  /** Once the left delay line of a freshly set-up compressor has the sample
      rate, it lags by LookaheadLag and the compressor runs the chain. */
  lemma LookaheadRuns(lib: Library, c: Compressor, k: Chain, ms: real, sampleRate: real)
    requires 0.0 <= sampleRate && 0.0 <= ms
    requires 1 <= TruncToInt(0.3 * sampleRate)
    requires TruncToInt(SamplesOf(ms, TruncToInt(sampleRate))) <= TruncToInt(0.3 * sampleRate)
    requires c.Ratio != 0.0 && KneeDefined(c.Threshold, c.Knee)
    requires c.L.DetectMode == 2 && c.L.LogDetector
    requires k == Chain(c.L.AttackTime, c.L.ReleaseTime, c.InputGain, c.OutputGain, c.Threshold, c.Ratio, c.Knee,
                        LookaheadLag(ms, sampleRate))
    requires c.LDelay.Valid() && c.LDelay.BufferSize == TruncToInt(0.3 * sampleRate)
    requires c.LDelay.WriteIndex == 0 && c.LDelay.Remembers()
    requires c.LDelay.DelayInMillis == ms && c.LDelay.SampleRate == TruncToInt(sampleRate) && c.LDelay.Cooked(lib)
    requires c.LDelay.OutputAttentuationInDB == 0.0
    requires 0 <= c.LDelay.Lag() <= c.LDelay.BufferSize ==> c.LDelay.Lagging()
    ensures c.Ready() && Runs(lib, c, k)
  {
    DelayLags(lib, c.LDelay, ms, sampleRate);
  }

  /** The delay line of LookaheadRuns on its own. */
  lemma DelayLags(lib: Library, d: Delay, ms: real, sampleRate: real)
    requires 0.0 <= sampleRate && 0.0 <= ms
    requires 1 <= TruncToInt(0.3 * sampleRate)
    requires TruncToInt(SamplesOf(ms, TruncToInt(sampleRate))) <= TruncToInt(0.3 * sampleRate)
    requires d.Valid() && d.BufferSize == TruncToInt(0.3 * sampleRate) && d.WriteIndex == 0
    requires d.DelayInMillis == ms && d.SampleRate == TruncToInt(sampleRate) && d.Cooked(lib)
    requires d.OutputAttentuationInDB == 0.0
    requires 0 <= d.Lag() <= d.BufferSize ==> d.Lagging()
    ensures d.OutputAttentuation == Pow10(lib, 0.0) && d.Lagging()
    ensures 0 <= d.ReadIndex < d.BufferSize
    ensures LookaheadLag(ms, sampleRate) == 0 ==> d.DelayInSamples == 0.0
    ensures LookaheadLag(ms, sampleRate) != 0 ==> 0.0 < d.DelayInSamples && d.EffectiveLag() == LookaheadLag(ms, sampleRate)
  {
    assert d.DelayInSamples == SamplesOf(ms, TruncToInt(sampleRate));
  }
}
