/** The envelope follower (compressor/envelopedetector/envelopedetector.go):
    one state value, Envelope, smoothed toward the rectified input with an
    attack or a release coefficient, flushed of denormals and clamped to [0, 1];
    optionally reported in decibels with a -96 dB floor. */
module Envelope {
  import opened Numerics

  /** log(1%): the digital time-constant convention. */
  const DigitalTimeConstant: real := -2.0
  /** log(36.7%): the analog (one RC time constant) convention. */
  const AnalogTimeConstant: real := -0.43533393574791066201247090699309

  function TimeConstant(analog: bool): (tc: real)
    ensures tc < 0.0
  {
    if analog then AnalogTimeConstant else DigitalTimeConstant
  }

  /** The one-pole coefficient exp(TC / (ms * sampleRate * 0.001)), TC chosen
      by the analog flag. For a positive time and sample rate it is a decay
      factor in (0, 1]. */
  function Coefficient(lib: Library, analog: bool, ms: real, sampleRate: real): (c: real)
    requires ms * sampleRate * 0.001 != 0.0
    ensures ExpLaws(lib) && 0.0 < ms && 0.0 < sampleRate ==> 0.0 < c <= 1.0
  {
    var den := ms * sampleRate * 0.001;
    var a := TimeConstant(analog) / den;
    assert 0.0 < ms && 0.0 < sampleRate ==> 0.0 < den;
    assert a * den == TimeConstant(analog);
    assert 0.0 < den ==> a <= 0.0;
    Exp(lib, a)
  }

  /** The rectifier selected by DetectMode: 1 squares |x|, 2 takes (|x|^2)^0.5,
      0 and every other mode take |x|. */
  function Rectify(lib: Library, mode: int, x: real): (r: real)
    ensures mode != 2 ==> 0.0 <= r
    ensures mode != 1 && mode != 2 ==> r == Abs(x)
  {
    if mode == 1 then Abs(x) * Abs(x)
    else if mode == 2 then Pow(lib, Abs(x) * Abs(x), 0.5)
    else Abs(x)
  }

  /** Over the reals the "RMS" mode is the peak mode: (|x|^2)^0.5 == |x|. */
  lemma RmsModeIsPeak(lib: Library, x: real)
    requires HalfPowerLaw(lib)
    ensures Rectify(lib, 2, x) == Rectify(lib, 0, x)
  {
    var p := Rectify(lib, 2, x);
    assert 0.0 <= Abs(x) * Abs(x);
    SquareRootUnique(p, Abs(x));
  }

  /** One smoothing step: attack when the rectified input rises above the
      envelope, release otherwise. With both coefficients in [0, 1] the
      smoothed value lies between the old envelope and the input. */
  function Smooth(attack: real, release: real, env: real, input: real): (s: real)
    ensures input > env ==> s == input - attack * (input - env)
    ensures input <= env ==> s == input + release * (env - input)
    ensures 0.0 <= attack <= 1.0 && 0.0 <= release <= 1.0 ==> Min(env, input) <= s <= Max(env, input)
  {
    var c := if input > env then attack else release;
    var d := env - input;
    assert 0.0 <= c <= 1.0 ==> Min(0.0, d) <= c * d <= Max(0.0, d) by {
      if 0.0 <= c <= 1.0 {
        ScaledBetween(c, d);
      }
    }
    c * d + input
  }

  function Clamp01(v: real): (r: real)
    ensures 0.0 <= r <= 1.0
    ensures 0.0 <= v <= 1.0 ==> r == v
  {
    Max(Min(v, 1.0), 0.0)
  }

  /** The envelope after one Detect call. */
  function NextEnvelope(lib: Library, mode: int, attack: real, release: real, env: real, x: real): (e: real)
    ensures 0.0 <= e <= 1.0
    ensures e == 0.0 || FLTMinPlus <= e
  {
    Clamp01(FlushDenormal(Smooth(attack, release, env, Rectify(lib, mode, x))))
  }

  /** With both coefficients in [0, 1], and an envelope in [0, 1] and a rectified
      input both outside the denormal band (as every envelope Detect leaves is), the next envelope lies between the old
      envelope and the rectified input (clamped to 1). */
  lemma NextEnvelopeBetween(lib: Library, mode: int, attack: real, release: real, env: real, x: real)
    requires 0.0 <= attack <= 1.0 && 0.0 <= release <= 1.0
    requires 0.0 <= env <= 1.0 && (env == 0.0 || FLTMinPlus <= env)
    requires var r := Rectify(lib, mode, x); 0.0 <= r && (r == 0.0 || FLTMinPlus <= r)
    ensures var r := Rectify(lib, mode, x);
            Min(env, Min(r, 1.0)) <= NextEnvelope(lib, mode, attack, release, env, x) <= Max(env, Min(r, 1.0))
  {
    var r := Rectify(lib, mode, x);
    var s := Smooth(attack, release, env, r);
    var f := FlushDenormal(s);
    if f != s {
      assert 0.0 < s < FLTMinPlus;
      assert Min(env, r) == 0.0;
    }
  }

  /** The value Detect returns for the (already updated) envelope. In log
      mode an envelope of at most 1 reads at most 0 dB, and an envelope of 0
      reads the -96 dB floor; in linear mode it is the envelope itself. */
  function DetectorOutput(lib: Library, logDetector: bool, env: real): (o: real)
    ensures logDetector && Log10Laws(lib) && env <= 1.0 ==> o <= 0.0
    ensures logDetector && env <= 0.0 ==> o == -96.0
    ensures !logDetector ==> o == env
  {
    if logDetector then
      (if env <= 0.0 then -96.0
       else
         assert Log10Laws(lib) && env <= 1.0 ==> Log10(lib, env) <= Log10(lib, 1.0);
         20.0 * Log10(lib, env))
    else env
  }

  class EnvelopeDetector {
    var AttackTimeInMillis: real
    var ReleaseTimeInMillis: real
    var AttackTime: real
    var ReleaseTime: real
    var SampleRate: real
    var Envelope: real
    var DetectMode: int
    var Sample: int
    var AnalogTC: bool
    var LogDetector: bool

    /** A zero-valued detector on which Init has been called. */
    constructor Init(lib: Library, sampleRate: real, attackInMillis: real, releaseInMillis: real,
                     analog: bool, detect: int, logDetector: bool)
      requires attackInMillis * sampleRate * 0.001 != 0.0
      requires releaseInMillis * sampleRate * 0.001 != 0.0
      ensures Envelope == 0.0 && SampleRate == sampleRate && AnalogTC == analog
      ensures AttackTimeInMillis == attackInMillis && ReleaseTimeInMillis == releaseInMillis
      ensures DetectMode == detect && LogDetector == logDetector && Sample == 0
      ensures AttackTime == Coefficient(lib, analog, attackInMillis, sampleRate)
      ensures ReleaseTime == Coefficient(lib, analog, releaseInMillis, sampleRate)
    {
      Sample := 0;
      AttackTime, ReleaseTime := 0.0, 0.0;
      Envelope := 0.0;
      SampleRate := sampleRate;
      AnalogTC := analog;
      AttackTimeInMillis := attackInMillis;
      ReleaseTimeInMillis := releaseInMillis;
      DetectMode := detect;
      LogDetector := logDetector;
      new;
      SetAttackTime(lib, attackInMillis);
      SetReleaseTime(lib, releaseInMillis);
    }

    /** Recomputes the attack coefficient; unlike SetReleaseTime it does not
        record the new time in AttackTimeInMillis. */
    method SetAttackTime(lib: Library, attackInMillis: real)
      requires attackInMillis * SampleRate * 0.001 != 0.0
      modifies this`AttackTime
      ensures AttackTime == Coefficient(lib, AnalogTC, attackInMillis, SampleRate)
    {
      AttackTime := attackInMillis;
      AttackTime := Coefficient(lib, AnalogTC, attackInMillis, SampleRate);
    }

    method SetReleaseTime(lib: Library, releaseInMillis: real)
      requires releaseInMillis * SampleRate * 0.001 != 0.0
      modifies this`ReleaseTimeInMillis, this`ReleaseTime
      ensures ReleaseTimeInMillis == releaseInMillis
      ensures ReleaseTime == Coefficient(lib, AnalogTC, releaseInMillis, SampleRate)
    {
      ReleaseTimeInMillis := releaseInMillis;
      ReleaseTime := Coefficient(lib, AnalogTC, releaseInMillis, SampleRate);
    }

    /** Switches the time-constant convention and re-derives both coefficients
        from the stored millisecond times. */
    method SetTCModeAnalog(lib: Library, analogTC: bool)
      requires AttackTimeInMillis * SampleRate * 0.001 != 0.0
      requires ReleaseTimeInMillis * SampleRate * 0.001 != 0.0
      modifies this`AnalogTC, this`AttackTime, this`ReleaseTime, this`ReleaseTimeInMillis
      ensures AnalogTC == analogTC && ReleaseTimeInMillis == old(ReleaseTimeInMillis)
      ensures AttackTime == Coefficient(lib, analogTC, AttackTimeInMillis, SampleRate)
      ensures ReleaseTime == Coefficient(lib, analogTC, ReleaseTimeInMillis, SampleRate)
    {
      AnalogTC := analogTC;
      SetAttackTime(lib, AttackTimeInMillis);
      SetReleaseTime(lib, ReleaseTimeInMillis);
    }

    /** Rectify, smooth, flush, clamp; then report linearly or in decibels. */
    method Detect(lib: Library, input: real) returns (out: real)
      modifies this`Envelope
      ensures Envelope == NextEnvelope(lib, DetectMode, AttackTime, ReleaseTime, old(Envelope), input)
      ensures 0.0 <= Envelope <= 1.0
      ensures out == DetectorOutput(lib, LogDetector, Envelope)
    {
      var x: real;
      match DetectMode {
        case 0 => x := Abs(input);
        case 1 => x := Abs(input) * Abs(input);
        case 2 => x := Pow(lib, Abs(input) * Abs(input), 0.5);
        case _ => x := Abs(input);
      }
      assert x == Rectify(lib, DetectMode, input);
      ghost var s := Smooth(AttackTime, ReleaseTime, Envelope, x);
      if x > Envelope {
        assert s == AttackTime * (Envelope - x) + x;
        Envelope := AttackTime * (Envelope - x) + x;
      } else {
        assert s == ReleaseTime * (Envelope - x) + x;
        Envelope := ReleaseTime * (Envelope - x) + x;
      }
      if Envelope > 0.0 && Envelope < FLTMinPlus {
        Envelope := 0.0;
      }
      if Envelope < 0.0 && Envelope > FLTMinMinus {
        Envelope := 0.0;
      }
      Envelope := Min(Envelope, 1.0);
      Envelope := Max(Envelope, 0.0);
      if LogDetector {
        if Envelope <= 0.0 {
          return -96.0;
        }
        return 20.0 * Log10(lib, Envelope);
      }
      return Envelope;
    }
  }
}
