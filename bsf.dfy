/** The band-stop designer (biquad/bsf/bsf.go): a bandwidth term C and a
    centre term D = 2 cos(2 pi freq / samplerate) fill a notch whose numerator
    1, -D, 1 and denominator 1, -D, 1 - C share the scale A0. The source
    writes that scale as `1/1 + C`, which Go reads as 1 + C; the normalised
    scale 1 / (1 + C) is defined beside it. */
module BandStopFilter {
  import opened Numerics
  import opened Biquad

  /** The coefficients with scale a0: A1 = B1 = -a0*D, A2 = A0, B2 = a0*(1 - C). */
  function Notch(a0: real, c: real, d: real): (k: Coefficients)
    ensures k.A0 == k.A2 == a0 && k.A1 == k.B1 == -a0 * d && k.B2 == a0 * (1.0 - c)
    ensures k.C0 == 1.0 && k.D0 == 0.0
  {
    Coefficients(a0, -a0 * d, a0, -a0 * d, a0 * (1.0 - c), 1.0, 0.0)
  }

  /** A notch has unity gain at DC exactly when its scale is 1 / (1 + C). */
  lemma UnityAtDcIff(a0: real, c: real, d: real)
    ensures UnityAtDc(Notch(a0, c, d)) <==> a0 * (1.0 + c) == 1.0
  {
    var k := Notch(a0, c, d);
    assert k.A0 + k.A1 + k.A2 - (1.0 + k.B1 + k.B2) == a0 * (1.0 + c) - 1.0;
  }

  /** updateCoefficients as written: the scale is `1/1 + C`, that is 1 + C. */
  function Design(c: real, d: real): (k: Coefficients)
    ensures k == Notch(1.0 + c, c, d)
  {
    Notch(1.0 / 1.0 + c, c, d)
  }

  /** As written, the notch keeps unity DC gain only when C is 0 or -2. */
  lemma DesignUnityAtDcIff(c: real, d: real)
    ensures UnityAtDc(Design(c, d)) <==> c == 0.0 || c == -2.0
  {
    UnityAtDcIff(1.0 + c, c, d);
    assert (1.0 + c) * (1.0 + c) - 1.0 == c * (c + 2.0);
    if c * (c + 2.0) == 0.0 {
      assert c == 0.0 || c + 2.0 == 0.0;
    }
  }

  /** With C = 1 and D = 0 the filter as written multiplies a settled constant
      input by 4 instead of passing it. */
  lemma DesignQuadruplesDc(x: real, n: nat)
    requires !InDenormalBand(4.0 * x)
    ensures Run(Design(1.0, 0.0), History(x, x, 4.0 * x, 4.0 * x), Const(x, n)) == Const(4.0 * x, n)
  {
    var k := Design(1.0, 0.0);
    var h := History(x, x, 4.0 * x, 4.0 * x);
    assert k == Coefficients(2.0, 0.0, 2.0, 0.0, 0.0, 1.0, 0.0);
    assert Raw(k, h, x) == 4.0 * x;
    SteadyState(k, h, x, n);
  }

  /** The normalised design: the scale 1 / (1 + C). */
  function IntendedDesign(c: real, d: real): (k: Coefficients)
    requires 1.0 + c != 0.0
    ensures k.A0 * (1.0 + c) == 1.0
    ensures UnityAtDc(k)
  {
    var k := Notch(1.0 / (1.0 + c), c, d);
    UnityAtDcIff(1.0 / (1.0 + c), c, d);
    k
  }

  /** Under the normalised design a settled constant input x outside the
      denormal band comes out unchanged for ever. */
  lemma IntendedPassesDc(c: real, d: real, x: real, n: nat)
    requires 1.0 + c != 0.0
    requires !InDenormalBand(x)
    ensures Run(IntendedDesign(c, d), History(x, x, x, x), Const(x, n)) == Const(x, n)
  {
    SettledPassesDc(IntendedDesign(c, d), x, n);
  }

  /** C = tan(pi * freq * (freq / q) / samplerate), the bandwidth term as written. */
  function Bandwidth(lib: Library, samplerate: real, freq: real, q: real): real
    requires samplerate != 0.0 && q != 0.0
  {
    Tan(lib, Pi * freq * (freq / q) / samplerate)
  }

  /** D = 2 cos(2 pi freq / samplerate). */
  function Centre(lib: Library, samplerate: real, freq: real): real
    requires samplerate != 0.0
  {
    2.0 * Cos(lib, 2.0 * Pi * freq / samplerate)
  }

  /** Both channels of the filter get the same coefficients. */
  function StereoDesign(lib: Library, samplerate: real, freq: real, q: real): (s: Stereo)
    requires samplerate != 0.0 && q != 0.0
    ensures s.R == s.L == Design(Bandwidth(lib, samplerate, freq, q), Centre(lib, samplerate, freq))
  {
    var k := Design(Bandwidth(lib, samplerate, freq, q), Centre(lib, samplerate, freq));
    Stereo(k, k)
  }

  /** BandStop as written: every sample, in place, through a fresh left biquad;
      the right one is designed but never used, and channel is ignored. */
  method BandStop(lib: Library, buf: array<real>, freq: real, samplerate: real, q: real, channel: int)
    requires samplerate != 0.0 && q != 0.0
    modifies buf
    ensures buf[..] == Run(Design(Bandwidth(lib, samplerate, freq, q), Centre(lib, samplerate, freq)),
                           Flushed, old(buf[..]))
  {
    var s := StereoDesign(lib, samplerate, freq, q);
    var l := new BiQuad(s.L);
    FilterInPlace(l, buf);
  }

  /** BandStop with the normalised scale. */
  method BandStopNormalised(lib: Library, buf: array<real>, freq: real, samplerate: real, q: real, channel: int)
    requires samplerate != 0.0 && q != 0.0 && 1.0 + Bandwidth(lib, samplerate, freq, q) != 0.0
    modifies buf
    ensures buf[..] == Run(IntendedDesign(Bandwidth(lib, samplerate, freq, q), Centre(lib, samplerate, freq)),
                           Flushed, old(buf[..]))
  {
    var k := IntendedDesign(Bandwidth(lib, samplerate, freq, q), Centre(lib, samplerate, freq));
    var l := new BiQuad(k);
    FilterInPlace(l, buf);
  }
}
