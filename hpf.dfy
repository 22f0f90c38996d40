/** The Butterworth high-pass designer (biquad/hpf/hpf.go): coefficients from
    C = tan(freq / samplerate), and the in-place loop that runs a buffer
    through the left biquad. */
module HighPassFilter {
  import opened Numerics
  import opened Biquad

  /** The denominator 1 + sqrt(2)*C + C^2 that A0 normalises by. */
  function Denominator(lib: Library, c: real): real
  {
    1.0 + Sqrt2(lib) * c + Pow(lib, c, 2.0)
  }

  /** With sqrt(2)^2 = 2 and C^2 = C*C the denominator is positive for every
      C, so A0 is always defined. */
  lemma DenominatorPositive(lib: Library, c: real)
    requires Sqrt2Law(lib) && Pow(lib, c, 2.0) == c * c
    ensures Denominator(lib, c) > 0.0
  {
    ButterworthDenominatorPositive(Sqrt2(lib), c);
  }

  /** updateCoefficients for one channel, given C. The numerator weights
      A0, -2*A0, A0 sum to 0 (no gain at DC); the alternating sums of
      numerator and denominator agree (unity gain at Nyquist). */
  function Design(lib: Library, c: real): (k: Coefficients)
    requires Denominator(lib, c) != 0.0
    ensures k.A0 * Denominator(lib, c) == 1.0
    ensures k.A1 == -2.0 * k.A0 && k.A2 == k.A0
    ensures k.A0 + k.A1 + k.A2 == 0.0
    ensures UnityAtNyquist(k)
    ensures k.C0 == 1.0 && k.D0 == 0.0
  {
    var a0 := 1.0 / (1.0 + Sqrt2(lib) * c + Pow(lib, c, 2.0));
    var k := Coefficients(a0, -2.0 * a0, a0, 2.0 * a0 * (Pow(lib, c, 2.0) - 1.0),
                          a0 * (1.0 - Sqrt2(lib) * c + Pow(lib, c, 2.0)), 1.0, 0.0);
    assert UnityAtNyquist(k) by {
      var s, p := Sqrt2(lib) * c, Pow(lib, c, 2.0);
      assert a0 * (1.0 + s + p) == 1.0;
      assert 1.0 - k.B1 + k.B2 == a0 * (1.0 + s + p) - 2.0 * a0 * p + 2.0 * a0 + a0 * (1.0 - s + p) + (1.0 - a0 * (1.0 + s + p));
    }
    k
  }

  /** C = tan(freq / samplerate); the source passes no factor of pi. */
  function Prewarp(lib: Library, samplerate: real, freq: real): real
    requires samplerate != 0.0
  {
    Tan(lib, freq / samplerate)
  }

  /** Both channels of the filter get the same coefficients. */
  function StereoDesign(lib: Library, samplerate: real, freq: real): (d: Stereo)
    requires samplerate != 0.0 && Denominator(lib, Prewarp(lib, samplerate, freq)) != 0.0
    ensures d.R == d.L == Design(lib, Prewarp(lib, samplerate, freq))
  {
    var k := Design(lib, Prewarp(lib, samplerate, freq));
    Stereo(k, k)
  }

  /** A constant input, once the filter has settled on it (both past inputs
      equal to it, both past outputs 0), comes out as silence for ever. */
  lemma BlocksDc(lib: Library, c: real, x: real, n: nat)
    requires Denominator(lib, c) != 0.0
    ensures Run(Design(lib, c), History(x, x, 0.0, 0.0), Const(x, n)) == Const(0.0, n)
  {
    var k := Design(lib, c);
    var h := History(x, x, 0.0, 0.0);
    assert Raw(k, h, x) == 0.0 by {
      assert Raw(k, h, x) == (k.A0 + k.A1 + k.A2) * x;
    }
    SteadyState(k, h, x, n);
  }

  /** HighPass: every sample, in place, through a fresh left biquad; the
      right one is designed but never used, and channel is ignored. */
  method HighPass(lib: Library, buf: array<real>, freq: real, samplerate: real, channel: int)
    requires samplerate != 0.0 && Denominator(lib, Prewarp(lib, samplerate, freq)) != 0.0
    modifies buf
    ensures buf[..] == Run(Design(lib, Prewarp(lib, samplerate, freq)), Flushed, old(buf[..]))
  {
    var d := StereoDesign(lib, samplerate, freq);
    var l := new BiQuad(d.L);
    FilterInPlace(l, buf);
  }
}
