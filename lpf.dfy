/** The Butterworth low-pass designer (biquad/lpf/lpf.go): the high-pass
    recipe with C = 1 / tan(freq / samplerate), numerator A0, 2*A0, A0 and the
    sign of B1 flipped; the same Butterworth denominator normalises it. */
module LowPassFilter {
  import opened Numerics
  import opened Biquad
  import HighPassFilter

  /** updateCoefficients for one channel, given C. Numerator and denominator
      weights both sum to 4*A0 (unity gain at DC); the numerator's alternating
      sum is 0 (no gain at Nyquist). */
  function Design(lib: Library, c: real): (k: Coefficients)
    requires HighPassFilter.Denominator(lib, c) != 0.0
    ensures k.A0 * HighPassFilter.Denominator(lib, c) == 1.0
    ensures k.A1 == 2.0 * k.A0 && k.A2 == k.A0
    ensures UnityAtDc(k) && k.A0 + k.A1 + k.A2 == 4.0 * k.A0
    ensures k.A0 - k.A1 + k.A2 == 0.0
    ensures k.C0 == 1.0 && k.D0 == 0.0
  {
    var a0 := 1.0 / (1.0 + Sqrt2(lib) * c + Pow(lib, c, 2.0));
    var k := Coefficients(a0, 2.0 * a0, a0, 2.0 * a0 * (1.0 - Pow(lib, c, 2.0)),
                          a0 * (1.0 - Sqrt2(lib) * c + Pow(lib, c, 2.0)), 1.0, 0.0);
    assert 1.0 + k.B1 + k.B2 == 4.0 * a0 by {
      var s, p := Sqrt2(lib) * c, Pow(lib, c, 2.0);
      assert a0 * (1.0 + s + p) == 1.0;
      assert 1.0 + k.B1 + k.B2 == a0 * (1.0 + s + p) + 2.0 * a0 - 2.0 * a0 * p + a0 * (1.0 - s + p) + (1.0 - a0 * (1.0 + s + p));
    }
    k
  }

  /** C = 1 / tan(freq / samplerate); the source passes no factor of pi. */
  function Prewarp(lib: Library, samplerate: real, freq: real): real
    requires samplerate != 0.0 && Tan(lib, freq / samplerate) != 0.0
  {
    1.0 / Tan(lib, freq / samplerate)
  }

  /** The designer's inputs for which every division it performs is defined. */
  predicate Designable(lib: Library, samplerate: real, freq: real)
  {
    samplerate != 0.0 && Tan(lib, freq / samplerate) != 0.0
    && HighPassFilter.Denominator(lib, Prewarp(lib, samplerate, freq)) != 0.0
  }

  /** Both channels of the filter get the same coefficients. */
  function StereoDesign(lib: Library, samplerate: real, freq: real): (d: Stereo)
    requires Designable(lib, samplerate, freq)
    ensures d.R == d.L == Design(lib, Prewarp(lib, samplerate, freq))
  {
    var k := Design(lib, Prewarp(lib, samplerate, freq));
    Stereo(k, k)
  }

  /** A constant input x outside the denormal band, once the filter has
      settled on it (past inputs and outputs all x), comes out unchanged for ever. */
  lemma PassesDc(lib: Library, c: real, x: real, n: nat)
    requires HighPassFilter.Denominator(lib, c) != 0.0
    requires !InDenormalBand(x)
    ensures Run(Design(lib, c), History(x, x, x, x), Const(x, n)) == Const(x, n)
  {
    SettledPassesDc(Design(lib, c), x, n);
  }

  /** LowPass: every sample, in place, through a fresh left biquad; the right
      one is designed but never used, and channel is ignored. */
  method LowPass(lib: Library, buf: array<real>, freq: real, samplerate: real, channel: int)
    requires Designable(lib, samplerate, freq)
    modifies buf
    ensures buf[..] == Run(Design(lib, Prewarp(lib, samplerate, freq)), Flushed, old(buf[..]))
  {
    var d := StereoDesign(lib, samplerate, freq);
    var l := new BiQuad(d.L);
    FilterInPlace(l, buf);
  }
}
