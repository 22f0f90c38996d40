/** The constant-Q parametric equaliser (biquad/parametric/parametric.go):
    K = tan(pi freq / samplerate), V0 = 10^(gain/20), and seven polynomials in
    K from which a boost (gain >= 0) or a cut (gain < 0) section is built. */
module ParametricEq {
  import opened Numerics
  import opened Biquad

  /** The intermediate terms of updateCoefficients; kk stands for the
      library's K^2. */
  datatype Terms = Terms(D0: real, E0: real, A: real, B: real, G: real, D: real, E: real)

  function TermsOf(k: real, kk: real, v0: real, q: real): (t: Terms)
    requires q != 0.0 && v0 * q != 0.0
    ensures t.D0 + t.D == t.A + t.G == t.E0 + t.E == 2.0 + 2.0 * kk
    ensures t.B == 2.0 * (kk - 1.0)
  {
    Terms(1.0 + (1.0 / q) * k + kk,
          1.0 + (1.0 / (v0 * q)) * k + kk,
          1.0 + (v0 / q) * k + kk,
          2.0 * (kk - 1.0),
          1.0 - (v0 / q) * k + kk,
          1.0 - (1.0 / q) * k + kk,
          1.0 - (1.0 / (v0 * q)) * k + kk)
  }

  /** The boost section: numerator A, B, G and denominator D0, B, D, scaled by 1/D0. */
  function Boost(t: Terms): (c: Coefficients)
    requires t.D0 != 0.0
    ensures c.A1 == c.B1 && c.C0 == 1.0 && c.D0 == 0.0
  {
    Coefficients(t.A / t.D0, t.B / t.D0, t.G / t.D0, t.B / t.D0, t.D / t.D0, 1.0, 0.0)
  }

  /** The cut section: numerator D0, B, D and denominator E0, B, E, scaled by 1/E0. */
  function Cut(t: Terms): (c: Coefficients)
    requires t.E0 != 0.0
    ensures c.A1 == c.B1 && c.C0 == 1.0 && c.D0 == 0.0
  {
    Coefficients(t.D0 / t.E0, t.B / t.E0, t.D / t.E0, t.B / t.E0, t.E / t.E0, 1.0, 0.0)
  }

  function Warp(lib: Library, samplerate: real, freq: real): real
    requires samplerate != 0.0
  {
    Tan(lib, Pi * freq / samplerate)
  }

  function Level(lib: Library, gain: real): real
  {
    Pow10(lib, gain / 20.0)
  }

  function TermsFor(lib: Library, samplerate: real, freq: real, gain: real, q: real): Terms
    requires samplerate != 0.0 && q != 0.0 && Level(lib, gain) * q != 0.0
  {
    var k := Warp(lib, samplerate, freq);
    TermsOf(k, Pow(lib, k, 2.0), Level(lib, gain), q)
  }

  /** The inputs for which every division the designer performs is defined. */
  predicate Designable(lib: Library, samplerate: real, freq: real, gain: real, q: real)
  {
    samplerate != 0.0 && q != 0.0 && Level(lib, gain) * q != 0.0 &&
    (if gain >= 0.0 then TermsFor(lib, samplerate, freq, gain, q).D0 != 0.0
     else TermsFor(lib, samplerate, freq, gain, q).E0 != 0.0)
  }

  /** updateCoefficients for one channel: boost for a non-negative gain, cut
      otherwise. Either way both the DC and the Nyquist gain are 1: only the
      band around freq is lifted or lowered. */
  function Design(lib: Library, samplerate: real, freq: real, gain: real, q: real): (c: Coefficients)
    requires Designable(lib, samplerate, freq, gain, q)
    ensures UnityAtDc(c) && UnityAtNyquist(c)
    ensures c.A1 == c.B1 && c.C0 == 1.0 && c.D0 == 0.0
  {
    var t := TermsFor(lib, samplerate, freq, gain, q);
    if gain >= 0.0 then
      var c := Boost(t);
      BoostUnityAtEdges(t);
      c
    else
      var c := Cut(t);
      CutUnityAtEdges(t);
      c
  }

  lemma BoostUnityAtEdges(t: Terms)
    requires t.D0 != 0.0
    requires t.D0 + t.D == t.A + t.G && t.B == t.D0 + t.D - 4.0
    ensures UnityAtDc(Boost(t)) && UnityAtNyquist(Boost(t))
  {
    var c := Boost(t);
    DivSelf(t.D0);
    DivAdd(t.A, t.B, t.D0);
    DivAdd(t.A + t.B, t.G, t.D0);
    DivAdd(t.D0, t.B, t.D0);
    DivAdd(t.D0 + t.B, t.D, t.D0);
    DivAdd(t.A, -t.B, t.D0);
    DivAdd(t.A - t.B, t.G, t.D0);
    DivAdd(t.D0, -t.B, t.D0);
    DivAdd(t.D0 - t.B, t.D, t.D0);
  }

  lemma CutUnityAtEdges(t: Terms)
    requires t.E0 != 0.0
    requires t.D0 + t.D == t.E0 + t.E && t.B == t.D0 + t.D - 4.0
    ensures UnityAtDc(Cut(t)) && UnityAtNyquist(Cut(t))
  {
    DivSelf(t.E0);
    DivAdd(t.D0, t.B, t.E0);
    DivAdd(t.D0 + t.B, t.D, t.E0);
    DivAdd(t.E0, t.B, t.E0);
    DivAdd(t.E0 + t.B, t.E, t.E0);
    DivAdd(t.D0, -t.B, t.E0);
    DivAdd(t.D0 - t.B, t.D, t.E0);
    DivAdd(t.E0, -t.B, t.E0);
    DivAdd(t.E0 - t.B, t.E, t.E0);
  }

  /** Both channels of the equaliser get the same coefficients. */
  function StereoDesign(lib: Library, samplerate: real, freq: real, gain: real, q: real): (s: Stereo)
    requires Designable(lib, samplerate, freq, gain, q)
    ensures s.R == s.L == Design(lib, samplerate, freq, gain, q)
  {
    var c := Design(lib, samplerate, freq, gain, q);
    Stereo(c, c)
  }

  /** At 0 dB (10^0 = 1) the section's numerator equals its denominator, so
      the equaliser returns every input unchanged, provided no input lies in
      the denormal band. */
  lemma TransparentAtZeroGain(lib: Library, samplerate: real, freq: real, q: real, xs: seq<real>)
    requires Pow10(lib, 0.0) == 1.0
    requires Designable(lib, samplerate, freq, 0.0, q)
    requires forall i :: 0 <= i < |xs| ==> !InDenormalBand(xs[i])
    ensures Run(Design(lib, samplerate, freq, 0.0, q), Flushed, xs) == xs
  {
    var t := TermsFor(lib, samplerate, freq, 0.0, q);
    assert Level(lib, 0.0) == 1.0 by {
      assert 0.0 / 20.0 == 0.0;
    }
    assert 1.0 / q == Level(lib, 0.0) / q;
    assert t.A == t.D0 && t.G == t.D;
    DivSelf(t.D0);
    TransparentRun(Design(lib, samplerate, freq, 0.0, q), xs);
  }

  /** With V0 for the boost and 1/V0 for the cut, the cut section is the
      boost section inverted: its numerator is the boost's denominator and its
      denominator the boost's numerator, both divided by the boost's A0. */
  lemma CutInvertsBoost(k: real, kk: real, v0: real, q: real)
    requires q != 0.0 && v0 != 0.0
    requires TermsOf(k, kk, v0, q).D0 != 0.0 && TermsOf(k, kk, v0, q).A != 0.0
    ensures TermsOf(k, kk, 1.0 / v0, q).E0 != 0.0
    ensures var b := Boost(TermsOf(k, kk, v0, q));
            var c := Cut(TermsOf(k, kk, 1.0 / v0, q));
            b.A0 != 0.0 &&
            c.A0 == 1.0 / b.A0 && c.A1 == b.B1 / b.A0 && c.A2 == b.B2 / b.A0 &&
            c.B1 == b.A1 / b.A0 && c.B2 == b.A2 / b.A0
  {
    ReciprocalQuotient(v0, q);
    MulLeft(1.0 / ((1.0 / v0) * q), v0 / q, k);
    var tb, tc := TermsOf(k, kk, v0, q), TermsOf(k, kk, 1.0 / v0, q);
    assert tc.E0 == tb.A && tc.E == tb.G && tc.D0 == tb.D0 && tc.D == tb.D && tc.B == tb.B;
    SwappedSections(tb, tc);
  }

  /** CutInvertsBoost for the designer's own arguments: given that the level
      of -g is the reciprocal of the level of g, the section designed for a
      cut of g dB is the inverse of the one designed for a boost of g dB. */
  lemma DesignCutInvertsBoost(lib: Library, samplerate: real, freq: real, g: real, q: real)
    requires 0.0 < g && Level(lib, g) != 0.0 && Level(lib, -g) == 1.0 / Level(lib, g)
    requires Designable(lib, samplerate, freq, g, q) && Designable(lib, samplerate, freq, -g, q)
    requires TermsFor(lib, samplerate, freq, g, q).A != 0.0
    ensures var b := Design(lib, samplerate, freq, g, q);
            var c := Design(lib, samplerate, freq, -g, q);
            b.A0 != 0.0 &&
            c.A0 == 1.0 / b.A0 && c.A1 == b.B1 / b.A0 && c.A2 == b.B2 / b.A0 &&
            c.B1 == b.A1 / b.A0 && c.B2 == b.A2 / b.A0
  {
    var k := Warp(lib, samplerate, freq);
    CutInvertsBoost(k, Pow(lib, k, 2.0), Level(lib, g), q);
  }

  /** The algebra behind CutInvertsBoost, for any two sets of terms whose
      cut normaliser and tail are the other's A and G. */
  lemma SwappedSections(tb: Terms, tc: Terms)
    requires tb.D0 != 0.0 && tb.A != 0.0
    requires tc.E0 == tb.A && tc.E == tb.G && tc.D0 == tb.D0 && tc.D == tb.D && tc.B == tb.B
    ensures var b, c := Boost(tb), Cut(tc);
            b.A0 != 0.0 &&
            c.A0 == 1.0 / b.A0 && c.A1 == b.B1 / b.A0 && c.A2 == b.B2 / b.A0 &&
            c.B1 == b.A1 / b.A0 && c.B2 == b.A2 / b.A0
  {
    DivRatio(tb.D0, tb.D0, tb.A);
    DivRatio(tb.B, tb.D0, tb.A);
    DivRatio(tb.D, tb.D0, tb.A);
    DivRatio(tb.G, tb.D0, tb.A);
    DivSelf(tb.D0);
  }

  /** With q > 0, K >= 0, V0 > 0 and K^2 = K*K both normalising terms D0 and E0
      are positive, so either section is defined. */
  lemma NormalisersPositive(k: real, kk: real, v0: real, q: real)
    requires 0.0 < q && 0.0 <= k && 0.0 < v0 && kk == k * k
    ensures TermsOf(k, kk, v0, q).D0 > 0.0 && TermsOf(k, kk, v0, q).E0 > 0.0
  {
    PositiveProduct(v0, q);
    ProductNonNegative(1.0 / q, k);
    ProductNonNegative(1.0 / (v0 * q), k);
  }

  /** EQ: every sample, in place, through a fresh left biquad; the right one
      is designed but never used, and channel is ignored. */
  method Eq(lib: Library, buf: array<real>, freq: real, gain: real, q: real, samplerate: real, channel: int)
    requires Designable(lib, samplerate, freq, gain, q)
    modifies buf
    ensures buf[..] == Run(Design(lib, samplerate, freq, gain, q), Flushed, old(buf[..]))
  {
    var s := StereoDesign(lib, samplerate, freq, gain, q);
    var l := new BiQuad(s.L);
    FilterInPlace(l, buf);
  }
}
