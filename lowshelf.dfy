/** The first-order low-shelving filter (biquad/shelving/lowshelf/lowshelf.go):
    an object holding a BiQuad per channel, a corner frequency and a gain in
    decibels. UpdateCoefficients writes an all-pass-derived one-pole section
    whose wet output, scaled by u - 1 (u = 10^(gain/20)), is added to the dry
    input; Process runs one sample through the chosen channel. */
module LowShelfFilter {
  import opened Numerics
  import opened Biquad

  /** u = 10^(gain/20), the linear gain of the shelf. */
  function Level(lib: Library, gain: real): real
  {
    Pow10(lib, gain / 20.0)
  }

  /** omega = (4 / (1 + u)) * tan(theta / 2), theta = 2 pi freq / samplerate. */
  function Omega(lib: Library, samplerate: real, freq: real, gain: real): real
    requires samplerate != 0.0 && 1.0 + Level(lib, gain) != 0.0
  {
    var theta := 2.0 * Pi * freq / samplerate;
    (4.0 / (1.0 + Level(lib, gain))) * Tan(lib, theta / 2.0)
  }

  /** The pole: gamma = (1 - omega) / (1 + omega). */
  function Gamma(omega: real): real
    requires 1.0 + omega != 0.0
  {
    (1.0 - omega) / (1.0 + omega)
  }

  /** A non-negative omega keeps the pole gamma in (-1, 1]; a positive one
      puts it strictly inside the unit circle, so the section is stable. */
  lemma PoleInside(omega: real)
    requires 0.0 <= omega
    ensures -1.0 < Gamma(omega) <= 1.0
    ensures 0.0 < omega ==> Gamma(omega) < 1.0
  {
    var g := Gamma(omega);
    assert g * (1.0 + omega) == 1.0 - omega;
  }

  /** The section for pole gamma and linear gain u. Its numerator and
      denominator share the sum 1 - gamma (unity wet gain at DC), its
      numerator's alternating sum is 0 (no wet output at Nyquist), and the
      dry input is always added back once. */
  function Shelf(gamma: real, u: real): (k: Coefficients)
    ensures k.A0 == k.A1 && UnityAtDc(k) && k.A0 - k.A1 + k.A2 == 0.0
    ensures k.A2 == 0.0 && k.B2 == 0.0 && k.B1 == -gamma
    ensures k.C0 == u - 1.0 && k.D0 == 1.0
  {
    Coefficients((1.0 - gamma) / 2.0, (1.0 - gamma) / 2.0, 0.0, -gamma, 0.0, u - 1.0, 1.0)
  }

  /** The inputs for which every division UpdateCoefficients performs is defined. */
  predicate Designable(lib: Library, samplerate: real, freq: real, gain: real)
  {
    samplerate != 0.0 && 1.0 + Level(lib, gain) != 0.0 &&
    1.0 + Omega(lib, samplerate, freq, gain) != 0.0
  }

  /** UpdateCoefficients' section for one channel: the wet weight is u - 1,
      the wet path has unity gain at DC, and for a non-negative omega the
      pole -B1 lies in (-1, 1], strictly below 1 for a positive one. */
  function Design(lib: Library, samplerate: real, freq: real, gain: real): (k: Coefficients)
    requires Designable(lib, samplerate, freq, gain)
    ensures k.C0 == Level(lib, gain) - 1.0 && k.D0 == 1.0 && UnityAtDc(k)
    ensures var omega := Omega(lib, samplerate, freq, gain);
            (0.0 <= omega ==> -1.0 < -k.B1 <= 1.0) && (0.0 < omega ==> -k.B1 < 1.0)
  {
    var omega := Omega(lib, samplerate, freq, gain);
    if 0.0 <= omega then PoleInside(omega); Shelf(Gamma(omega), Level(lib, gain))
    else Shelf(Gamma(omega), Level(lib, gain))
  }

  /** Settled on a constant input x (past inputs and outputs all x, x outside
      the denormal band) the shelf multiplies it by u for ever: the low band
      is scaled by the shelf's gain. */
  lemma ShelfScalesDc(gamma: real, u: real, x: real, n: nat)
    requires !InDenormalBand(x)
    ensures Run(Shelf(gamma, u), History(x, x, x, x), Const(x, n)) == Const(u * x, n)
  {
    var k := Shelf(gamma, u);
    var h := History(x, x, x, x);
    assert Raw(k, h, x) == x by {
      assert Raw(k, h, x) == (k.A0 + k.A1 + k.A2) * x - (k.B1 + k.B2) * x;
    }
    assert Mix(k, x, x) == u * x;
    SteadyState(k, h, x, n);
  }

  /** At 0 dB (10^0 = 1) the wet weight u - 1 is 0 and the shelf returns
      every input unchanged, whatever its history. */
  lemma FlatAtZeroGain(lib: Library, samplerate: real, freq: real, h: History, xs: seq<real>)
    requires Pow10(lib, 0.0) == 1.0
    requires Designable(lib, samplerate, freq, 0.0)
    ensures Run(Design(lib, samplerate, freq, 0.0), h, xs) == xs
  {
    assert Level(lib, 0.0) == 1.0 by {
      assert 0.0 / 20.0 == 0.0;
    }
    DryRun(Design(lib, samplerate, freq, 0.0), h, xs);
  }

  class LowShelf {
    var L: BiQuad
    var R: BiQuad
    var Freq: real
    var Gain: real

    /** The two channels are separate filters. */
    predicate Valid()
      reads this
    {
      L != R
    }

    /** The zero-valued struct with Freq and Gain filled in. */
    constructor (freq: real, gain: real)
      ensures Valid() && fresh(L) && fresh(R)
      ensures Freq == freq && Gain == gain
      ensures L.Coeffs() == R.Coeffs() == Coefficients(0.0, 0.0, 0.0, 0.0, 0.0, 0.0, 0.0)
      ensures L.Hist() == R.Hist() == Flushed
    {
      var zero := Coefficients(0.0, 0.0, 0.0, 0.0, 0.0, 0.0, 0.0);
      L := new BiQuad(zero);
      R := new BiQuad(zero);
      Freq := freq;
      Gain := gain;
    }

    /** Writes the shelf for Freq and Gain into both channels; their
        histories are kept. */
    method UpdateCoefficients(lib: Library, samplerate: real)
      requires Valid() && Designable(lib, samplerate, Freq, Gain)
      modifies L, R
      ensures Valid()
      ensures L.Coeffs() == R.Coeffs() == Design(lib, samplerate, Freq, Gain)
      ensures L.Hist() == old(L.Hist()) && R.Hist() == old(R.Hist())
    {
      var theta := 2.0 * Pi * Freq / samplerate;
      var u := Pow10(lib, Gain / 20.0);
      var beta := 4.0 / (1.0 + u);
      var omega := beta * Tan(lib, theta / 2.0);
      var gamma := (1.0 - omega) / (1.0 + omega);
      var k := Coefficients((1.0 - gamma) / 2.0, (1.0 - gamma) / 2.0, 0.0, -gamma, 0.0, u - 1.0, 1.0);
      assert k == Design(lib, samplerate, Freq, Gain);
      L.SetCoefficients(k);
      R.SetCoefficients(k);
    }

    /** One sample through the left filter for channel 0, through the right
        one for every other channel, mixed as output*C0 + x*D0; the other
        filter is untouched. */
    method Process(x: real, channel: int) returns (out: real)
      requires Valid()
      modifies L, R
      ensures Valid()
      ensures channel == 0 ==>
                out == Mix(old(L.Coeffs()), Output(old(L.Coeffs()), old(L.Hist()), x), x) &&
                L.Hist() == Shift(old(L.Hist()), x, Output(old(L.Coeffs()), old(L.Hist()), x)) &&
                L.Coeffs() == old(L.Coeffs()) && unchanged(R)
      ensures channel != 0 ==>
                out == Mix(old(R.Coeffs()), Output(old(R.Coeffs()), old(R.Hist()), x), x) &&
                R.Hist() == Shift(old(R.Hist()), x, Output(old(R.Coeffs()), old(R.Hist()), x)) &&
                R.Coeffs() == old(R.Coeffs()) && unchanged(L)
    {
      var output: real;
      if channel == 0 {
        output := L.DoBiQuad(x);
        output := output * L.C0 + x * L.D0;
        return output;
      }
      output := R.DoBiQuad(x);
      output := output * R.C0 + x * R.D0;
      return output;
    }
  }
}
