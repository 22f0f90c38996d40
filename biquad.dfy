/** The two-pole, two-zero recursive filter every designer configures
    (biquad/biquad.go): five coefficients, a wet/dry pair and four history
    cells that each processed sample shifts. */
module Biquad {
  import opened Numerics

  /** A0..B2 weight the difference equation; C0 (wet) and D0 (dry) are applied
      by the caller as `y*C0 + x*D0`. */
  datatype Coefficients = Coefficients(A0: real, A1: real, A2: real, B1: real, B2: real, C0: real, D0: real)

  /** What a designer writes into the left and the right BiQuad. */
  datatype Stereo = Stereo(L: Coefficients, R: Coefficients)

  /** x[n-1], x[n-2], y[n-1], y[n-2] */
  datatype History = History(XZ1: real, XZ2: real, YZ1: real, YZ2: real)

  const Flushed: History := History(0.0, 0.0, 0.0, 0.0)

  /** The difference equation before the denormal flush. */
  function Raw(k: Coefficients, h: History, xn: real): real
  {
    k.A0 * xn + k.A1 * h.XZ1 + k.A2 * h.XZ2 - k.B1 * h.YZ1 - k.B2 * h.YZ2
  }

  /** The sample DoBiQuad returns: the difference equation, flushed. */
  function Output(k: Coefficients, h: History, xn: real): (y: real)
    ensures y == 0.0 || y <= FLTMinMinus || FLTMinPlus <= y
    ensures y == Raw(k, h, xn) || (y == 0.0 && FLTMinMinus < Raw(k, h, xn) < FLTMinPlus)
  {
    FlushDenormal(Raw(k, h, xn))
  }

  /** The history after input xn produced output yn. */
  function Shift(h: History, xn: real, yn: real): History
  {
    History(xn, h.XZ1, yn, h.YZ1)
  }

  /** The history after the samples xs have gone through DoBiQuad, one by one, from h. */
  function HistoryAfter(k: Coefficients, h: History, xs: seq<real>): History
    decreases |xs|
  {
    if xs == [] then h
    else
      var p := HistoryAfter(k, h, xs[..|xs| - 1]);
      Shift(p, xs[|xs| - 1], Output(k, p, xs[|xs| - 1]))
  }

  /** The wet/dry mix a caller applies to output y of input x. */
  function Mix(k: Coefficients, y: real, x: real): real
  {
    y * k.C0 + x * k.D0
  }

  /** The samples a designer's loop writes back: each DoBiQuad output mixed
      as `y*C0 + x*D0`. */
  function Run(k: Coefficients, h: History, xs: seq<real>): (ys: seq<real>)
    ensures |ys| == |xs|
    decreases |xs|
  {
    if xs == [] then []
    else
      var p := xs[..|xs| - 1];
      var x := xs[|xs| - 1];
      Run(k, h, p) + [Mix(k, Output(k, HistoryAfter(k, h, p), x), x)]
  }

  /** Run and HistoryAfter extended by one sample. */
  lemma RunStep(k: Coefficients, h: History, xs: seq<real>, i: nat)
    requires i < |xs|
    ensures HistoryAfter(k, h, xs[..i + 1])
         == Shift(HistoryAfter(k, h, xs[..i]), xs[i], Output(k, HistoryAfter(k, h, xs[..i]), xs[i]))
    ensures Run(k, h, xs[..i + 1])
         == Run(k, h, xs[..i]) + [Mix(k, Output(k, HistoryAfter(k, h, xs[..i]), xs[i]), xs[i])]
  {
    var q := xs[..i + 1];
    assert q[..|q| - 1] == xs[..i];
    assert q[|q| - 1] == xs[i];
  }

  predicate InDenormalBand(v: real)
  {
    FLTMinMinus < v < FLTMinPlus && v != 0.0
  }

  class BiQuad {
    var A0: real
    var A1: real
    var A2: real
    var B1: real
    var B2: real
    var C0: real
    var D0: real
    var XZ1: real
    var XZ2: real
    var YZ1: real
    var YZ2: real

    function Coeffs(): Coefficients
      reads this
    {
      Coefficients(A0, A1, A2, B1, B2, C0, D0)
    }

    function Hist(): History
      reads this
    {
      History(XZ1, XZ2, YZ1, YZ2)
    }

    /** A zero-valued BiQuad whose coefficients a designer has then assigned. */
    constructor (k: Coefficients)
      ensures Coeffs() == k && Hist() == Flushed
    {
      A0, A1, A2, B1, B2, C0, D0 := k.A0, k.A1, k.A2, k.B1, k.B2, k.C0, k.D0;
      XZ1, XZ2, YZ1, YZ2 := 0.0, 0.0, 0.0, 0.0;
    }

    /** Assigns all seven coefficients and leaves the history alone. */
    method SetCoefficients(k: Coefficients)
      modifies this
      ensures Coeffs() == k && Hist() == old(Hist())
    {
      A0, A1, A2, B1, B2, C0, D0 := k.A0, k.A1, k.A2, k.B1, k.B2, k.C0, k.D0;
    }

    method FlushDelays()
      modifies this
      ensures Hist() == Flushed
      ensures Coeffs() == old(Coeffs())
    {
      XZ1 := 0.0;
      XZ2 := 0.0;
      YZ1 := 0.0;
      YZ2 := 0.0;
    }

    method DoBiQuad(xn: real) returns (yn: real)
      modifies this
      ensures yn == Output(old(Coeffs()), old(Hist()), xn)
      ensures Hist() == Shift(old(Hist()), xn, yn)
      ensures Coeffs() == old(Coeffs())
    {
      yn := A0 * xn + A1 * XZ1 + A2 * XZ2 - B1 * YZ1 - B2 * YZ2;
      assert yn == Raw(Coeffs(), Hist(), xn);
      if yn > 0.0 && yn < FLTMinPlus {
        yn := 0.0;
      }
      if yn < 0.0 && yn > FLTMinMinus {
        yn := 0.0;
      }
      YZ2 := YZ1;
      YZ1 := yn;
      XZ2 := XZ1;
      XZ1 := xn;
    }
  }

  /** The loop every designer runs over its buffer: each sample is replaced,
      in place, by the wet/dry mix of the biquad's output for it. */
  method FilterInPlace(b: BiQuad, buf: array<real>)
    modifies b, buf
    ensures buf[..] == Run(old(b.Coeffs()), old(b.Hist()), old(buf[..]))
    ensures b.Hist() == HistoryAfter(old(b.Coeffs()), old(b.Hist()), old(buf[..]))
    ensures b.Coeffs() == old(b.Coeffs())
  {
    ghost var k, h0, xs := b.Coeffs(), b.Hist(), buf[..];
    var i := 0;
    while i < buf.Length
      invariant 0 <= i <= buf.Length == |xs|
      invariant b.Coeffs() == k
      invariant buf[..i] == Run(k, h0, xs[..i])
      invariant forall j :: i <= j < buf.Length ==> buf[j] == xs[j]
      invariant b.Hist() == HistoryAfter(k, h0, xs[..i])
    {
      ghost var done := buf[..i];
      var x := buf[i];
      var y := b.DoBiQuad(x);
      buf[i] := Mix(b.Coeffs(), y, x);
      assert buf[..i] == done;
      RunStep(k, h0, xs, i);
      assert buf[..i + 1] == done + [Mix(k, y, x)];
      i := i + 1;
    }
    assert buf[..] == buf[..i];
    assert xs == xs[..i];
  }

  /** From flushed history a unit impulse gives y0 = A0 and y1 = A1 - B1*A0
      (before the wet/dry mix), unless one of them falls in the denormal band. */
  lemma ImpulseResponse(k: Coefficients)
    requires !InDenormalBand(k.A0) && !InDenormalBand(k.A1 - k.B1 * k.A0)
    ensures Run(k, Flushed, [1.0, 0.0]) == [k.A0 * k.C0 + k.D0, (k.A1 - k.B1 * k.A0) * k.C0]
  {
    var xs := [1.0, 0.0];
    assert xs[..0] == [] && xs[..2] == xs;
    RunStep(k, Flushed, xs, 0);
    assert Output(k, Flushed, 1.0) == k.A0;
    var h1 := HistoryAfter(k, Flushed, xs[..1]);
    assert h1 == History(1.0, 0.0, k.A0, 0.0);
    RunStep(k, Flushed, xs, 1);
    assert Raw(k, h1, 0.0) == k.A1 - k.B1 * k.A0;
    assert Mix(k, k.A0, 1.0) == k.A0 * k.C0 + k.D0;
    assert Mix(k, k.A1 - k.B1 * k.A0, 0.0) == (k.A1 - k.B1 * k.A0) * k.C0;
  }

  function Zeros(n: nat): (z: seq<real>)
    ensures |z| == n && forall i :: 0 <= i < n ==> z[i] == 0.0
  {
    seq(n, i => 0.0)
  }

  /** Silence in, from flushed history: silence out, and the history stays flushed. */
  lemma {:induction false} SilenceStaysSilent(k: Coefficients, n: nat)
    ensures HistoryAfter(k, Flushed, Zeros(n)) == Flushed
    ensures Run(k, Flushed, Zeros(n)) == Zeros(n)
  {
    if n > 0 {
      var z := Zeros(n);
      assert z[..n - 1] == Zeros(n - 1);
      SilenceStaysSilent(k, n - 1);
      RunStep(k, Flushed, z, n - 1);
      assert z[..n] == z;
      assert Raw(k, Flushed, 0.0) == 0.0;
      assert z == Zeros(n - 1) + [0.0];
    }
  }

  /** n copies of x. */
  function Const(x: real, n: nat): (c: seq<real>)
    ensures |c| == n && forall i :: 0 <= i < n ==> c[i] == x
  {
    seq(n, i => x)
  }

  /** A history that one more x leaves as it is is a steady state: a constant
      input x from it keeps producing the same output, and the history stays put. */
  lemma {:induction false} SteadyState(k: Coefficients, h: History, x: real, n: nat)
    requires Shift(h, x, Output(k, h, x)) == h
    ensures HistoryAfter(k, h, Const(x, n)) == h
    ensures Run(k, h, Const(x, n)) == Const(Mix(k, Output(k, h, x), x), n)
  {
    if n > 0 {
      var c := Const(x, n);
      assert c[..n - 1] == Const(x, n - 1);
      SteadyState(k, h, x, n - 1);
      RunStep(k, h, c, n - 1);
      assert c[..n] == c;
      assert Const(Mix(k, Output(k, h, x), x), n) == Const(Mix(k, Output(k, h, x), x), n - 1) + [Mix(k, Output(k, h, x), x)];
    }
  }

  /** Numerator and denominator weights have equal sums: the gain at DC is 1. */
  predicate UnityAtDc(k: Coefficients)
  {
    k.A0 + k.A1 + k.A2 == 1.0 + k.B1 + k.B2
  }

  /** Numerator and denominator weights have equal alternating sums: the gain
      at the Nyquist frequency is 1. */
  predicate UnityAtNyquist(k: Coefficients)
  {
    k.A0 - k.A1 + k.A2 == 1.0 - k.B1 + k.B2
  }

  /** A fully wet filter with unity gain at DC, settled on a constant input x
      outside the denormal band (past inputs and outputs all x), passes that
      input unchanged for ever. */
  lemma SettledPassesDc(k: Coefficients, x: real, n: nat)
    requires UnityAtDc(k) && k.C0 == 1.0 && k.D0 == 0.0
    requires !InDenormalBand(x)
    ensures Run(k, History(x, x, x, x), Const(x, n)) == Const(x, n)
  {
    var h := History(x, x, x, x);
    assert Raw(k, h, x) == x by {
      assert Raw(k, h, x) == (k.A0 + k.A1 + k.A2) * x - (k.B1 + k.B2) * x;
    }
    SteadyState(k, h, x, n);
  }

  /** A fully dry mix (C0 = 0, D0 = 1) returns every input unchanged,
      whatever the coefficients and the history. */
  lemma {:induction false} DryRun(k: Coefficients, h: History, xs: seq<real>)
    requires k.C0 == 0.0 && k.D0 == 1.0
    ensures Run(k, h, xs) == xs
  {
    if xs != [] {
      DryRun(k, h, xs[..|xs| - 1]);
      RunStep(k, h, xs, |xs| - 1);
      assert xs[..|xs|] == xs == xs[..|xs| - 1] + [xs[|xs| - 1]];
    }
  }

  /** The history in which every past output equals the past input. */
  predicate Mirrored(h: History)
  {
    h.XZ1 == h.YZ1 && h.XZ2 == h.YZ2
  }

  /** A biquad with A0 = 1, A1 = B1, A2 = B2, C0 = 1 and D0 = 0 (numerator
      equal to denominator) returns every input unchanged from flushed
      history, provided no input lies in the denormal band. */
  lemma {:induction false} TransparentRun(k: Coefficients, xs: seq<real>)
    requires k.A0 == 1.0 && k.A1 == k.B1 && k.A2 == k.B2 && k.C0 == 1.0 && k.D0 == 0.0
    requires forall i :: 0 <= i < |xs| ==> !InDenormalBand(xs[i])
    ensures Run(k, Flushed, xs) == xs
    ensures Mirrored(HistoryAfter(k, Flushed, xs))
  {
    if xs != [] {
      var p := xs[..|xs| - 1];
      var x := xs[|xs| - 1];
      TransparentRun(k, p);
      var h := HistoryAfter(k, Flushed, p);
      assert Raw(k, h, x) == x;
      RunStep(k, Flushed, xs, |xs| - 1);
      assert xs[..|xs|] == xs == p + [x];
    }
  }
}
