/** Lagrange polynomial interpolation through the first n nodes
    (`lagrpol`, compressor/compressor.go), which the compressor's soft knee
    evaluates with two nodes. */
module Lagrange {
  import opened Numerics
  import DelayLine

  /** No two of the first n nodes coincide, so no basis factor divides by 0. */
  predicate Distinct(x: seq<real>, n: int)
  {
    n <= |x| && forall a, b :: 0 <= a < n && 0 <= b < n && a != b ==> x[a] != x[b]
  }

  /** The factor node j contributes to basis polynomial i at xbar. */
  function Factor(x: seq<real>, i: nat, j: nat, xbar: real): real
    requires i < |x| && j < |x| && x[i] != x[j]
  {
    (xbar - x[j]) / (x[i] - x[j])
  }

  /** The running product l after the inner loop has visited nodes 0 .. j-1:
      every factor except node i's own. */
  function Basis(x: seq<real>, n: nat, i: nat, j: nat, xbar: real): real
    requires Distinct(x, n) && i < n && j <= n
    decreases j
  {
    if j == 0 then 1.0
    else if j - 1 == i then Basis(x, n, i, j - 1, xbar)
    else Basis(x, n, i, j - 1, xbar) * Factor(x, i, j - 1, xbar)
  }

  /** fx after the outer loop has visited nodes 0 .. m-1. */
  function Sum(x: seq<real>, y: seq<real>, n: nat, m: nat, xbar: real): real
    requires Distinct(x, n) && n <= |y| && m <= n
    decreases m
  {
    if m == 0 then 0.0
    else Sum(x, y, n, m - 1, xbar) + Basis(x, n, m - 1, n, xbar) * y[m - 1]
  }

  /** The interpolating polynomial through the first n nodes, evaluated at xbar;
      0 when n is not positive. */
  function Interpolate(x: seq<real>, y: seq<real>, n: int, xbar: real): (r: real)
    requires Distinct(x, n) && n <= |y|
    ensures n == 1 ==> r == y[0]
  {
    if n <= 0 then 0.0 else Sum(x, y, n, n, xbar)
  }

  /** The nested loops of the source: fx accumulates l*y[i], l the product of
      the factors of every node j other than i. */
  method Lagrpol(x: seq<real>, y: seq<real>, n: int, xbar: real) returns (fx: real)
    requires n <= |x| && n <= |y|
    requires Distinct(x, n)
    ensures fx == Interpolate(x, y, n, xbar)
  {
    fx := 0.0;
    var l := 1.0;
    var i := 0;
    while i < n
      invariant 0 <= i && (0 <= n ==> i <= n)
      invariant fx == if n <= 0 then 0.0 else Sum(x, y, n, i, xbar)
    {
      l := 1.0;
      var j := 0;
      while j < n
        invariant 0 <= j <= n
        invariant l == Basis(x, n, i, j, xbar)
      {
        if j != i {
          l := l * Factor(x, i, j, xbar);
        }
        j := j + 1;
      }
      fx := fx + l * y[i];
      i := i + 1;
    }
  }

  /** Basis polynomial i is 1 at its own node. */
  lemma {:induction false} BasisAtOwnNode(x: seq<real>, n: nat, i: nat, j: nat)
    requires Distinct(x, n) && i < n && j <= n
    ensures Basis(x, n, i, j, x[i]) == 1.0
  {
    if j > 0 {
      BasisAtOwnNode(x, n, i, j - 1);
      if j - 1 != i {
        DivSelf(x[i] - x[j - 1]);
      }
    }
  }

  /** Basis polynomial i is 0 at every other node k, once the inner loop has passed k. */
  lemma {:induction false} BasisAtOtherNode(x: seq<real>, n: nat, i: nat, j: nat, k: nat)
    requires Distinct(x, n) && i < n && j <= n && k < j && k != i
    ensures Basis(x, n, i, j, x[k]) == 0.0
  {
    if j - 1 == k {
      assert Factor(x, i, k, x[k]) == 0.0;
    } else {
      BasisAtOtherNode(x, n, i, j - 1, k);
    }
  }

  /** At node k the partial sum over the first m basis terms is y[k] when k < m, else 0. */
  lemma {:induction false} SumAtNode(x: seq<real>, y: seq<real>, n: nat, m: nat, k: nat)
    requires Distinct(x, n) && n <= |y| && m <= n && k < n
    ensures Sum(x, y, n, m, x[k]) == if k < m then y[k] else 0.0
  {
    if m > 0 {
      SumAtNode(x, y, n, m - 1, k);
      if m - 1 == k {
        BasisAtOwnNode(x, n, k, n);
      } else {
        BasisAtOtherNode(x, n, m - 1, n, k);
      }
    }
  }

  /** The interpolant passes through every one of its nodes. */
  lemma ReproducesNodes(x: seq<real>, y: seq<real>, n: int, k: nat)
    requires Distinct(x, n) && n <= |y| && k < n
    ensures Interpolate(x, y, n, x[k]) == y[k]
  {
    SumAtNode(x, y, n, n, k);
  }

  /** Through two nodes the interpolant is the straight line the delay line's
      DLinTerp draws between them. */
  lemma TwoPointIsLine(x: seq<real>, y: seq<real>, xbar: real)
    requires Distinct(x, 2) && 2 <= |y|
    ensures Interpolate(x, y, 2, xbar) == DelayLine.DLinTerp(x[0], x[1], y[0], y[1], xbar)
  {
    var f0 := Factor(x, 0, 1, xbar);
    var f1 := Factor(x, 1, 0, xbar);
    assert Basis(x, 2, 0, 2, xbar) == f0;
    assert Basis(x, 2, 1, 2, xbar) == f1;
    var dx := (xbar - x[0]) / (x[1] - x[0]);
    assert f1 == dx;
    assert f0 == 1.0 - dx by {
      var w := x[1] - x[0];
      assert x[0] - x[1] == -w;
      DivNeg(xbar - x[1], w);
      DivAdd(x[1] - xbar, xbar - x[0], w);
      DivSelf(w);
    }
  }
}
