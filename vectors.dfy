/** Real-valued vectors: the rows of the numpy arrays that the training core works on. */
module Vectors {

  /** One row of a state, goal, subgoal or action array. */
  type Vec = seq<real>

  function Min(a: real, b: real): real { if a <= b then a else b }

  function Max(a: real, b: real): real { if a >= b then a else b }

  function Add(u: Vec, v: Vec): (w: Vec)
    requires |u| == |v|
    ensures |w| == |u|
    ensures forall i :: 0 <= i < |w| ==> w[i] == u[i] + v[i]
  {
    seq(|u|, i requires 0 <= i < |u| => u[i] + v[i])
  }

  function Sub(u: Vec, v: Vec): (w: Vec)
    requires |u| == |v|
    ensures |w| == |u|
    ensures forall i :: 0 <= i < |w| ==> w[i] == u[i] - v[i]
  {
    seq(|u|, i requires 0 <= i < |u| => u[i] - v[i])
  }

  function Zero(n: nat): (z: Vec)
    ensures |z| == n
    ensures forall i :: 0 <= i < n ==> z[i] == 0.0
  {
    seq(n, i => 0.0)
  }

  /** Left-to-right sum of a sequence of reals. */
  function Sum(s: seq<real>): real
  {
    if |s| == 0 then 0.0 else Sum(s[..|s| - 1]) + s[|s| - 1]
  }

  /** Mean of a non-empty sequence, as torch's `mean()`. */
  function Mean(s: seq<real>): real
    requires |s| > 0
  {
    Sum(s) / |s| as real
  }

  /** Smallest entry of a non-empty sequence. */
  function SeqMin(s: seq<real>): (m: real)
    requires |s| > 0
    ensures forall i :: 0 <= i < |s| ==> m <= s[i]
  {
    if |s| == 1 then s[0] else Min(SeqMin(s[..|s| - 1]), s[|s| - 1])
  }

  /** Largest entry of a non-empty sequence. */
  function SeqMax(s: seq<real>): (m: real)
    requires |s| > 0
    ensures forall i :: 0 <= i < |s| ==> s[i] <= m
  {
    if |s| == 1 then s[0] else Max(SeqMax(s[..|s| - 1]), s[|s| - 1])
  }

  /** A sum of `|s|` entries, each at least `lo`, is at least `|s| * lo`. */
  lemma {:induction false} SumAtLeast(s: seq<real>, lo: real)
    requires forall i :: 0 <= i < |s| ==> lo <= s[i]
    ensures |s| as real * lo <= Sum(s)
  {
    if |s| > 0 {
      SumAtLeast(s[..|s| - 1], lo);
      assert |s| as real * lo == (|s| - 1) as real * lo + lo;
    }
  }

  /** A sum of `|s|` entries, each at most `hi`, is at most `|s| * hi`. */
  lemma {:induction false} SumAtMost(s: seq<real>, hi: real)
    requires forall i :: 0 <= i < |s| ==> s[i] <= hi
    ensures Sum(s) <= |s| as real * hi
  {
    if |s| > 0 {
      SumAtMost(s[..|s| - 1], hi);
      assert |s| as real * hi == (|s| - 1) as real * hi + hi;
    }
  }

  /** A mean lies between the smallest and the largest entry. */
  lemma MeanBetween(s: seq<real>)
    requires |s| > 0
    ensures SeqMin(s) <= Mean(s) <= SeqMax(s)
  {
    var n := |s| as real;
    SumAtLeast(s, SeqMin(s));
    SumAtMost(s, SeqMax(s));
    QuotientBetween(Sum(s), n, SeqMin(s), SeqMax(s));
  }

  /** A quotient by a positive `n` of a value between `n * lo` and `n * hi` lies between `lo` and `hi`. */
  lemma QuotientBetween(x: real, n: real, lo: real, hi: real)
    requires n > 0.0 && n * lo <= x <= n * hi
    ensures lo <= x / n <= hi
  {
    var q := x / n;
    assert x == n * q;
    assert n * (q - lo) >= 0.0;
    assert n * (hi - q) >= 0.0;
    if q < lo {
      PositiveProduct(n, lo - q);
    }
    if q > hi {
      PositiveProduct(n, q - hi);
    }
  }

  /** `x` itself. Writing a square as `x * Same(x)` keeps it a product of two terms, which the
      solver's linear reasoning handles; a literal `x * x` is not related back to its factors. */
  function Same(x: real): real { x }

  function Square(x: real): real { x * Same(x) }

  lemma PositiveProduct(a: real, b: real)
    requires a > 0.0 && b > 0.0
    ensures a * b > 0.0
  {
  }

  /** A square is never negative, and it is positive away from zero. */
  lemma SquareSign(x: real)
    ensures Square(x) >= 0.0
    ensures x != 0.0 ==> Square(x) > 0.0
  {
    var y := Same(x);
    if x > 0.0 {
      PositiveProduct(x, y);
    } else if x < 0.0 {
      PositiveProduct(-x, -y);
      assert (-x) * (-y) == x * y;
    }
  }

  /** The squared Euclidean norm, `np.linalg.norm(v) ** 2` over the reals. */
  function SqNorm(v: Vec): real
  {
    if |v| == 0 then 0.0 else SqNorm(v[..|v| - 1]) + Square(v[|v| - 1])
  }

  /** A squared norm is never negative, and it vanishes exactly on the zero vector. */
  lemma {:induction false} SqNormZero(v: Vec)
    ensures SqNorm(v) >= 0.0
    ensures SqNorm(v) == 0.0 <==> v == Zero(|v|)
  {
    if |v| > 0 {
      var init, x := v[..|v| - 1], v[|v| - 1];
      SqNormZero(init);
      SquareSign(x);
      assert SqNorm(v) == SqNorm(init) + Square(x);
      if SqNorm(v) == 0.0 {
        assert x == 0.0 && init == Zero(|init|);
        forall i | 0 <= i < |v| ensures v[i] == 0.0 {
          if i < |init| {
            assert v[i] == init[i] == Zero(|init|)[i];
          }
        }
      }
      if v == Zero(|v|) {
        assert init == Zero(|init|);
      }
    }
  }

  /** Two vectors of the same length are equal exactly when their difference has norm zero. */
  lemma SqNormSubZero(u: Vec, v: Vec)
    requires |u| == |v|
    ensures SqNorm(Sub(u, v)) >= 0.0
    ensures SqNorm(Sub(u, v)) == 0.0 <==> u == v
  {
    SqNormZero(Sub(u, v));
    if Sub(u, v) == Zero(|u|) {
      assert forall i :: 0 <= i < |u| ==> u[i] == v[i] by {
        forall i | 0 <= i < |u| ensures u[i] == v[i] {
          assert Sub(u, v)[i] == 0.0;
        }
      }
    }
  }

  predicate NonNegative(v: Vec)
  {
    forall i :: 0 <= i < |v| ==> v[i] >= 0.0
  }

  /** Elementwise bounds `[-scale, scale]`. */
  predicate InBounds(v: Vec, scale: Vec)
    requires |v| == |scale|
  {
    forall i :: 0 <= i < |v| ==> -scale[i] <= v[i] <= scale[i]
  }
}
