/** Euclidean (L2) geometry of parameter vectors over exact reals.
    There is no square root on Dafny's `real`, so a norm is any value that
    is a non-negative square root of the sum of squares (`IsNorm`); such a
    value is unique (`NormUnique`). */
module L2 {

  /** Sum of the squares of the coordinates: the first square plus the sum of
      the rest. */
  function SumSq(v: seq<real>): (s: real)
    ensures s >= 0.0
  {
    if |v| == 0 then 0.0 else v[0] * v[0] + SumSq(v[1..])
  }

  /** `n` is the L2 norm of `v`: the non-negative square root of SumSq(v). */
  predicate IsNorm(v: seq<real>, n: real)
  {
    n >= 0.0 && n * n == SumSq(v)
  }

  /** Every coordinate multiplied by the same factor `c`. */
  function Scaled(v: seq<real>, c: real): (r: seq<real>)
    ensures |r| == |v|
    ensures forall i :: 0 <= i < |v| ==> r[i] == v[i] * c
  {
    seq(|v|, i requires 0 <= i < |v| => v[i] * c)
  }

  /** The vector of `n` zeros. */
  function Zeros(n: nat): (r: seq<real>)
    ensures |r| == n
    ensures forall i :: 0 <= i < n ==> r[i] == 0.0
  {
    seq(n, _ => 0.0)
  }

  /** Two non-negative reals with the same square are equal. */
  lemma SquareRootUnique(a: real, b: real)
    requires a >= 0.0 && b >= 0.0 && a * a == b * b
    ensures a == b
  {
    if a + b > 0.0 {
      assert (a - b) * (a + b) == 0.0;
      assert a - b == (a - b) * (a + b) / (a + b);
    }
  }

  lemma MulPositive(x: real, y: real)
    requires x > 0.0 && y > 0.0
    ensures x * y > 0.0
  {
  }

  lemma MulNonNegative(x: real, y: real)
    requires x >= 0.0 && y >= 0.0
    ensures x * y >= 0.0
  {
  }

  /** On non-negative reals, squaring preserves and reflects `<`. */
  lemma SquareLess(a: real, b: real)
    requires a >= 0.0 && b >= 0.0
    ensures a < b <==> a * a < b * b
  {
    var d := (b - a) * (b + a);
    assert d == b * b - a * a;
    if a < b {
      MulPositive(b - a, b + a);
    } else {
      MulNonNegative(a - b, b + a);
      assert (a - b) * (b + a) == -d;
    }
  }

  /** A vector has at most one norm. */
  lemma NormUnique(v: seq<real>, n1: real, n2: real)
    requires IsNorm(v, n1) && IsNorm(v, n2)
    ensures n1 == n2
  {
    SquareRootUnique(n1, n2);
  }

  /** With a non-negative bound `c`, the norm exceeds `c` exactly when the
      sum of squares exceeds `c * c`. */
  lemma NormExceedsIff(v: seq<real>, n: real, c: real)
    requires IsNorm(v, n) && c >= 0.0
    ensures n > c <==> SumSq(v) > c * c
  {
    SquareLess(c, n);
  }

  /** Scaling every coordinate by `c` scales the sum of squares by `c * c`. */
  lemma {:induction false} SumSqScaled(v: seq<real>, c: real)
    ensures SumSq(Scaled(v, c)) == c * c * SumSq(v)
  {
    if |v| > 0 {
      assert forall i :: 0 <= i < |v| - 1 ==> Scaled(v, c)[1..][i] == Scaled(v[1..], c)[i];
      assert Scaled(v, c)[1..] == Scaled(v[1..], c);
      SumSqScaled(v[1..], c);
      calc {
        SumSq(Scaled(v, c));
        (v[0] * c) * (v[0] * c) + SumSq(Scaled(v[1..], c));
        (v[0] * c) * (v[0] * c) + c * c * SumSq(v[1..]);
        c * c * (v[0] * v[0] + SumSq(v[1..]));
        c * c * SumSq(v);
      }
    }
  }

  /** Scaling by a non-negative factor scales the norm by that factor. */
  lemma NormScaled(v: seq<real>, n: real, c: real)
    requires IsNorm(v, n) && c >= 0.0
    ensures IsNorm(Scaled(v, c), c * n)
  {
    SumSqScaled(v, c);
    assert (c * n) * (c * n) == c * c * (n * n);
  }

  /** The zero vector has sum of squares 0, so its norm is 0. */
  lemma {:induction false} SumSqZeros(n: nat)
    ensures SumSq(Zeros(n)) == 0.0
    ensures IsNorm(Zeros(n), 0.0)
  {
    if n > 0 {
      assert Zeros(n)[1..] == Zeros(n - 1);
      SumSqZeros(n - 1);
    }
  }
}
