/**
 * Real vectors and matrices, the two matrix products that the score
 * computation performs, and the double sum that defines a bilinear form.
 * All arithmetic is exact (`real`), not floating point.
 */
module LinearAlgebra {

  type Vector = seq<real>

  /** A matrix is a sequence of rows. */
  type Matrix = seq<Vector>

  predicate IsMatrix(m: Matrix, rows: nat, cols: nat)
  {
    |m| == rows && forall i :: 0 <= i < rows ==> |m[i]| == cols
  }

  /** The inner product of two vectors of the same length. */
  function Dot(u: Vector, v: Vector): real
    requires |u| == |v|
    decreases |u|
  {
    if |u| == 0 then 0.0 else u[0] * v[0] + Dot(u[1..], v[1..])
  }

  function Column(m: Matrix, j: nat): Vector
    requires forall i :: 0 <= i < |m| ==> j < |m[i]|
  {
    seq(|m|, i requires 0 <= i < |m| => m[i][j])
  }

  /**
   * Row vector times matrix, entry by entry: entry `j` is the inner product
   * of `x` with column `j` of `m` (what a matrix product computes).
   */
  function VecMat(x: Vector, m: Matrix, cols: nat): Vector
    requires IsMatrix(m, |x|, cols)
  {
    seq(cols, j requires 0 <= j < cols => Dot(x, Column(m, j)))
  }

  /** The sum over `j` of `c * row[j] * v[j]`. */
  function ScaledDot(c: real, row: Vector, v: Vector): real
    requires |row| == |v|
    decreases |row|
  {
    if |row| == 0 then 0.0 else c * row[0] * v[0] + ScaledDot(c, row[1..], v[1..])
  }

  /**
   * The bilinear form `x · m · v` written as the double sum over `i` and `j`
   * of `x[i] * m[i][j] * v[j]`: the reference definition of an item's score.
   */
  function BilinearSum(x: Vector, m: Matrix, v: Vector): real
    requires IsMatrix(m, |x|, |v|)
    decreases |x|
  {
    if |x| == 0 then 0.0 else ScaledDot(x[0], m[0], v) + BilinearSum(x[1..], m[1..], v)
  }

  /** The unit vector `e_j` of dimension `d`. */
  function Unit(d: nat, j: nat): (e: Vector)
    ensures |e| == d
  {
    seq(d, i => if i == j then 1.0 else 0.0)
  }

  /** The `d` by `d` identity matrix; row `j` is `e_j`. */
  function Identity(d: nat): (m: Matrix)
    ensures IsMatrix(m, d, d)
  {
    seq(d, j requires 0 <= j < d => Unit(d, j))
  }

  lemma {:induction false} DotOfZeros(z: Vector, v: Vector)
    requires |z| == |v|
    requires forall k :: 0 <= k < |z| ==> z[k] == 0.0
    ensures Dot(z, v) == 0.0
  {
    if |z| > 0 {
      DotOfZeros(z[1..], v[1..]);
    }
  }

  /** The inner product is linear in its first argument: sums. */
  lemma {:induction false} DotOfSum(a: Vector, b: Vector, c: Vector, v: Vector)
    requires |a| == |b| == |c| == |v|
    requires forall k :: 0 <= k < |c| ==> c[k] == a[k] + b[k]
    ensures Dot(c, v) == Dot(a, v) + Dot(b, v)
  {
    if |c| > 0 {
      DotOfSum(a[1..], b[1..], c[1..], v[1..]);
    }
  }

  /** The inner product is linear in its first argument: scaling. */
  lemma {:induction false} DotOfScaled(c: real, row: Vector, a: Vector, v: Vector)
    requires |a| == |row| == |v|
    requires forall k :: 0 <= k < |a| ==> a[k] == c * row[k]
    ensures Dot(a, v) == ScaledDot(c, row, v)
  {
    if |a| > 0 {
      DotOfScaled(c, row[1..], a[1..], v[1..]);
    }
  }

  /**
   * Multiplying `x` into `m` first and then taking the inner product with `v`
   * gives the double sum: the two orders of summation agree.
   */
  lemma {:induction false} VecMatIsBilinear(x: Vector, m: Matrix, v: Vector)
    requires IsMatrix(m, |x|, |v|)
    ensures Dot(VecMat(x, m, |v|), v) == BilinearSum(x, m, v)
    decreases |x|
  {
    var r := VecMat(x, m, |v|);
    if |x| == 0 {
      DotOfZeros(r, v);
    } else {
      var head := seq(|v|, j requires 0 <= j < |v| => x[0] * m[0][j]);
      var tail := VecMat(x[1..], m[1..], |v|);
      forall j | 0 <= j < |v|
        ensures r[j] == head[j] + tail[j]
      {
        assert Column(m, j)[1..] == Column(m[1..], j);
      }
      DotOfSum(head, tail, r, v);
      DotOfScaled(x[0], m[0], head, v);
      VecMatIsBilinear(x[1..], m[1..], v);
    }
  }

  /** The inner product with a vector that is 1 at `j` and 0 elsewhere picks entry `j`. */
  lemma {:induction false} DotWithUnit(e: Vector, v: Vector, j: nat)
    requires |e| == |v| && j < |e|
    requires forall k :: 0 <= k < |e| ==> e[k] == if k == j then 1.0 else 0.0
    ensures Dot(e, v) == v[j]
    decreases j
  {
    if j == 0 {
      DotOfZeros(e[1..], v[1..]);
    } else {
      DotWithUnit(e[1..], v[1..], j - 1);
    }
  }

  /** `e_j` times a matrix is the matrix's row `j`. */
  lemma UnitTimesMatrix(d: nat, j: nat, m: Matrix, cols: nat)
    requires IsMatrix(m, d, cols) && j < d
    ensures VecMat(Unit(d, j), m, cols) == m[j]
  {
    var r := VecMat(Unit(d, j), m, cols);
    forall k | 0 <= k < cols
      ensures r[k] == m[j][k]
    {
      DotWithUnit(Unit(d, j), Column(m, k), j);
    }
  }
}
