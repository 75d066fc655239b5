/**
 * The score engine: the bilinear score `item · W · global` of every item of
 * every batch element, computed as the environment's batched inner product
 * does (first `item · W`, then the inner product with the global vector).
 */
module Scoring {
  import opened LinearAlgebra

  /**
   * The score of one item. Computed in the product order of the source, and
   * proved equal to the double sum over `i, j` of `item[i] * W[i][j] * global[j]`.
   */
  function ItemScore(item: Vector, w: Matrix, global: Vector): (s: real)
    requires IsMatrix(w, |item|, |global|)
    ensures s == BilinearSum(item, w, global)
  {
    VecMatIsBilinear(item, w, global);
    Dot(VecMat(item, w, |global|), global)
  }

  /** Every item of every batch element can be scored: `W` is `[item_dim, global_dim]`. */
  predicate Scorable(globals: seq<Vector>, itemSets: seq<Matrix>, w: Matrix)
  {
    |itemSets| == |globals| &&
    forall b :: 0 <= b < |itemSets| ==>
      forall n :: 0 <= n < |itemSets[b]| ==> IsMatrix(w, |itemSets[b][n]|, |globals[b]|)
  }

  /** The scores of one batch element's items against its global vector. */
  function ItemScores(global: Vector, items: Matrix, w: Matrix): (s: seq<real>)
    requires forall n :: 0 <= n < |items| ==> IsMatrix(w, |items[n]|, |global|)
    ensures |s| == |items|
    ensures forall n :: 0 <= n < |items| ==> s[n] == BilinearSum(items[n], w, global)
  {
    seq(|items|, n requires 0 <= n < |items| => ItemScore(items[n], w, global))
  }

  /**
   * The batched inner product: one score per item, for every batch element,
   * each the bilinear form of that item with that element's global vector.
   */
  function BatchedInnerProduct(globals: seq<Vector>, itemSets: seq<Matrix>, w: Matrix): (s: seq<seq<real>>)
    requires Scorable(globals, itemSets, w)
    ensures |s| == |globals|
    ensures forall b :: 0 <= b < |s| ==> |s[b]| == |itemSets[b]|
    ensures forall b, n :: 0 <= b < |s| && 0 <= n < |s[b]| ==>
              s[b][n] == BilinearSum(itemSets[b][n], w, globals[b])
  {
    seq(|globals|, b requires 0 <= b < |globals| => ItemScores(globals[b], itemSets[b], w))
  }

  /**
   * The score of the unit item `e_j` is row `j` of `W` applied to the global
   * vector: what a ghost item scores.
   */
  lemma UnitItemScore(d: nat, j: nat, w: Matrix, global: Vector)
    requires IsMatrix(w, d, |global|) && j < d
    ensures ItemScore(Unit(d, j), w, global) == Dot(w[j], global)
  {
    UnitTimesMatrix(d, j, w, |global|);
  }
}
