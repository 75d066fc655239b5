/**
 * The two user click models. Each turns the scores of a slate into one
 * chosen slot per batch element, where the slot `numSlots` (one past the
 * last real slot) is the no-click sentinel.
 */
module ClickModels {
  import opened LinearAlgebra
  import opened Scoring

  /** `k` is the first index at which `s` takes its largest value. */
  predicate IsFirstMax(s: seq<real>, k: nat)
  {
    k < |s| &&
    (forall i :: 0 <= i < |s| ==> s[i] <= s[k]) &&
    (forall i :: 0 <= i < k ==> s[i] < s[k])
  }

  /** Arg-max with first-index tie-breaking, as numpy's `argmax` along one row. */
  function ArgMax(s: seq<real>): (k: nat)
    requires |s| > 0
    ensures IsFirstMax(s, k)
    decreases |s|
  {
    if |s| == 1 then 0
    else
      var m := ArgMax(s[..|s| - 1]);
      if s[m] < s[|s| - 1] then |s| - 1 else m
  }

  /** Only one index can be the first maximal one. */
  lemma FirstMaxIsUnique(s: seq<real>, k: nat)
    requires IsFirstMax(s, k)
    ensures k == ArgMax(s)
  {
  }

  // ---------------------------------------------------------------- distance based

  /**
   * Distance-based choice for one batch element: the arg-max over the slate's
   * scores followed by a column holding the threshold. The result is a slot or
   * the sentinel `|scores|`; it is the sentinel exactly when every score is
   * strictly below the threshold, and otherwise it is the first slot of
   * maximal score, which is at least the threshold (so a score equal to the
   * threshold beats no-click).
   */
  function DistanceBasedChoice(scores: seq<real>, threshold: real): (k: nat)
    ensures k <= |scores|
    ensures k == |scores| <==> forall i :: 0 <= i < |scores| ==> scores[i] < threshold
    ensures k < |scores| ==> threshold <= scores[k] && IsFirstMax(scores, k)
  {
    var withThreshold := scores + [threshold];
    var k := ArgMax(withThreshold);
    assert forall i :: 0 <= i < |scores| ==> withThreshold[i] == scores[i];
    k
  }

  /** The distance-based click model over a batch of slates. */
  function ChooseItemsDistanceBased(globals: seq<Vector>, slates: seq<Matrix>, w: Matrix, threshold: real)
    : (chosen: seq<nat>)
    requires Scorable(globals, slates, w)
    ensures |chosen| == |globals|
    ensures forall b :: 0 <= b < |chosen| ==> chosen[b] <= |slates[b]|
    ensures forall b :: 0 <= b < |chosen| ==>
              (chosen[b] == |slates[b]| <==>
                 forall s :: 0 <= s < |slates[b]| ==> BilinearSum(slates[b][s], w, globals[b]) < threshold)
    ensures forall b :: 0 <= b < |chosen| && chosen[b] < |slates[b]| ==>
              threshold <= BilinearSum(slates[b][chosen[b]], w, globals[b]) &&
              IsFirstMax(ItemScores(globals[b], slates[b], w), chosen[b])
  {
    var scores := BatchedInnerProduct(globals, slates, w);
    seq(|globals|, b requires 0 <= b < |globals| => DistanceBasedChoice(scores[b], threshold))
  }

  /**
   * Under the 2 by 2 identity weights, against global `[1, 0]`, item `[1, 0]`
   * scores 1 and item `[0, 1]` scores 0.
   */
  lemma IdentityScores()
    ensures BilinearSum([1.0, 0.0], Identity(2), [1.0, 0.0]) == 1.0
    ensures BilinearSum([0.0, 1.0], Identity(2), [1.0, 0.0]) == 0.0
  {
    var w := Identity(2);
    var g := [1.0, 0.0];
    var h := [0.0, 1.0];
    assert w[0] == Unit(2, 0) == [1.0, 0.0];
    assert w[1] == Unit(2, 1) == [0.0, 1.0];
    assert g[1..][1..] == [] && h[1..][1..] == [] && w[1..][1..] == [];
    assert ScaledDot(1.0, w[0], g) == 1.0 by {
      assert ScaledDot(1.0, w[0][1..], g[1..]) == 0.0;
    }
    assert ScaledDot(0.0, w[1], g) == 0.0 by {
      assert ScaledDot(0.0, w[1][1..], g[1..]) == 0.0;
    }
    assert ScaledDot(0.0, w[0], g) == 0.0 by {
      assert ScaledDot(0.0, w[0][1..], g[1..]) == 0.0;
    }
    assert ScaledDot(1.0, w[1], g) == 0.0 by {
      assert ScaledDot(1.0, w[1][1..], g[1..]) == 0.0;
    }
    assert BilinearSum(g[1..], w[1..], g) == 0.0;
    assert BilinearSum(h[1..], w[1..], g) == 0.0;
  }

  /**
   * A worked case: global context `[1, 0]`, the identity as `W`, and a slate
   * of the items `[1, 0]` and `[0, 1]`, which score 1 and 0. With threshold
   * 0.5 the first item is clicked; with threshold 2 nothing is.
   */
  lemma DistanceBasedExample()
    ensures ChooseItemsDistanceBased([[1.0, 0.0]], [[[1.0, 0.0], [0.0, 1.0]]], Identity(2), 0.5) == [0]
    ensures ChooseItemsDistanceBased([[1.0, 0.0]], [[[1.0, 0.0], [0.0, 1.0]]], Identity(2), 2.0) == [2]
  {
    var w := Identity(2);
    var g := [1.0, 0.0];
    var slate := [[1.0, 0.0], [0.0, 1.0]];
    IdentityScores();
    var low := ChooseItemsDistanceBased([g], [slate], w, 0.5);
    assert ItemScores(g, slate, w) == [1.0, 0.0];
    assert low[0] == 0;
  }

  // ---------------------------------------------------------------- ghost actions

  /**
   * A slate followed by the `d` unit items: `numSlots + d` rows, the slate's
   * rows unchanged and then `e_0, ..., e_{d-1}`.
   */
  function WithUnitItems(slate: Matrix, d: nat): (rows: Matrix)
    ensures |rows| == |slate| + d
    ensures rows[..|slate|] == slate
    ensures forall j :: 0 <= j < d ==> rows[|slate| + j] == Unit(d, j)
  {
    slate + Identity(d)
  }

  /** Every slate of the batch extended with the `d` ghost items. */
  function AugmentWithUnits(slates: seq<Matrix>, d: nat): (augmented: seq<Matrix>)
    ensures |augmented| == |slates|
    ensures forall b :: 0 <= b < |slates| ==>
              |augmented[b]| == |slates[b]| + d &&
              augmented[b][..|slates[b]|] == slates[b] &&
              forall j :: 0 <= j < d ==> augmented[b][|slates[b]| + j] == Unit(d, j)
  {
    seq(|slates|, b requires 0 <= b < |slates| => WithUnitItems(slates[b], d))
  }

  /**
   * Scores of the augmented slates: the slate's own scores first, then for
   * ghost item `j` the score of `e_j`, which is row `j` of `W` applied to the
   * global vector.
   */
  function GhostScores(globals: seq<Vector>, slates: seq<Matrix>, w: Matrix, d: nat, g: nat): (scores: seq<seq<real>>)
    requires IsMatrix(w, d, g) && IsMatrix(globals, |slates|, g)
    requires forall b :: 0 <= b < |slates| ==> forall s :: 0 <= s < |slates[b]| ==> |slates[b][s]| == d
    ensures |scores| == |globals|
    ensures forall b :: 0 <= b < |scores| ==> |scores[b]| == |slates[b]| + d
    ensures forall b, s :: 0 <= b < |scores| && 0 <= s < |slates[b]| ==>
              scores[b][s] == BilinearSum(slates[b][s], w, globals[b])
    ensures forall b, j :: 0 <= b < |scores| && 0 <= j < d ==>
              scores[b][|slates[b]| + j] == Dot(w[j], globals[b])
  {
    var augmented := AugmentWithUnits(slates, d);
    assert Scorable(globals, augmented, w) by {
      forall b, n | 0 <= b < |augmented| && 0 <= n < |augmented[b]|
        ensures IsMatrix(w, |augmented[b][n]|, |globals[b]|)
      {
        if n < |slates[b]| {
          assert augmented[b][n] == augmented[b][..|slates[b]|][n];
        } else {
          assert augmented[b][n] == Unit(d, n - |slates[b]|);
        }
      }
    }
    var scores := BatchedInnerProduct(globals, augmented, w);
    assert forall b, s :: 0 <= b < |scores| && 0 <= s < |slates[b]| ==>
      augmented[b][s] == augmented[b][..|slates[b]|][s];
    forall b, j | 0 <= b < |scores| && 0 <= j < d
      ensures scores[b][|slates[b]| + j] == Dot(w[j], globals[b])
    {
      UnitItemScore(d, j, w, globals[b]);
    }
    scores
  }

  /**
   * The clip applied to a sampled outcome: `min(outcome, numSlots)`. Real
   * slots pass through; every outcome at or past `numSlots` (a ghost item)
   * becomes the no-click sentinel.
   */
  function ClipToSentinel(outcome: nat, numSlots: nat): (k: nat)
    ensures k <= numSlots
    ensures k == numSlots <==> outcome >= numSlots
    ensures k < numSlots ==> k == outcome
  {
    if outcome < numSlots then outcome else numSlots
  }

  /** The clip applied to every batch element's outcome. */
  function ClipAll(outcomes: seq<nat>, numSlots: nat): (chosen: seq<nat>)
    ensures |chosen| == |outcomes|
    ensures forall b :: 0 <= b < |outcomes| ==>
              chosen[b] <= numSlots &&
              (chosen[b] == numSlots <==> outcomes[b] >= numSlots) &&
              (chosen[b] < numSlots ==> chosen[b] == outcomes[b])
  {
    seq(|outcomes|, b requires 0 <= b < |outcomes| => ClipToSentinel(outcomes[b], numSlots))
  }

  /** Every ghost outcome `numSlots + j`, for `j < d`, is clipped to the sentinel. */
  lemma GhostOutcomeIsNoClick(numSlots: nat, d: nat, j: nat)
    requires j < d
    ensures ClipToSentinel(numSlots + j, numSlots) == numSlots
  {
  }

  /**
   * The ghost-actions click model over a batch of slates. `draw(b, scores)`
   * stands for what the model leaves out: the Gaussian perturbation, the
   * logistic transform, the L1 normalisation and the categorical sample that
   * turn batch element `b`'s augmented scores into an outcome. The result is
   * that outcome clipped to the sentinel.
   */
  function ChooseItemsGhostActions(globals: seq<Vector>, slates: seq<Matrix>, w: Matrix, numSlots: nat, d: nat,
                                   g: nat, draw: (nat, seq<real>) -> nat): (chosen: seq<nat>)
    requires IsMatrix(w, d, g) && IsMatrix(globals, |slates|, g)
    requires forall b :: 0 <= b < |slates| ==> forall s :: 0 <= s < |slates[b]| ==> |slates[b][s]| == d
    ensures |chosen| == |globals|
    ensures forall b :: 0 <= b < |chosen| ==> chosen[b] <= numSlots
    ensures forall b :: 0 <= b < |chosen| ==>
              var outcome := draw(b, GhostScores(globals, slates, w, d, g)[b]);
              (chosen[b] == numSlots <==> outcome >= numSlots) &&
              (chosen[b] < numSlots ==> chosen[b] == outcome)
  {
    var scores := GhostScores(globals, slates, w, d, g);
    var outcomes := seq(|globals|, b requires 0 <= b < |globals| => draw(b, scores[b]));
    ClipAll(outcomes, numSlots)
  }
}
