/**
 * The ranking bandit environment: its configuration checks, the round
 * observation it caches, and the application of a slate action, which
 * gathers the slate's items, runs the configured click model and encodes
 * the choice as cascading feedback.
 */
module RankingEnvironment {
  import opened Wrappers
  import opened LinearAlgebra
  import opened Scoring
  import opened ClickModels
  import opened Feedback

  // Feedback model code.
  const CascadingFeedback: int := 1

  // Click model codes.
  const GhostActions: int := 1
  const DistanceBased: int := 2

  /** Why construction fails. */
  datatype InitError =
    | MissingDistanceThreshold
    | FeedbackModelNotImplemented(feedbackModel: int)

  /** Why building a round's observation fails. */
  datatype ObserveError =
    | EmptyBatch       // stacking zero global vectors
    | EmptyItemPool    // reshaping to `(batchSize, 0, -1)`

  /** Why applying an action fails. */
  datatype RoundError =
    | BatchSizeMismatch(actions: nat, batchSize: nat)
    | NoObservation
    | ClickModelNotImplemented(clickModel: int)

  /**
   * The configuration checks made at construction, in the order they are
   * made: the distance-based click model needs a threshold, and cascading is
   * the only feedback model. An unknown click model passes here and is
   * reported when an action is applied.
   */
  function CheckConfig(feedbackModel: int, clickModel: int, threshold: Option<real>): (e: Option<InitError>)
    ensures e.None? <==> feedbackModel == CascadingFeedback && (clickModel == DistanceBased ==> threshold.Some?)
    ensures e == Some(MissingDistanceThreshold) <==> clickModel == DistanceBased && threshold.None?
    ensures e.Some? && e.value.FeedbackModelNotImplemented? ==>
              e.value.feedbackModel == feedbackModel && feedbackModel != CascadingFeedback
  {
    if clickModel == DistanceBased && threshold.None? then Some(MissingDistanceThreshold)
    else if feedbackModel != CascadingFeedback then Some(FeedbackModelNotImplemented(feedbackModel))
    else None
  }

  /** One round's observation: a global vector and an item pool per batch element. */
  datatype Observation = Observation(globalObs: seq<Vector>, itemObs: seq<Matrix>)

  /**
   * Where item `n` of batch element `b` sits in the flat sequence of
   * `batchSize * numItems` item draws, reshaped row by row.
   */
  function FlatIndex(b: nat, n: nat, batchSize: nat, numItems: nat): (k: nat)
    requires b < batchSize && n < numItems
    ensures k < batchSize * numItems
  {
    RowInBounds(b, batchSize, numItems);
    b * numItems + n
  }

  /** Row `b` of a row-major `[batchSize, numItems]` grid ends inside the grid. */
  lemma RowInBounds(b: nat, batchSize: nat, numItems: nat)
    requires b < batchSize
    ensures b * numItems + numItems <= batchSize * numItems
  {
    var rest := batchSize - (b + 1);
    assert batchSize * numItems == b * numItems + numItems + rest * numItems;
  }

  /** The batch index column, broadcast to the shape of the action. */
  function BroadcastBatchIndex(action: seq<seq<int>>): (rows: seq<seq<nat>>)
  {
    seq(|action|, b requires 0 <= b < |action| => seq(|action[b]|, s => b as nat))
  }

  /** Indexing a batch of item pools with two index arrays of the same shape. */
  function IndexPairs(pool: seq<Matrix>, rows: seq<seq<nat>>, cols: seq<seq<int>>): seq<Matrix>
    requires |rows| == |cols|
    requires forall b :: 0 <= b < |rows| ==>
               |rows[b]| == |cols[b]| &&
               forall s :: 0 <= s < |rows[b]| ==> rows[b][s] < |pool| && 0 <= cols[b][s] < |pool[rows[b][s]]|
  {
    seq(|rows|, b requires 0 <= b < |rows| =>
      seq(|rows[b]|, s requires 0 <= s < |rows[b]| => pool[rows[b][s]][cols[b][s]]))
  }

  /**
   * The slate of every batch element: pairing the broadcast batch index with
   * the action picks, in slot `s` of element `b`, item `action[b][s]` of `b`'s
   * own item pool.
   */
  function Gather(itemObs: seq<Matrix>, action: seq<seq<int>>): (slotted: seq<Matrix>)
    requires |action| == |itemObs|
    requires forall b :: 0 <= b < |action| ==>
               forall s :: 0 <= s < |action[b]| ==> 0 <= action[b][s] < |itemObs[b]|
    ensures |slotted| == |action|
    ensures forall b :: 0 <= b < |action| ==> |slotted[b]| == |action[b]|
    ensures forall b, s :: 0 <= b < |action| && 0 <= s < |action[b]| ==>
              slotted[b][s] == itemObs[b][action[b][s]]
  {
    IndexPairs(itemObs, BroadcastBatchIndex(action), action)
  }

  /**
   * Every row of an action has the shape and bounds the action bounds
   * declare: `numSlots` item indices, each in `[0, numItems - 1]`.
   */
  predicate ActionFits(action: seq<seq<int>>, numSlots: nat, numItems: nat)
  {
    forall b :: 0 <= b < |action| ==>
      |action[b]| == numSlots && forall s :: 0 <= s < |action[b]| ==> 0 <= action[b][s] < numItems
  }

  class RankingPyEnvironment {
    const numItems: nat
    const numSlots: nat
    /** The `[item_dim, global_dim]` matrix of the bilinear score. */
    const scoresWeightMatrix: Matrix
    const feedbackModel: int
    const clickModel: int
    const distanceThreshold: Option<real>
    const batchSize: nat
    const globalDim: nat
    const itemDim: nat

    /** The current round's observation; none before the first round. */
    var observation: Option<Observation>

    /** An observation has the shapes the observation bounds declare. */
    predicate Fits(obs: Observation)
    {
      IsMatrix(obs.globalObs, batchSize, globalDim) &&
      |obs.itemObs| == batchSize &&
      forall b :: 0 <= b < batchSize ==> IsMatrix(obs.itemObs[b], numItems, itemDim)
    }

    ghost predicate Valid()
      reads this
    {
      IsMatrix(scoresWeightMatrix, itemDim, globalDim) &&
      CheckConfig(feedbackModel, clickModel, distanceThreshold).None? &&
      (observation.Some? ==> Fits(observation.value))
    }

    /**
     * Builds an environment whose configuration has passed `CheckConfig`.
     * The dimensions are those of one global and one item sample.
     */
    constructor (globalSample: Vector, itemSample: Vector, numItems: nat, numSlots: nat,
                 scoresWeightMatrix: Matrix, feedbackModel: int, clickModel: int,
                 distanceThreshold: Option<real>, batchSize: nat)
      requires IsMatrix(scoresWeightMatrix, |itemSample|, |globalSample|)
      requires CheckConfig(feedbackModel, clickModel, distanceThreshold).None?
      ensures Valid() && observation.None?
      ensures this.numItems == numItems && this.numSlots == numSlots && this.batchSize == batchSize
      ensures this.scoresWeightMatrix == scoresWeightMatrix
      ensures this.feedbackModel == feedbackModel && this.clickModel == clickModel
      ensures this.distanceThreshold == distanceThreshold
      ensures globalDim == |globalSample| && itemDim == |itemSample|
    {
      this.numItems := numItems;
      this.numSlots := numSlots;
      this.scoresWeightMatrix := scoresWeightMatrix;
      this.feedbackModel := feedbackModel;
      this.batchSize := batchSize;
      this.clickModel := clickModel;
      this.distanceThreshold := distanceThreshold;
      globalDim := |globalSample|;
      itemDim := |itemSample|;
      observation := None;
    }

    /**
     * Construction with its failure cases: it fails exactly when
     * `CheckConfig` reports an error, and then with that error.
     */
    static method Create(globalSample: Vector, itemSample: Vector, numItems: nat, numSlots: nat,
                         scoresWeightMatrix: Matrix, feedbackModel: int, clickModel: int,
                         distanceThreshold: Option<real>, batchSize: nat)
      returns (r: Result<RankingPyEnvironment, InitError>)
      requires IsMatrix(scoresWeightMatrix, |itemSample|, |globalSample|)
      ensures r.Err? <==> CheckConfig(feedbackModel, clickModel, distanceThreshold).Some?
      ensures r.Err? ==> Some(r.error) == CheckConfig(feedbackModel, clickModel, distanceThreshold)
      ensures r.Ok? ==> fresh(r.value) && r.value.Valid() && r.value.observation.None?
      ensures r.Ok? ==> r.value.numItems == numItems && r.value.numSlots == numSlots &&
                        r.value.batchSize == batchSize && r.value.clickModel == clickModel &&
                        r.value.feedbackModel == feedbackModel &&
                        r.value.globalDim == |globalSample| && r.value.itemDim == |itemSample| &&
                        r.value.distanceThreshold == distanceThreshold &&
                        r.value.scoresWeightMatrix == scoresWeightMatrix
    {
      var e := CheckConfig(feedbackModel, clickModel, distanceThreshold);
      if e.Some? {
        return Err(e.value);
      }
      var env := new RankingPyEnvironment(globalSample, itemSample, numItems, numSlots,
                                          scoresWeightMatrix, feedbackModel, clickModel,
                                          distanceThreshold, batchSize);
      r := Ok(env);
    }

    /**
     * Starts a round: stores the given global draws (one per batch element)
     * and the item draws (`numItems` per batch element, in order) reshaped
     * into one item pool per batch element. Stacking no global vectors fails,
     * and so does the reshape when there are no items; the stored
     * observation is then left as it was.
     */
    method Observe(globalDraws: seq<Vector>, itemDraws: seq<Vector>) returns (r: Result<Observation, ObserveError>)
      requires Valid()
      requires IsMatrix(globalDraws, batchSize, globalDim)
      requires IsMatrix(itemDraws, batchSize * numItems, itemDim)
      modifies this
      ensures Valid()
      ensures batchSize == 0 ==> r == Err(EmptyBatch)
      ensures batchSize > 0 && numItems == 0 ==> r == Err(EmptyItemPool)
      ensures r.Err? ==> observation == old(observation)
      ensures r.Ok? <==> batchSize > 0 && numItems > 0
      ensures r.Ok? ==> observation == Some(r.value) && r.value.globalObs == globalDraws
      ensures r.Ok? ==> |r.value.itemObs| == batchSize
      ensures r.Ok? ==> forall b :: 0 <= b < batchSize ==> |r.value.itemObs[b]| == numItems
      ensures r.Ok? ==> forall b, n :: 0 <= b < batchSize && 0 <= n < numItems ==>
                r.value.itemObs[b][n] == itemDraws[FlatIndex(b, n, batchSize, numItems)]
    {
      if batchSize == 0 {
        return Err(EmptyBatch);
      }
      if numItems == 0 {
        return Err(EmptyItemPool);
      }
      var pool: seq<Matrix> := [];
      var b := 0;
      while b < batchSize
        invariant 0 <= b <= batchSize
        invariant |pool| == b
        invariant forall c :: 0 <= c < b ==> IsMatrix(pool[c], numItems, itemDim)
        invariant forall c, n :: 0 <= c < b && 0 <= n < numItems ==>
                    pool[c][n] == itemDraws[FlatIndex(c, n, batchSize, numItems)]
      {
        RowInBounds(b, batchSize, numItems);
        var row := itemDraws[b * numItems .. b * numItems + numItems];
        assert forall n :: 0 <= n < numItems ==> row[n] == itemDraws[FlatIndex(b, n, batchSize, numItems)];
        pool := pool + [row];
        b := b + 1;
      }
      var obs := Observation(globalDraws, pool);
      observation := Some(obs);
      r := Ok(obs);
    }

    /** The scores of every slot of every batch element's slate. */
    function SlateScores(obs: Observation, action: seq<seq<int>>): (scores: seq<seq<real>>)
      requires IsMatrix(scoresWeightMatrix, itemDim, globalDim) && Fits(obs)
      requires |action| == batchSize && ActionFits(action, numSlots, numItems)
      ensures |scores| == batchSize
      ensures forall b :: 0 <= b < batchSize ==> |scores[b]| == numSlots
      ensures forall b, s :: 0 <= b < batchSize && 0 <= s < numSlots ==>
                scores[b][s] == BilinearSum(obs.itemObs[b][action[b][s]], scoresWeightMatrix, obs.globalObs[b])
    {
      BatchedInnerProduct(obs.globalObs, Gather(obs.itemObs, action), scoresWeightMatrix)
    }

    /**
     * Applies a slate action to the current round. Fails when the action's
     * batch dimension is not `batchSize`, when no round has been observed, or
     * when the click model is unknown; otherwise returns, per batch element,
     * cascading feedback within the reward bounds whose index is the click
     * model's choice. The observation is left as it is (no `modifies`).
     */
    method ApplyAction(action: seq<seq<int>>, draw: (nat, seq<real>) -> nat)
      returns (r: Result<seq<Cascading>, RoundError>)
      requires Valid()
      requires ActionFits(action, numSlots, numItems)
      ensures r.Err? <==> |action| != batchSize || observation.None? ||
                          (clickModel != GhostActions && clickModel != DistanceBased)
      ensures |action| != batchSize ==> r == Err(BatchSizeMismatch(|action|, batchSize))
      ensures |action| == batchSize && observation.None? ==> r == Err(NoObservation)
      ensures r.Err? && |action| == batchSize && observation.Some? ==> r == Err(ClickModelNotImplemented(clickModel))
      ensures r.Ok? ==> |r.value| == batchSize
      ensures r.Ok? ==> forall b :: 0 <= b < batchSize ==>
                WithinRewardBounds(r.value[b], numSlots) && ReportsClick(r.value[b], numSlots)
      ensures r.Ok? && clickModel == DistanceBased ==> forall b :: 0 <= b < batchSize ==>
                var scores := SlateScores(observation.value, action)[b];
                var k := r.value[b].chosenIndex;
                (k == numSlots <==> forall s :: 0 <= s < numSlots ==> scores[s] < distanceThreshold.value) &&
                (0 <= k < numSlots ==> distanceThreshold.value <= scores[k] && IsFirstMax(scores, k))
      ensures r.Ok? && clickModel == GhostActions ==> forall b :: 0 <= b < batchSize ==>
                var scores := GhostScores(observation.value.globalObs, Gather(observation.value.itemObs, action),
                                          scoresWeightMatrix, itemDim, globalDim)[b];
                r.value[b].chosenIndex == ClipToSentinel(draw(b, scores), numSlots)
    {
      if |action| != batchSize {
        return Err(BatchSizeMismatch(|action|, batchSize));
      }
      if observation.None? {
        return Err(NoObservation);
      }
      var globalObs := observation.value.globalObs;
      var slotted := Gather(observation.value.itemObs, action);
      var chosen: seq<nat>;
      if clickModel == GhostActions {
        chosen := ChooseItemsGhostActions(globalObs, slotted, scoresWeightMatrix, numSlots, itemDim, globalDim, draw);
      } else if clickModel == DistanceBased {
        chosen := ChooseItemsDistanceBased(globalObs, slotted, scoresWeightMatrix, distanceThreshold.value);
      } else {
        return Err(ClickModelNotImplemented(clickModel));
      }
      r := Ok(EncodeCascading(chosen, numSlots));
    }
  }

  /**
   * A client: an action with the wrong batch dimension is rejected, and the
   * same round then answers an action of the right batch size correctly:
   * item `[1, 0]` scores 1 against the global `[1, 0]`, above the threshold
   * 0.5, so slot 0 is clicked.
   */
  method RejectedActionKeepsRound(draw: (nat, seq<real>) -> nat)
  {
    var env := new RankingPyEnvironment([1.0, 0.0], [0.0, 0.0], 2, 2, Identity(2),
                                        CascadingFeedback, DistanceBased, Some(0.5), 1);
    var observed := env.Observe([[1.0, 0.0]], [[1.0, 0.0], [0.0, 1.0]]);
    assert observed.Ok?;
    var rejected := env.ApplyAction([[0, 1], [1, 0]], draw);
    assert rejected == Err(BatchSizeMismatch(2, 1));
    var answered := env.ApplyAction([[0, 1]], draw);
    var obs := observed.value;
    assert obs.itemObs[0][0] == [1.0, 0.0] && obs.itemObs[0][1] == [0.0, 1.0];
    assert obs.globalObs[0] == [1.0, 0.0];
    IdentityScores();
    var scores := env.SlateScores(obs, [[0, 1]])[0];
    assert scores[0] == 1.0 && scores[1] == 0.0;
    assert answered.Ok?;
    var clicked := answered.value[0];
    assert clicked.chosenIndex != 2;
    assert clicked.chosenIndex == 0 && clicked.chosenValue == 1.0;
  }
}
