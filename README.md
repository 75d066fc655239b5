# Ranking bandit environment: user-choice model

This project models the deterministic core of `RankingPyEnvironment`, the
ranking bandit environment of TF-Agents. Each round, the environment holds a
batch of global context vectors and item pools. A slate action names
`numSlots` items per batch element. A simulated user then picks at most one
item of the slate, and the pick is reported as cascading feedback.

The model covers:

- **Configuration checks at construction** (`RankingEnvironment.CheckConfig`,
  `RankingPyEnvironment.Create`). The distance-based click model needs a
  threshold. Cascading is the only feedback model.
- **The round observation** (`RankingPyEnvironment.Observe`). The global draws
  are stored as they are. The flat sequence of `batchSize * numItems` item
  draws is reshaped, row by row, into one item pool per batch element. An
  empty batch or an empty item pool fails, as `np.stack` and `np.reshape` do,
  and leaves the stored observation as it was.
- **Gathering the slate** (`Gather`). It is modelled as numpy's paired index
  arrays: the batch index column is broadcast against the action.
- **Scoring** (`Scoring`). The score of an item is `(item · W) · global`,
  computed in the order of the source's matrix products. It is proved equal to
  the double sum over `i, j` of `item[i] * W[i][j] * global[j]`.
- **The distance-based click model**. This is an arg-max with first-index
  tie-breaking over the slate scores followed by a threshold column.
- **The ghost-actions click model**. The slate is extended with the `item_dim`
  unit vectors, the extended slate is scored, and the sampled outcome is
  clipped to the no-click sentinel `numSlots`.
- **Cascading feedback** (`Feedback.EncodeCascading`). The index is kept, and
  the value is 1 for an index below `numSlots` (a click) and 0 for an index of
  at least `numSlots` (the sentinel).
- **Applying an action** (`RankingPyEnvironment.ApplyAction`). It checks the
  batch dimension, reads the cached observation without changing it (the
  method has no `modifies` clause), dispatches on the click model and encodes
  the feedback.

Scores are exact `real` numbers. Model codes are the source's integer
constants (`CascadingFeedback == 1`, `GhostActions == 1`,
`DistanceBased == 2`). Any other integer may be passed, as in the source.

Where the code and its written description differ, the model follows the code:

- The constructor's docstring (line 99) speaks of one extra all-zero item.
  The code adds `item_dim` unit vectors, and so does the model.
- An unknown click model is not rejected at construction. It is rejected when
  an action is applied (lines 207-209): `ClickModelNotImplemented`.
- A threshold may be given with the ghost-actions model; it is then unused.
- On a tie between an item's score and the threshold, the item wins: its
  index is lower than the threshold column's.

## Model

| member | source | states |
|---|---|---|
| RankingEnvironment.CheckConfig | tf_agents/bandits/environments/ranking_environment.py:136-173 | construction succeeds iff the feedback model is cascading and a distance-based click model comes with a threshold; a missing threshold is reported first, exactly when distance-based has none; otherwise the unsupported feedback model is reported |
| RankingEnvironment.RankingPyEnvironment.Create | tf_agents/bandits/environments/ranking_environment.py:128-176 | fails exactly when the configuration check fails, with its error; otherwise returns a fresh, valid environment holding every given configuration value, with `globalDim` and `itemDim` the lengths of the two samples, and no observation yet |
| RankingEnvironment.RankingPyEnvironment.constructor | tf_agents/bandits/environments/ranking_environment.py:128-148 | stores the configuration; the dimensions are those of one global and one item sample |
| RankingEnvironment.RankingPyEnvironment.Observe | tf_agents/bandits/environments/ranking_environment.py:185-193 | fails with an empty-batch error when `batchSize` is 0 and with an empty-pool error when `numItems` is 0, leaving the stored observation as it was; otherwise the stored observation is the global draws and one pool of `numItems` items per batch element, item `n` of element `b` being flat draw `b * numItems + n`; the environment stays valid |
| RankingEnvironment.FlatIndex | tf_agents/bandits/environments/ranking_environment.py:188-191 | the row-major position of item `n` of element `b` lies inside the `batchSize * numItems` draws |
| RankingEnvironment.Gather | tf_agents/bandits/environments/ranking_environment.py:200-201 | the slate of element `b` has one row per action entry, and slot `s` is item `action[b][s]` of `b`'s own pool |
| RankingEnvironment.RankingPyEnvironment.SlateScores | tf_agents/bandits/environments/ranking_environment.py:201-240 | one score per slot per batch element, each the bilinear form of the gathered item with that element's global vector |
| RankingEnvironment.RankingPyEnvironment.ApplyAction | tf_agents/bandits/environments/ranking_environment.py:195-216 | fails iff the batch dimension differs (reported first), no round was observed, or the click model is unknown; otherwise one feedback per batch element, index in `[0, numSlots]`, value 1 iff index < numSlots; distance-based: sentinel iff every slot scores below the threshold, else the first maximal slot, scoring at least the threshold; ghost actions: the draw over the augmented scores clipped to the sentinel |
| LinearAlgebra.VecMatIsBilinear | tf_agents/bandits/environments/ranking_environment.py:232-240 | multiplying the item into `W` and then taking the inner product with the global vector equals the double sum `sum_i sum_j item[i] * W[i][j] * global[j]` |
| LinearAlgebra.UnitTimesMatrix | tf_agents/bandits/environments/ranking_environment.py:244-252 | the unit vector `e_j` times `W` is row `j` of `W` |
| Scoring.ItemScore | tf_agents/bandits/environments/ranking_environment.py:232-240 | the score computed in the source's product order equals the double-sum bilinear form |
| Scoring.BatchedInnerProduct | tf_agents/bandits/environments/ranking_environment.py:232-240 | one score per item per batch element, score `[b][n]` being the bilinear form of item `n` of element `b` with global vector `b` |
| Scoring.UnitItemScore | tf_agents/bandits/environments/ranking_environment.py:244-252 | the unit item `e_j` scores row `j` of `W` applied to the global vector |
| ClickModels.ArgMax | tf_agents/bandits/environments/ranking_environment.py:268 | the result indexes a maximal entry and every earlier entry is strictly smaller (first-index tie-breaking) |
| ClickModels.FirstMaxIsUnique | tf_agents/bandits/environments/ranking_environment.py:268 | any first maximal index is the arg-max, so the arg-max contract determines the result |
| ClickModels.DistanceBasedChoice | tf_agents/bandits/environments/ranking_environment.py:263-268 | result in `[0, numSlots]`; it is the sentinel iff every score is strictly below the threshold; otherwise it is the first maximal slot and its score is at least the threshold |
| ClickModels.ChooseItemsDistanceBased | tf_agents/bandits/environments/ranking_environment.py:263-268 | per batch element: result in `[0, numSlots]`, sentinel iff every slate item's bilinear score is below the threshold, otherwise the first maximal slot scoring at least the threshold |
| ClickModels.DistanceBasedExample | tf_agents/bandits/environments/ranking_environment.py:263-268 | global `[1, 0]`, identity weights, items `[1, 0]` and `[0, 1]`: threshold 0.5 picks slot 0, threshold 2 gives the sentinel 2 |
| ClickModels.WithUnitItems | tf_agents/bandits/environments/ranking_environment.py:244-250 | the augmented slate has `numSlots + d` rows, starts with the slate unchanged, and row `numSlots + j` is `e_j` |
| ClickModels.AugmentWithUnits | tf_agents/bandits/environments/ranking_environment.py:244-250 | the same for every batch element |
| ClickModels.GhostScores | tf_agents/bandits/environments/ranking_environment.py:244-252 | `numSlots + d` scores per batch element: the slate items' bilinear scores, then for ghost `j` row `j` of `W` applied to the global vector |
| ClickModels.ClipToSentinel | tf_agents/bandits/environments/ranking_environment.py:258-261 | the result is at most `numSlots`; it is the sentinel iff the outcome is at least `numSlots`; a real slot passes unchanged |
| ClickModels.GhostOutcomeIsNoClick | tf_agents/bandits/environments/ranking_environment.py:258-261 | every ghost outcome `numSlots + j`, `j < item_dim`, becomes the sentinel |
| ClickModels.ChooseItemsGhostActions | tf_agents/bandits/environments/ranking_environment.py:242-261 | per batch element: result in `[0, numSlots]`, the sentinel iff the outcome drawn from the augmented scores is a ghost outcome, otherwise that outcome |
| Feedback.EncodeCascading | tf_agents/bandits/environments/ranking_environment.py:211-216 | one feedback per choice, keeping the index, with value 1 iff the index is below `numSlots` (a real slot) and 0 iff the index is at least `numSlots` (the sentinel) |

## Left out

- The Gaussian perturbation, the logistic transform, the L1 normalisation and `np.random.choice` of the ghost-actions model are floating-point numerics and randomness. They are the parameter `draw(b, scores)`, an arbitrary function of the batch index and the augmented scores. Only the clip of its outcome is modelled. That the probabilities sum to 1 is not modelled. When `num_slots + item_dim` is 0, `np.random.choice` over the empty range raises `ValueError` (lines 258-260); that error is not modelled, and `ApplyAction` then answers with `chosenIndex` 0, the sentinel.
- ClickModels.ChooseItemsGhostActions: the draw is not constrained to `[0, numSlots + item_dim)`. The bounds of the result hold for any outcome, and `GhostOutcomeIsNoClick` covers the in-range ghost outcomes.
- The global and item sampling functions are caller-supplied generators. `Create` takes one sample of each to fix the dimensions, and `Observe` takes one round's draws as sequences of those dimensions.
- RankingEnvironment.RankingPyEnvironment.Observe: the draws are required to have the dimensions fixed at construction. In the source, draws of inconsistent shapes make `np.stack` or `np.reshape` fail, or a later matrix product; that shape error is not modelled. The failures for an empty batch and an empty item pool are modelled.
- RankingEnvironment.RankingPyEnvironment.Create: the weight matrix is required to be `[item_dim, global_dim]`, as its documentation demands. The source never checks this, and a wrong shape fails only in a later matrix product.
- RankingEnvironment.RankingPyEnvironment.ApplyAction: each action row is required to have `numSlots` entries in `[0, numItems - 1]`, the declared action bounds. Out-of-range or negative entries (an index error or numpy's wrap-around) are not modelled. The batch dimension is not required: its mismatch is the modelled error.
- The `int32` cast of the chosen index and the `float32` chosen value are modelled as an unbounded integer and a `real`.
- The branch of `_apply_action` for a feedback model other than cascading is unreachable after construction and is not modelled.
- `_step` and its reward dtype coercion wrap the base class, which is not part of this model.
- The `ArraySpec` and `BoundedArraySpec` objects and the base-class lifecycle are library objects. Only the bounds they declare are kept, in `Fits`, `ActionFits` and `WithinRewardBounds`.
- `batched()` always returns true and is not modelled. The `batch_size` property is the constant field `batchSize`.
- The environment name is not modelled.
- The constructor's default arguments (cascading feedback, ghost actions, no threshold, batch size 1) are not modelled: `Create` takes every argument explicitly. A batch size of `None`, which the source accepts at construction and which fails only once a round uses it, is not modelled either: `batchSize` is a `nat`.
