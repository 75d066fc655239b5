/**
 * The cascading feedback model: the user's choice is reported as the chosen
 * slot and a click indicator.
 */
module Feedback {

  /**
   * Cascading feedback for one batch element. `chosenIndex == numSlots`
   * means that no recommended item was clicked.
   */
  datatype Cascading = Cascading(chosenIndex: int, chosenValue: real)

  /** The reward bounds: the chosen index lies in `[0, numSlots]`. */
  predicate WithinRewardBounds(f: Cascading, numSlots: nat)
  {
    0 <= f.chosenIndex <= numSlots
  }

  /** The chosen value is the click indicator of the chosen index. */
  predicate ReportsClick(f: Cascading, numSlots: nat)
  {
    (f.chosenValue == 1.0 <==> f.chosenIndex < numSlots) &&
    (f.chosenValue == 0.0 <==> f.chosenIndex >= numSlots)
  }

  /**
   * Encodes a batch of chosen slots as cascading feedback: the index is kept,
   * and the value is 1 for a real slot and 0 for the sentinel.
   */
  function EncodeCascading(chosen: seq<nat>, numSlots: nat): (feedback: seq<Cascading>)
    ensures |feedback| == |chosen|
    ensures forall b :: 0 <= b < |chosen| ==>
              feedback[b].chosenIndex == chosen[b] && ReportsClick(feedback[b], numSlots)
  {
    seq(|chosen|, b requires 0 <= b < |chosen| =>
      Cascading(chosen[b], if chosen[b] < numSlots then 1.0 else 0.0))
  }
}
