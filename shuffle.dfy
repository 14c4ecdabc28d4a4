/**
 * The random relative step used in shuffle mode (`get_next_random_index`).
 * The two `random.randrange` draws are inputs: a distance from
 * `randrange(1, files_count - 1)` and a coin from `randrange(0, 2)`.
 */
module Shuffle {
  import opened Wrappers

  datatype Draws = Draws(distance: int, coin: int)

  /** What `randrange` guarantees about its draws, when its ranges are not empty. */
  predicate Fits(d: Draws, filesCount: int) {
    filesCount >= 3 ==> 1 <= d.distance <= filesCount - 2 && 0 <= d.coin <= 1
  }

  /**
   * The signed step `direction * distance`, direction -1 when the coin is 1.
   * With fewer than three clips `randrange(1, files_count - 1)` has an empty
   * range and raises ValueError: None.
   */
  function RandomStep(filesCount: int, d: Draws): (r: Option<int>)
    requires Fits(d, filesCount)
    ensures r.None? <==> filesCount < 3
    ensures r.Some? ==> r.value != 0 && -(filesCount - 2) <= r.value <= filesCount - 2
    ensures r.Some? ==> (r.value < 0 <==> d.coin == 1)
  {
    if filesCount < 3 then None
    else
      var direction := if d.coin > 0 then -1 else 1;
      Some(direction * d.distance)
  }

  /** Every nonzero step no longer than `files_count - 2`, in either direction, can be drawn. */
  lemma EveryStepReachable(filesCount: int, k: int)
    requires filesCount >= 3 && k != 0 && -(filesCount - 2) <= k <= filesCount - 2
    ensures exists d :: Fits(d, filesCount) && RandomStep(filesCount, d) == Some(k)
  {
    var d := if k < 0 then Draws(-k, 1) else Draws(k, 0);
    assert Fits(d, filesCount) && RandomStep(filesCount, d) == Some(k);
  }
}
