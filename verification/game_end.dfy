/**
 * The end-of-game status the controller reports. The winner is re-derived from
 * the disc counts (white = Human = 1, black = AI = -1), not from the engine's
 * raw outcome value; only an outcome of exactly 0 forces a draw.
 */
module GameEnd {
  import opened Basics
  import opened Boards

  datatype Status = Ongoing | Draw | HumanWins | AiWins

  /** `check_game_end` given the engine's terminal result for the position. */
  function CheckGameEnd(result: Option<int>, b: Board): (st: Status)
    ensures st == Ongoing <==> result.None?
    ensures st == Draw <==> result.Some? && (result.value == 0 || Count(b, 1) == Count(b, -1))
    ensures st == HumanWins <==> result.Some? && result.value != 0 && Count(b, 1) > Count(b, -1)
    ensures st == AiWins <==> result.Some? && result.value != 0 && Count(b, 1) < Count(b, -1)
  {
    if result.None? then Ongoing
    else
      var diff := Count(b, 1) - Count(b, -1);
      if result.value == 0 || diff == 0 then Draw
      else if diff > 0 then HumanWins
      else if diff < 0 then AiWins
      else Draw
  }

  /** The reported winner does not depend on which rows are on top. */
  lemma StatusIgnoresOrientation(result: Option<int>, b: Board)
    ensures CheckGameEnd(result, Flip(b)) == CheckGameEnd(result, b)
  {
    CountFlip(b, 1);
    CountFlip(b, -1);
  }

  /** Any non-zero engine outcome gives the same status: the label is recomputed from the counts. */
  lemma NonZeroOutcomeIgnored(u: int, w: int, b: Board)
    requires u != 0 && w != 0
    ensures CheckGameEnd(Some(u), b) == CheckGameEnd(Some(w), b)
  {
  }
}
