/** Nullable values, as the quizzes keep them in component state. */
module Optional {

  /** `null` (None) or a value (Some). */
  datatype Option<+T> = None | Some(value: T)

  /** JavaScript's `v ?? 0` on a nullable number. */
  function OrZero(o: Option<int>): int {
    if o.Some? then o.value else 0
  }

  /** Unset, or an integer in [0, max]: the values a row of rating buttons can produce. */
  predicate Within(o: Option<int>, max: int) {
    o.None? || 0 <= o.value <= max
  }

  /** A cached score is either cleared or equal to the score of the current answers. */
  predicate Cached(o: Option<int>, score: int) {
    o == None || o == Some(score)
  }
}
