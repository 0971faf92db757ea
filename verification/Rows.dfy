/** What distances in rows are meant to be, apart from how they are computed. */
module Rows {
  /** The nearest distance that a history allows. */
  function Within(wanted: real, history: nat): (d: real)
    ensures 0.0 <= d <= history as real
    ensures 0.0 <= wanted <= history as real ==> d == wanted
  {
    if wanted < 0.0 then 0.0 else if wanted > history as real then history as real else wanted
  }

  /** The whole number nearest to `x`; of two, the one away from zero. */
  predicate NearestRow(x: real, y: real) {
    && y == y.Floor as real && -0.5 <= y - x <= 0.5
    && (y - x == -0.5 ==> x < 0.0) && (y - x == 0.5 ==> x > 0.0)
  }
}
