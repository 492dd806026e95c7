/** The composite score of the dispatch set. */
module Keys {
  import opened Jobs

  const PRIORITY_SCALE: int := 1_000_000_000_000

  /** Whole milliseconds of a creation time given in microseconds. */
  function Millis(createdAt: nat): nat {
    createdAt / 1000
  }

  function PriorityScore(priority: int, createdAt: nat): int {
    -priority * PRIORITY_SCALE + Millis(createdAt)
  }

  function JobScore(j: Job): int {
    PriorityScore(j.priority, j.createdAt)
  }

  /** Higher priority first, then the earlier millisecond. */
  predicate Before(p: int, t: nat, q: int, u: nat) {
    p > q || (p == q && Millis(t) < Millis(u))
  }

  lemma MillisIs(t: nat)
    ensures 1000 * Millis(t) <= t < 1000 * Millis(t) + 1000
  {
  }

  /** For creation times less than 10^12 milliseconds apart. */
  lemma ScoreRefines(p: int, t: nat, q: int, u: nat)
    requires -1_000_000_000_000 < Millis(t) - Millis(u) < 1_000_000_000_000
    ensures PriorityScore(p, t) < PriorityScore(q, u) <==> Before(p, t, q, u)
    ensures PriorityScore(p, t) == PriorityScore(q, u) <==> p == q && Millis(t) == Millis(u)
  {
    if p > q {
      assert (p - q) * PRIORITY_SCALE >= PRIORITY_SCALE;
    } else if p < q {
      assert (q - p) * PRIORITY_SCALE >= PRIORITY_SCALE;
    }
  }

  /** Score order is priority-then-age order for all allowed jobs created less than `window` milliseconds apart. */
  ghost predicate OrdersWithin(window: int) {
    forall p, t: nat, q, u: nat ::
      -1000 <= p <= 1000 && -1000 <= q <= 1000 && -window < Millis(t) - Millis(u) < window
      ==> (PriorityScore(p, t) < PriorityScore(q, u) <==> Before(p, t, q, u))
  }

  /** The bound on creation times is sharp. */
  lemma ScoreBoundIsSharp(window: int)
    ensures OrdersWithin(window) <==> window <= 1_000_000_000_000
  {
    if window <= PRIORITY_SCALE {
      forall p, t: nat, q, u: nat
        | -1000 <= p <= 1000 && -1000 <= q <= 1000 && -window < Millis(t) - Millis(u) < window
        ensures PriorityScore(p, t) < PriorityScore(q, u) <==> Before(p, t, q, u)
      {
        ScoreRefines(p, t, q, u);
      }
    } else {
      var late := PRIORITY_SCALE * 1000;
      assert Millis(late) == PRIORITY_SCALE && Millis(0) == 0;
      assert PriorityScore(1, late) == PriorityScore(0, 0) && Before(1, late, 0, 0);
    }
  }

  /** All priorities from -1000 to 1000 give scores below 2^53 in size exactly for creation times below this bound. */
  lemma ScoreIsExact(createdAt: nat)
    ensures (forall p :: -1000 <= p <= 1000 ==>
               -9_007_199_254_740_992 < PriorityScore(p, createdAt) < 9_007_199_254_740_992)
       <==> Millis(createdAt) < 8_007_199_254_740_992
  {
    assert PriorityScore(-1000, createdAt) == 1_000_000_000_000_000 + Millis(createdAt);
  }
}
