/** The arithmetic of `_respect_rate_limit`, on an integer clock. */
module RateLimit {

  /**
   * How long the limiter sleeps when `elapsed` time units have passed since the
   * last attempt started: just long enough to reach `rateLimit`, and nothing
   * when the limiter is off or the gap is already wide enough.
   */
  function Wait(rateLimit: nat, elapsed: nat): (w: nat)
    ensures elapsed + w >= rateLimit
    ensures w > 0 ==> elapsed + w == rateLimit
    ensures rateLimit == 0 || elapsed >= rateLimit ==> w == 0
  {
    if rateLimit > 0 && elapsed < rateLimit then rateLimit - elapsed else 0
  }

  /** Clock readings in order, each at least `gap` after every earlier one. */
  ghost predicate Spaced(starts: seq<nat>, gap: nat)
  {
    forall i, j :: 0 <= i < j < |starts| ==> starts[i] + gap <= starts[j]
  }

  /** A reading at least `gap` after the last one keeps the readings spaced. */
  lemma SpacedAppend(starts: seq<nat>, gap: nat, t: nat)
    requires Spaced(starts, gap)
    requires starts != [] && starts[|starts| - 1] + gap <= t
    ensures Spaced(starts + [t], gap)
  {
    var s := starts + [t];
    forall i, j | 0 <= i < j < |s| ensures s[i] + gap <= s[j] {
      if j == |starts| && i < |starts| - 1 {
        assert starts[i] + gap <= starts[|starts| - 1];
      }
    }
  }

  /** In a spaced sequence, readings k places apart are at least k gaps apart. */
  lemma {:induction false} SpacedDistance(starts: seq<nat>, gap: nat, i: nat, j: nat)
    requires Spaced(starts, gap)
    requires i <= j < |starts|
    ensures starts[i] + (j - i) * gap <= starts[j]
  {
    if i < j {
      SpacedDistance(starts, gap, i, j - 1);
      assert starts[j - 1] + gap <= starts[j];
      assert (j - i) * gap == (j - 1 - i) * gap + gap;
    }
  }
}
