/** The three numbers `updateStats` shows for the selected day. */
module Stats {
  import opened Records

  datatype Stats = Stats(completed: nat, total: nat, productivity: nat)

  /** Euclidean division by a positive divisor brackets the dividend. */
  lemma DivBracket(n: nat, d: nat)
    requires 0 < d
    ensures d * (n / d) <= n < d * (n / d + 1)
  {
  }

  /** A product with a natural factor grows with the other factor. */
  lemma MulMonotone(k: nat, x: nat, y: nat)
    requires x <= y
    ensures k * x <= k * y
  {
  }

  /** The quotient is the one integer whose multiples bracket the dividend. */
  lemma DivUnique(n: nat, d: nat, q: nat)
    requires 0 < d && d * q <= n < d * (q + 1)
    ensures n / d == q
  {
    DivBracket(n, d);
    if n / d < q {
      MulMonotone(d, n / d + 1, q);
    } else if n / d > q {
      MulMonotone(d, q + 1, n / d);
    }
  }

  /** The quotient of `200c + t` by `2t` never exceeds 100. */
  lemma RoundedPercentAtMost100(c: nat, t: nat)
    requires 0 < t && c <= t
    ensures (200 * c + t) / (2 * t) <= 100
  {
    var n, d := 200 * c + t, 2 * t;
    DivBracket(n, d);
    if n / d > 100 {
      MulMonotone(d, 101, n / d);
    }
  }

  /** The rounded percentage is 100 exactly from 99.5 percent upwards. */
  lemma RoundedPercentFull(c: nat, t: nat)
    requires 0 < t && c <= t
    ensures (200 * c + t) / (2 * t) == 100 <==> 200 * c >= 199 * t
  {
    var n, d := 200 * c + t, 2 * t;
    DivBracket(n, d);
    RoundedPercentAtMost100(c, t);
    if 200 * c >= 199 * t {
      DivUnique(n, d, 100);
    }
  }

  /** The rounded percentage is 0 exactly below half a percent. */
  lemma RoundedPercentZero(c: nat, t: nat)
    requires 0 < t && c <= t
    ensures (200 * c + t) / (2 * t) == 0 <==> 200 * c < t
  {
    var n, d := 200 * c + t, 2 * t;
    if 200 * c < t {
      DivUnique(n, d, 0);
    } else {
      DivBracket(n, d);
    }
  }

  /**
   * `Math.round(c / t * 100)` for `0 < t` and `c <= t`, in the exact rational
   * arithmetic it approximates: the nearest integer to `100c/t`, halves rounded up.
   */
  function RoundedPercent(c: nat, t: nat): (p: nat)
    requires 0 < t && c <= t
    ensures 2 * t * p <= 200 * c + t < 2 * t * (p + 1)
    ensures p <= 100
    ensures p == 100 <==> 200 * c >= 199 * t
    ensures t < 200 ==> (p == 100 <==> c == t)
    ensures p == 0 <==> 200 * c < t
  {
    DivBracket(200 * c + t, 2 * t);
    RoundedPercentAtMost100(c, t);
    RoundedPercentFull(c, t);
    RoundedPercentZero(c, t);
    (200 * c + t) / (2 * t)
  }

  /** `{completed, total, productivity}`, productivity being 0 for a day without tasks. */
  function StatsOf(tasks: seq<Task>): (s: Stats)
    ensures s.total == |tasks| && s.completed == CompletedCount(tasks) && s.completed <= s.total
    ensures s.total == 0 ==> s.productivity == 0
    ensures s.total > 0 ==> 2 * s.total * s.productivity <= 200 * s.completed + s.total < 2 * s.total * (s.productivity + 1)
    ensures s.productivity <= 100
    ensures s.productivity == 100 <==> s.total > 0 && 200 * s.completed >= 199 * s.total
    ensures |tasks| < 200 ==> (s.productivity == 100 <==> tasks != [] && AllCompleted(tasks))
  {
    CompletedCountExtremes(tasks);
    var completed := CompletedCount(tasks);
    var total := |tasks|;
    Stats(completed, total, if total > 0 then RoundedPercent(completed, total) else 0)
  }

  /** With 400 tasks of which 399 are done the panel already shows 100 percent. */
  lemma FullPercentBeforeAllDone()
    ensures RoundedPercent(399, 400) == 100
  {
  }
}
