/**
 * The public win-rate gate (core/production_integrity.py). Reals stand for floats, and the square
 * root the program takes is a parameter known by what a square root is.
 */
module PublicClaims {
  import opened RealMath

  /** root is the square root of x. */
  predicate IsRoot(root: real, x: real) { root >= 0.0 && root * root == x }

  function Clip(successes: int, n: nat): nat {
    if successes < 0 then 0 else if successes > n then n else successes
  }

  function Rate(successes: int, n: nat): real
    requires n > 0
  {
    Clip(successes, n) as real / n as real
  }

  /** z*z/n, the weight of the prior in the Wilson interval. */
  function Weight(n: nat, z: real): real
    requires n > 0
  {
    z * z / n as real
  }

  function Radicand(p: real, n: nat, z: real): real
    requires n > 0
  {
    (p * (1.0 - p) + z * z / (4.0 * n as real)) / n as real
  }

  /** The value before it is clamped to [0, 1]. */
  function RawBound(p: real, n: nat, z: real, root: real): real
    requires n > 0
  {
    (p + z * z / (2.0 * n as real) - z * root) / (1.0 + z * z / n as real)
  }

  function WilsonLowerBound(successes: int, total: int, z: real, root: real): real {
    var n := MaxInt(0, total);
    if n <= 0 then 0.0
    else Max(0.0, Min(1.0, RawBound(Rate(successes, n), n, z, root)))
  }

  // ---- The bound as a root of a quadratic ----

  /** Zero where the squared distance to the rate is c times the variance. */
  function Gap(p: real, c: real, x: real): real { (p - x) * (p - x) - c * (x * (1.0 - x)) }

  lemma SquareNonNegative(x: real)
    ensures x * x >= 0.0
  {}

  lemma RateInUnit(successes: int, n: nat)
    requires n > 0
    ensures 0.0 <= Rate(successes, n) <= 1.0
  {}

  /**
   * If (1 + c) x == p + c/2 - m with m squared as in the program, x solves the quadratic. This is the
   * algebra of completing the square, with all divisions cleared.
   */
  lemma SolvesQuadratic(p: real, c: real, m: real, x: real)
    requires (1.0 + c) * x == p + c / 2.0 - m
    requires m * m == c * (p * (1.0 - p)) + c * c / 4.0
    requires 1.0 + c > 0.0
    ensures Gap(p, c, x) == 0.0
  {
    var a, h := 1.0 + c, p + c / 2.0;
    var y := a * x;
    assert (h - y) * (h - y) == m * m;
    assert (h - y) * (h - y) == h * h - 2.0 * h * y + y * y;
    assert h * h == p * p + p * c + c * c / 4.0;
    assert c * (p * (1.0 - p)) == c * p - c * (p * p);
    assert h * h - m * m == p * p + c * (p * p);
    assert p * p + c * (p * p) == a * (p * p);
    assert a * (p * p) - 2.0 * h * y + y * y == 0.0;
    assert y * y == a * (a * (x * x)) && 2.0 * h * y == a * (2.0 * h * x);
    assert a * (p * p - 2.0 * h * x + a * (x * x)) == 0.0;
    CancelFactor(a, p * p - 2.0 * h * x + a * (x * x));
    assert Gap(p, c, x) == p * p - 2.0 * p * x + x * x - c * x + c * (x * x);
    assert 2.0 * h * x == 2.0 * p * x + c * x;
    assert a * (x * x) == x * x + c * (x * x);
  }

  lemma CancelFactor(a: real, b: real)
    requires a > 0.0 && a * b == 0.0
    ensures b == 0.0
  {}

  lemma NoSquareBelowZero(a: real)
    ensures a * a <= 0.0 ==> a == 0.0
  {
    if a != 0.0 { assert a * a / a == a; }
  }

  lemma NegativeVariance(x: real)
    requires x < 0.0 || x > 1.0
    ensures x * (1.0 - x) < 0.0
  {}

  lemma ProductNonPositive(a: real, b: real)
    requires a >= 0.0 && b <= 0.0
    ensures a * b <= 0.0
  {}

  lemma ProductStrict(a: real, x: real, y: real)
    requires a > 0.0
    ensures x < y ==> a * x < a * y
  {}

  lemma ProductNonNegative(a: real, b: real)
    requires a >= 0.0 && b >= 0.0
    ensures a * b >= 0.0
  {}

  /** Any solution lies between 0 and 1. */
  lemma SolutionInUnit(p: real, c: real, x: real)
    requires 0.0 <= p <= 1.0 && c >= 0.0 && Gap(p, c, x) == 0.0
    ensures 0.0 <= x <= 1.0
  {
    if x < 0.0 || x > 1.0 { OutsideOnlyAtTheRate(p, c, x); }
  }

  lemma OutsideOnlyAtTheRate(p: real, c: real, x: real)
    requires c >= 0.0 && (x < 0.0 || x > 1.0) && Gap(p, c, x) == 0.0
    ensures p == x
  {
    NegativeVariance(x);
    ProductNonPositive(c, x * (1.0 - x));
    NoSquareBelowZero(p - x);
  }

  /** The smaller of the two solutions: it does not lie beyond the middle. */
  predicate LowerRoot(p: real, c: real, x: real) {
    Gap(p, c, x) == 0.0 && (1.0 + c) * x <= p + c / 2.0
  }

  /** The other factor once a solution has been split off. */
  function Slope(p: real, c: real, x: real, root: real): real { (1.0 + c) * (x + root) - (2.0 * p + c) }

  lemma GapFactors(p: real, c: real, root: real, x: real)
    requires Gap(p, c, root) == 0.0
    ensures Gap(p, c, x) == (x - root) * Slope(p, c, x, root)
  {}

  lemma FactorSign(a: real, b: real)
    ensures a > 0.0 && a * b >= 0.0 ==> b >= 0.0
    ensures a < 0.0 && a * b <= 0.0 ==> b >= 0.0
  {}

  /** The smaller solution does not exceed the rate. */
  lemma LowerRootBelowRate(p: real, c: real, x: real)
    requires 0.0 <= p <= 1.0 && c >= 0.0 && LowerRoot(p, c, x)
    ensures x <= p
  {
    var k := Slope(p, c, p, x);
    GapFactors(p, c, x, p);
    assert Gap(p, c, p) <= 0.0 by {
      ProductNonNegative(p, 1.0 - p);
      ProductNonNegative(c, p * (1.0 - p));
    }
    FactorSign(p - x, k);
    assert (1.0 + c) * (p + x) == (1.0 + c) * p + (1.0 + c) * x;
    ProductStrict(1.0 + c, p, x);
  }

  lemma GapGrows(p: real, c: real, q: real, d: real, x: real)
    requires 0.0 <= x <= p <= q <= 1.0 && c >= d >= 0.0 && Gap(p, c, x) == 0.0
    ensures Gap(q, d, x) >= 0.0
  {
    var variance := x * (1.0 - x);
    ProductNonNegative(x, 1.0 - x);
    ProductNonNegative(c - d, variance);
    assert (c - d) * variance == c * variance - d * variance;
    SquareOrder(p - x, q - x);
  }

  lemma SquareOrder(a: real, b: real)
    requires 0.0 <= a <= b
    ensures a * a <= b * b
  {}

  lemma LinearStaysBelow(q: real, x: real, c: real, d: real)
    requires x <= q && c >= d >= 0.0 && (1.0 + c) * x <= q + c / 2.0
    ensures (1.0 + d) * x <= q + d / 2.0
  {
    assert (1.0 + c) * x == x + c * x && (1.0 + d) * x == x + d * x;
    var g := x - 0.5;
    assert c * x - c / 2.0 == c * g && d * x - d / 2.0 == d * g;
    if g >= 0.0 { assert d * g <= c * g; } else { assert d * g <= 0.0; }
  }

  /** A higher rate and a smaller weight (a larger sample) never lower the bound. */
  lemma LowerRootsAreOrdered(p: real, c: real, x: real, q: real, d: real, y: real)
    requires 0.0 <= p <= q <= 1.0 && c >= d >= 0.0
    requires LowerRoot(p, c, x) && LowerRoot(q, d, y)
    ensures x <= y
  {
    hide Gap, LowerRoot, Slope;
    FactorNonNegative(p, c, x, q, d, y);
    if y < x { SlopeNegative(p, c, x, q, d, y); }
    OrderFromFactor(x, y, Slope(q, d, x, y));
  }

  lemma SlopeNegative(p: real, c: real, x: real, q: real, d: real, y: real)
    requires 0.0 <= p <= q <= 1.0 && c >= d >= 0.0 && LowerRoot(p, c, x) && y < x
    ensures Slope(q, d, x, y) < 0.0
  {
    MiddleBounds(p, c, x, q, d);
    hide Gap, LowerRoot;
    BothBelowTheMiddle(q, d, y, x);
  }

  lemma FactorNonNegative(p: real, c: real, x: real, q: real, d: real, y: real)
    requires 0.0 <= p <= q <= 1.0 && c >= d >= 0.0 && LowerRoot(p, c, x) && LowerRoot(q, d, y)
    ensures (x - y) * Slope(q, d, x, y) >= 0.0
  {
    LowerRootBelowRate(p, c, x);
    SolutionInUnit(p, c, x);
    hide Gap;
    GapGrows(p, c, q, d, x);
    GapFactors(q, d, y, x);
  }

  lemma MiddleBounds(p: real, c: real, x: real, q: real, d: real)
    requires 0.0 <= p <= q <= 1.0 && c >= d >= 0.0 && LowerRoot(p, c, x)
    ensures (1.0 + d) * x <= q + d / 2.0
  {
    LowerRootBelowRate(p, c, x);
    hide Gap;
    LinearStaysBelow(q, x, c, d);
  }

  lemma OrderFromFactor(x: real, y: real, k: real)
    requires (x - y) * k >= 0.0 && (y < x ==> k < 0.0)
    ensures x <= y
  {}

  lemma BothBelowTheMiddle(q: real, d: real, y: real, x: real)
    requires y < x && d >= 0.0 && (1.0 + d) * x <= q + d / 2.0
    ensures (1.0 + d) * (x + y) < 2.0 * q + d
  {}

  // ---- The program's value ----

  lemma MarginSquared(p: real, n: nat, z: real, root: real)
    requires n > 0 && IsRoot(root, Radicand(p, n, z))
    ensures var c := Weight(n, z); z * root * (z * root) == c * (p * (1.0 - p)) + c * c / 4.0
  {}

  lemma RawBoundTimes(p: real, n: nat, z: real, root: real)
    requires n > 0
    ensures var c := Weight(n, z); 1.0 + c > 0.0 && (1.0 + c) * RawBound(p, n, z, root) == p + c / 2.0 - z * root
  {}

  /** Before clamping the value is a solution of the Wilson equation, and for z >= 0 the smaller one. */
  lemma RawBoundSolves(p: real, n: nat, z: real, root: real)
    requires n > 0 && IsRoot(root, Radicand(p, n, z))
    ensures Gap(p, Weight(n, z), RawBound(p, n, z, root)) == 0.0
    ensures z >= 0.0 ==> LowerRoot(p, Weight(n, z), RawBound(p, n, z, root))
  {
    hide RawBound, Weight, Gap, Radicand;
    RawBoundTimes(p, n, z, root);
    MarginSquared(p, n, z, root);
    SolvesQuadratic(p, Weight(n, z), z * root, RawBound(p, n, z, root));
    if z >= 0.0 { assert z * root >= 0.0; }
  }

  /** The root the program asks for. */
  predicate RootFor(successes: int, total: int, z: real, root: real) {
    total > 0 ==> IsRoot(root, Radicand(Rate(successes, total), total, z))
  }

  /**
   * The bound L of k out of n solves (p - L)^2 == z*z/n * L * (1 - L), lies in [0, 1] without being
   * clamped, and for z >= 0 does not exceed the observed rate.
   */
  lemma BoundIsWilson(successes: int, total: int, z: real, root: real)
    requires total > 0 && RootFor(successes, total, z, root)
    ensures var p, bound := Rate(successes, total), WilsonLowerBound(successes, total, z, root);
            && bound == RawBound(p, total, z, root)
            && (p - bound) * (p - bound) == Weight(total, z) * (bound * (1.0 - bound))
            && 0.0 <= bound <= 1.0
            && (z >= 0.0 ==> bound <= p && LowerRoot(p, Weight(total, z), bound))
  {
    hide RawBound, Weight, Radicand, LowerRoot, Rate;
    var p := Rate(successes, total);
    RateInUnit(successes, total);
    WeightNonNegative(total, z);
    RawBoundSolves(p, total, z, root);
    SolutionInUnit(p, Weight(total, z), RawBound(p, total, z, root));
    if z >= 0.0 { LowerRootBelowRate(p, Weight(total, z), RawBound(p, total, z, root)); }
  }

  lemma WeightNonNegative(n: nat, z: real)
    requires n > 0
    ensures Weight(n, z) >= 0.0
  {}

  lemma WeightShrinks(n: nat, m: nat, z: real)
    requires 0 < n <= m
    ensures Weight(m, z) <= Weight(n, z)
  {
    SquareNonNegative(z);
    LargerDivisor(z * z, n as real, m as real);
  }

  /** A rate at least as high over a sample at least as large never has a lower bound. */
  lemma BoundIsMonotone(k: int, n: int, root: real, k': int, n': int, root': real, z: real)
    requires 0 < n <= n' && z >= 0.0 && RootFor(k, n, z, root) && RootFor(k', n', z, root')
    requires Rate(k, n) <= Rate(k', n')
    ensures WilsonLowerBound(k, n, z, root) <= WilsonLowerBound(k', n', z, root')
  {
    hide Weight, Radicand, LowerRoot, Rate, WilsonLowerBound, RawBound;
    BoundIsWilson(k, n, z, root);
    BoundIsWilson(k', n', z, root');
    RateInUnit(k, n);
    RateInUnit(k', n');
    WeightNonNegative(n', z);
    WeightShrinks(n, n', z);
    LowerRootsAreOrdered(Rate(k, n), Weight(n, z), WilsonLowerBound(k, n, z, root),
                         Rate(k', n'), Weight(n', z), WilsonLowerBound(k', n', z, root'));
  }

  lemma MoreSuccessesRaiseTheRate(k: int, k': int, n: nat)
    requires n > 0 && k <= k'
    ensures Rate(k, n) <= Rate(k', n)
  {
    QuotientOrder(Clip(k, n) as real, Clip(k', n) as real, n as real);
  }

  // ---- The gate ----

  const Z := 1.96

  /** Thresholds read from the environment. */
  datatype Thresholds = Thresholds(minSample: int, minUnique: int, minCoverage: real)

  datatype Counts = Counts(wins: int, losses: int, delivered: int, resolved: int, uniqueTheses: int)

  datatype Verdict = SampleTooSmall | TooFewTheses | CoverageTooLow | BoundBelowTarget | Supported

  datatype ClaimDecision = ClaimDecision(
    allowed: bool, verdict: Verdict, observed: real, lowerBound: real, sample: nat, coverage: real)

  function Sample(c: Counts): nat { MaxInt(0, c.wins + c.losses) }

  function Coverage(c: Counts): real { if c.delivered > 0 then c.resolved as real / c.delivered as real else 0.0 }

  function EvaluateClaim(c: Counts, target: real, t: Thresholds, root: real): ClaimDecision {
    var sample := Sample(c);
    var observed := if sample > 0 then c.wins as real / sample as real else 0.0;
    var lower := WilsonLowerBound(c.wins, sample, Z, root);
    var verdict :=
      if sample < t.minSample then SampleTooSmall
      else if c.uniqueTheses < t.minUnique then TooFewTheses
      else if Coverage(c) < t.minCoverage then CoverageTooLow
      else if lower < target then BoundBelowTarget
      else Supported;
    ClaimDecision(verdict == Supported, verdict, observed, lower, sample, Coverage(c))
  }

  lemma RateOfWins(wins: int, sample: nat)
    requires sample > 0 && wins >= 0
    ensures Rate(wins, sample) <= wins as real / sample as real
  {}

  /** An allowed claim is true of the sample: the observed win rate is at least the target. */
  lemma AllowedClaimsAreTrue(c: Counts, target: real, t: Thresholds, root: real)
    requires RootFor(c.wins, Sample(c), Z, root) && c.wins >= 0
    ensures var d := EvaluateClaim(c, target, t, root);
            d.allowed ==> d.observed >= d.lowerBound >= target && d.sample >= t.minSample
                          && c.uniqueTheses >= t.minUnique && d.coverage >= t.minCoverage
  {
    hide WilsonLowerBound, Radicand, Rate, LowerRoot, RawBound;
    if Sample(c) > 0 {
      BoundIsWilson(c.wins, Sample(c), Z, root);
      RateOfWins(c.wins, Sample(c));
    } else {
      NoSampleNoBound(c.wins, root);
    }
  }

  lemma NoSampleNoBound(wins: int, root: real)
    ensures WilsonLowerBound(wins, 0, Z, root) == 0.0
  {}

  /** Turning a loss into a win never withdraws a claim. */
  lemma MoreWinsKeepTheClaim(c: Counts, target: real, t: Thresholds, root: real, root': real)
    requires RootFor(c.wins, Sample(c), Z, root) && RootFor(c.wins + 1, Sample(c), Z, root')
    ensures EvaluateClaim(c, target, t, root).allowed ==>
              EvaluateClaim(c.(wins := c.wins + 1, losses := c.losses - 1), target, t, root').allowed
  {
    hide WilsonLowerBound, Radicand, Rate;
    if Sample(c) > 0 {
      MoreSuccessesRaiseTheRate(c.wins, c.wins + 1, Sample(c));
      BoundIsMonotone(c.wins, Sample(c), root, c.wins + 1, Sample(c), root', Z);
    } else {
      NoSampleNoBound(c.wins, root);
      NoSampleNoBound(c.wins + 1, root');
    }
  }

  /** Which verdict is given, and the figures it is given with. */
  lemma DecidedExactly(c: Counts, target: real, t: Thresholds, root: real)
    ensures var d, n := EvaluateClaim(c, target, t, root), c.wins + c.losses;
            && d.sample == (if n > 0 then n else 0)
            && (n > 0 ==> d.observed * n as real == c.wins as real) && (n <= 0 ==> d.observed == d.lowerBound == 0.0)
            && (c.delivered > 0 ==> d.coverage * c.delivered as real == c.resolved as real)
            && (c.delivered <= 0 ==> d.coverage == 0.0)
            && (d.verdict == SampleTooSmall <==> d.sample < t.minSample)
            && (d.verdict == TooFewTheses <==> d.sample >= t.minSample && c.uniqueTheses < t.minUnique)
            && (d.verdict == CoverageTooLow <==>
                  d.sample >= t.minSample && c.uniqueTheses >= t.minUnique && d.coverage < t.minCoverage)
            && (d.verdict == BoundBelowTarget <==>
                  && d.sample >= t.minSample && c.uniqueTheses >= t.minUnique && d.coverage >= t.minCoverage
                  && d.lowerBound < target)
            && (d.allowed <==> d.verdict == Supported)
  {
    hide RawBound, Rate;
    if c.wins + c.losses > 0 { ShareTimes(c.wins as real, (c.wins + c.losses) as real); } else { NoSampleNoBound(c.wins, root); }
    if c.delivered > 0 { ShareTimes(c.resolved as real, c.delivered as real); }
  }

  lemma QuotientIs(q: real, a: real, b: real)
    requires b > 0.0 && q * b == a
    ensures q == a / b
  {}

  /** The claimed rate: wins over the sample, cut to the unit interval. */
  predicate IsRateOf(p: real, c: Counts) {
    var n := c.wins + c.losses;
    p * n as real == if c.wins < 0 then 0.0 else if c.losses < 0 then n as real else c.wins as real
  }

  lemma RateIs(p: real, c: Counts, n: nat)
    requires n == c.wins + c.losses > 0 && IsRateOf(p, c)
    ensures Rate(c.wins, n) == p
  {
    QuotientIs(p, Clip(c.wins, n) as real, n as real);
  }

  lemma RootIs(p: real, n: nat, z: real, root: real)
    requires n > 0 && root >= 0.0 && root * root * n as real == p * (1.0 - p) + z * z / (4.0 * n as real)
    ensures IsRoot(root, Radicand(p, n, z))
  {
    QuotientIs(root * root, p * (1.0 - p) + z * z / (4.0 * n as real), n as real);
  }

  /** The bound reported is the Wilson bound for z = 1.96 of the win rate, and 0 without a sample. */
  lemma ReportsTheWilsonBound(c: Counts, target: real, t: Thresholds, root: real, p: real, n: nat, z: real)
    requires z == 1.96 && n == c.wins + c.losses > 0 && IsRateOf(p, c)
    requires root >= 0.0 && root * root * n as real == p * (1.0 - p) + z * z / (4.0 * n as real)
    ensures var bound := EvaluateClaim(c, target, t, root).lowerBound;
            && (p - bound) * (p - bound) == z * z / n as real * (bound * (1.0 - bound))
            && 0.0 <= bound <= p <= 1.0
  {
    hide WilsonLowerBound, Radicand, Rate, LowerRoot, RawBound, IsRateOf, IsRoot;
    RateIs(p, c, n);
    RootIs(p, n, z, root);
    RateInUnit(c.wins, n);
    assert Z == z && Sample(c) == n;
    BoundIsWilson(c.wins, n, z, root);
  }
}
