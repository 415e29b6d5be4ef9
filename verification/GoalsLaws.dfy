/** What the goals fit means: a leg is worth its expected payoff, the cost is a weighted sum of squares, the rates
    stand for supremacy and total, and the search looks where it says it does. */
module GoalsLaws {
  import opened Prelude
  import opened Scoreline
  import opened GoalsFit

  // ---------------------------------------------------------------------------------------------
  // A leg is worth its expected payoff

  /** What a stake of one on a leg returns beyond nothing at a final score: all, half on a push, or nothing. */
  function Payoff(leg: Leg, home: int, away: int): real {
    match leg
    case MatchHome => if away < home then 1.0 else 0.0
    case MatchDraw => if home == away then 1.0 else 0.0
    case MatchAway => if home < away then 1.0 else 0.0
    case OverLeg(line) => if line < (home + away) as real then 1.0 else 0.0
    case UnderLeg(line) => if line < (home + away) as real then 0.0 else 1.0
    case AhHome(h) => HandicapPayoff(home as real + h, away as real)
    case AhAway(h) => HandicapPayoff(away as real + h, home as real)
  }

  function HandicapPayoff(backed: real, other: real): real {
    if other < backed then 1.0 else if backed == other then 0.5 else 0.0
  }

  function ExpectedRow(g: Grid, leg: Leg, i: nat, m: nat): real
    requires Square(g) && i < |g| && m <= |g|
  {
    if m == 0 then 0.0 else ExpectedRow(g, leg, i, m - 1) + g[i][m - 1] * Payoff(leg, i, m - 1)
  }

  function ExpectedBlock(g: Grid, leg: Leg, n: nat, m: nat): real
    requires Square(g) && n <= |g| && m <= |g|
  {
    if n == 0 then 0.0 else ExpectedBlock(g, leg, n - 1, m) + ExpectedRow(g, leg, n - 1, m)
  }

  function Expected(g: Grid, leg: Leg): real
    requires Square(g)
  {
    ExpectedBlock(g, leg, |g|, |g|)
  }

  lemma TimesOneOrNone(x: real)
    ensures x * 1.0 == x && x * 0.0 == 0.0 && x * 0.5 == 0.5 * x
  {
  }

  /** What a leg pays on: one region in full and one by half. */
  function Full(leg: Leg): Region {
    match leg
    case MatchHome => HomeWins
    case MatchDraw => Draws
    case MatchAway => AwayWins
    case OverLeg(line) => Over(line)
    case UnderLeg(line) => Over(line)
    case AhHome(h) => Covers(HomeSide, h)
    case AhAway(h) => Covers(AwaySide, h)
  }

  predicate IsHandicap(leg: Leg) { leg.AhHome? || leg.AhAway? }

  function Push(leg: Leg): Region
    requires IsHandicap(leg)
  {
    if leg.AhHome? then Pushes(HomeSide, leg.handicap) else Pushes(AwaySide, leg.handicap)
  }

  lemma {:induction false} RowIsExpected(g: Grid, leg: Leg, i: nat, m: nat)
    requires Square(g) && i < |g| && m <= |g|
    ensures ExpectedRow(g, leg, i, m)
         == if leg.UnderLeg? then RowSum(g, Everywhere, i, m) - RowSum(g, Full(leg), i, m)
            else if IsHandicap(leg) then RowSum(g, Full(leg), i, m) + 0.5 * RowSum(g, Push(leg), i, m)
            else RowSum(g, Full(leg), i, m)
  {
    if m > 0 {
      RowIsExpected(g, leg, i, m - 1);
      TimesOneOrNone(g[i][m - 1]);
    }
  }

  lemma {:induction false} BlockIsExpected(g: Grid, leg: Leg, n: nat, m: nat)
    requires Square(g) && n <= |g| && m <= |g|
    ensures ExpectedBlock(g, leg, n, m)
         == if leg.UnderLeg? then Block(g, Everywhere, n, m) - Block(g, Full(leg), n, m)
            else if IsHandicap(leg) then Block(g, Full(leg), n, m) + 0.5 * Block(g, Push(leg), n, m)
            else Block(g, Full(leg), n, m)
  {
    if n > 0 {
      RowIsExpected(g, leg, n - 1, m);
      BlockIsExpected(g, leg, n - 1, m);
    }
  }

  /** Every leg is priced at the expectation of what it pays at the final score, half a stake on a push. */
  lemma LegIsExpectedPayoff(g: Grid, leg: Leg)
    requires IsDistribution(g)
    ensures LegProb(g, leg) == Expected(g, leg)
  {
    BlockIsExpected(g, leg, |g|, |g|);
  }

  // ---------------------------------------------------------------------------------------------
  // Cost

  function Gap(g: Grid, o: ObservedLeg): real
    requires Square(g)
  {
    LegProb(g, o.leg) - o.marketProb
  }

  function Squared(x: real): real { x * x }

  function Weighted(w: real, x: real): real { w * Squared(x) }

  lemma LegCostSnoc(g: Grid, s: seq<ObservedLeg>, o: ObservedLeg)
    requires Square(g)
    ensures LegCost(g, s + [o], |s| + 1) == LegCost(g, s, |s|) + Weighted(o.weight, Gap(g, o))
  {
    hide LegProb;
    LegCostAgrees(g, s + [o], s, |s|);
    var r := Gap(g, o);
    assert o.weight * r * r == o.weight * (r * r);
  }

  /** Each leg adds its weight times the square of its gap, wherever it stands. */
  lemma {:induction false} LegCostsAdd(g: Grid, a: seq<ObservedLeg>, o: ObservedLeg, b: seq<ObservedLeg>)
    requires Square(g)
    ensures LegCost(g, a + [o] + b, |a| + 1 + |b|) == LegCost(g, a + b, |a| + |b|) + Weighted(o.weight, Gap(g, o))
  {
    hide LegCost, Weighted, Gap;
    if |b| == 0 {
      assert a + [o] + b == a + [o] && a + b == a;
      LegCostSnoc(g, a, o);
    } else {
      var front, last := b[..|b| - 1], b[|b| - 1];
      LegCostsAdd(g, a, o, front);
      assert a + [o] + b == (a + [o] + front) + [last] && a + b == (a + front) + [last];
      LegCostSnoc(g, a + [o] + front, last);
      LegCostSnoc(g, a + front, last);
    }
  }

  lemma {:induction false} LegCostAgrees(g: Grid, a: seq<ObservedLeg>, b: seq<ObservedLeg>, n: nat)
    requires Square(g) && n <= |a| && n <= |b| && forall i :: 0 <= i < n ==> a[i] == b[i]
    ensures LegCost(g, a, n) == LegCost(g, b, n)
  {
    if n > 0 {
      LegCostAgrees(g, a, b, n - 1);
    }
  }

  predicate Met(g: Grid, o: ObservedLeg)
    requires Square(g)
  {
    o.weight == 0.0 || LegProb(g, o.leg) == o.marketProb
  }

  lemma WeightedIsZeroIff(w: real, x: real)
    requires 0.0 <= w
    ensures 0.0 <= Weighted(w, x) && (Weighted(w, x) == 0.0 <==> w == 0.0 || x == 0.0)
  {
    var xx := x * x;
    if x > 0.0 {
      PositiveProduct(x, x, xx);
    } else if x < 0.0 {
      PositiveProduct(-x, -x, xx);
    }
    if 0.0 < w && 0.0 < xx {
      PositiveProduct(w, xx, w * xx);
    }
  }

  lemma {:induction false} LegCostIsZeroIff(g: Grid, observed: seq<ObservedLeg>, n: nat)
    requires Square(g) && n <= |observed| && forall i :: 0 <= i < n ==> 0.0 <= observed[i].weight
    ensures 0.0 <= LegCost(g, observed, n)
    ensures LegCost(g, observed, n) == 0.0 <==> forall i :: 0 <= i < n ==> Met(g, observed[i])
  {
    if n > 0 {
      LegCostIsZeroIff(g, observed, n - 1);
      var o := observed[n - 1];
      var r := Gap(g, o);
      WeightedIsZeroIff(o.weight, r);
      assert o.weight * r * r == o.weight * (r * r);
    }
  }

  predicate AtAnchor(prior: Option<Prior>, p: Point) {
    prior.Some? && prior.value.weight != 0.0 ==> p == Point(prior.value.supremacy, prior.value.total)
  }

  lemma PriorCostIsZeroIff(prior: Option<Prior>, p: Point)
    requires prior.Some? ==> 0.0 <= prior.value.weight
    ensures 0.0 <= PriorCost(prior, p) && (PriorCost(prior, p) == 0.0 <==> AtAnchor(prior, p))
  {
    if prior.Some? {
      var a, x, y := prior.value, p.supremacy - prior.value.supremacy, p.total - prior.value.total;
      WeightedIsZeroIff(1.0, x);
      WeightedIsZeroIff(1.0, y);
      var squares := x * x + y * y;
      assert 0.0 <= squares;
      if 0.0 < a.weight && 0.0 < squares {
        PositiveProduct(a.weight, squares, a.weight * squares);
      }
    }
  }

  /** A fit that the validation lets through costs nothing exactly when every weighted leg is priced at its market
      probability and a weighted prior sits at its anchor, and less than nothing only if the prior's weight is
      negative, which is not checked. */
  lemma FitCostsNothingIff(exp: real -> real, observed: seq<ObservedLeg>, c: FitConfig, fit: Fit)
    requires IsExp(exp) && Validate(observed, c).None? && IsFit(exp, observed, c, fit)
    requires c.prior.Some? ==> 0.0 <= c.prior.value.weight
    ensures 0.0 <= fit.cost
    ensures fit.cost == 0.0 <==> (forall o :: o in observed ==> Met(fit.matrix, o)) && AtAnchor(c.prior, fit.point)
  {
    FitIsBestVisited(exp, observed, c, fit);
    LegCostIsZeroIff(fit.matrix, observed, |observed|);
    PriorCostIsZeroIff(c.prior, fit.point);
  }

  /** The failing case: a prior of negative weight passes validation and pulls the cost below zero. */
  lemma NegativePriorIsAccepted(observed: seq<ObservedLeg>, c: FitConfig, p: Point)
    requires p != Point(1.0, 2.0)
    ensures var bad := Prior(1.0, 2.0, -1.0);
            Validate(observed, c.(prior := Some(bad))) == Validate(observed, c) && PriorCost(Some(bad), p) < 0.0
  {
    PriorCostIsZeroIff(Some(Prior(1.0, 2.0, 1.0)), p);
  }

  // ---------------------------------------------------------------------------------------------
  // Rates

  /** The scoring rates add up to the total and differ by the supremacy, each held at one hundredth from below. */
  lemma RatesStandForThePoint(p: Point, c: FitConfig)
    requires 0 <= c.maxGoals
    ensures var q := ParamsFor(p, c);
            && q.rho == c.rho && q.maxGoals == c.maxGoals && 0.01 <= q.homeRate && 0.01 <= q.awayRate
            && (0.02 <= p.total + p.supremacy && 0.02 <= p.total - p.supremacy ==>
                  q.homeRate + q.awayRate == p.total && q.homeRate - q.awayRate == p.supremacy)
            && (p.total + p.supremacy <= 0.02 ==> q.homeRate == 0.01)
            && (p.total - p.supremacy <= 0.02 ==> q.awayRate == 0.01)
            && (0.02 <= p.total + p.supremacy ==> 2.0 * q.homeRate == p.total + p.supremacy)
            && (0.02 <= p.total - p.supremacy ==> 2.0 * q.awayRate == p.total - p.supremacy)
  {
  }

  // ---------------------------------------------------------------------------------------------
  // Where the search looks

  function Shrunk(x: real, factor: real, k: nat): real { if k == 0 then x else Shrunk(x, factor, k - 1) * factor }

  /** The coarse points are evenly spaced from corner to corner. */
  lemma CoarsePointsAreEven(c: FitConfig, i: int, j: int)
    requires ValidSearch(c)
    ensures var p, b, n := At(CoarseLattice(c), i, j), c.bounds, c.coarseSteps as real;
            && n * (p.supremacy - b.supremacyMin) == i as real * (b.supremacyMax - b.supremacyMin)
            && n * (p.total - b.totalMin) == j as real * (b.totalMax - b.totalMin)
  {
    OffsetScales(c.bounds.supremacyMax - c.bounds.supremacyMin, i, c.coarseSteps);
    OffsetScales(c.bounds.totalMax - c.bounds.totalMin, j, c.coarseSteps);
  }

  lemma OffsetScales(span: real, step: int, steps: int)
    requires steps != 0
    ensures steps as real * Offset(span, step, steps) == step as real * span
  {
    var q := Offset(span, step, steps);
    assert q * steps as real == span * step as real;
  }

  /** A value held between two bounds. */
  predicate HeldBetween(v: real, wanted: real, low: real, high: real) {
    && low <= v <= high && (wanted < v ==> v == low) && (v < wanted ==> v == high)
  }

  /** A point i of n steps out from a centre, towards the edge of a window. */
  predicate StepsOut(x: real, center: real, window: real, i: int, n: int) { n as real * (x - center)
      == i as real * window }

  lemma StepOut(center: real, window: real, i: int, n: int) returns (x: real)
    requires n != 0
    ensures StepsOut(x, center, window, i, n) && x == center + Offset(window, i, n)
  {
    OffsetScales(window, i, n);
    x := center + Offset(window, i, n);
  }

  /** The points of a refine round are spread evenly over the window around its centre, and held in bounds. */
  lemma RefinePointsAreEven(cost: Point -> real, c: FitConfig, k: nat, i: int, j: int)
    returns (supremacy: real, total: real)
    requires ValidSearch(c)
    ensures var p, b, s := At(RoundLattice(cost, c, k), i, j), c.bounds, After(cost, c, k);
            && StepsOut(supremacy, s.best.point.supremacy, s.windowSupremacy, i, c.refineSteps)
            && StepsOut(total, s.best.point.total, s.windowTotal, j, c.refineSteps)
            && HeldBetween(p.supremacy, supremacy, b.supremacyMin, b.supremacyMax)
            && HeldBetween(p.total, total, b.totalMin, b.totalMax)
  {
    hide After, Offset, StepsOut;
    var s := After(cost, c, k);
    supremacy := StepOut(s.best.point.supremacy, s.windowSupremacy, i, c.refineSteps);
    total := StepOut(s.best.point.total, s.windowTotal, j, c.refineSteps);
  }

  /** The window starts as one coarse step and shrinks by the configured factor each round. */
  lemma {:induction false} WindowsShrink(cost: Point -> real, c: FitConfig, k: nat)
    requires ValidSearch(c)
    ensures var s, b, n := After(cost, c, k), c.bounds, c.coarseSteps as real;
            && s.windowSupremacy == Shrunk((b.supremacyMax - b.supremacyMin) / n, c.refineShrink, k)
            && s.windowTotal == Shrunk((b.totalMax - b.totalMin) / n, c.refineShrink, k)
  {
    hide Scan;
    if k > 0 {
      WindowsShrink(cost, c, k - 1);
    }
  }

  /** The best point only ever moves to a cheaper one. */
  predicate MovesForLess(best: Best, earlier: Best) {
    best == earlier || (best.cost.Some? && (earlier.cost.Some? ==> best.cost.value < earlier.cost.value))
  }

  lemma {:induction false} RowMovesForLess(cost: Point -> real, l: Lattice, best: Best, i: int, m: int)
    requires l.last >= 1
    ensures MovesForLess(ScanRow(cost, l, best, i, m), best)
    decreases m - l.First()
  {
    hide At;
    if m > l.First() {
      RowMovesForLess(cost, l, best, i, m - 1);
    }
  }

  lemma {:induction false} ScanMovesForLess(cost: Point -> real, l: Lattice, best: Best, n: int)
    requires l.last >= 1
    ensures MovesForLess(Scan(cost, l, best, n), best)
    decreases n - l.First()
  {
    hide ScanRow;
    if n > l.First() {
      ScanMovesForLess(cost, l, best, n - 1);
      RowMovesForLess(cost, l, Scan(cost, l, best, n - 1), n - 1, l.last + 1);
    }
  }

  /** A refine round keeps the best point unless it finds a strictly cheaper one: ties go to the earlier point. */
  lemma TiesKeepTheEarlierPoint(cost: Point -> real, c: FitConfig, k: nat)
    requires ValidSearch(c)
    ensures MovesForLess(After(cost, c, k + 1).best, After(cost, c, k).best)
  {
    hide Scan;
    ScanMovesForLess(cost, RoundLattice(cost, c, k), After(cost, c, k).best, c.refineSteps + 1);
  }
}
