/** Fitting the goals model: a coarse grid over (supremacy, total), then shrinking refine rounds around the
    best point so far. */
module GoalsFit {
  import opened Prelude
  import opened Scoreline

  const MIN_RATE: real := 0.01

  datatype FitError = InvalidConfig | InsufficientLegs

  datatype Bounds = Bounds(supremacyMin: real, supremacyMax: real, totalMin: real, totalMax: real)

  datatype Prior = Prior(supremacy: real, total: real, weight: real)

  datatype FitConfig = FitConfig(
    rho: real, maxGoals: int, bounds: Bounds, coarseSteps: int, refineSteps: int, refineRounds: int,
    refineShrink: real, prior: Option<Prior>)

  datatype ObservedLeg = ObservedLeg(leg: Leg, marketProb: real, weight: real)

  datatype Point = Point(supremacy: real, total: real)

  /** The best point so far; no cost yet stands for an infinite one. */
  datatype Best = Best(point: Point, cost: Option<real>)

  // ---------------------------------------------------------------------------------------------
  // Search, for any cost function

  predicate ValidSearch(c: FitConfig) {
    && 1 <= c.coarseSteps && 1 <= c.refineSteps && 0 <= c.refineRounds
    && c.bounds.supremacyMin < c.bounds.supremacyMax && c.bounds.totalMin < c.bounds.totalMax
  }

  predicate InBounds(b: Bounds, p: Point) {
    b.supremacyMin <= p.supremacy <= b.supremacyMax && b.totalMin <= p.total <= b.totalMax
  }

  function ClampToRange(value: real, low: real, high: real): real {
    if value < low then low else if value > high then high else value
  }

  /** A square lattice of candidate points, indexed from `first` to `last` on both axes. */
  datatype Lattice =
    | Coarse(bounds: Bounds, last: int)
    | Refine(bounds: Bounds, center: Point, windowSupremacy: real, windowTotal: real, last: int)
  {
    function First(): int { if Coarse? then 0 else -last }
  }

  function Offset(span: real, step: int, steps: int): real
    requires steps != 0
  {
    span * step as real / steps as real
  }

  function At(l: Lattice, i: int, j: int): Point
    requires l.last != 0
  {
    var b := l.bounds;
    match l
    case Coarse(_, n) =>
      Point(b.supremacyMin + Offset(b.supremacyMax - b.supremacyMin, i, n),
            b.totalMin + Offset(b.totalMax - b.totalMin, j, n))
    case Refine(_, center, windowSupremacy, windowTotal, n) =>
      Point(ClampToRange(center.supremacy + Offset(windowSupremacy, i, n), b.supremacyMin, b.supremacyMax),
            ClampToRange(center.total + Offset(windowTotal, j, n), b.totalMin, b.totalMax))
  }

  function Improve(cost: Point -> real, best: Best, p: Point): Best {
    if best.cost.None? || cost(p) < best.cost.value then Best(p, Some(cost(p))) else best
  }

  /** Try the points of row i up to column m. */
  function ScanRow(cost: Point -> real, l: Lattice, best: Best, i: int, m: int): Best
    requires l.last >= 1
    decreases m - l.First()
  {
    if m <= l.First() then best else Improve(cost, ScanRow(cost, l, best, i, m - 1), At(l, i, m - 1))
  }

  /** Try all points of the rows up to n. */
  function Scan(cost: Point -> real, l: Lattice, best: Best, n: int): Best
    requires l.last >= 1
    decreases n - l.First()
  {
    if n <= l.First() then best else ScanRow(cost, l, Scan(cost, l, best, n - 1), n - 1, l.last + 1)
  }

  datatype Search = Search(best: Best, windowSupremacy: real, windowTotal: real)

  function CoarseLattice(c: FitConfig): Lattice { Coarse(c.bounds, c.coarseSteps) }

  function RefineLattice(c: FitConfig, s: Search): Lattice {
    Refine(c.bounds, s.best.point, s.windowSupremacy, s.windowTotal, c.refineSteps)
  }

  function Midpoint(b: Bounds): Point {
    Point((b.supremacyMin + b.supremacyMax) / 2.0, (b.totalMin + b.totalMax) / 2.0)
  }

  /** The search after the coarse pass and k refine rounds. */
  function After(cost: Point -> real, c: FitConfig, k: nat): Search
    requires ValidSearch(c)
  {
    if k == 0 then
      Search(Scan(cost, CoarseLattice(c), Best(Midpoint(c.bounds), None), c.coarseSteps + 1),
             (c.bounds.supremacyMax - c.bounds.supremacyMin) / c.coarseSteps as real,
             (c.bounds.totalMax - c.bounds.totalMin) / c.coarseSteps as real)
    else
      var s := After(cost, c, k - 1);
      Search(Scan(cost, RefineLattice(c, s), s.best, c.refineSteps + 1),
             s.windowSupremacy * c.refineShrink, s.windowTotal * c.refineShrink)
  }

  /** A recorded cost is the point's own, and the point is inside the bounds. */
  ghost predicate Honest(cost: Point -> real, b: Bounds, best: Best) {
    InBounds(b, best.point) && (best.cost.Some? ==> best.cost.value == cost(best.point))
  }

  /** No worse than an earlier best. */
  predicate AtMost(best: Best, earlier: Best) {
    earlier.cost.Some? ==> best.cost.Some? && best.cost.value <= earlier.cost.value
  }

  predicate NoCostlier(cost: Point -> real, best: Best, p: Point) {
    best.cost.Some? && best.cost.value <= cost(p)
  }

  lemma FractionInRange(span: real, step: int, steps: int)
    requires 0.0 < span && 0 <= step <= steps && 1 <= steps
    ensures 0.0 <= Offset(span, step, steps) <= span
  {
    var x, n, q := step as real, steps as real, span * step as real / steps as real;
    assert q * n == span * x;
    ProductInRange(span, x, n, span * x);
    if q < 0.0 {
      NegativeProduct(q, n, q * n);
    } else if q > span {
      ProductGap(q, span, n, q * n, span * n);
    }
  }

  lemma ProductInRange(span: real, x: real, n: real, product: real)
    requires 0.0 < span && 0.0 <= x <= n && product == span * x
    ensures 0.0 <= product <= span * n
  {
    assert span * n - span * x == span * (n - x);
  }

  lemma NegativeProduct(q: real, n: real, product: real)
    requires q < 0.0 < n && product == q * n
    ensures product < 0.0
  {
  }

  lemma ProductGap(q: real, span: real, n: real, qn: real, sn: real)
    requires span < q && 0.0 < n && qn == q * n && sn == span * n
    ensures sn < qn
  {
    assert qn - sn == (q - span) * n;
  }

  lemma LatticeInBounds(l: Lattice, i: int, j: int)
    requires l.last >= 1 && l.First() <= i <= l.last && l.First() <= j <= l.last
    requires l.bounds.supremacyMin < l.bounds.supremacyMax && l.bounds.totalMin < l.bounds.totalMax
    ensures InBounds(l.bounds, At(l, i, j))
  {
    if l.Coarse? {
      FractionInRange(l.bounds.supremacyMax - l.bounds.supremacyMin, i, l.last);
      FractionInRange(l.bounds.totalMax - l.bounds.totalMin, j, l.last);
    }
  }

  ghost predicate WellFormed(l: Lattice) {
    l.last >= 1 && l.bounds.supremacyMin < l.bounds.supremacyMax && l.bounds.totalMin < l.bounds.totalMax
  }

  lemma {:induction false} ScanRowKeeps(cost: Point -> real, l: Lattice, best: Best, i: int, m: int)
    requires WellFormed(l) && Honest(cost, l.bounds, best)
    requires l.First() <= i <= l.last && m <= l.last + 1
    ensures var r := ScanRow(cost, l, best, i, m);
            && Honest(cost, l.bounds, r) && AtMost(r, best)
            && forall j :: l.First() <= j < m ==> NoCostlier(cost, r, At(l, i, j))
    decreases m - l.First()
  {
    if m > l.First() {
      ScanRowKeeps(cost, l, best, i, m - 1);
      LatticeInBounds(l, i, m - 1);
    }
  }

  lemma {:induction false} ScanKeeps(cost: Point -> real, l: Lattice, best: Best, n: int)
    requires WellFormed(l) && Honest(cost, l.bounds, best) && n <= l.last + 1
    ensures var r := Scan(cost, l, best, n);
            && Honest(cost, l.bounds, r) && AtMost(r, best)
            && forall i, j :: l.First() <= i < n && l.First() <= j <= l.last ==> NoCostlier(cost, r, At(l, i, j))
    decreases n - l.First()
  {
    if n > l.First() {
      ScanKeeps(cost, l, best, n - 1);
      var before := Scan(cost, l, best, n - 1);
      ScanRowKeeps(cost, l, before, n - 1, l.last + 1);
      var r := Scan(cost, l, best, n);
      forall i, j | l.First() <= i < n && l.First() <= j <= l.last
        ensures NoCostlier(cost, r, At(l, i, j))
      {
        if i < n - 1 {
          assert NoCostlier(cost, before, At(l, i, j));
        }
      }
    }
  }

  /** The lattice of refine round k. */
  function RoundLattice(cost: Point -> real, c: FitConfig, k: nat): Lattice
    requires ValidSearch(c)
  {
    RefineLattice(c, After(cost, c, k))
  }

  lemma {:induction false} AfterIsHonest(cost: Point -> real, c: FitConfig, k: nat)
    requires ValidSearch(c)
    ensures var best := After(cost, c, k).best; best.cost.Some? && Honest(cost, c.bounds, best)
  {
    if k == 0 {
      ScanKeeps(cost, CoarseLattice(c), Best(Midpoint(c.bounds), None), c.coarseSteps + 1);
      assert NoCostlier(cost, After(cost, c, 0).best, At(CoarseLattice(c), 0, 0));
    } else {
      AfterIsHonest(cost, c, k - 1);
      ScanKeeps(cost, RoundLattice(cost, c, k - 1), After(cost, c, k - 1).best, c.refineSteps + 1);
    }
  }

  /** Refining never makes the fit worse. */
  lemma {:induction false} RefiningNeverWorsens(cost: Point -> real, c: FitConfig, k: nat, m: nat)
    requires ValidSearch(c) && k <= m
    ensures AtMost(After(cost, c, m).best, After(cost, c, k).best)
    decreases m
  {
    if k < m {
      RefiningNeverWorsens(cost, c, k, m - 1);
      AfterIsHonest(cost, c, m - 1);
      ScanKeeps(cost, RoundLattice(cost, c, m - 1), After(cost, c, m - 1).best, c.refineSteps + 1);
    }
  }

  /** What the search promises for any cost function: a point inside the bounds, with its true cost, no
      costlier than any point it visited in the coarse pass or in any refine round. */
  lemma SearchIsBestVisited(cost: Point -> real, c: FitConfig)
    requires ValidSearch(c)
    ensures var best := After(cost, c, c.refineRounds).best;
            && InBounds(c.bounds, best.point) && best.cost == Some(cost(best.point))
            && (forall i, j :: 0 <= i <= c.coarseSteps && 0 <= j <= c.coarseSteps ==>
                  best.cost.value <= cost(At(CoarseLattice(c), i, j)))
            && (forall k: nat, i, j :: k < c.refineRounds && -c.refineSteps <= i <= c.refineSteps
                                       && -c.refineSteps <= j <= c.refineSteps ==>
                  best.cost.value <= cost(At(RoundLattice(cost, c, k), i, j)))
  {
    var best := After(cost, c, c.refineRounds).best;
    AfterIsHonest(cost, c, c.refineRounds);
    RefiningNeverWorsens(cost, c, 0, c.refineRounds);
    ScanKeeps(cost, CoarseLattice(c), Best(Midpoint(c.bounds), None), c.coarseSteps + 1);
    forall i, j | 0 <= i <= c.coarseSteps && 0 <= j <= c.coarseSteps
      ensures best.cost.value <= cost(At(CoarseLattice(c), i, j))
    {
      assert NoCostlier(cost, After(cost, c, 0).best, At(CoarseLattice(c), i, j));
    }
    forall k: nat, i, j | k < c.refineRounds && -c.refineSteps <= i <= c.refineSteps
                          && -c.refineSteps <= j <= c.refineSteps
      ensures best.cost.value <= cost(At(RoundLattice(cost, c, k), i, j))
    {
      AfterIsHonest(cost, c, k);
      ScanKeeps(cost, RoundLattice(cost, c, k), After(cost, c, k).best, c.refineSteps + 1);
      RefiningNeverWorsens(cost, c, k + 1, c.refineRounds);
      assert NoCostlier(cost, After(cost, c, k + 1).best, At(RoundLattice(cost, c, k), i, j));
    }
  }

  /** One pass of nested loops over a lattice. */
  method Sweep(cost: Point -> real, l: Lattice, start: Best) returns (best: Best)
    requires l.last >= 1
    ensures best == Scan(cost, l, start, l.last + 1)
  {
    best := start;
    var i := l.First();
    while i <= l.last
      invariant l.First() <= i <= l.last + 1
      invariant best == Scan(cost, l, start, i)
    {
      var j := l.First();
      while j <= l.last
        invariant l.First() <= j <= l.last + 1
        invariant best == ScanRow(cost, l, Scan(cost, l, start, i), i, j)
      {
        var p := At(l, i, j);
        if best.cost.None? || cost(p) < best.cost.value {
          best := Best(p, Some(cost(p)));
        }
        j := j + 1;
      }
      i := i + 1;
    }
  }

  method Minimise(cost: Point -> real, c: FitConfig) returns (best: Best)
    requires ValidSearch(c)
    ensures best == After(cost, c, c.refineRounds).best
  {
    best := Sweep(cost, CoarseLattice(c), Best(Midpoint(c.bounds), None));
    var windowSupremacy := (c.bounds.supremacyMax - c.bounds.supremacyMin) / c.coarseSteps as real;
    var windowTotal := (c.bounds.totalMax - c.bounds.totalMin) / c.coarseSteps as real;
    for round := 0 to c.refineRounds
      invariant After(cost, c, round) == Search(best, windowSupremacy, windowTotal)
    {
      best := Sweep(cost, RefineLattice(c, Search(best, windowSupremacy, windowTotal)), best);
      windowSupremacy, windowTotal := windowSupremacy * c.refineShrink, windowTotal * c.refineShrink;
    }
  }

  // ---------------------------------------------------------------------------------------------
  // The goals-model fit

  function RMax(a: real, b: real): real { if a >= b then a else b }

  function ParamsFor(p: Point, c: FitConfig): ScorelineParams
    requires 0 <= c.maxGoals
  {
    ScorelineParams(RMax(MIN_RATE, (p.total + p.supremacy) / 2.0), RMax(MIN_RATE, (p.total - p.supremacy) / 2.0),
                    c.rho, c.maxGoals)
  }

  /** The weighted squared residuals of the first n legs. */
  function LegCost(g: Grid, observed: seq<ObservedLeg>, n: nat): real
    requires Square(g) && n <= |observed|
  {
    if n == 0 then 0.0
    else
      var residual := LegProb(g, observed[n - 1].leg) - observed[n - 1].marketProb;
      LegCost(g, observed, n - 1) + observed[n - 1].weight * residual * residual
  }

  function PriorCost(prior: Option<Prior>, p: Point): real {
    match prior
    case None => 0.0
    case Some(a) =>
      a.weight * ((p.supremacy - a.supremacy) * (p.supremacy - a.supremacy) + (p.total - a.total) * (p.total - a.total))
  }

  function CostOf(exp: real -> real, observed: seq<ObservedLeg>, c: FitConfig, p: Point): real
    requires 0 <= c.maxGoals
  {
    LegCost(ScorelineGrid(exp, ParamsFor(p, c)), observed, |observed|) + PriorCost(c.prior, p)
  }

  function CostFunction(exp: real -> real, observed: seq<ObservedLeg>, c: FitConfig): Point -> real
    requires 0 <= c.maxGoals
  {
    p => CostOf(exp, observed, c, p)
  }

  predicate ValidConfig(c: FitConfig) {
    && ValidSearch(c) && 1 <= c.maxGoals && 0.0 < c.refineShrink < 1.0 && 0.0 < c.bounds.totalMin
  }

  function Validate(observed: seq<ObservedLeg>, c: FitConfig): Option<FitError> {
    if !ValidConfig(c) then Some(InvalidConfig)
    else if |observed| < 3 then Some(InsufficientLegs)
    else if exists o :: o in observed && o.weight < 0.0 then Some(InvalidConfig)
    else None
  }

  datatype Fit = Fit(point: Point, params: ScorelineParams, cost: real, matrix: Grid,
                               home: real, draw: real, away: real)

  /** Everything a fit promises: the best point the search visited, with the scoreline distribution it stands
      for and that distribution's own match results. */
  ghost predicate IsFit(exp: real -> real, observed: seq<ObservedLeg>, c: FitConfig, fit: Fit)
    requires ValidConfig(c)
  {
    && Best(fit.point, Some(fit.cost)) == After(CostFunction(exp, observed, c), c, c.refineRounds).best
    && fit.params == ParamsFor(fit.point, c)
    && fit.matrix == ScorelineGrid(exp, fit.params)
    && fit.home == LegProb(fit.matrix, MatchHome) && fit.draw == LegProb(fit.matrix, MatchDraw)
    && fit.away == LegProb(fit.matrix, MatchAway)
  }

  lemma FittedMatrixIsDistribution(exp: real -> real, c: FitConfig, p: Point)
    requires IsExp(exp) && ValidConfig(c)
    ensures IsDistribution(ScorelineGrid(exp, ParamsFor(p, c)))
  {
    ScorelineIsDistribution(exp, ParamsFor(p, c));
  }

  function ClampProb(v: real): real { if v < 0.0 then 0.0 else if v > 1.0 then 1.0 else v }

  /** Fit one scoreline distribution to the observed legs. With a valid configuration and enough legs there is
      always a fit. */
  method FitGoalsModel(exp: real -> real, observed: seq<ObservedLeg>, c: FitConfig) returns (r: Result<Fit, FitError>)
    requires IsExp(exp)
    ensures r.Err? <==> Validate(observed, c).Some?
    ensures r.Err? ==> Some(r.error) == Validate(observed, c)
    ensures r.Ok? ==> IsFit(exp, observed, c, r.value) && IsDistribution(r.value.matrix)
    ensures r.Ok? ==> r.value.home + r.value.draw + r.value.away == 1.0
  {
    var invalid := Validate(observed, c);
    if invalid.Some? { return Err(invalid.value); }
    var best := Minimise(CostFunction(exp, observed, c), c);
    AfterIsHonest(CostFunction(exp, observed, c), c, c.refineRounds);
    var params := ParamsFor(best.point, c);
    var matrix := ScorelineMatrix(exp, params);
    var home, draw, away := MatchResultProbs(matrix);
    FittedMatrixIsDistribution(exp, c, best.point);
    LegsArePriced(matrix, MatchHome);
    LegsArePriced(matrix, MatchDraw);
    LegsArePriced(matrix, MatchAway);
    MatchResultsAddUp(matrix);
    r := Ok(Fit(best.point, params, best.cost.value, matrix, ClampProb(home), ClampProb(draw), ClampProb(away)));
  }

  /** A fit's cost is the true cost of its point, which lies inside the bounds, and no visited point has a
      lower one. */
  lemma FitIsBestVisited(exp: real -> real, observed: seq<ObservedLeg>, c: FitConfig, fit: Fit)
    requires ValidConfig(c) && IsFit(exp, observed, c, fit)
    ensures InBounds(c.bounds, fit.point) && fit.cost == CostOf(exp, observed, c, fit.point)
    ensures forall i, j :: 0 <= i <= c.coarseSteps && 0 <= j <= c.coarseSteps ==>
              fit.cost <= CostOf(exp, observed, c, At(CoarseLattice(c), i, j))
    ensures forall k: nat, i, j :: k < c.refineRounds && -c.refineSteps <= i <= c.refineSteps
                                   && -c.refineSteps <= j <= c.refineSteps ==>
              fit.cost <= CostOf(exp, observed, c, At(RoundLattice(CostFunction(exp, observed, c), c, k), i, j))
  {
    var cost := CostFunction(exp, observed, c);
    SearchIsBestVisited(cost, c);
    forall i, j | 0 <= i <= c.coarseSteps && 0 <= j <= c.coarseSteps
      ensures fit.cost <= CostOf(exp, observed, c, At(CoarseLattice(c), i, j))
    {
      assert fit.cost <= cost(At(CoarseLattice(c), i, j));
    }
    forall k: nat, i, j | k < c.refineRounds && -c.refineSteps <= i <= c.refineSteps
                          && -c.refineSteps <= j <= c.refineSteps
      ensures fit.cost <= CostOf(exp, observed, c, At(RoundLattice(cost, c, k), i, j))
    {
      assert fit.cost <= cost(At(RoundLattice(cost, c, k), i, j));
    }
  }
}
