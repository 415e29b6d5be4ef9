/** The goals model: Poisson masses, the Dixon-Coles scoreline matrix, and the market legs it prices. */
module Scoreline {
  import opened Prelude

  /** Any positive function will do for the exponential. */
  ghost predicate IsExp(exp: real -> real) { forall x: real :: 0.0 < exp(x) }

  datatype ScorelineParams = ScorelineParams(homeRate: real, awayRate: real, rho: real, maxGoals: nat)
  {
    function Swapped(): ScorelineParams { ScorelineParams(awayRate, homeRate, rho, maxGoals) }
  }

  /** A square matrix of reals: grid[homeGoals][awayGoals]. */
  type Grid = seq<seq<real>>

  predicate Square(g: Grid) { forall i :: 0 <= i < |g| ==> |g[i]| == |g| }

  // ---------------------------------------------------------------------------------------------
  // Sums over regions of a grid

  datatype Side = HomeSide | AwaySide

  /** The scorelines a market leg pays on. */
  datatype Region =
    | Everywhere | HomeWins | Draws | AwayWins
    | Over(line: real)
    | Covers(side: Side, handicap: real)
    | Pushes(side: Side, handicap: real)

  function Margin(side: Side, handicap: real, i: nat, j: nat): real {
    (if side.HomeSide? then (i - j) as real else (j - i) as real) + handicap
  }

  predicate In(region: Region, i: nat, j: nat) {
    match region
    case Everywhere => true
    case HomeWins => i > j
    case Draws => i == j
    case AwayWins => i < j
    case Over(line) => (i + j) as real > line
    case Covers(side, handicap) => Margin(side, handicap, i, j) > 0.0
    case Pushes(side, handicap) => Margin(side, handicap, i, j) == 0.0
  }

  function Cell(g: Grid, region: Region, i: nat, j: nat): real
    requires i < |g| && j < |g[i]|
  {
    if In(region, i, j) then g[i][j] else 0.0
  }

  /** The first m cells of row i. */
  function RowSum(g: Grid, region: Region, i: nat, m: nat): real
    requires Square(g) && i < |g| && m <= |g|
  {
    if m == 0 then 0.0 else RowSum(g, region, i, m - 1) + Cell(g, region, i, m - 1)
  }

  /** The first m cells of the first n rows. */
  function Block(g: Grid, region: Region, n: nat, m: nat): real
    requires Square(g) && n <= |g| && m <= |g|
  {
    if n == 0 then 0.0 else Block(g, region, n - 1, m) + RowSum(g, region, n - 1, m)
  }

  function Mass(g: Grid, region: Region): real
    requires Square(g)
  {
    Block(g, region, |g|, |g|)
  }

  predicate NonNegative(g: Grid) { forall i, j :: 0 <= i < |g| && 0 <= j < |g[i]| ==> 0.0 <= g[i][j] }

  /** A wider region has no less mass. */
  lemma {:induction false} RowGrows(g: Grid, a: Region, b: Region, i: nat, m: nat)
    requires Square(g) && NonNegative(g) && i < |g| && m <= |g|
    requires forall k, j :: In(a, k, j) ==> In(b, k, j)
    ensures 0.0 <= RowSum(g, a, i, m) <= RowSum(g, b, i, m)
  {
    if m > 0 {
      RowGrows(g, a, b, i, m - 1);
    }
  }

  lemma {:induction false} BlockGrows(g: Grid, a: Region, b: Region, n: nat, m: nat)
    requires Square(g) && NonNegative(g) && n <= |g| && m <= |g|
    requires forall k, j :: In(a, k, j) ==> In(b, k, j)
    ensures 0.0 <= Block(g, a, n, m) <= Block(g, b, n, m)
  {
    if n > 0 {
      RowGrows(g, a, b, n - 1, m);
      BlockGrows(g, a, b, n - 1, m);
    }
  }

  /** Every scoreline lies in exactly one of the three regions. */
  ghost predicate Partition(a: Region, b: Region, c: Region) {
    forall i, j :: (if In(a, i, j) then 1 else 0) + (if In(b, i, j) then 1 else 0) + (if In(c, i, j) then 1 else 0) == 1
  }

  lemma {:induction false} RowPartition(g: Grid, a: Region, b: Region, c: Region, i: nat, m: nat)
    requires Square(g) && i < |g| && m <= |g| && Partition(a, b, c)
    ensures RowSum(g, a, i, m) + RowSum(g, b, i, m) + RowSum(g, c, i, m) == RowSum(g, Everywhere, i, m)
  {
    if m > 0 {
      RowPartition(g, a, b, c, i, m - 1);
      assert (if In(a, i, m - 1) then 1 else 0) + (if In(b, i, m - 1) then 1 else 0)
             + (if In(c, i, m - 1) then 1 else 0) == 1;
    }
  }

  lemma {:induction false} BlockPartition(g: Grid, a: Region, b: Region, c: Region, n: nat, m: nat)
    requires Square(g) && n <= |g| && m <= |g| && Partition(a, b, c)
    ensures Block(g, a, n, m) + Block(g, b, n, m) + Block(g, c, n, m) == Block(g, Everywhere, n, m)
  {
    if n > 0 {
      RowPartition(g, a, b, c, n - 1, m);
      BlockPartition(g, a, b, c, n - 1, m);
    }
  }

  function Transpose(g: Grid): (t: Grid)
    requires Square(g)
    ensures Square(t) && |t| == |g|
  {
    seq(|g|, i requires 0 <= i < |g| => seq(|g|, j requires 0 <= j < |g| => g[j][i]))
  }

  /** The first n cells of column j. */
  function ColumnSum(g: Grid, region: Region, n: nat, j: nat): real
    requires Square(g) && n <= |g| && j < |g|
  {
    if n == 0 then 0.0 else ColumnSum(g, region, n - 1, j) + Cell(g, region, n - 1, j)
  }

  lemma {:induction false} BlockByColumn(g: Grid, region: Region, n: nat, m: nat)
    requires Square(g) && n <= |g| && m < |g|
    ensures Block(g, region, n, m + 1) == Block(g, region, n, m) + ColumnSum(g, region, n, m)
  {
    if n > 0 {
      BlockByColumn(g, region, n - 1, m);
    }
  }

  ghost predicate Mirrors(a: Region, b: Region) { forall i, j :: In(a, i, j) <==> In(b, j, i) }

  lemma {:induction false} RowIsColumn(g: Grid, a: Region, b: Region, i: nat, m: nat)
    requires Square(g) && Mirrors(a, b) && i < |g| && m <= |g|
    ensures RowSum(Transpose(g), a, i, m) == ColumnSum(g, b, m, i)
  {
    if m > 0 {
      RowIsColumn(g, a, b, i, m - 1);
      assert In(a, i, m - 1) <==> In(b, m - 1, i);
    }
  }

  lemma {:induction false} EmptyBlock(g: Grid, region: Region, n: nat)
    requires Square(g) && n <= |g|
    ensures Block(g, region, n, 0) == 0.0
  {
    if n > 0 {
      EmptyBlock(g, region, n - 1);
    }
  }

  /** Transposing a grid moves the mass of a region to its mirror image. */
  lemma {:induction false} TransposedBlock(g: Grid, a: Region, b: Region, n: nat, m: nat)
    requires Square(g) && Mirrors(a, b) && n <= |g| && m <= |g|
    ensures Block(Transpose(g), a, n, m) == Block(g, b, m, n)
  {
    if n == 0 {
      EmptyBlock(g, b, m);
    } else {
      TransposedBlock(g, a, b, n - 1, m);
      RowIsColumn(g, a, b, n - 1, m);
      BlockByColumn(g, b, m, n - 1);
    }
  }

  function DividedGrid(g: Grid, k: real): (d: Grid)
    requires k != 0.0
    ensures |d| == |g| && forall i :: 0 <= i < |g| ==> |d[i]| == |g[i]|
  {
    seq(|g|, i requires 0 <= i < |g| => seq(|g[i]|, j requires 0 <= j < |g[i]| => g[i][j] / k))
  }

  lemma {:induction false} RowDivides(g: Grid, k: real, region: Region, i: nat, m: nat)
    requires Square(g) && k != 0.0 && i < |g| && m <= |g|
    ensures RowSum(DividedGrid(g, k), region, i, m) == RowSum(g, region, i, m) / k
  {
    if m > 0 {
      RowDivides(g, k, region, i, m - 1);
      QuotientAdds(RowSum(g, region, i, m - 1), Cell(g, region, i, m - 1), k);
    }
  }

  lemma QuotientAdds(a: real, b: real, k: real)
    requires k != 0.0
    ensures (a + b) / k == a / k + b / k && 0.0 / k == 0.0
  {
  }

  lemma {:induction false} BlockDivides(g: Grid, k: real, region: Region, n: nat, m: nat)
    requires Square(g) && k != 0.0 && n <= |g| && m <= |g|
    ensures Block(DividedGrid(g, k), region, n, m) == Block(g, region, n, m) / k
  {
    QuotientAdds(0.0, 0.0, k);
    if n > 0 {
      RowDivides(g, k, region, n - 1, m);
      BlockDivides(g, k, region, n - 1, m);
      QuotientAdds(Block(g, region, n - 1, m), RowSum(g, region, n - 1, m), k);
    }
  }

  // ---------------------------------------------------------------------------------------------
  // The scoreline distribution

  function NextMass(mass: real, rate: real, goals: nat): real
    requires goals > 0
  {
    mass * rate / goals as real
  }

  /** P(goals) for a Poisson rate, by the forward recurrence. */
  function PoissonMass(exp: real -> real, rate: real, goals: nat): real {
    if goals == 0 then exp(-rate) else NextMass(PoissonMass(exp, rate, goals - 1), rate, goals)
  }

  lemma {:induction false} PoissonMassIsPositive(exp: real -> real, rate: real, goals: nat)
    requires IsExp(exp) && 0.0 < rate
    ensures 0.0 < PoissonMass(exp, rate, goals)
  {
    if goals > 0 {
      PoissonMassIsPositive(exp, rate, goals - 1);
      PositiveStep(PoissonMass(exp, rate, goals - 1), rate, goals as real);
    }
  }

  lemma PositiveStep(a: real, b: real, k: real)
    requires 0.0 < a && 0.0 < b && 0.0 < k
    ensures 0.0 < a * b / k
  {
    var ab := a * b;
    PositiveProduct(a, b, ab);
    assert ab / k * k == ab;
  }

  lemma PositiveProduct(a: real, b: real, ab: real)
    requires 0.0 < a && 0.0 < b && ab == a * b
    ensures 0.0 < ab
  {
  }

  /** The Dixon-Coles adjustment of the four lowest scorelines. */
  function Tau(i: nat, j: nat, homeRate: real, awayRate: real, rho: real): real {
    if i == 0 && j == 0 then 1.0 - homeRate * awayRate * rho
    else if i == 0 && j == 1 then 1.0 + homeRate * rho
    else if i == 1 && j == 0 then 1.0 + awayRate * rho
    else if i == 1 && j == 1 then 1.0 - rho
    else 1.0
  }

  /** The corrected mass of a scoreline, clamped at zero. */
  function Corrected(tau: real, homeMass: real, awayMass: real): (c: real)
    ensures 0.0 <= c
  {
    var corrected := tau * homeMass * awayMass;
    if corrected > 0.0 then corrected else 0.0
  }

  function RawCell(exp: real -> real, p: ScorelineParams, i: nat, j: nat): real {
    Corrected(Tau(i, j, p.homeRate, p.awayRate, p.rho), PoissonMass(exp, p.homeRate, i), PoissonMass(exp, p.awayRate, j))
  }

  function RawGrid(exp: real -> real, p: ScorelineParams): (g: Grid)
    ensures Square(g) && |g| == p.maxGoals + 1 && NonNegative(g)
  {
    seq(p.maxGoals + 1, i requires 0 <= i <= p.maxGoals =>
      seq(p.maxGoals + 1, j requires 0 <= j <= p.maxGoals => RawCell(exp, p, i, j)))
  }

  /** The renormalised scoreline matrix. */
  function ScorelineGrid(exp: real -> real, p: ScorelineParams): (g: Grid)
    ensures Square(g) && |g| == p.maxGoals + 1
  {
    var raw := RawGrid(exp, p);
    var total := Mass(raw, Everywhere);
    if total > 0.0 then DividedGrid(raw, total) else raw
  }

  lemma {:induction false} RowHolds(g: Grid, i: nat, j: nat, m: nat)
    requires Square(g) && NonNegative(g) && i < |g| && m <= |g|
    ensures 0.0 <= RowSum(g, Everywhere, i, m)
    ensures j < m ==> g[i][j] <= RowSum(g, Everywhere, i, m)
  {
    if m > 0 {
      RowHolds(g, i, j, m - 1);
    }
  }

  lemma {:induction false} BlockHolds(g: Grid, i: nat, j: nat, n: nat)
    requires Square(g) && NonNegative(g) && n <= |g| && j < |g|
    ensures 0.0 <= Block(g, Everywhere, n, |g|)
    ensures i < n ==> g[i][j] <= Block(g, Everywhere, n, |g|)
  {
    if n > 0 {
      RowHolds(g, n - 1, j, |g|);
      BlockHolds(g, i, j, n - 1);
    }
  }

  lemma ScaledMassIsPositive(tau: real, home: real, away: real)
    requires 0.0 < tau && 0.0 < home && 0.0 < away
    ensures 0.0 < tau * home * away
  {
    var th := tau * home;
    PositiveProduct(tau, home, th);
    PositiveProduct(th, away, th * away);
  }

  /** Whatever rho does to the low scorelines, 0-0 or 0-1 keeps mass, so the total is positive. */
  lemma TotalIsPositive(exp: real -> real, p: ScorelineParams)
    requires IsExp(exp) && 0.0 < p.homeRate && 0.0 < p.awayRate && 1 <= p.maxGoals
    ensures 0.0 < Mass(RawGrid(exp, p), Everywhere)
  {
    var g := RawGrid(exp, p);
    PoissonMassIsPositive(exp, p.homeRate, 0);
    PoissonMassIsPositive(exp, p.awayRate, 0);
    PoissonMassIsPositive(exp, p.awayRate, 1);
    TauKeepsMass(p.homeRate, p.awayRate, p.rho);
    var j: nat := if 0.0 < Tau(0, 0, p.homeRate, p.awayRate, p.rho) then 0 else 1;
    ScaledMassIsPositive(Tau(0, j, p.homeRate, p.awayRate, p.rho), PoissonMass(exp, p.homeRate, 0),
                         PoissonMass(exp, p.awayRate, j));
    assert 0.0 < RawCell(exp, p, 0, j) == g[0][j];
    BlockHolds(g, 0, j, |g|);
  }

  lemma TauKeepsMass(homeRate: real, awayRate: real, rho: real)
    requires 0.0 < homeRate && 0.0 < awayRate
    ensures 0.0 < Tau(0, 0, homeRate, awayRate, rho) || 0.0 < Tau(0, 1, homeRate, awayRate, rho)
  {
    var both := homeRate * awayRate;
    PositiveProduct(homeRate, awayRate, both);
    if rho <= 0.0 {
      NonPositiveProduct(both, rho, both * rho);
    } else {
      PositiveProduct(homeRate, rho, homeRate * rho);
    }
  }

  lemma NonPositiveProduct(a: real, b: real, ab: real)
    requires 0.0 < a && b <= 0.0 && ab == a * b
    ensures ab <= 0.0
  {
  }

  lemma QuotientIsNonNegative(a: real, k: real)
    requires 0.0 <= a && 0.0 < k
    ensures 0.0 <= a / k
  {
    assert a / k * k == a;
  }

  /** Entries are non-negative and sum to 1, for every rho. */
  lemma ScorelineIsDistribution(exp: real -> real, p: ScorelineParams)
    requires IsExp(exp) && 0.0 < p.homeRate && 0.0 < p.awayRate && 1 <= p.maxGoals
    ensures NonNegative(ScorelineGrid(exp, p)) && Mass(ScorelineGrid(exp, p), Everywhere) == 1.0
  {
    var raw := RawGrid(exp, p);
    var total := Mass(raw, Everywhere);
    TotalIsPositive(exp, p);
    BlockDivides(raw, total, Everywhere, |raw|, |raw|);
    DividedIsNonNegative(raw, total);
    assert total / total == 1.0;
  }

  lemma DividedIsNonNegative(g: Grid, k: real)
    requires NonNegative(g) && 0.0 < k
    ensures NonNegative(DividedGrid(g, k))
  {
    forall i, j | 0 <= i < |g| && 0 <= j < |g[i]|
      ensures 0.0 <= g[i][j] / k
    {
      QuotientIsNonNegative(g[i][j], k);
    }
  }

  lemma RawCellSwaps(exp: real -> real, p: ScorelineParams, i: nat, j: nat)
    ensures RawCell(exp, p.Swapped(), i, j) == RawCell(exp, p, j, i)
  {
    var tau := Tau(j, i, p.homeRate, p.awayRate, p.rho);
    assert Tau(i, j, p.awayRate, p.homeRate, p.rho) == tau;
    var a, h := PoissonMass(exp, p.awayRate, i), PoissonMass(exp, p.homeRate, j);
    assert tau * a * h == tau * h * a;
  }

  /** Swapping the rates transposes the matrix. */
  lemma SwapTransposes(exp: real -> real, p: ScorelineParams)
    ensures ScorelineGrid(exp, p.Swapped()) == Transpose(ScorelineGrid(exp, p))
  {
    var raw := RawGrid(exp, p);
    forall i, j | 0 <= i <= p.maxGoals && 0 <= j <= p.maxGoals
      ensures RawGrid(exp, p.Swapped())[i][j] == Transpose(raw)[i][j]
    {
      RawCellSwaps(exp, p, i, j);
    }
    SameGrid(RawGrid(exp, p.Swapped()), Transpose(raw));
    TransposedBlock(raw, Everywhere, Everywhere, |raw|, |raw|);
    if Mass(raw, Everywhere) > 0.0 {
      var total := Mass(raw, Everywhere);
      SameGrid(DividedGrid(Transpose(raw), total), Transpose(DividedGrid(raw, total)));
    }
  }

  lemma SameGrid(a: Grid, b: Grid)
    requires Square(a) && Square(b) && |a| == |b|
    requires forall i, j :: 0 <= i < |a| && 0 <= j < |a| ==> a[i][j] == b[i][j]
    ensures a == b
  {
    assert forall i :: 0 <= i < |a| ==> a[i] == b[i];
  }

  // ---------------------------------------------------------------------------------------------
  // Market legs

  datatype Leg =
    | MatchHome | MatchDraw | MatchAway
    | OverLeg(line: real) | UnderLeg(line: real)
    | AhHome(handicap: real) | AhAway(handicap: real)

  /** A leg's model probability; a handicap push counts half. */
  function LegProb(g: Grid, leg: Leg): real
    requires Square(g)
  {
    match leg
    case MatchHome => Mass(g, HomeWins)
    case MatchDraw => Mass(g, Draws)
    case MatchAway => Mass(g, AwayWins)
    case OverLeg(line) => Mass(g, Over(line))
    case UnderLeg(line) => 1.0 - Mass(g, Over(line))
    case AhHome(h) => Mass(g, Covers(HomeSide, h)) + 0.5 * Mass(g, Pushes(HomeSide, h))
    case AhAway(h) => Mass(g, Covers(AwaySide, h)) + 0.5 * Mass(g, Pushes(AwaySide, h))
  }

  ghost predicate IsDistribution(g: Grid) { Square(g) && NonNegative(g) && Mass(g, Everywhere) == 1.0 }

  /** Home, draw and away are all there is. */
  lemma MatchResultsAddUp(g: Grid)
    requires IsDistribution(g)
    ensures LegProb(g, MatchHome) + LegProb(g, MatchDraw) + LegProb(g, MatchAway) == 1.0
  {
    BlockPartition(g, HomeWins, Draws, AwayWins, |g|, |g|);
  }

  /** A handicap bet and its opposite are worth one stake together, pushes included. */
  lemma HandicapsAddUp(g: Grid, h: real)
    requires IsDistribution(g)
    ensures LegProb(g, AhHome(h)) + LegProb(g, AhAway(-h)) == 1.0
  {
    BlockPartition(g, Covers(HomeSide, h), Pushes(HomeSide, h), Covers(AwaySide, -h), |g|, |g|);
    BlockGrows(g, Pushes(HomeSide, h), Pushes(AwaySide, -h), |g|, |g|);
    BlockGrows(g, Pushes(AwaySide, -h), Pushes(HomeSide, h), |g|, |g|);
  }

  /** A higher line is never likelier to be beaten. */
  lemma OverIsMonotone(g: Grid, low: real, high: real)
    requires IsDistribution(g) && low <= high
    ensures 0.0 <= LegProb(g, OverLeg(high)) <= LegProb(g, OverLeg(low)) <= 1.0
  {
    BlockGrows(g, Over(high), Over(low), |g|, |g|);
    BlockGrows(g, Over(low), Everywhere, |g|, |g|);
  }

  /** A more generous handicap is never less likely to be covered. */
  lemma HandicapIsMonotone(g: Grid, low: real, high: real)
    requires IsDistribution(g) && low <= high
    ensures LegProb(g, AhHome(low)) <= LegProb(g, AhHome(high))
  {
    if low < high {
      CoverOrPush(g, low, high);
      BlockGrows(g, Covers(HomeSide, low), Covers(HomeSide, high), |g|, |g|);
      BlockGrows(g, Pushes(HomeSide, high), Everywhere, |g|, |g|);
    }
  }

  /** What covers or pushes at a lower handicap covers outright at a higher one. */
  lemma CoverOrPush(g: Grid, low: real, high: real)
    requires IsDistribution(g) && low < high
    ensures Mass(g, Covers(HomeSide, low)) + Mass(g, Pushes(HomeSide, low)) <= Mass(g, Covers(HomeSide, high))
  {
    BlockPartition(g, Covers(HomeSide, low), Pushes(HomeSide, low), Covers(AwaySide, -low), |g|, |g|);
    BlockPartition(g, Covers(HomeSide, high), Pushes(HomeSide, high), Covers(AwaySide, -high), |g|, |g|);
    NotCovered(g, low, high, |g|);
  }

  lemma {:induction false} NotCoveredRow(g: Grid, low: real, high: real, i: nat, m: nat)
    requires Square(g) && NonNegative(g) && low < high && i < |g| && m <= |g|
    ensures RowSum(g, Pushes(HomeSide, high), i, m) + RowSum(g, Covers(AwaySide, -high), i, m)
         <= RowSum(g, Covers(AwaySide, -low), i, m)
  {
    if m > 0 {
      NotCoveredRow(g, low, high, i, m - 1);
    }
  }

  lemma {:induction false} NotCovered(g: Grid, low: real, high: real, n: nat)
    requires Square(g) && NonNegative(g) && low < high && n <= |g|
    ensures Block(g, Pushes(HomeSide, high), n, |g|) + Block(g, Covers(AwaySide, -high), n, |g|)
         <= Block(g, Covers(AwaySide, -low), n, |g|)
  {
    if n > 0 {
      NotCovered(g, low, high, n - 1);
      NotCoveredRow(g, low, high, n - 1, |g|);
    }
  }

  /** Every leg is priced with a probability. */
  lemma LegsArePriced(g: Grid, leg: Leg)
    requires IsDistribution(g)
    ensures 0.0 <= LegProb(g, leg) <= 1.0
  {
    match leg
    case MatchHome => BlockGrows(g, HomeWins, Everywhere, |g|, |g|);
    case MatchDraw => BlockGrows(g, Draws, Everywhere, |g|, |g|);
    case MatchAway => BlockGrows(g, AwayWins, Everywhere, |g|, |g|);
    case OverLeg(line) => BlockGrows(g, Over(line), Everywhere, |g|, |g|);
    case UnderLeg(line) => BlockGrows(g, Over(line), Everywhere, |g|, |g|);
    case AhHome(h) => CoversAreNonNegative(g, h); HandicapsAddUp(g, h);
    case AhAway(h) => CoversAreNonNegative(g, -h); HandicapsAddUp(g, -h);
  }

  lemma CoversAreNonNegative(g: Grid, h: real)
    requires IsDistribution(g)
    ensures 0.0 <= LegProb(g, AhHome(h)) && 0.0 <= LegProb(g, AhAway(-h))
  {
    BlockGrows(g, Covers(HomeSide, h), Everywhere, |g|, |g|);
    BlockGrows(g, Pushes(HomeSide, h), Everywhere, |g|, |g|);
    BlockGrows(g, Covers(AwaySide, -h), Everywhere, |g|, |g|);
    BlockGrows(g, Pushes(AwaySide, -h), Everywhere, |g|, |g|);
  }

  /** The same leg seen from the other team. */
  function Mirrored(leg: Leg): Leg {
    match leg
    case MatchHome => MatchAway
    case MatchAway => MatchHome
    case AhHome(h) => AhAway(h)
    case AhAway(h) => AhHome(h)
    case _ => leg
  }

  lemma TransposedMass(g: Grid, a: Region, b: Region)
    requires Square(g) && Mirrors(a, b)
    ensures Mass(Transpose(g), a) == Mass(g, b)
  {
    TransposedBlock(g, a, b, |g|, |g|);
  }

  /** Swapping the scoring rates swaps home and away on every leg and leaves draws and totals alone. */
  lemma SwapMirrorsLegs(exp: real -> real, p: ScorelineParams, leg: Leg)
    ensures LegProb(ScorelineGrid(exp, p.Swapped()), leg) == LegProb(ScorelineGrid(exp, p), Mirrored(leg))
  {
    var g := ScorelineGrid(exp, p);
    SwapTransposes(exp, p);
    match leg
    case MatchHome => TransposedMass(g, HomeWins, AwayWins);
    case MatchDraw => TransposedMass(g, Draws, Draws);
    case MatchAway => TransposedMass(g, AwayWins, HomeWins);
    case OverLeg(line) => TransposedMass(g, Over(line), Over(line));
    case UnderLeg(line) => TransposedMass(g, Over(line), Over(line));
    case AhHome(h) =>
      TransposedMass(g, Covers(HomeSide, h), Covers(AwaySide, h));
      TransposedMass(g, Pushes(HomeSide, h), Pushes(AwaySide, h));
    case AhAway(h) =>
      TransposedMass(g, Covers(AwaySide, h), Covers(HomeSide, h));
      TransposedMass(g, Pushes(AwaySide, h), Pushes(HomeSide, h));
  }

  // ---------------------------------------------------------------------------------------------
  // The loops

  /** The masses of 0, 1, ..., maxGoals goals. */
  function PoissonMasses(exp: real -> real, rate: real, maxGoals: nat): (masses: seq<real>)
    ensures |masses| == maxGoals + 1
  {
    seq(maxGoals + 1, k requires 0 <= k <= maxGoals => PoissonMass(exp, rate, k))
  }

  method PoissonPmf(exp: real -> real, rate: real, maxGoals: nat) returns (masses: array<real>)
    ensures fresh(masses) && masses[..] == PoissonMasses(exp, rate, maxGoals)
  {
    masses := new real[maxGoals + 1](_ => 0.0);
    ghost var all := PoissonMasses(exp, rate, maxGoals);
    var mass := exp(-rate);
    masses[0] := mass;
    for goals := 1 to maxGoals + 1
      invariant mass == all[goals - 1]
      invariant masses[..goals] == all[..goals]
    {
      mass := NextMass(mass, rate, goals);
      masses[goals] := mass;
    }
  }

  /** Fill one row of the unnormalised matrix and add its mass to the running total. */
  method FillRow(
    exp: real -> real, p: ScorelineParams, home: array<real>, away: array<real>, i: nat, total: real)
    returns (row: seq<real>, newTotal: real)
    requires i <= p.maxGoals && home[..] == PoissonMasses(exp, p.homeRate, p.maxGoals)
    requires away[..] == PoissonMasses(exp, p.awayRate, p.maxGoals)
    ensures row == RawGrid(exp, p)[i]
    ensures newTotal == total + RowSum(RawGrid(exp, p), Everywhere, i, p.maxGoals + 1)
  {
    ghost var raw := RawGrid(exp, p);
    row, newTotal := [], total;
    for j := 0 to p.maxGoals + 1
      invariant row == raw[i][..j]
      invariant newTotal == total + RowSum(raw, Everywhere, i, j)
    {
      assert home[i] == home[..][i] && away[j] == away[..][j];
      var nonNegative := Corrected(Tau(i, j, p.homeRate, p.awayRate, p.rho), home[i], away[j]);
      assert nonNegative == RawCell(exp, p, i, j) == raw[i][j];
      row := row + [nonNegative];
      newTotal := newTotal + nonNegative;
    }
  }

  /** Build the matrix row by row, then rescale it. */
  method ScorelineMatrix(exp: real -> real, p: ScorelineParams) returns (matrix: Grid)
    ensures matrix == ScorelineGrid(exp, p)
  {
    hide PoissonMasses;
    var home := PoissonPmf(exp, p.homeRate, p.maxGoals);
    var away := PoissonPmf(exp, p.awayRate, p.maxGoals);
    ghost var raw := RawGrid(exp, p);
    matrix := [];
    var total := 0.0;
    for i := 0 to p.maxGoals + 1
      invariant matrix == raw[..i]
      invariant total == Block(raw, Everywhere, i, p.maxGoals + 1)
      invariant home[..] == PoissonMasses(exp, p.homeRate, p.maxGoals)
      invariant away[..] == PoissonMasses(exp, p.awayRate, p.maxGoals)
    {
      var row;
      row, total := FillRow(exp, p, home, away, i, total);
      matrix := matrix + [row];
    }
    assert matrix == raw;
    if total > 0.0 {
      matrix := Rescale(matrix, total);
    }
  }

  method Rescale(raw: Grid, total: real) returns (matrix: Grid)
    requires total > 0.0
    ensures matrix == DividedGrid(raw, total)
  {
    matrix := raw;
    ghost var scaled := DividedGrid(raw, total);
    for i := 0 to |raw|
      invariant |matrix| == |raw|
      invariant forall k :: 0 <= k < i ==> matrix[k] == scaled[k]
      invariant forall k :: i <= k < |raw| ==> matrix[k] == raw[k]
    {
      var row := matrix[i];
      for j := 0 to |row|
        invariant |row| == |raw[i]|
        invariant forall k :: 0 <= k < j ==> row[k] == raw[i][k] / total
        invariant forall k :: j <= k < |row| ==> row[k] == raw[i][k]
      {
        row := row[j := row[j] / total];
      }
      assert row == scaled[i];
      matrix := matrix[i := row];
    }
  }

  method MatchResultProbs(matrix: Grid) returns (home: real, draw: real, away: real)
    requires Square(matrix)
    ensures home == Mass(matrix, HomeWins) && draw == Mass(matrix, Draws) && away == Mass(matrix, AwayWins)
  {
    home, draw, away := 0.0, 0.0, 0.0;
    var n := |matrix|;
    for i := 0 to n
      invariant home == Block(matrix, HomeWins, i, n)
      invariant draw == Block(matrix, Draws, i, n)
      invariant away == Block(matrix, AwayWins, i, n)
    {
      for j := 0 to n
        invariant home == Block(matrix, HomeWins, i, n) + RowSum(matrix, HomeWins, i, j)
        invariant draw == Block(matrix, Draws, i, n) + RowSum(matrix, Draws, i, j)
        invariant away == Block(matrix, AwayWins, i, n) + RowSum(matrix, AwayWins, i, j)
      {
        if i > j {
          home := home + matrix[i][j];
        } else if i == j {
          draw := draw + matrix[i][j];
        } else {
          away := away + matrix[i][j];
        }
      }
    }
  }

  method OverProb(matrix: Grid, line: real) returns (over: real)
    requires Square(matrix)
    ensures over == Mass(matrix, Over(line))
  {
    over := 0.0;
    var n := |matrix|;
    for i := 0 to n
      invariant over == Block(matrix, Over(line), i, n)
    {
      for j := 0 to n
        invariant over == Block(matrix, Over(line), i, n) + RowSum(matrix, Over(line), i, j)
      {
        if (i + j) as real > line {
          over := over + matrix[i][j];
        }
      }
    }
  }

  method HandicapCover(matrix: Grid, handicap: real, side: Side) returns (win: real, push: real)
    requires Square(matrix)
    ensures win == Mass(matrix, Covers(side, handicap)) && push == Mass(matrix, Pushes(side, handicap))
  {
    win, push := 0.0, 0.0;
    var n := |matrix|;
    ghost var covers, pushes := Covers(side, handicap), Pushes(side, handicap);
    for i := 0 to n
      invariant win == Block(matrix, covers, i, n) && push == Block(matrix, pushes, i, n)
    {
      for j := 0 to n
        invariant win == Block(matrix, covers, i, n) + RowSum(matrix, covers, i, j)
        invariant push == Block(matrix, pushes, i, n) + RowSum(matrix, pushes, i, j)
      {
        var difference := if side.HomeSide? then i - j else j - i;
        var margin := difference as real + handicap;
        if margin > 0.0 {
          win := win + matrix[i][j];
        } else if margin == 0.0 {
          push := push + matrix[i][j];
        }
      }
    }
  }
}
