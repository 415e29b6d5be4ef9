/** That the scoreline matrix is what its model says: truncated Poisson masses with the Dixon-Coles correction of
    the four lowest scorelines, which moves probability between them and keeps both teams' goal distributions. */
module PoissonLaws {
  import opened Scoreline

  function Factorial(k: nat): real { if k == 0 then 1.0 else k as real * Factorial(k - 1) }

  function Power(x: real, k: nat): real { if k == 0 then 1.0 else Power(x, k - 1) * x }

  lemma ClosedStep(m: real, rate: real, k: real, f: real, e: real, p: real, next: real, order: real, power: real)
    requires k != 0.0 && m * f == e * p
    requires next == m * rate / k && order == k * f && power == p * rate
    ensures next * order == e * power
  {
    var nk, mf, ep := next * k, m * f, e * p;
    assert nk == m * rate;
    assert next * order == nk * f;
    assert nk * f == mf * rate;
    assert e * power == ep * rate;
  }

  lemma StepsOf(exp: real -> real, rate: real, k: nat)
    requires 0 < k
    ensures PoissonMass(exp, rate, k) == PoissonMass(exp, rate, k - 1) * rate / k as real
    ensures Factorial(k) == k as real * Factorial(k - 1) && Power(rate, k) == Power(rate, k - 1) * rate
  {
  }

  /** The recurrence computes the Poisson mass e^-rate rate^k / k!. */
  lemma {:induction false} PoissonMassClosedForm(exp: real -> real, rate: real, k: nat)
    ensures PoissonMass(exp, rate, k) * Factorial(k) == exp(-rate) * Power(rate, k)
  {
    if k > 0 {
      hide PoissonMass, Factorial, Power;
      PoissonMassClosedForm(exp, rate, k - 1);
      StepsOf(exp, rate, k);
      ClosedStep(PoissonMass(exp, rate, k - 1), rate, k as real, Factorial(k - 1), exp(-rate), Power(rate, k - 1),
                 PoissonMass(exp, rate, k), Factorial(k), Power(rate, k));
    }
  }

  // ---------------------------------------------------------------------------------------------
  // Cells

  function Positive(x: real): real { if x > 0.0 then x else 0.0 }

  /** The four corrections of Dixon and Coles. */
  function Correction(p: ScorelineParams, i: nat, j: nat): real {
    match (i, j)
    case (0, 0) => 1.0 - p.homeRate * p.awayRate * p.rho
    case (0, 1) => 1.0 + p.homeRate * p.rho
    case (1, 0) => 1.0 + p.awayRate * p.rho
    case (1, 1) => 1.0 - p.rho
    case _ => 1.0
  }

  /** The weight of a scoreline, without the exponentials and factorials. */
  function Weight(p: ScorelineParams, i: nat, j: nat): real {
    Positive(Correction(p, i, j)) * (Power(p.homeRate, i) * Power(p.awayRate, j))
  }

  lemma CorrectedIsPositivePart(tau: real, h: real, a: real)
    requires 0.0 < h && 0.0 < a
    ensures Corrected(tau, h, a) == Positive(tau) * (h * a)
  {
    var ha := h * a;
    PositiveProduct(h, a, ha);
    assert tau * h * a == tau * ha;
    if tau > 0.0 {
      PositiveProduct(tau, ha, tau * ha);
    } else {
      NonPositiveProduct(ha, tau, ha * tau);
    }
  }

  lemma FourProducts(t: real, h: real, fh: real, a: real, fa: real, eh: real, ph: real, ea: real, pa: real)
    requires h * fh == eh * ph && a * fa == ea * pa
    ensures t * (h * a) * (fh * fa) == eh * ea * (t * (ph * pa))
  {
    var x, y := h * fh, a * fa;
    assert h * a * (fh * fa) == x * y;
    assert eh * ea * (ph * pa) == x * y;
    var u, v := h * a * (fh * fa), eh * ea * (ph * pa);
    assert t * (h * a) * (fh * fa) == t * u;
    assert eh * ea * (t * (ph * pa)) == t * v;
  }

  lemma RawCellClosedForm(exp: real -> real, p: ScorelineParams, i: nat, j: nat)
    requires IsExp(exp) && 0.0 < p.homeRate && 0.0 < p.awayRate
    ensures RawCell(exp, p, i, j) * (Factorial(i) * Factorial(j))
        == exp(-p.homeRate) * exp(-p.awayRate) * Weight(p, i, j)
  {
    hide PoissonMass, Factorial, Power, Tau, Correction, Positive, Corrected;
    var h, a := PoissonMass(exp, p.homeRate, i), PoissonMass(exp, p.awayRate, j);
    PoissonMassIsPositive(exp, p.homeRate, i);
    PoissonMassIsPositive(exp, p.awayRate, j);
    TauIsCorrection(p, i, j);
    CorrectedIsPositivePart(Tau(i, j, p.homeRate, p.awayRate, p.rho), h, a);
    PoissonMassClosedForm(exp, p.homeRate, i);
    PoissonMassClosedForm(exp, p.awayRate, j);
    FourProducts(Positive(Correction(p, i, j)), h, Factorial(i), a, Factorial(j), exp(-p.homeRate), Power(p.homeRate,
        i),
                 exp(-p.awayRate), Power(p.awayRate, j));
  }

  lemma TauIsCorrection(p: ScorelineParams, i: nat, j: nat)
    ensures Tau(i, j, p.homeRate, p.awayRate, p.rho) == Correction(p, i, j)
  {
  }

  function Times3(a: real, b: real, c: real): real { a * b * c }

  lemma RatioOfQuotients(x: real, f: real, u: real, y: real, g: real, v: real, e: real, total: real)
    requires total != 0.0 && x * f == e * u && y * g == e * v
    ensures Times3(x / total, f, v) == Times3(y / total, g, u)
  {
    var qx, qy := x / total, y / total;
    assert qx * total == x && qy * total == y;
    var left, right := qx * f * v, qy * g * u;
    assert left * total == x * f * v;
    assert right * total == y * g * u;
    var eu, ev := e * u, e * v;
    assert x * f * v == eu * v && y * g * u == ev * u;
    assert eu * v == ev * u;
    CancelFactor(left, right, total);
  }

  lemma CancelFactor(a: real, b: real, k: real)
    requires k != 0.0 && a * k == b * k
    ensures a == b
  {
    assert (a - b) * k == 0.0;
  }

  lemma GridCell(exp: real -> real, p: ScorelineParams, i: nat, j: nat)
    requires IsExp(exp) && 0.0 < p.homeRate && 0.0 < p.awayRate && 1 <= p.maxGoals
    requires i <= p.maxGoals && j <= p.maxGoals
    ensures 0.0 < Mass(RawGrid(exp, p), Everywhere)
    ensures ScorelineGrid(exp, p)[i][j] == RawCell(exp, p, i, j) / Mass(RawGrid(exp, p), Everywhere)
  {
    hide RawCell, Mass;
    TotalIsPositive(exp, p);
  }

  /** i! j! */
  function Orders(i: nat, j: nat): real { Factorial(i) * Factorial(j) }

  /** Any two cells of the matrix stand in the ratio of rate^goals / goals! on each side, times their corrections. */
  lemma CellRatios(exp: real -> real, p: ScorelineParams, i: nat, j: nat, k: nat, l: nat)
    requires IsExp(exp) && 0.0 < p.homeRate && 0.0 < p.awayRate && 1 <= p.maxGoals
    requires i <= p.maxGoals && j <= p.maxGoals && k <= p.maxGoals && l <= p.maxGoals
    ensures Times3(ScorelineGrid(exp, p)[i][j], Orders(i, j), Weight(p, k, l))
         == Times3(ScorelineGrid(exp, p)[k][l], Orders(k, l), Weight(p, i, j))
  {
    hide Weight, Factorial, RawCell, Mass, ScorelineGrid, Times3;
    GridCell(exp, p, i, j);
    GridCell(exp, p, k, l);
    RawCellClosedForm(exp, p, i, j);
    RawCellClosedForm(exp, p, k, l);
    RatioOfQuotients(RawCell(exp, p, i, j), Orders(i, j), Weight(p, i, j),
                     RawCell(exp, p, k, l), Orders(k, l), Weight(p, k, l),
                     exp(-p.homeRate) * exp(-p.awayRate), Mass(RawGrid(exp, p), Everywhere));
  }

  // ---------------------------------------------------------------------------------------------
  // Marginals

  /** The mass of fewer than n goals. */
  function MassBelow(exp: real -> real, rate: real, n: nat): real {
    if n == 0 then 0.0 else MassBelow(exp, rate, n - 1) + PoissonMass(exp, rate, n - 1)
  }

  lemma SecondMass(exp: real -> real, rate: real)
    ensures PoissonMass(exp, rate, 1) == PoissonMass(exp, rate, 0) * rate
  {
  }

  /** What the corrections add to a scoreline's uncorrected mass. */
  function Shift(exp: real -> real, p: ScorelineParams, i: nat, j: nat): real {
    (Tau(i, j, p.homeRate, p.awayRate, p.rho) - 1.0) * (PoissonMass(exp, p.homeRate, i) * PoissonMass(exp,
        p.awayRate, j))
  }

  lemma ShiftsOf(h0: real, a0: real, lambda: real, mu: real, rho: real)
    ensures var h1, a1 := h0 * lambda, a0 * mu;
            && 0.0 - lambda * mu * rho * (h0 * a0) + lambda * rho * (h0 * a1) == 0.0
            && mu * rho * (h1 * a0) - rho * (h1 * a1) == 0.0
            && 0.0 - lambda * mu * rho * (h0 * a0) + mu * rho * (h1 * a0) == 0.0
            && lambda * rho * (h0 * a1) - rho * (h1 * a1) == 0.0
  {
    var h1, a1 := h0 * lambda, a0 * mu;
    var base := lambda * mu * rho * (h0 * a0);
    assert lambda * rho * (h0 * a1) == base;
    assert mu * rho * (h1 * a0) == base;
    assert rho * (h1 * a1) == base;
  }

  /** Weighted by their masses, the four corrections cancel for each number of home goals and of away goals; no
      other scoreline is corrected. */
  lemma CorrectionsCancel(exp: real -> real, p: ScorelineParams)
    ensures Shift(exp, p, 0, 0) + Shift(exp, p, 0, 1) == 0.0 && Shift(exp, p, 1, 0) + Shift(exp, p, 1, 1) == 0.0
    ensures Shift(exp, p, 0, 0) + Shift(exp, p, 1, 0) == 0.0 && Shift(exp, p, 0, 1) + Shift(exp, p, 1, 1) == 0.0
    ensures forall i, j :: i > 1 || j > 1 ==> Shift(exp, p, i, j) == 0.0
  {
    hide PoissonMass;
    SecondMass(exp, p.homeRate);
    SecondMass(exp, p.awayRate);
    ShiftsOf(PoissonMass(exp, p.homeRate, 0), PoissonMass(exp, p.awayRate, 0), p.homeRate, p.awayRate, p.rho);
  }

  /** No correction is so extreme that its cell is clamped. */
  predicate Unclamped(p: ScorelineParams) {
    0.0 <= Correction(p, 0, 0) && 0.0 <= Correction(p, 0, 1) && 0.0 <= Correction(p, 1, 0) && 0.0 <= Correction(p, 1, 1)
  }

  function Product(a: real, b: real): real { a * b }

  lemma ProductAdds(h: real, a: real, b: real)
    ensures Product(h, a) + Product(h, b) == Product(h, a + b) && Product(h, 0.0) == 0.0
  {
  }

  lemma CellIsShifted(exp: real -> real, p: ScorelineParams, i: nat, j: nat)
    requires IsExp(exp) && 0.0 < p.homeRate && 0.0 < p.awayRate && Unclamped(p)
    ensures RawCell(exp, p, i, j)
         == Product(PoissonMass(exp, p.homeRate, i), PoissonMass(exp, p.awayRate, j)) + Shift(exp, p, i, j)
  {
    hide PoissonMass, Tau, Corrected;
    var h, a := PoissonMass(exp, p.homeRate, i), PoissonMass(exp, p.awayRate, j);
    PoissonMassIsPositive(exp, p.homeRate, i);
    PoissonMassIsPositive(exp, p.awayRate, j);
    TauIsCorrection(p, i, j);
    var t := Tau(i, j, p.homeRate, p.awayRate, p.rho);
    assert 0.0 <= t;
    CorrectedIsPositivePart(t, h, a);
    assert Positive(t) == t;
    var ha := h * a;
    assert t * ha == ha + (t - 1.0) * ha;
  }

  /** A row of the unnormalised matrix holds its own mass of home goals, once both corrected cells are in. */
  lemma {:induction false} RowMass(exp: real -> real, p: ScorelineParams, i: nat, m: nat)
    requires IsExp(exp) && 0.0 < p.homeRate && 0.0 < p.awayRate && Unclamped(p)
    requires i <= p.maxGoals && 2 <= m <= p.maxGoals + 1
    ensures RowSum(RawGrid(exp, p), Everywhere, i, m)
         == Product(PoissonMass(exp, p.homeRate, i), MassBelow(exp, p.awayRate, m))
  {
    hide RawCell, PoissonMass, Shift, Product;
    var raw, h := RawGrid(exp, p), PoissonMass(exp, p.homeRate, i);
    CorrectionsCancel(exp, p);
    CellIsShifted(exp, p, i, m - 1);
    ProductAdds(h, MassBelow(exp, p.awayRate, m - 1), PoissonMass(exp, p.awayRate, m - 1));
    if m == 2 {
      CellIsShifted(exp, p, i, 0);
      assert RowSum(raw, Everywhere, i, 0) == 0.0;
      assert RowSum(raw, Everywhere, i, 1) == RawCell(exp, p, i, 0);
      assert RowSum(raw, Everywhere, i, 2) == RawCell(exp, p, i, 0) + RawCell(exp, p, i, 1);
      assert MassBelow(exp, p.awayRate, 0) == 0.0;
      assert MassBelow(exp, p.awayRate, 1) == PoissonMass(exp, p.awayRate, 0);
      RowShift(exp, p, i);
    } else {
      RowMass(exp, p, i, m - 1);
    }
  }

  lemma RowShift(exp: real -> real, p: ScorelineParams, i: nat)
    ensures Shift(exp, p, i, 0) + Shift(exp, p, i, 1) == 0.0
  {
    CorrectionsCancel(exp, p);
  }

  lemma {:induction false} BlockMass(exp: real -> real, p: ScorelineParams, n: nat)
    requires IsExp(exp) && 0.0 < p.homeRate && 0.0 < p.awayRate && Unclamped(p) && 1 <= p.maxGoals
    requires n <= p.maxGoals + 1
    ensures Block(RawGrid(exp, p), Everywhere, n, p.maxGoals + 1)
         == Product(MassBelow(exp, p.homeRate, n), MassBelow(exp, p.awayRate, p.maxGoals + 1))
  {
    hide RawGrid, PoissonMass, Product, RowSum;
    var a := MassBelow(exp, p.awayRate, p.maxGoals + 1);
    ProductsAdd(0.0, 0.0, a);
    if n > 0 {
      BlockMass(exp, p, n - 1);
      RowMass(exp, p, n - 1, p.maxGoals + 1);
      ProductsAdd(MassBelow(exp, p.homeRate, n - 1), PoissonMass(exp, p.homeRate, n - 1), a);
    }
  }

  lemma ProductsAdd(g: real, h: real, a: real)
    ensures Product(g, a) + Product(h, a) == Product(g + h, a) && Product(0.0, a) == 0.0
  {
  }

  lemma CancelShared(h: real, a: real, g: real, row: real, total: real, scaled: real)
    requires row == Product(h, a) && total == Product(g, a) && total != 0.0 && scaled == row / total
    ensures scaled * g == h
  {
    assert scaled * total == row;
    assert scaled * (g * a) == h * a;
    assert (scaled * g) * a == h * a;
    assert a != 0.0;
    CancelFactor(scaled * g, h, a);
  }

  /** Dixon and Coles keep the marginals: unless a cell is clamped, the matrix gives each number of home goals its
      Poisson probability among the goals counted. */
  lemma HomeGoalsArePoisson(exp: real -> real, p: ScorelineParams, i: nat)
    requires IsExp(exp) && 0.0 < p.homeRate && 0.0 < p.awayRate && Unclamped(p) && 1 <= p.maxGoals && i <= p.maxGoals
    ensures RowSum(ScorelineGrid(exp, p), Everywhere, i, p.maxGoals + 1) * MassBelow(exp, p.homeRate, p.maxGoals + 1)
         == PoissonMass(exp, p.homeRate, i)
  {
    hide RawGrid, PoissonMass, Product, RowSum, MassBelow, Block, DividedGrid, Unclamped;
    var raw, m := RawGrid(exp, p), p.maxGoals + 1;
    TotalIsPositive(exp, p);
    RowMass(exp, p, i, m);
    BlockMass(exp, p, m);
    RowDivides(raw, Mass(raw, Everywhere), Everywhere, i, m);
    CancelShared(PoissonMass(exp, p.homeRate, i), MassBelow(exp, p.awayRate, m), MassBelow(exp, p.homeRate, m),
                 RowSum(raw, Everywhere, i, m), Mass(raw, Everywhere), RowSum(ScorelineGrid(exp, p), Everywhere, i, m));
  }

  /** And likewise each number of away goals. */
  lemma AwayGoalsArePoisson(exp: real -> real, p: ScorelineParams, j: nat)
    requires IsExp(exp) && 0.0 < p.homeRate && 0.0 < p.awayRate && Unclamped(p) && 1 <= p.maxGoals && j <= p.maxGoals
    ensures ColumnSum(ScorelineGrid(exp, p), Everywhere, p.maxGoals + 1, j) * MassBelow(exp, p.awayRate, p.maxGoals + 1)
         == PoissonMass(exp, p.awayRate, j)
  {
    hide ScorelineGrid, PoissonMass, RowSum, ColumnSum, MassBelow;
    assert Unclamped(p.Swapped()) by {
      assert p.homeRate * p.awayRate == p.awayRate * p.homeRate;
    }
    HomeGoalsArePoisson(exp, p.Swapped(), j);
    SwapTransposes(exp, p);
    RowIsColumn(ScorelineGrid(exp, p), Everywhere, Everywhere, j, p.maxGoals + 1);
  }
}
