/** Bankroll as a walk over settled PnLs: clamped at zero by settlement, unclamped in the backtest report. */
module Walk {
  import opened Prelude

  /** The unclamped walk after n settlements: start plus their PnLs. */
  function Level(start: int, pnls: seq<int>, n: nat): int
    requires n <= |pnls|
  {
    start + SumTo(pnls, n)
  }

  /** Settlement's bankroll after n settlements: each PnL is added and the result saturates at zero. */
  function Reflected(start: int, pnls: seq<int>, n: nat): int
    requires n <= |pnls|
  {
    if n == 0 then start else Max(0, Reflected(start, pnls, n - 1) + pnls[n - 1])
  }

  /** The lowest level the walk has reached in n settlements, or zero if it never went below. */
  function LowWater(start: int, pnls: seq<int>, n: nat): int
    requires n <= |pnls|
  {
    if n == 0 then Min(0, start) else Min(LowWater(start, pnls, n - 1), Level(start, pnls, n))
  }

  lemma {:induction false} ReflectedAgrees(start: int, a: seq<int>, b: seq<int>, n: nat)
    requires n <= |a| && n <= |b|
    requires forall i :: 0 <= i < n ==> a[i] == b[i]
    ensures Reflected(start, a, n) == Reflected(start, b, n)
  {
    if n > 0 {
      ReflectedAgrees(start, a, b, n - 1);
    }
  }

  /** LowWater is what its name says: the minimum of zero and every prefix level. */
  lemma {:induction false} LowWaterIsMinimum(start: int, pnls: seq<int>, n: nat)
    requires n <= |pnls|
    ensures LowWater(start, pnls, n) <= 0
    ensures forall k :: 0 <= k <= n ==> LowWater(start, pnls, n) <= Level(start, pnls, k)
    ensures LowWater(start, pnls, n) == 0 || exists k :: 0 <= k <= n && LowWater(start, pnls, n) == Level(start, pnls, k)
  {
    if n == 0 {
      assert Level(start, pnls, 0) == start;
    } else {
      LowWaterIsMinimum(start, pnls, n - 1);
    }
  }

  /** Reflected-walk closed form: clamping step by step equals the plain sum lifted by its low water. */
  lemma {:induction false} ReflectedClosedForm(start: int, pnls: seq<int>, n: nat)
    requires 0 <= start && n <= |pnls|
    ensures Reflected(start, pnls, n) == Level(start, pnls, n) - LowWater(start, pnls, n)
  {
    if n > 0 {
      ReflectedClosedForm(start, pnls, n - 1);
    }
  }

  /** The clamped bankroll is never below the plain sum, and equals it exactly when no prefix is negative. */
  lemma ClampMattersIffSomePrefixIsNegative(start: int, pnls: seq<int>, n: nat)
    requires 0 <= start && n <= |pnls|
    ensures Level(start, pnls, n) <= Reflected(start, pnls, n)
    ensures Reflected(start, pnls, n) == Level(start, pnls, n)
       <==> forall k :: 0 <= k <= n ==> 0 <= Level(start, pnls, k)
  {
    ReflectedClosedForm(start, pnls, n);
    LowWaterIsMinimum(start, pnls, n);
  }

  /** The claim "bankroll is start plus PnL" without that guard is false: a ruinous loss, then a win. */
  lemma ClampBreaksPlainSum()
    ensures Reflected(5, [-8, 10], 2) == 10 && Level(5, [-8, 10], 2) == 7
  {
    assert Reflected(5, [-8, 10], 1) == 0;
    assert SumTo([-8, 10], 1) == -8;
  }

  // ---------------------------------------------------------------------------------------------
  // One pass for the equity curve and the maximum drawdown.

  datatype EquityPoint = EquityPoint(index: nat, bankroll: int)

  /** No fall from an earlier to a later level exceeds `bound`, over the first n settlements. */
  ghost predicate DrawdownsWithin(start: int, pnls: seq<int>, n: nat, bound: int)
    requires n <= |pnls|
  {
    forall i, j :: 0 <= i <= j <= n ==> Level(start, pnls, i) - Level(start, pnls, j) <= bound
  }

  ghost predicate DrawdownAttained(start: int, pnls: seq<int>, n: nat, bound: int)
    requires n <= |pnls|
  {
    exists i, j :: 0 <= i <= j <= n && Level(start, pnls, i) - Level(start, pnls, j) == bound
  }

  /** `top` is a highest point of the equity walk over the first n settlements. */
  ghost predicate IsPeak(start: int, pnls: seq<int>, n: nat, top: nat)
    requires n <= |pnls|
  {
    top <= n && forall k :: 0 <= k <= n ==> Level(start, pnls, k) <= Level(start, pnls, top)
  }

  /** The running figures of a one-pass drawdown, after n settlements. */
  ghost predicate WalkedTo(
    start: int, pnls: seq<int>, n: nat, top: nat, bankroll: int, peak: int, maxDrawdown: int)
    requires n <= |pnls|
  {
    && IsPeak(start, pnls, n, top)
    && bankroll == Level(start, pnls, n) && peak == Level(start, pnls, top)
    && DrawdownsWithin(start, pnls, n, maxDrawdown)
    && DrawdownAttained(start, pnls, n, maxDrawdown)
  }

  lemma WalkStarts(start: int, pnls: seq<int>)
    ensures WalkedTo(start, pnls, 0, 0, start, start, 0)
  {
    assert Level(start, pnls, 0) == start;
    assert Level(start, pnls, 0) - Level(start, pnls, 0) == 0;
  }

  /** One more settlement: every new fall ends at the new point, so the running peak decides it. */
  lemma WalkExtends(
    start: int, pnls: seq<int>, n: nat, top: nat, bankroll: int, peak: int, maxDrawdown: int)
    requires n < |pnls| && WalkedTo(start, pnls, n, top, bankroll, peak, maxDrawdown)
    ensures var next := bankroll + pnls[n];
            var high := if next > peak then n + 1 else top;
            WalkedTo(start, pnls, n + 1, high, next, Max(peak, next), Max(maxDrawdown, Max(peak, next) - next))
  {
    var next := bankroll + pnls[n];
    var high := if next > peak then n + 1 else top;
    PeakExtends(start, pnls, n, top, high);
    DrawdownExtends(start, pnls, n, maxDrawdown, high);
  }

  lemma PeakExtends(start: int, pnls: seq<int>, n: nat, top: nat, high: nat)
    requires n < |pnls| && IsPeak(start, pnls, n, top)
    requires high == if Level(start, pnls, n + 1) > Level(start, pnls, top) then n + 1 else top
    ensures IsPeak(start, pnls, n + 1, high)
  {
  }

  lemma DrawdownExtends(start: int, pnls: seq<int>, n: nat, bound: int, top: nat)
    requires n < |pnls| && IsPeak(start, pnls, n + 1, top)
    requires DrawdownsWithin(start, pnls, n, bound) && DrawdownAttained(start, pnls, n, bound)
    ensures var next := Max(bound, Level(start, pnls, top) - Level(start, pnls, n + 1));
            DrawdownsWithin(start, pnls, n + 1, next) && DrawdownAttained(start, pnls, n + 1, next)
  {
    var next := Max(bound, Level(start, pnls, top) - Level(start, pnls, n + 1));
    if next == bound {
      var i, j :| 0 <= i <= j <= n && Level(start, pnls, i) - Level(start, pnls, j) == bound;
      assert 0 <= i <= j <= n + 1;
    } else {
      assert 0 <= top <= n + 1 <= n + 1;
    }
    forall i, j | 0 <= i <= j <= n + 1
      ensures Level(start, pnls, i) - Level(start, pnls, j) <= next
    {
      if j <= n {
        assert Level(start, pnls, i) - Level(start, pnls, j) <= bound;
      }
    }
  }
}
