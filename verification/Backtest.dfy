/** The backtest report's money figures, and how they relate to the run that produced them. */
module Backtest {
  import opened Prelude
  import opened Domain
  import opened Walk
  import opened PipelineModel
  import opened Pipeline
  import opened PipelineProofs

  datatype BacktestMetrics = BacktestMetrics(
    bets: nat, wins: nat, losses: nat, totalStaked: int, totalPnl: int,
    equityCurve: seq<EquityPoint>, maxDrawdown: int, finalBankroll: int)

  function Stakes(settlements: seq<SettledPosition>): seq<int> {
    seq(|settlements|, i requires 0 <= i < |settlements| => settlements[i].decision.stake)
  }

  function Wins(settlements: seq<SettledPosition>, n: nat): (w: nat)
    requires n <= |settlements|
    ensures w <= n
  {
    if n == 0 then 0 else Wins(settlements, n - 1) + if settlements[n - 1].won then 1 else 0
  }

  /** The count is the number of log positions that won. */
  lemma {:induction false} WinsCountsWinners(settlements: seq<SettledPosition>, n: nat)
    requires n <= |settlements|
    ensures Wins(settlements, n) == |set i: nat | i < n && settlements[i].won|
  {
    if n > 0 {
      WinsCountsWinners(settlements, n - 1);
      var before := set i: nat | i < n - 1 && settlements[i].won;
      var after := set i: nat | i < n && settlements[i].won;
      if settlements[n - 1].won {
        assert after == before + {n - 1};
      } else {
        assert after == before;
      }
    }
  }

  /** The running counts after the first n settlements. */
  ghost predicate Tallied(settlements: seq<SettledPosition>, n: nat, wins: int, totalStaked: int, totalPnl: int)
    requires n <= |settlements|
  {
    && wins == Wins(settlements, n)
    && totalStaked == SumTo(Stakes(settlements), n)
    && totalPnl == SumTo(Pnls(settlements), n)
  }

  lemma TallyExtends(settlements: seq<SettledPosition>, n: nat, wins: int, totalStaked: int, totalPnl: int)
    requires n < |settlements| && Tallied(settlements, n, wins, totalStaked, totalPnl)
    ensures var next := settlements[n];
            Tallied(settlements, n + 1, wins + (if next.won then 1 else 0), totalStaked + next.decision.stake,
                    totalPnl + next.pnl)
  {
  }

  /** The first n points of an equity curve are the unclamped walk. */
  ghost predicate CurveIsWalk(curve: seq<EquityPoint>, start: int, pnls: seq<int>) {
    && |curve| <= |pnls|
    && forall k :: 0 <= k < |curve| ==> curve[k] == EquityPoint(k, Level(start, pnls, k + 1))
  }

  lemma CurveExtends(curve: seq<EquityPoint>, start: int, pnls: seq<int>, bankroll: int)
    requires CurveIsWalk(curve, start, pnls) && |curve| < |pnls|
    requires bankroll == Level(start, pnls, |curve| + 1)
    ensures CurveIsWalk(curve + [EquityPoint(|curve|, bankroll)], start, pnls)
  {
  }

  /** Move the running figures past one settlement. */
  method Advance(
    start: int, ghost pnls: seq<int>, ghost n: nat, ghost top: nat, bankroll: int, peak: int, maxDrawdown: int, pnl: int)
    returns (newBankroll: int, newPeak: int, newDrawdown: int, ghost newTop: nat)
    requires n < |pnls| && pnl == pnls[n] && WalkedTo(start, pnls, n, top, bankroll, peak, maxDrawdown)
    ensures WalkedTo(start, pnls, n + 1, newTop, newBankroll, newPeak, newDrawdown)
  {
    WalkExtends(start, pnls, n, top, bankroll, peak, maxDrawdown);
    newBankroll, newPeak, newDrawdown, newTop := bankroll + pnl, peak, maxDrawdown, top;
    if newBankroll > newPeak {
      newPeak, newTop := newBankroll, n + 1;
    }
    var drawdown := newPeak - newBankroll;
    if drawdown > newDrawdown {
      newDrawdown := drawdown;
    }
  }

  /** One pass over a settlement log. The single running peak finds the largest fall between any two
      points of the equity walk in time order, start included. */
  method ComputeBacktestMetrics(start: int, settlements: seq<SettledPosition>) returns (m: BacktestMetrics)
    ensures m.bets == |settlements| && m.wins == Wins(settlements, |settlements|) && m.losses == m.bets - m.wins
    ensures m.totalStaked == Sum(Stakes(settlements)) && m.totalPnl == Sum(Pnls(settlements))
    ensures m.finalBankroll == Level(start, Pnls(settlements), |settlements|)
    ensures |m.equityCurve| == |settlements| && CurveIsWalk(m.equityCurve, start, Pnls(settlements))
    ensures DrawdownsWithin(start, Pnls(settlements), |settlements|, m.maxDrawdown)
    ensures DrawdownAttained(start, Pnls(settlements), |settlements|, m.maxDrawdown)
  {
    hide Level, Wins;
    ghost var pnls := Pnls(settlements);
    var wins, totalStaked, totalPnl, index := 0, 0, 0, 0;
    var bankroll, peak, maxDrawdown := start, start, 0;
    var equityCurve := [];
    ghost var top := 0;
    WalkStarts(start, pnls);
    while index < |settlements|
      invariant 0 <= index <= |settlements| && |equityCurve| == index
      invariant Tallied(settlements, index, wins, totalStaked, totalPnl)
      invariant CurveIsWalk(equityCurve, start, pnls)
      invariant WalkedTo(start, pnls, index, top, bankroll, peak, maxDrawdown)
    {
      var settlement := settlements[index];
      TallyExtends(settlements, index, wins, totalStaked, totalPnl);
      if settlement.won {
        wins := wins + 1;
      }
      totalStaked := totalStaked + settlement.decision.stake;
      totalPnl := totalPnl + settlement.pnl;
      assert Tallied(settlements, index + 1, wins, totalStaked, totalPnl);
      bankroll, peak, maxDrawdown, top := Advance(start, pnls, index, top, bankroll, peak, maxDrawdown, settlement.pnl);
      CurveExtends(equityCurve, start, pnls, bankroll);
      equityCurve := equityCurve + [EquityPoint(index, bankroll)];
      index := index + 1;
    }
    m := BacktestMetrics(|settlements|, wins, |settlements| - wins, totalStaked, totalPnl, equityCurve, maxDrawdown,
                         bankroll);
  }

  datatype BacktestRun = BacktestRun(
    result: PipelineResult, commits: seq<Position>, settlements: seq<SettledPosition>, metrics: BacktestMetrics)

  /** A backtest: drive a fresh pipeline over the feed, then report on what its sink recorded. The report never
      shows a higher bankroll than the run ended with, and shows the same one exactly when no prefix of the
      settlement log takes the plain sum below zero. */
  method RunBacktest(config: PipelineConfig, events: seq<FeedEvent>) returns (run: BacktestRun)
    ensures run.settlements == RunToEnd(config, events).settlements && run.commits == RunToEnd(config, events).commits
    ensures run.metrics.bets == run.result.settled && run.metrics.totalPnl == Sum(Pnls(run.settlements))
    ensures run.metrics.finalBankroll <= run.result.finalBankroll
    ensures run.metrics.finalBankroll == run.result.finalBankroll
       <==> forall k :: 0 <= k <= |run.settlements| ==> 0 <= Level(config.startingBankroll, Pnls(run.settlements), k)
  {
    var pipeline := new Pipeline(config);
    var result := pipeline.Run(events);
    var metrics := ComputeBacktestMetrics(config.startingBankroll, pipeline.sinkSettlements);
    FinalBankrollVersusReport(config, events);
    return BacktestRun(result, pipeline.sinkCommits, pipeline.sinkSettlements, metrics);
  }
}
