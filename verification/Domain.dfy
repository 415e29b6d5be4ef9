/** Entities the trading packages share: units, odds lines, scores, decisions, positions. */
module Domain {
  import opened Prelude

  /** Money in integer micro-USD; the source brands it non-negative. */
  type MicroUsd = nat

  /** Decimal odds times 1000; the source's constructor rejects anything not above 1.000. */
  type OddsMilli = o: int | 1000 < o witness 1001

  type Prob = p: real | 0.0 <= p <= 1.0

  type FixtureId = int

  type MarketKey = string

  const ODDS_MILLI_SCALE := 1000

  datatype Outcome = Home | Draw | Away | Other

  const OUTCOMES_1X2: seq<Outcome> := [Home, Draw, Away]

  datatype OddsLine = OddsLine(outcome: Outcome, priceName: string, odds: OddsMilli)

  datatype FairOutcome = FairOutcome(outcome: Outcome, fairProb: Prob)

  /** A de-vigged book; only the per-outcome probabilities matter to the trading path. */
  type FairBook = seq<FairOutcome>

  datatype MarketKind = Result1X2 | OverUnder | AsianHandicap | OtherMarket

  datatype MarketPeriod = FullGame | FirstHalf | OtherPeriod

  datatype OddsUpdate = OddsUpdate(
    fixtureId: FixtureId,
    tsMs: int,
    inRunning: bool,
    marketKey: MarketKey,
    marketKind: MarketKind,
    line: Option<real>,
    period: MarketPeriod,
    lines: seq<OddsLine>)

  datatype ScoreUpdate = ScoreUpdate(
    fixtureId: FixtureId,
    seqNo: int,
    tsMs: int,
    gameState: string,
    startTimeMs: Option<int>,
    homeGoals: Option<int>,
    awayGoals: Option<int>)

  datatype SignalKind = Divergence | Steam | CrossMarket

  datatype Signal = Signal(
    kind: SignalKind,
    fixtureId: FixtureId,
    marketKey: MarketKey,
    outcome: Outcome,
    tsMs: int,
    fairProb: Prob,
    offeredOdds: OddsMilli,
    edge: real,
    strength: real)

  datatype Decision = Decision(
    fixtureId: FixtureId,
    marketKey: MarketKey,
    outcome: Outcome,
    tsMs: int,
    signalKind: SignalKind,
    fairProb: Prob,
    entryOdds: OddsMilli,
    stake: MicroUsd,
    edge: real)

  /** A committed position; also what the pipeline hands its sink on a commit. */
  datatype Position = Position(index: nat, decision: Decision, committedAtMs: int)

  datatype ScoreState = ScoreState(homeGoals: int, awayGoals: int, tsMs: int, seqNo: int, gameState: string)

  const FINAL_GAME_STATES: set<string> := {"F", "FET", "FPE"}

  predicate IsFinalGameState(gameState: string) {
    gameState in FINAL_GAME_STATES
  }

  function ResultOf(homeGoals: int, awayGoals: int): Outcome {
    if homeGoals > awayGoals then Home else if homeGoals == awayGoals then Draw else Away
  }

  /** Signed PnL of a settled bet: floor of the net profit on a win, minus the stake on a loss. */
  function ComputePnl(won: bool, stake: MicroUsd, entryOdds: OddsMilli): int {
    if won then stake * (entryOdds - ODDS_MILLI_SCALE) / ODDS_MILLI_SCALE else 0 - stake
  }

  /** A loss costs exactly the stake; a win never costs anything and pays the net profit, less than one
      micro-USD short. */
  lemma PnlIsBoundedBelow(won: bool, stake: MicroUsd, entryOdds: OddsMilli)
    ensures var pnl := ComputePnl(won, stake, entryOdds);
            if won then 0 <= pnl && pnl * 1000 <= stake * entryOdds - stake * 1000 < (pnl + 1) * 1000
            else pnl == 0 - stake
  {
    if won {
      ProductNonNegative(stake, entryOdds - ODDS_MILLI_SCALE);
    }
  }

  lemma ProductNonNegative(a: nat, b: nat)
    ensures 0 <= a * b
  {
  }

  function FairProbOf(book: FairBook, outcome: Outcome): Option<Prob> {
    if |book| == 0 then None
    else if book[0].outcome == outcome then Some(book[0].fairProb)
    else FairProbOf(book[1..], outcome)
  }
}
