/** What the trading pipeline does to its state, event by event, as functions over an immutable
    snapshot of that state. The Pipeline class performs these steps in place. */
module PipelineModel {
  import opened Prelude
  import opened Domain
  import opened Risk
  import opened Sizing

  datatype ProbObservation = ProbObservation(tsMs: int, fairProb: Prob)

  datatype MarketState = MarketState(
    fixtureId: FixtureId,
    history: map<Outcome, seq<ProbObservation>>,
    lastFairProb: map<Outcome, Prob>,
    lastOdds: map<Outcome, OddsMilli>)

  datatype MatchQuote = MatchQuote(lines: seq<OddsLine>, marketKey: MarketKey, tsMs: int)

  datatype FixtureSurface = FixtureSurface(
    matchQuote: Option<MatchQuote>, overUnder: map<real, seq<OddsLine>>, lastFitMs: Option<int>)

  /** What a detector says about one outcome; the routing fields are copied from its input. */
  datatype Quote = Quote(fairProb: Prob, edge: real, strength: real)

  datatype SteamInput = SteamInput(
    fixtureId: FixtureId, marketKey: MarketKey, outcome: Outcome, tsMs: int,
    history: seq<ProbObservation>, offeredOdds: OddsMilli)

  datatype DivergenceInput = DivergenceInput(
    fixtureId: FixtureId, marketKey: MarketKey, outcome: Outcome, tsMs: int,
    fairProb: Prob, offeredOdds: OddsMilli)

  datatype CrossInput = CrossInput(
    fixtureId: FixtureId, marketKey: MarketKey, tsMs: int,
    matchLines: seq<OddsLine>, overUnder: map<real, seq<OddsLine>>)

  datatype CrossQuote = CrossQuote(outcome: Outcome, offeredOdds: OddsMilli, quote: Quote)

  datatype CrossMarketConfig = CrossMarketConfig(
    minRefitMs: int, minLeadMs: int, maxLeadMs: int,
    devig: seq<OddsLine> -> Option<FairBook>,
    detect: CrossInput -> Option<CrossQuote>)

  /** The detectors and the de-vig are arbitrary functions: every theorem holds for all of them. */
  datatype PipelineConfig = PipelineConfig(
    devig: seq<OddsLine> -> Option<FairBook>,
    detectSteam: SteamInput -> Option<Quote>,
    detectDivergence: DivergenceInput -> Option<Quote>,
    decision: DecisionConfig,
    startingBankroll: MicroUsd,
    steamHistoryLimit: nat,
    crossMarket: Option<CrossMarketConfig>,
    eloOverlay: bool)

  datatype SettledPosition = SettledPosition(
    index: nat, decision: Decision, result: Outcome, won: bool, pnl: int,
    settledAtMs: int, settledSeq: int,
    entryConsensusProb: Prob, closingFairProb: Prob, closingFairProbKnown: bool)

  /** A feed event as the pipeline sees it. The Elo overlay is outside the model, so the stake
      multiplier it would compute arrives with the odds. */
  datatype FeedEvent =
    | OddsEvent(odds: OddsUpdate, receivedAtMs: int, sizeMultiplier: real)
    | ScoreEvent(score: ScoreUpdate)
    | FixtureEvent(fixtureId: FixtureId, participant1: int, participant2: int)
    | OtherEvent

  datatype Snapshot = Snapshot(
    risk: RiskState,
    markets: map<MarketKey, MarketState>,
    surfaces: map<FixtureId, FixtureSurface>,
    fixtureStartMs: map<FixtureId, int>,
    scores: map<FixtureId, ScoreState>,
    fixtureTeams: map<FixtureId, (int, int)>,
    /** The score each rated fixture was folded into the ratings with. */
    rated: map<FixtureId, ScoreState>,
    open: seq<Position>,
    actedMarkets: set<MarketKey>,
    actedFixtures: set<FixtureId>,
    settled: set<nat>,
    decisionsCount: nat,
    /** What the sink has been told, in order. */
    commits: seq<Position>,
    settlements: seq<SettledPosition>)

  function Initial(config: PipelineConfig): Snapshot {
    Snapshot(CreateRiskState(config.startingBankroll), map[], map[], map[], map[], map[], map[],
             [], {}, {}, {}, 0, [], [])
  }

  // ---------------------------------------------------------------------------------------------
  // Market observations

  /** The odds a set of lines offers on an outcome: the last line naming it wins. */
  function OfferedOdds(lines: seq<OddsLine>, outcome: Outcome): Option<OddsMilli> {
    if |lines| == 0 then None
    else
      var last := lines[|lines| - 1];
      if last.outcome == outcome then Some(last.odds) else OfferedOdds(lines[..|lines| - 1], outcome)
  }

  function KeepLast<T>(s: seq<T>, limit: nat): seq<T> {
    if |s| <= limit then s else s[|s| - limit..]
  }

  function ObserveOutcome(
    market: MarketState, outcome: Outcome, fairProb: Prob, offered: Option<OddsMilli>, tsMs: int, limit: nat)
    : MarketState
  {
    market.(lastFairProb := market.lastFairProb[outcome := fairProb],
            lastOdds := if offered.Some? then market.lastOdds[outcome := offered.value] else market.lastOdds,
            history := market.history[outcome :=
              KeepLast(GetOr(market.history, outcome, []) + [ProbObservation(tsMs, fairProb)], limit)])
  }

  /** Record the first n outcomes of OUTCOMES_1X2 that the fair book prices. */
  function ObserveBook(
    market: MarketState, book: FairBook, lines: seq<OddsLine>, tsMs: int, limit: nat, n: nat): MarketState
    requires n <= |OUTCOMES_1X2|
  {
    if n == 0 then market
    else
      var before := ObserveBook(market, book, lines, tsMs, limit, n - 1);
      var outcome := OUTCOMES_1X2[n - 1];
      match FairProbOf(book, outcome)
      case None => before
      case Some(fairProb) => ObserveOutcome(before, outcome, fairProb, OfferedOdds(lines, outcome), tsMs, limit)
  }

  function MarketFor(s: Snapshot, key: MarketKey, fixtureId: FixtureId): MarketState {
    GetOr(s.markets, key, MarketState(fixtureId, map[], map[], map[]))
  }

  function Observe(s: Snapshot, odds: OddsUpdate, book: FairBook, limit: nat): Snapshot {
    var market := ObserveBook(MarketFor(s, odds.marketKey, odds.fixtureId), book, odds.lines, odds.tsMs, limit,
                              |OUTCOMES_1X2|);
    s.(markets := s.markets[odds.marketKey := market])
  }

  // ---------------------------------------------------------------------------------------------
  // Commits

  function Commit(s: Snapshot, decision: Decision, nowMs: int): Snapshot {
    var position := Position(s.decisionsCount, decision, nowMs);
    s.(risk := OnCommit(s.risk, decision),
       open := s.open + [position],
       decisionsCount := s.decisionsCount + 1,
       commits := s.commits + [position])
  }

  function SteamOrDivergence(
    config: PipelineConfig, odds: OddsUpdate, outcome: Outcome, history: seq<ProbObservation>,
    fairProb: Prob, offered: OddsMilli): Option<Signal>
  {
    match config.detectSteam(SteamInput(odds.fixtureId, odds.marketKey, outcome, odds.tsMs, history, offered))
    case Some(q) =>
      Some(Signal(Steam, odds.fixtureId, odds.marketKey, outcome, odds.tsMs, q.fairProb, offered, q.edge, q.strength))
    case None =>
      match config.detectDivergence(DivergenceInput(odds.fixtureId, odds.marketKey, outcome, odds.tsMs, fairProb, offered))
      case Some(q) =>
        Some(Signal(Divergence, odds.fixtureId, odds.marketKey, outcome, odds.tsMs, q.fairProb, offered, q.edge, q.strength))
      case None => None
  }

  /** The decision an outcome leads to, if it is priced, offered, signalled, sized and approved. */
  function OutcomeDecision(
    config: PipelineConfig, risk: RiskState, market: MarketState, odds: OddsUpdate, nowMs: int,
    book: FairBook, outcome: Outcome): Option<Decision>
  {
    match (FairProbOf(book, outcome), OfferedOdds(odds.lines, outcome))
    case (Some(fairProb), Some(offered)) =>
      (match SteamOrDivergence(config, odds, outcome, GetOr(market.history, outcome, []), fairProb, offered)
       case None => None
       case Some(signal) =>
         match BuildDecision(signal, risk, RiskContext(fairProb, 0.0), nowMs, odds.tsMs, 1.0, config.decision)
         case Decided(d) => Some(d)
         case _ => None)
    case _ => None
  }

  /** The first outcome from position n of OUTCOMES_1X2 that leads to a decision. */
  function FirstDecision(
    config: PipelineConfig, risk: RiskState, market: MarketState, odds: OddsUpdate, nowMs: int,
    book: FairBook, n: nat): Option<Decision>
    requires n <= |OUTCOMES_1X2|
    decreases |OUTCOMES_1X2| - n
  {
    if n == |OUTCOMES_1X2| then None
    else
      match OutcomeDecision(config, risk, market, odds, nowMs, book, OUTCOMES_1X2[n])
      case Some(d) => Some(d)
      case None => FirstDecision(config, risk, market, odds, nowMs, book, n + 1)
  }

  function HandleOdds(config: PipelineConfig, s: Snapshot, odds: OddsUpdate, nowMs: int): Snapshot {
    match config.devig(odds.lines)
    case None => s
    case Some(book) =>
      var seen := Observe(s, odds, book, config.steamHistoryLimit);
      if odds.marketKey in s.actedMarkets then seen
      else
        match FirstDecision(config, s.risk, seen.markets[odds.marketKey], odds, nowMs, book, 0)
        case None => seen
        case Some(d) => Commit(seen.(actedMarkets := seen.actedMarkets + {odds.marketKey}), d, nowMs)
  }

  function EmptySurface(): FixtureSurface { FixtureSurface(None, map[], None) }

  /** Fold full-game odds into the fixture's joined surface; None when the market is not traded. */
  function JoinSurface(surface: FixtureSurface, odds: OddsUpdate): Option<FixtureSurface> {
    if odds.marketKind.Result1X2? then
      Some(surface.(matchQuote := Some(MatchQuote(odds.lines, odds.marketKey, odds.tsMs))))
    else if odds.marketKind.OverUnder? && odds.line.Some? then
      Some(surface.(overUnder := surface.overUnder[odds.line.value := odds.lines]))
    else None
  }

  predicate EntryWindowOpen(cross: CrossMarketConfig, s: Snapshot, fixtureId: FixtureId, nowMs: int) {
    && fixtureId in s.fixtureStartMs
    && cross.minLeadMs <= s.fixtureStartMs[fixtureId] - nowMs <= cross.maxLeadMs
  }

  predicate RefitThrottled(cross: CrossMarketConfig, surface: FixtureSurface, tsMs: int) {
    cross.minRefitMs > 0 && surface.lastFitMs.Some? && tsMs - surface.lastFitMs.value < cross.minRefitMs
  }

  function CrossDecision(
    config: PipelineConfig, cross: CrossMarketConfig, risk: RiskState, surface: FixtureSurface,
    odds: OddsUpdate, nowMs: int, sizeMultiplier: real): Option<Decision>
    requires surface.matchQuote.Some?
  {
    var quote := surface.matchQuote.value;
    match cross.detect(CrossInput(odds.fixtureId, quote.marketKey, odds.tsMs, quote.lines, surface.overUnder))
    case None => None
    case Some(q) =>
      var signal := Signal(CrossMarket, odds.fixtureId, quote.marketKey, q.outcome, odds.tsMs,
                           q.quote.fairProb, q.offeredOdds, q.quote.edge, q.quote.strength);
      match BuildDecision(signal, risk, RiskContext(signal.fairProb, 0.0), nowMs, odds.tsMs, sizeMultiplier,
                          config.decision)
      case Decided(d) => Some(d)
      case _ => None
  }

  /** Store the joined surface; a pre-kickoff 1X2 quote also feeds the consensus history. */
  function JoinAndObserve(
    config: PipelineConfig, cross: CrossMarketConfig, s: Snapshot, odds: OddsUpdate, surface: FixtureSurface): Snapshot
  {
    var joined := s.(surfaces := s.surfaces[odds.fixtureId := surface]);
    if !odds.marketKind.Result1X2? || odds.inRunning then joined
    else
      match cross.devig(odds.lines)
      case None => joined
      case Some(book) => Observe(joined, odds, book, config.steamHistoryLimit)
  }

  /** Every gate that stands between a joined surface and a goals-model fit. */
  predicate ReadyToFit(cross: CrossMarketConfig, s: Snapshot, surface: FixtureSurface, odds: OddsUpdate, nowMs: int) {
    && odds.fixtureId !in s.actedFixtures
    && surface.matchQuote.Some? && surface.overUnder != map[]
    && EntryWindowOpen(cross, s, odds.fixtureId, nowMs)
    && !RefitThrottled(cross, surface, odds.tsMs)
  }

  function FitAndEnter(
    config: PipelineConfig, cross: CrossMarketConfig, s: Snapshot, surface: FixtureSurface,
    odds: OddsUpdate, nowMs: int, sizeMultiplier: real): Snapshot
    requires surface.matchQuote.Some?
  {
    var fitted := surface.(lastFitMs := Some(odds.tsMs));
    var stamped := s.(surfaces := s.surfaces[odds.fixtureId := fitted]);
    match CrossDecision(config, cross, s.risk, fitted, odds, nowMs, sizeMultiplier)
    case None => stamped
    case Some(d) => Commit(stamped.(actedFixtures := stamped.actedFixtures + {odds.fixtureId}), d, nowMs)
  }

  function HandleCrossMarketOdds(
    config: PipelineConfig, cross: CrossMarketConfig, s: Snapshot, odds: OddsUpdate, nowMs: int,
    sizeMultiplier: real): Snapshot
  {
    if !odds.period.FullGame? then s
    else
      var prior := GetOr(s.surfaces, odds.fixtureId, EmptySurface());
      match JoinSurface(prior, odds)
      case None => s.(surfaces := s.surfaces[odds.fixtureId := prior])
      case Some(surface) =>
        var seen := JoinAndObserve(config, cross, s, odds, surface);
        if ReadyToFit(cross, s, surface, odds, nowMs)
        then FitAndEnter(config, cross, seen, surface, odds, nowMs, sizeMultiplier) else seen
  }

  // ---------------------------------------------------------------------------------------------
  // Scores

  /** Whether an incoming score outranks a tracked one: finality first, then strictly higher seq. */
  predicate Outranks(incomingState: string, incomingSeq: int, existing: ScoreState) {
    if IsFinalGameState(existing.gameState) != IsFinalGameState(incomingState)
    then IsFinalGameState(incomingState)
    else incomingSeq > existing.seqNo
  }

  predicate GoalBearing(score: ScoreUpdate) {
    score.homeGoals.Some? && score.awayGoals.Some?
  }

  function ScoreStateOf(score: ScoreUpdate): ScoreState
    requires GoalBearing(score)
  {
    ScoreState(score.homeGoals.value, score.awayGoals.value, score.tsMs, score.seqNo, score.gameState)
  }

  function HandleScore(s: Snapshot, score: ScoreUpdate): Snapshot {
    var timed := if score.startTimeMs.Some?
                 then s.(fixtureStartMs := s.fixtureStartMs[score.fixtureId := score.startTimeMs.value]) else s;
    if !GoalBearing(score) then timed
    else if score.fixtureId in s.scores && !Outranks(score.gameState, score.seqNo, s.scores[score.fixtureId]) then timed
    else timed.(scores := timed.scores[score.fixtureId := ScoreStateOf(score)])
  }

  /** Fold a fixture into the ratings once, with whatever score is tracked at that moment. */
  function UpdateRatings(config: PipelineConfig, s: Snapshot, fixtureId: FixtureId): Snapshot {
    if !config.eloOverlay || fixtureId in s.rated || fixtureId !in s.fixtureTeams || fixtureId !in s.scores then s
    else s.(rated := s.rated[fixtureId := s.scores[fixtureId]])
  }

  // ---------------------------------------------------------------------------------------------
  // Settlement

  datatype Window = Window(after: Option<int>, upTo: Option<int>, before: Option<int>)

  predicate InWindow(o: ProbObservation, w: Window) {
    && (w.after.Some? ==> w.after.value < o.tsMs)
    && (w.upTo.Some? ==> o.tsMs <= w.upTo.value)
    && (w.before.Some? ==> o.tsMs < w.before.value)
  }

  /** The observation with the greatest timestamp inside a window; the first one seen among ties. */
  function LatestIn(history: seq<ProbObservation>, w: Window): Option<ProbObservation> {
    if |history| == 0 then None
    else
      var best := LatestIn(history[..|history| - 1], w);
      var o := history[|history| - 1];
      if InWindow(o, w) && (best.None? || o.tsMs > best.value.tsMs) then Some(o) else best
  }

  function EntryWindow(d: Decision): Window { Window(None, Some(d.tsMs), None) }

  function ClosingWindow(d: Decision, kickoff: Option<int>): Window { Window(Some(d.tsMs), None, kickoff) }

  function HistoryFor(markets: map<MarketKey, MarketState>, d: Decision): seq<ProbObservation> {
    if d.marketKey in markets then GetOr(markets[d.marketKey].history, d.outcome, []) else []
  }

  function Settlement(s: Snapshot, position: Position, score: ScoreState): SettledPosition {
    var d := position.decision;
    var result := ResultOf(score.homeGoals, score.awayGoals);
    var won := result == d.outcome;
    var history := HistoryFor(s.markets, d);
    var kickoff := if d.fixtureId in s.fixtureStartMs then Some(s.fixtureStartMs[d.fixtureId]) else None;
    var entry := LatestIn(history, EntryWindow(d));
    var closing := LatestIn(history, ClosingWindow(d, kickoff));
    var entryProb := if entry.Some? then entry.value.fairProb else d.fairProb;
    SettledPosition(position.index, d, result, won, ComputePnl(won, d.stake, d.entryOdds), score.tsMs, score.seqNo,
                    entryProb, if closing.Some? then closing.value.fairProb else entryProb, closing.Some?)
  }

  function SettleOne(s: Snapshot, position: Position, score: ScoreState): Snapshot {
    if position.index in s.settled then s
    else
      var done := Settlement(s, position, score);
      s.(risk := OnSettlement(s.risk, position.decision, done.pnl),
         settled := s.settled + {position.index},
         settlements := s.settlements + [done])
  }

  predicate HasFinalScore(scores: map<FixtureId, ScoreState>, fixtureId: FixtureId) {
    fixtureId in scores && IsFinalGameState(scores[fixtureId].gameState)
  }

  /** Settle, in commit order, every unsettled position among the first n on a fixture with a tracked
      final score; `only` restricts the sweep to one fixture. */
  function Sweep(s: Snapshot, only: Option<FixtureId>, n: nat): Snapshot
    requires n <= |s.open|
    ensures Sweep(s, only, n).open == s.open && Sweep(s, only, n).scores == s.scores
  {
    if n == 0 then s
    else
      var before := Sweep(s, only, n - 1);
      var position := s.open[n - 1];
      var f := position.decision.fixtureId;
      if (only == None || only == Some(f)) && HasFinalScore(s.scores, f)
      then SettleOne(before, position, s.scores[f]) else before
  }

  function SettleFinalFixture(s: Snapshot, fixtureId: FixtureId): Snapshot {
    Sweep(s, Some(fixtureId), |s.open|)
  }

  function SettleAll(s: Snapshot): Snapshot {
    Sweep(s, None, |s.open|)
  }

  // ---------------------------------------------------------------------------------------------
  // The run

  function Step(config: PipelineConfig, s: Snapshot, event: FeedEvent): Snapshot {
    match event
    case OddsEvent(odds, nowMs, multiplier) =>
      if config.crossMarket.Some?
      then HandleCrossMarketOdds(config, config.crossMarket.value, s, odds, nowMs, multiplier)
      else HandleOdds(config, s, odds, nowMs)
    case ScoreEvent(score) =>
      var tracked := HandleScore(s, score);
      if IsFinalGameState(score.gameState)
      then SettleFinalFixture(UpdateRatings(config, tracked, score.fixtureId), score.fixtureId) else tracked
    case FixtureEvent(f, p1, p2) => s.(fixtureTeams := s.fixtureTeams[f := (p1, p2)])
    case OtherEvent => s
  }

  /** The state after a whole event stream, before the end-of-feed sweep. */
  function Drive(config: PipelineConfig, events: seq<FeedEvent>): Snapshot {
    if |events| == 0 then Initial(config)
    else Step(config, Drive(config, events[..|events| - 1]), events[|events| - 1])
  }

  function RunToEnd(config: PipelineConfig, events: seq<FeedEvent>): Snapshot {
    SettleAll(Drive(config, events))
  }

  function Pnls(settlements: seq<SettledPosition>): seq<int> {
    seq(|settlements|, i requires 0 <= i < |settlements| => settlements[i].pnl)
  }
}
