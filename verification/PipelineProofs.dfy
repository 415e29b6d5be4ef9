/** What holds of every pipeline run, over arbitrary event streams and arbitrary signal detectors. */
module PipelineProofs {
  import opened Prelude
  import opened Domain
  import opened Risk
  import opened Sizing
  import opened Walk
  import opened PipelineModel

  // ---------------------------------------------------------------------------------------------
  // Invariants

  // Each conjunct names only the fields it is about, so a step that leaves those fields alone keeps it.

  /** Positions are numbered 0, 1, 2, ... in commit order and the sink saw each one. */
  ghost predicate Numbered(open: seq<Position>, commits: seq<Position>, decisionsCount: nat) {
    && |open| == decisionsCount
    && commits == open
    && forall k :: 0 <= k < |open| ==> open[k].index == k
  }

  /** Each log entry is for a settled index and carries the decision that was committed there. */
  ghost predicate EntriesMatch(log: seq<SettledPosition>, settled: set<nat>, open: seq<Position>) {
    forall i :: 0 <= i < |log| ==>
      log[i].index in settled && log[i].index < |open| && log[i].decision == open[log[i].index].decision
  }

  ghost predicate DistinctEntries(log: seq<SettledPosition>) {
    forall i, j :: 0 <= i < j < |log| ==> log[i].index != log[j].index
  }

  predicate Logs(log: seq<SettledPosition>, k: nat) {
    exists i :: 0 <= i < |log| && log[i].index == k
  }

  /** The settlement log holds each settled index once, with the decision that was committed. */
  ghost predicate LoggedOnce(log: seq<SettledPosition>, settled: set<nat>, open: seq<Position>) {
    && |settled| == |log|
    && EntriesMatch(log, settled, open)
    && DistinctEntries(log)
    && forall k :: k in settled ==> Logs(log, k)
  }

  /** The bankroll is the clamped walk over the settlement log; the pipeline itself never resets. */
  ghost predicate BankrollIsWalk(config: PipelineConfig, risk: RiskState, log: seq<SettledPosition>) {
    && risk.bankroll == Reflected(config.startingBankroll, Pnls(log), |log|)
    && risk.dayStartBankroll == config.startingBankroll
  }

  ghost predicate OneEntryPerMarket(open: seq<Position>, acted: set<MarketKey>) {
    && (forall k :: 0 <= k < |open| ==> open[k].decision.marketKey in acted)
    && (forall i, j :: 0 <= i < j < |open| ==> open[i].decision.marketKey != open[j].decision.marketKey)
  }

  ghost predicate OneEntryPerFixture(open: seq<Position>, acted: set<FixtureId>) {
    && (forall k :: 0 <= k < |open| ==> open[k].decision.fixtureId in acted)
    && (forall i, j :: 0 <= i < j < |open| ==> open[i].decision.fixtureId != open[j].decision.fixtureId)
  }

  /** At most one entry per market (steam and divergence) or per fixture (cross-market). */
  ghost predicate OneEntryEach(config: PipelineConfig, s: Snapshot) {
    if config.crossMarket.None? then OneEntryPerMarket(s.open, s.actedMarkets)
    else OneEntryPerFixture(s.open, s.actedFixtures)
  }

  /** A settlement that books exactly what one final, goal-bearing score event says. */
  predicate SettledBy(p: SettledPosition, event: FeedEvent) {
    && event.ScoreEvent? && GoalBearing(event.score) && IsFinalGameState(event.score.gameState)
    && event.score.fixtureId == p.decision.fixtureId
    && p.settledSeq == event.score.seqNo && p.settledAtMs == event.score.tsMs
    && p.result == ResultOf(event.score.homeGoals.value, event.score.awayGoals.value)
    && p.won == (p.result == p.decision.outcome)
    && p.pnl == ComputePnl(p.won, p.decision.stake, p.decision.entryOdds)
  }

  ghost predicate Genuine(p: SettledPosition, events: seq<FeedEvent>) {
    exists e :: e in events && SettledBy(p, e)
  }

  ghost predicate AllGenuine(log: seq<SettledPosition>, events: seq<FeedEvent>) {
    forall i :: 0 <= i < |log| ==> Genuine(log[i], events)
  }

  predicate Scores(event: FeedEvent, fixtureId: FixtureId) {
    event.ScoreEvent? && event.score.fixtureId == fixtureId && GoalBearing(event.score)
  }

  /** A tracked score is one of the fixture's goal-bearing scores, and none of them outranks it. */
  ghost predicate IsTopScore(tracked: ScoreState, fixtureId: FixtureId, events: seq<FeedEvent>) {
    && (exists e :: e in events && Scores(e, fixtureId) && ScoreStateOf(e.score) == tracked)
    && (forall e :: e in events && Scores(e, fixtureId) ==> !Outranks(e.score.gameState, e.score.seqNo, tracked))
  }

  ghost predicate TracksTop(scores: map<FixtureId, ScoreState>, events: seq<FeedEvent>) {
    && (forall f :: f in scores ==> IsTopScore(scores[f], f, events))
    && (forall e :: e in events && e.ScoreEvent? && GoalBearing(e.score) ==> e.score.fixtureId in scores)
  }

  ghost predicate SettledAreFinal(settled: set<nat>, open: seq<Position>, scores: map<FixtureId, ScoreState>) {
    forall k :: k in settled ==> k < |open| && HasFinalScore(scores, open[k].decision.fixtureId)
  }

  /** Everything but the one-entry rule, which only commits can threaten. */
  ghost predicate Base(config: PipelineConfig, s: Snapshot, events: seq<FeedEvent>) {
    && Numbered(s.open, s.commits, s.decisionsCount)
    && LoggedOnce(s.settlements, s.settled, s.open)
    && BankrollIsWalk(config, s.risk, s.settlements)
    && AllGenuine(s.settlements, events)
    && TracksTop(s.scores, events)
    && SettledAreFinal(s.settled, s.open, s.scores)
    && Sound(config.decision.risk, s.risk, s.open, s.settled)
  }

  ghost predicate Inv(config: PipelineConfig, s: Snapshot, events: seq<FeedEvent>) {
    Base(config, s, events) && OneEntryEach(config, s)
  }

  /** Two snapshots that differ only in market observations, surfaces, kickoff times, teams or ratings. */
  predicate SameCore(s: Snapshot, n: Snapshot) {
    && n.risk == s.risk && n.open == s.open && n.commits == s.commits && n.decisionsCount == s.decisionsCount
    && n.settled == s.settled && n.settlements == s.settlements && n.scores == s.scores
    && n.actedMarkets == s.actedMarkets && n.actedFixtures == s.actedFixtures
  }

  lemma SameCoreKeepsInv(config: PipelineConfig, s: Snapshot, n: Snapshot, events: seq<FeedEvent>)
    requires Inv(config, s, events) && SameCore(s, n)
    ensures Inv(config, n, events)
  {
  }

  // ---------------------------------------------------------------------------------------------
  // Commits keep the invariant

  /** A decision the builder produced for some signal against the current risk state. */
  ghost predicate Approved(config: PipelineConfig, s: Snapshot, d: Decision) {
    exists order: Order ::
      Evaluate(s.risk, order, config.decision.risk) == Allowed(d.stake)
      && order.fixtureId == d.fixtureId && order.marketKey == d.marketKey
  }

  lemma CommitKeepsBase(config: PipelineConfig, s: Snapshot, events: seq<FeedEvent>, d: Decision, nowMs: int)
    requires Base(config, s, events) && Approved(config, s, d)
    ensures Base(config, Commit(s, d, nowMs), events)
  {
    var n := Commit(s, d, nowMs);
    var order: Order :| Evaluate(s.risk, order, config.decision.risk) == Allowed(d.stake)
                        && order.fixtureId == d.fixtureId && order.marketKey == d.marketKey;
    CommitKeepsSound(config.decision.risk, s.risk, s.open, s.settled, order, Position(s.decisionsCount, d, nowMs));
    assert EntriesMatch(n.settlements, n.settled, n.open);
  }

  /** Committing on a market (or fixture) not acted on before, and marking it acted on. */
  lemma CommitKeepsInv(
    config: PipelineConfig, s: Snapshot, acted: Snapshot, events: seq<FeedEvent>, d: Decision, nowMs: int)
    requires Inv(config, s, events) && Approved(config, s, d)
    requires if config.crossMarket.None?
             then d.marketKey !in s.actedMarkets && acted == s.(actedMarkets := s.actedMarkets + {d.marketKey})
             else d.fixtureId !in s.actedFixtures && acted == s.(actedFixtures := s.actedFixtures + {d.fixtureId})
    ensures Inv(config, Commit(acted, d, nowMs), events)
  {
    assert Base(config, acted, events) && Approved(config, acted, d);
    CommitKeepsBase(config, acted, events, d, nowMs);
    FreshEntry(config, s, acted, d, nowMs);
  }

  lemma FreshEntry(config: PipelineConfig, s: Snapshot, acted: Snapshot, d: Decision, nowMs: int)
    requires OneEntryEach(config, s)
    requires if config.crossMarket.None?
             then d.marketKey !in s.actedMarkets && acted == s.(actedMarkets := s.actedMarkets + {d.marketKey})
             else d.fixtureId !in s.actedFixtures && acted == s.(actedFixtures := s.actedFixtures + {d.fixtureId})
    ensures OneEntryEach(config, Commit(acted, d, nowMs))
  {
    var n := Commit(acted, d, nowMs);
    assert forall k :: 0 <= k < |s.open| ==> n.open[k] == s.open[k];
  }

  lemma OutcomeDecisionIsApproved(
    config: PipelineConfig, s: Snapshot, market: MarketState, odds: OddsUpdate, nowMs: int, book: FairBook,
    outcome: Outcome)
    ensures var d := OutcomeDecision(config, s.risk, market, odds, nowMs, book, outcome);
            d.Some? ==> Approved(config, s, d.value) && d.value.marketKey == odds.marketKey
                        && d.value.fixtureId == odds.fixtureId
  {
    var d := OutcomeDecision(config, s.risk, market, odds, nowMs, book, outcome);
    if d.Some? {
      var fairProb, offered := FairProbOf(book, outcome).value, OfferedOdds(odds.lines, outcome).value;
      var signal := SteamOrDivergence(config, odds, outcome, GetOr(market.history, outcome, []), fairProb, offered).value;
      var order := BuiltDecisionIsApproved(signal, s.risk, RiskContext(fairProb, 0.0), nowMs, odds.tsMs, 1.0,
                                           config.decision);
    }
  }

  lemma {:induction false} FirstDecisionIsApproved(
    config: PipelineConfig, s: Snapshot, market: MarketState, odds: OddsUpdate, nowMs: int, book: FairBook, n: nat)
    requires n <= |OUTCOMES_1X2|
    ensures var d := FirstDecision(config, s.risk, market, odds, nowMs, book, n);
            d.Some? ==> Approved(config, s, d.value) && d.value.marketKey == odds.marketKey
                        && d.value.fixtureId == odds.fixtureId
    decreases |OUTCOMES_1X2| - n
  {
    if n < |OUTCOMES_1X2| {
      OutcomeDecisionIsApproved(config, s, market, odds, nowMs, book, OUTCOMES_1X2[n]);
      FirstDecisionIsApproved(config, s, market, odds, nowMs, book, n + 1);
    }
  }

  lemma CrossDecisionIsApproved(
    config: PipelineConfig, cross: CrossMarketConfig, s: Snapshot, surface: FixtureSurface,
    odds: OddsUpdate, nowMs: int, sizeMultiplier: real)
    requires surface.matchQuote.Some?
    ensures var d := CrossDecision(config, cross, s.risk, surface, odds, nowMs, sizeMultiplier);
            d.Some? ==> Approved(config, s, d.value) && d.value.fixtureId == odds.fixtureId
  {
    var d := CrossDecision(config, cross, s.risk, surface, odds, nowMs, sizeMultiplier);
    if d.Some? {
      var quote := surface.matchQuote.value;
      var q := cross.detect(CrossInput(odds.fixtureId, quote.marketKey, odds.tsMs, quote.lines, surface.overUnder)).value;
      var signal := Signal(CrossMarket, odds.fixtureId, quote.marketKey, q.outcome, odds.tsMs,
                           q.quote.fairProb, q.offeredOdds, q.quote.edge, q.quote.strength);
      var order := BuiltDecisionIsApproved(signal, s.risk, RiskContext(signal.fairProb, 0.0), nowMs, odds.tsMs,
                                           sizeMultiplier, config.decision);
    }
  }

  lemma HandleOddsKeepsInv(config: PipelineConfig, s: Snapshot, events: seq<FeedEvent>, odds: OddsUpdate, nowMs: int)
    requires config.crossMarket.None? && Inv(config, s, events)
    ensures Inv(config, HandleOdds(config, s, odds, nowMs), events)
  {
    hide Inv, FirstDecision, Commit;
    var book := config.devig(odds.lines);
    if book.Some? {
      var seen := Observe(s, odds, book.value, config.steamHistoryLimit);
      SameCoreKeepsInv(config, s, seen, events);
      var market := seen.markets[odds.marketKey];
      FirstDecisionIsApproved(config, s, market, odds, nowMs, book.value, 0);
      var d := FirstDecision(config, s.risk, market, odds, nowMs, book.value, 0);
      if odds.marketKey !in s.actedMarkets && d.Some? {
        var acted := seen.(actedMarkets := seen.actedMarkets + {odds.marketKey});
        assert Approved(config, seen, d.value);
        CommitKeepsInv(config, seen, acted, events, d.value, nowMs);
      }
    }
  }

  lemma FitAndEnterKeepsInv(
    config: PipelineConfig, s: Snapshot, surface: FixtureSurface, events: seq<FeedEvent>, odds: OddsUpdate,
    nowMs: int, sizeMultiplier: real)
    requires config.crossMarket.Some? && Inv(config, s, events)
    requires surface.matchQuote.Some? && odds.fixtureId !in s.actedFixtures
    ensures Inv(config, FitAndEnter(config, config.crossMarket.value, s, surface, odds, nowMs, sizeMultiplier), events)
  {
    var cross := config.crossMarket.value;
    var fitted := surface.(lastFitMs := Some(odds.tsMs));
    var stamped := s.(surfaces := s.surfaces[odds.fixtureId := fitted]);
    SameCoreKeepsInv(config, s, stamped, events);
    CrossDecisionIsApproved(config, cross, s, fitted, odds, nowMs, sizeMultiplier);
    var d := CrossDecision(config, cross, s.risk, fitted, odds, nowMs, sizeMultiplier);
    if d.Some? {
      assert Approved(config, stamped, d.value);
      var acted := stamped.(actedFixtures := stamped.actedFixtures + {odds.fixtureId});
      CommitKeepsInv(config, stamped, acted, events, d.value, nowMs);
    }
  }

  lemma JoiningKeepsCore(
    config: PipelineConfig, cross: CrossMarketConfig, s: Snapshot, odds: OddsUpdate, surface: FixtureSurface)
    ensures SameCore(s, JoinAndObserve(config, cross, s, odds, surface))
  {
    var joined := s.(surfaces := s.surfaces[odds.fixtureId := surface]);
    match cross.devig(odds.lines)
    case None =>
    case Some(book) => ObservingKeepsCore(joined, odds, book, config.steamHistoryLimit);
  }

  lemma ObservingKeepsCore(s: Snapshot, odds: OddsUpdate, book: FairBook, limit: nat)
    ensures SameCore(s, Observe(s, odds, book, limit))
  {
  }

  /** Cross-market odds leave the core alone, or enter once all gates are open. */
  lemma CrossShape(
    config: PipelineConfig, cross: CrossMarketConfig, s: Snapshot, odds: OddsUpdate, nowMs: int, sizeMultiplier: real)
    returns (surface: FixtureSurface, seen: Snapshot)
    ensures SameCore(s, seen)
    ensures var after := HandleCrossMarketOdds(config, cross, s, odds, nowMs, sizeMultiplier);
            || after == seen
            || (&& ReadyToFit(cross, s, surface, odds, nowMs)
                && after == FitAndEnter(config, cross, seen, surface, odds, nowMs, sizeMultiplier))
  {
    var prior := GetOr(s.surfaces, odds.fixtureId, EmptySurface());
    surface, seen := prior, s;
    if odds.period.FullGame? {
      match JoinSurface(prior, odds)
      case None => seen := s.(surfaces := s.surfaces[odds.fixtureId := prior]);
      case Some(joined) => surface, seen := joined, JoinAndObserve(config, cross, s, odds, joined);
        JoiningKeepsCore(config, cross, s, odds, joined);
    }
  }

  lemma HandleCrossKeepsInv(
    config: PipelineConfig, s: Snapshot, events: seq<FeedEvent>, odds: OddsUpdate, nowMs: int, sizeMultiplier: real)
    requires config.crossMarket.Some? && Inv(config, s, events)
    ensures Inv(config, HandleCrossMarketOdds(config, config.crossMarket.value, s, odds, nowMs, sizeMultiplier), events)
  {
    var cross := config.crossMarket.value;
    var surface, seen := CrossShape(config, cross, s, odds, nowMs, sizeMultiplier);
    SameCoreKeepsInv(config, s, seen, events);
    if ReadyToFit(cross, s, surface, odds, nowMs) {
      FitAndEnterKeepsInv(config, seen, surface, events, odds, nowMs, sizeMultiplier);
    }
  }

  // ---------------------------------------------------------------------------------------------
  // Scores keep the invariant

  /** Nothing in a longer stream is forgotten. */
  lemma GenuineGrows(log: seq<SettledPosition>, events: seq<FeedEvent>, event: FeedEvent)
    requires AllGenuine(log, events)
    ensures AllGenuine(log, events + [event])
  {
    forall i | 0 <= i < |log|
      ensures Genuine(log[i], events + [event])
    {
      StaysGenuine(log[i], events, event);
    }
  }

  lemma StaysGenuine(p: SettledPosition, events: seq<FeedEvent>, event: FeedEvent)
    requires Genuine(p, events)
    ensures Genuine(p, events + [event])
  {
    var e :| e in events && SettledBy(p, e);
    assert e in events + [event];
  }

  lemma TopScoreSurvives(tracked: ScoreState, f: FixtureId, events: seq<FeedEvent>, event: FeedEvent)
    requires IsTopScore(tracked, f, events)
    requires Scores(event, f) ==> !Outranks(event.score.gameState, event.score.seqNo, tracked)
    ensures IsTopScore(tracked, f, events + [event])
  {
    var w :| w in events && Scores(w, f) && ScoreStateOf(w.score) == tracked;
    assert w in events + [event];
  }

  /** Outranking is a strict weak order: the new top outranks or ties everything the old one did. */
  lemma NewTopScore(tracked: ScoreState, f: FixtureId, events: seq<FeedEvent>, event: FeedEvent)
    requires IsTopScore(tracked, f, events)
    requires Scores(event, f) && Outranks(event.score.gameState, event.score.seqNo, tracked)
    ensures IsTopScore(ScoreStateOf(event.score), f, events + [event])
  {
    assert event in events + [event];
  }

  lemma OtherEventKeepsTop(scores: map<FixtureId, ScoreState>, events: seq<FeedEvent>, event: FeedEvent)
    requires TracksTop(scores, events)
    requires !event.ScoreEvent? || !GoalBearing(event.score)
    ensures TracksTop(scores, events + [event])
  {
    forall f | f in scores
      ensures IsTopScore(scores[f], f, events + [event])
    {
      TopScoreSurvives(scores[f], f, events, event);
    }
  }

  lemma HandleScoreTracksTop(s: Snapshot, events: seq<FeedEvent>, score: ScoreUpdate)
    requires TracksTop(s.scores, events)
    ensures TracksTop(HandleScore(s, score).scores, events + [ScoreEvent(score)])
  {
    hide IsTopScore, Outranks;
    var event := ScoreEvent(score);
    var n := HandleScore(s, score);
    if !GoalBearing(score) {
      OtherEventKeepsTop(s.scores, events, event);
    } else {
      forall f | f in n.scores
        ensures IsTopScore(n.scores[f], f, events + [event])
      {
        HandleScoreKeepsTop(s, events, score, f);
      }
    }
  }

  lemma HandleScoreKeepsTop(s: Snapshot, events: seq<FeedEvent>, score: ScoreUpdate, f: FixtureId)
    requires TracksTop(s.scores, events) && GoalBearing(score) && f in HandleScore(s, score).scores
    ensures IsTopScore(HandleScore(s, score).scores[f], f, events + [ScoreEvent(score)])
  {
    var event := ScoreEvent(score);
    ScoreAfterHandling(s, score, f);
    if f !in s.scores {
      FirstScoreIsTop(events, event, f);
    } else if f == score.fixtureId && Outranks(score.gameState, score.seqNo, s.scores[f]) {
      NewTopScore(s.scores[f], f, events, event);
    } else {
      TopScoreSurvives(s.scores[f], f, events, event);
    }
  }

  lemma ScoreAfterHandling(s: Snapshot, score: ScoreUpdate, f: FixtureId)
    requires GoalBearing(score) && f in HandleScore(s, score).scores
    ensures f !in s.scores ==> f == score.fixtureId
    ensures HandleScore(s, score).scores[f]
         == if f == score.fixtureId && (f !in s.scores || Outranks(score.gameState, score.seqNo, s.scores[f]))
            then ScoreStateOf(score) else s.scores[f]
  {
  }

  lemma FirstScoreIsTop(events: seq<FeedEvent>, event: FeedEvent, f: FixtureId)
    requires Scores(event, f) && forall e :: e in events ==> !Scores(e, f)
    ensures IsTopScore(ScoreStateOf(event.score), f, events + [event])
  {
    assert event in events + [event];
  }

  /** A final score is sticky: no later event makes a fixture un-final. */
  lemma FinalScoreIsSticky(s: Snapshot, score: ScoreUpdate, f: FixtureId)
    requires HasFinalScore(s.scores, f)
    ensures HasFinalScore(HandleScore(s, score).scores, f)
  {
  }

  lemma HandleScoreKeepsFinality(s: Snapshot, score: ScoreUpdate)
    requires SettledAreFinal(s.settled, s.open, s.scores)
    ensures SettledAreFinal(s.settled, s.open, HandleScore(s, score).scores)
  {
    forall k | k in s.settled
      ensures HasFinalScore(HandleScore(s, score).scores, s.open[k].decision.fixtureId)
    {
      FinalScoreIsSticky(s, score, s.open[k].decision.fixtureId);
    }
  }

  /** Only scores and kickoff times change, and the stream grows. */
  lemma RescoredKeepsInv(config: PipelineConfig, s: Snapshot, n: Snapshot, events: seq<FeedEvent>, more: seq<FeedEvent>)
    requires Inv(config, s, events)
    requires n == s.(fixtureStartMs := n.fixtureStartMs, scores := n.scores)
    requires AllGenuine(s.settlements, more) && TracksTop(n.scores, more)
    requires SettledAreFinal(s.settled, s.open, n.scores)
    ensures Inv(config, n, more)
  {
  }

  lemma HandleScoreShape(s: Snapshot, score: ScoreUpdate)
    ensures var n := HandleScore(s, score); n == s.(fixtureStartMs := n.fixtureStartMs, scores := n.scores)
  {
    hide GoalBearing, Outranks, ScoreStateOf;
    var n := HandleScore(s, score);
    var timed := if score.startTimeMs.Some?
                 then s.(fixtureStartMs := s.fixtureStartMs[score.fixtureId := score.startTimeMs.value]) else s;
    assert n == timed || n == timed.(scores := n.scores);
  }

  lemma HandleScoreKeepsInv(config: PipelineConfig, s: Snapshot, events: seq<FeedEvent>, score: ScoreUpdate)
    requires Inv(config, s, events)
    ensures Inv(config, HandleScore(s, score), events + [ScoreEvent(score)])
  {
    var more := events + [ScoreEvent(score)];
    GenuineGrows(s.settlements, events, ScoreEvent(score));
    HandleScoreTracksTop(s, events, score);
    HandleScoreKeepsFinality(s, score);
    HandleScoreShape(s, score);
    RescoredKeepsInv(config, s, HandleScore(s, score), events, more);
  }

  // ---------------------------------------------------------------------------------------------
  // Settlements keep the invariant

  lemma PnlsSnoc(log: seq<SettledPosition>, p: SettledPosition)
    ensures Pnls(log + [p]) == Pnls(log) + [p.pnl]
  {
  }

  lemma LogGrows(log: seq<SettledPosition>, settled: set<nat>, open: seq<Position>, done: SettledPosition)
    requires LoggedOnce(log, settled, open)
    requires done.index < |open| && done.index !in settled && done.decision == open[done.index].decision
    ensures LoggedOnce(log + [done], settled + {done.index}, open)
  {
    var longer := log + [done];
    forall k | k in settled + {done.index}
      ensures Logs(longer, k)
    {
      if k == done.index {
        assert longer[|log|].index == k;
      } else {
        var i :| 0 <= i < |log| && log[i].index == k;
        assert longer[i].index == k;
      }
    }
  }

  lemma WalkGrows(config: PipelineConfig, risk: RiskState, log: seq<SettledPosition>, done: SettledPosition)
    requires BankrollIsWalk(config, risk, log)
    ensures BankrollIsWalk(config, OnSettlement(risk, done.decision, done.pnl), log + [done])
  {
    PnlsSnoc(log, done);
    ReflectedAgrees(config.startingBankroll, Pnls(log) + [done.pnl], Pnls(log), |log|);
  }

  lemma SettlementIsGenuine(s: Snapshot, events: seq<FeedEvent>, position: Position)
    requires TracksTop(s.scores, events) && HasFinalScore(s.scores, position.decision.fixtureId)
    ensures Genuine(Settlement(s, position, s.scores[position.decision.fixtureId]), events)
  {
    var f := position.decision.fixtureId;
    assert IsTopScore(s.scores[f], f, events);
    var e :| e in events && Scores(e, f) && ScoreStateOf(e.score) == s.scores[f];
    assert SettledBy(Settlement(s, position, s.scores[f]), e);
  }

  lemma GenuineSnoc(log: seq<SettledPosition>, p: SettledPosition, events: seq<FeedEvent>)
    requires AllGenuine(log, events) && Genuine(p, events)
    ensures AllGenuine(log + [p], events)
  {
  }

  /** Only the risk state, the settled set and the log change. */
  lemma SettledKeepsInv(config: PipelineConfig, s: Snapshot, n: Snapshot, events: seq<FeedEvent>, k: nat)
    requires Inv(config, s, events)
    requires n == s.(risk := n.risk, settled := s.settled + {k}, settlements := n.settlements)
    requires k < |s.open| && HasFinalScore(s.scores, s.open[k].decision.fixtureId)
    requires LoggedOnce(n.settlements, n.settled, s.open) && BankrollIsWalk(config, n.risk, n.settlements)
    requires AllGenuine(n.settlements, events) && Sound(config.decision.risk, n.risk, s.open, n.settled)
    ensures Inv(config, n, events)
  {
    hide LoggedOnce, BankrollIsWalk, AllGenuine, Sound, TracksTop, Numbered;
  }

  lemma SettleOneKeepsInv(config: PipelineConfig, s: Snapshot, events: seq<FeedEvent>, k: nat, n: Snapshot)
    requires Inv(config, s, events)
    requires k < |s.open| && HasFinalScore(s.scores, s.open[k].decision.fixtureId)
    requires n == SettleOne(s, s.open[k], s.scores[s.open[k].decision.fixtureId])
    ensures Inv(config, n, events)
  {
    hide LoggedOnce, BankrollIsWalk, AllGenuine, Genuine, Sound, TracksTop, OnSettlement;
    if k !in s.settled {
      var d := s.open[k].decision;
      var p := Settlement(s, s.open[k], s.scores[d.fixtureId]);
      LogGrows(s.settlements, s.settled, s.open, p);
      WalkGrows(config, s.risk, s.settlements, p);
      SettlementIsGenuine(s, events, s.open[k]);
      GenuineSnoc(s.settlements, p, events);
      PnlIsBoundedBelow(p.won, d.stake, d.entryOdds);
      SettlementKeepsSound(config.decision.risk, s.risk, s.open, s.settled, k, p.pnl);
      SettledKeepsInv(config, s, n, events, k);
    }
  }

  /** Whether a sweep is due to settle position k. */
  predicate Due(s: Snapshot, only: Option<FixtureId>, k: nat)
    requires k < |s.open|
  {
    var f := s.open[k].decision.fixtureId;
    (only == None || only == Some(f)) && HasFinalScore(s.scores, f)
  }

  /** Induction over a sweep: what settling one due position keeps, the whole sweep keeps. */
  lemma {:induction false} SweepInduction(P: Snapshot -> bool, s: Snapshot, only: Option<FixtureId>, n: nat)
    requires n <= |s.open| && P(s)
    requires forall t: Snapshot, k ::
               P(t) && t.open == s.open && t.scores == s.scores && 0 <= k < n && Due(s, only, k)
               ==> P(SettleOne(t, s.open[k], s.scores[s.open[k].decision.fixtureId]))
    ensures P(Sweep(s, only, n))
  {
    hide SettleOne;
    if n > 0 {
      SweepInduction(P, s, only, n - 1);
      assert Due(s, only, n - 1)
        ==> P(SettleOne(Sweep(s, only, n - 1), s.open[n - 1], s.scores[s.open[n - 1].decision.fixtureId]));
    }
  }

  lemma SweepKeepsInv(config: PipelineConfig, s: Snapshot, events: seq<FeedEvent>, only: Option<FixtureId>, n: nat)
    requires Inv(config, s, events) && n <= |s.open|
    ensures Inv(config, Sweep(s, only, n), events)
  {
    var P := (t: Snapshot) => Inv(config, t, events);
    forall t: Snapshot, k |
      P(t) && t.open == s.open && t.scores == s.scores && 0 <= k < n && Due(s, only, k)
      ensures P(SettleOne(t, s.open[k], s.scores[s.open[k].decision.fixtureId]))
    {
      SettleOneKeepsInv(config, t, events, k, SettleOne(t, s.open[k], s.scores[s.open[k].decision.fixtureId]));
    }
    SweepInduction(P, s, only, n);
    assert P(Sweep(s, only, n));
  }

  /** A sweep settles the positions that were settled before plus exactly the due ones. */
  lemma {:induction false} SweepSettlesDue(s: Snapshot, only: Option<FixtureId>, n: nat)
    requires Numbered(s.open, s.commits, s.decisionsCount) && n <= |s.open|
    ensures Sweep(s, only, n).settled == s.settled + set k | 0 <= k < n && Due(s, only, k)
  {
    hide SettleOne, Due;
    if n > 0 {
      SweepSettlesDue(s, only, n - 1);
      SettlesItsIndex(s, only, n);
      assert (set k | 0 <= k < n && Due(s, only, k))
          == (set k | 0 <= k < n - 1 && Due(s, only, k)) + if Due(s, only, n - 1) then {n - 1} else {};
    }
  }

  lemma SettlesItsIndex(s: Snapshot, only: Option<FixtureId>, n: nat)
    requires Numbered(s.open, s.commits, s.decisionsCount) && 0 < n <= |s.open|
    ensures Sweep(s, only, n).settled
         == Sweep(s, only, n - 1).settled + if Due(s, only, n - 1) then {n - 1} else {}
  {
    assert s.open[n - 1].index == n - 1;
  }

  // ---------------------------------------------------------------------------------------------
  // The run

  lemma QuietEventKeepsInv(config: PipelineConfig, s: Snapshot, events: seq<FeedEvent>, event: FeedEvent)
    requires Inv(config, s, events) && !event.ScoreEvent?
    ensures Inv(config, s, events + [event])
  {
    GenuineGrows(s.settlements, events, event);
    OtherEventKeepsTop(s.scores, events, event);
  }

  lemma StepKeepsInv(
    config: PipelineConfig, s: Snapshot, events: seq<FeedEvent>, event: FeedEvent, n: Snapshot, more: seq<FeedEvent>)
    requires Inv(config, s, events)
    requires n == Step(config, s, event) && more == events + [event]
    ensures Inv(config, n, more)
  {
    hide Inv, HandleOdds, HandleCrossMarketOdds, HandleScore, Sweep;
    match event
    case ScoreEvent(score) =>
      HandleScoreKeepsInv(config, s, events, score);
      if IsFinalGameState(score.gameState) {
        var rated := UpdateRatings(config, HandleScore(s, score), score.fixtureId);
        SameCoreKeepsInv(config, HandleScore(s, score), rated, more);
        SweepKeepsInv(config, rated, more, Some(score.fixtureId), |rated.open|);
      }
    case OddsEvent(odds, nowMs, multiplier) =>
      QuietEventKeepsInv(config, s, events, event);
      if config.crossMarket.Some? {
        HandleCrossKeepsInv(config, s, more, odds, nowMs, multiplier);
      } else {
        HandleOddsKeepsInv(config, s, more, odds, nowMs);
      }
    case _ =>
      QuietEventKeepsInv(config, s, events, event);
      SameCoreKeepsInv(config, s, n, more);
  }

  /** Every prefix of every run satisfies the invariant. */
  lemma {:induction false} EveryRunKeepsInv(config: PipelineConfig, events: seq<FeedEvent>)
    ensures Inv(config, Drive(config, events), events)
  {
    if |events| == 0 {
      FreshStateIsSound(config.decision.risk, config.startingBankroll);
      assert Drive(config, events) == Initial(config);
    } else {
      var front, last := events[..|events| - 1], events[|events| - 1];
      EveryRunKeepsInv(config, front);
      StepKeepsInv(config, Drive(config, front), front, last, Drive(config, events), events);
    }
  }

  // ---------------------------------------------------------------------------------------------
  // Main results

  /** The moments of a run that has taken these events: after the last event; during that event's settlement
      sweep, if it was a final whistle; and during or after the sweep at the end of the feed. */
  ghost predicate IsMoment(config: PipelineConfig, events: seq<FeedEvent>, s: Snapshot) {
    || s == Drive(config, events)
    || DuringWhistle(config, events, s)
    || DuringFinalSweep(config, events, s)
  }

  ghost predicate DuringFinalSweep(config: PipelineConfig, events: seq<FeedEvent>, s: Snapshot) {
    exists n :: 0 <= n <= |Drive(config, events).open| && s == Sweep(Drive(config, events), None, n)
  }

  ghost predicate DuringWhistle(config: PipelineConfig, events: seq<FeedEvent>, s: Snapshot) {
    && |events| > 0 && events[|events| - 1].ScoreEvent?
    && var score := events[|events| - 1].score;
       var rated := UpdateRatings(config, HandleScore(Drive(config, events[..|events| - 1]), score), score.fixtureId);
       && IsFinalGameState(score.gameState)
       && exists n :: 0 <= n <= |rated.open| && s == Sweep(rated, Some(score.fixtureId), n)
  }

  lemma WhistleSweepKeepsInv(config: PipelineConfig, front: seq<FeedEvent>, score: ScoreUpdate, rated: Snapshot, n: nat)
    requires rated == UpdateRatings(config, HandleScore(Drive(config, front), score), score.fixtureId)
    requires n <= |rated.open|
    ensures Inv(config, Sweep(rated, Some(score.fixtureId), n), front + [ScoreEvent(score)])
  {
    var scored, events := HandleScore(Drive(config, front), score), front + [ScoreEvent(score)];
    EveryRunKeepsInv(config, front);
    HandleScoreKeepsInv(config, Drive(config, front), front, score);
    hide Inv, Drive, HandleScore, Sweep;
    SameCoreKeepsInv(config, scored, rated, events);
    SweepKeepsInv(config, rated, events, Some(score.fixtureId), n);
  }

  lemma FinalSweepKeepsInv(config: PipelineConfig, events: seq<FeedEvent>, n: nat)
    requires n <= |Drive(config, events).open|
    ensures Inv(config, Sweep(Drive(config, events), None, n), events)
  {
    hide Inv, Drive, Sweep;
    EveryRunKeepsInv(config, events);
    SweepKeepsInv(config, Drive(config, events), events, None, n);
  }

  /** The invariant holds at every moment, not only between events. */
  lemma EveryMomentKeepsInv(config: PipelineConfig, events: seq<FeedEvent>, s: Snapshot)
    requires IsMoment(config, events, s)
    ensures Inv(config, s, events)
  {
    hide Inv, Drive, HandleScore, UpdateRatings, Sweep;
    if s == Drive(config, events) {
      EveryRunKeepsInv(config, events);
    } else if DuringFinalSweep(config, events, s) {
      var n :| 0 <= n <= |Drive(config, events).open| && s == Sweep(Drive(config, events), None, n);
      FinalSweepKeepsInv(config, events, n);
    } else {
      var front, score := events[..|events| - 1], events[|events| - 1].score;
      var rated := UpdateRatings(config, HandleScore(Drive(config, front), score), score.fixtureId);
      var n :| 0 <= n <= |rated.open| && s == Sweep(rated, Some(score.fixtureId), n);
      WhistleSweepKeepsInv(config, front, score, rated, n);
      assert front + [ScoreEvent(score)] == events;
    }
  }

  /** The end of the run is one of its moments. */
  lemma RunEndKeepsInv(config: PipelineConfig, events: seq<FeedEvent>)
    ensures Inv(config, RunToEnd(config, events), events)
  {
    FinalSweepKeepsInv(config, events, |Drive(config, events).open|);
  }

  /** Exposure conservation and caps, at every moment of every run. */
  lemma ExposureIsConserved(config: PipelineConfig, events: seq<FeedEvent>, s: Snapshot, g: Gauge)
    requires IsMoment(config, events, s)
    ensures Reading(s.risk, g) == Outstanding(g, s.open, s.settled) <= Limit(config.decision.risk, g)
  {
    EveryMomentKeepsInv(config, events, s);
    assert Sound(config.decision.risk, s.risk, s.open, s.settled);
  }

  /** However the open positions end, at every moment the bankroll stays above the loss floor. */
  lemma PipelineWorstCaseLoss(config: PipelineConfig, events: seq<FeedEvent>, s: Snapshot)
    requires IsMoment(config, events, s)
    ensures config.startingBankroll - config.decision.risk.maxDailyDrawdown - config.decision.risk.totalExposureCap
            <= s.risk.bankroll - s.risk.totalExposure
  {
    EveryMomentKeepsInv(config, events, s);
  }

  /** Settlement exactness: at the end of a run the settled positions are exactly those whose fixture has a
      tracked final score; each was told to the sink once, and books a final score event's seq and result. */
  lemma SettlementIsExact(config: PipelineConfig, events: seq<FeedEvent>)
    ensures var s := RunToEnd(config, events);
            && (forall k :: 0 <= k < |s.open| ==>
                  (k in s.settled <==> HasFinalScore(s.scores, s.open[k].decision.fixtureId)))
            && (forall k :: k in s.settled ==> k < |s.open|)
            && LoggedOnce(s.settlements, s.settled, s.open)
            && AllGenuine(s.settlements, events)
  {
    EveryRunKeepsInv(config, events);
    RunEndKeepsInv(config, events);
    var s := Drive(config, events);
    SweepSettlesDue(s, None, |s.open|);
  }

  /** Some goal-bearing final score of the fixture is among the events. */
  ghost predicate FinalScoreIn(events: seq<FeedEvent>, f: FixtureId) {
    exists e :: e in events && Scores(e, f) && IsFinalGameState(e.score.gameState)
  }

  ghost predicate AnyScoreIn(events: seq<FeedEvent>, f: FixtureId) {
    exists e :: e in events && Scores(e, f)
  }

  /** Tracked scores tell which score events arrived. */
  lemma TrackedIffScored(scores: map<FixtureId, ScoreState>, events: seq<FeedEvent>, f: FixtureId)
    requires TracksTop(scores, events)
    ensures f in scores <==> AnyScoreIn(events, f)
    ensures HasFinalScore(scores, f) <==> FinalScoreIn(events, f)
  {
    if f in scores {
      assert IsTopScore(scores[f], f, events);
    }
  }

  /** A fixture has a tracked final score exactly when some goal-bearing final score event arrived for it. */
  lemma FinalScoreIffFinalEvent(config: PipelineConfig, events: seq<FeedEvent>, f: FixtureId)
    ensures HasFinalScore(RunToEnd(config, events).scores, f) <==> FinalScoreIn(events, f)
  {
    EveryRunKeepsInv(config, events);
    TrackedIffScored(Drive(config, events).scores, events, f);
  }

  /** Two goal-bearing scores of one fixture with the same seq are the same score. */
  ghost predicate UniqueSeqs(events: seq<FeedEvent>) {
    forall a, b, f {:trigger Scores(a, f), Scores(b, f)} ::
      a in events && b in events && Scores(a, f) && Scores(b, f) && a.score.seqNo == b.score.seqNo
      ==> ScoreStateOf(a.score) == ScoreStateOf(b.score)
  }

  ghost predicate SameScoreEvents(left: seq<FeedEvent>, right: seq<FeedEvent>) {
    forall e: FeedEvent :: e.ScoreEvent? ==> (e in left <==> e in right)
  }

  lemma TrackedCarriesOver(
    l: map<FixtureId, ScoreState>, r: map<FixtureId, ScoreState>, left: seq<FeedEvent>, right: seq<FeedEvent>, f: FixtureId)
    requires TracksTop(l, left) && TracksTop(r, right) && SameScoreEvents(left, right) && f in l
    ensures f in r
  {
    assert IsTopScore(l[f], f, left);
    var a :| a in left && Scores(a, f) && ScoreStateOf(a.score) == l[f];
    assert a in right;
  }

  lemma TrackedAgree(
    l: map<FixtureId, ScoreState>, r: map<FixtureId, ScoreState>, left: seq<FeedEvent>, right: seq<FeedEvent>, f: FixtureId)
    requires TracksTop(l, left) && TracksTop(r, right) && SameScoreEvents(left, right) && UniqueSeqs(left)
    requires f in l && f in r
    ensures l[f] == r[f]
  {
    assert IsTopScore(l[f], f, left) && IsTopScore(r[f], f, right);
    var a :| a in left && Scores(a, f) && ScoreStateOf(a.score) == l[f];
    var b :| b in right && Scores(b, f) && ScoreStateOf(b.score) == r[f];
    assert b in left && !Outranks(b.score.gameState, b.score.seqNo, l[f]);
    assert a in right && !Outranks(a.score.gameState, a.score.seqNo, r[f]);
    assert a.score.seqNo == b.score.seqNo;
  }

  /** Arrival order, duplicates and unrelated traffic do not matter: with unique seqs, the tracked scores
      depend only on which score events arrived. */
  lemma TrackedScoresIgnoreArrivalOrder(config: PipelineConfig, left: seq<FeedEvent>, right: seq<FeedEvent>)
    requires SameScoreEvents(left, right) && UniqueSeqs(left)
    ensures Drive(config, left).scores == Drive(config, right).scores
  {
    EveryRunKeepsInv(config, left);
    EveryRunKeepsInv(config, right);
    var l, r := Drive(config, left).scores, Drive(config, right).scores;
    forall f
      ensures f in l <==> f in r
      ensures f in l ==> l[f] == r[f]
    {
      if f in l {
        TrackedCarriesOver(l, r, left, right, f);
        TrackedAgree(l, r, left, right, f);
      } else if f in r {
        TrackedCarriesOver(r, l, right, left, f);
      }
    }
  }

  /** The run's bankroll is the reflected walk of its settlement log: never below the report's plain sum,
      and equal to it exactly when no prefix of the log goes negative. */
  lemma FinalBankrollVersusReport(config: PipelineConfig, events: seq<FeedEvent>)
    ensures var s := RunToEnd(config, events); var pnls := Pnls(s.settlements);
            var start := config.startingBankroll; var n := |pnls|;
            && s.risk.bankroll == Reflected(start, pnls, n)
            && Level(start, pnls, n) <= s.risk.bankroll
            && (s.risk.bankroll == Level(start, pnls, n) <==> forall k :: 0 <= k <= n ==> 0 <= Level(start, pnls, k))
  {
    RunEndKeepsInv(config, events);
    var pnls := Pnls(RunToEnd(config, events).settlements);
    ClampMattersIffSomePrefixIsNegative(config.startingBankroll, pnls, |pnls|);
  }

  /** No market is entered twice by the per-market strategies, and no fixture twice by the cross-market one. */
  lemma NoReentry(config: PipelineConfig, events: seq<FeedEvent>, s: Snapshot, i: nat, j: nat)
    requires IsMoment(config, events, s) && i < j < |s.open|
    ensures if config.crossMarket.None? then s.open[i].decision.marketKey != s.open[j].decision.marketKey
            else s.open[i].decision.fixtureId != s.open[j].decision.fixtureId
  {
    EveryMomentKeepsInv(config, events, s);
  }

  /** The closing line is the latest observation after entry and before kickoff, and is known exactly when
      there is one. */
  lemma {:induction false} LatestIsLatest(history: seq<ProbObservation>, w: Window)
    ensures var best := LatestIn(history, w);
            && (best.None? <==> forall o :: o in history ==> !InWindow(o, w))
            && (best.Some? ==> best.value in history && InWindow(best.value, w))
            && (best.Some? ==> forall o :: o in history && InWindow(o, w) ==> o.tsMs <= best.value.tsMs)
  {
    if |history| > 0 {
      var front, last := history[..|history| - 1], history[|history| - 1];
      LatestIsLatest(front, w);
      assert history == front + [last];
    }
  }

  /** Where an outcome stands in the canonical 1X2 order; Other is not in it. */
  function Rank(outcome: Outcome): nat {
    match outcome case Home => 0 case Draw => 1 case Away => 2 case Other => 3
  }

  /** Recording a fair book appends one observation to each priced outcome's history, drops the oldest
      beyond the limit, and leaves every other outcome alone. */
  lemma {:induction false} ObservationIsAppended(
    market: MarketState, book: FairBook, lines: seq<OddsLine>, tsMs: int, limit: nat, n: nat, outcome: Outcome)
    requires n <= |OUTCOMES_1X2|
    ensures GetOr(ObserveBook(market, book, lines, tsMs, limit, n).history, outcome, [])
         == var p := FairProbOf(book, outcome);
            var past := GetOr(market.history, outcome, []);
            if Rank(outcome) < n && p.Some? then KeepLast(past + [ProbObservation(tsMs, p.value)], limit) else past
  {
    if n > 0 {
      ObservationIsAppended(market, book, lines, tsMs, limit, n - 1, outcome);
      var before := ObserveBook(market, book, lines, tsMs, limit, n - 1);
      var seen := OUTCOMES_1X2[n - 1];
      assert Rank(seen) == n - 1;
      if outcome != seen {
        assert Rank(outcome) != n - 1;
      }
      assert ObserveBook(market, book, lines, tsMs, limit, n)
          == match FairProbOf(book, seen)
             case None => before
             case Some(p) => ObserveOutcome(before, seen, p, OfferedOdds(lines, seen), tsMs, limit);
    }
  }

  /** The per-market path acts on the first outcome, in home-draw-away order, that leads to a decision. */
  lemma {:induction false} FirstDecisionIsFirst(
    config: PipelineConfig, risk: RiskState, market: MarketState, odds: OddsUpdate, nowMs: int, book: FairBook, n: nat)
    requires n <= |OUTCOMES_1X2|
    ensures var first := FirstDecision(config, risk, market, odds, nowMs, book, n);
            if first.None? then
              forall i :: n <= i < |OUTCOMES_1X2| ==>
                OutcomeDecision(config, risk, market, odds, nowMs, book, OUTCOMES_1X2[i]).None?
            else
              exists i :: n <= i < |OUTCOMES_1X2|
                && OutcomeDecision(config, risk, market, odds, nowMs, book, OUTCOMES_1X2[i]) == first
                && forall j :: n <= j < i ==>
                     OutcomeDecision(config, risk, market, odds, nowMs, book, OUTCOMES_1X2[j]).None?
    decreases |OUTCOMES_1X2| - n
  {
    if n < |OUTCOMES_1X2| {
      FirstDecisionIsFirst(config, risk, market, odds, nowMs, book, n + 1);
    }
  }

  /** The cross-market path commits only on a full-game market, with kickoff known and inside the lead
      window, with both market families on the surface, on a fixture not yet acted on, and never twice
      within the refit gap. */
  lemma CrossEntryIsGated(
    config: PipelineConfig, cross: CrossMarketConfig, s: Snapshot, odds: OddsUpdate, nowMs: int, sizeMultiplier: real)
    requires HandleCrossMarketOdds(config, cross, s, odds, nowMs, sizeMultiplier).decisionsCount != s.decisionsCount
    ensures odds.period.FullGame? && odds.fixtureId !in s.actedFixtures && odds.fixtureId in s.fixtureStartMs
    ensures cross.minLeadMs <= s.fixtureStartMs[odds.fixtureId] - nowMs <= cross.maxLeadMs
    ensures var before := GetOr(s.surfaces, odds.fixtureId, EmptySurface());
            && (odds.marketKind.Result1X2? ==> before.overUnder != map[])
            && (!odds.marketKind.Result1X2? ==> odds.marketKind.OverUnder? && before.matchQuote.Some?)
            && (cross.minRefitMs > 0 && before.lastFitMs.Some?
                ==> cross.minRefitMs <= odds.tsMs - before.lastFitMs.value)
  {
    var surface, seen := CrossShape(config, cross, s, odds, nowMs, sizeMultiplier);
    var joined := JoinSurface(GetOr(s.surfaces, odds.fixtureId, EmptySurface()), odds);
    if odds.period.FullGame? && joined.Some? {
      JoiningKeepsCore(config, cross, s, odds, joined.value);
    }
  }

  /** Ratings are meant to fold each fixture's final result. The score folded at a final whistle is final
      exactly when that event carries goals or a final score was already tracked. */
  lemma RatedScoreIsFinalIff(config: PipelineConfig, s: Snapshot, score: ScoreUpdate)
    requires config.eloOverlay && IsFinalGameState(score.gameState)
    requires score.fixtureId in s.fixtureTeams && score.fixtureId !in s.rated
    requires GoalBearing(score) || score.fixtureId in s.scores
    ensures var n := UpdateRatings(config, HandleScore(s, score), score.fixtureId);
            && score.fixtureId in n.rated
            && (IsFinalGameState(n.rated[score.fixtureId].gameState)
                <==> GoalBearing(score) || HasFinalScore(s.scores, score.fixtureId))
  {
  }

  /** The same in terms of the events alone, for every run: a whistle folds a score in exactly when some goals
      have been reported by then, and a final one exactly when some final event up to and including the
      whistle carried goals. */
  lemma WhistleFoldsFinalIff(config: PipelineConfig, front: seq<FeedEvent>, whistle: ScoreUpdate)
    requires config.eloOverlay && IsFinalGameState(whistle.gameState)
    requires whistle.fixtureId in Drive(config, front).fixtureTeams && whistle.fixtureId !in Drive(config, front).rated
    ensures var f, events := whistle.fixtureId, front + [ScoreEvent(whistle)];
            var rated := Drive(config, events).rated;
            && (f in rated <==> AnyScoreIn(events, f))
            && (f in rated ==> (IsFinalGameState(rated[f].gameState) <==> FinalScoreIn(events, f)))
            && (f in rated ==> f in Drive(config, events).scores && rated[f] == Drive(config, events).scores[f])
  {
    var s, f, event := Drive(config, front), whistle.fixtureId, ScoreEvent(whistle);
    var events := front + [event];
    var scored := HandleScore(s, whistle);
    assert events[..|front|] == front;
    EveryRunKeepsInv(config, front);
    HandleScoreTracksTop(s, front, whistle);
    HandleScoreShape(s, whistle);
    SweepKeepsRated(UpdateRatings(config, scored, f), Some(f), |s.open|);
    TrackedIffScored(scored.scores, events, f);
    assert event in events;
  }

  /** The failing case: an in-running 1-0 followed by a final whistle with no goals folds the 1-0. */
  lemma NullGoalWhistleFoldsInRunningScore(config: PipelineConfig)
    requires config.eloOverlay
    ensures var events := [FixtureEvent(7, 1, 2),
                           ScoreEvent(ScoreUpdate(7, 1, 0, "H2", None, Some(1), Some(0))),
                           ScoreEvent(ScoreUpdate(7, 2, 0, "F", None, None, None))];
            var s := Drive(config, events);
            7 in s.rated && s.rated[7].gameState == "H2"
  {
    var e0 := FixtureEvent(7, 1, 2);
    var e1 := ScoreEvent(ScoreUpdate(7, 1, 0, "H2", None, Some(1), Some(0)));
    var e2 := ScoreEvent(ScoreUpdate(7, 2, 0, "F", None, None, None));
    var events := [e0, e1, e2];
    assert events[..2] == [e0, e1] && [e0, e1][..1] == [e0] && [e0][..0] == [];
    assert Drive(config, []) == Initial(config);
    assert Drive(config, [e0]) == Step(config, Initial(config), e0);
    var s1 := Drive(config, [e0, e1]);
    assert s1 == Step(config, Drive(config, [e0]), e1);
    assert s1.scores[7].gameState == "H2";
    SweepKeepsRated(UpdateRatings(config, HandleScore(s1, e2.score), 7), Some(7), |s1.open|);
  }

  lemma {:induction false} SweepKeepsRated(s: Snapshot, only: Option<FixtureId>, n: nat)
    requires n <= |s.open|
    ensures Sweep(s, only, n).rated == s.rated
  {
    if n > 0 {
      SweepKeepsRated(s, only, n - 1);
    }
  }
}
