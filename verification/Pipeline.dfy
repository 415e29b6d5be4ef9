/** The trading pipeline as the mutable object the source keeps: maps, sets and the open list updated in
    place, handler by handler, each proved to perform the corresponding step of PipelineModel. */
module Pipeline {
  import opened Prelude
  import opened Domain
  import opened Risk
  import opened Sizing
  import opened PipelineModel
  import opened PipelineProofs

  datatype PipelineResult = PipelineResult(
    committed: nat, settled: nat, finalBankroll: MicroUsd, eventsProcessed: nat)

  /** Odds by outcome, later lines overwriting earlier ones. */
  method OddsByOutcomeOf(lines: seq<OddsLine>) returns (offered: map<Outcome, OddsMilli>)
    ensures forall o :: if o in offered then OfferedOdds(lines, o) == Some(offered[o]) else OfferedOdds(lines, o) == None
  {
    offered := map[];
    for i := 0 to |lines|
      invariant forall o :: if o in offered then OfferedOdds(lines[..i], o) == Some(offered[o])
                            else OfferedOdds(lines[..i], o) == None
    {
      offered := offered[lines[i].outcome := lines[i].odds];
      assert lines[..i + 1][..i] == lines[..i];
    }
    assert lines[..|lines|] == lines;
  }

  method PushBounded(history: seq<ProbObservation>, o: ProbObservation, limit: nat)
    returns (bounded: seq<ProbObservation>)
    ensures bounded == KeepLast(history + [o], limit)
    ensures |bounded| <= limit
  {
    bounded := history + [o];
    while |bounded| > limit
      invariant |bounded| <= |history| + 1
      invariant bounded == (history + [o])[|history| + 1 - |bounded|..]
      invariant limit <= |bounded| || |bounded| == |history| + 1
      decreases |bounded|
    {
      bounded := bounded[1..];
    }
  }

  /** Fold one fair book into a market's latest values and bounded histories. */
  method RecordMarketObservation(
    market: MarketState, book: FairBook, lines: seq<OddsLine>, offered: map<Outcome, OddsMilli>, tsMs: int, limit: nat)
    returns (updated: MarketState)
    requires forall o :: if o in offered then OfferedOdds(lines, o) == Some(offered[o]) else OfferedOdds(lines, o) == None
    ensures updated == ObserveBook(market, book, lines, tsMs, limit, |OUTCOMES_1X2|)
  {
    updated := market;
    for i := 0 to |OUTCOMES_1X2|
      invariant updated == ObserveBook(market, book, lines, tsMs, limit, i)
    {
      var outcome := OUTCOMES_1X2[i];
      var fairProb := FairProbOf(book, outcome);
      if fairProb.Some? {
        updated := updated.(lastFairProb := updated.lastFairProb[outcome := fairProb.value]);
        if outcome in offered {
          updated := updated.(lastOdds := updated.lastOdds[outcome := offered[outcome]]);
        }
        var history := PushBounded(GetOr(updated.history, outcome, []), ProbObservation(tsMs, fairProb.value), limit);
        updated := updated.(history := updated.history[outcome := history]);
      }
    }
  }

  /** The entry and closing consensus observations, found in one pass over a history. */
  method FindConsensus(history: seq<ProbObservation>, entryWindow: Window, closingWindow: Window)
    returns (entry: Option<ProbObservation>, closing: Option<ProbObservation>)
    ensures entry == LatestIn(history, entryWindow)
    ensures closing == LatestIn(history, closingWindow)
  {
    entry, closing := None, None;
    for i := 0 to |history|
      invariant entry == LatestIn(history[..i], entryWindow)
      invariant closing == LatestIn(history[..i], closingWindow)
    {
      var o := history[i];
      if InWindow(o, entryWindow) && (entry.None? || o.tsMs > entry.value.tsMs) {
        entry := Some(o);
      }
      if InWindow(o, closingWindow) && (closing.None? || o.tsMs > closing.value.tsMs) {
        closing := Some(o);
      }
      assert history[..i + 1][..i] == history[..i];
    }
    assert history[..|history|] == history;
  }

  class Pipeline {
    const config: PipelineConfig
    var riskState: RiskState
    var markets: map<MarketKey, MarketState>
    var surfaces: map<FixtureId, FixtureSurface>
    var fixtureStartMs: map<FixtureId, int>
    var scores: map<FixtureId, ScoreState>
    var fixtureTeams: map<FixtureId, (int, int)>
    var rated: map<FixtureId, ScoreState>
    var open: seq<Position>
    var actedMarkets: set<MarketKey>
    var actedFixtures: set<FixtureId>
    var settled: set<nat>
    var decisionsCount: nat
    // The recording sink: what onCommit and onSettle have been called with.
    var sinkCommits: seq<Position>
    var sinkSettlements: seq<SettledPosition>

    ghost function State(): Snapshot
      reads this
    {
      Snapshot(riskState, markets, surfaces, fixtureStartMs, scores, fixtureTeams, rated, open, actedMarkets,
               actedFixtures, settled, decisionsCount, sinkCommits, sinkSettlements)
    }

    constructor (config: PipelineConfig)
      ensures this.config == config && State() == Initial(config)
    {
      this.config := config;
      riskState := CreateRiskState(config.startingBankroll);
      markets, surfaces, fixtureStartMs, scores, fixtureTeams, rated := map[], map[], map[], map[], map[], map[];
      open, actedMarkets, actedFixtures, settled, decisionsCount := [], {}, {}, {}, 0;
      sinkCommits, sinkSettlements := [], [];
    }

    method CommitDecision(decision: Decision, nowMs: int)
      modifies this
      ensures State() == Commit(old(State()), decision, nowMs)
    {
      hide OnCommit;
      var index := decisionsCount;
      riskState := OnCommit(riskState, decision);
      open := open + [Position(index, decision, nowMs)];
      decisionsCount := decisionsCount + 1;
      sinkCommits := sinkCommits + [Position(index, decision, nowMs)];
    }

    method ObserveFairBook(odds: OddsUpdate, book: FairBook) returns (offered: map<Outcome, OddsMilli>)
      modifies this`markets
      ensures State() == Observe(old(State()), odds, book, config.steamHistoryLimit)
      ensures forall o :: if o in offered then OfferedOdds(odds.lines, o) == Some(offered[o])
                          else OfferedOdds(odds.lines, o) == None
    {
      offered := OddsByOutcomeOf(odds.lines);
      var market := GetOr(markets, odds.marketKey, MarketState(odds.fixtureId, map[], map[], map[]));
      market := RecordMarketObservation(market, book, odds.lines, offered, odds.tsMs, config.steamHistoryLimit);
      markets := markets[odds.marketKey := market];
    }

    /** Steam and divergence path; returns the number of decisions committed. */
    method HandleOddsUpdate(odds: OddsUpdate, nowMs: int) returns (committed: nat)
      modifies this
      ensures State() == HandleOdds(config, old(State()), odds, nowMs)
      ensures decisionsCount == old(decisionsCount) + committed
    {
      var fairBook := config.devig(odds.lines);
      if fairBook.None? {
        return 0;
      }
      var book := fairBook.value;
      var offered := ObserveFairBook(odds, book);
      if odds.marketKey in actedMarkets {
        return 0;
      }
      ghost var seen := State();
      var market := markets[odds.marketKey];
      for i := 0 to |OUTCOMES_1X2|
        invariant State() == seen
        invariant FirstDecision(config, riskState, market, odds, nowMs, book, 0)
               == FirstDecision(config, riskState, market, odds, nowMs, book, i)
      {
        var outcome := OUTCOMES_1X2[i];
        var fairProb := FairProbOf(book, outcome);
        if fairProb.Some? && outcome in offered {
          var signal := SteamOrDivergence(config, odds, outcome, GetOr(market.history, outcome, []), fairProb.value,
                                          offered[outcome]);
          if signal.Some? {
            var built := BuildDecision(signal.value, riskState, RiskContext(fairProb.value, 0.0), nowMs, odds.tsMs, 1.0,
                                       config.decision);
            if built.Decided? {
              actedMarkets := actedMarkets + {odds.marketKey};
              CommitDecision(built.decision, nowMs);
              return 1;
            }
          }
        }
      }
      return 0;
    }

    method StoreSurface(cross: CrossMarketConfig, odds: OddsUpdate, surface: FixtureSurface)
      modifies this`surfaces, this`markets
      ensures State() == JoinAndObserve(config, cross, old(State()), odds, surface)
    {
      surfaces := surfaces[odds.fixtureId := surface];
      if odds.marketKind.Result1X2? && !odds.inRunning {
        var fairBook := cross.devig(odds.lines);
        if fairBook.Some? {
          var _ := ObserveFairBook(odds, fairBook.value);
        }
      }
    }

    method FitSurface(
      cross: CrossMarketConfig, surface: FixtureSurface, odds: OddsUpdate, nowMs: int, sizeMultiplier: real)
      returns (committed: nat)
      requires surface.matchQuote.Some?
      modifies this
      ensures State() == FitAndEnter(config, cross, old(State()), surface, odds, nowMs, sizeMultiplier)
      ensures decisionsCount == old(decisionsCount) + committed
    {
      var fitted := surface.(lastFitMs := Some(odds.tsMs));
      surfaces := surfaces[odds.fixtureId := fitted];
      var decision := CrossDecision(config, cross, riskState, fitted, odds, nowMs, sizeMultiplier);
      if decision.None? {
        return 0;
      }
      actedFixtures := actedFixtures + {odds.fixtureId};
      CommitDecision(decision.value, nowMs);
      return 1;
    }

    /** Goals-model path over the joined surface; returns the number of decisions committed. */
    method HandleCrossMarketUpdate(cross: CrossMarketConfig, odds: OddsUpdate, nowMs: int, sizeMultiplier: real)
      returns (committed: nat)
      modifies this
      ensures State() == HandleCrossMarketOdds(config, cross, old(State()), odds, nowMs, sizeMultiplier)
      ensures decisionsCount == old(decisionsCount) + committed
    {
      if !odds.period.FullGame? {
        return 0;
      }
      var prior := GetOr(surfaces, odds.fixtureId, EmptySurface());
      var joined := JoinSurface(prior, odds);
      if joined.None? {
        surfaces := surfaces[odds.fixtureId := prior];
        return 0;
      }
      var surface := joined.value;
      StoreSurface(cross, odds, surface);
      if odds.fixtureId in actedFixtures || surface.matchQuote.None? || surface.overUnder == map[] {
        return 0;
      }
      if odds.fixtureId !in fixtureStartMs {
        return 0;
      }
      var leadMs := fixtureStartMs[odds.fixtureId] - nowMs;
      if leadMs < cross.minLeadMs || leadMs > cross.maxLeadMs {
        return 0;
      }
      if cross.minRefitMs > 0 && surface.lastFitMs.Some? && odds.tsMs - surface.lastFitMs.value < cross.minRefitMs {
        return 0;
      }
      committed := FitSurface(cross, surface, odds, nowMs, sizeMultiplier);
    }

    method TrackScore(score: ScoreUpdate)
      modifies this`fixtureStartMs, this`scores
      ensures State() == HandleScore(old(State()), score)
    {
      if score.startTimeMs.Some? {
        fixtureStartMs := fixtureStartMs[score.fixtureId := score.startTimeMs.value];
      }
      if score.homeGoals.None? || score.awayGoals.None? {
        return;
      }
      if score.fixtureId in scores && !Outranks(score.gameState, score.seqNo, scores[score.fixtureId]) {
        return;
      }
      scores := scores[score.fixtureId :=
        ScoreState(score.homeGoals.value, score.awayGoals.value, score.tsMs, score.seqNo, score.gameState)];
    }

    method UpdateRatingsForFinal(fixtureId: FixtureId)
      modifies this`rated
      ensures State() == UpdateRatings(config, old(State()), fixtureId)
    {
      if !config.eloOverlay || fixtureId in rated {
        return;
      }
      if fixtureId !in fixtureTeams || fixtureId !in scores {
        return;
      }
      rated := rated[fixtureId := scores[fixtureId]];
    }

    /** The settlement of a position: result, PnL and the closing line from the recorded odds. */
    method Settle(position: Position, score: ScoreState) returns (done: SettledPosition)
      ensures done == Settlement(State(), position, score)
    {
      hide LatestIn, ComputePnl, EntryWindow, ClosingWindow, HistoryFor, ResultOf;
      var d := position.decision;
      var result := ResultOf(score.homeGoals, score.awayGoals);
      var won := result == d.outcome;
      var pnl := ComputePnl(won, d.stake, d.entryOdds);
      var kickoff := if d.fixtureId in fixtureStartMs then Some(fixtureStartMs[d.fixtureId]) else None;
      var entry, closing := FindConsensus(HistoryFor(markets, d), EntryWindow(d), ClosingWindow(d, kickoff));
      var entryProb := if entry.Some? then entry.value.fairProb else d.fairProb;
      var closingProb := if closing.Some? then closing.value.fairProb else entryProb;
      done := SettledPosition(position.index, d, result, won, pnl, score.tsMs, score.seqNo, entryProb, closingProb,
                              closing.Some?);
    }

    method SettlePosition(position: Position, score: ScoreState) returns (settledNow: bool)
      modifies this`riskState, this`settled, this`sinkSettlements
      ensures State() == SettleOne(old(State()), position, score)
      ensures settledNow <==> position.index !in old(settled)
    {
      hide Settlement, OnSettlement;
      if position.index in settled {
        return false;
      }
      var done := Settle(position, score);
      riskState := OnSettlement(riskState, position.decision, done.pnl);
      settled := settled + {position.index};
      sinkSettlements := sinkSettlements + [done];
      return true;
    }

    method SettleFixture(fixtureId: FixtureId)
      modifies this`riskState, this`settled, this`sinkSettlements
      ensures State() == SettleFinalFixture(old(State()), fixtureId)
    {
      ghost var start := State();
      if fixtureId !in scores || !IsFinalGameState(scores[fixtureId].gameState) {
        SweepOfUnfinishedFixture(start, fixtureId, |open|);
        return;
      }
      var score := scores[fixtureId];
      for i := 0 to |open|
        invariant State() == Sweep(start, Some(fixtureId), i)
      {
        if open[i].decision.fixtureId == fixtureId {
          var _ := SettlePosition(open[i], score);
        }
      }
    }

    method SettleEverything()
      modifies this`riskState, this`settled, this`sinkSettlements
      ensures State() == SettleAll(old(State()))
    {
      ghost var start := State();
      for i := 0 to |open|
        invariant State() == Sweep(start, None, i)
      {
        var fixtureId := open[i].decision.fixtureId;
        if fixtureId in scores && IsFinalGameState(scores[fixtureId].gameState) {
          var _ := SettlePosition(open[i], scores[fixtureId]);
        }
      }
    }

    method HandleEvent(event: FeedEvent) returns (committed: nat)
      modifies this
      ensures State() == Step(config, old(State()), event)
      ensures decisionsCount == old(decisionsCount) + committed
    {
      hide HandleOdds, HandleCrossMarketOdds, HandleScore, UpdateRatings, SettleFinalFixture;
      committed := 0;
      match event
      case OddsEvent(odds, nowMs, sizeMultiplier) =>
        if config.crossMarket.Some? {
          committed := HandleCrossMarketUpdate(config.crossMarket.value, odds, nowMs, sizeMultiplier);
        } else {
          committed := HandleOddsUpdate(odds, nowMs);
        }
      case ScoreEvent(score) =>
        TrackScore(score);
        if IsFinalGameState(score.gameState) {
          UpdateRatingsForFinal(score.fixtureId);
          SettleFixture(score.fixtureId);
        }
      case FixtureEvent(fixtureId, p1, p2) =>
        fixtureTeams := fixtureTeams[fixtureId := (p1, p2)];
      case OtherEvent =>
    }

    /** Drive a whole feed and sweep at the end. The result counts what the final state holds, and the
        final state is the one every theorem of PipelineProofs is about. */
    method Run(events: seq<FeedEvent>) returns (result: PipelineResult)
      requires State() == Initial(config)
      modifies this
      ensures State() == RunToEnd(config, events)
      ensures result == PipelineResult(|sinkCommits|, |sinkSettlements|, riskState.bankroll, |events|)
    {
      var committed, eventsProcessed := 0, 0;
      for i := 0 to |events|
        invariant State() == Drive(config, events[..i])
        invariant committed == decisionsCount && eventsProcessed == i
      {
        eventsProcessed := eventsProcessed + 1;
        var n := HandleEvent(events[i]);
        committed := committed + n;
        assert events[..i + 1][..i] == events[..i];
      }
      assert events[..|events|] == events;
      ghost var driven := State();
      SettleEverything();
      EveryRunKeepsInv(config, events);
      RunEndKeepsInv(config, events);
      result := PipelineResult(committed, |settled|, riskState.bankroll, eventsProcessed);
    }
  }

  /** A sweep restricted to a fixture without a tracked final score does nothing. */
  lemma {:induction false} SweepOfUnfinishedFixture(s: Snapshot, fixtureId: FixtureId, n: nat)
    requires n <= |s.open| && !HasFinalScore(s.scores, fixtureId)
    ensures Sweep(s, Some(fixtureId), n) == s
  {
    if n > 0 {
      SweepOfUnfinishedFixture(s, fixtureId, n - 1);
    }
  }
}
