/** What the pipeline enters, settles and remembers, told from the event stream alone: which observations a
    market's history holds, when a bet is made and on what terms, and which closing line a settlement books. */
module EntryLaws {
  import opened Prelude
  import opened Domain
  import opened Risk
  import opened Sizing
  import opened PipelineModel
  import opened PipelineProofs

  // ---------------------------------------------------------------------------------------------
  // Books and lines

  predicate FirstNaming(book: FairBook, outcome: Outcome, i: int) {
    0 <= i < |book| && book[i].outcome == outcome && forall j :: 0 <= j < i ==> book[j].outcome != outcome
  }

  predicate LastNaming(lines: seq<OddsLine>, outcome: Outcome, i: int) {
    0 <= i < |lines| && lines[i].outcome == outcome && forall j :: i < j < |lines| ==> lines[j].outcome != outcome
  }

  /** A fair book prices an outcome at its first entry for it. */
  ghost predicate Prices(book: FairBook, outcome: Outcome, p: Prob) {
    exists i :: FirstNaming(book, outcome, i) && book[i].fairProb == p
  }

  /** Lines offer an outcome at the last line naming it. */
  ghost predicate Offers(lines: seq<OddsLine>, outcome: Outcome, odds: OddsMilli) {
    exists i :: LastNaming(lines, outcome, i) && lines[i].odds == odds
  }

  lemma {:induction false} FirstNamed(book: FairBook, outcome: Outcome) returns (i: nat)
    ensures FairProbOf(book, outcome).None? ==> forall j :: 0 <= j < |book| ==> book[j].outcome != outcome
    ensures FairProbOf(book, outcome).Some? ==>
              FirstNaming(book, outcome, i) && FairProbOf(book, outcome) == Some(book[i].fairProb)
  {
    i := 0;
    if |book| > 0 && book[0].outcome != outcome {
      var k := FirstNamed(book[1..], outcome);
      i := k + 1;
      assert forall j :: 0 < j < |book| ==> book[j] == book[1..][j - 1];
    }
  }

  lemma PricesIff(book: FairBook, outcome: Outcome, p: Prob)
    ensures Prices(book, outcome, p) <==> FairProbOf(book, outcome) == Some(p)
  {
    hide FairProbOf;
    var i := FirstNamed(book, outcome);
    if Prices(book, outcome, p) {
      var k :| FirstNaming(book, outcome, k) && book[k].fairProb == p;
      assert k == i;
    }
  }

  lemma {:induction false} LastNamed(lines: seq<OddsLine>, outcome: Outcome) returns (i: nat)
    ensures OfferedOdds(lines, outcome).None? ==> forall j :: 0 <= j < |lines| ==> lines[j].outcome != outcome
    ensures OfferedOdds(lines, outcome).Some? ==>
              LastNaming(lines, outcome, i) && OfferedOdds(lines, outcome) == Some(lines[i].odds)
  {
    i := 0;
    if |lines| > 0 {
      i := |lines| - 1;
      if lines[i].outcome != outcome {
        var front := lines[..i];
        i := LastNamed(front, outcome);
        assert forall j :: 0 <= j < |front| ==> lines[j] == front[j];
      }
    }
  }

  lemma OffersIff(lines: seq<OddsLine>, outcome: Outcome, odds: OddsMilli)
    ensures Offers(lines, outcome, odds) <==> OfferedOdds(lines, outcome) == Some(odds)
  {
    hide OfferedOdds;
    var i := LastNamed(lines, outcome);
    if Offers(lines, outcome, odds) {
      var k :| LastNaming(lines, outcome, k) && lines[k].odds == odds;
      assert k == i;
    }
  }

  // ---------------------------------------------------------------------------------------------
  // The consensus history of a market

  /** Whether odds feed their market's history: always on the per-market path; pre-kickoff full-game 1X2
      only on the cross-market one. */
  predicate Feeds(config: PipelineConfig, odds: OddsUpdate) {
    config.crossMarket.Some? ==> odds.period.FullGame? && odds.marketKind.Result1X2? && !odds.inRunning
  }

  function BookFor(config: PipelineConfig, odds: OddsUpdate): Option<FairBook> {
    if config.crossMarket.Some? then config.crossMarket.value.devig(odds.lines) else config.devig(odds.lines)
  }

  /** What an event says about the fair probability of an outcome of a market, if anything. */
  function Sighting(config: PipelineConfig, event: FeedEvent, key: MarketKey, outcome: Outcome): seq<ProbObservation> {
    if event.OddsEvent? && event.odds.marketKey == key && Feeds(config, event.odds) && outcome != Other
       && BookFor(config, event.odds).Some?
       && FairProbOf(BookFor(config, event.odds).value, outcome).Some?
    then [ProbObservation(event.odds.tsMs, FairProbOf(BookFor(config, event.odds).value, outcome).value)] else []
  }

  /** Every fair probability the stream has shown for an outcome of a market, in arrival order. */
  function Sightings(config: PipelineConfig, events: seq<FeedEvent>, key: MarketKey, outcome: Outcome)
    : seq<ProbObservation>
  {
    if |events| == 0 then []
    else Sightings(config, events[..|events| - 1], key, outcome) + Sighting(config, events[|events| - 1], key, outcome)
  }

  /** The newest of them, up to the configured limit. */
  function Remembered(config: PipelineConfig, events: seq<FeedEvent>, key: MarketKey, outcome: Outcome)
    : (kept: seq<ProbObservation>)
    ensures var all := Sightings(config, events, key, outcome);
            |kept| == Min(|all|, config.steamHistoryLimit) && all[|all| - |kept|..] == kept
  {
    var all := Sightings(config, events, key, outcome);
    all[|all| - Min(|all|, config.steamHistoryLimit)..]
  }

  function Lookup<K, V>(m: map<K, V>, k: K): Option<V> { if k in m then Some(m[k]) else None }

  function HistoryOf(markets: map<MarketKey, MarketState>, key: MarketKey, outcome: Outcome): seq<ProbObservation> {
    if key in markets then GetOr(markets[key].history, outcome, []) else []
  }

  lemma {:induction false} SweepTouches(s: Snapshot, only: Option<FixtureId>, n: nat)
    requires n <= |s.open|
    ensures var t := Sweep(s, only, n);
            && t == s.(risk := t.risk, settled := t.settled, settlements := t.settlements)
            && s.settlements <= t.settlements
  {
    hide Settlement, OnSettlement;
    if n > 0 {
      SweepTouches(s, only, n - 1);
    }
  }

  /** A score touches scores, kickoff times, ratings and what is settled. */
  lemma ScoreTouches(config: PipelineConfig, s: Snapshot, score: ScoreUpdate)
    ensures var n, scored := Step(config, s, ScoreEvent(score)), HandleScore(s, score);
            && n == s.(risk := n.risk, settled := n.settled, settlements := n.settlements, rated := n.rated,
                       scores := scored.scores, fixtureStartMs := scored.fixtureStartMs)
            && s.settlements <= n.settlements
  {
    hide HandleScore, UpdateRatings, Sweep;
    var scored := HandleScore(s, score);
    var rated := UpdateRatings(config, scored, score.fixtureId);
    HandleScoreShape(s, score);
    RatingTouches(config, scored, score.fixtureId);
    SweepTouches(rated, Some(score.fixtureId), |rated.open|);
  }

  /** The markets after odds have been seen. */
  function MarketsAfter(config: PipelineConfig, s: Snapshot, odds: OddsUpdate): map<MarketKey, MarketState> {
    if Feeds(config, odds) && BookFor(config, odds).Some?
    then Observe(s, odds, BookFor(config, odds).value, config.steamHistoryLimit).markets else s.markets
  }

  lemma CommitTouches(s: Snapshot, d: Decision, nowMs: int)
    ensures var n := Commit(s, d, nowMs);
            n == s.(risk := n.risk, open := n.open, decisionsCount := n.decisionsCount, commits := n.commits)
  {
    hide OnCommit;
  }

  /** Per-market odds touch markets, and what a commit touches. */
  lemma OddsTouch(config: PipelineConfig, s: Snapshot, odds: OddsUpdate, nowMs: int)
    requires config.crossMarket.None?
    ensures var n := HandleOdds(config, s, odds, nowMs);
            n == s.(risk := n.risk, markets := MarketsAfter(config, s, odds), open := n.open,
                    actedMarkets := n.actedMarkets, decisionsCount := n.decisionsCount, commits := n.commits)
  {
    hide ObserveBook, FirstDecision, Commit;
    if config.devig(odds.lines).Some? {
      var book := config.devig(odds.lines).value;
      var seen := Observe(s, odds, book, config.steamHistoryLimit);
      var d := FirstDecision(config, s.risk, seen.markets[odds.marketKey], odds, nowMs, book, 0);
      if d.Some? {
        CommitTouches(seen.(actedMarkets := seen.actedMarkets + {odds.marketKey}), d.value, nowMs);
      }
    }
  }

  lemma JoiningTouches(
    config: PipelineConfig, cross: CrossMarketConfig, s: Snapshot, odds: OddsUpdate, surface: FixtureSurface)
    requires config.crossMarket == Some(cross) && odds.period.FullGame?
    ensures var n := JoinAndObserve(config, cross, s, odds, surface);
            n == s.(markets := MarketsAfter(config, s, odds), surfaces := s.surfaces[odds.fixtureId := surface])
  {
    hide ObserveBook;
  }

  lemma FitTouches(
    config: PipelineConfig, cross: CrossMarketConfig, s: Snapshot, surface: FixtureSurface,
    odds: OddsUpdate, nowMs: int, sizeMultiplier: real)
    requires surface.matchQuote.Some?
    ensures var n := FitAndEnter(config, cross, s, surface, odds, nowMs, sizeMultiplier);
            n == s.(risk := n.risk, surfaces := n.surfaces, open := n.open, actedFixtures := n.actedFixtures,
                    decisionsCount := n.decisionsCount, commits := n.commits)
  {
    hide CrossDecision, Commit;
    var fitted := surface.(lastFitMs := Some(odds.tsMs));
    var stamped := s.(surfaces := s.surfaces[odds.fixtureId := fitted]);
    var d := CrossDecision(config, cross, s.risk, fitted, odds, nowMs, sizeMultiplier);
    if d.Some? {
      CommitTouches(stamped.(actedFixtures := stamped.actedFixtures + {odds.fixtureId}), d.value, nowMs);
    }
  }

  /** Cross-market odds touch markets, surfaces, and what a commit touches. */
  lemma CrossTouches(config: PipelineConfig, s: Snapshot, odds: OddsUpdate, nowMs: int, sizeMultiplier: real)
    requires config.crossMarket.Some?
    ensures var n := HandleCrossMarketOdds(config, config.crossMarket.value, s, odds, nowMs, sizeMultiplier);
            n == s.(risk := n.risk, markets := MarketsAfter(config, s, odds), surfaces := n.surfaces, open := n.open,
                    actedFixtures := n.actedFixtures, decisionsCount := n.decisionsCount, commits := n.commits)
  {
    hide FitAndEnter, EntryWindowOpen, RefitThrottled, JoinAndObserve, Observe;
    var cross := config.crossMarket.value;
    if odds.period.FullGame? {
      var joined := JoinSurface(GetOr(s.surfaces, odds.fixtureId, EmptySurface()), odds);
      if joined.Some? {
        JoiningTouches(config, cross, s, odds, joined.value);
        if ReadyToFit(cross, s, joined.value, odds, nowMs) {
          FitTouches(config, cross, JoinAndObserve(config, cross, s, odds, joined.value), joined.value, odds, nowMs,
                     sizeMultiplier);
        }
      }
    }
  }

  /** Which step changes the recorded markets. */
  lemma StepMarkets(config: PipelineConfig, s: Snapshot, event: FeedEvent)
    ensures Step(config, s, event).markets
        == if event.OddsEvent? then MarketsAfter(config, s, event.odds) else s.markets
  {
    hide HandleOdds, HandleCrossMarketOdds, HandleScore, UpdateRatings, Sweep, MarketsAfter;
    match event
    case OddsEvent(odds, nowMs, multiplier) =>
      if config.crossMarket.Some? {
        CrossTouches(config, s, odds, nowMs, multiplier);
      } else {
        OddsTouch(config, s, odds, nowMs);
      }
    case ScoreEvent(score) => ScoreTouches(config, s, score);
    case _ =>
  }

  lemma RatingTouches(config: PipelineConfig, s: Snapshot, f: FixtureId)
    ensures var n := UpdateRatings(config, s, f); n == s.(rated := n.rated)
  {
  }

  lemma ObservedHistory(s: Snapshot, odds: OddsUpdate, book: FairBook, limit: nat, key: MarketKey, outcome: Outcome)
    ensures HistoryOf(Observe(s, odds, book, limit).markets, key, outcome)
         == var past := HistoryOf(s.markets, key, outcome); var p := FairProbOf(book, outcome);
            if key == odds.marketKey && outcome != Other && p.Some?
            then KeepLast(past + [ProbObservation(odds.tsMs, p.value)], limit) else past
  {
    ObservationIsAppended(MarketFor(s, odds.marketKey, odds.fixtureId), book, odds.lines, odds.tsMs, limit,
                          |OUTCOMES_1X2|, outcome);
  }

  lemma KeepingLast(all: seq<ProbObservation>, o: ProbObservation, limit: nat)
    ensures KeepLast(KeepLast(all, limit) + [o], limit) == KeepLast(all + [o], limit)
  {
  }

  lemma RememberedIsKept(config: PipelineConfig, events: seq<FeedEvent>, key: MarketKey, outcome: Outcome)
    ensures Remembered(config, events, key, outcome)
         == KeepLast(Sightings(config, events, key, outcome), config.steamHistoryLimit)
  {
  }

  lemma HistoryStep(
    config: PipelineConfig, s: Snapshot, front: seq<FeedEvent>, last: FeedEvent, key: MarketKey, outcome: Outcome)
    requires HistoryOf(s.markets, key, outcome)
          == KeepLast(Sightings(config, front, key, outcome), config.steamHistoryLimit)
    ensures HistoryOf(Step(config, s, last).markets, key, outcome)
         == KeepLast(Sightings(config, front, key, outcome) + Sighting(config, last, key, outcome),
             config.steamHistoryLimit)
  {
    hide Step, Observe, Sightings, KeepLast;
    StepMarkets(config, s, last);
    var past := Sightings(config, front, key, outcome);
    assert past + [] == past;
    if last.OddsEvent? && Feeds(config, last.odds) && BookFor(config, last.odds).Some? {
      var book := BookFor(config, last.odds).value;
      ObservedHistory(s, last.odds, book, config.steamHistoryLimit, key, outcome);
      var p := FairProbOf(book, outcome);
      if p.Some? {
        KeepingLast(past, ProbObservation(last.odds.tsMs, p.value), config.steamHistoryLimit);
      }
    }
  }

  /** After any events a market's history for an outcome is the newest fair probabilities the stream has
      shown for it, and nothing else. */
  lemma {:induction false} HistoryIsRemembered(
    config: PipelineConfig, events: seq<FeedEvent>, key: MarketKey, outcome: Outcome)
    ensures HistoryOf(Drive(config, events).markets, key, outcome) == Remembered(config, events, key, outcome)
  {
    hide Step, Sighting;
    RememberedIsKept(config, events, key, outcome);
    if |events| > 0 {
      var front := events[..|events| - 1];
      HistoryIsRemembered(config, front, key, outcome);
      RememberedIsKept(config, front, key, outcome);
      HistoryStep(config, Drive(config, front), front, events[|events| - 1], key, outcome);
    }
  }

  /** The odds a sighting came with, if the lines offered any. */
  function OfferIn(config: PipelineConfig, event: FeedEvent, key: MarketKey, outcome: Outcome): Option<OddsMilli> {
    if Sighting(config, event, key, outcome) == [] then None else OfferedOdds(event.odds.lines, outcome)
  }

  function LatestOffer(config: PipelineConfig, events: seq<FeedEvent>, key: MarketKey,
      outcome: Outcome): Option<OddsMilli> {
    if |events| == 0 then None
    else
      var offer := OfferIn(config, events[|events| - 1], key, outcome);
      if offer.Some? then offer else LatestOffer(config, events[..|events| - 1], key, outcome)
  }

  /** What recording one outcome does to the latest values. */
  lemma LatestAfterOne(
    market: MarketState, seen: Outcome, p: Prob, offer: Option<OddsMilli>, tsMs: int, limit: nat, outcome: Outcome)
    ensures var after := ObserveOutcome(market, seen, p, offer, tsMs, limit);
            && Lookup(after.lastFairProb, outcome) == (if outcome
                == seen then Some(p) else Lookup(market.lastFairProb, outcome))
            && Lookup(after.lastOdds, outcome)
               == (if outcome == seen && offer.Some? then offer else Lookup(market.lastOdds, outcome))
  {
    hide KeepLast;
  }

  lemma RankOfNth(n: nat, outcome: Outcome)
    requires n < |OUTCOMES_1X2|
    ensures Rank(outcome) == n <==> outcome == OUTCOMES_1X2[n]
  {
  }

  lemma {:induction false} LatestAreRecorded(
    market: MarketState, book: FairBook, lines: seq<OddsLine>, tsMs: int, limit: nat, n: nat, outcome: Outcome)
    requires n <= |OUTCOMES_1X2|
    ensures var after := ObserveBook(market, book, lines, tsMs, limit, n);
            var p, offer := FairProbOf(book, outcome), OfferedOdds(lines, outcome);
            var touched := Rank(outcome) < n && p.Some?;
            && Lookup(after.lastFairProb, outcome) == (if touched then p else Lookup(market.lastFairProb, outcome))
            && Lookup(after.lastOdds, outcome)
               == (if touched && offer.Some? then offer else Lookup(market.lastOdds, outcome))
  {
    hide OfferedOdds, FairProbOf, KeepLast, ObserveOutcome, Lookup, Rank;
    if n > 0 {
      var seen := OUTCOMES_1X2[n - 1];
      LatestAreRecorded(market, book, lines, tsMs, limit, n - 1, outcome);
      RankOfNth(n - 1, outcome);
      var p := FairProbOf(book, seen);
      if p.Some? {
        LatestAfterOne(ObserveBook(market, book, lines, tsMs, limit, n - 1), seen, p.value, OfferedOdds(lines, seen),
            tsMs,
                       limit, outcome);
      }
    }
  }

  function LastProbOf(markets: map<MarketKey, MarketState>, key: MarketKey, outcome: Outcome): Option<Prob> {
    if key in markets then Lookup(markets[key].lastFairProb, outcome) else None
  }

  function LastOddsOf(markets: map<MarketKey, MarketState>, key: MarketKey, outcome: Outcome): Option<OddsMilli> {
    if key in markets then Lookup(markets[key].lastOdds, outcome) else None
  }

  lemma ObservedLatest(s: Snapshot, odds: OddsUpdate, book: FairBook, limit: nat, key: MarketKey, outcome: Outcome)
    ensures var after := Observe(s, odds, book, limit).markets;
            var p, offer := FairProbOf(book, outcome), OfferedOdds(odds.lines, outcome);
            var touched := key == odds.marketKey && outcome != Other && p.Some?;
            && LastProbOf(after, key, outcome) == (if touched then p else LastProbOf(s.markets, key, outcome))
            && LastOddsOf(after, key, outcome)
               == (if touched && offer.Some? then offer else LastOddsOf(s.markets, key, outcome))
  {
    hide ObserveBook, OfferedOdds, FairProbOf;
    LatestAreRecorded(MarketFor(s, odds.marketKey, odds.fixtureId), book, odds.lines, odds.tsMs, limit, |OUTCOMES_1X2|,
                      outcome);
  }

  /** What one more event does to the latest values. */
  lemma LatestStep(config: PipelineConfig, s: Snapshot, last: FeedEvent, key: MarketKey, outcome: Outcome)
    ensures var sighting, offer := Sighting(config, last, key, outcome), OfferIn(config, last, key, outcome);
            var after := Step(config, s, last).markets;
            && LastProbOf(after, key, outcome)
               == (if sighting == [] then LastProbOf(s.markets, key, outcome) else Some(sighting[0].fairProb))
            && LastOddsOf(after, key, outcome) == (if offer.Some? then offer else LastOddsOf(s.markets, key, outcome))
  {
    hide Step, Observe, OfferedOdds, FairProbOf, LastProbOf, LastOddsOf;
    StepMarkets(config, s, last);
    if last.OddsEvent? && BookFor(config, last.odds).Some? {
      ObservedLatest(s, last.odds, BookFor(config, last.odds).value, config.steamHistoryLimit, key, outcome);
    }
  }

  /** The latest values a market keeps are the last fair probability shown and the last odds shown with one. */
  lemma {:induction false} LatestValuesAreLatest(
    config: PipelineConfig, events: seq<FeedEvent>, key: MarketKey, outcome: Outcome)
    ensures var all, markets := Sightings(config, events, key, outcome), Drive(config, events).markets;
            && LastProbOf(markets, key, outcome) == (if all == [] then None else Some(all[|all| - 1].fairProb))
            && LastOddsOf(markets, key, outcome) == LatestOffer(config, events, key, outcome)
  {
    hide Step, OfferIn, LastProbOf, LastOddsOf, Sighting;
    if |events| == 0 {
      NothingKept(key, outcome);
    } else {
      var front, last := events[..|events| - 1], events[|events| - 1];
      LatestValuesAreLatest(config, front, key, outcome);
      LatestStep(config, Drive(config, front), last, key, outcome);
      SightsOne(config, last, key, outcome);
    }
  }

  lemma NothingKept(key: MarketKey, outcome: Outcome)
    ensures LastProbOf(map[], key, outcome) == None && LastOddsOf(map[], key, outcome) == None
  {
  }

  lemma SightsOne(config: PipelineConfig, event: FeedEvent, key: MarketKey, outcome: Outcome)
    ensures |Sighting(config, event, key, outcome)| <= 1
  {
  }

  // ---------------------------------------------------------------------------------------------
  // Kickoff times

  /** The kickoff time the scores channel last announced for a fixture. */
  function KickoffIn(events: seq<FeedEvent>, f: FixtureId): Option<int> {
    if |events| == 0 then None
    else
      var last := events[|events| - 1];
      if last.ScoreEvent? && last.score.fixtureId == f && last.score.startTimeMs.Some? then last.score.startTimeMs
      else KickoffIn(events[..|events| - 1], f)
  }

  lemma StepKickoffs(config: PipelineConfig, s: Snapshot, event: FeedEvent, f: FixtureId)
    ensures Lookup(Step(config, s, event).fixtureStartMs, f)
         == if event.ScoreEvent? && event.score.fixtureId == f && event.score.startTimeMs.Some?
            then event.score.startTimeMs else Lookup(s.fixtureStartMs, f)
  {
    hide HandleOdds, HandleCrossMarketOdds, UpdateRatings, Sweep, MarketsAfter, Outranks;
    match event
    case OddsEvent(odds, nowMs, multiplier) =>
      if config.crossMarket.Some? {
        CrossTouches(config, s, odds, nowMs, multiplier);
      } else {
        OddsTouch(config, s, odds, nowMs);
      }
    case ScoreEvent(score) => ScoreTouches(config, s, score);
    case _ =>
  }

  lemma {:induction false} KickoffIsLatest(config: PipelineConfig, events: seq<FeedEvent>, f: FixtureId)
    ensures Lookup(Drive(config, events).fixtureStartMs, f) == KickoffIn(events, f)
  {
    hide Step;
    if |events| > 0 {
      var front := events[..|events| - 1];
      KickoffIsLatest(config, front, f);
      StepKickoffs(config, Drive(config, front), events[|events| - 1], f);
    }
  }

  // ---------------------------------------------------------------------------------------------
  // Teams

  /** The participants the fixtures channel last announced for a fixture. */
  function TeamsIn(events: seq<FeedEvent>, f: FixtureId): Option<(int, int)> {
    if |events| == 0 then None
    else
      var last := events[|events| - 1];
      if last.FixtureEvent? && last.fixtureId == f then Some((last.participant1, last.participant2))
      else TeamsIn(events[..|events| - 1], f)
  }

  lemma StepTeams(config: PipelineConfig, s: Snapshot, event: FeedEvent, f: FixtureId)
    ensures Lookup(Step(config, s, event).fixtureTeams, f)
         == if event.FixtureEvent? && event.fixtureId == f then Some((event.participant1, event.participant2))
            else Lookup(s.fixtureTeams, f)
  {
    hide HandleOdds, HandleCrossMarketOdds, HandleScore, UpdateRatings, Sweep, MarketsAfter;
    match event
    case OddsEvent(odds, nowMs, multiplier) =>
      if config.crossMarket.Some? {
        CrossTouches(config, s, odds, nowMs, multiplier);
      } else {
        OddsTouch(config, s, odds, nowMs);
      }
    case ScoreEvent(score) => ScoreTouches(config, s, score);
    case _ =>
  }

  lemma {:induction false} TeamsAreLatest(config: PipelineConfig, events: seq<FeedEvent>, f: FixtureId)
    ensures Lookup(Drive(config, events).fixtureTeams, f) == TeamsIn(events, f)
  {
    hide Step;
    if |events| > 0 {
      var front := events[..|events| - 1];
      TeamsAreLatest(config, front, f);
      StepTeams(config, Drive(config, front), events[|events| - 1], f);
    }
  }

  // ---------------------------------------------------------------------------------------------
  // Bets per market

  /** How an outcome is judged: its fair probability and offered odds, the signal on it, the stake proposed. */
  datatype Judgement = Judgement(fairProb: Prob, offered: OddsMilli, signal: Signal, proposed: MicroUsd)

  /** The signal on an outcome: steam over the remembered history first, divergence only without steam. */
  ghost predicate Signals(
    config: PipelineConfig, odds: OddsUpdate, outcome: Outcome, history: seq<ProbObservation>, j: Judgement)
  {
    var steam := config.detectSteam(SteamInput(odds.fixtureId, odds.marketKey, outcome, odds.tsMs, history, j.offered));
    var divergence := config.detectDivergence(
      DivergenceInput(odds.fixtureId, odds.marketKey, outcome, odds.tsMs, j.fairProb, j.offered));
    && j.signal.fixtureId == odds.fixtureId && j.signal.marketKey == odds.marketKey && j.signal.outcome == outcome
    && j.signal.tsMs == odds.tsMs && j.signal.offeredOdds == j.offered
    && (steam.Some? || divergence.Some?)
    && j.signal.kind == (if steam.Some? then Steam else Divergence)
    && Quote(j.signal.fairProb, j.signal.edge, j.signal.strength)
        == (if steam.Some? then steam.value else divergence.value)
  }

  /** The stake a signal proposes: the steam sizing where a steam signal has one, the Kelly stake otherwise. */
  ghost predicate Proposes(signal: Signal, bankroll: MicroUsd, multiplier: real, config: DecisionConfig,
      proposed: MicroUsd) {
    if signal.kind.Steam? && config.steamSizing.Some?
    then SteamStake(signal.strength, bankroll, config.steamSizing.value) == Ok(proposed)
    else KellyStake(signal.fairProb, signal.offeredOdds, bankroll, config.kelly, multiplier) == Ok(proposed)
  }

  /** An order for a judged outcome clears sizing and the risk manager at these times, against this consensus. */
  ghost predicate Clears(
    config: PipelineConfig, risk: RiskState, signal: Signal, proposed: MicroUsd, consensus: Prob, multiplier: real,
    nowMs: int, d: Decision)
  {
    && Proposes(signal, risk.bankroll, multiplier, config.decision, proposed) && 0 < proposed
    && Evaluate(risk, Order(proposed, signal.offeredOdds, signal.fixtureId, signal.marketKey, nowMs, signal.tsMs,
                            RiskContext(consensus, 0.0)), config.decision.risk) == Allowed(d.stake)
    && d == Decision(signal.fixtureId, signal.marketKey, signal.outcome, signal.tsMs, signal.kind, signal.fairProb,
                     signal.offeredOdds, d.stake, signal.edge)
  }

  /** Odds received at `nowMs` make the bet `d` on an outcome under a judgement. */
  ghost predicate Judged(
    config: PipelineConfig, risk: RiskState, odds: OddsUpdate, nowMs: int, book: FairBook, outcome: Outcome,
    history: seq<ProbObservation>, j: Judgement, d: Decision)
  {
    && Prices(book, outcome, j.fairProb) && Offers(odds.lines, outcome, j.offered)
    && Signals(config, odds, outcome, history, j)
    && Clears(config, risk, j.signal, j.proposed, j.fairProb, 1.0, nowMs, d)
  }

  ghost predicate Wants(
    config: PipelineConfig, risk: RiskState, odds: OddsUpdate, nowMs: int, book: FairBook, outcome: Outcome,
    history: seq<ProbObservation>, d: Decision)
  {
    exists j :: Judged(config, risk, odds, nowMs, book, outcome, history, j, d)
  }

  lemma BuildsIff(
    config: PipelineConfig, risk: RiskState, signal: Signal, consensus: Prob, multiplier: real, nowMs: int, d: Decision)
    ensures BuildDecision(signal, risk, RiskContext(consensus, 0.0), nowMs, signal.tsMs, multiplier, config.decision)
            == Decided(d)
       <==> exists proposed :: Clears(config, risk, signal, proposed, consensus, multiplier, nowMs, d)
  {
    hide KellyStake, SteamStake, Evaluate;
    var stake := ProposedStake(signal, risk.bankroll, multiplier, config.decision);
    if stake.Ok? && 0 < stake.value {
      var built := BuildDecision(signal, risk, RiskContext(consensus, 0.0), nowMs, signal.tsMs, multiplier,
          config.decision);
      assert built == Decided(d) <==> Clears(config, risk, signal, stake.value, consensus, multiplier, nowMs, d);
    }
  }

  /** An outcome leads to a bet exactly when some judgement wants it. */
  lemma OutcomeDecisionIff(
    config: PipelineConfig, risk: RiskState, market: MarketState, odds: OddsUpdate, nowMs: int, book: FairBook,
    outcome: Outcome, d: Decision)
    ensures OutcomeDecision(config, risk, market, odds, nowMs, book, outcome) == Some(d)
       <==> Wants(config, risk, odds, nowMs, book, outcome, GetOr(market.history, outcome, []), d)
  {
    hide FairProbOf, OfferedOdds, Prices, Offers, BuildDecision, Clears;
    var history := GetOr(market.history, outcome, []);
    var p, offered := FairProbOf(book, outcome), OfferedOdds(odds.lines, outcome);
    if p.Some? && offered.Some? {
      PricesIff(book, outcome, p.value);
      OffersIff(odds.lines, outcome, offered.value);
      var signal := SteamOrDivergence(config, odds, outcome, history, p.value, offered.value);
      if signal.Some? {
        BuildsIff(config, risk, signal.value, p.value, 1.0, nowMs, d);
        if OutcomeDecision(config, risk, market, odds, nowMs, book, outcome) == Some(d) {
          var proposed :| Clears(config, risk, signal.value, proposed, p.value, 1.0, nowMs, d);
          assert Judged(config, risk, odds, nowMs, book, outcome, history,
                        Judgement(p.value, offered.value, signal.value, proposed), d);
        }
      }
    }
    if Wants(config, risk, odds, nowMs, book, outcome, history, d) {
      var j :| Judged(config, risk, odds, nowMs, book, outcome, history, j, d);
      PricesIff(book, outcome, j.fairProb);
      OffersIff(odds.lines, outcome, j.offered);
    }
  }

  /** Some committed position is on the market. */
  ghost predicate MarketEntered(open: seq<Position>, key: MarketKey) {
    exists k :: 0 <= k < |open| && open[k].decision.marketKey == key
  }

  ghost predicate FixtureEntered(open: seq<Position>, f: FixtureId) {
    exists k :: 0 <= k < |open| && open[k].decision.fixtureId == f
  }

  /** Nothing is marked acted on without a position to show for it. */
  ghost predicate ActedAreEntered(s: Snapshot) {
    && (forall key :: key in s.actedMarkets ==> MarketEntered(s.open, key))
    && (forall f :: f in s.actedFixtures ==> FixtureEntered(s.open, f))
  }

  lemma EnteringKeepsActed(s: Snapshot, n: Snapshot, p: Position)
    requires ActedAreEntered(s) && n.open == s.open + [p]
    requires n.actedMarkets <= s.actedMarkets + {p.decision.marketKey}
    requires n.actedFixtures <= s.actedFixtures + {p.decision.fixtureId}
    ensures ActedAreEntered(n)
  {
    assert n.open[|s.open|] == p;
    forall key | key in n.actedMarkets
      ensures MarketEntered(n.open, key)
    {
      if key in s.actedMarkets {
        var k :| 0 <= k < |s.open| && s.open[k].decision.marketKey == key;
        assert n.open[k].decision.marketKey == key;
      }
    }
    forall f | f in n.actedFixtures
      ensures FixtureEntered(n.open, f)
    {
      if f in s.actedFixtures {
        var k :| 0 <= k < |s.open| && s.open[k].decision.fixtureId == f;
        assert n.open[k].decision.fixtureId == f;
      }
    }
  }

  /** What per-market odds do to the positions: nothing, or one more on a market not acted on. */
  lemma OddsEnter(config: PipelineConfig, s: Snapshot, odds: OddsUpdate, nowMs: int)
    requires config.crossMarket.None?
    ensures var n := HandleOdds(config, s, odds, nowMs);
            match config.devig(odds.lines)
            case None => n.open == s.open && n.actedMarkets == s.actedMarkets
            case Some(book) =>
              if odds.marketKey in s.actedMarkets then n.open == s.open && n.actedMarkets == s.actedMarkets
              else
                match FirstDecision(config, s.risk, n.markets[odds.marketKey], odds, nowMs, book, 0)
                case None => n.open == s.open && n.actedMarkets == s.actedMarkets
                case Some(d) => n.open == s.open + [Position(s.decisionsCount, d, nowMs)]
                                && n.actedMarkets == s.actedMarkets + {odds.marketKey}
  {
    hide ObserveBook, FirstDecision, OnCommit;
  }

  // ---------------------------------------------------------------------------------------------
  // The joined surface of a fixture

  /** The full-game 1X2 odds a fixture was last quoted at. */
  function QuoteIn(events: seq<FeedEvent>, f: FixtureId): Option<OddsUpdate> {
    if |events| == 0 then None
    else
      var last := events[|events| - 1];
      if last.OddsEvent? && last.odds.fixtureId == f && last.odds.period.FullGame? && last.odds.marketKind.Result1X2?
      then Some(last.odds) else QuoteIn(events[..|events| - 1], f)
  }

  /** The full-game over-under lines a fixture was last quoted at, line by line. */
  function TotalsIn(events: seq<FeedEvent>, f: FixtureId): map<real, seq<OddsLine>> {
    if |events| == 0 then map[]
    else
      var earlier, last := TotalsIn(events[..|events| - 1], f), events[|events| - 1];
      if last.OddsEvent? && last.odds.fixtureId == f && last.odds.period.FullGame? && last.odds.marketKind.OverUnder?
         && last.odds.line.Some?
      then earlier[last.odds.line.value := last.odds.lines] else earlier
  }

  /** When a fixture's surface was last fitted. */
  ghost function LastFitIn(config: PipelineConfig, cross: CrossMarketConfig, events: seq<FeedEvent>, f: FixtureId)
    : Option<int>
    decreases |events|, 0
  {
    if |events| == 0 then None
    else
      var front, last := events[..|events| - 1], events[|events| - 1];
      if last.OddsEvent? && last.odds.fixtureId == f && Fits(config, cross, front, last.odds, last.receivedAtMs)
      then Some(last.odds.tsMs) else LastFitIn(config, cross, front, f)
  }

  /** Odds that arrive after `front` are fitted: a traded full-game market on a fixture not entered, both
      families quoted, kickoff announced and inside the lead window, and the refit gap over. */
  ghost predicate Fits(
    config: PipelineConfig, cross: CrossMarketConfig, front: seq<FeedEvent>, odds: OddsUpdate, nowMs: int)
    decreases |front|, 1
  {
    var f := odds.fixtureId;
    var kickoff, fitted := KickoffIn(front, f), LastFitIn(config, cross, front, f);
    && odds.period.FullGame? && (odds.marketKind.Result1X2? || (odds.marketKind.OverUnder? && odds.line.Some?))
    && !FixtureEntered(Drive(config, front).open, f)
    && (odds.marketKind.Result1X2? || QuoteIn(front, f).Some?)
    && (odds.marketKind.OverUnder? || TotalsIn(front, f) != map[])
    && kickoff.Some? && cross.minLeadMs <= kickoff.value - nowMs <= cross.maxLeadMs
    && (cross.minRefitMs > 0 && fitted.Some? ==> cross.minRefitMs <= odds.tsMs - fitted.value)
  }

  /** What fitting a joined surface does. */
  lemma FitEnters(
    config: PipelineConfig, cross: CrossMarketConfig, s: Snapshot, surface: FixtureSurface, odds: OddsUpdate,
        nowMs: int,
    m: real)
    requires surface.matchQuote.Some?
    ensures var n := FitAndEnter(config, cross, s, surface, odds, nowMs, m);
            var fitted := surface.(lastFitMs := Some(odds.tsMs));
            var d := CrossDecision(config, cross, s.risk, fitted, odds, nowMs, m);
            && n.surfaces == s.surfaces[odds.fixtureId := fitted]
            && n.open == (if d.Some? then s.open + [Position(s.decisionsCount, d.value, nowMs)] else s.open)
            && n.actedFixtures == s.actedFixtures + if d.Some? then {odds.fixtureId} else {}
  {
    hide CrossDecision, OnCommit;
  }

  /** What cross-market odds do, branch by branch. */
  lemma CrossEnters(config: PipelineConfig, cross: CrossMarketConfig, s: Snapshot, odds: OddsUpdate, nowMs: int,
      m: real)
    requires config.crossMarket == Some(cross)
    ensures var n := HandleCrossMarketOdds(config, cross, s, odds, nowMs, m);
            var prior := GetOr(s.surfaces, odds.fixtureId, EmptySurface());
            var joined := if odds.period.FullGame? then JoinSurface(prior, odds) else None;
            if joined.None? then
              && n.open == s.open && n.actedFixtures == s.actedFixtures
              && (n.surfaces == s.surfaces || n.surfaces == s.surfaces[odds.fixtureId := prior])
            else if !ReadyToFit(cross, s, joined.value, odds, nowMs) then
              && n.open == s.open && n.actedFixtures == s.actedFixtures
              && n.surfaces == s.surfaces[odds.fixtureId := joined.value]
            else
              var fitted := joined.value.(lastFitMs := Some(odds.tsMs));
              var d := CrossDecision(config, cross, s.risk, fitted, odds, nowMs, m);
              && n.surfaces == s.surfaces[odds.fixtureId := fitted]
              && n.open == (if d.Some? then s.open + [Position(s.decisionsCount, d.value, nowMs)] else s.open)
              && n.actedFixtures == s.actedFixtures + if d.Some? then {odds.fixtureId} else {}
  {
    hide CrossDecision, FitAndEnter, EntryWindowOpen, RefitThrottled, JoinAndObserve, Observe, JoinSurface;
    if odds.period.FullGame? {
      var joined := JoinSurface(GetOr(s.surfaces, odds.fixtureId, EmptySurface()), odds);
      if joined.Some? {
        JoiningTouches(config, cross, s, odds, joined.value);
        if ReadyToFit(cross, s, joined.value, odds, nowMs) {
          FitEnters(config, cross, JoinAndObserve(config, cross, s, odds, joined.value), joined.value, odds, nowMs, m);
        }
      }
    }
  }

  lemma StepKeepsActedEntered(config: PipelineConfig, s: Snapshot, events: seq<FeedEvent>, event: FeedEvent)
    requires Inv(config, s, events) && ActedAreEntered(s)
    ensures ActedAreEntered(Step(config, s, event))
  {
    hide HandleOdds, HandleCrossMarketOdds, HandleScore, UpdateRatings, Sweep, Inv, ObserveBook, CrossDecision,
         FirstDecision, EntryWindowOpen, RefitThrottled, JoinSurface;
    var n := Step(config, s, event);
    match event
    case OddsEvent(odds, nowMs, multiplier) =>
      if config.crossMarket.Some? {
        var cross := config.crossMarket.value;
        CrossEnters(config, cross, s, odds, nowMs, multiplier);
        CrossTouches(config, s, odds, nowMs, multiplier);
        if |n.open| > |s.open| {
          var prior := GetOr(s.surfaces, odds.fixtureId, EmptySurface());
          var fitted := JoinSurface(prior, odds).value.(lastFitMs := Some(odds.tsMs));
          CrossDecisionIsApproved(config, cross, s, fitted, odds, nowMs, multiplier);
          EnteringKeepsActed(s, n, n.open[|s.open|]);
        }
      } else {
        OddsEnter(config, s, odds, nowMs);
        OddsTouch(config, s, odds, nowMs);
        if |n.open| > |s.open| {
          FirstDecisionIsApproved(config, s, n.markets[odds.marketKey], odds, nowMs, config.devig(odds.lines).value, 0);
          EnteringKeepsActed(s, n, n.open[|s.open|]);
        }
      }
    case ScoreEvent(score) => ScoreTouches(config, s, score);
    case _ =>
  }

  lemma {:induction false} ActedIsEntered(config: PipelineConfig, events: seq<FeedEvent>)
    ensures ActedAreEntered(Drive(config, events))
  {
    if |events| > 0 {
      var front := events[..|events| - 1];
      ActedIsEntered(config, front);
      EveryRunKeepsInv(config, front);
      StepKeepsActedEntered(config, Drive(config, front), front, events[|events| - 1]);
    }
  }

  /** Being acted on is having been entered. */
  lemma ActedIffEntered(config: PipelineConfig, events: seq<FeedEvent>)
    ensures var s := Drive(config, events);
            if config.crossMarket.None? then forall key :: key in s.actedMarkets <==> MarketEntered(s.open, key)
            else forall f :: f in s.actedFixtures <==> FixtureEntered(s.open, f)
  {
    ActedIsEntered(config, events);
    EveryRunKeepsInv(config, events);
    assert OneEntryEach(config, Drive(config, events));
  }

  /** The surface of a fixture, told from the events. */
  ghost function SurfaceIn(config: PipelineConfig, cross: CrossMarketConfig, events: seq<FeedEvent>, f: FixtureId)
    : FixtureSurface
  {
    var q := QuoteIn(events, f);
    FixtureSurface(if q.Some? then Some(MatchQuote(q.value.lines, q.value.marketKey, q.value.tsMs)) else None,
                   TotalsIn(events, f), LastFitIn(config, cross, events, f))
  }

  lemma FitsIff(
    config: PipelineConfig, cross: CrossMarketConfig, front: seq<FeedEvent>, odds: OddsUpdate, nowMs: int)
    requires config.crossMarket == Some(cross)
    requires GetOr(Drive(config, front).surfaces, odds.fixtureId, EmptySurface())
          == SurfaceIn(config, cross, front, odds.fixtureId)
    ensures var joined := JoinSurface(SurfaceIn(config, cross, front, odds.fixtureId), odds);
            Fits(config, cross, front, odds, nowMs)
            <==> odds.period.FullGame? && joined.Some?
                 && ReadyToFit(cross, Drive(config, front), joined.value, odds, nowMs)
  {
    hide Drive;
    ActedIffEntered(config, front);
    KickoffIsLatest(config, front, odds.fixtureId);
    var joined := JoinSurface(SurfaceIn(config, cross, front, odds.fixtureId), odds);
    if odds.marketKind.OverUnder? && odds.line.Some? {
      assert odds.line.value in joined.value.overUnder;
    }
  }

  lemma {:induction false} SurfaceIsJoined(
    config: PipelineConfig, cross: CrossMarketConfig, events: seq<FeedEvent>, f: FixtureId)
    requires config.crossMarket == Some(cross)
    ensures GetOr(Drive(config, events).surfaces, f, EmptySurface()) == SurfaceIn(config, cross, events, f)
  {
    hide HandleCrossMarketOdds, HandleScore, UpdateRatings, Sweep, CrossDecision, ReadyToFit, Fits;
    if |events| > 0 {
      var front, last := events[..|events| - 1], events[|events| - 1];
      var s := Drive(config, front);
      SurfaceIsJoined(config, cross, front, f);
      match last
      case OddsEvent(odds, nowMs, m) =>
        CrossEnters(config, cross, s, odds, nowMs, m);
        if odds.fixtureId == f {
          FitsIff(config, cross, front, odds, nowMs);
        }
      case ScoreEvent(score) => ScoreTouches(config, s, score);
      case _ =>
    }
  }

  // ---------------------------------------------------------------------------------------------
  // When a bet is made

  /** What the odds that arrive after `front` want on an outcome of their market, over everything shown so far. */
  ghost predicate WantsNow(
    config: PipelineConfig, front: seq<FeedEvent>, event: FeedEvent, book: FairBook, outcome: Outcome, d: Decision)
    requires event.OddsEvent?
  {
    Wants(config, Drive(config, front).risk, event.odds, event.receivedAtMs, book, outcome,
          Remembered(config, front + [event], event.odds.marketKey, outcome), d)
  }

  ghost predicate WantsNothing(
    config: PipelineConfig, front: seq<FeedEvent>, event: FeedEvent, book: FairBook, outcome: Outcome)
    requires event.OddsEvent?
  {
    forall d :: !WantsNow(config, front, event, book, outcome, d)
  }

  lemma DrivenOn(config: PipelineConfig, front: seq<FeedEvent>, event: FeedEvent)
    ensures Drive(config, front + [event]) == Step(config, Drive(config, front), event)
  {
    assert (front + [event])[..|front|] == front;
  }

  /** The outcome acted on, and what is wanted on each outcome. */
  lemma FirstWanted(config: PipelineConfig, front: seq<FeedEvent>, event: FeedEvent, book: FairBook)
    requires config.crossMarket.None? && event.OddsEvent? && config.devig(event.odds.lines) == Some(book)
    ensures var odds := event.odds;
            var n := HandleOdds(config, Drive(config, front), odds, event.receivedAtMs);
            odds.marketKey in n.markets
            && match FirstDecision(config, Drive(config, front).risk, n.markets[odds.marketKey], odds,
                event.receivedAtMs,
                                   book, 0)
               case None =>
                 forall i :: 0 <= i < |OUTCOMES_1X2| ==> WantsNothing(config, front, event, book, OUTCOMES_1X2[i])
               case Some(d) =>
                 exists i :: 0 <= i < |OUTCOMES_1X2| && WantsNow(config, front, event, book, OUTCOMES_1X2[i], d)
                             && forall j :: 0 <= j < i ==> WantsNothing(config, front, event, book, OUTCOMES_1X2[j])
  {
    hide HandleOdds, Drive, FirstDecision, OutcomeDecision, Wants, ObserveBook, Remembered;
    var s, odds, nowMs := Drive(config, front), event.odds, event.receivedAtMs;
    var n := HandleOdds(config, s, odds, nowMs);
    OddsTouch(config, s, odds, nowMs);
    DrivenOn(config, front, event);
    var market := n.markets[odds.marketKey];
    FirstDecisionIsFirst(config, s.risk, market, odds, nowMs, book, 0);
    forall outcome, d
      ensures OutcomeDecision(config, s.risk, market, odds, nowMs, book, outcome) == Some(d)
              <==> WantsNow(config, front, event, book, outcome, d)
    {
      HistoryIsRemembered(config, front + [event], odds.marketKey, outcome);
      OutcomeDecisionIff(config, s.risk, market, odds, nowMs, book, outcome, d);
    }
  }

  /** Steam and divergence, over every run: odds on a market already entered, or without a fair book, enter
      nothing; else the first outcome of home, draw, away on which some order is wanted is entered, with the
      decision wanted, and nothing is entered exactly when none is. */
  lemma MarketEntryIff(config: PipelineConfig, front: seq<FeedEvent>, event: FeedEvent)
    requires config.crossMarket.None? && event.OddsEvent?
    ensures var before, after := Drive(config, front).open, Drive(config, front + [event]).open;
            match config.devig(event.odds.lines)
            case None => after == before
            case Some(book) =>
              if MarketEntered(before, event.odds.marketKey)
                 || forall i :: 0 <= i < |OUTCOMES_1X2| ==> WantsNothing(config, front, event, book, OUTCOMES_1X2[i])
              then after == before
              else
                exists i, d :: 0 <= i < |OUTCOMES_1X2| && WantsNow(config, front, event, book, OUTCOMES_1X2[i], d)
                  && (forall j :: 0 <= j < i ==> WantsNothing(config, front, event, book, OUTCOMES_1X2[j]))
                  && after == before + [Position(|before|, d, event.receivedAtMs)]
  {
    hide HandleOdds, Drive, FirstDecision, WantsNow;
    DrivenOn(config, front, event);
    OddsEnter(config, Drive(config, front), event.odds, event.receivedAtMs);
    ActedIffEntered(config, front);
    EveryRunKeepsInv(config, front);
    assert Numbered(Drive(config, front).open, Drive(config, front).commits, Drive(config, front).decisionsCount);
    if config.devig(event.odds.lines).Some? {
      FirstWanted(config, front, event, config.devig(event.odds.lines).value);
    }
  }

  /** What a fitted surface wants: the detector's quote on the latest 1X2 and over-under lines, priced and sized. */
  ghost predicate CrossWants(
    config: PipelineConfig, cross: CrossMarketConfig, front: seq<FeedEvent>, event: FeedEvent, q: CrossQuote,
    proposed: MicroUsd, d: Decision)
    requires event.OddsEvent?
  {
    var odds := event.odds;
    var quote := QuoteIn(front + [event], odds.fixtureId);
    && quote.Some?
    && cross.detect(CrossInput(odds.fixtureId, quote.value.marketKey, odds.tsMs, quote.value.lines,
                               TotalsIn(front + [event], odds.fixtureId))) == Some(q)
    && Clears(config, Drive(config, front).risk,
              Signal(CrossMarket, odds.fixtureId, quote.value.marketKey, q.outcome, odds.tsMs, q.quote.fairProb,
                     q.offeredOdds, q.quote.edge, q.quote.strength),
              proposed, q.quote.fairProb, event.sizeMultiplier, event.receivedAtMs, d)
  }

  lemma CrossDecisionIff(
    config: PipelineConfig, cross: CrossMarketConfig, front: seq<FeedEvent>, event: FeedEvent, surface: FixtureSurface,
    d: Decision)
    requires event.OddsEvent? && QuoteIn(front + [event], event.odds.fixtureId).Some?
    requires surface.overUnder == TotalsIn(front + [event], event.odds.fixtureId)
    requires var q := QuoteIn(front + [event], event.odds.fixtureId).value;
             surface.matchQuote == Some(MatchQuote(q.lines, q.marketKey, q.tsMs))
    ensures CrossDecision(config, cross, Drive(config, front).risk, surface, event.odds, event.receivedAtMs,
                          event.sizeMultiplier) == Some(d)
            <==> exists q, proposed :: CrossWants(config, cross, front, event, q, proposed, d)
  {
    hide BuildDecision, Clears, Drive, QuoteIn, TotalsIn;
    var odds, risk := event.odds, Drive(config, front).risk;
    var quote := surface.matchQuote.value;
    var found := cross.detect(CrossInput(odds.fixtureId, quote.marketKey, odds.tsMs, quote.lines, surface.overUnder));
    if found.Some? {
      var q := found.value;
      var signal := Signal(CrossMarket, odds.fixtureId, quote.marketKey, q.outcome, odds.tsMs,
                           q.quote.fairProb, q.offeredOdds, q.quote.edge, q.quote.strength);
      BuildsIff(config, risk, signal, q.quote.fairProb, event.sizeMultiplier, event.receivedAtMs, d);
      forall proposed
        ensures CrossWants(config, cross, front, event, q, proposed, d)
           <==> Clears(config, risk, signal, proposed, q.quote.fairProb, event.sizeMultiplier, event.receivedAtMs, d)
      {
      }
    }
  }

  /** The joined surface is the surface with the new odds on it. */
  lemma JoinedSurface(config: PipelineConfig, cross: CrossMarketConfig, front: seq<FeedEvent>, event: FeedEvent)
    requires event.OddsEvent? && event.odds.period.FullGame?
    requires JoinSurface(SurfaceIn(config, cross, front, event.odds.fixtureId), event.odds).Some?
    ensures var joined := JoinSurface(SurfaceIn(config, cross, front, event.odds.fixtureId), event.odds).value;
            var q := QuoteIn(front + [event], event.odds.fixtureId);
            && joined.overUnder == TotalsIn(front + [event], event.odds.fixtureId)
            && joined.matchQuote
                == (if q.Some? then Some(MatchQuote(q.value.lines, q.value.marketKey, q.value.tsMs)) else None)
  {
    hide LastFitIn;
    assert (front + [event])[..|front|] == front;
  }

  /** The cross-market strategy, over every run: odds enter a bet exactly when their surface is fitted and the
      fit wants one, and then the one wanted. */
  lemma FixtureEntryIff(config: PipelineConfig, cross: CrossMarketConfig, front: seq<FeedEvent>, event: FeedEvent)
    requires config.crossMarket == Some(cross) && event.OddsEvent?
    ensures var before, after := Drive(config, front).open, Drive(config, front + [event]).open;
            if Fits(config, cross, front, event.odds, event.receivedAtMs)
               && exists q, proposed, d :: CrossWants(config, cross, front, event, q, proposed, d)
            then exists q, proposed, d :: CrossWants(config, cross, front, event, q, proposed, d)
                                          && after == before + [Position(|before|, d, event.receivedAtMs)]
            else after == before
  {
    hide Drive, CrossDecision, CrossWants, Fits, EntryWindowOpen, RefitThrottled, HandleCrossMarketOdds, JoinSurface;
    var s, odds, nowMs := Drive(config, front), event.odds, event.receivedAtMs;
    DrivenOn(config, front, event);
    CrossEnters(config, cross, s, odds, nowMs, event.sizeMultiplier);
    SurfaceIsJoined(config, cross, front, odds.fixtureId);
    FitsIff(config, cross, front, odds, nowMs);
    EveryRunKeepsInv(config, front);
    assert Numbered(s.open, s.commits, s.decisionsCount);
    if Fits(config, cross, front, odds, nowMs) {
      JoinedSurface(config, cross, front, event);
      var fitted := JoinSurface(SurfaceIn(config, cross, front, odds.fixtureId),
          odds).value.(lastFitMs := Some(odds.tsMs));
      var entered := CrossDecision(config, cross, s.risk, fitted, odds, nowMs, event.sizeMultiplier);
      if entered.Some? {
        CrossDecisionIff(config, cross, front, event, fitted, entered.value);
        var q, proposed :| CrossWants(config, cross, front, event, q, proposed, entered.value);
      } else if exists q, proposed, d :: CrossWants(config, cross, front, event, q, proposed, d) {
        var q, proposed, d :| CrossWants(config, cross, front, event, q, proposed, d);
        CrossDecisionIff(config, cross, front, event, fitted, d);
      }
    }
  }

  /** Nothing but odds enters a bet. */
  lemma OnlyOddsEnter(config: PipelineConfig, s: Snapshot, event: FeedEvent)
    requires !event.OddsEvent?
    ensures Step(config, s, event).open == s.open
  {
    hide HandleScore, UpdateRatings, Sweep;
    match event
    case ScoreEvent(score) => ScoreTouches(config, s, score);
    case _ =>
  }

  /** A bet was made on odds no older and no newer, against the clock, than the stale-feed limit. */
  predicate Timely(config: PipelineConfig, p: Position) {
    0 - config.decision.risk.staleFeedMs <= p.committedAtMs - p.decision.tsMs <= config.decision.risk.staleFeedMs
  }

  /** The odds a position was entered on: its own fixture's, received when it was committed. */
  predicate EnteredOn(event: FeedEvent, p: Position) {
    && event.OddsEvent? && event.receivedAtMs == p.committedAtMs
    && event.odds.fixtureId == p.decision.fixtureId && event.odds.tsMs == p.decision.tsMs
  }

  lemma ClearingIsTimely(
    config: PipelineConfig, risk: RiskState, signal: Signal, proposed: MicroUsd, consensus: Prob, multiplier: real,
    nowMs: int, d: Decision, index: nat)
    requires Clears(config, risk, signal, proposed, consensus, multiplier, nowMs, d)
    ensures Timely(config, Position(index, d, nowMs)) && d.tsMs == signal.tsMs && d.fixtureId == signal.fixtureId
  {
    var order := Order(proposed, signal.offeredOdds, signal.fixtureId, signal.marketKey, nowMs, signal.tsMs,
                       RiskContext(consensus, 0.0));
    assert FirstBreaker(risk, order, config.decision.risk).None?;
  }

  /** One event enters at most one position, and that on its own odds. */
  lemma EntersOne(config: PipelineConfig, front: seq<FeedEvent>, event: FeedEvent)
    ensures var before, after := Drive(config, front).open, Drive(config, front + [event]).open;
            || after == before
            || (|after| == |before| + 1 && before <= after && after[|before|].index == |before|
                && EnteredOn(event, after[|before|]) && Timely(config, after[|before|]))
  {
    hide Drive, WantsNow, CrossWants, Fits, Step;
    var before, after := Drive(config, front).open, Drive(config, front + [event]).open;
    DrivenOn(config, front, event);
    if !event.OddsEvent? {
      OnlyOddsEnter(config, Drive(config, front), event);
    } else if config.crossMarket.Some? {
      var cross := config.crossMarket.value;
      FixtureEntryIff(config, cross, front, event);
      if after != before {
        var q, proposed, d :| CrossWants(config, cross, front, event, q, proposed, d)
                              && after == before + [Position(|before|, d, event.receivedAtMs)];
        CrossWantIsTimely(config, cross, front, event, q, proposed, d, |before|);
      }
    } else {
      MarketEntryIff(config, front, event);
      if after != before {
        var book := config.devig(event.odds.lines).value;
        var i, d :| 0 <= i < |OUTCOMES_1X2| && WantsNow(config, front, event, book, OUTCOMES_1X2[i], d)
                    && after == before + [Position(|before|, d, event.receivedAtMs)];
        WantIsTimely(config, front, event, book, OUTCOMES_1X2[i], d, |before|);
      }
    }
  }

  lemma WantIsTimely(
    config: PipelineConfig, front: seq<FeedEvent>, event: FeedEvent, book: FairBook, outcome: Outcome, d: Decision,
    index: nat)
    requires event.OddsEvent? && WantsNow(config, front, event, book, outcome, d)
    ensures var p := Position(index, d, event.receivedAtMs); Timely(config, p) && EnteredOn(event, p)
  {
    hide Clears, Prices, Offers;
    var risk, history := Drive(config, front).risk, Remembered(config, front + [event], event.odds.marketKey, outcome);
    var j :| Judged(config, risk, event.odds, event.receivedAtMs, book, outcome, history, j, d);
    ClearingIsTimely(config, risk, j.signal, j.proposed, j.fairProb, 1.0, event.receivedAtMs, d, index);
  }

  lemma CrossWantIsTimely(
    config: PipelineConfig, cross: CrossMarketConfig, front: seq<FeedEvent>, event: FeedEvent, q: CrossQuote,
    proposed: MicroUsd, d: Decision, index: nat)
    requires event.OddsEvent? && CrossWants(config, cross, front, event, q, proposed, d)
    ensures var p := Position(index, d, event.receivedAtMs); Timely(config, p) && EnteredOn(event, p)
  {
    hide Clears;
    var odds := event.odds;
    var quote := QuoteIn(front + [event], odds.fixtureId).value;
    ClearingIsTimely(config, Drive(config, front).risk,
                     Signal(CrossMarket, odds.fixtureId, quote.marketKey, q.outcome, odds.tsMs, q.quote.fairProb,
                            q.offeredOdds, q.quote.edge, q.quote.strength),
                     proposed, q.quote.fairProb, event.sizeMultiplier, event.receivedAtMs, d, index);
  }

  /** Every position of every run was entered by one odds event, on the odds it carried, at the time it
      arrived, and within the stale-feed limit of it. */
  lemma {:induction false} EveryEntryHasItsOdds(config: PipelineConfig, events: seq<FeedEvent>, k: nat) returns (m: nat)
    requires k < |Drive(config, events).open|
    ensures m < |events| && EnteredOn(events[m], Drive(config, events).open[k])
    ensures |Drive(config, events[..m]).open| == k < |Drive(config, events[..m + 1]).open|
    ensures Timely(config, Drive(config, events).open[k])
  {
    hide Timely, EnteredOn, Step;
    m := 0;
    if |events| > 0 {
      var front, last := events[..|events| - 1], events[|events| - 1];
      assert front + [last] == events;
      EntersOne(config, front, last);
      if k < |Drive(config, front).open| {
        m := EveryEntryHasItsOdds(config, front, k);
        assert front[..m] == events[..m] && front[..m + 1] == events[..m + 1];
      } else {
        m := |front|;
        assert events[..m + 1] == events;
      }
    }
  }

  // ---------------------------------------------------------------------------------------------
  // Settlement at the whistle

  lemma InvTracks(config: PipelineConfig, s: Snapshot, events: seq<FeedEvent>)
    requires Inv(config, s, events)
    ensures TracksTop(s.scores, events) && Numbered(s.open, s.commits, s.decisionsCount)
  {
  }

  /** A final whistle settles at once every position of its fixture, provided a final score is tracked, and
      none of any other fixture; no other event settles anything. */
  lemma SettledAtTheWhistle(config: PipelineConfig, front: seq<FeedEvent>, event: FeedEvent)
    ensures var before, after := Drive(config, front), Drive(config, front + [event]);
            after.settled == before.settled
              + set k | 0 <= k < |before.open| && event.ScoreEvent? && IsFinalGameState(event.score.gameState)
                        && before.open[k].decision.fixtureId == event.score.fixtureId
                        && FinalScoreIn(front + [event], event.score.fixtureId)
  {
    hide Drive, HandleOdds, HandleCrossMarketOdds, HandleScore, UpdateRatings, Sweep, Inv, MarketsAfter;
    var s, events := Drive(config, front), front + [event];
    var due := set k | 0 <= k < |s.open| && event.ScoreEvent? && IsFinalGameState(event.score.gameState)
                       && s.open[k].decision.fixtureId == event.score.fixtureId
                       && FinalScoreIn(events, event.score.fixtureId);
    DrivenOn(config, front, event);
    match event
    case OddsEvent(odds, nowMs, multiplier) =>
      if config.crossMarket.Some? {
        CrossTouches(config, s, odds, nowMs, multiplier);
      } else {
        OddsTouch(config, s, odds, nowMs);
      }
    case ScoreEvent(score) =>
      var scored := HandleScore(s, score);
      HandleScoreShape(s, score);
      if IsFinalGameState(score.gameState) {
        var rated := UpdateRatings(config, scored, score.fixtureId);
        RatingTouches(config, scored, score.fixtureId);
        EveryRunKeepsInv(config, front);
        HandleScoreKeepsInv(config, s, front, score);
        InvTracks(config, scored, events);
        TrackedIffScored(scored.scores, events, score.fixtureId);
        SweepSettlesDue(rated, Some(score.fixtureId), |rated.open|);
        assert due == set k | 0 <= k < |rated.open| && Due(rated, Some(score.fixtureId), k);
      }
    case _ =>
  }

  // ---------------------------------------------------------------------------------------------
  // The closing line

  /** The latest chosen observation; the first to arrive among simultaneous ones. */
  ghost predicate LatestAmong(seen: seq<ProbObservation>, chosen: ProbObservation -> bool, i: int) {
    && 0 <= i < |seen| && chosen(seen[i])
    && forall j :: 0 <= j < |seen| && chosen(seen[j]) ==>
         seen[j].tsMs < seen[i].tsMs || (seen[j].tsMs == seen[i].tsMs && i <= j)
  }

  /** The probability booked is that of the latest chosen observation, or a fallback when none is chosen. */
  ghost predicate BooksLatest(seen: seq<ProbObservation>, chosen: ProbObservation -> bool, booked: Prob,
      fallback: Prob) {
    if exists o :: o in seen && chosen(o) then exists i :: LatestAmong(seen, chosen, i) && booked == seen[i].fairProb
    else booked == fallback
  }

  /** A settlement books the line its backed outcome was seen at: the entry consensus is the latest observation
      up to the decision, or else the decision's own probability; the closing line is the latest one after the
      decision and before a known kickoff, and is known exactly when there is one. */
  ghost predicate BooksLine(p: SettledPosition, seen: seq<ProbObservation>, kickoff: Option<int>) {
    var early := (o: ProbObservation) => o.tsMs <= p.decision.tsMs;
    var late := (o: ProbObservation) => p.decision.tsMs < o.tsMs && (kickoff.Some? ==> o.tsMs < kickoff.value);
    && BooksLatest(seen, early, p.entryConsensusProb, p.decision.fairProb)
    && BooksLatest(seen, late, p.closingFairProb, p.entryConsensusProb)
    && (p.closingFairProbKnown <==> exists o :: o in seen && late(o))
  }

  lemma {:induction false} LatestHasIndex(history: seq<ProbObservation>, w: Window, chosen: ProbObservation -> bool)
    returns (i: int)
    requires forall o :: chosen(o) <==> InWindow(o, w)
    ensures LatestIn(history, w).None? ==> forall o :: o in history ==> !chosen(o)
    ensures LatestIn(history, w).Some? ==> LatestAmong(history, chosen, i) && LatestIn(history, w).value == history[i]
  {
    hide InWindow;
    i := 0;
    if |history| > 0 {
      var front, last := history[..|history| - 1], |history| - 1;
      i := LatestHasIndex(front, w, chosen);
      assert history == front + [history[last]];
      var best := LatestIn(front, w);
      if InWindow(history[last], w) && (best.None? || history[last].tsMs > best.value.tsMs) {
        i := last;
      }
    }
  }

  lemma LatestIsBooked(
    history: seq<ProbObservation>, w: Window, chosen: ProbObservation -> bool, booked: Prob, fallback: Prob)
    requires forall o :: chosen(o) <==> InWindow(o, w)
    requires booked == if LatestIn(history, w).Some? then LatestIn(history, w).value.fairProb else fallback
    ensures BooksLatest(history, chosen, booked, fallback)
    ensures LatestIn(history, w).Some? <==> exists o :: o in history && chosen(o)
  {
    hide LatestIn, InWindow;
    var i := LatestHasIndex(history, w, chosen);
  }

  lemma SettlementBooksLine(s: Snapshot, position: Position, score: ScoreState)
    ensures var d := position.decision;
            BooksLine(Settlement(s, position, score), HistoryOf(s.markets, d.marketKey, d.outcome),
                      Lookup(s.fixtureStartMs, d.fixtureId))
  {
    hide LatestIn, BooksLatest;
    var d, p := position.decision, Settlement(s, position, score);
    var seen, kickoff := HistoryOf(s.markets, d.marketKey, d.outcome), Lookup(s.fixtureStartMs, d.fixtureId);
    var early := (o: ProbObservation) => o.tsMs <= p.decision.tsMs;
    var late := (o: ProbObservation) => p.decision.tsMs < o.tsMs && (kickoff.Some? ==> o.tsMs < kickoff.value);
    LatestIsBooked(seen, EntryWindow(d), early, p.entryConsensusProb, d.fairProb);
    LatestIsBooked(seen, ClosingWindow(d, kickoff), late, p.closingFairProb, p.entryConsensusProb);
  }

  /** A settlement books the tracked score of its fixture, and the line its backed outcome was seen at. */
  ghost predicate Booked(s: Snapshot, p: SettledPosition) {
    var d := p.decision;
    && d.fixtureId in s.scores
    && p.settledSeq == s.scores[d.fixtureId].seqNo && p.settledAtMs == s.scores[d.fixtureId].tsMs
    && BooksLine(p, HistoryOf(s.markets, d.marketKey, d.outcome), Lookup(s.fixtureStartMs, d.fixtureId))
  }

  lemma {:induction false} SweepBooks(s: Snapshot, only: Option<FixtureId>, n: nat, i: nat)
    requires n <= |s.open| && |s.settlements| <= i < |Sweep(s, only, n).settlements|
    ensures Booked(s, Sweep(s, only, n).settlements[i])
  {
    hide Settlement, OnSettlement, BooksLine, HistoryOf, Lookup;
    if n > 0 {
      var t := Sweep(s, only, n - 1);
      SweepTouches(s, only, n - 1);
      if i < |t.settlements| {
        SweepBooks(s, only, n - 1, i);
      } else {
        var position := s.open[n - 1];
        var score := s.scores[position.decision.fixtureId];
        SettlementBooksLine(t, position, score);
        SettlementCopies(t, position, score);
      }
    }
  }

  lemma SettlementCopies(s: Snapshot, position: Position, score: ScoreState)
    ensures var p := Settlement(s, position, score);
            p.decision == position.decision && p.settledSeq == score.seqNo && p.settledAtMs == score.tsMs
  {
  }

  /** The same told from the events seen by the time of the settlement. */
  ghost predicate BookedFrom(config: PipelineConfig, events: seq<FeedEvent>, p: SettledPosition) {
    var d := p.decision;
    && d.fixtureId in Drive(config, events).scores
    && p.settledSeq == Drive(config, events).scores[d.fixtureId].seqNo
    && p.settledAtMs == Drive(config, events).scores[d.fixtureId].tsMs
    && BooksLine(p, Remembered(config, events, d.marketKey, d.outcome), KickoffIn(events, d.fixtureId))
  }

  lemma BookedIsFromEvents(config: PipelineConfig, events: seq<FeedEvent>, s: Snapshot, p: SettledPosition)
    requires Booked(s, p)
    requires var t := Drive(config, events);
             s.scores == t.scores && s.markets == t.markets && s.fixtureStartMs == t.fixtureStartMs
    ensures BookedFrom(config, events, p)
  {
    hide BooksLine, Drive;
    HistoryIsRemembered(config, events, p.decision.marketKey, p.decision.outcome);
    KickoffIsLatest(config, events, p.decision.fixtureId);
  }

  /** What one event adds to the settlement log is booked from the events up to and including it. */
  lemma StepBooks(config: PipelineConfig, front: seq<FeedEvent>, event: FeedEvent)
    ensures var before, after := Drive(config, front).settlements, Drive(config, front + [event]).settlements;
            before <= after && forall i :: |before| <= i < |after| ==> BookedFrom(config, front + [event], after[i])
  {
    hide Drive, HandleOdds, HandleCrossMarketOdds, HandleScore, UpdateRatings, Sweep, MarketsAfter, Booked, BookedFrom;
    var s, events := Drive(config, front), front + [event];
    var n := Drive(config, events);
    DrivenOn(config, front, event);
    match event
    case OddsEvent(odds, nowMs, multiplier) =>
      if config.crossMarket.Some? {
        CrossTouches(config, s, odds, nowMs, multiplier);
      } else {
        OddsTouch(config, s, odds, nowMs);
      }
    case ScoreEvent(score) =>
      ScoreTouches(config, s, score);
      if IsFinalGameState(score.gameState) {
        var scored := HandleScore(s, score);
        var rated := UpdateRatings(config, scored, score.fixtureId);
        HandleScoreShape(s, score);
        RatingTouches(config, scored, score.fixtureId);
        forall i | |s.settlements| <= i < |n.settlements|
          ensures BookedFrom(config, events, n.settlements[i])
        {
          SweepBooks(rated, Some(score.fixtureId), |rated.open|, i);
          BookedIsFromEvents(config, events, rated, n.settlements[i]);
        }
      } else {
        HandleScoreShape(s, score);
      }
    case _ =>
  }

  /** Every settlement of every run books the tracked score and the line of the events seen by then: the whistle
      that settled it is the m-th event. */
  lemma {:induction false} EverySettlementBooksLine(config: PipelineConfig, events: seq<FeedEvent>, i: nat)
    returns (m: nat)
    requires i < |Drive(config, events).settlements|
    ensures 0 < m <= |events|
    ensures |Drive(config, events[..m - 1]).settlements| <= i < |Drive(config, events[..m]).settlements|
    ensures BookedFrom(config, events[..m], Drive(config, events).settlements[i])
  {
    hide BookedFrom;
    m := 0;
    if |events| > 0 {
      var front, last := events[..|events| - 1], events[|events| - 1];
      assert front + [last] == events;
      StepBooks(config, front, last);
      if i < |Drive(config, front).settlements| {
        m := EverySettlementBooksLine(config, front, i);
        assert front[..m] == events[..m] && front[..m - 1] == events[..m - 1];
      } else {
        m := |events|;
        assert events[..m] == events && events[..m - 1] == front;
      }
    }
  }

  /** The sweep at the end of the feed books from the whole stream. */
  lemma FinalSweepBooksLine(config: PipelineConfig, events: seq<FeedEvent>, i: nat)
    requires |Drive(config, events).settlements| <= i < |RunToEnd(config, events).settlements|
    ensures BookedFrom(config, events, RunToEnd(config, events).settlements[i])
    ensures Drive(config, events).settlements <= RunToEnd(config, events).settlements
  {
    hide Drive, Sweep, Booked, BookedFrom;
    var s := Drive(config, events);
    SweepTouches(s, None, |s.open|);
    SweepBooks(s, None, |s.open|, i);
    BookedIsFromEvents(config, events, s, RunToEnd(config, events).settlements[i]);
  }

  // ---------------------------------------------------------------------------------------------
  // The tracked score

  /** A goal-bearing score event of the fixture, final or not. */
  predicate ScoreOf(event: FeedEvent, f: FixtureId, isFinal: bool) {
    Scores(event, f) && (IsFinalGameState(event.score.gameState) <==> isFinal)
  }

  /** The i-th event is the fixture's first score of highest seq, among final ones if there are any. */
  ghost predicate BestScoreAt(events: seq<FeedEvent>, f: FixtureId, i: int) {
    && 0 <= i < |events|
    && ScoreOf(events[i], f, FinalScoreIn(events, f))
    && forall j :: 0 <= j < |events| && ScoreOf(events[j], f, FinalScoreIn(events, f)) ==>
         events[j].score.seqNo < events[i].score.seqNo || (events[j].score.seqNo == events[i].score.seqNo && i <= j)
  }

  lemma BestScoreStep(
    scores: map<FixtureId, ScoreState>, front: seq<FeedEvent>, event: FeedEvent, s: Snapshot, f: FixtureId, was: int)
    returns (i: int)
    requires s.scores == scores && event.ScoreEvent? && Scores(event, f)
    requires f !in scores ==> forall e :: e in front ==> !Scores(e, f)
    requires f in scores ==> BestScoreAt(front, f, was) && scores[f] == ScoreStateOf(front[was].score)
    ensures BestScoreAt(front + [event], f, i)
    ensures f in HandleScore(s, event.score).scores
            && HandleScore(s, event.score).scores[f] == ScoreStateOf((front + [event])[i].score)
  {
    var events := front + [event];
    assert event in events;
    assert FinalScoreIn(events, f) <==> FinalScoreIn(front, f) || IsFinalGameState(event.score.gameState);
    if f !in scores || Outranks(event.score.gameState, event.score.seqNo, scores[f]) {
      i := |front|;
    } else {
      i := was;
    }
  }

  lemma BestScoreStays(front: seq<FeedEvent>, event: FeedEvent, f: FixtureId, i: int)
    requires BestScoreAt(front, f, i) && !Scores(event, f)
    ensures BestScoreAt(front + [event], f, i)
  {
    var events := front + [event];
    assert forall e :: Scores(e, f) ==> (e in events <==> e in front);
    assert FinalScoreIn(events, f) <==> FinalScoreIn(front, f);
  }

  lemma StepScores(config: PipelineConfig, s: Snapshot, event: FeedEvent)
    ensures Step(config, s, event).scores == if event.ScoreEvent? then HandleScore(s, event.score).scores else s.scores
  {
    hide HandleOdds, HandleCrossMarketOdds, HandleScore, UpdateRatings, Sweep, MarketsAfter;
    match event
    case OddsEvent(odds, nowMs, multiplier) =>
      if config.crossMarket.Some? {
        CrossTouches(config, s, odds, nowMs, multiplier);
      } else {
        OddsTouch(config, s, odds, nowMs);
      }
    case ScoreEvent(score) => ScoreTouches(config, s, score);
    case _ =>
  }

  lemma ScoreLeavesOthers(s: Snapshot, score: ScoreUpdate, f: FixtureId)
    requires !Scores(ScoreEvent(score), f)
    ensures Lookup(HandleScore(s, score).scores, f) == Lookup(s.scores, f)
  {
  }

  /** The score tracked for a fixture, and so settled against, is the first one of highest seq among its final
      scores, or among all its scores while none is final; there is one exactly if some score carried goals. */
  lemma {:induction false} TrackedIsBest(config: PipelineConfig, events: seq<FeedEvent>, f: FixtureId) returns (i: int)
    ensures f in Drive(config, events).scores <==> AnyScoreIn(events, f)
    ensures f in Drive(config, events).scores ==>
              BestScoreAt(events, f, i) && Drive(config, events).scores[f] == ScoreStateOf(events[i].score)
  {
    hide Step, BestScoreAt, HandleScore;
    EveryRunKeepsInv(config, events);
    TrackedIffScored(Drive(config, events).scores, events, f);
    i := 0;
    if |events| > 0 {
      var front, last := events[..|events| - 1], events[|events| - 1];
      var s := Drive(config, front);
      assert front + [last] == events;
      i := TrackedIsBest(config, front, f);
      StepScores(config, s, last);
      if Scores(last, f) {
        i := BestScoreStep(s.scores, front, last, s, f, i);
      } else if last.ScoreEvent? {
        ScoreLeavesOthers(s, last.score, f);
      }
      if !Scores(last, f) && f in s.scores {
        BestScoreStays(front, last, f, i);
        assert events[i] == front[i] by { BestIsThere(front, f, i); }
      }
    }
  }

  lemma BestIsThere(events: seq<FeedEvent>, f: FixtureId, i: int)
    requires BestScoreAt(events, f, i)
    ensures 0 <= i < |events| && Scores(events[i], f)
  {
  }

  /** A fixture is folded into the ratings once, at one of its own final whistles, and never refolded. */
  lemma RatedOnce(config: PipelineConfig, front: seq<FeedEvent>, event: FeedEvent, f: FixtureId)
    ensures var before, after := Drive(config, front).rated, Drive(config, front + [event]).rated;
            && (f in before ==> f in after && after[f] == before[f])
            && (f in after && f !in before ==>
                  event.ScoreEvent? && event.score.fixtureId == f && IsFinalGameState(event.score.gameState)
                  && config.eloOverlay && f in Drive(config, front).fixtureTeams)
  {
    hide Drive, HandleOdds, HandleCrossMarketOdds, HandleScore, Sweep, MarketsAfter;
    var s := Drive(config, front);
    DrivenOn(config, front, event);
    match event
    case OddsEvent(odds, nowMs, multiplier) =>
      if config.crossMarket.Some? {
        CrossTouches(config, s, odds, nowMs, multiplier);
      } else {
        OddsTouch(config, s, odds, nowMs);
      }
    case ScoreEvent(score) =>
      HandleScoreShape(s, score);
      var rated := UpdateRatings(config, HandleScore(s, score), score.fixtureId);
      SweepKeepsRated(rated, Some(score.fixtureId), |rated.open|);
    case _ =>
  }
}
