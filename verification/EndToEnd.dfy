/** Results that span components: the feeds into the pipeline, and the pipeline into its sink. */
module EndToEnd {
  import opened Prelude
  import opened Domain
  import opened PipelineModel
  import opened PipelineProofs
  import opened Reconcile
  import opened Sink
  import Bytes
  import Feed
  import LedgerModel
  import LedgerProofs
  import LiveFeed
  import Store

  // ---------------------------------------------------------------------------------------------
  // The pipeline's sink calls, in order

  function AsCommits(positions: seq<Position>): seq<SinkEvent> {
    seq(|positions|, i requires 0 <= i < |positions| => Commits(positions[i]))
  }

  function AsSettles(log: seq<SettledPosition>): seq<SinkEvent> {
    seq(|log|, i requires 0 <= i < |log| => Settles(log[i]))
  }

  /** The sink calls one step makes: what it appended to the commit and settlement logs. */
  function NewCalls(before: Snapshot, after: Snapshot): seq<SinkEvent> {
    (if |before.open| <= |after.open| then AsCommits(after.open[|before.open|..]) else [])
    + (if |before.settlements| <= |after.settlements| then AsSettles(after.settlements[|before.settlements|..]) else [])
  }

  /** Every sink call of a run up to the end of the feed. */
  function CallsSoFar(config: PipelineConfig, events: seq<FeedEvent>): seq<SinkEvent> {
    if |events| == 0 then []
    else
      var front := events[..|events| - 1];
      CallsSoFar(config, front) + NewCalls(Drive(config, front), Drive(config, events))
  }

  /** Every sink call of a whole run, the end-of-feed sweep included. */
  function AllCalls(config: PipelineConfig, events: seq<FeedEvent>): seq<SinkEvent> {
    CallsSoFar(config, events) + NewCalls(Drive(config, events), RunToEnd(config, events))
  }

  /** The calls made so far are about positions and settlements in the two logs. */
  ghost predicate CallsAreLogged(calls: seq<SinkEvent>, open: seq<Position>, log: seq<SettledPosition>) {
    forall i :: 0 <= i < |calls| ==>
      match calls[i]
      case Commits(p) => p.index < |open| && open[p.index] == p
      case Settles(q) => q.index < |open| && q in log
  }

  /** Steps only append to the logs. */
  predicate Appends(before: Snapshot, after: Snapshot) {
    before.open <= after.open && before.settlements <= after.settlements
  }

  lemma {:induction false} SweepAppends(s: Snapshot, only: Option<FixtureId>, n: nat)
    requires n <= |s.open|
    ensures Appends(s, Sweep(s, only, n))
  {
    if n > 0 {
      SweepAppends(s, only, n - 1);
    }
  }

  lemma ScoreAppends(config: PipelineConfig, s: Snapshot, score: ScoreUpdate)
    ensures Appends(s, Step(config, s, ScoreEvent(score)))
  {
    var tracked := HandleScore(s, score);
    var rated := UpdateRatings(config, tracked, score.fixtureId);
    ScoringKeepsLogs(config, s, score);
    SweepAppends(rated, Some(score.fixtureId), |rated.open|);
  }

  lemma ScoringKeepsLogs(config: PipelineConfig, s: Snapshot, score: ScoreUpdate)
    ensures SameLogs(s, HandleScore(s, score))
    ensures SameLogs(s, UpdateRatings(config, HandleScore(s, score), score.fixtureId))
  {
    HandleScoreShape(s, score);
  }

  predicate SameLogs(s: Snapshot, n: Snapshot) {
    s.open == n.open && s.settlements == n.settlements
  }

  lemma CommitAppends(s: Snapshot, acted: Snapshot, d: Decision, nowMs: int)
    requires SameLogs(s, acted)
    ensures Appends(s, Commit(acted, d, nowMs))
  {
  }

  lemma OddsAppend(config: PipelineConfig, s: Snapshot, odds: OddsUpdate, nowMs: int)
    ensures Appends(s, HandleOdds(config, s, odds, nowMs))
  {
    match config.devig(odds.lines)
    case None =>
    case Some(book) =>
      var seen := Observe(s, odds, book, config.steamHistoryLimit);
      match FirstDecision(config, s.risk, seen.markets[odds.marketKey], odds, nowMs, book, 0)
      case None =>
      case Some(d) => CommitAppends(s, seen.(actedMarkets := seen.actedMarkets + {odds.marketKey}), d, nowMs);
  }

  lemma EntryAppends(
    config: PipelineConfig, cross: CrossMarketConfig, s: Snapshot, surface: FixtureSurface,
    odds: OddsUpdate, nowMs: int, sizeMultiplier: real)
    requires surface.matchQuote.Some?
    ensures Appends(s, FitAndEnter(config, cross, s, surface, odds, nowMs, sizeMultiplier))
  {
    var fitted := surface.(lastFitMs := Some(odds.tsMs));
    var stamped := s.(surfaces := s.surfaces[odds.fixtureId := fitted]);
    match CrossDecision(config, cross, s.risk, fitted, odds, nowMs, sizeMultiplier)
    case None =>
    case Some(d) =>
      CommitAppends(s, stamped.(actedFixtures := stamped.actedFixtures + {odds.fixtureId}), d, nowMs);
  }

  lemma StepAppends(config: PipelineConfig, s: Snapshot, event: FeedEvent)
    ensures Appends(s, Step(config, s, event))
  {
    match event
    case ScoreEvent(score) => ScoreAppends(config, s, score);
    case OddsEvent(odds, nowMs, multiplier) =>
      if config.crossMarket.Some? {
        CrossAppends(config, config.crossMarket.value, s, odds, nowMs, multiplier);
      } else {
        OddsAppend(config, s, odds, nowMs);
      }
    case _ =>
  }

  lemma CrossAppends(
    config: PipelineConfig, cross: CrossMarketConfig, s: Snapshot, odds: OddsUpdate, nowMs: int, sizeMultiplier: real)
    ensures Appends(s, HandleCrossMarketOdds(config, cross, s, odds, nowMs, sizeMultiplier))
  {
    var surface, seen := CrossShape(config, cross, s, odds, nowMs, sizeMultiplier);
    if ReadyToFit(cross, s, surface, odds, nowMs) {
      EntryAppends(config, cross, seen, surface, odds, nowMs, sizeMultiplier);
    }
  }

  lemma CommitCallsFollow(calls: seq<SinkEvent>, open: seq<Position>, more: seq<Position>, log: seq<SettledPosition>)
    requires PipelineCalls(calls) && CallsAreLogged(calls, open, log) && open <= more
    requires forall k :: 0 <= k < |more| ==> more[k].index == k
    ensures PipelineCalls(calls + AsCommits(more[|open|..]))
    ensures CallsAreLogged(calls + AsCommits(more[|open|..]), more, log)
  {
    var added := AsCommits(more[|open|..]);
    var all := calls + added;
    assert forall j :: 0 <= j < |added| ==> added[j] == Commits(more[|open| + j]);
    forall i, j | 0 <= i < j < |all|
      ensures Follows(all[i], all[j])
    {
      if j < |calls| {
        assert Follows(calls[i], calls[j]);
      }
    }
  }

  lemma SettleCallsFollow(calls: seq<SinkEvent>, open: seq<Position>, log: seq<SettledPosition>, more: seq<SettledPosition>)
    requires PipelineCalls(calls) && CallsAreLogged(calls, open, log) && log <= more
    requires forall k :: 0 <= k < |open| ==> open[k].index == k
    requires DistinctEntries(more)
    requires forall k :: 0 <= k < |more| ==>
               more[k].index < |open| && more[k].decision == open[more[k].index].decision && PipelineBooked(more[k])
    ensures PipelineCalls(calls + AsSettles(more[|log|..]))
    ensures CallsAreLogged(calls + AsSettles(more[|log|..]), open, more)
  {
    var added := AsSettles(more[|log|..]);
    var all := calls + added;
    assert forall j :: 0 <= j < |added| ==> added[j] == Settles(more[|log| + j]);
    forall i, j | 0 <= i < j < |all|
      ensures Follows(all[i], all[j])
    {
      if j < |calls| {
        assert Follows(calls[i], calls[j]);
      } else if i < |calls| && calls[i].Settles? {
        assert calls[i].settled in log;
        var k :| 0 <= k < |log| && log[k] == calls[i].settled;
        assert more[k] == log[k] && k < |log| + (j - |calls|);
      }
    }
    forall i | 0 <= i < |all|
      ensures all[i].Settles? ==> all[i].settled in more
    {
      if i < |calls| && calls[i].Settles? {
        assert calls[i].settled in log;
      }
    }
  }

  lemma CallsExtend(config: PipelineConfig, calls: seq<SinkEvent>, s: Snapshot, n: Snapshot, events: seq<FeedEvent>)
    requires PipelineCalls(calls) && CallsAreLogged(calls, s.open, s.settlements)
    requires Appends(s, n) && Inv(config, n, events)
    ensures PipelineCalls(calls + NewCalls(s, n)) && CallsAreLogged(calls + NewCalls(s, n), n.open, n.settlements)
  {
    hide PipelineCalls, CallsAreLogged, AllGenuine;
    CommitCallsFollow(calls, s.open, n.open, s.settlements);
    var withCommits := calls + AsCommits(n.open[|s.open|..]);
    LogIsBooked(n.settlements, n.settled, n.open, events);
    SettleCallsFollow(withCommits, n.open, s.settlements, n.settlements);
    assert calls + NewCalls(s, n) == withCommits + AsSettles(n.settlements[|s.settlements|..]);
  }

  lemma LogIsBooked(log: seq<SettledPosition>, settled: set<nat>, open: seq<Position>, events: seq<FeedEvent>)
    requires LoggedOnce(log, settled, open) && AllGenuine(log, events)
    ensures DistinctEntries(log)
    ensures forall k :: 0 <= k < |log| ==>
              log[k].index < |open| && log[k].decision == open[log[k].index].decision && PipelineBooked(log[k])
  {
    forall k | 0 <= k < |log|
      ensures PipelineBooked(log[k])
    {
      var e :| e in events && SettledBy(log[k], e);
    }
  }

  lemma {:induction false} CallsSoFarAreProper(config: PipelineConfig, events: seq<FeedEvent>)
    ensures var s := Drive(config, events); var calls := CallsSoFar(config, events);
            PipelineCalls(calls) && CallsAreLogged(calls, s.open, s.settlements)
  {
    if |events| > 0 {
      var front := events[..|events| - 1];
      CallsSoFarAreProper(config, front);
      EveryRunKeepsInv(config, events);
      StepAppends(config, Drive(config, front), events[|events| - 1]);
      CallsExtend(config, CallsSoFar(config, front), Drive(config, front), Drive(config, events), events);
    }
  }

  /** Whatever the feed and the detectors do, a run's sink calls satisfy what the live sink relies on, and they
      are about the run's own positions and settlements. */
  lemma EveryRunCallsTheSinkProperly(config: PipelineConfig, events: seq<FeedEvent>)
    ensures PipelineCalls(AllCalls(config, events))
    ensures CallsAreLogged(AllCalls(config, events), RunToEnd(config, events).open, RunToEnd(config, events).settlements)
  {
    CallsSoFarAreProper(config, events);
    EveryRunKeepsInv(config, events);
    var s := Drive(config, events);
    RunEndKeepsInv(config, events);
    SweepAppends(s, None, |s.open|);
    CallsExtend(config, CallsSoFar(config, events), s, RunToEnd(config, events), events);
  }

  // ---------------------------------------------------------------------------------------------
  // What the store adds up to

  /** The PnL a settlement log books on a set of positions. */
  function PnlOver(log: seq<SettledPosition>, these: set<nat>): int {
    if |log| == 0 then 0
    else
      var last := log[|log| - 1];
      PnlOver(log[..|log| - 1], these) + if last.index in these then last.pnl else 0
  }

  lemma {:induction false} PnlOverStrangers(log: seq<SettledPosition>, these: set<nat>, k: nat)
    requires !Logs(log, k)
    ensures PnlOver(log, these + {k}) == PnlOver(log, these)
  {
    if |log| > 0 {
      var front := log[..|log| - 1];
      assert Logs(front, k) ==> Logs(log, k);
      PnlOverStrangers(front, these, k);
    }
  }

  /** A new position adds exactly its own entry. */
  lemma {:induction false} PnlOverOneMore(log: seq<SettledPosition>, these: set<nat>, i: nat)
    requires DistinctEntries(log) && i < |log| && log[i].index !in these
    ensures PnlOver(log, these + {log[i].index}) == PnlOver(log, these) + log[i].pnl
  {
    var front := log[..|log| - 1];
    if i == |log| - 1 {
      PnlOverStrangers(front, these, log[i].index);
    } else {
      PnlOverOneMore(front, these, i);
    }
  }

  /** The positions below n that a store shows settled. */
  function ShownBelow(positions: map<nat, Store.PositionEntry>, n: nat): set<nat> {
    set k | k in positions && k < n && positions[k].settlement.Some?
  }

  function ShownIn(positions: map<nat, Store.PositionEntry>): set<nat> {
    set k | k in positions && positions[k].settlement.Some?
  }

  /** Every settlement of a store has an entry in the log, with its PnL. */
  ghost predicate BookedInLog(positions: map<nat, Store.PositionEntry>, log: seq<SettledPosition>) {
    forall k :: k in positions && positions[k].settlement.Some? ==>
      exists i :: 0 <= i < |log| && log[i].index == k && log[i].pnl == positions[k].settlement.value.pnl
  }

  lemma {:induction false} TotalIsOverLog(
    positions: map<nat, Store.PositionEntry>, log: seq<SettledPosition>, n: nat)
    requires DistinctEntries(log) && BookedInLog(positions, log)
    ensures Store.TotalPnl(positions, n) == PnlOver(log, ShownBelow(positions, n))
  {
    if n == 0 {
      PnlOverNothing(log);
      assert ShownBelow(positions, 0) == {};
    } else {
      TotalIsOverLog(positions, log, n - 1);
      var k, below := n - 1, ShownBelow(positions, n - 1);
      if k in positions && positions[k].settlement.Some? {
        var i :| 0 <= i < |log| && log[i].index == k && log[i].pnl == positions[k].settlement.value.pnl;
        PnlOverOneMore(log, below, i);
        assert ShownBelow(positions, n) == below + {k};
      } else {
        assert ShownBelow(positions, n) == below;
      }
    }
  }

  lemma {:induction false} PnlOverNothing(log: seq<SettledPosition>)
    ensures PnlOver(log, {}) == 0
  {
    if |log| > 0 {
      PnlOverNothing(log[..|log| - 1]);
    }
  }

  /** A store that mirrors logged calls has its settlements in the log. */
  lemma MirrorsAreBooked(
    positions: map<nat, Store.PositionEntry>, calls: seq<SinkEvent>, open: seq<Position>, log: seq<SettledPosition>)
    requires StoreMirrors(positions, calls, |calls|, true) && CallsAreLogged(calls, open, log)
    ensures BookedInLog(positions, log)
  {
    forall k | k in positions && positions[k].settlement.Some?
      ensures exists i :: 0 <= i < |log| && log[i].index == k && log[i].pnl == positions[k].settlement.value.pnl
    {
      var view := positions[k].settlement.value;
      var j :| 0 <= j < |calls| && calls[j].Settles? && calls[j].settled.index == k
               && calls[j].settled.won == view.won && calls[j].settled.pnl == view.pnl;
      assert calls[j].settled in log;
    }
  }

  /** A store reconciled with a run's calls shows the run's own PnL over the positions it shows settled. */
  lemma StoreAddsUp(
    config: PipelineConfig, events: seq<FeedEvent>, positions: map<nat, Store.PositionEntry>, limit: nat)
    requires StoreMirrors(positions, AllCalls(config, events), |AllCalls(config, events)|, true)
    requires forall k :: k in positions ==> k < limit
    ensures Store.TotalPnl(positions, limit) == PnlOver(RunToEnd(config, events).settlements, ShownIn(positions))
  {
    var s := RunToEnd(config, events);
    EveryRunCallsTheSinkProperly(config, events);
    SettlementIsExact(config, events);
    MirrorsAreBooked(positions, AllCalls(config, events), s.open, s.settlements);
    TotalIsOverLog(positions, s.settlements, limit);
    assert ShownBelow(positions, limit) == ShownIn(positions);
  }

  /** The positions whose remembered decision is settled on chain. */
  ghost function OnChainIn(l: LedgerModel.Ledger, committed: map<nat, CommittedReveal>): set<nat> {
    set k | k in committed && OnChain(l, committed, k)
  }

  /** Nobody else settles, and every settle of ours that landed was reported and read back. */
  ghost predicate NothingMissed(calls: seq<SinkEvent>, surroundings: seq<Surroundings>, landings: seq<bool>)
    requires |landings| <= |calls| == |surroundings| && AllComplete(surroundings)
  {
    NobodyElseSettles(surroundings) && AllHeard(calls, surroundings, landings)
  }

  predicate NobodyElseSettles(surroundings: seq<Surroundings>) {
    forall j :: 0 <= j < |surroundings| ==> OthersDoNotSettle(surroundings[j])
  }

  /** What the store shows after a run's calls, against the run and against the chain. When the proofs carry the
      pipeline's results it shows the run's own PnL over the shown positions. If nobody else settles, those are
      all the remembered decisions settled on chain exactly when every settle that landed was reported and read
      back; and then the ledger's own realized PnL has moved by exactly what the store shows. */
  ghost predicate ShowsRun(
    config: PipelineConfig, events: seq<FeedEvent>, surroundings: seq<Surroundings>, landings: seq<bool>, at: Moment,
    positions: map<nat, Store.PositionEntry>, realizedPnl: int, ledgerMoved: int)
  {
    var calls := AllCalls(config, events);
    && |landings| == |calls| == |surroundings| && AllComplete(surroundings)
    && AllBacked(at.ledger, at.committed, positions)
    && (ProofsCarryResults(calls, surroundings) ==>
          realizedPnl == PnlOver(RunToEnd(config, events).settlements, ShownIn(positions)))
    && (NobodyElseSettles(surroundings) ==>
          (ShownIn(positions) == OnChainIn(at.ledger, at.committed) <==> AllHeard(calls, surroundings, landings)))
    && (NothingMissed(calls, surroundings, landings) ==> ledgerMoved == realizedPnl)
  }

  /** Drive the live sink with a whole run. Whatever the feed, the network and the other writers do, each
      settlement the store ends up showing is settled on chain with the same PnL, and it shows the run. */
  method ServeRun(
    sink: OnChainSink, config: PipelineConfig, events: seq<FeedEvent>, surroundings: seq<Surroundings>)
    returns (ghost refusals: seq<Option<LedgerModel.LedgerError>>, ghost landings: seq<bool>, ghost history: seq<Moment>)
    requires sink.Valid() && sink.store.Reconciled() && sink.store.positions == map[]
    requires |surroundings| == |AllCalls(config, events)| && AllComplete(surroundings)
    modifies sink`committed, sink.ledger, sink.store
    ensures Serving(sink, AllCalls(config, events), surroundings, refusals, landings, history,
                    ProofsCarryResults(AllCalls(config, events), surroundings))
    ensures ShowsRun(config, events, surroundings, landings, Moment(sink.ledger.State(), sink.committed),
                     sink.store.positions, sink.store.realizedPnl,
                     sink.ledger.strategy.realizedPnl - old(sink.ledger.strategy.realizedPnl))
  {
    hide ShowsRun, AllCalls, Standing, Happened, PipelineCalls, AllRemaining, RunToEnd, AllSealed;
    EveryRunCallsTheSinkProperly(config, events);
    refusals, landings, history := Serve(sink, AllCalls(config, events), surroundings);
    RunIsShown(config, events, surroundings, landings, history, sink.ledger.world, sink.signer, sink.txoracle,
               sink.store.positions, sink.store.limit);
  }

  /** Serving a run's calls from nothing remembered leaves the store showing the run. */
  lemma RunIsShown(
    config: PipelineConfig, events: seq<FeedEvent>, surroundings: seq<Surroundings>, landings: seq<bool>,
    history: seq<Moment>, w: LedgerModel.World, signer: seq<Bytes.byte>, program: seq<Bytes.byte>,
    positions: map<nat, Store.PositionEntry>, limit: nat)
    requires |landings| == |AllCalls(config, events)| == |surroundings| && AllComplete(surroundings)
    requires Happened(w, signer, program, history, AllCalls(config, events), surroundings, landings)
    requires history[0].committed == map[]
    requires LedgerProofs.Accounted(w, history[0].ledger) && LedgerProofs.Accounted(w, history[|landings|].ledger)
    requires Standing(history[|landings|], positions, AllCalls(config, events), surroundings, landings,
                      ProofsCarryResults(AllCalls(config, events), surroundings))
    requires forall k :: k in positions ==> k < limit
    ensures ShowsRun(config, events, surroundings, landings, history[|landings|], positions,
                     Store.TotalPnl(positions, limit),
                     history[|landings|].ledger.strategy.realizedPnl - history[0].ledger.strategy.realizedPnl)
  {
    hide StoreMirrors, LedgerProofs.Accounted, PipelineCalls, AllCalls, AllHeard, LandsAt, Advances, RunToEnd;
    var calls, now := AllCalls(config, events), history[|landings|];
    EveryRunCallsTheSinkProperly(config, events);
    if ProofsCarryResults(calls, surroundings) {
      StoreAddsUp(config, events, positions, limit);
    }
    ShownIffHeard(now.ledger, now.committed, positions, calls, surroundings, landings);
    if NothingMissed(calls, surroundings, landings) {
      RunReconciles(w, signer, program, history, calls, surroundings, landings, positions, limit);
    }
  }

  lemma RunReconciles(
    w: LedgerModel.World, signer: seq<Bytes.byte>, program: seq<Bytes.byte>, history: seq<Moment>, calls: seq<SinkEvent>,
    surroundings: seq<Surroundings>, landings: seq<bool>, positions: map<nat, Store.PositionEntry>, limit: nat)
    requires |landings| == |calls| && PipelineCalls(calls)
    requires Happened(w, signer, program, history, calls, surroundings, landings) && history[0].committed == map[]
    requires LedgerProofs.Accounted(w, history[0].ledger) && LedgerProofs.Accounted(w, history[|calls|].ledger)
    requires Tally(history[|calls|].ledger, history[|calls|].committed, positions, calls, surroundings, landings)
    requires NothingMissed(calls, surroundings, landings)
    requires forall k :: k in positions ==> k < limit
    ensures history[|calls|].ledger.strategy.realizedPnl - history[0].ledger.strategy.realizedPnl
         == Store.TotalPnl(positions, limit)
  {
    var now := history[|calls|];
    RunSettlesOurs(w, signer, program, history, calls, surroundings, landings, |calls|);
    ShowsAllIff(now.ledger, now.committed, positions, calls, surroundings, landings);
    LedgerMovesWithStore(w, history[0].ledger, now, positions, limit);
  }

  lemma ShownIffHeard(
    l: LedgerModel.Ledger, committed: map<nat, CommittedReveal>, positions: map<nat, Store.PositionEntry>,
    calls: seq<SinkEvent>, surroundings: seq<Surroundings>, landings: seq<bool>)
    requires |landings| == |calls| == |surroundings| && AllComplete(surroundings) && PipelineCalls(calls)
    requires Tally(l, committed, positions, calls, surroundings, landings)
    ensures NobodyElseSettles(surroundings) ==>
              (ShownIn(positions) == OnChainIn(l, committed) <==> AllHeard(calls, surroundings, landings))
  {
    ShowsAllIff(l, committed, positions, calls, surroundings, landings);
    ShowsAllAsSets(l, committed, positions);
  }

  lemma ShowsAllAsSets(
    l: LedgerModel.Ledger, committed: map<nat, CommittedReveal>, positions: map<nat, Store.PositionEntry>)
    requires AllBacked(l, committed, positions)
    ensures ShowsAll(l, committed, positions) <==> ShownIn(positions) == OnChainIn(l, committed)
  {
    assert forall k :: k in ShownIn(positions) <==> Shown(positions, k);
    assert forall k :: k in OnChainIn(l, committed) <==> OnChain(l, committed, k);
    assert forall k :: Shown(positions, k) ==> OnChain(l, committed, k);
  }

  // ---------------------------------------------------------------------------------------------
  // Live and replay settle on the same scores

  /** The mappings copy a score record's fixture and seq. */
  ghost predicate CopiesScoreKeys(maps: Feed.Maps) {
    forall raw :: maps.score(raw).Some? ==>
      maps.score(raw).value.fixtureId == raw.fixtureId && maps.score(raw).value.seqNo == raw.seqNo
  }

  /** An event stream whose score events are a feed's score payloads, whatever else it holds. */
  ghost predicate CarriesScores(events: seq<FeedEvent>, entries: seq<Feed.Entry>) {
    forall score :: ScoreEvent(score) in events <==> HasScore(entries, score)
  }

  ghost predicate HasScore(entries: seq<Feed.Entry>, score: ScoreUpdate) {
    exists e :: e in entries && e.payload == Feed.ScorePayload(score)
  }

  lemma ScoreEntryKey(maps: Feed.Maps, records: seq<Feed.Record>, e: Feed.Entry, score: ScoreUpdate)
    requires CopiesScoreKeys(maps) && Feed.Consistent(maps, records)
    requires e in Feed.Entries(maps, records) && e.payload == Feed.ScorePayload(score)
    ensures e.key == Feed.ScoreKey(score.fixtureId, score.seqNo)
  {
    Feed.EntryIffYielded(maps, records, e);
    var r :| r in records && Feed.Yields(maps, r, e);
  }

  lemma FeedSeqsAreUnique(maps: Feed.Maps, records: seq<Feed.Record>, events: seq<FeedEvent>)
    requires CopiesScoreKeys(maps) && Feed.Consistent(maps, records)
    requires CarriesScores(events, Feed.Entries(maps, records))
    ensures UniqueSeqs(events)
  {
    var entries := Feed.Entries(maps, records);
    Feed.EntriesAreDistinct(maps, records);
    forall a, b, f {:trigger Scores(a, f), Scores(b, f)}
      | a in events && b in events && Scores(a, f) && Scores(b, f) && a.score.seqNo == b.score.seqNo
      ensures ScoreStateOf(a.score) == ScoreStateOf(b.score)
    {
      assert a == ScoreEvent(a.score) && b == ScoreEvent(b.score);
      assert HasScore(entries, a.score) && HasScore(entries, b.score);
      var x :| x in entries && x.payload == Feed.ScorePayload(a.score);
      var y :| y in entries && y.payload == Feed.ScorePayload(b.score);
      ScoreEntryKey(maps, records, x, a.score);
      ScoreEntryKey(maps, records, y, b.score);
      assert x.key == y.key;
      assert x == y;
    }
  }

  /** A pipeline driven by a live run and one driven by a replay of the same records track the same scores,
      so they settle the same fixtures on the same results. */
  lemma LiveAndReplayTrackTheSameScores(
    config: PipelineConfig, live: LiveFeed.LiveConfig, sessions: seq<LiveFeed.Session>,
    source: Feed.IntervalCoord -> Feed.IntervalAnswer, intervals: seq<Feed.IntervalCoord>,
    left: seq<FeedEvent>, right: seq<FeedEvent>)
    requires CopiesScoreKeys(live.maps)
    requires Feed.KeysOf(LiveFeed.LiveRecords(live, sessions)) == Feed.KeysOf(Feed.WindowRecords(source, intervals))
    requires Feed.Consistent(live.maps, LiveFeed.LiveRecords(live, sessions) + Feed.WindowRecords(source, intervals))
    requires CarriesScores(left, LiveFeed.Payloads(LiveFeed.Run(live, sessions).log))
    requires CarriesScores(right, Feed.ReplayOrder(Feed.Entries(live.maps, Feed.WindowRecords(source, intervals))))
    ensures Drive(config, left).scores == Drive(config, right).scores
  {
    var streamed := LiveFeed.Payloads(LiveFeed.Run(live, sessions).log);
    var replayed := Feed.ReplayOrder(Feed.Entries(live.maps, Feed.WindowRecords(source, intervals)));
    var delivered := LiveFeed.LiveRecords(live, sessions);
    LiveFeed.LiveMatchesReplay(live, sessions, source, intervals);
    LiveFeed.LogIsDeduplication(live, sessions);
    assert forall r :: r in delivered ==> r in delivered + Feed.WindowRecords(source, intervals);
    FeedSeqsAreUnique(live.maps, delivered, left);
    forall e: FeedEvent | e.ScoreEvent?
      ensures e in left <==> e in right
    {
      SameMembers(streamed, replayed, e.score);
      assert e == ScoreEvent(e.score);
    }
    TrackedScoresIgnoreArrivalOrder(config, left, right);
  }

  lemma SameMembers(a: seq<Feed.Entry>, b: seq<Feed.Entry>, score: ScoreUpdate)
    requires multiset(a) == multiset(b)
    ensures HasScore(a, score) <==> HasScore(b, score)
  {
    assert forall e :: e in a <==> e in multiset(a);
    assert forall e :: e in b <==> e in multiset(b);
  }
}
