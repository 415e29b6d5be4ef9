# TxLINE trading agent: a verified model

This project models the trading agent's five cores in Dafny and proves what they keep over whole runs and what they
agree on with each other.

- **Trading pipeline and risk manager.** A state machine over arbitrary odds, score and fixture events. `PipelineModel`
  gives each step as a function on a snapshot, the class `Pipeline.Pipeline` performs the steps on its own fields and
  is proved equal to them, `PipelineProofs` carries one invariant through every run, and `EntryLaws` tells every bet,
  every settlement and everything remembered from the event stream alone. Signal detectors and de-vigging are arbitrary
  functions, so the results hold for all of them. `Risk` also runs the risk manager alone, with anomalies and operator
  resets anywhere.
- **On-chain ledger and the protocol that drives it.** `LedgerModel` holds the instructions, each atomic; the class
  `Ledger.AgentLedger` performs them in place; `LedgerHistory` tells every record from the instructions behind it, and
  when an instruction fails. `Sink.OnChainSink` is the read-check-write client. Other writers' instructions run between
  any two of its steps.
- **Feed layer.** Incremental parsing of server-sent events (a subset of sections 9.2.5 and 9.2.6 of the WHATWG HTML
  Living Standard), the merge of two streams as an interleaved step system, the live feed with reconnects and
  backfills, told from its sessions alone in `LiveScript`, the replay feed, and the REST client's retries.
- **Borsh codec.** Writers, readers and account decoders over byte sequences, following the Specification section of
  borsh.io: little-endian two's-complement integers, u32-prefixed strings and vectors, tagged options.
- **Numeric core over the reals.** Shin's method and proportional de-vigging, the Dixon-Coles scoreline matrix, the
  goals-model fit, and the backtest's drawdown.

`EndToEnd` joins them: a whole pipeline run drives the live sink, and what the store then shows is compared with the
run's own settlement log and with the ledger's own books; a live and a replayed feed of the same records drive
pipelines to the same scores.

Where the code does not meet a claim made for it, the claim's exact condition is proved next to a failing input: the
zero clamp on the bankroll (`Walk`), a chunk boundary inside a CRLF pair (`SseParse` for raw frames,
`SseCuts.SameOutputIff` for parsed ones), a final whistle without goals (`PipelineProofs.WhistleFoldsFinalIff`), a
commit or settle that lands but is not heard of (`Sink.OnChainSink.OnCommit`, `Sink.ShowsAllIff`, `LostReceipt`), a
second settlement of one position (`Store.AgentStateStore.MarkSettled`), a prior of negative weight
(`GoalsLaws.FitCostsNothingIff`), and lengths of 2^32 and more (`Borsh`). The connector's header comment says a drop on
either stream ends the merged iterable; the code ends it only after both pumps have ended, and the model follows the
code.

Verify everything with `dafny verify dfyconfig.toml`.

## Model

| member | source | states |
|---|---|---|
| Risk.VerdictIsLargestAdmissibleStake | packages/core/src/risk/manager.ts:49-102 | An order is approved exactly when no breaker fires and some stake fits every cap, and the approved stake is the largest that does. |
| Risk.VerdictNamesFirstBreach | packages/core/src/risk/manager.ts:49-102 | A refusal names the oldest latched anomaly, or else the first limit the order or state really breaches; an approved order breaches none. |
| Risk.CommitKeepsSound | packages/core/src/risk/manager.ts:105-114 | Committing an approved order keeps counters equal to the outstanding positions, every cap, and the loss floor. |
| Risk.SettlementKeepsSound | packages/core/src/risk/manager.ts:117-132 | Settling an open position at no worse than the loss of its stake keeps them too. |
| Risk.ExposureClampsNeverFire | packages/core/src/risk/manager.ts:117-132 | On a sound state the zero clamps never fire: settling subtracts exactly the position's weight from every gauge. |
| Risk.EveryRunIsSound | packages/core/src/risk/manager.ts:49-143 | In every state reachable by orders, settlements, anomalies and resets the counters reconcile and every limit holds. |
| Risk.WorstCaseLoss | packages/core/src/risk/manager.ts:61-143 | From any reachable state no sequence of settlements takes the bankroll below day start minus drawdown limit minus total exposure cap. |
| Risk.WorstCaseLossIsTight | packages/core/src/risk/manager.ts:61-143 | That bound is attained by some configuration and run. |
| Sizing.KellyStakeIsCapped | packages/core/src/quant/kelly.ts:28-73 | For any multiplier a Kelly stake stays within its capped share of the bankroll, and a positive one needs odds with positive expected value. |
| Sizing.SteamStakeIsCapped | packages/core/src/quant/sizing.ts:22-39 | A steam stake stays within its capped share of the bankroll. |
| Sizing.KellyIsStationary | packages/core/src/quant/kelly.ts:20-62 | The Kelly fraction f solves b f = b p - q, where p b / (1 + b f) = q / (1 - f). |
| Sizing.KellyStakeIsItsShare | packages/core/src/quant/kelly.ts:28-73 | A Kelly stake is, to the whole micro-USD, the smaller of the scaled Kelly share of the bankroll and the cap; nothing without an edge or at probability 0 or 1; and a bad configuration is refused. |
| Sizing.SteamStakeIsItsShare | packages/core/src/quant/sizing.ts:22-39 | A steam stake is, to the whole micro-USD, the base share raised by a positive strength, held between nothing and the cap. |
| Sizing.BuiltDecisionIsApproved | packages/core/src/decision/build.ts:41-93 | Every built decision was approved at the times and in the context given, for the stake its sizing proposed, on the signal's own fixture, market and odds; it stakes something, at most the proposal and the bankroll, and carries the signal's own fields. |
| Domain.PnlIsBoundedBelow | packages/core/src/risk/pnl.ts:8-15 | A loss costs exactly the stake; a win pays the net profit, less than one micro-USD short. |
| Walk.ReflectedClosedForm | packages/core/src/risk/manager.ts:117-132 | Clamping at zero step by step equals the plain sum minus the lowest prefix level below zero. |
| Walk.LowWaterIsMinimum | packages/core/src/risk/manager.ts:127 | That level is the minimum of zero and every prefix sum. |
| Walk.ClampMattersIffSomePrefixIsNegative | packages/core/src/risk/manager.ts:127 | The bankroll is never below start plus PnL, and equals it exactly when no prefix goes negative. |
| Walk.ClampBreaksPlainSum | packages/core/src/risk/manager.ts:127 | A concrete log for which bankroll is not start plus PnL. |
| Pipeline.OddsByOutcomeOf | packages/core/src/pipeline/pipeline.ts:137-143 | The loop keeps, per outcome, the odds of the last line naming it. |
| Pipeline.PushBounded | packages/core/src/pipeline/pipeline.ts:150-174 | Push then shift keeps exactly the newest observations up to the limit. |
| Pipeline.FindConsensus | packages/core/src/pipeline/pipeline.ts:534-600 | The settlement scan finds the latest observation in the entry window and in the closing window. |
| Pipeline.Pipeline.CommitDecision | packages/core/src/pipeline/pipeline.ts:180-196 | The in-place commit is the model's commit step. |
| Pipeline.Pipeline.HandleOddsUpdate | packages/core/src/pipeline/pipeline.ts:204-279 | The per-market odds handler is the model's step and reports how many decisions it committed. |
| Pipeline.Pipeline.HandleCrossMarketUpdate | packages/core/src/pipeline/pipeline.ts:316-428 | So is the cross-market odds handler. |
| Pipeline.Pipeline.TrackScore | packages/core/src/pipeline/pipeline.ts:436-472 | So is score tracking. |
| Pipeline.Pipeline.UpdateRatingsForFinal | packages/core/src/pipeline/pipeline.ts:491-526 | So is the choice of the score folded into the ratings. |
| Pipeline.Pipeline.SettlePosition | packages/core/src/pipeline/pipeline.ts:534-600 | So is settling one position, which acts exactly when its index is not settled yet. |
| Pipeline.Pipeline.SettleFixture | packages/core/src/pipeline/pipeline.ts:607-625 | The sweep over a finished fixture is the model's sweep. |
| Pipeline.Pipeline.SettleEverything | packages/core/src/pipeline/pipeline.ts:633-640 | So is the end-of-feed sweep. |
| Pipeline.Pipeline.Run | packages/core/src/pipeline/pipeline.ts:650-697 | A whole run ends in the model's final state and reports its counts and bankroll. |
| PipelineProofs.CommitKeepsInv | packages/core/src/pipeline/pipeline.ts:180-196 | A commit on a market or fixture not acted on keeps the run invariant. |
| PipelineProofs.SettleOneKeepsInv | packages/core/src/pipeline/pipeline.ts:534-600 | Settling an open position under a tracked final score keeps it. |
| PipelineProofs.HandleScoreTracksTop | packages/core/src/pipeline/pipeline.ts:436-472 | After any score the tracked score of every fixture is one of its goal-bearing scores that none of them outranks by finality, then seq. |
| PipelineProofs.EveryRunKeepsInv | packages/core/src/pipeline/pipeline.ts:650-697 | Every prefix of every run satisfies the invariant. |
| PipelineProofs.EveryMomentKeepsInv | packages/core/src/pipeline/pipeline.ts:607-697 | So does every state inside a final whistle's sweep and inside and after the end-of-feed sweep. |
| PipelineProofs.ExposureIsConserved | packages/core/src/pipeline/pipeline.ts:180-196 | At every moment of every run, settlement sweeps included, open count, total, per-fixture and per-market exposure equal the sums over committed, unsettled positions and stay within their limits. |
| PipelineProofs.PipelineWorstCaseLoss | packages/core/src/pipeline/pipeline.ts:534-551 | At every such moment bankroll less open exposure is at least start minus drawdown limit minus exposure cap. |
| PipelineProofs.SettlementIsExact | packages/core/src/pipeline/pipeline.ts:534-640 | At the end the settled positions are exactly those whose fixture has a tracked final score; each was emitted once with a real final score's seq, time and result. |
| PipelineProofs.FinalScoreIffFinalEvent | packages/core/src/pipeline/pipeline.ts:436-472 | A fixture has a tracked final score exactly when a goal-bearing final score event arrived for it. |
| PipelineProofs.TrackedScoresIgnoreArrivalOrder | packages/core/src/pipeline/pipeline.ts:436-472 | With unique (fixture, seq) the tracked scores depend only on which score events arrived, not on order or repetition. |
| PipelineProofs.FinalBankrollVersusReport | packages/core/src/pipeline/pipeline.ts:650-697 | The run's bankroll is the clamped walk of its settlement log, at least the plain sum, equal exactly when no prefix is negative. |
| PipelineProofs.NoReentry | packages/core/src/pipeline/pipeline.ts:204-428 | At every such moment no market (or, cross-market, no fixture) has been entered twice. |
| PipelineProofs.LatestIsLatest | packages/core/src/pipeline/pipeline.ts:534-600 | The closing line is an observation in its window with the greatest timestamp, known exactly when there is one. |
| PipelineProofs.ObservationIsAppended | packages/core/src/pipeline/pipeline.ts:150-174 | Recording a book appends one observation to each priced outcome's history, drops the oldest past the limit, and leaves other outcomes alone. |
| PipelineProofs.FirstDecisionIsFirst | packages/core/src/pipeline/pipeline.ts:204-279 | The per-market path acts on the first outcome in home-draw-away order that leads to a decision. |
| PipelineProofs.CrossEntryIsGated | packages/core/src/pipeline/pipeline.ts:316-428 | A cross-market commit implies a full-game market, a known kickoff inside the lead window, both market families, a fresh fixture and the refit gap. |
| PipelineProofs.RatedScoreIsFinalIff | packages/core/src/pipeline/pipeline.ts:491-526 | The score folded at a final whistle is final exactly when that event has goals or a final score was already tracked. |
| PipelineProofs.WhistleFoldsFinalIff | packages/core/src/pipeline/pipeline.ts:436-526 | In every run a first whistle folds a score in exactly when some score event has carried goals, and a final one exactly when a final event up to and including the whistle has. |
| PipelineProofs.NullGoalWhistleFoldsInRunningScore | packages/core/src/pipeline/pipeline.ts:499-511 | A concrete run in which an in-running score is folded. |
| EntryLaws.PricesIff | packages/core/src/domain/fairbook.ts:26-27 | A fair book prices an outcome at its first entry for it. |
| EntryLaws.OffersIff | packages/core/src/pipeline/pipeline.ts:137-143 | Lines offer an outcome at the last line naming it. |
| EntryLaws.HistoryIsRemembered | packages/core/src/pipeline/pipeline.ts:150-174 | After any events a market's history for an outcome is the newest fair probabilities the stream has shown for it, in order of arrival. |
| EntryLaws.LatestValuesAreLatest | packages/core/src/pipeline/pipeline.ts:150-174 | The latest values kept per outcome are the last fair probability shown and the last odds shown with one. |
| EntryLaws.KickoffIsLatest | packages/core/src/pipeline/pipeline.ts:436-441 | The kickoff time of a fixture is the one its scores last announced. |
| EntryLaws.TeamsAreLatest | packages/core/src/pipeline/pipeline.ts:478-483 | Its participants are the ones last announced. |
| EntryLaws.MarketEntryIff | packages/core/src/pipeline/pipeline.ts:204-279 | In every run, odds on a market already entered, or without a fair book, enter nothing; otherwise the first outcome of home, draw, away on which an order is wanted is entered: priced, offered, signalled by steam or else divergence over everything shown so far, sized, and approved at the time received against the odds' own time. |
| EntryLaws.SurfaceIsJoined | packages/core/src/pipeline/pipeline.ts:316-375 | A fixture's joined surface is its last full-game 1X2 quote, its last over-under lines by line, and the time of its last fit. |
| EntryLaws.FixtureEntryIff | packages/core/src/pipeline/pipeline.ts:316-428 | In every run, cross-market odds enter a bet exactly when their surface is fitted (every gate told from the events) and the fit wants one that clears sizing and risk, and then that bet. |
| EntryLaws.EveryEntryHasItsOdds | packages/core/src/pipeline/pipeline.ts:180-428 | Every position of every run was entered by one odds event of its fixture, at the time it arrived, within the stale-feed limit of the odds' own time. |
| EntryLaws.SettledAtTheWhistle | packages/core/src/pipeline/pipeline.ts:607-697 | A final whistle settles at once every position of its fixture, if some final score has carried goals, and nothing else; no other event settles anything. |
| EntryLaws.SettlementBooksLine | packages/core/src/pipeline/pipeline.ts:534-600 | A settlement books the latest observation up to the decision, and as closing line the latest after it and before a known kickoff, known exactly when there is one. |
| EntryLaws.EverySettlementBooksLine | packages/core/src/pipeline/pipeline.ts:534-697 | So does every settlement of every run, from the events up to the whistle that made it, with the score tracked by then. |
| EntryLaws.FinalSweepBooksLine | packages/core/src/pipeline/pipeline.ts:633-640 | So does every settlement of the end-of-feed sweep, from the whole stream. |
| EntryLaws.TrackedIsBest | packages/core/src/pipeline/pipeline.ts:436-472 | The score tracked for a fixture is the first of highest seq among its final scores, or among all while none is final. |
| EntryLaws.RatedOnce | packages/core/src/pipeline/pipeline.ts:491-526 | A fixture is folded into the ratings at one of its own final whistles, once. |
| Backtest.WinsCountsWinners | packages/backtest/src/metrics.ts:60-136 | The running win counter is the number of winning positions. |
| Backtest.ComputeBacktestMetrics | packages/backtest/src/metrics.ts:60-136 | One pass yields the exact sums, the unclamped equity walk, and a drawdown that bounds and is attained by a fall between two points in time order. |
| Backtest.RunBacktest | packages/backtest/src/run.ts:22-31 | A backtest's report, computed from its own pipeline run, never shows a higher bankroll than the run ended with, and the same exactly when no prefix of the log is negative. |
| LedgerProofs.LedgerAccounting | programs/agent_ledger/src/lib.rs:55-334 | Over every instruction sequence the open, settled and void counters are the counts of such decisions and sum to decisions_count; wins plus losses is settled_count; realized PnL is the sum of decision PnLs; a proven price implies settled. |
| LedgerProofs.RunEvolves | programs/agent_ledger/src/lib.rs:55-334 | A decision's committed fields never change, settled and void are terminal, and a proof of odds is never withdrawn. |
| LedgerProofs.QuietRunSettlesNothing | programs/agent_ledger/src/lib.rs:55-334 | A run without settle instructions leaves the set of settled decisions as it was. |
| LedgerProofs.ApplyPnlClamps | programs/agent_ledger/src/logic.rs:51-57 | Where it succeeds the checked update is max(0, bankroll + pnl). |
| LedgerProofs.LedgerBankrollIsWalk | programs/agent_ledger/src/lib.rs:185-188 | The on-chain bankroll is the same clamped walk over successful settles as the off-chain one. |
| LedgerProofs.RunKeepsRoot | programs/agent_ledger/src/lib.rs:80-84 | commit_log_root is the fold of (root, commit hash, index) over all commits in order, whatever else runs. |
| LedgerProofs.RootsBindOrCollide | programs/agent_ledger/src/lib.rs:80-84 | Equal roots after equally many commits give equal histories or exhibit a hash collision. |
| LedgerProofs.LedgersWithEqualRootsAgree | programs/agent_ledger/src/lib.rs:80-84 | Two reachable ledgers with equal root and count hold the same commit hashes, unless a collision is at hand. |
| LedgerProofs.ExactlyOneClaimHolds | programs/agent_ledger/src/logic.rs:15-22 | For any goals exactly one claimed result passes its predicate: the side of the score. |
| LedgerProofs.EverySettlementIsProper | programs/agent_ledger/src/lib.rs:100-206 | No run settles a decision without an attested score for its fixture that gives its outcome side and its PnL from the sealed stake and odds. |
| LedgerProofs.EveryOddsProofIsProper | programs/agent_ledger/src/lib.rs:213-304 | No run marks entry odds proven without an attested snapshot of the decision's fixture quoting exactly the sealed odds for the sealed side. |
| LedgerProofs.EveryRunStaysInWidth | programs/agent_ledger/src/lib.rs:55-334 | In no run does any of the strategy's numbers leave its u64, i64 or u32 field. |
| LedgerProofs.PnlAgrees | programs/agent_ledger/src/logic.rs:40-48 | Where compute_pnl does not overflow it is the pipeline's PnL; it overflows exactly when the product leaves u64 or the result leaves i64. |
| LedgerProofs.ResultsAgree | packages/core/src/pipeline/pipeline.ts:115-116 | The pipeline's result and the ledger's side of a score name the same outcome. |
| LedgerHistory.WinsAndLossesAreCounted | programs/agent_ledger/src/lib.rs:185-197 | Over every run the win counter moves by exactly the successful settles whose claimed result is the sealed side, and the loss counter by exactly the others. |
| LedgerHistory.SettleIsWonByTheScore | programs/agent_ledger/src/lib.rs:140-176 | A settle is a win exactly if the sealed side is the side of the attested score. |
| LedgerHistory.EveryRecordIsExplained | programs/agent_ledger/src/lib.rs:55-334 | Whatever is sent to a fresh ledger, each record was committed by an instruction carrying what it seals, at the time it shows; a settled one by a later settle whose attestation gives its outcome and PnL; a void one by a later reveal within six hours; a proven one by a still later proof of the sealed odds. |
| LedgerHistory.CommitNamesFirstFault | programs/agent_ledger/src/lib.rs:55-95 | commit_decision fails with the first fault it finds, in order, and succeeds exactly when there is none. |
| LedgerHistory.SettleNamesFirstFault | programs/agent_ledger/src/lib.rs:100-206 | So does settle_decision, overflows of any field included. |
| LedgerHistory.ProveNamesFirstFault | programs/agent_ledger/src/lib.rs:213-304 | So does prove_entry_odds. |
| LedgerHistory.VoidNamesFirstFault | programs/agent_ledger/src/lib.rs:308-334 | So does void_decision. |
| Ledger.RequireSettleable | programs/agent_ledger/src/lib.rs:100-172 | The handler's checks, in order, are the model's check. |
| Ledger.BookOutcome | programs/agent_ledger/src/lib.rs:174-197 | The checked counter updates are the model's booking, or nothing. |
| Ledger.AgentLedger.constructor | programs/agent_ledger/src/lib.rs:29-51 | A new ledger is accounted, root-bound and has no improper settlement. |
| Ledger.AgentLedger.CommitDecision | programs/agent_ledger/src/lib.rs:55-95 | Commit is atomic: the model's new ledger on success, nothing changed on failure, and the failure code is the model's. |
| Ledger.AgentLedger.SettleDecision | programs/agent_ledger/src/lib.rs:100-206 | So is settle. |
| Ledger.AgentLedger.ProveEntryOdds | programs/agent_ledger/src/lib.rs:213-304 | So is proving the entry odds. |
| Ledger.AgentLedger.VoidDecision | programs/agent_ledger/src/lib.rs:308-334 | So is voiding. |
| Sink.BpsInRange | packages/agent/src/reveal.ts:63-85 | A sealed probability is the nearest basis points, between 0 and 10000. |
| Sink.SettleArgsCarryTheProof | packages/onchain-client/src/settle-args.ts:139-230 | Settle arguments are built exactly when the proof has its second stat, safe integers and 32-byte hashes, and carry it part by part. |
| Sink.AnchorSurvives | programs/agent_ledger/src/lib.rs:364-370 | No other writer can invalidate an anchored commitment. |
| Sink.AnchoredChecksPass | programs/agent_ledger/src/lib.rs:100-117 | Settling an anchored reveal with the proof's own side never fails the commit, routing, side or claim check. |
| Sink.OnChainSink.PortCommit | packages/onchain-client/src/solana-port.ts:206-243 | With writers between its steps, the commit lands exactly if the re-read answers and still shows the sealed index and the transaction arrives and executes; then the ledger holds the reveal's hash, open, at that index, which was free before. A receipt comes exactly if it is also reported. |
| Sink.OnChainSink.PortSettle | packages/onchain-client/src/solana-port.ts:245-285 | A receipt comes exactly for a settle that executed on the ledger as the others had left it, was reported and could be read back; it is the settled record's own win and PnL for the sealed bet. A refusal is never a commit, routing, side or claim mismatch. |
| Sink.OnChainSink.OnCommit | packages/agent/src/onchain-sink.ts:106-165 | A commit lands exactly if both reads answer, the decision seals and encodes at the index first read, the index is unchanged and the transaction executes; it is remembered, anchored at that index, exactly if it is also reported. Otherwise an error is recorded and map and positions are unchanged. |
| Sink.OnChainSink.OnSettle | packages/agent/src/onchain-sink.ts:167-238 | The settle targets the remembered index and lands there exactly if a proof arrives, encodes and executes; the store books it exactly if it is also reported and read back, with the PnL and result of the settled record; otherwise an error is recorded and no position changes. If the others send no settle, nothing else is settled. |
| Sink.OnChainSink.PortProve | packages/onchain-client/src/solana-port.ts:287-327 | Whatever is lost or interleaved, proven is reported only when the ledger's record is flagged, and the call settles nothing. |
| Sink.OnChainSink.ProveAfterSettle | packages/agent/src/onchain-sink.ts:243-268 | After a booked settlement the walk over past odds decides: a found quote is sent to be proven, and the position's proof flag is set only on the ledger's word and else an error recorded; if nothing is found, nothing changes. |
| QuoteSearch.DiscoverEntryOddsRecord | packages/agent/src/prove-entry-odds.ts:88-131 | The nested walk, newest bucket first and passing over failed ones, ends with the proof of the first record that quotes the sealed price for the sealed side, or without one exactly if no record does. |
| QuoteSearch.WalkCoversHours | packages/agent/src/prove-entry-odds.ts:72-84 | An interval is walked exactly if its hour is the settlement's or one of the seven before. |
| QuoteSearch.WalkIsNewestFirst | packages/agent/src/prove-entry-odds.ts:72-99 | The walk goes back one interval at a time from the last of the settlement's hour. |
| QuoteSearch.QuotesIff | packages/agent/src/prove-entry-odds.ts:104-116 | A record quotes the bet exactly if it is its fixture's, in the result market, with the sealed price at the first label read as the sealed side. |
| QuoteSearch.ProveArgsCarryTheProof | packages/onchain-client/src/prove-odds-args.ts:83-148 | Proof arguments are built exactly when the numbers are safe integers and the hashes have 32 bytes, and carry the proof part by part. |
| QuoteSearch.FoundQuotePasses | packages/onchain-client/src/prove-odds-args.ts:83-148 | If the validation service answers for the record it was asked about and labels are read alike, the program never refuses a found quote for its market, index, side, price, fixture or commitment. |
| Sink.BackingSurvives | programs/agent_ledger/src/lib.rs:100-334 | A settlement the store shows stays backed by a settled record with its PnL and result, whatever instructions follow. |
| Sink.BooksAgree | packages/agent/src/onchain-sink.ts:191-228 | If the proof carries the pipeline's result, the booked win and PnL are the pipeline's. |
| Sink.Serve | packages/agent/src/onchain-sink.ts:84-274 | Over a whole sequence of calls under contention a commit is remembered exactly when it lands and is reported, the store's counters stay exact, each settlement it shows is for one the pipeline made and is backed by a settled ledger record with the same PnL, it shows exactly the settles that landed and were heard of, and no refusal is a mismatch. If the score proofs carry the pipeline's results, the shown wins and PnLs are the pipeline's. |
| Sink.ShowsAllIff | packages/onchain-client/src/solana-port.ts:265-284 | The store shows every remembered decision that is settled on chain exactly when every settle of ours that landed was reported and read back and nobody else settled one. |
| LostReceipt.ReceiptIsLost | packages/onchain-client/src/solana-port.ts:265-277 | A concrete bet whose settle lands and pays on chain while its report is lost, so the store never shows it. |
| LostReceipt.CommitIsLost | packages/agent/src/onchain-sink.ts:132-172 | A concrete commit that lands while its report is lost: its decision stays open on chain, it is not remembered, and no later settle call can settle it. |
| Reconcile.RunSettlesOurs | packages/agent/src/onchain-sink.ts:84-274 | If the others send no settle, every decision settled since the start of a run is one the sink committed and remembers. |
| Reconcile.LedgerMovesWithStore | programs/agent_ledger/src/lib.rs:174-197 | If the store shows all of those, the ledger's realized PnL has moved by exactly what the store adds up to. |
| EndToEnd.EveryRunCallsTheSinkProperly | packages/core/src/pipeline/pipeline.ts:650-697 | Every run commits each index once, then settles it at most once with the same decision and its own arithmetic, and its calls are its own positions and settlements. |
| EndToEnd.StoreAddsUp | packages/agent/src/state-store.ts:128-141 | A store that mirrors a run's calls totals the run's own PnLs over the positions it shows settled. |
| EndToEnd.ServeRun | packages/agent/src/onchain-sink.ts:84-274 | A live sink driven by a whole run shows only settlements the ledger backs with the same PnL, and, when the proofs carry the pipeline's results, realized PnL equal to the run's PnLs over the shown positions. If nobody else settles, those are all the settled ones exactly when every landed settle was heard of, and then the ledger's own realized PnL has moved by exactly what the store shows. |
| EndToEnd.LiveAndReplayTrackTheSameScores | packages/txline/src/feed/live.ts:103-313 | Pipelines driven by a live run and by a replay of the same records track the same scores. |
| Store.AgentStateStore.RecordCommit | packages/agent/src/state-store.ts:123-126 | Recording a new index keeps the counters exact. |
| Store.AgentStateStore.MarkSettled | packages/agent/src/state-store.ts:128-141 | Exact counters stay exact if and only if the position had no settlement yet. |
| Store.AgentStateStore.MarkOddsProven | packages/agent/src/state-store.ts:145-158 | Only the proof flag of an existing settlement changes; anything else is an error. |
| Store.AgentStateStore.RecordError | packages/agent/src/state-store.ts:160-169 | The log keeps the newest fifty errors and counts all. |
| Store.ErrorsKeepTheNewest | packages/agent/src/state-store.ts:160-169 | What is kept is the newest of all errors, up to fifty, the latest last. |
| Store.EntriesAreTheSettled | packages/dashboard/src/series.ts:52-66 | The series is drawn from the settled positions, each once, keyed by settle time and then commit index. |
| Store.WalkSeries | packages/dashboard/src/series.ts:67-91 | The points are the running sums, with the least and greatest level including the start. |
| Store.BuildEquitySeries | packages/dashboard/src/series.ts:52-91 | Filtered and sorted, the points follow settle-time order, and the last is start plus total PnL whatever that order was. |
| Store.SnapshotSeries | packages/agent/src/state-store.ts:180-199 | The series ends at the bankroll the snapshot reports. |
| Bytes.StrRoundTripIff | packages/onchain-client/src/borsh-writer.ts:55-60 | A string decodes back, followed by anything, if and only if its length is below 2^32. |
| Borsh.RevealRoundTrip | packages/onchain-client/src/borsh.ts:39-87 | Decoding an in-range reveal followed by any bytes gives the reveal and those bytes. |
| Borsh.RevealIs129Bytes | packages/onchain-client/src/borsh.ts:32-87 | Every in-range reveal takes exactly 129 bytes. |
| Borsh.SettleRoundTripIff | packages/onchain-client/src/settle-encode.ts:79-114 | In-range settle arguments decode back, followed by anything, exactly when every vector is shorter than 2^32. |
| Borsh.ProveOddsRoundTripIff | packages/onchain-client/src/prove-odds-encode.ts:78-144 | So do prove-odds arguments, for all strings, options and vectors. |
| Borsh.LongStringWraps | packages/onchain-client/src/borsh-writer.ts:50-60 | A string of 2^32 bytes is written with length 0 and decodes as empty. |
| Borsh.RevealIsPrefixFree | packages/onchain-client/src/borsh.ts:39-87 | Two in-range reveals with equal encodings up to a tail are equal, and so are the tails. |
| Borsh.SettleIsPrefixFree | packages/onchain-client/src/settle-encode.ts:79-114 | The same for settle arguments. |
| Borsh.ProveOddsIsPrefixFree | packages/onchain-client/src/prove-odds-encode.ts:106-144 | The same for prove-odds arguments. |
| LayoutLaws.LittleEndianDigits | packages/onchain-client/src/borsh-writer.ts:10-48 | Byte k of a written number is its k-th digit to the base 256, lowest first, in two's complement. |
| LayoutLaws.RevealLayout | packages/onchain-client/src/borsh.ts:32-87 | Where each field of the hashed reveal stands. |
| LayoutLaws.StrategyLayout | programs/agent_ledger/src/state.rs:40-66 | Where each field of the strategy account stands. |
| LayoutLaws.DecisionLayout | programs/agent_ledger/src/state.rs:66-85 | Where each field of a decision account stands. |
| LayoutLaws.RevealIsEncodableIff | packages/onchain-client/src/borsh.ts:39-87 | A reveal is encoded exactly when every field fits its width, every key and hash has 32 bytes, and the side is 0, 1 or 2. |
| LayoutLaws.SettleIsEncodableIff | packages/onchain-client/src/settle-encode.ts:79-114 | The same for settle arguments. |
| LayoutLaws.ProveOddsIsEncodableIff | packages/onchain-client/src/prove-odds-encode.ts:106-144 | The same for prove-odds arguments. |
| BorshCodec.EncodeRevealArgs | packages/onchain-client/src/borsh.ts:39-87 | Filling the fixed buffer at a moving offset yields the serialization, or the first range error. |
| BorshCodec.BorshWriter.Str | packages/onchain-client/src/borsh-writer.ts:55-60 | Appending a string appends its serialization. |
| BorshCodec.BorshWriter.OptStr | packages/onchain-client/src/borsh-writer.ts:62-69 | Appending an optional string appends its tagged serialization. |
| BorshCodec.BorshWriter.Finish | packages/onchain-client/src/borsh-writer.ts:71-81 | Copying the parts at a running offset gives their concatenation. |
| BorshCodec.WriteProofVec | packages/onchain-client/src/settle-encode.ts:61-67 | The loop appends the vector's serialization. |
| BorshCodec.WriteStatTerm | packages/onchain-client/src/settle-encode.ts:69-77 | A stat term is appended as its serialization. |
| BorshCodec.EncodeSettleArgs | packages/onchain-client/src/settle-encode.ts:79-114 | The encoder returns the serialization, or the first range error in the source's order. |
| BorshCodec.WriteOddsSnapshot | packages/onchain-client/src/prove-odds-encode.ts:78-104 | The odds snapshot is appended as its serialization. |
| BorshCodec.EncodeProveOddsArgs | packages/onchain-client/src/prove-odds-encode.ts:106-144 | The encoder returns the serialization, or the first range error in the source's order. |
| BorshCodec.RevealThenTail | packages/onchain-client/src/borsh.ts:39-87 | A serialization followed by more bytes is the serialization with that tail. |
| AccountDecode.BytesEqual | packages/onchain-client/src/account-decode.ts:15-25 | The loop decides equality. |
| AccountDecode.DecodeStrategyAccount | packages/onchain-client/src/account-decode.ts:141-165 | The decoder is the decoding function, fails exactly on short data or a wrong discriminator, and a decoded account re-serializes to the body that was read. |
| AccountDecode.DecodeDecisionAccount | packages/onchain-client/src/account-decode.ts:167-191 | The same for decisions; the flag is true only for byte 1. |
| AccountDecode.StrategyRoundTrip | packages/onchain-client/src/account-decode.ts:141-165 | The decoding function inverts the field-by-field writer for all values, negative i64 included, with any trailing bytes. |
| AccountDecode.DecisionRoundTrip | packages/onchain-client/src/account-decode.ts:167-191 | So does the decision decoding function. |
| AccountDecode.StrategyIsPrefixFree | packages/onchain-client/src/account-decode.ts:76-165 | Equal strategy serializations up to a tail mean equal accounts and tails. |
| AccountDecode.DecisionIsPrefixFree | packages/onchain-client/src/account-decode.ts:76-191 | Equal decision serializations up to a tail mean equal accounts and tails. |
| SseParse.ParseFrame | packages/txline/src/feed/sse-parse.ts:9-47 | The loop computes a raw frame's meaning: last id, last event, all data lines joined, or nothing. |
| SseParse.SseFrameParser.Push | packages/txline/src/feed/sse-parse.ts:57-71 | Push returns the frames of exactly the raw frames the new text completes; the buffer holds no blank line, and raw frames plus buffer rebuild the text. |
| SseParse.Receive | packages/txline/src/feed/sse-parse.ts:54-72 | Pushing a chunk list yields the frames and buffer of its chunk-wise normalised text. |
| SseParse.FindBlankIsFirst | packages/txline/src/feed/sse-parse.ts:60 | The separator found is the first blank line, and absent only if there is none. |
| SseParse.SplitIsExact | packages/txline/src/feed/sse-parse.ts:57-71 | Splitting loses nothing and leaves no blank line in any raw frame or in the rest. |
| SseParse.SplitExtends | packages/txline/src/feed/sse-parse.ts:57-71 | Later text never changes what was split off, so splitting incrementally equals splitting at once. |
| SseParse.ChunkInvariance | packages/txline/src/feed/sse-parse.ts:57-71 | Pushing chunks one by one splits off the same raw frames and keeps the same buffer as one push of their concatenation if and only if no boundary cuts a CRLF pair. |
| SseParse.CutChangesFrame | packages/txline/src/feed/sse-parse.ts:58 | For every single-line value, cutting its CRLF leaves the carriage return in the frame's data. |
| SseParse.ParsePrint | packages/txline/src/feed/sse-parse.ts:9-47 | Parsing a printed frame returns it. |
| SseParse.ProducedIffPrintable | packages/txline/src/feed/sse-parse.ts:9-47 | The frames the parser can produce are exactly those with a field and a single-line id and event. |
| FrameLaws.KnownIff | packages/txline/src/feed/sse-parse.ts:14-31 | A line carries a value for id, event or data exactly if it is the bare name (an empty value), or the name, a colon, and the value after at most one space. |
| FrameLaws.FrameIsMeant | packages/txline/src/feed/sse-parse.ts:9-47 | A raw frame means the last id, the last event, and every data line in order joined by line breaks; it is dropped exactly when no line carries any of them. |
| SseParse.StreamSurvivesAnyChunking | packages/txline/src/feed/sse-parse.ts:54-72 | A printed stream without carriage returns comes back frame for frame under every chunking. |
| SseParse.CrLfStreamSurvives | packages/txline/src/feed/sse-parse.ts:54-72 | With CRLF line ends it does under every chunking that cuts no pair. |
| SseCuts.OutputByLines | packages/txline/src/feed/sse-parse.ts:54-72 | Line by line: the parsed frames are those that blank lines end, and the buffer is the lines since the last completed raw frame. |
| SseCuts.UncutChunksAgree | packages/txline/src/feed/sse-parse.ts:54-72 | If no boundary cuts a pair, chunking changes neither the parsed frames nor the buffer. |
| SseCuts.CutsStay | packages/txline/src/feed/sse-parse.ts:58 | What is read is what was sent with a carriage return left at the end of exactly the cut lines. |
| SseCuts.SameOutputIff | packages/txline/src/feed/sse-parse.ts:54-72 | For every chunk list the parsed frames and the buffer equal those of one push if and only if no cut falls in the text that ends the stream or changes whether the blank line before it completes a frame, and every earlier cut is on an ignored line, on an id or event line that a later one overwrites, or on a blank line with a frame on at most one side. |
| SseCuts.CutCommentIsHarmless | packages/txline/src/feed/sse-parse.ts:54-72 | For every comment line, cutting its pair changes neither frames nor buffer. |
| SseMerge.EveryScheduleKeepsInv | packages/txline/src/io/sse-connector.ts:99-172 | Under every interleaving the yielded frames plus the queue, per channel, are that channel's frames in order, and no wake-up is lost. |
| SseMerge.NeverStuck | packages/txline/src/io/sse-connector.ts:149-162 | Until the consumer is done some move is possible, and it never waits once both pumps have ended. |
| SseMerge.OneFailureEndsNothing | packages/txline/src/io/sse-connector.ts:156-165 | While one stream is open the merged iterable neither ends nor throws. |
| SseMerge.FailureComesLast | packages/txline/src/io/sse-connector.ts:149-165 | When it ends or throws, every completed frame has been yielded; it throws exactly if some stream failed. |
| SseMerge.TurnsDrain | packages/txline/src/io/sse-connector.ts:149-162 | After both pumps end, one turn per queued frame and one more finish the consumer. |
| SseMerge.FailureIsFirst | packages/txline/src/io/sse-connector.ts:134-141 | The error kept is the first one. |
| SseMerge.WhatIsSentIsYielded | packages/txline/src/io/sse-connector.ts:99-172 | Printed frames a server sends arrive exactly, in order, however they are chunked and interleaved. |
| SseMerge.Connection.PumpChunk | packages/txline/src/io/sse-connector.ts:125-133 | A pump's handling of a chunk is the model's move. |
| SseMerge.Connection.PumpEnd | packages/txline/src/io/sse-connector.ts:134-141 | So is a stream's end or failure. |
| SseMerge.Connection.ConsumerTurn | packages/txline/src/io/sse-connector.ts:149-162 | So is a consumer turn. |
| SseMerge.Connect | packages/txline/src/io/sse-connector.ts:99-172 | Playing any schedule on the connector's own fields gives the model's yields and outcome. |
| Feed.IdempotencyTracker.AcceptOdds | packages/txline/src/feed/idempotency.ts:11-17 | Accepts exactly the first sight of a message id. |
| Feed.IdempotencyTracker.AcceptScore | packages/txline/src/feed/idempotency.ts:20-27 | Accepts exactly the first sight of a (fixture, seq). |
| Feed.EntryIffYielded | packages/txline/src/feed/replay.ts:66-98 | With consistent keys a payload is emitted exactly when some record yields it. |
| Feed.SameKeysSameEntries | packages/txline/src/feed/replay.ts:66-98 | Two deliveries of the same keys emit the same payloads, each once. |
| Feed.ReplayFeed.Events | packages/txline/src/feed/replay.ts:57-132 | Replay emits the deduplicated window in (time, channel, fetch order), numbered from 0, received at max(start, tsMs), counting failed fetches. |
| Feed.ReplayEmitsEntries | packages/txline/src/feed/replay.ts:100-128 | Sorting neither drops nor repeats a payload. |
| Feed.ReplayIsTheOrderedStream | packages/txline/src/feed/replay.ts:100-105 | Another stream of the same payloads equals the replay if and only if it is already in replay order. |
| FeedLaws.SameKeyIffSameMessage | packages/txline/src/feed/idempotency.ts:11-27 | Two records share a key exactly when they are odds of one message id, or scores of one fixture and seq. |
| FeedLaws.EntriesAreFirsts | packages/txline/src/feed/replay.ts:66-98 | What is emitted is exactly the records that map and come first of their message, in order of receipt, whether or not repeats agree. |
| FeedLaws.ReplayPlaysInOrder | packages/txline/src/feed/replay.ts:100-128 | A replay plays every fetched entry once, by timestamp, then odds before scores, then fetch order. |
| FeedLaws.GapsAreFailedFetches | packages/txline/src/feed/replay.ts:78-98 | The gaps reported are the failed odds fetches and the failed scores fetches. |
| LiveFeed.LogIsDeduplication | packages/txline/src/feed/live.ts:103-313 | A live run's payloads are its delivered records, streamed or backfilled, deduplicated in order of first receipt. |
| LiveFeed.LiveMatchesReplay | packages/txline/src/feed/live.ts:103-313 | For all schedules delivering the same keys consistently, live emits exactly replay's payloads, each once; the sequences are equal exactly when the live one is in replay order. |
| LiveFeed.OfferAccounts | packages/txline/src/feed/live.ts:268-279 | A gap is counted without an event exactly when a new backfilled record does not map. |
| LiveFeed.EveryRunAccounts | packages/txline/src/feed/live.ts:171-191 | Live events are numbered 0, 1, 2, ... and every gap event is counted. |
| LiveFeed.EveryRunResumesPerChannel | packages/txline/src/feed/live.ts:193-202 | Each channel resumes from its own last event id, and reconnects never exceed their limit. |
| LiveFeed.BackoffCountsFruitless | packages/txline/src/feed/live.ts:138-153 | There is one sleep per connection, computed from the number of fruitless connections in a row before it. |
| LiveFeed.LiveSseFeed.IngestFrame | packages/txline/src/feed/live.ts:193-254 | Ingesting a frame in place is the model's step, resume ids and last timestamp included. |
| LiveFeed.LiveSseFeed.FillGap | packages/txline/src/feed/live.ts:256-313 | So is a backfill. |
| LiveFeed.Events | packages/txline/src/feed/live.ts:103-161 | A whole run on the feed's own fields emits the model's log and reports its gaps and reconnects. |
| LiveScript.EveryRunPlaysItsScript | packages/txline/src/feed/live.ts:103-313 | A run is told from its sessions alone: which events it emits, in order, what it counts as gaps, that it connects once more than it may reconnect, and that each backfill is asked for the greatest timestamp of the first-seen mapped records streamed by then, backfilled ones left out. |
| LiveScript.LiveRecordsAreBrought | packages/txline/src/feed/live.ts:103-313 | The records a run receives are those of that script. |
| Shin.ShinProbIsRoot | packages/core/src/quant/devig.ts:56-62 | The closed form is the positive root of (1 - z)p^2 + zp = r^2 / booksum. |
| Shin.RootDecreasesInZ | packages/core/src/quant/devig.ts:56-62 | A larger insider fraction strictly lowers each probability. |
| Shin.RootIncreasesInShare | packages/core/src/quant/devig.ts:56-62 | A larger implied probability strictly raises it. |
| Shin.FavouriteLongshot | packages/core/src/quant/devig.ts:70-74 | For z above 0 the ratio of Shin's to the implied probability grows with the implied one. |
| Shin.ShinSumDecreases | packages/core/src/quant/devig.ts:64-68 | The sum of roots strictly decreases in z. |
| Shin.ShinSumAtZero | packages/core/src/quant/devig.ts:95-98 | With booksum above 1 the sum at z = 0 exceeds 1. |
| Shin.ShinSumAtUpper | packages/core/src/quant/devig.ts:95-98 | At the upper search bound it is below 1. |
| Shin.MultiplicativeIsFair | packages/core/src/quant/devig.ts:39-53 | Proportional de-vig succeeds exactly for two or more lines, with probabilities in (0,1) summing to 1 in the odds' order. |
| Shin.Bisect | packages/core/src/quant/devig.ts:97-116 | Every iteration keeps sum(low) > 1 > sum(high) and halves the bracket; an answer is within the tolerance, and on fewer than 2^32 lines there always is one. |
| Shin.DevigShin | packages/core/src/quant/devig.ts:75-131 | Every ok result is fair (in (0,1), sums to 1, keeps order, favours favourites) at an insider fraction within the tolerance; below 2^32 lines the only error is too few lines, and otherwise an unfinished bracket. |
| Shin.InsiderFractionIsUnique | packages/core/src/quant/devig.ts:95-98 | At most one insider fraction makes the sum 1, and it lies inside every bracket. |
| Shin.ShinSumMovesLittle | packages/core/src/quant/devig.ts:64-116 | The sum moves at most 10^9 times as far as the insider fraction, per line. |
| Scoreline.PoissonPmf | packages/core/src/quant/poisson.ts:34-43 | The array holds the recurrence's masses. |
| Scoreline.TotalIsPositive | packages/core/src/quant/poisson.ts:51-98 | For positive rates, every rho and maxGoals of at least 1 some mass survives the clamp. |
| Scoreline.ScorelineIsDistribution | packages/core/src/quant/poisson.ts:79-107 | Entries are non-negative and sum to 1. |
| Scoreline.SwapTransposes | packages/core/src/quant/poisson.ts:51-107 | Swapping the rates transposes the matrix. |
| Scoreline.ScorelineMatrix | packages/core/src/quant/poisson.ts:79-107 | The nested loops and the rescaling compute the model's matrix. |
| PoissonLaws.PoissonMassClosedForm | packages/core/src/quant/poisson.ts:34-43 | The recurrence computes e^-rate rate^k / k!. |
| PoissonLaws.CellRatios | packages/core/src/quant/poisson.ts:51-107 | Any two cells of the matrix stand in the ratio of rate^goals / goals! on each side, times their Dixon-Coles corrections held at zero from below. |
| PoissonLaws.CorrectionsCancel | packages/core/src/quant/poisson.ts:51-71 | Weighted by their Poisson masses the four corrections cancel for each number of home goals and of away goals; no other scoreline is corrected. |
| PoissonLaws.HomeGoalsArePoisson | packages/core/src/quant/poisson.ts:79-107 | Unless a cell is clamped, the matrix gives each number of home goals its Poisson probability among the goals counted. |
| PoissonLaws.AwayGoalsArePoisson | packages/core/src/quant/poisson.ts:79-107 | And each number of away goals. |
| Scoreline.MatchResultProbs | packages/core/src/quant/surface.ts:49-70 | The loops sum the home, draw and away regions. |
| Scoreline.OverProb | packages/core/src/quant/surface.ts:74-88 | The loops sum the scorelines above the line. |
| Scoreline.HandicapCover | packages/core/src/quant/surface.ts:98-122 | The loops sum the covering and the pushing scorelines. |
| Scoreline.MatchResultsAddUp | packages/core/src/quant/surface.ts:49-70 | Home, draw and away sum to 1. |
| Scoreline.HandicapsAddUp | packages/core/src/quant/surface.ts:149-170 | ah-home(h) plus ah-away(-h) is 1 for every h. |
| Scoreline.OverIsMonotone | packages/core/src/quant/surface.ts:74-88 | The over probability never rises with the line. |
| Scoreline.HandicapIsMonotone | packages/core/src/quant/surface.ts:149-170 | A more generous handicap is never worth less. |
| Scoreline.LegsArePriced | packages/core/src/quant/surface.ts:149-170 | Every leg's model value is between 0 and 1. |
| Scoreline.SwapMirrorsLegs | packages/core/src/quant/surface.ts:149-170 | Swapping the rates swaps home and away on every leg and keeps draws and totals. |
| GoalsFit.SearchIsBestVisited | packages/core/src/quant/surface.ts:300-343 | For any cost function the search ends inside the bounds at a true cost no higher than at any coarse or refine point visited. |
| GoalsFit.RefiningNeverWorsens | packages/core/src/quant/surface.ts:318-343 | No refine round raises the best cost. |
| GoalsFit.Minimise | packages/core/src/quant/surface.ts:300-343 | The nested loops perform the model's search. |
| GoalsFit.FitGoalsModel | packages/core/src/quant/surface.ts:249-371 | A fit fails exactly on an invalid configuration or too few legs; otherwise its matrix is a distribution and its match results sum to 1. |
| GoalsFit.FitIsBestVisited | packages/core/src/quant/surface.ts:283-343 | The fit's cost is the weighted residual cost of its own point and minimal among visited points. |
| GoalsLaws.LegIsExpectedPayoff | packages/core/src/quant/surface.ts:149-170 | Every leg is priced at the expectation of what it pays at the final score, half a stake on a push. |
| GoalsLaws.RatesStandForThePoint | packages/core/src/quant/surface.ts:42-47 | The scoring rates add up to the total and differ by the supremacy, each held at 0.01 from below. |
| GoalsLaws.LegCostsAdd | packages/core/src/quant/surface.ts:283-298 | Each leg adds its weight times the square of its gap, wherever it stands. |
| GoalsLaws.FitCostsNothingIff | packages/core/src/quant/surface.ts:283-298 | With a non-negative prior weight a fit never costs less than nothing, and costs nothing exactly when every weighted leg is met and a weighted prior sits at its anchor. |
| GoalsLaws.NegativePriorIsAccepted | packages/core/src/quant/surface.ts:249-281 | A prior of negative weight passes validation and pulls the cost below zero. |
| GoalsLaws.CoarsePointsAreEven | packages/core/src/quant/surface.ts:307-316 | The coarse points are evenly spaced from corner to corner of the bounds. |
| GoalsLaws.RefinePointsAreEven | packages/core/src/quant/surface.ts:318-343 | The points of a refine round are spread evenly over its window around the best point, held in bounds. |
| GoalsLaws.WindowsShrink | packages/core/src/quant/surface.ts:318-343 | The window starts as one coarse step and shrinks by the configured factor each round. |
| GoalsLaws.TiesKeepTheEarlierPoint | packages/core/src/quant/surface.ts:300-343 | A refine round moves the best point only to a strictly cheaper one. |
| Retry.RequestIsBounded | packages/txline/src/http/client.ts:204-255 | For every network an authenticated request takes at most 2M + 1 sends, 2(M - 1) sleeps and M + 1 data sends. |
| Retry.BoundIsTight | packages/txline/src/http/client.ts:204-255 | For every M of at least 1 some network forces exactly that many sends and sleeps. |
| Retry.AuthedReportsLast | packages/txline/src/http/client.ts:204-255 | The result is always about the last reply, and a success was obtained under the token then held. |
| RetryLaws.RequestTakesItsCourse | packages/txline/src/http/client.ts:204-255 | The exact course of a request on every network: up to three runs of sends, under which token, after which replies and sleeps, and with what result; it is given up only on a reply that is neither dropped, 429 nor 5xx, or with the attempts used up. |
| Retry.TxlineClient.StartGuestSession | packages/txline/src/http/client.ts:104-121 | Starting a session in place is the model's, and keeps the old token on failure. |
| Retry.TxlineClient.SendWithRetry | packages/txline/src/http/client.ts:204-255 | The retry loop, nested session included, terminates with the model's sends, sleeps, token and result. |

## Left out

- Pipeline.Pipeline.UpdateRatingsForFinal: does not model the Elo update itself, only which score is folded in and when; the decorrelation overlay's stake multiplier arrives with the odds event as any real.
- Calls that throw instead of returning an error (address derivation, the proof service) are not modelled; every failure is a returned one.
- Steam, divergence and cross-market detection and the pipeline's de-vig call are arbitrary functions; their signal quality is not modelled.
- Solana RPC, signing, PDA derivation, base58, keccak and sha256: abstract functions. A decision account is addressed by the index in its seeds, which assumes derived addresses are injective.
- txoracle's Merkle verification and label normalisation: abstract predicates; nothing is proved about their soundness.
- IEEE rounding: floats are reals, `sqrt` is any square root, `exp` any positive function; Shin's bisection is shown to converge over the reals. A goals-model fit with an infinite cost cannot arise over the reals, so that error is absent.
- Zod schemas, JSON, regular expressions and UTF-8: parsed payloads are inputs, the decoders are arbitrary functions, and strings in the codec are byte sequences.
- Real concurrency inside the pipeline: it is sequential in the source. Market states and fixture surfaces are values in maps, so aliasing between them is not captured.
- `maxConcurrent` and `steamHistoryLimit` are natural numbers; the source does not range-check them, and a negative history limit would not terminate there.
- Field names in range errors drop array indexes, and the per-element checks of proofs and prices are recursive functions rather than loops.
- Numbers that JavaScript holds as doubles (timestamps, seqs, counts) are unbounded integers, and array lengths below 2^32 are assumed only where a theorem says so.
- Ledger account fields are integers whose widths the program's checked operations enforce; slots and timestamps come in as they are.
- The store's transaction ids, explorer links, event counter, listeners and clock.
- `initialize_strategy` runs once, in the ledger's constructor; a strategy that does not exist yet is not modelled.
- Closing-line value, calibration bins and bootstrap intervals in the backtest metrics, and the dashboard's CLV series.
- The feeds' `stop` method, abort signals, and a consumer that abandons the merged stream early.
- Live feed: the clock is read once per emitted event, backoff delays are recorded as the attempt they are computed from, and fixture events do not occur.
- The scoreline matrix is built and rescaled as a value, row by row; only the Poisson masses fill an array.
- The client's URLs, timeouts, secret redaction and error texts; a reply is a drop or a status with a body.
- HTML and Markdown rendering, the API server, environment configuration and devnet tools.
