/** The risk manager: circuit breakers, exposure caps, and the reducers that keep the exposure book. */
module Risk {
  import opened Prelude
  import opened Domain

  datatype BreakerReason =
    | StaleFeed | RootMismatch | OutlierOdds | BankrollFloor | DailyDrawdown | ExposureCap | MaxConcurrent

  datatype RiskConfig = RiskConfig(
    bankrollFloor: MicroUsd,
    maxStakePerOrder: MicroUsd,
    maxConcurrent: nat,
    totalExposureCap: MicroUsd,
    perFixtureExposureCap: MicroUsd,
    perMarketExposureCap: MicroUsd,
    staleFeedMs: int,
    outlierOddsZ: real,
    maxDailyDrawdown: MicroUsd)

  datatype RiskState = RiskState(
    bankroll: MicroUsd,
    dayStartBankroll: MicroUsd,
    openCount: nat,
    totalExposure: MicroUsd,
    exposureByFixture: map<FixtureId, MicroUsd>,
    exposureByMarket: map<MarketKey, MicroUsd>,
    latched: seq<BreakerReason>)

  datatype RiskContext = RiskContext(consensusFairProb: Prob, dispersion: real)

  datatype Order = Order(
    proposedStake: MicroUsd,
    offeredOdds: OddsMilli,
    fixtureId: FixtureId,
    marketKey: MarketKey,
    nowMs: int,
    feedTsMs: int,
    context: RiskContext)

  datatype RiskVerdict = Allowed(stake: MicroUsd) | Blocked(reason: BreakerReason)

  function Saturating(value: int): MicroUsd { if value < 0 then 0 else value }

  function Abs(value: int): nat { if value < 0 then -value else value }

  function AbsReal(value: real): real { if value < 0.0 then -value else value }

  function ImpliedProb(odds: OddsMilli): real { ODDS_MILLI_SCALE as real / odds as real }

  function AddToMap<K>(m: map<K, MicroUsd>, key: K, delta: int): map<K, MicroUsd> {
    m[key := Saturating(GetOr(m, key, 0) + delta)]
  }

  function CreateRiskState(startingBankroll: MicroUsd): RiskState {
    RiskState(startingBankroll, startingBankroll, 0, 0, map[], map[], [])
  }

  /** The first breaker an order trips before any sizing is attempted. */
  function FirstBreaker(state: RiskState, order: Order, config: RiskConfig): Option<BreakerReason> {
    if |state.latched| > 0 then Some(state.latched[0])
    else if state.bankroll <= config.bankrollFloor then Some(BankrollFloor)
    else if state.dayStartBankroll - state.bankroll > config.maxDailyDrawdown then Some(DailyDrawdown)
    else if Abs(order.nowMs - order.feedTsMs) > config.staleFeedMs then Some(StaleFeed)
    else if order.context.dispersion > 0.0
            && AbsReal(ImpliedProb(order.offeredOdds) - order.context.consensusFairProb)
               > config.outlierOddsZ * order.context.dispersion then Some(OutlierOdds)
    else if state.openCount >= config.maxConcurrent then Some(MaxConcurrent)
    else None
  }

  function Evaluate(state: RiskState, order: Order, config: RiskConfig): RiskVerdict {
    match FirstBreaker(state, order, config)
    case Some(reason) => Blocked(reason)
    case None =>
      var capped := if order.proposedStake > config.maxStakePerOrder then config.maxStakePerOrder else order.proposedStake;
      var roomTotal := config.totalExposureCap - state.totalExposure;
      var roomFixture := config.perFixtureExposureCap - GetOr(state.exposureByFixture, order.fixtureId, 0);
      var roomMarket := config.perMarketExposureCap - GetOr(state.exposureByMarket, order.marketKey, 0);
      var room := Min(roomTotal, Min(roomFixture, roomMarket));
      if room <= 0 then Blocked(ExposureCap)
      else
        var stake := if capped > room then room else capped;
        if stake <= 0 then Blocked(ExposureCap) else Allowed(Saturating(stake))
  }

  function OnCommit(state: RiskState, decision: Decision): RiskState {
    state.(openCount := state.openCount + 1,
           totalExposure := Saturating(state.totalExposure + decision.stake),
           exposureByFixture := AddToMap(state.exposureByFixture, decision.fixtureId, decision.stake),
           exposureByMarket := AddToMap(state.exposureByMarket, decision.marketKey, decision.stake))
  }

  function OnSettlement(state: RiskState, decision: Decision, pnl: int): RiskState {
    state.(bankroll := Saturating(state.bankroll + pnl),
           openCount := Saturating(state.openCount - 1),
           totalExposure := Saturating(state.totalExposure - decision.stake),
           exposureByFixture := AddToMap(state.exposureByFixture, decision.fixtureId, 0 - decision.stake),
           exposureByMarket := AddToMap(state.exposureByMarket, decision.marketKey, 0 - decision.stake))
  }

  function OnAnomaly(state: RiskState, reason: BreakerReason): RiskState {
    if reason in state.latched then state else state.(latched := state.latched + [reason])
  }

  function Reset(state: RiskState): RiskState {
    state.(latched := [], dayStartBankroll := state.bankroll)
  }

  // ---------------------------------------------------------------------------------------------
  // What a verdict means: the largest stake every cap admits.

  /** A stake that fits under the order's own ceiling and under every exposure cap. */
  predicate Admissible(state: RiskState, order: Order, config: RiskConfig, stake: int) {
    && 0 < stake <= order.proposedStake
    && stake <= config.maxStakePerOrder
    && state.totalExposure + stake <= config.totalExposureCap
    && GetOr(state.exposureByFixture, order.fixtureId, 0) + stake <= config.perFixtureExposureCap
    && GetOr(state.exposureByMarket, order.marketKey, 0) + stake <= config.perMarketExposureCap
  }

  /** An order is approved exactly when no breaker fires and some stake is admissible, and then the
      approved stake is the largest admissible one. */
  lemma VerdictIsLargestAdmissibleStake(state: RiskState, order: Order, config: RiskConfig)
    ensures Evaluate(state, order, config).Allowed? <==>
            FirstBreaker(state, order, config).None? && exists s :: Admissible(state, order, config, s)
    ensures Evaluate(state, order, config).Allowed? ==>
              var stake := Evaluate(state, order, config).stake;
              && Admissible(state, order, config, stake)
              && forall s :: Admissible(state, order, config, s) ==> s <= stake
  {
    var verdict := Evaluate(state, order, config);
    if verdict.Allowed? {
      assert Admissible(state, order, config, verdict.stake);
    }
  }

  /** What a refusal for a reason alleges, apart from latched anomalies. */
  ghost predicate Breaches(reason: BreakerReason, state: RiskState, order: Order, config: RiskConfig) {
    match reason
    case BankrollFloor => state.bankroll <= config.bankrollFloor
    case DailyDrawdown => state.bankroll + config.maxDailyDrawdown < state.dayStartBankroll
    case StaleFeed =>
      order.feedTsMs < order.nowMs - config.staleFeedMs || order.nowMs + config.staleFeedMs < order.feedTsMs
    case OutlierOdds =>
      var p, q := ImpliedProb(order.offeredOdds), order.context.consensusFairProb;
      var margin := config.outlierOddsZ * order.context.dispersion;
      0.0 < order.context.dispersion && (p > q + margin || p < q - margin || margin < 0.0)
    case MaxConcurrent => config.maxConcurrent <= state.openCount
    case ExposureCap => forall s :: !Admissible(state, order, config, s)
    case RootMismatch => false
  }

  /** The order in which breaches are reported. */
  function Severity(reason: BreakerReason): nat {
    match reason
    case RootMismatch => 0
    case BankrollFloor => 1
    case DailyDrawdown => 2
    case StaleFeed => 3
    case OutlierOdds => 4
    case MaxConcurrent => 5
    case ExposureCap => 6
  }

  /** A refusal names the oldest latched anomaly, or else the first breach in order of severity; an order is
      approved exactly when there is neither. */
  lemma VerdictNamesFirstBreach(state: RiskState, order: Order, config: RiskConfig)
    ensures state.latched != [] ==> Evaluate(state, order, config) == Blocked(state.latched[0])
    ensures state.latched == [] ==>
              match Evaluate(state, order, config)
              case Allowed(_) => forall r :: !Breaches(r, state, order, config)
              case Blocked(reason) =>
                && Breaches(reason, state, order, config)
                && forall r :: Severity(r) < Severity(reason) ==> !Breaches(r, state, order, config)
  {
    VerdictIsLargestAdmissibleStake(state, order, config);
    if Evaluate(state, order, config) == Blocked(ExposureCap) && state.latched == [] {
      assert FirstBreaker(state, order, config).None?;
    }
  }

  // ---------------------------------------------------------------------------------------------
  // The exposure book: every counter the risk state keeps is a gauge over the unsettled positions.

  /** A quantity the risk state tracks incrementally. */
  datatype Gauge = Count | Total | OnFixture(fixtureId: FixtureId) | OnMarket(marketKey: MarketKey)

  function Reading(state: RiskState, g: Gauge): nat {
    match g
    case Count => state.openCount
    case Total => state.totalExposure
    case OnFixture(f) => GetOr(state.exposureByFixture, f, 0)
    case OnMarket(m) => GetOr(state.exposureByMarket, m, 0)
  }

  /** What one unsettled decision contributes to a gauge. */
  function Weight(g: Gauge, d: Decision): nat {
    match g
    case Count => 1
    case Total => d.stake
    case OnFixture(f) => if d.fixtureId == f then d.stake else 0
    case OnMarket(m) => if d.marketKey == m then d.stake else 0
  }

  function Limit(config: RiskConfig, g: Gauge): nat {
    match g
    case Count => config.maxConcurrent
    case Total => config.totalExposureCap
    case OnFixture(_) => config.perFixtureExposureCap
    case OnMarket(_) => config.perMarketExposureCap
  }

  /** A gauge recomputed from scratch over the committed positions not yet settled. */
  function Outstanding(g: Gauge, open: seq<Position>, settled: set<nat>): nat {
    if |open| == 0 then 0
    else
      var last := |open| - 1;
      Outstanding(g, open[..last], settled) + if last in settled then 0 else Weight(g, open[last].decision)
  }

  lemma CommitMovesGauges(state: RiskState, d: Decision, g: Gauge)
    ensures Reading(OnCommit(state, d), g) == Reading(state, g) + Weight(g, d)
  {
  }

  lemma SettlementMovesGauges(state: RiskState, d: Decision, pnl: int, g: Gauge)
    ensures Reading(OnSettlement(state, d, pnl), g) == Saturating(Reading(state, g) - Weight(g, d))
  {
  }

  /** Settling position k removes exactly its own weight from a gauge. */
  lemma {:induction false} OutstandingAfterSettling(g: Gauge, open: seq<Position>, settled: set<nat>, k: nat)
    requires k !in settled
    ensures k < |open| ==>
              Outstanding(g, open, settled) == Outstanding(g, open, settled + {k}) + Weight(g, open[k].decision)
    ensures |open| <= k ==> Outstanding(g, open, settled) == Outstanding(g, open, settled + {k})
  {
    if |open| > 0 {
      OutstandingAfterSettling(g, open[..|open| - 1], settled, k);
    }
  }

  lemma OutstandingAfterCommit(g: Gauge, open: seq<Position>, settled: set<nat>, p: Position)
    requires |open| !in settled
    ensures Outstanding(g, open + [p], settled) == Outstanding(g, open, settled) + Weight(g, p.decision)
  {
    assert (open + [p])[..|open|] == open;
  }

  // ---------------------------------------------------------------------------------------------
  // The invariant of every run.

  /** The incremental counters agree with the open positions. */
  ghost predicate Reconciles(state: RiskState, open: seq<Position>, settled: set<nat>) {
    && (forall k :: k in settled ==> k < |open|)
    && forall g :: Reading(state, g) == Outstanding(g, open, settled)
  }

  ghost predicate WithinLimits(config: RiskConfig, state: RiskState) {
    forall g :: Reading(state, g) <= Limit(config, g)
  }

  /** The line no sequence of losses can take the bankroll below. */
  function LossFloor(config: RiskConfig, state: RiskState): int {
    state.dayStartBankroll - config.maxDailyDrawdown - config.totalExposureCap
  }

  predicate AboveLossFloor(config: RiskConfig, state: RiskState) {
    LossFloor(config, state) <= state.bankroll - state.totalExposure
  }

  ghost predicate Sound(config: RiskConfig, state: RiskState, open: seq<Position>, settled: set<nat>) {
    && Reconciles(state, open, settled)
    && WithinLimits(config, state)
    && AboveLossFloor(config, state)
  }

  lemma FreshStateIsSound(config: RiskConfig, bankroll: MicroUsd)
    ensures Sound(config, CreateRiskState(bankroll), [], {})
  {
  }

  /** Committing what the risk manager approved keeps the book sound. */
  lemma CommitKeepsSound(
    config: RiskConfig, state: RiskState, open: seq<Position>, settled: set<nat>, order: Order, p: Position)
    requires Sound(config, state, open, settled)
    requires Evaluate(state, order, config) == Allowed(p.decision.stake)
    requires p.decision.fixtureId == order.fixtureId && p.decision.marketKey == order.marketKey
    ensures Sound(config, OnCommit(state, p.decision), open + [p], settled)
  {
    var next := OnCommit(state, p.decision);
    assert |open| !in settled;
    VerdictIsLargestAdmissibleStake(state, order, config);
    forall g
      ensures Reading(next, g) == Outstanding(g, open + [p], settled)
      ensures Reading(next, g) <= Limit(config, g)
    {
      CommitMovesGauges(state, p.decision, g);
      OutstandingAfterCommit(g, open, settled, p);
      assert Reading(state, g) == Outstanding(g, open, settled) && Reading(state, g) <= Limit(config, g);
    }
  }

  /** Settling any unsettled position, whatever it pays above losing its stake, keeps the book sound. */
  lemma SettlementKeepsSound(
    config: RiskConfig, state: RiskState, open: seq<Position>, settled: set<nat>, k: nat, pnl: int)
    requires Sound(config, state, open, settled)
    requires k < |open| && k !in settled
    requires 0 - open[k].decision.stake <= pnl
    ensures Sound(config, OnSettlement(state, open[k].decision, pnl), open, settled + {k})
  {
    var d := open[k].decision;
    var next := OnSettlement(state, d, pnl);
    forall g
      ensures Reading(next, g) == Outstanding(g, open, settled + {k})
      ensures Reading(next, g) <= Limit(config, g)
    {
      SettlementMovesGauges(state, d, pnl, g);
      OutstandingAfterSettling(g, open, settled, k);
      assert Reading(state, g) == Outstanding(g, open, settled) && Reading(state, g) <= Limit(config, g);
    }
    OutstandingAfterSettling(Total, open, settled, k);
    assert Reading(state, Total) == Outstanding(Total, open, settled);
  }

  /** The zero clamps on the exposure counters never fire: subtracting a settled position's weight
      from any gauge is exact. */
  lemma ExposureClampsNeverFire(
    config: RiskConfig, state: RiskState, open: seq<Position>, settled: set<nat>, k: nat, pnl: int, g: Gauge)
    requires Sound(config, state, open, settled)
    requires k < |open| && k !in settled
    ensures Reading(OnSettlement(state, open[k].decision, pnl), g)
            == Reading(state, g) - Weight(g, open[k].decision)
  {
    OutstandingAfterSettling(g, open, settled, k);
    assert Reading(state, g) == Outstanding(g, open, settled);
    SettlementMovesGauges(state, open[k].decision, pnl, g);
  }

  // ---------------------------------------------------------------------------------------------
  // Whole runs of the risk manager, with anomalies and operator resets interleaved anywhere.

  datatype RiskOp =
    | Place(order: Order, proposal: Decision)
    | Settle(index: nat, won: bool)
    | Anomaly(reason: BreakerReason)
    | OperatorReset

  datatype Book = Book(state: RiskState, open: seq<Position>, settled: set<nat>)

  function Apply(config: RiskConfig, b: Book, op: RiskOp): Book {
    match op
    case Place(order, proposal) =>
      (match Evaluate(b.state, order, config)
       case Blocked(_) => b
       case Allowed(stake) =>
         var d := proposal.(stake := stake, fixtureId := order.fixtureId, marketKey := order.marketKey);
         b.(state := OnCommit(b.state, d), open := b.open + [Position(|b.open|, d, order.nowMs)]))
    case Settle(k, won) =>
      if k < |b.open| && k !in b.settled then
        var d := b.open[k].decision;
        b.(state := OnSettlement(b.state, d, ComputePnl(won, d.stake, d.entryOdds)), settled := b.settled + {k})
      else b
    case Anomaly(reason) => b.(state := OnAnomaly(b.state, reason))
    case OperatorReset => b.(state := Reset(b.state))
  }

  function ApplyAll(config: RiskConfig, start: MicroUsd, ops: seq<RiskOp>): Book {
    if |ops| == 0 then Book(CreateRiskState(start), [], {})
    else Apply(config, ApplyAll(config, start, ops[..|ops| - 1]), ops[|ops| - 1])
  }

  lemma ApplyKeepsSound(config: RiskConfig, b: Book, op: RiskOp)
    requires Sound(config, b.state, b.open, b.settled)
    ensures var a := Apply(config, b, op); Sound(config, a.state, a.open, a.settled)
  {
    match op
    case Place(order, proposal) =>
      if Evaluate(b.state, order, config).Allowed? {
        var d := proposal.(stake := Evaluate(b.state, order, config).stake,
                           fixtureId := order.fixtureId, marketKey := order.marketKey);
        CommitKeepsSound(config, b.state, b.open, b.settled, order, Position(|b.open|, d, order.nowMs));
      }
    case Settle(k, won) =>
      if k < |b.open| && k !in b.settled {
        var d := b.open[k].decision;
        PnlIsBoundedBelow(won, d.stake, d.entryOdds);
        SettlementKeepsSound(config, b.state, b.open, b.settled, k, ComputePnl(won, d.stake, d.entryOdds));
      }
    case Anomaly(reason) =>
      var next := OnAnomaly(b.state, reason);
      assert forall g :: Reading(next, g) == Reading(b.state, g);
    case OperatorReset =>
      var next := Reset(b.state);
      assert forall g :: Reading(next, g) == Reading(b.state, g);
      assert Reading(b.state, Total) <= Limit(config, Total);
  }

  /** In every reachable state the counters reconcile, every cap holds, and even if every open
      position then loses the bankroll stays at or above the loss floor. */
  lemma {:induction false} EveryRunIsSound(config: RiskConfig, start: MicroUsd, ops: seq<RiskOp>)
    ensures var b := ApplyAll(config, start, ops); Sound(config, b.state, b.open, b.settled)
  {
    if |ops| == 0 {
      FreshStateIsSound(config, start);
    } else {
      EveryRunIsSound(config, start, ops[..|ops| - 1]);
      ApplyKeepsSound(config, ApplyAll(config, start, ops[..|ops| - 1]), ops[|ops| - 1]);
    }
  }

  function SettleEach(b: Book, config: RiskConfig, outcomes: seq<(nat, bool)>): Book
    decreases |outcomes|
  {
    if |outcomes| == 0 then b
    else SettleEach(Apply(config, b, Settle(outcomes[0].0, outcomes[0].1)), config, outcomes[1..])
  }

  /** Worst-case loss bound: from any reachable state, no sequence of settlements takes the bankroll
      below the day's start less the drawdown limit less the total exposure cap. */
  lemma WorstCaseLoss(config: RiskConfig, start: MicroUsd, ops: seq<RiskOp>, outcomes: seq<(nat, bool)>)
    ensures var b := ApplyAll(config, start, ops);
            LossFloor(config, b.state) <= SettleEach(b, config, outcomes).state.bankroll
  {
    EveryRunIsSound(config, start, ops);
    SettlementsStayAboveFloor(ApplyAll(config, start, ops), config, outcomes);
  }

  lemma {:induction false} SettlementsStayAboveFloor(b: Book, config: RiskConfig, outcomes: seq<(nat, bool)>)
    requires Sound(config, b.state, b.open, b.settled)
    ensures LossFloor(config, b.state) <= SettleEach(b, config, outcomes).state.bankroll
    decreases |outcomes|
  {
    if |outcomes| > 0 {
      var op := Settle(outcomes[0].0, outcomes[0].1);
      ApplyKeepsSound(config, b, op);
      SettlementsStayAboveFloor(Apply(config, b, op), config, outcomes[1..]);
    }
  }

  /** The bound is attained: a single approved order that uses the whole exposure cap and loses lands
      exactly on the floor. */
  lemma WorstCaseLossIsTight(cap: MicroUsd, start: MicroUsd, proposal: Decision, order: Order)
    requires 0 < cap <= start
    requires order.proposedStake == cap && order.nowMs == order.feedTsMs && order.context.dispersion == 0.0
    ensures exists config: RiskConfig, ops: seq<RiskOp> ::
              var b := ApplyAll(config, start, ops);
              config.totalExposureCap == cap && b.state.bankroll == LossFloor(config, b.state)
  {
    var config := RiskConfig(0, cap, 1, cap, cap, cap, 0, 0.0, 0);
    var place, settle := Place(order, proposal), Settle(0, false);
    var ops := [place, settle];
    assert ops[..1] == [place] && [place][..0] == [];
    var b0 := ApplyAll(config, start, []);
    assert Evaluate(b0.state, order, config) == Allowed(cap);
    var b1 := ApplyAll(config, start, [place]);
    assert b1 == Apply(config, b0, place);
    var b2 := ApplyAll(config, start, ops);
    assert b2 == Apply(config, b1, settle);
    assert b2.state.bankroll == LossFloor(config, b2.state);
  }
}
