/** Stake sizing (fractional Kelly, steam) and the decision builder that runs it past the risk manager. */
module Sizing {
  import opened Prelude
  import opened Domain
  import opened Risk

  datatype KellyConfig = KellyConfig(fraction: real, maxFractionOfBankroll: real)

  datatype SteamSizingConfig = SteamSizingConfig(baseFraction: real, strengthScale: real, maxFraction: real)

  datatype QuantError = InvalidConfig

  function MinReal(a: real, b: real): real { if a <= b then a else b }

  function MaxReal(a: real, b: real): real { if a <= b then b else a }

  /** Profit per unit staked if the bet wins. */
  function NetOdds(offeredOdds: OddsMilli): (net: real)
    ensures 0.0 < net
  {
    offeredOdds as real / ODDS_MILLI_SCALE as real - 1.0
  }

  /** The full Kelly fraction (b * p - q) / b. */
  function FullKelly(fairProb: Prob, offeredOdds: OddsMilli): real {
    (NetOdds(offeredOdds) * fairProb - (1.0 - fairProb)) / NetOdds(offeredOdds)
  }

  /** A share of the bankroll, and the whole micro-USD in it. */
  function ShareOf(fraction: real, bankroll: MicroUsd): real { fraction * bankroll as real }

  function FlooredShare(fraction: real, bankroll: MicroUsd): MicroUsd {
    Saturating(ShareOf(fraction, bankroll).Floor)
  }

  function KellyStake(
    fairProb: Prob, offeredOdds: OddsMilli, bankroll: MicroUsd, config: KellyConfig, sizeMultiplier: real)
    : Result<MicroUsd, QuantError>
  {
    if !(0.0 < config.fraction <= 1.0) then Err(InvalidConfig)
    else if !(0.0 < config.maxFractionOfBankroll <= 1.0) then Err(InvalidConfig)
    else if !(0.0 <= sizeMultiplier) then Err(InvalidConfig)
    else if !(0.0 < fairProb < 1.0) then Ok(0)
    else
      var fullKelly := FullKelly(fairProb, offeredOdds);
      if !(fullKelly > 0.0) then Ok(0)
      else
        var staked := MinReal(config.fraction * fullKelly * sizeMultiplier, config.maxFractionOfBankroll);
        Ok(FlooredShare(staked, bankroll))
  }

  /** The base fraction, raised by a signal's strength. */
  function Raised(strength: real, config: SteamSizingConfig): real {
    config.baseFraction + config.strengthScale * strength
  }

  function SteamStake(strength: real, bankroll: MicroUsd, config: SteamSizingConfig)
    : Result<MicroUsd, QuantError>
  {
    if !(config.baseFraction >= 0.0) then Err(InvalidConfig)
    else if !(0.0 < config.maxFraction <= 1.0) then Err(InvalidConfig)
    else
      var scaled := Raised(MaxReal(0.0, strength), config);
      var fraction := MinReal(config.maxFraction, MaxReal(0.0, scaled));
      Ok(FlooredShare(fraction, bankroll))
  }

  /** Flooring a fraction of the bankroll, when the fraction is at most a cap in (0, 1]. */
  lemma FlooredFractionIsCapped(fraction: real, cap: real, bankroll: MicroUsd)
    requires fraction <= cap && 0.0 < cap <= 1.0
    ensures FlooredShare(fraction, bankroll) as real <= ShareOf(cap, bankroll)
    ensures FlooredShare(fraction, bankroll) <= bankroll
  {
    var b := bankroll as real;
    assert fraction * b <= cap * b <= 1.0 * b;
    assert 0.0 <= cap * b;
    WholeAmountsCompare(FlooredShare(fraction, bankroll), bankroll);
  }

  lemma WholeAmountsCompare(a: MicroUsd, b: MicroUsd)
    ensures a as real <= b as real <==> a <= b
  {
  }

  /** However large the multiplier, a Kelly stake never exceeds its capped share of the bankroll, and a
      positive stake needs odds that pay more than the fair probability says they should. */
  lemma KellyStakeIsCapped(
    fairProb: Prob, offeredOdds: OddsMilli, bankroll: MicroUsd, config: KellyConfig, sizeMultiplier: real)
    requires KellyStake(fairProb, offeredOdds, bankroll, config, sizeMultiplier).Ok?
    ensures var stake := KellyStake(fairProb, offeredOdds, bankroll, config, sizeMultiplier).value;
            && stake as real <= ShareOf(config.maxFractionOfBankroll, bankroll) && stake <= bankroll
            && (0 < stake ==> offeredOdds as real * fairProb > ODDS_MILLI_SCALE as real)
  {
    CapWithinBankroll(config.maxFractionOfBankroll, bankroll);
    var fullKelly := FullKelly(fairProb, offeredOdds);
    FlooredFractionIsCapped(MinReal(config.fraction * fullKelly * sizeMultiplier, config.maxFractionOfBankroll),
                            config.maxFractionOfBankroll, bankroll);
    if fullKelly > 0.0 {
      EdgeMeansValue(fairProb, offeredOdds);
    }
  }

  /** The fraction of the bankroll whose logarithmic growth is stationary at net odds b: p b / (1 + b k) equals
      (1 - p) / (1 - k). */
  lemma KellyIsStationary(fairProb: Prob, offeredOdds: OddsMilli)
    ensures var b, k := offeredOdds as real / 1000.0 - 1.0, FullKelly(fairProb, offeredOdds);
            b * k == b * fairProb - (1.0 - fairProb) && fairProb * b * (1.0 - k) == (1.0 - fairProb) * (1.0 + b * k)
  {
    var p, b, k := fairProb, NetOdds(offeredOdds), FullKelly(fairProb, offeredOdds);
    var bk, pb := b * k, p * b;
    assert bk == b * p - (1.0 - p);
    assert p * b * (1.0 - k) == pb - p * bk by {
      assert p * b * (1.0 - k) == pb - pb * k;
      assert pb * k == p * (b * k);
    }
    assert (1.0 - p) * (1.0 + bk) == 1.0 - p + bk - p * bk;
  }

  /** The whole micro-USD in a share: at most the share, and less than one short of it. */
  predicate WholeOf(stake: MicroUsd, share: real) { stake as real <= share < stake as real + 1.0 }

  lemma FlooredShareIsWhole(fraction: real, bankroll: MicroUsd)
    requires 0.0 <= fraction
    ensures ShareOf(fraction, bankroll) == fraction * bankroll as real
    ensures WholeOf(FlooredShare(fraction, bankroll), ShareOf(fraction, bankroll))
  {
    assert 0.0 <= fraction * bankroll as real;
  }

  /** The fraction of the bankroll asked for: the Kelly fraction, scaled by the configuration and the multiplier. */
  function WantedFraction(fullKelly: real, config: KellyConfig, sizeMultiplier: real): real {
    config.fraction * fullKelly * sizeMultiplier
  }

  lemma KellyWithEdge(
    fairProb: Prob, offeredOdds: OddsMilli, bankroll: MicroUsd, config: KellyConfig, sizeMultiplier: real)
    requires 0.0 < config.fraction <= 1.0 && 0.0 < config.maxFractionOfBankroll <= 1.0 && 0.0 <= sizeMultiplier
    requires 0.0 < fairProb < 1.0 && 0.0 < FullKelly(fairProb, offeredOdds)
    ensures var wanted := WantedFraction(FullKelly(fairProb, offeredOdds), config, sizeMultiplier);
            && 0.0 <= wanted
            && KellyStake(fairProb, offeredOdds, bankroll, config, sizeMultiplier)
               == Ok(FlooredShare(MinReal(wanted, config.maxFractionOfBankroll), bankroll))
  {
    hide FullKelly, FlooredShare;
    assert 0.0 <= config.fraction * FullKelly(fairProb, offeredOdds);
  }

  /** A Kelly stake is exactly the whole micro-USD in the scaled Kelly share of the bankroll, or in the capped
      share if that is less, and nothing without an edge. The configuration is refused outside its range. */
  lemma KellyStakeIsItsShare(
    fairProb: Prob, offeredOdds: OddsMilli, bankroll: MicroUsd, config: KellyConfig, sizeMultiplier: real)
    ensures var stake := KellyStake(fairProb, offeredOdds, bankroll, config, sizeMultiplier);
            var wanted := WantedFraction(FullKelly(fairProb, offeredOdds), config, sizeMultiplier);
            var cap := config.maxFractionOfBankroll;
            if !(0.0 < config.fraction <= 1.0 && 0.0 < cap <= 1.0 && 0.0 <= sizeMultiplier)
            then stake == Err(InvalidConfig)
            else if !(0.0 < fairProb < 1.0 && 0.0 < FullKelly(fairProb, offeredOdds)) then stake == Ok(0)
            else stake.Ok? && WholeOf(stake.value, ShareOf(if wanted <= cap then wanted else cap, bankroll))
  {
    hide FullKelly, FlooredShare, WholeOf, ShareOf, WantedFraction;
    if 0.0 < config.fraction <= 1.0 && 0.0 < config.maxFractionOfBankroll <= 1.0 && 0.0 <= sizeMultiplier
       && 0.0 < fairProb < 1.0 && 0.0 < FullKelly(fairProb, offeredOdds) {
      KellyWithEdge(fairProb, offeredOdds, bankroll, config, sizeMultiplier);
      var wanted := WantedFraction(FullKelly(fairProb, offeredOdds), config, sizeMultiplier);
      FlooredShareIsWhole(MinReal(wanted, config.maxFractionOfBankroll), bankroll);
    }
  }

  /** The fraction a steam signal asks for: the base, raised by a positive strength. */
  function SteamFraction(strength: real, config: SteamSizingConfig): real {
    if 0.0 <= strength then config.baseFraction + config.strengthScale * strength else config.baseFraction
  }

  lemma SteamScaled(strength: real, bankroll: MicroUsd, config: SteamSizingConfig)
    requires 0.0 <= config.baseFraction && 0.0 < config.maxFraction <= 1.0
    ensures SteamStake(strength, bankroll, config)
         == Ok(FlooredShare(MinReal(config.maxFraction, MaxReal(0.0, SteamFraction(strength, config))), bankroll))
  {
    hide FlooredShare, Raised, SteamFraction;
    RaisedByStrength(strength, config);
  }

  lemma RaisedByStrength(strength: real, config: SteamSizingConfig)
    ensures Raised(MaxReal(0.0, strength), config) == SteamFraction(strength, config)
  {
    if strength < 0.0 {
      assert MaxReal(0.0, strength) == 0.0 && config.strengthScale * 0.0 == 0.0;
    }
  }

  /** A steam stake is exactly the whole micro-USD in the base share raised by the signal's strength, held
      between nothing and the cap. */
  lemma SteamStakeIsItsShare(strength: real, bankroll: MicroUsd, config: SteamSizingConfig)
    ensures var stake, wanted := SteamStake(strength, bankroll, config), SteamFraction(strength, config);
            if !(0.0 <= config.baseFraction && 0.0 < config.maxFraction <= 1.0) then stake == Err(InvalidConfig)
            else
              && stake.Ok?
              && WholeOf(stake.value, ShareOf(if wanted <= 0.0 then 0.0 else if wanted <= config.maxFraction then wanted
                                              else config.maxFraction, bankroll))
  {
    hide FlooredShare, WholeOf, ShareOf, SteamFraction;
    if 0.0 <= config.baseFraction && 0.0 < config.maxFraction <= 1.0 {
      SteamScaled(strength, bankroll, config);
      FlooredShareIsWhole(MinReal(config.maxFraction, MaxReal(0.0, SteamFraction(strength, config))), bankroll);
    }
  }

  lemma CapWithinBankroll(cap: real, bankroll: MicroUsd)
    requires 0.0 < cap <= 1.0
    ensures 0.0 <= ShareOf(cap, bankroll) <= bankroll as real
  {
  }

  lemma EdgeMeansValue(fairProb: Prob, offeredOdds: OddsMilli)
    requires FullKelly(fairProb, offeredOdds) > 0.0
    ensures offeredOdds as real * fairProb > ODDS_MILLI_SCALE as real
  {
    PositiveQuotient(NetOdds(offeredOdds) * fairProb - (1.0 - fairProb), NetOdds(offeredOdds));
    assert NetOdds(offeredOdds) * fairProb + fairProb == (NetOdds(offeredOdds) + 1.0) * fairProb;
  }

  lemma PositiveQuotient(a: real, b: real)
    requires b > 0.0 && a / b > 0.0
    ensures a > 0.0
  {
  }

  lemma SteamStakeIsCapped(strength: real, bankroll: MicroUsd, config: SteamSizingConfig)
    requires SteamStake(strength, bankroll, config).Ok?
    ensures SteamStake(strength, bankroll, config).value as real
            <= ShareOf(config.maxFraction, bankroll)
    ensures SteamStake(strength, bankroll, config).value <= bankroll
  {
    var scaled := Raised(MaxReal(0.0, strength), config);
    FlooredFractionIsCapped(MinReal(config.maxFraction, MaxReal(0.0, scaled)), config.maxFraction, bankroll);
  }

  // ---------------------------------------------------------------------------------------------

  datatype DecisionConfig = DecisionConfig(
    kelly: KellyConfig, risk: RiskConfig, steamSizing: Option<SteamSizingConfig>)

  datatype Built = Decided(decision: Decision) | NoEdge | RiskBlocked(reason: BreakerReason) | BadConfig

  function ProposedStake(signal: Signal, bankroll: MicroUsd, sizeMultiplier: real, config: DecisionConfig)
    : Result<MicroUsd, QuantError>
  {
    if signal.kind.Steam? && config.steamSizing.Some? then
      SteamStake(signal.strength, bankroll, config.steamSizing.value)
    else
      KellyStake(signal.fairProb, signal.offeredOdds, bankroll, config.kelly, sizeMultiplier)
  }

  function OrderFor(signal: Signal, stake: MicroUsd, context: RiskContext, nowMs: int, feedTsMs: int): Order {
    Order(stake, signal.offeredOdds, signal.fixtureId, signal.marketKey, nowMs, feedTsMs, context)
  }

  function BuildDecision(
    signal: Signal, state: RiskState, context: RiskContext, nowMs: int, feedTsMs: int,
    sizeMultiplier: real, config: DecisionConfig): Built
  {
    match ProposedStake(signal, state.bankroll, sizeMultiplier, config)
    case Err(_) => BadConfig
    case Ok(proposed) =>
      if proposed <= 0 then NoEdge
      else
        match Evaluate(state, OrderFor(signal, proposed, context, nowMs, feedTsMs), config.risk)
        case Blocked(reason) => RiskBlocked(reason)
        case Allowed(stake) =>
          Decided(Decision(signal.fixtureId, signal.marketKey, signal.outcome, signal.tsMs, signal.kind,
                           signal.fairProb, signal.offeredOdds, stake, signal.edge))
  }

  lemma ProposedStakeWithinBankroll(signal: Signal, bankroll: MicroUsd, sizeMultiplier: real, config: DecisionConfig)
    requires ProposedStake(signal, bankroll, sizeMultiplier, config).Ok?
    ensures ProposedStake(signal, bankroll, sizeMultiplier, config).value <= bankroll
  {
    if signal.kind.Steam? && config.steamSizing.Some? {
      SteamStakeIsCapped(signal.strength, bankroll, config.steamSizing.value);
    } else {
      KellyStakeIsCapped(signal.fairProb, signal.offeredOdds, bankroll, config.kelly, sizeMultiplier);
    }
  }

  /** Every built decision is one the risk manager approved for that signal's fixture, market and odds at the
      times given and in the given context, stakes something, never more than was proposed or is in the bankroll,
      and carries the signal's own fields. */
  lemma BuiltDecisionIsApproved(
    signal: Signal, state: RiskState, context: RiskContext, nowMs: int, feedTsMs: int,
    sizeMultiplier: real, config: DecisionConfig) returns (order: Order)
    requires BuildDecision(signal, state, context, nowMs, feedTsMs, sizeMultiplier, config).Decided?
    ensures var d := BuildDecision(signal, state, context, nowMs, feedTsMs, sizeMultiplier, config).decision;
            && Evaluate(state, order, config.risk) == Allowed(d.stake)
            && 0 < d.stake <= state.bankroll
            && d.fixtureId == order.fixtureId == signal.fixtureId
            && d.marketKey == order.marketKey == signal.marketKey
            && d.entryOdds == order.offeredOdds == signal.offeredOdds
            && order.nowMs == nowMs && order.feedTsMs == feedTsMs && order.context == context
            && ProposedStake(signal, state.bankroll, sizeMultiplier, config) == Ok(order.proposedStake)
            && d.stake <= order.proposedStake
            && d.tsMs == signal.tsMs && d.outcome == signal.outcome && d.signalKind == signal.kind
            && d.fairProb == signal.fairProb && d.edge == signal.edge
  {
    var proposed := ProposedStake(signal, state.bankroll, sizeMultiplier, config).value;
    order := OrderFor(signal, proposed, context, nowMs, feedTsMs);
    VerdictIsLargestAdmissibleStake(state, order, config.risk);
    ProposedStakeWithinBankroll(signal, state.bankroll, sizeMultiplier, config);
  }
}
