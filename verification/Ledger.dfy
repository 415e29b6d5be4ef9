/** The program's handlers as they run: each assigns account fields one by one on working copies, and only
    a handler that reaches its end writes them back. The program itself writes account fields before a later
    counter can overflow and relies on the runtime to revert a failed instruction; here that revert is built
    into the working copies, so atomicity holds by construction. What runs of instructions keep is proved in
    LedgerProofs. */
module Ledger {
  import opened Prelude
  import opened Bytes
  import opened Borsh
  import opened AccountDecode
  import opened LedgerModel
  import opened LedgerProofs

  /** The chain of requirements at the head of settle_decision; the first one that fails is reported. */
  method RequireSettleable(
    world: World, s: StrategyAccount, d: DecisionAccount, args: SettleArgs, program: seq<byte>, roots: seq<byte>)
    returns (refused: Option<LedgerError>)
    ensures refused == SettleCheck(world, s, d, args, program, roots)
  {
    var sealed := args.sealed;
    if d.status != STATUS_OPEN { return Some(NotOpen); }
    var computed := world.keccak(PutReveal(sealed, []));
    if computed != d.commitHash { return Some(CommitMismatch); }
    if sealed.fixtureId != d.fixtureId || sealed.market != d.market || sealed.strategy != world.strategyKey {
      return Some(RoutingMismatch);
    }
    if sealed.side != SIDE_HOME && sealed.side != SIDE_DRAW && sealed.side != SIDE_AWAY { return Some(InvalidSide); }
    if args.fixtureSummary.fixtureId != d.fixtureId { return Some(FixtureMismatch); }
    var home, away := args.statHome.statToProve, args.statAway.statToProve;
    if home.key != STAT_KEY_PARTICIPANT1 || away.key != STAT_KEY_PARTICIPANT2
       || home.period != FULL_GAME_PERIOD || away.period != FULL_GAME_PERIOD {
      return Some(StatKeyMismatch);
    }
    if program != s.txlineProgram { return Some(TxlineProgramMismatch); }
    var claim := PredicateForClaim(args.claimedResult);
    if claim.None? { return Some(InvalidClaim); }
    var day := EpochDayLe(args.ts);
    if day.None? || roots != world.scoresRoots(day.value, s.txlineProgram) { return Some(InvalidRootsPda); }
    if !world.statProven(roots, args) || !Holds(claim.value.0, claim.value.1, home.statValue - away.statValue) {
      return Some(OracleRejected);
    }
    return None;
  }

  /** The strategy's counters after a settle, written one by one; None if any of them overflows. */
  method BookOutcome(strategy: StrategyAccount, won: bool, pnl: int) returns (booked: Option<StrategyAccount>)
    ensures booked == BookSettle(strategy, won, pnl)
  {
    var s := strategy;
    if !(I64_MIN <= s.realizedPnl + pnl <= I64_MAX) { return None; }
    s := s.(realizedPnl := s.realizedPnl + pnl);
    var bankroll := ApplyPnl(s.bankroll, pnl);
    if bankroll.None? { return None; }
    s := s.(bankroll := bankroll.value);
    var open := CheckedSub1(s.openCount);
    if open.None? { return None; }
    s := s.(openCount := open.value);
    var settled := CheckedAdd(s.settledCount, 1, U64_MAX);
    if settled.None? { return None; }
    s := s.(settledCount := settled.value);
    if won {
      var wins := CheckedAdd(s.wins, 1, U32_MAX);
      if wins.None? { return None; }
      s := s.(wins := wins.value);
    } else {
      var losses := CheckedAdd(s.losses, 1, U32_MAX);
      if losses.None? { return None; }
      s := s.(losses := losses.value);
    }
    return Some(s);
  }

  class AgentLedger {
    const world: World
    var strategy: StrategyAccount
    var decisions: map<nat, DecisionAccount>

    ghost function State(): LedgerModel.Ledger
      reads this
    {
      LedgerModel.Ledger(strategy, decisions)
    }

    constructor (world: World, authority: seq<byte>, strategyId: int, txlineProgram: seq<byte>, bankroll: int, bump: int)
      ensures this.world == world
      ensures State() == Initialize(authority, strategyId, txlineProgram, bankroll, bump)
      ensures Accounted(world, State()) && RootBinds(world, State()) && SettlementsAreProper(world, State())
      ensures ProofsAreProper(world, State())
    {
      this.world := world;
      strategy := StrategyAccount(authority, strategyId, txlineProgram, bankroll, bankroll, 0, 0, 0, 0, 0, 0, 0,
                                  ZeroRoot(), bump);
      decisions := map[];
    }

    /** None on success; on an error nothing has changed. */
    method CommitDecision(signer: seq<byte>, target: nat, data: seq<byte>, slot: int, unixTs: int)
      returns (failure: Option<LedgerError>)
      modifies this
      ensures match ExecCommit(world, old(State()), signer, target, data, slot, unixTs)
              case Ok(n) => failure == None && State() == n
              case Err(e) => failure == Some(e) && State() == old(State())
    {
      var decoded := GetCommit(data);
      if decoded.None? { return Some(BadInstructionData); }
      var args := decoded.value.0;
      var s := strategy;
      if signer != s.authority { return Some(HasOneViolation); }
      if target != s.decisionsCount { return Some(SeedsViolation); }
      if target in decisions { return Some(AccountInUse); }
      var index := s.decisionsCount;
      var d := DecisionAccount(world.strategyKey, index, args.commitHash, args.fixtureId, args.market, slot, unixTs,
                               STATUS_OPEN, 0, 0, 0, false, 0);
      s := s.(commitLogRoot := world.keccak(s.commitLogRoot + args.commitHash + LittleEndian(8, index)));
      var count := CheckedAdd(s.decisionsCount, 1, U64_MAX);
      if count.None? { return Some(Overflow); }
      s := s.(decisionsCount := count.value);
      var open := CheckedAdd(s.openCount, 1, U64_MAX);
      if open.None? { return Some(Overflow); }
      s := s.(openCount := open.value);
      strategy, decisions := s, decisions[target := d];
      return None;
    }

    method SettleDecision(
      signer: seq<byte>, target: nat, data: seq<byte>, program: seq<byte>, roots: seq<byte>, slot: int)
      returns (failure: Option<LedgerError>)
      modifies this
      ensures match ExecSettle(world, old(State()), signer, target, data, program, roots, slot)
              case Ok(n) => failure == None && State() == n
              case Err(e) => failure == Some(e) && State() == old(State())
    {
      var decoded := GetSettle(data);
      if decoded.None? { return Some(BadInstructionData); }
      var args := decoded.value.0;
      if signer != strategy.authority { return Some(HasOneViolation); }
      if target !in decisions { return Some(AccountMissing); }
      var d, s := decisions[target], strategy;
      var refused := RequireSettleable(world, s, d, args, program, roots);
      if refused.Some? { return refused; }
      var won := args.claimedResult == args.sealed.side;
      var pnl := ComputePnlChecked(won, args.sealed.stake, args.sealed.entryOddsMilli);
      if pnl.None? { return Some(Overflow); }
      d := d.(status := STATUS_SETTLED);
      d := d.(outcomeSide := args.claimedResult);
      d := d.(pnl := pnl.value);
      d := d.(settleSlot := slot);
      var booked := BookOutcome(s, won, pnl.value);
      if booked.None? { return Some(Overflow); }
      strategy, decisions := booked.value, decisions[target := d];
      return None;
    }

    method ProveEntryOdds(signer: seq<byte>, target: nat, data: seq<byte>, program: seq<byte>, roots: seq<byte>)
      returns (failure: Option<LedgerError>)
      modifies this
      ensures match ExecProve(world, old(State()), signer, target, data, program, roots)
              case Ok(n) => failure == None && State() == n
              case Err(e) => failure == Some(e) && State() == old(State())
    {
      var decoded := GetProveOdds(data);
      if decoded.None? { return Some(BadInstructionData); }
      if signer != strategy.authority { return Some(HasOneViolation); }
      if target !in decisions { return Some(AccountMissing); }
      var d := decisions[target];
      var args := decoded.value.0;
      var sealed, odds := args.sealed, args.oddsSnapshot;
      if d.status != STATUS_SETTLED { return Some(NotSettled); }
      if d.entryOddsProven { return Some(OddsAlreadyProven); }
      if world.keccak(PutReveal(sealed, [])) != d.commitHash { return Some(CommitMismatch); }
      if sealed.fixtureId != d.fixtureId || sealed.market != d.market || sealed.strategy != world.strategyKey {
        return Some(RoutingMismatch);
      }
      if sealed.side != SIDE_HOME && sealed.side != SIDE_DRAW && sealed.side != SIDE_AWAY { return Some(InvalidSide); }
      if odds.fixtureId != d.fixtureId { return Some(FixtureMismatch); }
      if odds.superOddsType != world.resultMarket { return Some(OddsMarketMismatch); }
      if |odds.priceNames| != |odds.prices| || !(0 <= args.sideIndex < |odds.priceNames|) {
        return Some(OddsIndexOutOfRange);
      }
      if !world.sideMatchesLabel(sealed.side, odds.priceNames[args.sideIndex]) { return Some(OddsSideMismatch); }
      var price := odds.prices[args.sideIndex];
      if price < 0 || price != sealed.entryOddsMilli { return Some(OddsPriceMismatch); }
      if program != strategy.txlineProgram { return Some(TxlineProgramMismatch); }
      var day := EpochDayLe(args.ts);
      if day.None? || roots != world.oddsRoots(day.value, strategy.txlineProgram) { return Some(InvalidRootsPda); }
      if !world.oddsProven(roots, args) { return Some(OracleRejected); }
      d := d.(entryOddsProven := true);
      decisions := decisions[target := d];
      return None;
    }

    method VoidDecision(signer: seq<byte>, target: nat, data: seq<byte>, slot: int, unixTs: int)
      returns (failure: Option<LedgerError>)
      modifies this
      ensures match ExecVoid(world, old(State()), signer, target, data, slot, unixTs)
              case Ok(n) => failure == None && State() == n
              case Err(e) => failure == Some(e) && State() == old(State())
    {
      var decoded := GetReveal(data);
      if decoded.None? || GetUnsigned(1, decoded.value.1) == None { return Some(BadInstructionData); }
      if signer != strategy.authority { return Some(HasOneViolation); }
      if target !in decisions { return Some(AccountMissing); }
      var d, s := decisions[target], strategy;
      if d.status != STATUS_OPEN { return Some(NotOpen); }
      if CommitHash(world, decoded.value.0) != d.commitHash { return Some(CommitMismatch); }
      var elapsed := unixTs - d.commitUnixTs;
      if !(I64_MIN <= elapsed <= I64_MAX) { return Some(Overflow); }
      if elapsed > VOID_GRACE_SECONDS { return Some(VoidGraceElapsed); }
      d := d.(status := STATUS_VOID);
      d := d.(pnl := 0);
      d := d.(settleSlot := slot);
      var open := CheckedSub1(s.openCount);
      if open.None? { return Some(Overflow); }
      s := s.(openCount := open.value);
      var pushes := CheckedAdd(s.pushes, 1, U32_MAX);
      if pushes.None? { return Some(Overflow); }
      s := s.(pushes := pushes.value);
      strategy, decisions := s, decisions[target := d];
      return None;
    }

    method Execute(ix: Instruction) returns (failure: Option<LedgerError>)
      modifies this
      ensures match Exec(world, old(State()), ix)
              case Ok(n) => failure == None && State() == n
              case Err(e) => failure == Some(e) && State() == old(State())
      ensures State() == Apply(world, old(State()), ix)
    {
      match ix
      case CommitIx(signer, target, data, slot, unixTs) =>
        failure := CommitDecision(signer, target, data, slot, unixTs);
      case SettleIx(signer, target, data, program, roots, slot) =>
        failure := SettleDecision(signer, target, data, program, roots, slot);
      case ProveIx(signer, target, data, program, roots) =>
        failure := ProveEntryOdds(signer, target, data, program, roots);
      case VoidIx(signer, target, data, slot, unixTs) =>
        failure := VoidDecision(signer, target, data, slot, unixTs);
    }

    /** Whatever others submit between two of our own steps. */
    method ExecuteAll(ixs: seq<Instruction>)
      modifies this
      ensures State() == ApplyAll(world, old(State()), ixs)
    {
      ghost var start := State();
      for i := 0 to |ixs|
        invariant State() == ApplyAll(world, start, ixs[..i])
      {
        var _ := Execute(ixs[i]);
        assert ixs[..i + 1][..i] == ixs[..i];
      }
      assert ixs[..|ixs|] == ixs;
    }
  }
}
