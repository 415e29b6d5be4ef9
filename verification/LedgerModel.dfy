/** The on-chain ledger: one strategy account, its decision accounts, and the instructions that change
    them. An instruction either succeeds with a new ledger or fails and changes nothing. */
module LedgerModel {
  import opened Prelude
  import opened Bytes
  import opened Borsh
  import opened AccountDecode

  const STATUS_OPEN := 0
  const STATUS_SETTLED := 1
  const STATUS_VOID := 2
  const SIDE_HOME := 0
  const SIDE_DRAW := 1
  const SIDE_AWAY := 2
  const STAT_KEY_PARTICIPANT1 := 1
  const STAT_KEY_PARTICIPANT2 := 2
  const FULL_GAME_PERIOD := 0
  const VOID_GRACE_SECONDS := 21_600
  const MS_PER_DAY := 86_400_000
  const ODDS_SCALE := 1000
  const U64_MAX := 0xffff_ffff_ffff_ffff
  const U32_MAX := 0xffff_ffff
  const I64_MAX := 0x7fff_ffff_ffff_ffff
  const I64_MIN := -0x8000_0000_0000_0000

  datatype LedgerError =
    | NotOpen | CommitMismatch | RoutingMismatch | FixtureMismatch | StatKeyMismatch | TxlineProgramMismatch
    | InvalidClaim | InvalidSide | InvalidRootsPda | Overflow | VoidGraceElapsed | NotSettled | OddsAlreadyProven
    | OddsMarketMismatch | OddsIndexOutOfRange | OddsSideMismatch | OddsPriceMismatch
    // Raised by the runtime and the account constraints around the handlers.
    | BadInstructionData | HasOneViolation | SeedsViolation | AccountInUse | AccountMissing | OracleRejected

  datatype Comparison = GreaterThan | LessThan | EqualTo

  predicate Holds(c: Comparison, threshold: int, value: int) {
    match c
    case GreaterThan => value > threshold
    case LessThan => value < threshold
    case EqualTo => value == threshold
  }

  /** What the program cannot see into: the hash, the derived addresses, label normalisation, and the
      oracle's Merkle checks. All theorems hold for every choice. */
  datatype World = World(
    strategyKey: seq<byte>,
    keccak: seq<byte> -> seq<byte>,
    scoresRoots: (seq<byte>, seq<byte>) -> seq<byte>,
    oddsRoots: (seq<byte>, seq<byte>) -> seq<byte>,
    sideMatchesLabel: (int, seq<byte>) -> bool,
    resultMarket: seq<byte>,
    statProven: (seq<byte>, SettleArgs) -> bool,
    oddsProven: (seq<byte>, ProveOddsArgs) -> bool)

  datatype Ledger = Ledger(strategy: StrategyAccount, decisions: map<nat, DecisionAccount>)

  /** A decision account is addressed by the index in its seeds. */
  datatype Instruction =
    | CommitIx(signer: seq<byte>, target: nat, data: seq<byte>, slot: int, unixTs: int)
    | SettleIx(signer: seq<byte>, target: nat, data: seq<byte>, program: seq<byte>, roots: seq<byte>, slot: int)
    | ProveIx(signer: seq<byte>, target: nat, data: seq<byte>, program: seq<byte>, roots: seq<byte>)
    | VoidIx(signer: seq<byte>, target: nat, data: seq<byte>, slot: int, unixTs: int)

  datatype CommitArgs = CommitArgs(commitHash: seq<byte>, fixtureId: int, market: int)

  function PutCommit(a: CommitArgs, tail: seq<byte>): seq<byte> {
    PutBytes(a.commitHash, PutInt(8, a.fixtureId, PutInt(2, a.market, tail)))
  }

  function GetCommit(s: seq<byte>): Option<(CommitArgs, seq<byte>)> {
    var (commitHash, s) :- GetBytes(32, s);
    var (fixtureId, s) :- GetSigned(8, s);
    var (market, s) :- GetUnsigned(2, s);
    Some((CommitArgs(commitHash, fixtureId, market), s))
  }

  // ---------------------------------------------------------------------------------------------
  // Program logic

  /** The commit log root of a strategy with no commits. */
  function ZeroRoot(): seq<byte> { seq(32, _ => 0) }

  function CommitHash(w: World, r: RevealArgs): seq<byte> { w.keccak(PutReveal(r, [])) }

  function PredicateForClaim(claimed: int): Option<(Comparison, int)> {
    if claimed == SIDE_HOME then Some((GreaterThan, 0))
    else if claimed == SIDE_DRAW then Some((EqualTo, 0))
    else if claimed == SIDE_AWAY then Some((LessThan, 0))
    else None
  }

  /** Checked PnL in the program's integer widths. */
  function ComputePnlChecked(won: bool, stake: int, entryOddsMilli: int): Option<int> {
    if won then
      if entryOddsMilli < ODDS_SCALE then None
      else if stake * (entryOddsMilli - ODDS_SCALE) > U64_MAX then None
      else
        var profit := stake * (entryOddsMilli - ODDS_SCALE) / ODDS_SCALE;
        if profit > I64_MAX then None else Some(profit)
    else if stake > I64_MAX then None
    else Some(-stake)
  }

  /** Signed PnL on an unsigned bankroll: checked upward, saturating at zero downward. */
  function ApplyPnl(bankroll: int, pnl: int): Option<int> {
    if pnl >= 0 then (if bankroll + pnl > U64_MAX then None else Some(bankroll + pnl))
    else if bankroll < -pnl then Some(0)
    else Some(bankroll + pnl)
  }

  function EpochDayLe(tsMs: int): Option<seq<byte>> {
    if tsMs < 0 then None
    else if tsMs / MS_PER_DAY > 0xffff then None
    else Some(LittleEndian(2, tsMs / MS_PER_DAY))
  }

  function CheckedAdd(v: int, delta: int, max: int): Option<int> {
    if v + delta > max then None else Some(v + delta)
  }

  function CheckedSub1(v: int): Option<int> {
    if v < 1 then None else Some(v - 1)
  }

  function Routed(w: World, r: RevealArgs, d: DecisionAccount): bool {
    r.fixtureId == d.fixtureId && r.market == d.market && r.strategy == w.strategyKey
  }

  // ---------------------------------------------------------------------------------------------
  // Instructions

  function Initialize(authority: seq<byte>, strategyId: int, txlineProgram: seq<byte>, bankroll: int, bump: int): Ledger {
    Ledger(StrategyAccount(authority, strategyId, txlineProgram, bankroll, bankroll, 0, 0, 0, 0, 0, 0, 0, ZeroRoot(), bump),
           map[])
  }

  function ExecCommit(w: World, l: Ledger, signer: seq<byte>, target: nat, data: seq<byte>, slot: int, unixTs: int)
    : Result<Ledger, LedgerError>
  {
    match GetCommit(data)
    case None => Err(BadInstructionData)
    case Some((args, _)) =>
      var s := l.strategy;
      if signer != s.authority then Err(HasOneViolation)
      else if target != s.decisionsCount then Err(SeedsViolation)
      else if target in l.decisions then Err(AccountInUse)
      else
        match (CheckedAdd(s.decisionsCount, 1, U64_MAX), CheckedAdd(s.openCount, 1, U64_MAX))
        case (Some(count), Some(open)) =>
          var root := w.keccak(s.commitLogRoot + args.commitHash + LittleEndian(8, target));
          var d := DecisionAccount(w.strategyKey, target, args.commitHash, args.fixtureId, args.market, slot, unixTs,
                                   STATUS_OPEN, 0, 0, 0, false, 0);
          Ok(Ledger(s.(commitLogRoot := root, decisionsCount := count, openCount := open), l.decisions[target := d]))
        case _ => Err(Overflow)
  }

  /** Every check of settle_decision before any account is written, in the program's order. */
  function SettleCheck(w: World, s: StrategyAccount, d: DecisionAccount, args: SettleArgs, program: seq<byte>, roots: seq<byte>)
    : Option<LedgerError>
  {
    if d.status != STATUS_OPEN then Some(NotOpen)
    else if CommitHash(w, args.sealed) != d.commitHash then Some(CommitMismatch)
    else if !Routed(w, args.sealed, d) then Some(RoutingMismatch)
    else if !IsSide(args.sealed.side) then Some(InvalidSide)
    else if args.fixtureSummary.fixtureId != d.fixtureId then Some(FixtureMismatch)
    else if !(&& args.statHome.statToProve.key == STAT_KEY_PARTICIPANT1
              && args.statAway.statToProve.key == STAT_KEY_PARTICIPANT2
              && args.statHome.statToProve.period == FULL_GAME_PERIOD
              && args.statAway.statToProve.period == FULL_GAME_PERIOD) then Some(StatKeyMismatch)
    else if program != s.txlineProgram then Some(TxlineProgramMismatch)
    else
      match PredicateForClaim(args.claimedResult)
      case None => Some(InvalidClaim)
      case Some((comparison, threshold)) =>
        match EpochDayLe(args.ts)
        case None => Some(InvalidRootsPda)
        case Some(day) =>
          if roots != w.scoresRoots(day, s.txlineProgram) then Some(InvalidRootsPda)
          else if !(w.statProven(roots, args)
                    && Holds(comparison, threshold, args.statHome.statToProve.statValue - args.statAway.statToProve.statValue))
          then Some(OracleRejected)
          else None
  }

  function Won(args: SettleArgs): bool { args.claimedResult == args.sealed.side }

  /** The strategy's accounting after a settle, unless some counter overflows. */
  function BookSettle(s: StrategyAccount, won: bool, pnl: int): Option<StrategyAccount> {
    var bankroll := ApplyPnl(s.bankroll, pnl);
    var open := CheckedSub1(s.openCount);
    var settled := CheckedAdd(s.settledCount, 1, U64_MAX);
    var wins := if won then CheckedAdd(s.wins, 1, U32_MAX) else Some(s.wins);
    var losses := if won then Some(s.losses) else CheckedAdd(s.losses, 1, U32_MAX);
    if !(I64_MIN <= s.realizedPnl + pnl <= I64_MAX) then None
    else if bankroll == None || open == None || settled == None || wins == None || losses == None then None
    else Some(s.(realizedPnl := s.realizedPnl + pnl, bankroll := bankroll.value, openCount := open.value,
                 settledCount := settled.value, wins := wins.value, losses := losses.value))
  }

  function ExecSettle(
    w: World, l: Ledger, signer: seq<byte>, target: nat, data: seq<byte>, program: seq<byte>, roots: seq<byte>, slot: int)
    : Result<Ledger, LedgerError>
  {
    match GetSettle(data)
    case None => Err(BadInstructionData)
    case Some((args, _)) =>
      if signer != l.strategy.authority then Err(HasOneViolation)
      else if target !in l.decisions then Err(AccountMissing)
      else
        var d := l.decisions[target];
        match SettleCheck(w, l.strategy, d, args, program, roots)
        case Some(e) => Err(e)
        case None =>
          match ComputePnlChecked(Won(args), args.sealed.stake, args.sealed.entryOddsMilli)
          case None => Err(Overflow)
          case Some(pnl) =>
            match BookSettle(l.strategy, Won(args), pnl)
            case None => Err(Overflow)
            case Some(s) =>
              Ok(Ledger(s, l.decisions[target := d.(status := STATUS_SETTLED, outcomeSide := args.claimedResult,
                                                    pnl := pnl, settleSlot := slot)]))
  }

  function ProveCheck(
    w: World, l: Ledger, d: DecisionAccount, args: ProveOddsArgs, program: seq<byte>, roots: seq<byte>)
    : Option<LedgerError>
  {
    var o := args.oddsSnapshot;
    if d.status != STATUS_SETTLED then Some(NotSettled)
    else if d.entryOddsProven then Some(OddsAlreadyProven)
    else if CommitHash(w, args.sealed) != d.commitHash then Some(CommitMismatch)
    else if !Routed(w, args.sealed, d) then Some(RoutingMismatch)
    else if !IsSide(args.sealed.side) then Some(InvalidSide)
    else if o.fixtureId != d.fixtureId then Some(FixtureMismatch)
    else if o.superOddsType != w.resultMarket then Some(OddsMarketMismatch)
    else if !(|o.priceNames| == |o.prices| && 0 <= args.sideIndex < |o.priceNames|) then Some(OddsIndexOutOfRange)
    else if !w.sideMatchesLabel(args.sealed.side, o.priceNames[args.sideIndex]) then Some(OddsSideMismatch)
    else if !(o.prices[args.sideIndex] >= 0 && o.prices[args.sideIndex] == args.sealed.entryOddsMilli)
    then Some(OddsPriceMismatch)
    else if program != l.strategy.txlineProgram then Some(TxlineProgramMismatch)
    else
      match EpochDayLe(args.ts)
      case None => Some(InvalidRootsPda)
      case Some(day) =>
        if roots != w.oddsRoots(day, l.strategy.txlineProgram) then Some(InvalidRootsPda)
        else if !w.oddsProven(roots, args) then Some(OracleRejected)
        else None
  }

  function ExecProve(
    w: World, l: Ledger, signer: seq<byte>, target: nat, data: seq<byte>, program: seq<byte>, roots: seq<byte>)
    : Result<Ledger, LedgerError>
  {
    match GetProveOdds(data)
    case None => Err(BadInstructionData)
    case Some((args, _)) =>
      if signer != l.strategy.authority then Err(HasOneViolation)
      else if target !in l.decisions then Err(AccountMissing)
      else
        var d := l.decisions[target];
        match ProveCheck(w, l, d, args, program, roots)
        case Some(e) => Err(e)
        case None => Ok(l.(decisions := l.decisions[target := d.(entryOddsProven := true)]))
  }

  function ExecVoid(w: World, l: Ledger, signer: seq<byte>, target: nat, data: seq<byte>, slot: int, unixTs: int)
    : Result<Ledger, LedgerError>
  {
    match GetReveal(data)
    case None => Err(BadInstructionData)
    case Some((sealed, rest)) =>
      if GetUnsigned(1, rest) == None then Err(BadInstructionData)
      else if signer != l.strategy.authority then Err(HasOneViolation)
      else if target !in l.decisions then Err(AccountMissing)
      else
        var d := l.decisions[target];
        var s := l.strategy;
        if d.status != STATUS_OPEN then Err(NotOpen)
        else if CommitHash(w, sealed) != d.commitHash then Err(CommitMismatch)
        else if !(I64_MIN <= unixTs - d.commitUnixTs <= I64_MAX) then Err(Overflow)
        else if unixTs - d.commitUnixTs > VOID_GRACE_SECONDS then Err(VoidGraceElapsed)
        else
          match (CheckedSub1(s.openCount), CheckedAdd(s.pushes, 1, U32_MAX))
          case (Some(open), Some(pushes)) =>
            Ok(Ledger(s.(openCount := open, pushes := pushes),
                      l.decisions[target := d.(status := STATUS_VOID, pnl := 0, settleSlot := slot)]))
          case _ => Err(Overflow)
  }

  function Exec(w: World, l: Ledger, ix: Instruction): Result<Ledger, LedgerError> {
    match ix
    case CommitIx(signer, target, data, slot, unixTs) => ExecCommit(w, l, signer, target, data, slot, unixTs)
    case SettleIx(signer, target, data, program, roots, slot) => ExecSettle(w, l, signer, target, data, program, roots, slot)
    case ProveIx(signer, target, data, program, roots) => ExecProve(w, l, signer, target, data, program, roots)
    case VoidIx(signer, target, data, slot, unixTs) => ExecVoid(w, l, signer, target, data, slot, unixTs)
  }

  /** Failed instructions revert. */
  function Apply(w: World, l: Ledger, ix: Instruction): Ledger {
    match Exec(w, l, ix)
    case Ok(n) => n
    case Err(_) => l
  }

  function ApplyAll(w: World, l: Ledger, ixs: seq<Instruction>): Ledger {
    if |ixs| == 0 then l else Apply(w, ApplyAll(w, l, ixs[..|ixs| - 1]), ixs[|ixs| - 1])
  }
}
