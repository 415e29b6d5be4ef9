/** A settle that lands and is not heard of: the decision is settled on chain and the store never shows it. */
module LostReceipt {
  import opened Prelude
  import opened AccountDecode
  import opened Borsh
  import opened Bytes
  import opened LedgerModel
  import opened LedgerProofs
  import opened Sink
  import D = Domain
  import P = PipelineModel

  /** Any 32 bytes serve as every address and hash. */
  type Key = s: seq<byte> | |s| == 32 witness ZeroRoot()

  /** An oracle that accepts every proof, under a hash that sends everything to the one key. */
  function SimpleWorld(key: Key): World {
    World(key, _ => key, (_, _) => key, (_, _) => key, (_, _) => true, [],
          (_, _) => true, (_, _) => true)
  }

  /** A bet of 100 on the home side at even money, sealed at index 0. */
  function HomeBet(key: Key): CommittedReveal {
    CommittedReveal(RevealArgs(key, 0, 7, MARKET_1X2, SIDE_HOME, 5000, 2000, 100, key, key), 0)
  }

  function FreshStrategy(key: Key): LedgerModel.Ledger { Initialize(key, 0, key, 1000, 0) }

  function CommitArgsOfBet(key: Key): CommitArgs { CommitArgs(key, 7, MARKET_1X2) }

  function CommitHomeBet(key: Key): Instruction { CommitIx(key, 0, PutCommit(CommitArgsOfBet(key), []), 0, 0) }

  /** The strategy once that bet is its only commit. */
  function OneOpenBet(key: Key): LedgerModel.Ledger {
    Ledger(FreshStrategy(key).strategy.(commitLogRoot := key, decisionsCount := 1, openCount := 1),
           map[0 := DecisionAccount(key, 0, key, 7, MARKET_1X2, 0, 0, STATUS_OPEN, 0, 0, 0, false, 0)])
  }

  /** Home won by one goal. */
  function OneNil(key: Key): Validation {
    Validation(0, ScoreStat(STAT_KEY_PARTICIPANT1, 1, FULL_GAME_PERIOD),
               Some(ScoreStat(STAT_KEY_PARTICIPANT2, 0, FULL_GAME_PERIOD)), key,
               BatchSummary(7, UpdateStats(0, 0, 0), key), [], Some([]), [], [])
  }

  /** Nobody else writes, every read answers, and our transaction lands; whether we are told is the parameter. */
  function Quiet(key: Key, reported: bool): Surroundings {
    Surroundings([[], [], [], [], []], [true, true, true], true, reported, key, key, 0, 0,
                 Some(OneNil(key)), None, false, false)
  }

  function OneNilArgs(key: Key): SettleArgs {
    SettleArgs(HomeBet(key).sealed, SIDE_HOME, 0, OneNil(key).summary, [], [], StatTerm(OneNil(key).statToProve, key, []),
               StatTerm(OneNil(key).statToProve2.value, key, []))
  }

  lemma CommitMakesIt(key: Key)
    ensures Exec(SimpleWorld(key), FreshStrategy(key), CommitHomeBet(key)) == Ok(OneOpenBet(key))
  {
    CommitDataDecodes(CommitArgsOfBet(key));
    assert ExecCommit(SimpleWorld(key), FreshStrategy(key), key, 0, PutCommit(CommitArgsOfBet(key), []), 0, 0)
        == Ok(OneOpenBet(key));
  }

  lemma OneOpenBetIsAnchored(key: Key)
    ensures Accounted(SimpleWorld(key), OneOpenBet(key)) && Anchored(SimpleWorld(key), OneOpenBet(key), HomeBet(key))
  {
    FreshIsAccounted(SimpleWorld(key), key, 0, key, 1000, 0);
    CommitMakesIt(key);
    ApplyKeepsAccounts(SimpleWorld(key), FreshStrategy(key), CommitHomeBet(key));
  }

  lemma ArgsAreBuilt(key: Key, reported: bool)
    ensures SettleArgsFor(HomeBet(key), Quiet(key, reported)) == Some(OneNilArgs(key))
    ensures CheckSettle(OneNilArgs(key)) == None && SettleLengthsFit(OneNilArgs(key))
  {
  }

  /** The strategy after that bet has won. */
  function PaidBet(key: Key): LedgerModel.Ledger {
    Ledger(OneOpenBet(key).strategy.(bankroll := 1100, realizedPnl := 100, openCount := 0, settledCount := 1, wins := 1),
           map[0 := DecisionAccount(key, 0, key, 7, MARKET_1X2, 0, 0, STATUS_SETTLED, SIDE_HOME, 100, 0, false, 0)])
  }

  lemma ChecksPass(key: Key)
    ensures SettleCheck(SimpleWorld(key), OneOpenBet(key).strategy, OneOpenBet(key).decisions[0], OneNilArgs(key), key, key)
            == None
  {
  }

  lemma BetPays(key: Key)
    ensures ComputePnlChecked(Won(OneNilArgs(key)), OneNilArgs(key).sealed.stake, OneNilArgs(key).sealed.entryOddsMilli)
            == Some(100)
    ensures BookSettle(OneOpenBet(key).strategy, Won(OneNilArgs(key)), 100) == Some(PaidBet(key).strategy)
  {
  }

  /** When every step of a settle goes through, so does the settle. */
  lemma StepsSettle(
    w: World, l: LedgerModel.Ledger, target: nat, args: SettleArgs, program: seq<byte>, roots: seq<byte>, slot: int,
    pnl: int, s: StrategyAccount)
    requires CheckSettle(args) == None && SettleLengthsFit(args) && target in l.decisions
    requires SettleCheck(w, l.strategy, l.decisions[target], args, program, roots) == None
    requires ComputePnlChecked(Won(args), args.sealed.stake, args.sealed.entryOddsMilli) == Some(pnl)
    requires BookSettle(l.strategy, Won(args), pnl) == Some(s)
    ensures ExecSettle(w, l, l.strategy.authority, target, PutSettle(args, []), program, roots, slot)
         == Ok(Ledger(s, l.decisions[target := l.decisions[target].(
                 status := STATUS_SETTLED, outcomeSide := args.claimedResult, pnl := pnl, settleSlot := slot)]))
  {
    hide SettleCheck, BookSettle, ComputePnlChecked, CheckSettle, PutSettle, GetSettle, SettleLengthsFit;
    SettleRoundTrip(args, []);
  }

  lemma PaidRecord(key: Key)
    ensures OneOpenBet(key).decisions[0 := OneOpenBet(key).decisions[0].(
              status := STATUS_SETTLED, outcomeSide := SIDE_HOME, pnl := 100, settleSlot := 0)] == PaidBet(key).decisions
  {
  }

  lemma SettlePaysIt(key: Key)
    ensures Exec(SimpleWorld(key), OneOpenBet(key), OwnSettle(SimpleWorld(key), key, key, HomeBet(key), OneNilArgs(key), 0))
            == Ok(PaidBet(key))
  {
    ArgsAreBuilt(key, true);
    ChecksPass(key);
    BetPays(key);
    StepsSettle(SimpleWorld(key), OneOpenBet(key), 0, OneNilArgs(key), key, key, 0, 100, PaidBet(key).strategy);
    PaidRecord(key);
  }

  /** With nobody else writing, a settle that executes on the ledger as it stands lands. */
  lemma UndisturbedLands(
    w: World, l: LedgerModel.Ledger, signer: seq<byte>, program: seq<byte>, c: CommittedReveal, e: Surroundings,
    args: SettleArgs, slot: int, after: LedgerModel.Ledger)
    requires Complete(e) && e.others[0] == [] && e.others[1] == [] && e.lands && e.slot == slot
    requires SettleArgsFor(c, e) == Some(args) && CheckSettle(args) == None
    requires Exec(w, l, OwnSettle(w, signer, program, c, args, slot)) == Ok(after)
    ensures SettleLands(w, l, signer, program, c, e)
  {
    assert ApplyAll(w, l, []) == l;
  }

  lemma QuietIsUndisturbed(key: Key, reported: bool)
    ensures var e := Quiet(key, reported);
            Complete(e) && OthersDoNotSettle(e) && e.others[0] == [] && e.others[1] == [] && e.lands && e.slot == 0
  {
  }

  lemma ItLands(key: Key, e: Surroundings)
    requires Complete(e) && e.others[0] == [] && e.others[1] == [] && e.lands && e.slot == 0
    requires SettleArgsFor(HomeBet(key), e) == Some(OneNilArgs(key))
    ensures SettleLands(SimpleWorld(key), OneOpenBet(key), key, key, HomeBet(key), e)
  {
    ArgsAreBuilt(key, true);
    SettlePaysIt(key);
    UndisturbedLands(SimpleWorld(key), OneOpenBet(key), key, key, HomeBet(key), e, OneNilArgs(key), 0, PaidBet(key));
  }

  lemma PaidOnChain(key: Key)
    ensures OnChain(PaidBet(key), map[0 := HomeBet(key)], 0)
  {
    assert 0 in SettledIds(PaidBet(key));
  }

  /** The input on which the store misses a settlement: the settle of the one open bet lands and pays 100 on
      chain, its report is lost, and so no receipt reaches the store. With the report it would. */
  lemma ReceiptIsLost(key: Key)
    ensures Accounted(SimpleWorld(key), OneOpenBet(key)) && Anchored(SimpleWorld(key), OneOpenBet(key), HomeBet(key))
    ensures Complete(Quiet(key, false)) && OthersDoNotSettle(Quiet(key, false))
    ensures SettleLands(SimpleWorld(key), OneOpenBet(key), key, key, HomeBet(key), Quiet(key, false))
    ensures !Receipted(Quiet(key, false)) && Receipted(Quiet(key, true))
    ensures Exec(SimpleWorld(key), OneOpenBet(key), OwnSettle(SimpleWorld(key), key, key, HomeBet(key), OneNilArgs(key), 0))
            == Ok(PaidBet(key))
    ensures OnChain(PaidBet(key), map[0 := HomeBet(key)], 0) && PaidBet(key).strategy.realizedPnl == 100
  {
    hide SettleLands, Anchored, Accounted, Exec, OwnSettle, OnChain;
    OneOpenBetIsAnchored(key);
    QuietIsUndisturbed(key, false);
    ArgsAreBuilt(key, false);
    ItLands(key, Quiet(key, false));
    SettlePaysIt(key);
    PaidOnChain(key);
  }

  /** The pipeline decision behind that bet. */
  function HomeDecision(): D.Decision {
    D.Decision(7, "1X2", D.Home, 0, D.Steam, 0.5, 2000, 100, 0.0)
  }

  lemma BetIsSealed(key: Key, reported: bool)
    ensures SealFor(SimpleWorld(key), FreshStrategy(key), HomeDecision(), Quiet(key, reported)) == Some(HomeBet(key).sealed)
    ensures OwnCommit(SimpleWorld(key), key, HomeBet(key).sealed, Quiet(key, reported)) == Some(CommitHomeBet(key))
  {
  }

  /** With nobody else writing, a commit that seals and executes on the ledger as it stands lands. */
  lemma UndisturbedCommits(
    w: World, l: LedgerModel.Ledger, signer: seq<byte>, d: D.Decision, e: Surroundings, sealed: RevealArgs,
    ix: Instruction, after: LedgerModel.Ledger)
    requires Complete(e) && e.others[0] == [] && e.others[1] == [] && e.others[2] == []
    requires e.answers[0] && e.answers[1] && e.lands && sealed.index == l.strategy.decisionsCount
    requires SealFor(w, l, d, e) == Some(sealed) && OwnCommit(w, signer, sealed, e) == Some(ix)
    requires Exec(w, l, ix) == Ok(after)
    ensures CommitLands(w, l, signer, d, e)
  {
    hide SealFor, OwnCommit, Exec;
    assert ApplyAll(w, l, []) == l;
  }

  /** The input on which a commit is lost: it lands, its report does not arrive, and so it is not remembered. Its
      decision stays open on chain, and no settle call of ours that finds it there can settle it, whatever the
      surroundings; such a call records that its commit failed. */
  lemma CommitIsLost(key: Key, position: P.SettledPosition, later: Surroundings)
    requires Complete(later)
    ensures Complete(Quiet(key, false)) && OthersDoNotSettle(Quiet(key, false))
    ensures CommitLands(SimpleWorld(key), FreshStrategy(key), key, HomeDecision(), Quiet(key, false))
    ensures !Quiet(key, false).reported && Quiet(key, true).reported
    ensures Exec(SimpleWorld(key), FreshStrategy(key), CommitHomeBet(key)) == Ok(OneOpenBet(key))
    ensures 0 in OneOpenBet(key).decisions && OneOpenBet(key).decisions[0].status == STATUS_OPEN
    ensures !LandsAt(SimpleWorld(key), key, key, Moment(OneOpenBet(key), map[]), Settles(position), later)
  {
    hide CommitLands, Exec, SettleLands, OwnCommit, SealFor;
    CommitMakesIt(key);
    BetIsSealed(key, false);
    UndisturbedCommits(SimpleWorld(key), FreshStrategy(key), key, HomeDecision(), Quiet(key, false), HomeBet(key).sealed,
                       CommitHomeBet(key), OneOpenBet(key));
  }
}
