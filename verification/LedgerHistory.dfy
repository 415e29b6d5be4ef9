/** What the ledger's accounts say about the instructions that made them: which settles were won and lost, which
    instruction wrote each record, and exactly when an instruction succeeds. */
module LedgerHistory {
  import opened Prelude
  import opened Bytes
  import opened Borsh
  import opened AccountDecode
  import opened LedgerModel
  import opened LedgerProofs

  // ---------------------------------------------------------------------------------------------
  // Wins and losses

  /** A settle that succeeds, of a bet whose sealed side is, or is not, the result it claims. */
  ghost predicate SettlesAs(w: World, before: Ledger, ix: Instruction, won: bool) {
    && ix.SettleIx? && Exec(w, before, ix).Ok? && GetSettle(ix.data).Some?
    && var args := GetSettle(ix.data).value.0;
       (args.claimedResult == args.sealed.side) == won
  }

  /** How many instructions of a run were such settles. */
  ghost function SettlesOf(w: World, l: Ledger, ixs: seq<Instruction>, won: bool): nat {
    if |ixs| == 0 then 0
    else
      var front := ixs[..|ixs| - 1];
      SettlesOf(w, l, front, won) + if SettlesAs(w, ApplyAll(w, l, front), ixs[|ixs| - 1], won) then 1 else 0
  }

  lemma SettleCountsOnce(w: World, l: Ledger, ix: Instruction)
    ensures var s, n := l.strategy, Apply(w, l, ix).strategy;
            && n.wins == s.wins + (if SettlesAs(w, l, ix, true) then 1 else 0)
            && n.losses == s.losses + (if SettlesAs(w, l, ix, false) then 1 else 0)
  {
    hide GetSettle, GetReveal, GetCommit, GetProveOdds, SettleCheck, ProveCheck, ComputePnlChecked, ApplyPnl;
    if ix.SettleIx? && Exec(w, l, ix).Ok? {
      var args, pnl := SettleEffect(w, l, ix);
    }
  }

  /** Over every run the win counter moves by exactly the settles whose claimed result was the sealed side, and
      the loss counter by exactly the others. */
  lemma {:induction false} WinsAndLossesAreCounted(w: World, l: Ledger, ixs: seq<Instruction>)
    ensures var n := ApplyAll(w, l, ixs).strategy;
            && n.wins == l.strategy.wins + SettlesOf(w, l, ixs, true)
            && n.losses == l.strategy.losses + SettlesOf(w, l, ixs, false)
  {
    hide Apply, SettlesAs;
    if |ixs| > 0 {
      var front := ixs[..|ixs| - 1];
      WinsAndLossesAreCounted(w, l, front);
      SettleCountsOnce(w, ApplyAll(w, l, front), ixs[|ixs| - 1]);
    }
  }

  /** A settle is a win exactly if the side sealed at commit is the side of the attested score. */
  lemma SettleIsWonByTheScore(w: World, l: Ledger, ix: Instruction, won: bool)
    requires SettlesAs(w, l, ix, won)
    ensures var args := GetSettle(ix.data).value.0;
            won == (args.sealed.side
                == SideOfGoals(args.statHome.statToProve.statValue, args.statAway.statToProve.statValue))
  {
    hide GetSettle, CommitHash, Routed, EpochDayLe, ComputePnlChecked, BookSettle;
    var args, pnl := SettleEffect(w, l, ix);
    ExactlyOneClaimHolds(args.claimedResult, args.statHome.statToProve.statValue, args.statAway.statToProve.statValue);
  }

  // ---------------------------------------------------------------------------------------------
  // The instructions behind a record

  /** A record was committed by an instruction: what it seals is what the instruction carried, when it did. */
  predicate CommittedBy(w: World, authority: seq<byte>, ix: Instruction, i: nat, d: DecisionAccount) {
    && ix.CommitIx? && ix.signer == authority && ix.target == i
    && GetCommit(ix.data).Some? && GetCommit(ix.data).value.0 == CommitArgs(d.commitHash, d.fixtureId, d.market)
    && d.index == i && d.strategy == w.strategyKey && d.commitSlot == ix.slot && d.commitUnixTs == ix.unixTs
  }

  /** A record was settled by an instruction, on the attestation it carried. */
  predicate SettledByIx(
    w: World, authority: seq<byte>, program: seq<byte>, ix: Instruction, i: nat, d: DecisionAccount)
  {
    && ix.SettleIx? && ix.signer == authority && ix.target == i && ix.program == program
    && GetSettle(ix.data).Some? && ProperlySettled(w, program, d, GetSettle(ix.data).value.0)
    && d.outcomeSide == GetSettle(ix.data).value.0.claimedResult
    && d.settleSlot == ix.slot
  }

  /** A record was voided by an instruction that revealed it within six hours of its commit. */
  predicate VoidedBy(w: World, authority: seq<byte>, ix: Instruction, i: nat, d: DecisionAccount) {
    && ix.VoidIx? && ix.signer == authority && ix.target == i
    && GetReveal(ix.data).Some? && CommitHash(w, GetReveal(ix.data).value.0) == d.commitHash
    && ix.unixTs - d.commitUnixTs <= 6 * 60 * 60
    && d.pnl == 0 && d.outcomeSide == 0 && d.settleSlot == ix.slot
  }

  predicate ProvenBy(
    w: World, authority: seq<byte>, program: seq<byte>, ix: Instruction, i: nat, d: DecisionAccount)
  {
    && ix.ProveIx? && ix.signer == authority && ix.target == i && ix.program == program
    && GetProveOdds(ix.data).Some? && ProperlyProven(w, program, d, GetProveOdds(ix.data).value.0)
  }

  /** A record in the order its life took: committed, then settled or voided, then perhaps proven. */
  ghost predicate Explained(
    w: World, authority: seq<byte>, program: seq<byte>, ixs: seq<Instruction>, i: nat, d: DecisionAccount)
  {
    exists a :: 0 <= a < |ixs| && CommittedBy(w, authority, ixs[a], i, d)
        && ExplainedAfter(w, authority, program, ixs, i, d, a)
  }

  ghost predicate ExplainedAfter(
    w: World, authority: seq<byte>, program: seq<byte>, ixs: seq<Instruction>, i: nat, d: DecisionAccount, a: int)
  {
    if d.status == STATUS_SETTLED then
      exists b :: a < b < |ixs| && 0 <= b && SettledByIx(w, authority, program, ixs[b], i, d)
                  && (d.entryOddsProven ==> ProvenAfter(w, authority, program, ixs, i, d, b))
    else if d.status == STATUS_VOID then
      !d.entryOddsProven && exists b :: a < b < |ixs| && 0 <= b && VoidedBy(w, authority, ixs[b], i, d)
    else d.status == STATUS_OPEN && d.pnl == 0 && d.outcomeSide == 0 && d.settleSlot == 0 && !d.entryOddsProven
  }

  ghost predicate ProvenAfter(
    w: World, authority: seq<byte>, program: seq<byte>, ixs: seq<Instruction>, i: nat, d: DecisionAccount, b: int)
  {
    exists c :: b < c < |ixs| && 0 <= c && ProvenBy(w, authority, program, ixs[c], i, d)
  }

  ghost predicate AllExplained(w: World, l: Ledger, ixs: seq<Instruction>) {
    forall i :: i in l.decisions
        ==> Explained(w, l.strategy.authority, l.strategy.txlineProgram, ixs, i, l.decisions[i])
  }

  lemma StaysExplained(
    w: World, authority: seq<byte>, program: seq<byte>, ixs: seq<Instruction>, ix: Instruction, i: nat,
        d: DecisionAccount)
    requires Explained(w, authority, program, ixs, i, d)
    ensures Explained(w, authority, program, ixs + [ix], i, d)
  {
    hide CommittedBy, SettledByIx, VoidedBy, ProvenBy;
    var longer := ixs + [ix];
    var a :| 0 <= a < |ixs| && CommittedBy(w, authority, ixs[a], i, d)
        && ExplainedAfter(w, authority, program, ixs, i, d, a);
    assert longer[a] == ixs[a];
    if d.status == STATUS_SETTLED {
      var b :| a < b < |ixs| && SettledByIx(w, authority, program, ixs[b], i, d)
               && (d.entryOddsProven ==> ProvenAfter(w, authority, program, ixs, i, d, b));
      assert longer[b] == ixs[b];
      if d.entryOddsProven {
        var c :| b < c < |ixs| && ProvenBy(w, authority, program, ixs[c], i, d);
        assert longer[c] == ixs[c];
        assert ProvenAfter(w, authority, program, longer, i, d, b);
      }
    } else if d.status == STATUS_VOID {
      var b :| a < b < |ixs| && VoidedBy(w, authority, ixs[b], i, d);
      assert longer[b] == ixs[b];
    }
    assert ExplainedAfter(w, authority, program, longer, i, d, a);
  }

  /** A successful commit writes one open record, just as it was told. */
  lemma CommitExplains(w: World, l: Ledger, ixs: seq<Instruction>, ix: Instruction)
    requires ix.CommitIx? && Exec(w, l, ix).Ok?
    ensures var n := Apply(w, l, ix);
            && ix.target !in l.decisions && n.decisions.Keys == l.decisions.Keys + {ix.target}
            && (forall i :: i in l.decisions ==> n.decisions[i] == l.decisions[i])
            && n.strategy.authority == l.strategy.authority && n.strategy.txlineProgram == l.strategy.txlineProgram
            && Explained(w, n.strategy.authority, n.strategy.txlineProgram, ixs + [ix], ix.target,
                n.decisions[ix.target])
  {
    hide GetCommit, CommittedBy;
    var n := Apply(w, l, ix);
    assert (ixs + [ix])[|ixs|] == ix;
    assert CommittedBy(w, n.strategy.authority, ix, ix.target, n.decisions[ix.target]) by {
      CommitIsOwn(w, l, ix);
    }
    assert ExplainedAfter(w, n.strategy.authority, n.strategy.txlineProgram, ixs + [ix], ix.target,
        n.decisions[ix.target],
                          |ixs|);
  }

  lemma CommitIsOwn(w: World, l: Ledger, ix: Instruction)
    requires ix.CommitIx? && Exec(w, l, ix).Ok?
    ensures ix.target in Apply(w, l, ix).decisions
    ensures CommittedBy(w, l.strategy.authority, ix, ix.target, Apply(w, l, ix).decisions[ix.target])
  {
  }

  /** One record has moved on; what it sealed, when, and every other record are as they were. */
  ghost predicate MovesOn(l: Ledger, n: Ledger, i: nat) {
    && i in l.decisions && n.decisions.Keys == l.decisions.Keys
    && (forall k :: k in l.decisions && k != i ==> n.decisions[k] == l.decisions[k])
    && n.strategy.authority == l.strategy.authority && n.strategy.txlineProgram == l.strategy.txlineProgram
    && var was, now := l.decisions[i], n.decisions[i];
       && now.index == was.index && now.strategy == was.strategy && now.commitHash == was.commitHash
       && now.fixtureId == was.fixtureId && now.market == was.market && now.commitSlot == was.commitSlot
       && now.commitUnixTs == was.commitUnixTs
  }

  lemma SettleMovesOn(w: World, l: Ledger, ix: Instruction)
    requires ix.SettleIx? && Exec(w, l, ix).Ok?
    ensures MovesOn(l, Apply(w, l, ix), ix.target)
    ensures var was, now := l.decisions[ix.target], Apply(w, l, ix).decisions[ix.target];
            && was.status == STATUS_OPEN && now.status == STATUS_SETTLED && now.entryOddsProven == was.entryOddsProven
            && SettledByIx(w, l.strategy.authority, l.strategy.txlineProgram, ix, ix.target, now)
  {
    hide GetSettle, CommitHash, ComputePnlChecked, ApplyPnl;
    var args, pnl := SettleEffect(w, l, ix);
    ExactlyOneClaimHolds(args.claimedResult, args.statHome.statToProve.statValue, args.statAway.statToProve.statValue);
  }

  lemma ProveMovesOn(w: World, l: Ledger, ix: Instruction)
    requires ix.ProveIx? && Exec(w, l, ix).Ok?
    ensures MovesOn(l, Apply(w, l, ix), ix.target)
    ensures var was, now := l.decisions[ix.target], Apply(w, l, ix).decisions[ix.target];
            && was.status == STATUS_SETTLED && !was.entryOddsProven && now == was.(entryOddsProven := true)
            && ProvenBy(w, l.strategy.authority, l.strategy.txlineProgram, ix, ix.target, now)
  {
    hide GetProveOdds, CommitHash;
  }

  lemma VoidMovesOn(w: World, l: Ledger, ix: Instruction)
    requires ix.VoidIx? && Exec(w, l, ix).Ok?
    ensures MovesOn(l, Apply(w, l, ix), ix.target)
    ensures var was, now := l.decisions[ix.target], Apply(w, l, ix).decisions[ix.target];
            && was.status == STATUS_OPEN && now.status == STATUS_VOID && now.entryOddsProven == was.entryOddsProven
            && (was.outcomeSide == 0 ==> VoidedBy(w, l.strategy.authority, ix, ix.target, now))
  {
    hide GetReveal, CommitHash;
  }

  /** A proof of the odds leaves a settled record's settlement as it was. */
  lemma ProvenKeepsSettlement(
    w: World, authority: seq<byte>, program: seq<byte>, ix: Instruction, i: nat, was: DecisionAccount,
        now: DecisionAccount)
    requires SettledByIx(w, authority, program, ix, i, was) && now == was.(entryOddsProven := true)
    ensures SettledByIx(w, authority, program, ix, i, now)
  {
  }

  /** A record that was open is explained by its commit and the instruction that closed it. */
  lemma ClosedIsExplained(
    w: World, authority: seq<byte>, program: seq<byte>, ixs: seq<Instruction>, ix: Instruction, i: nat,
    was: DecisionAccount, now: DecisionAccount)
    requires Explained(w, authority, program, ixs, i, was) && was.status == STATUS_OPEN
    requires forall cix :: CommittedBy(w, authority, cix, i, was) ==> CommittedBy(w, authority, cix, i, now)
    requires !now.entryOddsProven
    requires || (now.status == STATUS_SETTLED && SettledByIx(w, authority, program, ix, i, now))
             || (now.status == STATUS_VOID && (was.outcomeSide == 0 ==> VoidedBy(w, authority, ix, i, now)))
    ensures Explained(w, authority, program, ixs + [ix], i, now)
  {
    hide CommittedBy, SettledByIx, VoidedBy, ProvenBy, ProvenAfter;
    var longer := ixs + [ix];
    var a :| 0 <= a < |ixs| && CommittedBy(w, authority, ixs[a], i, was)
             && ExplainedAfter(w, authority, program, ixs, i, was, a);
    assert longer[a] == ixs[a] && longer[|ixs|] == ix;
    assert CommittedBy(w, authority, longer[a], i, now);
    assert ExplainedAfter(w, authority, program, longer, i, now, a);
  }

  /** A settled record that is now proven is explained by what settled it and the proof. */
  lemma ProvenIsExplained(
    w: World, authority: seq<byte>, program: seq<byte>, ixs: seq<Instruction>, ix: Instruction, i: nat,
    was: DecisionAccount, now: DecisionAccount)
    requires Explained(w, authority, program, ixs, i, was) && was.status == STATUS_SETTLED
    requires forall cix :: CommittedBy(w, authority, cix, i, was) ==> CommittedBy(w, authority, cix, i, now)
    requires now == was.(entryOddsProven := true) && ProvenBy(w, authority, program, ix, i, now)
    ensures Explained(w, authority, program, ixs + [ix], i, now)
  {
    hide CommittedBy, SettledByIx, VoidedBy, ProvenBy;
    var longer := ixs + [ix];
    var a :| 0 <= a < |ixs| && CommittedBy(w, authority, ixs[a], i, was)
             && ExplainedAfter(w, authority, program, ixs, i, was, a);
    var b :| a < b < |ixs| && SettledByIx(w, authority, program, ixs[b], i, was);
    assert longer[a] == ixs[a] && longer[b] == ixs[b] && longer[|ixs|] == ix;
    ProvenKeepsSettlement(w, authority, program, ixs[b], i, was, now);
    assert ProvenAfter(w, authority, program, longer, i, now, b);
    assert CommittedBy(w, authority, longer[a], i, now);
    assert ExplainedAfter(w, authority, program, longer, i, now, a);
  }

  lemma OriginKept(w: World, authority: seq<byte>, cix: Instruction, l: Ledger, n: Ledger, i: nat)
    requires MovesOn(l, n, i) && CommittedBy(w, authority, cix, i, l.decisions[i])
    ensures CommittedBy(w, authority, cix, i, n.decisions[i])
  {
    hide GetCommit;
  }

  /** An open record has no odds proven. */
  lemma OpenIsUnproven(
    w: World, authority: seq<byte>, program: seq<byte>, ixs: seq<Instruction>, i: nat, d: DecisionAccount)
    requires Explained(w, authority, program, ixs, i, d) && d.status == STATUS_OPEN
    ensures !d.entryOddsProven && d.outcomeSide == 0
  {
    hide CommittedBy;
  }

  /** The record an instruction moves on is explained by the run up to and including it. */
  lemma MovedIsExplained(w: World, l: Ledger, ixs: seq<Instruction>, ix: Instruction)
    requires !ix.CommitIx? && Exec(w, l, ix).Ok? && AllExplained(w, l, ixs)
    ensures MovesOn(l, Apply(w, l, ix), ix.target)
    ensures var n := Apply(w, l, ix);
            Explained(w, n.strategy.authority, n.strategy.txlineProgram, ixs + [ix], ix.target, n.decisions[ix.target])
  {
    hide Exec, Apply, SettledByIx, VoidedBy, ProvenBy, CommittedBy, Explained;
    var n := Apply(w, l, ix);
    var authority, program, i := l.strategy.authority, l.strategy.txlineProgram, ix.target;
    match ix {
      case SettleIx(_, _, _, _, _, _) => SettleMovesOn(w, l, ix);
      case ProveIx(_, _, _, _, _) => ProveMovesOn(w, l, ix);
      case VoidIx(_, _, _, _, _) => VoidMovesOn(w, l, ix);
    }
    var was, now := l.decisions[i], n.decisions[i];
    forall cix | CommittedBy(w, authority, cix, i, was)
      ensures CommittedBy(w, authority, cix, i, now)
    {
      OriginKept(w, authority, cix, l, n, i);
    }
    if ix.ProveIx? {
      ProvenIsExplained(w, authority, program, ixs, ix, i, was, now);
    } else {
      OpenIsUnproven(w, authority, program, ixs, i, was);
      ClosedIsExplained(w, authority, program, ixs, ix, i, was, now);
    }
  }

  lemma ApplyKeepsExplained(w: World, l: Ledger, ixs: seq<Instruction>, ix: Instruction)
    requires AllExplained(w, l, ixs)
    ensures AllExplained(w, Apply(w, l, ix), ixs + [ix])
  {
    hide Exec, Explained;
    var n := Apply(w, l, ix);
    if Exec(w, l, ix).Ok? {
      if ix.CommitIx? {
        CommitExplains(w, l, ixs, ix);
      } else {
        MovedIsExplained(w, l, ixs, ix);
      }
    }
    forall i | i in n.decisions
      ensures Explained(w, n.strategy.authority, n.strategy.txlineProgram, ixs + [ix], i, n.decisions[i])
    {
      if Exec(w, l, ix).Err? || i != ix.target {
        StaysExplained(w, l.strategy.authority, l.strategy.txlineProgram, ixs, ix, i, l.decisions[i]);
      }
    }
  }

  /** Whatever has been sent to a fresh ledger, each of its records was committed by an instruction that carried
      what it seals, at the time it shows; settled, if it is, by a later one whose attestation gives its outcome
      and PnL; voided, if it is, by a later one that revealed it within six hours; proven, if it is, by a still
      later one whose snapshot quotes the sealed odds. An open record is as its commit left it. */
  lemma {:induction false} EveryRecordIsExplained(
    w: World, authority: seq<byte>, id: int, program: seq<byte>, bankroll: int, bump: int, ixs: seq<Instruction>)
    ensures AllExplained(w, ApplyAll(w, Initialize(authority, id, program, bankroll, bump), ixs), ixs)
    ensures var s := ApplyAll(w, Initialize(authority, id, program, bankroll, bump), ixs).strategy;
            && s.authority == authority && s.strategyId == id && s.txlineProgram == program
            && s.startingBankroll == bankroll && s.bump == bump
  {
    hide Exec, Explained;
    if |ixs| > 0 {
      var front, last := ixs[..|ixs| - 1], ixs[|ixs| - 1];
      EveryRecordIsExplained(w, authority, id, program, bankroll, bump, front);
      var l := ApplyAll(w, Initialize(authority, id, program, bankroll, bump), front);
      ApplyKeepsExplained(w, l, front, last);
      IdentityIsKept(w, l, last);
      assert front + [last] == ixs;
    }
  }

  lemma IdentityIsKept(w: World, l: Ledger, ix: Instruction)
    ensures var s, n := l.strategy, Apply(w, l, ix).strategy;
            && n.authority == s.authority && n.strategyId == s.strategyId && n.txlineProgram == s.txlineProgram
            && n.startingBankroll == s.startingBankroll && n.bump == s.bump
  {
    hide GetSettle, GetReveal, GetCommit, GetProveOdds, SettleCheck, ProveCheck, ComputePnlChecked, ApplyPnl;
    if ix.SettleIx? && Exec(w, l, ix).Ok? {
      var args, pnl := SettleEffect(w, l, ix);
    }
  }

  // ---------------------------------------------------------------------------------------------
  // When an instruction fails, and with what

  /** The order in which faults are reported. */
  function Severity(e: LedgerError): nat {
    match e
    case BadInstructionData => 0
    case HasOneViolation => 1
    case SeedsViolation => 2
    case AccountInUse => 3
    case AccountMissing => 4
    case NotOpen => 5
    case NotSettled => 5
    case OddsAlreadyProven => 6
    case CommitMismatch => 7
    case RoutingMismatch => 8
    case InvalidSide => 9
    case FixtureMismatch => 10
    case StatKeyMismatch => 11
    case OddsMarketMismatch => 11
    case OddsIndexOutOfRange => 12
    case OddsSideMismatch => 13
    case OddsPriceMismatch => 14
    case TxlineProgramMismatch => 15
    case InvalidClaim => 16
    case InvalidRootsPda => 17
    case OracleRejected => 18
    case Overflow => 19
    case VoidGraceElapsed => 20
  }

  predicate Outside(v: int, low: int, high: int) { v < low || high < v }

  /** Day d of the roots covering a millisecond timestamp. */
  predicate OnDay(tsMs: int, d: int) { d * MS_PER_DAY <= tsMs < (d + 1) * MS_PER_DAY }

  /** No u16 day covers the timestamp, or the account handed in is not that day's roots. */
  ghost predicate WrongRoots(
    find: (seq<byte>, seq<byte>) -> seq<byte>, program: seq<byte>, tsMs: int, roots: seq<byte>)
  {
    forall d :: 0 <= d < 0x1_0000 && OnDay(tsMs, d) ==> roots != find(LittleEndian(2, d), program)
  }

  predicate WrongRoute(w: World, r: RevealArgs, d: DecisionAccount) {
    r.fixtureId != d.fixtureId || r.market != d.market || r.strategy != w.strategyKey
  }

  /** What a failure of settle_decision alleges. */
  ghost predicate SettleAlleges(e: LedgerError, w: World, l: Ledger, ix: Instruction)
    requires ix.SettleIx?
  {
    match e
    case BadInstructionData => GetSettle(ix.data).None?
    case HasOneViolation => ix.signer != l.strategy.authority
    case AccountMissing => ix.target !in l.decisions
    case _ =>
      && GetSettle(ix.data).Some? && ix.target in l.decisions
      && SettleFaulty(e, w, l.strategy, l.decisions[ix.target], GetSettle(ix.data).value.0, ix.program, ix.roots)
  }

  ghost predicate SettleFaulty(
    e: LedgerError, w: World, s: StrategyAccount, d: DecisionAccount, args: SettleArgs, program: seq<byte>,
        roots: seq<byte>)
  {
    var home, away := args.statHome.statToProve, args.statAway.statToProve;
    match e
    case NotOpen => d.status != STATUS_OPEN
    case CommitMismatch => w.keccak(PutReveal(args.sealed, [])) != d.commitHash
    case RoutingMismatch => WrongRoute(w, args.sealed, d)
    case InvalidSide => args.sealed.side !in {SIDE_HOME, SIDE_DRAW, SIDE_AWAY}
    case FixtureMismatch => args.fixtureSummary.fixtureId != d.fixtureId
    case StatKeyMismatch => (home.key, away.key) != (1, 2) || (home.period, away.period) != (0, 0)
    case TxlineProgramMismatch => program != s.txlineProgram
    case InvalidClaim => args.claimedResult !in {SIDE_HOME, SIDE_DRAW, SIDE_AWAY}
    case InvalidRootsPda => WrongRoots(w.scoresRoots, s.txlineProgram, args.ts, roots)
    case OracleRejected =>
      !w.statProven(roots, args) || args.claimedResult != SideOfGoals(home.statValue, away.statValue)
    case Overflow => SettleOverflows(s, args.claimedResult == args.sealed.side, args.sealed)
    case _ => false
  }

  /** Some number of the settlement leaves its field. */
  predicate SettleOverflows(s: StrategyAccount, won: bool, r: RevealArgs) {
    var gross := r.stake * (r.entryOddsMilli - 1000);
    var pnl := if won then gross / 1000 else -r.stake;
    || (won && (r.entryOddsMilli < 1000 || gross > U64_MAX || pnl > I64_MAX))
    || (!won && r.stake > I64_MAX)
    || Outside(s.realizedPnl + pnl, I64_MIN, I64_MAX)
    || (0 <= pnl && s.bankroll + pnl > U64_MAX)
    || s.openCount < 1 || s.settledCount + 1 > U64_MAX
    || (if won then s.wins else s.losses) + 1 > U32_MAX
  }

  lemma DayIsCovered(tsMs: int)
    ensures match EpochDayLe(tsMs)
            case None => forall d :: 0 <= d < 0x1_0000 ==> !OnDay(tsMs, d)
            case Some(day) =>
              exists d :: 0 <= d < 0x1_0000 && OnDay(tsMs, d) && day == LittleEndian(2, d)
                          && forall k :: OnDay(tsMs, k) ==> k == d
  {
    hide LittleEndian;
    var d := tsMs / MS_PER_DAY;
    assert OnDay(tsMs, d);
    forall k | OnDay(tsMs, k)
      ensures k == d
    {
    }
  }

  /** The checks before the accounting, fault by fault. */
  lemma SettleCheckNamesFault(
    w: World, s: StrategyAccount, d: DecisionAccount, args: SettleArgs, program: seq<byte>, roots: seq<byte>)
    ensures match SettleCheck(w, s, d, args, program, roots)
            case None => forall e :: SettleFaulty(e, w, s, d, args, program, roots) ==> e == Overflow
            case Some(e) =>
              && Severity(NotOpen) <= Severity(e) < Severity(Overflow) && SettleFaulty(e, w, s, d, args, program, roots)
              && forall f :: Severity(f) < Severity(e) ==> !SettleFaulty(f, w, s, d, args, program, roots)
  {
    hide PutReveal, EpochDayLe, OnDay, LittleEndian, SettleOverflows;
    DayIsCovered(args.ts);
    ExactlyOneClaimHolds(args.claimedResult, args.statHome.statToProve.statValue, args.statAway.statToProve.statValue);
  }

  /** settle_decision fails with the first fault it finds, in order, and succeeds exactly when there is none. */
  lemma SettleNamesFirstFault(w: World, l: Ledger, ix: Instruction)
    requires ix.SettleIx?
    ensures match Exec(w, l, ix)
            case Ok(_) => forall e :: !SettleAlleges(e, w, l, ix)
            case Err(e) =>
              SettleAlleges(e, w, l, ix) && forall f :: Severity(f) < Severity(e) ==> !SettleAlleges(f, w, l, ix)
  {
    hide GetSettle, SettleOverflows, ComputePnlChecked, BookSettle, SettleCheck, SettleFaulty;
    if GetSettle(ix.data).Some? && ix.target in l.decisions {
      var args, d, s := GetSettle(ix.data).value.0, l.decisions[ix.target], l.strategy;
      SettleCheckNamesFault(w, s, d, args, ix.program, ix.roots);
      SettleFrameworkFaults(w, s, d, args, ix.program, ix.roots);
      OverflowIff(s, Won(args), args.sealed);
    }
  }

  /** Which faults are not the record's, and what an overflow is. */
  lemma SettleFrameworkFaults(
    w: World, s: StrategyAccount, d: DecisionAccount, args: SettleArgs, program: seq<byte>, roots: seq<byte>)
    ensures forall e :: SettleFaulty(e, w, s, d, args, program, roots) ==> Severity(NotOpen) <= Severity(e)
    ensures SettleFaulty(Overflow, w, s, d, args, program, roots) <==> SettleOverflows(s, Won(args), args.sealed)
    ensures forall e :: Severity(e) == Severity(Overflow) ==> e == Overflow
  {
    hide PutReveal, OnDay, LittleEndian, SettleOverflows;
  }

  lemma OverflowIff(s: StrategyAccount, won: bool, r: RevealArgs)
    ensures var pnl := ComputePnlChecked(won, r.stake, r.entryOddsMilli);
            (pnl.None? || BookSettle(s, won, pnl.value).None?) <==> SettleOverflows(s, won, r)
  {
  }

  /** What a failure of prove_entry_odds alleges. */
  ghost predicate ProveAlleges(e: LedgerError, w: World, l: Ledger, ix: Instruction)
    requires ix.ProveIx?
  {
    match e
    case BadInstructionData => GetProveOdds(ix.data).None?
    case HasOneViolation => ix.signer != l.strategy.authority
    case AccountMissing => ix.target !in l.decisions
    case _ =>
      && GetProveOdds(ix.data).Some? && ix.target in l.decisions
      && ProveFaulty(e, w, l.strategy, l.decisions[ix.target], GetProveOdds(ix.data).value.0, ix.program, ix.roots)
  }

  ghost predicate ProveFaulty(
    e: LedgerError, w: World, s: StrategyAccount, d: DecisionAccount, args: ProveOddsArgs, program: seq<byte>,
    roots: seq<byte>)
  {
    var o, k := args.oddsSnapshot, args.sideIndex;
    var quoted := |o.priceNames| == |o.prices| && 0 <= k < |o.prices|;
    match e
    case NotSettled => d.status != STATUS_SETTLED
    case OddsAlreadyProven => d.entryOddsProven
    case CommitMismatch => w.keccak(PutReveal(args.sealed, [])) != d.commitHash
    case RoutingMismatch => WrongRoute(w, args.sealed, d)
    case InvalidSide => args.sealed.side !in {SIDE_HOME, SIDE_DRAW, SIDE_AWAY}
    case FixtureMismatch => o.fixtureId != d.fixtureId
    case OddsMarketMismatch => o.superOddsType != w.resultMarket
    case OddsIndexOutOfRange => !quoted
    case OddsSideMismatch => quoted && !w.sideMatchesLabel(args.sealed.side, o.priceNames[k])
    case OddsPriceMismatch => quoted && (o.prices[k] < 0 || o.prices[k] != args.sealed.entryOddsMilli)
    case TxlineProgramMismatch => program != s.txlineProgram
    case InvalidRootsPda => WrongRoots(w.oddsRoots, s.txlineProgram, args.ts, roots)
    case OracleRejected => !w.oddsProven(roots, args)
    case _ => false
  }

  /** prove_entry_odds fails with the first fault it finds, in order, and succeeds exactly when there is none. */
  lemma ProveNamesFirstFault(w: World, l: Ledger, ix: Instruction)
    requires ix.ProveIx?
    ensures match Exec(w, l, ix)
            case Ok(_) => forall e :: !ProveAlleges(e, w, l, ix)
            case Err(e) =>
              ProveAlleges(e, w, l, ix) && forall f :: Severity(f) < Severity(e) ==> !ProveAlleges(f, w, l, ix)
  {
    hide GetProveOdds, ProveCheck, ProveFaulty;
    if GetProveOdds(ix.data).Some? && ix.target in l.decisions {
      ProveCheckNamesFault(w, l, l.decisions[ix.target], GetProveOdds(ix.data).value.0, ix.program, ix.roots);
    }
  }

  /** The checks of a proof, fault by fault. */
  lemma ProveCheckNamesFault(
    w: World, l: Ledger, d: DecisionAccount, args: ProveOddsArgs, program: seq<byte>, roots: seq<byte>)
    ensures forall e :: ProveFaulty(e, w, l.strategy, d, args, program, roots) ==> Severity(NotSettled) <= Severity(e)
    ensures match ProveCheck(w, l, d, args, program, roots)
            case None => forall e :: !ProveFaulty(e, w, l.strategy, d, args, program, roots)
            case Some(e) =>
              && Severity(NotSettled) <= Severity(e) && ProveFaulty(e, w, l.strategy, d, args, program, roots)
              && forall f :: Severity(f) < Severity(e) ==> !ProveFaulty(f, w, l.strategy, d, args, program, roots)
  {
    hide PutReveal, EpochDayLe, OnDay, LittleEndian;
    DayIsCovered(args.ts);
  }

  /** What a failure of commit_decision alleges. */
  ghost predicate CommitAlleges(e: LedgerError, l: Ledger, ix: Instruction)
    requires ix.CommitIx?
  {
    match e
    case BadInstructionData => GetCommit(ix.data).None?
    case HasOneViolation => ix.signer != l.strategy.authority
    case SeedsViolation => ix.target != l.strategy.decisionsCount
    case AccountInUse => ix.target in l.decisions
    case Overflow => l.strategy.decisionsCount + 1 > U64_MAX || l.strategy.openCount + 1 > U64_MAX
    case _ => false
  }

  /** commit_decision fails with the first fault it finds, in order, and succeeds exactly when there is none. */
  lemma CommitNamesFirstFault(w: World, l: Ledger, ix: Instruction)
    requires ix.CommitIx?
    ensures match Exec(w, l, ix)
            case Ok(_) => forall e :: !CommitAlleges(e, l, ix)
            case Err(e) => CommitAlleges(e, l, ix) && forall f :: Severity(f) < Severity(e) ==> !CommitAlleges(f, l, ix)
  {
    hide GetCommit, LittleEndian;
  }

  /** What a failure of void_decision alleges. */
  ghost predicate VoidAlleges(e: LedgerError, w: World, l: Ledger, ix: Instruction)
    requires ix.VoidIx?
  {
    match e
    case BadInstructionData => GetReveal(ix.data).None? || GetReveal(ix.data).value.1 == []
    case HasOneViolation => ix.signer != l.strategy.authority
    case AccountMissing => ix.target !in l.decisions
    case _ =>
      && GetReveal(ix.data).Some? && ix.target in l.decisions
      && VoidFaulty(e, w, l.strategy, l.decisions[ix.target], GetReveal(ix.data).value.0, ix.unixTs)
  }

  /** An elapsed time outside i64 is an overflow too, found before the grace period is looked at. */
  ghost predicate VoidFaulty(
    e: LedgerError, w: World, s: StrategyAccount, d: DecisionAccount, sealed: RevealArgs, unixTs: int)
  {
    var elapsed := unixTs - d.commitUnixTs;
    match e
    case NotOpen => d.status != STATUS_OPEN
    case CommitMismatch => w.keccak(PutReveal(sealed, [])) != d.commitHash
    case Overflow =>
      Outside(elapsed, I64_MIN, I64_MAX) || (elapsed <= 6 * 60 * 60 && (s.openCount < 1 || s.pushes + 1 > U32_MAX))
    case VoidGraceElapsed => 6 * 60 * 60 < elapsed
    case _ => false
  }

  /** void_decision fails with the first fault it finds, in order, and succeeds exactly when there is none. */
  lemma VoidNamesFirstFault(w: World, l: Ledger, ix: Instruction)
    requires ix.VoidIx?
    ensures match Exec(w, l, ix)
            case Ok(_) => forall e :: !VoidAlleges(e, w, l, ix)
            case Err(e) =>
              VoidAlleges(e, w, l, ix) && forall f :: Severity(f) < Severity(e) ==> !VoidAlleges(f, w, l, ix)
  {
    hide GetReveal, PutReveal;
  }
}
