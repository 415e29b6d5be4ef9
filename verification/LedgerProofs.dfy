/** What holds of the ledger over every instruction sequence. */
module LedgerProofs {
  import opened Prelude
  import opened Bytes
  import opened Borsh
  import opened AccountDecode
  import opened Walk
  import opened LedgerModel
  import Domain

  // ---------------------------------------------------------------------------------------------
  // Accounting

  /** How many of the first n decisions have a status. */
  function CountWith(decisions: map<nat, DecisionAccount>, n: nat, status: int): nat {
    if n == 0 then 0
    else CountWith(decisions, n - 1, status)
         + if n - 1 in decisions && decisions[n - 1].status == status then 1 else 0
  }

  function TotalPnl(decisions: map<nat, DecisionAccount>, n: nat): int {
    if n == 0 then 0
    else TotalPnl(decisions, n - 1) + if n - 1 in decisions then decisions[n - 1].pnl else 0
  }

  lemma {:induction false} CountAfterUpdate(
    decisions: map<nat, DecisionAccount>, n: nat, status: int, k: nat, d: DecisionAccount)
    requires k in decisions || n <= k
    ensures CountWith(decisions[k := d], n, status)
         == CountWith(decisions, n, status)
            + (if k < n && d.status == status then 1 else 0)
            - (if k < n && decisions[k].status == status then 1 else 0)
  {
    if n > 0 {
      CountAfterUpdate(decisions, n - 1, status, k, d);
    }
  }

  lemma {:induction false} TotalAfterUpdate(decisions: map<nat, DecisionAccount>, n: nat, k: nat, d: DecisionAccount)
    requires k in decisions || n <= k
    ensures TotalPnl(decisions[k := d], n) == TotalPnl(decisions, n) + if k < n then d.pnl - decisions[k].pnl else 0
  {
    if n > 0 {
      TotalAfterUpdate(decisions, n - 1, k, d);
    }
  }

  lemma {:induction false} CountsCoverAll(decisions: map<nat, DecisionAccount>, n: nat)
    requires forall i :: 0 <= i < n ==> i in decisions && decisions[i].status in {STATUS_OPEN, STATUS_SETTLED, STATUS_VOID}
    ensures CountWith(decisions, n, STATUS_OPEN) + CountWith(decisions, n, STATUS_SETTLED)
            + CountWith(decisions, n, STATUS_VOID) == n
  {
    if n > 0 {
      CountsCoverAll(decisions, n - 1);
    }
  }

  /** One decision's record is consistent with its place in the lifecycle. */
  predicate WellFormed(w: World, d: DecisionAccount, i: nat) {
    && d.index == i && d.strategy == w.strategyKey
    && d.status in {STATUS_OPEN, STATUS_SETTLED, STATUS_VOID}
    && (d.status != STATUS_SETTLED ==> d.pnl == 0 && !d.entryOddsProven)
  }

  ghost predicate Dense(w: World, l: Ledger) {
    && 0 <= l.strategy.decisionsCount
    && (forall i: nat :: i in l.decisions <==> i < l.strategy.decisionsCount)
    && (forall i: nat :: i in l.decisions ==> WellFormed(w, l.decisions[i], i))
  }

  predicate Balanced(s: StrategyAccount, decisions: map<nat, DecisionAccount>)
    requires 0 <= s.decisionsCount
  {
    && s.openCount == CountWith(decisions, s.decisionsCount, STATUS_OPEN)
    && s.settledCount == CountWith(decisions, s.decisionsCount, STATUS_SETTLED)
    && s.pushes == CountWith(decisions, s.decisionsCount, STATUS_VOID)
    && s.wins + s.losses == s.settledCount
    && s.realizedPnl == TotalPnl(decisions, s.decisionsCount)
  }

  ghost predicate Accounted(w: World, l: Ledger) {
    Dense(w, l) && Balanced(l.strategy, l.decisions)
  }

  /** A successful settle, seen from outside the handler. */
  lemma SettleEffect(w: World, l: Ledger, ix: Instruction) returns (args: SettleArgs, pnl: int)
    requires ix.SettleIx? && Exec(w, l, ix).Ok?
    ensures GetSettle(ix.data).Some? && args == GetSettle(ix.data).value.0
    ensures ix.target in l.decisions
    ensures SettleCheck(w, l.strategy, l.decisions[ix.target], args, ix.program, ix.roots) == None
    ensures Some(pnl) == ComputePnlChecked(Won(args), args.sealed.stake, args.sealed.entryOddsMilli)
    ensures BookSettle(l.strategy, Won(args), pnl).Some?
    ensures Apply(w, l, ix) == Ledger(BookSettle(l.strategy, Won(args), pnl).value,
              l.decisions[ix.target := l.decisions[ix.target].(status := STATUS_SETTLED,
                outcomeSide := args.claimedResult, pnl := pnl, settleSlot := ix.slot)])
  {
    args := GetSettle(ix.data).value.0;
    pnl := ComputePnlChecked(Won(args), args.sealed.stake, args.sealed.entryOddsMilli).value;
  }

  /** A successful commit appends one open record and folds it into the root. */
  lemma CommitEffect(w: World, l: Ledger, ix: Instruction) returns (d: DecisionAccount)
    requires ix.CommitIx? && Exec(w, l, ix).Ok?
    ensures ix.target == l.strategy.decisionsCount && ix.target !in l.decisions
    ensures GetCommit(ix.data).Some? && GetCommit(ix.data).value.0 == CommitArgs(d.commitHash, d.fixtureId, d.market)
    ensures WellFormed(w, d, ix.target) && d.status == STATUS_OPEN && |d.commitHash| == 32
    ensures Apply(w, l, ix) == Ledger(
              l.strategy.(commitLogRoot := w.keccak(l.strategy.commitLogRoot + d.commitHash + LittleEndian(8, ix.target)),
                          decisionsCount := l.strategy.decisionsCount + 1, openCount := l.strategy.openCount + 1),
              l.decisions[ix.target := d])
  {
    d := Apply(w, l, ix).decisions[ix.target];
  }

  lemma CommitKeepsAccounts(w: World, l: Ledger, ix: Instruction)
    requires Accounted(w, l) && ix.CommitIx? && Exec(w, l, ix).Ok?
    ensures Accounted(w, Apply(w, l, ix))
  {
    var d := CommitEffect(w, l, ix);
    AppendKeepsAccounts(w, l, d, Apply(w, l, ix).strategy);
  }

  /** Appending one open record. */
  lemma AppendKeepsAccounts(w: World, l: Ledger, d: DecisionAccount, s: StrategyAccount)
    requires Accounted(w, l) && WellFormed(w, d, l.strategy.decisionsCount) && d.status == STATUS_OPEN
    requires s == l.strategy.(commitLogRoot := s.commitLogRoot, decisionsCount := l.strategy.decisionsCount + 1,
                              openCount := l.strategy.openCount + 1)
    ensures Accounted(w, Ledger(s, l.decisions[l.strategy.decisionsCount as nat := d]))
  {
    var count: nat := l.strategy.decisionsCount;
    CountAfterUpdate(l.decisions, count, STATUS_OPEN, count, d);
    CountAfterUpdate(l.decisions, count, STATUS_SETTLED, count, d);
    CountAfterUpdate(l.decisions, count, STATUS_VOID, count, d);
    TotalAfterUpdate(l.decisions, count, count, d);
  }

  /** Changing one record in place moves the counts and the total by that record's own change. */
  lemma ReplaceKeepsAccounts(w: World, l: Ledger, k: nat, d: DecisionAccount, s: StrategyAccount)
    requires Accounted(w, l) && k in l.decisions && WellFormed(w, d, k)
    requires s.decisionsCount == l.strategy.decisionsCount
    requires var was := l.decisions[k];
      && s.openCount == l.strategy.openCount + (if d.status == STATUS_OPEN then 1 else 0)
                        - (if was.status == STATUS_OPEN then 1 else 0)
      && s.settledCount == l.strategy.settledCount + (if d.status == STATUS_SETTLED then 1 else 0)
                           - (if was.status == STATUS_SETTLED then 1 else 0)
      && s.pushes == l.strategy.pushes + (if d.status == STATUS_VOID then 1 else 0)
                     - (if was.status == STATUS_VOID then 1 else 0)
      && s.wins + s.losses == s.settledCount
      && s.realizedPnl == l.strategy.realizedPnl + d.pnl - was.pnl
    ensures Accounted(w, Ledger(s, l.decisions[k := d]))
  {
    var count: nat := l.strategy.decisionsCount;
    CountAfterUpdate(l.decisions, count, STATUS_OPEN, k, d);
    CountAfterUpdate(l.decisions, count, STATUS_SETTLED, k, d);
    CountAfterUpdate(l.decisions, count, STATUS_VOID, k, d);
    TotalAfterUpdate(l.decisions, count, k, d);
  }

  lemma ApplyKeepsAccounts(w: World, l: Ledger, ix: Instruction)
    requires Accounted(w, l)
    ensures Accounted(w, Apply(w, l, ix))
  {
    if Exec(w, l, ix).Ok? {
      match ix
      case CommitIx(_, _, _, _, _) => CommitKeepsAccounts(w, l, ix);
      case SettleIx(_, target, _, _, _, slot) =>
        var args, pnl := SettleEffect(w, l, ix);
        var n := Apply(w, l, ix);
        ReplaceKeepsAccounts(w, l, target, n.decisions[target], n.strategy);
      case ProveIx(_, target, _, _, _) =>
        var n := Apply(w, l, ix);
        ReplaceKeepsAccounts(w, l, target, n.decisions[target], n.strategy);
      case VoidIx(_, target, _, _, _) =>
        var n := Apply(w, l, ix);
        ReplaceKeepsAccounts(w, l, target, n.decisions[target], n.strategy);
    }
  }

  lemma FreshIsAccounted(w: World, authority: seq<byte>, id: int, program: seq<byte>, bankroll: int, bump: int)
    ensures Accounted(w, Initialize(authority, id, program, bankroll, bump))
  {
  }

  /** Ledger accounting, over every instruction sequence: the three counters are the counts of open, settled
      and void decisions and add up to the number committed, and realized PnL is the sum over decisions. */
  lemma {:induction false} LedgerAccounting(w: World, l: Ledger, ixs: seq<Instruction>)
    requires Accounted(w, l)
    ensures var s := ApplyAll(w, l, ixs).strategy;
            && Accounted(w, ApplyAll(w, l, ixs))
            && s.openCount + s.settledCount + s.pushes == s.decisionsCount
  {
    if |ixs| > 0 {
      LedgerAccounting(w, l, ixs[..|ixs| - 1]);
      ApplyKeepsAccounts(w, ApplyAll(w, l, ixs[..|ixs| - 1]), ixs[|ixs| - 1]);
    }
    var n := ApplyAll(w, l, ixs);
    CountsCoverAll(n.decisions, n.strategy.decisionsCount);
  }

  // ---------------------------------------------------------------------------------------------
  // Lifecycle: what an account may become

  /** From one moment to a later one: the sealed and routing fields never change, settled and void are
      terminal, a settled result is never rewritten, and proof of the odds is never withdrawn. */
  predicate Evolves(a: DecisionAccount, b: DecisionAccount) {
    && b.strategy == a.strategy && b.index == a.index && b.commitHash == a.commitHash && b.fixtureId == a.fixtureId
    && b.market == a.market && b.commitSlot == a.commitSlot && b.commitUnixTs == a.commitUnixTs && b.bump == a.bump
    && (a.status != STATUS_OPEN ==> b == a.(entryOddsProven := b.entryOddsProven))
    && (a.entryOddsProven ==> b.entryOddsProven)
  }

  ghost predicate LedgerEvolves(a: Ledger, b: Ledger) {
    && a.strategy.authority == b.strategy.authority && a.strategy.txlineProgram == b.strategy.txlineProgram
    && a.strategy.decisionsCount <= b.strategy.decisionsCount
    && forall i :: i in a.decisions ==> i in b.decisions && Evolves(a.decisions[i], b.decisions[i])
  }

  lemma ApplyEvolves(w: World, l: Ledger, ix: Instruction)
    requires Accounted(w, l)
    ensures LedgerEvolves(l, Apply(w, l, ix))
  {
    if Exec(w, l, ix).Ok? {
      match ix
      case CommitIx(_, _, _, _, _) =>
        var d := CommitEffect(w, l, ix);
      case SettleIx(_, _, _, _, _, _) =>
        var args, pnl := SettleEffect(w, l, ix);
      case _ => RecordEvolves(w, l, ix);
    }
  }

  /** Proving odds and voiding change one record's flag or close an open one. */
  lemma RecordEvolves(w: World, l: Ledger, ix: Instruction)
    requires Accounted(w, l) && (ix.ProveIx? || ix.VoidIx?) && Exec(w, l, ix).Ok?
    ensures LedgerEvolves(l, Apply(w, l, ix))
  {
    hide ProveCheck, GetProveOdds, GetReveal, CommitHash, Balanced;
  }

  /** Over any run every existing decision evolves lawfully. */
  lemma {:induction false} RunEvolves(w: World, l: Ledger, ixs: seq<Instruction>)
    requires Accounted(w, l)
    ensures LedgerEvolves(l, ApplyAll(w, l, ixs))
  {
    if |ixs| > 0 {
      var front := ixs[..|ixs| - 1];
      RunEvolves(w, l, front);
      LedgerAccounting(w, l, front);
      ApplyEvolves(w, ApplyAll(w, l, front), ixs[|ixs| - 1]);
    }
  }

  // ---------------------------------------------------------------------------------------------
  // No counter leaves its width

  predicate Between(v: int, low: int, high: int) { low <= v <= high }

  /** The strategy's numbers fit the account's integer fields. */
  predicate InWidth(s: StrategyAccount) {
    && Between(s.bankroll, 0, U64_MAX) && Between(s.realizedPnl, I64_MIN, I64_MAX)
    && Between(s.openCount, 0, U64_MAX) && Between(s.settledCount, 0, U64_MAX) && Between(s.decisionsCount, 0, U64_MAX)
    && Between(s.wins, 0, U32_MAX) && Between(s.losses, 0, U32_MAX) && Between(s.pushes, 0, U32_MAX)
  }

  lemma BookingKeepsWidth(s: StrategyAccount, won: bool, pnl: int)
    requires InWidth(s) && BookSettle(s, won, pnl).Some?
    ensures InWidth(BookSettle(s, won, pnl).value)
  {
  }

  lemma ApplyKeepsWidth(w: World, l: Ledger, ix: Instruction)
    requires InWidth(l.strategy)
    ensures InWidth(Apply(w, l, ix).strategy)
  {
    if ix.SettleIx? && Exec(w, l, ix).Ok? {
      var args, pnl := SettleEffect(w, l, ix);
      BookingKeepsWidth(l.strategy, Won(args), pnl);
    }
  }

  /** The checked arithmetic does its job: in no run does any of the strategy's numbers leave its field. */
  lemma {:induction false} EveryRunStaysInWidth(w: World, l: Ledger, ixs: seq<Instruction>)
    requires InWidth(l.strategy)
    ensures InWidth(ApplyAll(w, l, ixs).strategy)
  {
    if |ixs| > 0 {
      EveryRunStaysInWidth(w, l, ixs[..|ixs| - 1]);
      ApplyKeepsWidth(w, ApplyAll(w, l, ixs[..|ixs| - 1]), ixs[|ixs| - 1]);
    }
  }

  // ---------------------------------------------------------------------------------------------
  // The bankroll is the clamped walk over settlements

  /** PnLs of the settles that succeeded, in order. */
  function SettledPnls(w: World, l: Ledger, ixs: seq<Instruction>): seq<int> {
    if |ixs| == 0 then []
    else
      var front, last := ixs[..|ixs| - 1], ixs[|ixs| - 1];
      var before := ApplyAll(w, l, front);
      var earlier := SettledPnls(w, l, front);
      match Exec(w, before, last)
      case Ok(n) => if last.SettleIx? && last.target in n.decisions
                    then earlier + [n.decisions[last.target].pnl] else earlier
      case Err(_) => earlier
  }

  lemma ApplyPnlClamps(bankroll: int, pnl: int)
    requires 0 <= bankroll && ApplyPnl(bankroll, pnl).Some?
    ensures ApplyPnl(bankroll, pnl).value == Max(0, bankroll + pnl)
  {
  }

  /** The ledger's bankroll after any run is the reflected walk of its settlements, the same closed form as
      the off-chain risk manager's. */
  lemma {:induction false} LedgerBankrollIsWalk(w: World, l: Ledger, ixs: seq<Instruction>)
    requires Accounted(w, l) && 0 <= l.strategy.bankroll
    ensures var pnls := SettledPnls(w, l, ixs);
            ApplyAll(w, l, ixs).strategy.bankroll == Reflected(l.strategy.bankroll, pnls, |pnls|) >= 0
  {
    if |ixs| > 0 {
      var front, last := ixs[..|ixs| - 1], ixs[|ixs| - 1];
      LedgerBankrollIsWalk(w, l, front);
      var before, earlier := ApplyAll(w, l, front), SettledPnls(w, l, front);
      var booked := BankrollStep(w, before, last);
      assert SettledPnls(w, l, ixs) == earlier + booked;
      if |booked| == 1 {
        ReflectedAgrees(l.strategy.bankroll, earlier + booked, earlier, |earlier|);
      }
    }
  }

  /** One instruction books at most one PnL, and moves the bankroll by it and nothing else. */
  lemma BankrollStep(w: World, l: Ledger, ix: Instruction) returns (booked: seq<int>)
    requires 0 <= l.strategy.bankroll
    ensures booked == (match Exec(w, l, ix)
                       case Ok(n) => if ix.SettleIx? && ix.target in n.decisions then [n.decisions[ix.target].pnl] else []
                       case Err(_) => [])
    ensures |booked| <= 1
    ensures Apply(w, l, ix).strategy.bankroll
         == if |booked| == 1 then Max(0, l.strategy.bankroll + booked[0]) else l.strategy.bankroll
  {
    booked := [];
    if ix.SettleIx? && Exec(w, l, ix).Ok? {
      var args, pnl := SettleEffect(w, l, ix);
      ApplyPnlClamps(l.strategy.bankroll, pnl);
      booked := [pnl];
    }
  }

  // ---------------------------------------------------------------------------------------------
  // The commit log root binds the whole commit history

  function Hashes(l: Ledger, n: nat): seq<seq<byte>>
    requires forall i :: 0 <= i < n ==> i in l.decisions
  {
    seq(n, i requires 0 <= i < n => l.decisions[i].commitHash)
  }

  /** The fold of (root, commit hash, index) over a commit history. */
  function RootOf(w: World, hashes: seq<seq<byte>>): seq<byte> {
    if |hashes| == 0 then ZeroRoot()
    else
      var n := |hashes| - 1;
      w.keccak(RootOf(w, hashes[..n]) + hashes[n] + LittleEndian(8, n))
  }

  ghost predicate RootBinds(w: World, l: Ledger) {
    && Dense(w, l)
    && (forall i :: i in l.decisions ==> |l.decisions[i].commitHash| == 32)
    && l.strategy.commitLogRoot == RootOf(w, Hashes(l, l.strategy.decisionsCount))
  }

  /** Anything but a successful commit leaves the root and the commit history alone. */
  lemma OtherInstructionsKeepHistory(w: World, l: Ledger, ix: Instruction)
    requires !ix.CommitIx? || Exec(w, l, ix).Err?
    ensures var n := Apply(w, l, ix);
            && n.strategy.commitLogRoot == l.strategy.commitLogRoot
            && n.strategy.decisionsCount == l.strategy.decisionsCount
            && n.decisions.Keys == l.decisions.Keys
            && forall i :: i in l.decisions ==> n.decisions[i].commitHash == l.decisions[i].commitHash
  {
    hide ProveCheck, SettleCheck, GetProveOdds, GetSettle, GetReveal, CommitHash, ComputePnlChecked;
    if ix.SettleIx? && Exec(w, l, ix).Ok? {
      var args, pnl := SettleEffect(w, l, ix);
    }
  }

  lemma AppendKeepsRoot(w: World, l: Ledger, n: Ledger, d: DecisionAccount)
    requires RootBinds(w, l) && Dense(w, n) && |d.commitHash| == 32
    requires n.strategy.decisionsCount == l.strategy.decisionsCount + 1
    requires n.decisions == l.decisions[l.strategy.decisionsCount := d]
    requires n.strategy.commitLogRoot
          == w.keccak(l.strategy.commitLogRoot + d.commitHash + LittleEndian(8, l.strategy.decisionsCount))
    ensures RootBinds(w, n)
  {
    var before: nat := l.strategy.decisionsCount;
    HashesGrow(l, n, d, before);
    RootGrows(w, Hashes(l, before), d.commitHash);
  }

  lemma HashesGrow(l: Ledger, n: Ledger, d: DecisionAccount, before: nat)
    requires (forall i :: 0 <= i < before ==> i in l.decisions) && n.decisions == l.decisions[before := d]
    ensures Hashes(n, before + 1) == Hashes(l, before) + [d.commitHash] && |Hashes(l, before)| == before
  {
  }

  lemma SameHistoryKeepsRoot(w: World, l: Ledger, n: Ledger)
    requires RootBinds(w, l) && Dense(w, n)
    requires n.strategy.decisionsCount == l.strategy.decisionsCount
    requires n.strategy.commitLogRoot == l.strategy.commitLogRoot
    requires forall i :: i in l.decisions ==> i in n.decisions && n.decisions[i].commitHash == l.decisions[i].commitHash
    ensures RootBinds(w, n)
  {
    assert Hashes(n, n.strategy.decisionsCount) == Hashes(l, l.strategy.decisionsCount);
  }

  /** The root is exactly the fold over all commits in order: settle, prove, void and failures leave it. */
  lemma ApplyKeepsRoot(w: World, l: Ledger, ix: Instruction)
    requires RootBinds(w, l) && Dense(w, Apply(w, l, ix))
    ensures RootBinds(w, Apply(w, l, ix))
  {
    if ix.CommitIx? && Exec(w, l, ix).Ok? {
      var d := CommitEffect(w, l, ix);
      AppendKeepsRoot(w, l, Apply(w, l, ix), d);
    } else {
      OtherInstructionsKeepHistory(w, l, ix);
      SameHistoryKeepsRoot(w, l, Apply(w, l, ix));
    }
  }

  lemma RootGrows(w: World, hashes: seq<seq<byte>>, h: seq<byte>)
    ensures RootOf(w, hashes + [h]) == w.keccak(RootOf(w, hashes) + h + LittleEndian(8, |hashes|))
  {
    assert (hashes + [h])[..|hashes|] == hashes;
  }

  lemma {:induction false} RunKeepsRoot(w: World, l: Ledger, ixs: seq<Instruction>)
    requires Accounted(w, l) && RootBinds(w, l)
    ensures RootBinds(w, ApplyAll(w, l, ixs))
  {
    if |ixs| > 0 {
      var front := ixs[..|ixs| - 1];
      RunKeepsRoot(w, l, front);
      LedgerAccounting(w, l, ixs);
      ApplyKeepsRoot(w, ApplyAll(w, l, front), ixs[|ixs| - 1]);
    }
  }

  lemma PreimagesAgree(ra: seq<byte>, ha: seq<byte>, rb: seq<byte>, hb: seq<byte>, suffix: seq<byte>)
    requires |ha| == |hb| && ra + ha + suffix == rb + hb + suffix
    ensures ra == rb && ha == hb
  {
    var x, y := ra + ha + suffix, rb + hb + suffix;
    assert |ra| == |rb|;
    assert x[..|ra|] == ra && y[..|rb|] == rb;
    assert x[|ra|..|ra| + |ha|] == ha && y[|rb|..|rb| + |hb|] == hb;
  }

  /** Equal roots after equally many commits mean equal commit histories, or else exhibit two different
      inputs the hash maps to the same output. */
  lemma {:induction false} RootsBindOrCollide(w: World, a: seq<seq<byte>>, b: seq<seq<byte>>)
    returns (x: seq<byte>, y: seq<byte>)
    requires |a| == |b| && RootOf(w, a) == RootOf(w, b)
    requires forall i :: 0 <= i < |a| ==> |a[i]| == |b[i]| == 32
    ensures a == b || (x != y && w.keccak(x) == w.keccak(y))
  {
    x, y := [], [];
    if |a| > 0 {
      var n := |a| - 1;
      var ra, rb := RootOf(w, a[..n]), RootOf(w, b[..n]);
      x, y := ra + a[n] + LittleEndian(8, n), rb + b[n] + LittleEndian(8, n);
      if x == y {
        PreimagesAgree(ra, a[n], rb, b[n], LittleEndian(8, n));
        x, y := RootsBindOrCollide(w, a[..n], b[..n]);
        assert a == a[..n] + [a[n]] && b == b[..n] + [b[n]];
      }
    }
  }

  /** Two reachable ledgers that show the same root and the same number of decisions hold the same commit
      history, unless a hash collision is at hand. */
  lemma LedgersWithEqualRootsAgree(w: World, l: Ledger, m: Ledger) returns (x: seq<byte>, y: seq<byte>)
    requires RootBinds(w, l) && RootBinds(w, m)
    requires l.strategy.commitLogRoot == m.strategy.commitLogRoot
    requires l.strategy.decisionsCount == m.strategy.decisionsCount
    ensures || (forall i :: i in l.decisions ==> i in m.decisions && l.decisions[i].commitHash == m.decisions[i].commitHash)
            || (x != y && w.keccak(x) == w.keccak(y))
  {
    hide RootOf, WellFormed;
    var n: nat := l.strategy.decisionsCount;
    var a, b := Hashes(l, n), Hashes(m, n);
    x, y := RootsBindOrCollide(w, a, b);
    if a == b {
      SameHashes(l, m, n);
    }
  }

  lemma SameHashes(l: Ledger, m: Ledger, n: nat)
    requires forall i :: 0 <= i < n ==> i in l.decisions && i in m.decisions
    requires Hashes(l, n) == Hashes(m, n)
    ensures forall i :: 0 <= i < n ==> l.decisions[i].commitHash == m.decisions[i].commitHash
  {
    forall i | 0 <= i < n
      ensures l.decisions[i].commitHash == m.decisions[i].commitHash
    {
      assert Hashes(l, n)[i] == Hashes(m, n)[i];
    }
  }

  // ---------------------------------------------------------------------------------------------
  // Settlement soundness

  function SideOfGoals(home: int, away: int): int {
    if home > away then SIDE_HOME else if home == away then SIDE_DRAW else SIDE_AWAY
  }

  /** For any attested goals exactly one claim passes the predicate: the side of the score. */
  lemma ExactlyOneClaimHolds(claimed: int, home: int, away: int)
    ensures (PredicateForClaim(claimed).Some?
             && var (c, t) := PredicateForClaim(claimed).value; Holds(c, t, home - away))
       <==> claimed == SideOfGoals(home, away)
  {
  }

  /** The result a settled decision carries is the side of an attested full-time score for its own fixture,
      and its PnL is the sealed stake's profit or loss on it. */
  predicate ProperlySettled(w: World, program: seq<byte>, d: DecisionAccount, args: SettleArgs) {
    && CommitHash(w, args.sealed) == d.commitHash && Routed(w, args.sealed, d) && IsSide(args.sealed.side)
    && args.fixtureSummary.fixtureId == d.fixtureId
    && args.statHome.statToProve.key == STAT_KEY_PARTICIPANT1 && args.statAway.statToProve.key == STAT_KEY_PARTICIPANT2
    && args.statHome.statToProve.period == FULL_GAME_PERIOD && args.statAway.statToProve.period == FULL_GAME_PERIOD
    && EpochDayLe(args.ts).Some? && w.statProven(w.scoresRoots(EpochDayLe(args.ts).value, program), args)
    && d.outcomeSide == SideOfGoals(args.statHome.statToProve.statValue, args.statAway.statToProve.statValue)
    && Some(d.pnl) == ComputePnlChecked(d.outcomeSide == args.sealed.side, args.sealed.stake, args.sealed.entryOddsMilli)
  }

  ghost predicate SettlementsAreProper(w: World, l: Ledger) {
    forall i :: i in l.decisions && l.decisions[i].status == STATUS_SETTLED ==>
      exists args :: ProperlySettled(w, l.strategy.txlineProgram, l.decisions[i], args)
  }

  /** A newly settled decision has the attestation its settle instruction carried. */
  lemma SettleIsProper(w: World, l: Ledger, ix: Instruction) returns (args: SettleArgs)
    requires ix.SettleIx? && Exec(w, l, ix).Ok?
    ensures ProperlySettled(w, l.strategy.txlineProgram, Apply(w, l, ix).decisions[ix.target], args)
    ensures forall i :: i in l.decisions && i != ix.target ==> Apply(w, l, ix).decisions[i] == l.decisions[i]
    ensures Apply(w, l, ix).strategy.txlineProgram == l.strategy.txlineProgram
    ensures Apply(w, l, ix).decisions.Keys == l.decisions.Keys
  {
    hide GetSettle, CommitHash, EpochDayLe, ComputePnlChecked, ApplyPnl;
    var pnl;
    args, pnl := SettleEffect(w, l, ix);
    ExactlyOneClaimHolds(args.claimedResult, args.statHome.statToProve.statValue, args.statAway.statToProve.statValue);
  }

  /** Only a settle instruction makes a decision settled; others leave its settled records as they were. */
  lemma OnlySettleSettles(w: World, l: Ledger, ix: Instruction, i: nat)
    requires !ix.SettleIx? || Exec(w, l, ix).Err?
    requires i in Apply(w, l, ix).decisions && Apply(w, l, ix).decisions[i].status == STATUS_SETTLED
    ensures i in l.decisions && l.decisions[i].status == STATUS_SETTLED
    ensures Apply(w, l, ix).decisions[i] == l.decisions[i].(entryOddsProven := Apply(w, l, ix).decisions[i].entryOddsProven)
    ensures Apply(w, l, ix).strategy.txlineProgram == l.strategy.txlineProgram
  {
    hide ProveCheck, SettleCheck, GetProveOdds, GetSettle, GetReveal, CommitHash, ComputePnlChecked, BookSettle;
  }

  lemma ApplyKeepsProper(w: World, l: Ledger, ix: Instruction)
    requires SettlementsAreProper(w, l)
    ensures SettlementsAreProper(w, Apply(w, l, ix))
  {
    var n := Apply(w, l, ix);
    forall i | i in n.decisions && n.decisions[i].status == STATUS_SETTLED
      ensures exists args :: ProperlySettled(w, n.strategy.txlineProgram, n.decisions[i], args)
    {
      if ix.SettleIx? && Exec(w, l, ix).Ok? {
        var args := SettleIsProper(w, l, ix);
      } else {
        OnlySettleSettles(w, l, ix, i);
        var args :| ProperlySettled(w, l.strategy.txlineProgram, l.decisions[i], args);
        assert ProperlySettled(w, n.strategy.txlineProgram, n.decisions[i], args);
      }
    }
  }

  /** No run of instructions, whoever sends them, produces a settled decision without such an attestation. */
  lemma {:induction false} EverySettlementIsProper(w: World, l: Ledger, ixs: seq<Instruction>)
    requires SettlementsAreProper(w, l)
    ensures SettlementsAreProper(w, ApplyAll(w, l, ixs))
  {
    if |ixs| > 0 {
      var front := ixs[..|ixs| - 1];
      EverySettlementIsProper(w, l, front);
      ApplyKeepsProper(w, ApplyAll(w, l, front), ixs[|ixs| - 1]);
    }
  }

  /** The indexes of the settled decisions. */
  function SettledIds(l: Ledger): set<nat> {
    set i | i in l.decisions && l.decisions[i].status == STATUS_SETTLED
  }

  predicate NoSettles(ixs: seq<Instruction>) { forall i :: 0 <= i < |ixs| ==> !ixs[i].SettleIx? }

  /** Only settle instructions settle: a run without any leaves the settled indexes as they were. */
  lemma {:induction false} QuietRunSettlesNothing(w: World, l: Ledger, ixs: seq<Instruction>)
    requires Accounted(w, l) && NoSettles(ixs)
    ensures SettledIds(ApplyAll(w, l, ixs)) == SettledIds(l)
  {
    if |ixs| > 0 {
      var front, last := ixs[..|ixs| - 1], ixs[|ixs| - 1];
      QuietRunSettlesNothing(w, l, front);
      LedgerAccounting(w, l, front);
      QuietStepSettlesNothing(w, ApplyAll(w, l, front), last);
    }
  }

  lemma QuietStepSettlesNothing(w: World, l: Ledger, ix: Instruction)
    requires Accounted(w, l) && (!ix.SettleIx? || Exec(w, l, ix).Err?)
    ensures SettledIds(Apply(w, l, ix)) == SettledIds(l)
  {
    ApplyEvolves(w, l, ix);
    EvolvingKeepsSettled(l, Apply(w, l, ix));
    forall i | i in SettledIds(Apply(w, l, ix))
      ensures i in SettledIds(l)
    {
      OnlySettleSettles(w, l, ix, i);
    }
  }

  lemma EvolvingKeepsSettled(a: Ledger, b: Ledger)
    requires LedgerEvolves(a, b)
    ensures SettledIds(a) <= SettledIds(b)
  {
    forall i | i in SettledIds(a)
      ensures i in SettledIds(b)
    {
      assert Evolves(a.decisions[i], b.decisions[i]);
    }
  }

  /** A successful settle adds exactly its target, which was open. */
  lemma SettleAddsTarget(w: World, l: Ledger, ix: Instruction)
    requires ix.SettleIx? && Exec(w, l, ix).Ok?
    ensures ix.target in l.decisions && l.decisions[ix.target].status == STATUS_OPEN
    ensures SettledIds(Apply(w, l, ix)) == SettledIds(l) + {ix.target}
  {
    var args, pnl := SettleEffect(w, l, ix);
  }

  lemma EvolvesOn(a: Ledger, b: Ledger, c: Ledger)
    requires LedgerEvolves(a, b) && LedgerEvolves(b, c)
    ensures LedgerEvolves(a, c)
  {
    forall i | i in a.decisions
      ensures i in c.decisions && Evolves(a.decisions[i], c.decisions[i])
    {
      assert Evolves(a.decisions[i], b.decisions[i]) && Evolves(b.decisions[i], c.decisions[i]);
    }
  }

  /** A proven entry price: an attested odds snapshot of the decision's own fixture quotes, for the sealed
      side in the result market, exactly the sealed odds. */
  predicate ProperlyProven(w: World, program: seq<byte>, d: DecisionAccount, args: ProveOddsArgs) {
    var o := args.oddsSnapshot;
    && d.status == STATUS_SETTLED
    && CommitHash(w, args.sealed) == d.commitHash && Routed(w, args.sealed, d) && IsSide(args.sealed.side)
    && o.fixtureId == d.fixtureId && o.superOddsType == w.resultMarket
    && |o.priceNames| == |o.prices| && 0 <= args.sideIndex < |o.prices|
    && w.sideMatchesLabel(args.sealed.side, o.priceNames[args.sideIndex])
    && o.prices[args.sideIndex] == args.sealed.entryOddsMilli
    && EpochDayLe(args.ts).Some? && w.oddsProven(w.oddsRoots(EpochDayLe(args.ts).value, program), args)
  }

  ghost predicate ProofsAreProper(w: World, l: Ledger) {
    forall i :: i in l.decisions && l.decisions[i].entryOddsProven ==>
      exists args :: ProperlyProven(w, l.strategy.txlineProgram, l.decisions[i], args)
  }

  /** A newly proven decision has the attestation its instruction carried. */
  lemma ProveIsProper(w: World, l: Ledger, ix: Instruction) returns (args: ProveOddsArgs)
    requires ix.ProveIx? && Exec(w, l, ix).Ok?
    ensures ix.target in Apply(w, l, ix).decisions
    ensures ProperlyProven(w, l.strategy.txlineProgram, Apply(w, l, ix).decisions[ix.target], args)
  {
    args := GetProveOdds(ix.data).value.0;
  }

  /** Every other proven record was proven already, and an attestation for it still fits. */
  lemma ProofCarriesOver(w: World, l: Ledger, ix: Instruction, i: nat, args: ProveOddsArgs)
    requires Accounted(w, l) && i in l.decisions && ProperlyProven(w, l.strategy.txlineProgram, l.decisions[i], args)
    ensures i in Apply(w, l, ix).decisions
    ensures ProperlyProven(w, Apply(w, l, ix).strategy.txlineProgram, Apply(w, l, ix).decisions[i], args)
  {
    ApplyEvolves(w, l, ix);
    assert Evolves(l.decisions[i], Apply(w, l, ix).decisions[i]);
  }

  lemma OnlyProveProves(w: World, l: Ledger, ix: Instruction, i: nat)
    requires Accounted(w, l)
    requires !ix.ProveIx? || Exec(w, l, ix).Err? || i != ix.target
    requires i in Apply(w, l, ix).decisions && Apply(w, l, ix).decisions[i].entryOddsProven
    ensures i in l.decisions && l.decisions[i].entryOddsProven
  {
    if ix.CommitIx? && Exec(w, l, ix).Ok? {
      var d := CommitEffect(w, l, ix);
    } else if ix.SettleIx? && Exec(w, l, ix).Ok? {
      var args, pnl := SettleEffect(w, l, ix);
    }
  }

  lemma ApplyKeepsProofs(w: World, l: Ledger, ix: Instruction)
    requires Accounted(w, l) && ProofsAreProper(w, l)
    ensures ProofsAreProper(w, Apply(w, l, ix))
  {
    var n := Apply(w, l, ix);
    forall i | i in n.decisions && n.decisions[i].entryOddsProven
      ensures exists args :: ProperlyProven(w, n.strategy.txlineProgram, n.decisions[i], args)
    {
      if ix.ProveIx? && Exec(w, l, ix).Ok? && i == ix.target {
        var args := ProveIsProper(w, l, ix);
        ApplyEvolves(w, l, ix);
      } else {
        OnlyProveProves(w, l, ix, i);
        var args :| ProperlyProven(w, l.strategy.txlineProgram, l.decisions[i], args);
        ProofCarriesOver(w, l, ix, i, args);
      }
    }
  }

  /** No run marks a decision's entry odds proven without such an attestation. */
  lemma {:induction false} EveryOddsProofIsProper(w: World, l: Ledger, ixs: seq<Instruction>)
    requires Accounted(w, l) && ProofsAreProper(w, l)
    ensures ProofsAreProper(w, ApplyAll(w, l, ixs))
  {
    if |ixs| > 0 {
      var front := ixs[..|ixs| - 1];
      EveryOddsProofIsProper(w, l, front);
      LedgerAccounting(w, l, front);
      ApplyKeepsProofs(w, ApplyAll(w, l, front), ixs[|ixs| - 1]);
    }
  }

  // ---------------------------------------------------------------------------------------------
  // Agreement with the off-chain arithmetic

  /** Where it does not overflow, the program's PnL is the pipeline's; it overflows exactly when the
      product leaves u64 or the result leaves i64. */
  lemma PnlAgrees(won: bool, stake: nat, odds: Domain.OddsMilli)
    ensures var p := ComputePnlChecked(won, stake, odds);
            if won then
              && (p.Some? ==> p.value == Domain.ComputePnl(won, stake, odds))
              && (p.Some? <==> stake * (odds - 1000) <= U64_MAX && Domain.ComputePnl(won, stake, odds) <= I64_MAX)
            else p == if stake <= I64_MAX then Some(Domain.ComputePnl(won, stake, odds)) else None
  {
  }

  function SideOf(outcome: Domain.Outcome): Option<int> {
    match outcome
    case Home => Some(SIDE_HOME)
    case Draw => Some(SIDE_DRAW)
    case Away => Some(SIDE_AWAY)
    case Other => None
  }

  /** The pipeline's result, the sink's claim and the program's predicate name the same side. */
  lemma ResultsAgree(home: int, away: int)
    ensures SideOf(Domain.ResultOf(home, away)) == Some(SideOfGoals(home, away))
  {
  }
}
