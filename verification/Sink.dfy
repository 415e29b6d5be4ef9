/** The live sink: each pipeline commit and settlement becomes a read-check-write protocol against a ledger
    that other writers may change between any two of its steps. */
module Sink {
  import opened Prelude
  import opened Bytes
  import opened Borsh
  import opened BorshCodec
  import opened AccountDecode
  import opened LedgerModel
  import opened LedgerProofs
  import opened Ledger
  import opened QuoteSearch
  import opened Store
  import D = Domain
  import P = PipelineModel

  const MARKET_1X2 := 0

  /** Round a probability to basis points. */
  function ProbToBps(p: D.Prob): int { (p * 10_000.0 + 0.5).Floor }

  /** The sealed form of a decision at an on-chain index; None for an outcome that is not a 1X2 side. */
  function BuildReveal(
    d: D.Decision, strategyBytes: seq<byte>, index: nat, signalHash: seq<byte>, nonce: seq<byte>): Option<RevealArgs>
  {
    match SideOf(d.outcome)
    case None => None
    case Some(side) =>
      Some(RevealArgs(strategyBytes, index, d.fixtureId, MARKET_1X2, side, ProbToBps(d.fairProb), d.entryOdds, d.stake,
                      signalHash, nonce))
  }

  /** The basis points nearest to a probability, the higher of two equally near. */
  predicate NearestBps(bps: int, p: D.Prob) { bps as real - 0.5 <= 10_000.0 * p < bps as real + 0.5 }

  lemma BpsInRange(p: D.Prob)
    ensures 0 <= ProbToBps(p) <= 10_000 && NearestBps(ProbToBps(p), p)
  {
  }

  /** A score proof as the feed's API returns it, with its second stat optional. */
  datatype Validation = Validation(
    ts: int, statToProve: ScoreStat, statToProve2: Option<ScoreStat>, eventStatRoot: seq<byte>, summary: BatchSummary,
    statProof: seq<ProofNode>, statProof2: Option<seq<ProofNode>>, subTreeProof: seq<ProofNode>,
    mainTreeProof: seq<ProofNode>)

  /** No array in the client's runtime reaches 2^32 elements. */
  predicate ArraysAreShort(v: Validation) {
    && |v.statProof| < U32_LIMIT && |v.subTreeProof| < U32_LIMIT && |v.mainTreeProof| < U32_LIMIT
    && (v.statProof2.Some? ==> |v.statProof2.value| < U32_LIMIT)
  }

  predicate HashesAre32(proof: seq<ProofNode>) { forall i :: 0 <= i < |proof| ==> |proof[i].hash| == 32 }

  predicate StatIsSafe(s: ScoreStat) { IsSafe(s.key) && IsSafe(s.statValue) && IsSafe(s.period) }

  /** Every number of the proof is a safe integer. */
  predicate ValidationIsSafe(v: Validation) {
    && IsSafe(v.ts) && IsSafe(v.summary.fixtureId) && IsSafe(v.summary.updateStats.updateCount)
    && IsSafe(v.summary.updateStats.minTimestamp) && IsSafe(v.summary.updateStats.maxTimestamp)
    && StatIsSafe(v.statToProve) && (v.statToProve2.Some? ==> StatIsSafe(v.statToProve2.value))
  }

  function BuildSettleArgs(v: Validation, sealed: RevealArgs, claimed: int): Option<SettleArgs> {
    if v.statToProve2.None? || v.statProof2.None? || !ValidationIsSafe(v) then None
    else if |v.eventStatRoot| != 32 || |v.summary.subTreeRoot| != 32 then None
    else if !HashesAre32(v.subTreeProof) || !HashesAre32(v.mainTreeProof)
            || !HashesAre32(v.statProof) || !HashesAre32(v.statProof2.value) then None
    else Some(SettleArgs(sealed, claimed, v.ts, v.summary, v.subTreeProof, v.mainTreeProof,
                         StatTerm(v.statToProve, v.eventStatRoot, v.statProof),
                         StatTerm(v.statToProve2.value, v.eventStatRoot, v.statProof2.value)))
  }

  /** The instruction data for a commit, or nothing when a field does not fit. */
  function CommitData(a: CommitArgs): Option<seq<byte>> {
    if |a.commitHash| == 32 && IsI64(a.fixtureId) && IsU16(a.market) then Some(PutCommit(a, [])) else None
  }

  lemma CommitDataDecodes(a: CommitArgs)
    requires CommitData(a).Some?
    ensures GetCommit(CommitData(a).value) == Some((a, []))
  {
    var t2 := PutInt(2, a.market, []);
    var t1 := PutInt(8, a.fixtureId, t2);
    BytesRoundTrip(a.commitHash, t1);
    SignedField(8, a.fixtureId, t2);
    UnsignedField(2, a.market, []);
  }

  /** Everything outside the sink's control during one call: what other writers submit before each of its
      steps, whether each RPC read answers, and whether a sent transaction lands and is reported. */
  datatype Surroundings = Surroundings(
    others: seq<seq<Instruction>>, answers: seq<bool>, lands: bool, reported: bool,
    nonce: seq<byte>, signalHash: seq<byte>, slot: int, unixTs: int, proof: Option<Validation>,
    /** Past odds to search for the sealed quote after a settlement, if the sink has access to them. */
    archive: Option<OddsArchive>, quoteLands: bool, quoteReported: bool)

  predicate Complete(e: Surroundings) {
    |e.others| == 5 && |e.answers| == 3 && (e.proof.Some? ==> ArraysAreShort(e.proof.value))
  }

  /** Other writers send no settle of their own; they may commit, prove and void. */
  predicate OthersDoNotSettle(e: Surroundings) { forall i :: 0 <= i < |e.others| ==> NoSettles(e.others[i]) }

  /** The index a settle of ours adds to the settled ones. */
  function OwnId(c: CommittedReveal, landed: bool): set<nat> { if landed then {c.onChainIndex} else {} }

  function OwnIds(committed: map<nat, CommittedReveal>, k: nat, landed: bool): set<nat> {
    if k in committed then OwnId(committed[k], landed) else {}
  }

  /** What a stretch of a call does to the ledger: it evolves lawfully, our own settlements are in it, and if
      the others send no settle there are no more. */
  ghost predicate Grows(a: LedgerModel.Ledger, b: LedgerModel.Ledger, quiet: bool, own: set<nat>) {
    && LedgerEvolves(a, b)
    && SettledIds(a) + own <= SettledIds(b)
    && (quiet ==> SettledIds(b) == SettledIds(a) + own)
  }

  lemma GrowsNothing(l: LedgerModel.Ledger, quiet: bool)
    ensures Grows(l, l, quiet, {})
  {
  }

  lemma GrowsOn(
    a: LedgerModel.Ledger, b: LedgerModel.Ledger, c: LedgerModel.Ledger, quiet: bool, first: set<nat>, second: set<nat>)
    requires Grows(a, b, quiet, first) && Grows(b, c, quiet, second)
    ensures Grows(a, c, quiet, first + second)
  {
    EvolvesOn(a, b, c);
  }

  /** An executed settle adds its target. */
  lemma SettleGrows(w: World, l: LedgerModel.Ledger, ix: Instruction, quiet: bool)
    requires ix.SettleIx? && Exec(w, l, ix).Ok? && LedgerEvolves(l, Apply(w, l, ix))
    ensures Grows(l, Apply(w, l, ix), quiet, {ix.target})
  {
    SettleAddsTarget(w, l, ix);
  }

  /** Any other instruction, executed or not, adds nothing. */
  lemma QuietStepGrows(w: World, l: LedgerModel.Ledger, ix: Instruction, quiet: bool)
    requires Accounted(w, l) && (!ix.SettleIx? || Exec(w, l, ix).Err?)
    ensures Grows(l, Apply(w, l, ix), quiet, {})
  {
    ApplyEvolves(w, l, ix);
    QuietStepSettlesNothing(w, l, ix);
  }

  datatype CommittedReveal = CommittedReveal(sealed: RevealArgs, onChainIndex: nat)

  /** The ledger holds, at the remembered index, the commitment to exactly the remembered reveal. */
  ghost predicate Anchored(w: World, l: LedgerModel.Ledger, c: CommittedReveal) {
    && c.onChainIndex in l.decisions
    && CheckReveal(c.sealed) == None
    && c.sealed.index == c.onChainIndex == l.decisions[c.onChainIndex].index
    && l.decisions[c.onChainIndex].commitHash == CommitHash(w, c.sealed)
    && Routed(w, c.sealed, l.decisions[c.onChainIndex])
    && IsSide(c.sealed.side)
  }

  /** The remembered reveal seals the decision the pipeline committed. */
  predicate Seals(sealed: RevealArgs, d: D.Decision) {
    SideOf(d.outcome) == Some(sealed.side) && sealed.stake == d.stake && sealed.entryOddsMilli == d.entryOdds
    && sealed.fixtureId == d.fixtureId && sealed.market == MARKET_1X2 && NearestBps(sealed.fairProbBps, d.fairProb)
  }

  /** Other writers cannot un-anchor a commitment: the fields it rests on never change. */
  lemma AnchorSurvives(w: World, a: LedgerModel.Ledger, b: LedgerModel.Ledger, c: CommittedReveal)
    requires Anchored(w, a, c) && LedgerEvolves(a, b)
    ensures Anchored(w, b, c)
  {
    assert Evolves(a.decisions[c.onChainIndex], b.decisions[c.onChainIndex]);
  }

  /** Which program errors can still answer a settle whose reveal is anchored and whose claim is the side of
      the proof's own goals. */
  predicate Remaining(e: LedgerError) {
    e in {NotOpen, FixtureMismatch, StatKeyMismatch, TxlineProgramMismatch, InvalidRootsPda, OracleRejected, Overflow}
  }

  lemma AnchoredChecksPass(
    w: World, l: LedgerModel.Ledger, c: CommittedReveal, args: SettleArgs, program: seq<byte>, roots: seq<byte>)
    requires Anchored(w, l, c) && args.sealed == c.sealed && ClaimsProof(args)
    ensures var e := SettleCheck(w, l.strategy, l.decisions[c.onChainIndex], args, program, roots);
            e.Some? ==> Remaining(e.value)
  {
    ExactlyOneClaimHolds(args.claimedResult, args.statHome.statToProve.statValue, args.statAway.statToProve.statValue);
  }

  /** Once its data decodes, a settle of an anchored reveal either settles the record as it claims or is refused
      for one of the remaining reasons. */
  lemma SettleOutcome(w: World, l: LedgerModel.Ledger, c: CommittedReveal, ix: Instruction, args: SettleArgs)
    requires ix.SettleIx? && ix.signer == l.strategy.authority && ix.target == c.onChainIndex
    requires GetSettle(ix.data) == Some((args, [])) && Anchored(w, l, c) && args.sealed == c.sealed && ClaimsProof(args)
    ensures match Exec(w, l, ix)
            case Ok(n) => SettledThere(n, c, args)
            case Err(e) => Remaining(e)
  {
    AnchoredChecksPass(w, l, c, args, ix.program, ix.roots);
  }

  /** The claim and the arguments a settle of a remembered reveal is built from. */
  function SettleArgsFor(c: CommittedReveal, e: Surroundings): Option<SettleArgs> {
    if e.proof.None? || e.proof.value.statToProve2.None? then None
    else
      var v := e.proof.value;
      BuildSettleArgs(v, c.sealed, SideOfGoals(v.statToProve.statValue, v.statToProve2.value.statValue))
  }

  /** Settle arguments are built exactly when the proof has its second stat, every number is a safe integer and every
      hash has 32 bytes, and then carry the proof part by part: the first stat for home, the second for away, under
      one event root. */
  lemma SettleArgsCarryTheProof(v: Validation, sealed: RevealArgs, claimed: int)
    ensures match BuildSettleArgs(v, sealed, claimed)
            case None =>
              v.statToProve2.None? || v.statProof2.None? || !ValidationIsSafe(v)
              || |v.eventStatRoot| != 32 || |v.summary.subTreeRoot| != 32
              || exists n :: (n in v.subTreeProof || n in v.mainTreeProof || n in v.statProof || n in v.statProof2.value)
                             && |n.hash| != 32
            case Some(a) =>
              && (a.sealed, a.claimedResult, a.ts) == (sealed, claimed, v.ts)
              && (a.fixtureSummary, a.fixtureProof, a.mainTreeProof) == (v.summary, v.subTreeProof, v.mainTreeProof)
              && v.statToProve2 == Some(a.statAway.statToProve) && v.statProof2 == Some(a.statAway.statProof)
              && (a.statHome.statToProve, a.statHome.statProof) == (v.statToProve, v.statProof)
              && a.statHome.eventStatRoot == a.statAway.eventStatRoot == v.eventStatRoot
              && ValidationIsSafe(v) && |v.eventStatRoot| == 32 == |v.summary.subTreeRoot|
              && forall n :: n in v.subTreeProof || n in v.mainTreeProof || n in v.statProof || n in v.statProof2.value
                             ==> |n.hash| == 32
  {
    HashesAre32Iff(v.subTreeProof);
    HashesAre32Iff(v.mainTreeProof);
    HashesAre32Iff(v.statProof);
    if v.statProof2.Some? {
      HashesAre32Iff(v.statProof2.value);
    }
  }

  lemma HashesAre32Iff(proof: seq<ProofNode>)
    ensures HashesAre32(proof) <==> forall n :: n in proof ==> |n.hash| == 32
  {
  }

  /** The arguments are for the remembered reveal, claim the proof's own side, and fit their length prefixes. */
  lemma ArgsFit(c: CommittedReveal, e: Surroundings)
    requires Complete(e) && SettleArgsFor(c, e).Some?
    ensures var args := SettleArgsFor(c, e).value;
            args.sealed == c.sealed && SettleLengthsFit(args) && ClaimsProof(args)
  {
  }

  function RootsFor(w: World, program: seq<byte>, ts: int): seq<byte> {
    match EpochDayLe(ts) case None => [] case Some(day) => w.scoresRoots(day, program)
  }

  function OwnSettle(
    w: World, signer: seq<byte>, program: seq<byte>, c: CommittedReveal, args: SettleArgs, slot: int): Instruction
  {
    SettleIx(signer, c.onChainIndex, PutSettle(args, []), program, RootsFor(w, program, args.ts), slot)
  }

  /** Our settle, sent to a ledger, is executed there. */
  predicate Executes(
    w: World, l: LedgerModel.Ledger, signer: seq<byte>, program: seq<byte>, c: CommittedReveal, args: SettleArgs,
    e: Surroundings)
  {
    CheckSettle(args) == None && e.lands && Exec(w, l, OwnSettle(w, signer, program, c, args, e.slot)).Ok?
  }

  /** A settle call settles its decision on chain: a proof arrives and encodes, and the transaction lands and
      executes on the ledger as the others have left it by then. */
  predicate SettleLands(
    w: World, l: LedgerModel.Ledger, signer: seq<byte>, program: seq<byte>, c: CommittedReveal, e: Surroundings)
    requires Complete(e)
  {
    var args := SettleArgsFor(c, e);
    args.Some? && Executes(w, ApplyAll(w, ApplyAll(w, l, e.others[0]), e.others[1]), signer, program, c, args.value, e)
  }

  /** Whether our side hears of a settle that landed: the send is reported and the read-back answered. */
  predicate Receipted(e: Surroundings)
    requires Complete(e)
  {
    e.reported && e.answers[1]
  }

  /** The reveal a commit seals for the index the ledger shows; None if it cannot be built or encoded. */
  function SealFor(w: World, l: LedgerModel.Ledger, d: D.Decision, e: Surroundings): Option<RevealArgs> {
    if l.strategy.decisionsCount < 0 then None
    else
      var sealed :- BuildReveal(d, w.strategyKey, l.strategy.decisionsCount, e.signalHash, e.nonce);
      if CheckReveal(sealed) == None then Some(sealed) else None
  }

  /** The instruction that commits a sealed reveal. */
  function OwnCommit(w: World, signer: seq<byte>, sealed: RevealArgs, e: Surroundings): Option<Instruction> {
    if sealed.index < 0 then None
    else
      var data :- CommitData(CommitArgs(CommitHash(w, sealed), sealed.fixtureId, sealed.market));
      Some(CommitIx(signer, sealed.index, data, e.slot, e.unixTs))
  }

  /** Our commit, sent to a ledger, is executed there. */
  predicate CommitExecutes(w: World, l: LedgerModel.Ledger, signer: seq<byte>, sealed: RevealArgs, e: Surroundings) {
    var ix := OwnCommit(w, signer, sealed, e);
    ix.Some? && e.lands && Exec(w, l, ix.value).Ok?
  }

  /** The port's commit of a sealed reveal executes: its own read answers, still shows the index that was
      sealed, and the transaction lands and executes on the ledger as the others have left it by then. */
  predicate PortCommits(w: World, l: LedgerModel.Ledger, signer: seq<byte>, sealed: RevealArgs, e: Surroundings)
    requires Complete(e)
  {
    var read := ApplyAll(w, l, e.others[1]);
    && e.answers[1] && sealed.index == read.strategy.decisionsCount
    && CommitExecutes(w, ApplyAll(w, read, e.others[2]), signer, sealed, e)
  }

  /** The ledger a commit call first reads. */
  function FirstRead(w: World, l: LedgerModel.Ledger, e: Surroundings): LedgerModel.Ledger
    requires Complete(e)
  {
    ApplyAll(w, l, e.others[0])
  }

  /** A commit call puts its decision on chain: the first read answers, the decision seals at the index it
      shows, and the port's commit of that reveal executes. */
  predicate CommitLands(w: World, l: LedgerModel.Ledger, signer: seq<byte>, d: D.Decision, e: Surroundings)
    requires Complete(e)
  {
    var read := FirstRead(w, l, e);
    && e.answers[0] && SealFor(w, read, d, e).Some?
    && PortCommits(w, read, signer, SealFor(w, read, d, e).value, e)
  }

  /** A settlement the store shows is the ledger's own: the remembered decision is settled with that PnL, won
      exactly when the proven side is the sealed one, and its entry odds are proven if shown so. */
  ghost predicate Backed(l: LedgerModel.Ledger, c: CommittedReveal, view: SettleView) {
    && c.onChainIndex in l.decisions
    && var d := l.decisions[c.onChainIndex];
       && d.status == STATUS_SETTLED && view.pnl == d.pnl
       && (view.won <==> d.outcomeSide == c.sealed.side)
       && (view.entryOddsProven ==> d.entryOddsProven)
  }

  ghost predicate AllBacked(
    l: LedgerModel.Ledger, committed: map<nat, CommittedReveal>, positions: map<nat, PositionEntry>)
  {
    forall k :: k in positions && positions[k].settlement.Some? ==>
      k in committed && Backed(l, committed[k], positions[k].settlement.value)
  }

  /** Settled records are terminal, so what backs a settlement keeps backing it. */
  lemma BackingSurvives(
    a: LedgerModel.Ledger, b: LedgerModel.Ledger, committed: map<nat, CommittedReveal>, positions: map<nat, PositionEntry>)
    requires AllBacked(a, committed, positions) && LedgerEvolves(a, b)
    ensures AllBacked(b, committed, positions)
  {
    forall k | k in positions && positions[k].settlement.Some?
      ensures k in committed && Backed(b, committed[k], positions[k].settlement.value)
    {
      BackedSurvives(a, b, committed[k], positions[k].settlement.value);
    }
  }

  lemma BackedSurvives(a: LedgerModel.Ledger, b: LedgerModel.Ledger, c: CommittedReveal, view: SettleView)
    requires Backed(a, c, view) && LedgerEvolves(a, b)
    ensures Backed(b, c, view)
  {
    assert Evolves(a.decisions[c.onChainIndex], b.decisions[c.onChainIndex]);
  }

  /** The claim is the side of the goals the arguments prove. */
  predicate ClaimsProof(args: SettleArgs) {
    args.claimedResult == SideOfGoals(args.statHome.statToProve.statValue, args.statAway.statToProve.statValue)
  }

  /** What a batch of the others' instructions does. */
  lemma OthersGrow(w: World, l: LedgerModel.Ledger, ixs: seq<Instruction>, quiet: bool)
    requires Accounted(w, l) && (quiet ==> NoSettles(ixs))
    ensures Grows(l, ApplyAll(w, l, ixs), quiet, {})
  {
    RunEvolves(w, l, ixs);
    EvolvingKeepsSettled(l, ApplyAll(w, l, ixs));
    if quiet {
      QuietRunSettlesNothing(w, l, ixs);
    }
  }

  /** What the program can answer to our settle of an anchored reveal, claimed for the proof's own side. */
  lemma OwnSettleAnswer(
    w: World, l: LedgerModel.Ledger, program: seq<byte>, c: CommittedReveal, args: SettleArgs, slot: int)
    requires Anchored(w, l, c) && args.sealed == c.sealed && CheckSettle(args) == None && SettleLengthsFit(args)
    requires ClaimsProof(args)
    ensures match Exec(w, l, OwnSettle(w, l.strategy.authority, program, c, args, slot))
            case Ok(n) => SettledThere(n, c, args)
            case Err(e) => Remaining(e)
  {
    hide Remaining, SettledThere, ExecSettle, CheckReveal;
    SettleRoundTrip(args, []);
    SettleOutcome(w, l, c, OwnSettle(w, l.strategy.authority, program, c, args, slot), args);
  }

  ghost predicate AllAnchored(w: World, l: LedgerModel.Ledger, committed: map<nat, CommittedReveal>) {
    forall i :: i in committed ==> Anchored(w, l, committed[i])
  }

  ghost predicate AllSealed(committed: map<nat, CommittedReveal>, positions: map<nat, PositionEntry>) {
    forall i :: i in committed ==> i in positions && Seals(committed[i].sealed, positions[i].commit.decision)
  }

  /** An index that is new on the ledger and holds an open decision. */
  ghost predicate NewOpen(before: LedgerModel.Ledger, after: LedgerModel.Ledger, index: nat) {
    index !in before.decisions && index in after.decisions && after.decisions[index].status == STATUS_OPEN
  }

  /** A commit of a reveal since `before`: anchored and open at the sealed index, which was free. */
  ghost predicate CommittedAt(w: World, before: LedgerModel.Ledger, after: LedgerModel.Ledger, sealed: RevealArgs) {
    && 0 <= sealed.index && Anchored(w, after, CommittedReveal(sealed, sealed.index))
    && NewOpen(before, after, sealed.index)
  }

  /** What sealing gives: an encodable reveal of the decision, bound to this strategy and to the index shown. */
  lemma SealForSeals(w: World, l: LedgerModel.Ledger, d: D.Decision, e: Surroundings)
    ensures match SealFor(w, l, d, e)
            case None => true
            case Some(r) =>
              && CheckReveal(r) == None && r.strategy == w.strategyKey && r.index == l.strategy.decisionsCount
              && Seals(r, d) && r.signalHash == e.signalHash && r.nonce == e.nonce
  {
    BpsInRange(d.fairProb);
  }

  /** An executed commit anchors its reveal at the sealed index, which was free. */
  lemma CommitAnchors(
    w: World, start: LedgerModel.Ledger, l: LedgerModel.Ledger, signer: seq<byte>, sealed: RevealArgs, e: Surroundings,
    after: LedgerModel.Ledger)
    requires CheckReveal(sealed) == None && sealed.strategy == w.strategyKey && LedgerEvolves(start, l)
    requires OwnCommit(w, signer, sealed, e).Some? && Exec(w, l, OwnCommit(w, signer, sealed, e).value) == Ok(after)
    ensures CommittedAt(w, start, after, sealed)
  {
    CommitDataDecodes(CommitArgs(CommitHash(w, sealed), sealed.fixtureId, sealed.market));
  }

  lemma AnchorsSurvive(w: World, a: LedgerModel.Ledger, b: LedgerModel.Ledger, committed: map<nat, CommittedReveal>)
    requires AllAnchored(w, a, committed) && LedgerEvolves(a, b)
    ensures AllAnchored(w, b, committed)
  {
    forall i | i in committed
      ensures Anchored(w, b, committed[i])
    {
      AnchorSurvives(w, a, b, committed[i]);
    }
  }

  class OnChainSink {
    const ledger: AgentLedger
    const store: AgentStateStore
    const signer: seq<byte>
    const txoracle: seq<byte>
    /** Pipeline index to the sealed reveal and the on-chain index it was committed at. */
    var committed: map<nat, CommittedReveal>

    /** The chain side: an accounted ledger that anchors every remembered commitment. */
    ghost predicate ChainValid()
      reads this, ledger
    {
      && Accounted(ledger.world, ledger.State())
      && signer == ledger.strategy.authority
      && AllAnchored(ledger.world, ledger.State(), committed)
    }

    ghost predicate Valid()
      reads this, ledger, store
    {
      ChainValid() && store.Valid() && AllSealed(committed, store.positions)
    }

    constructor (ledger: AgentLedger, store: AgentStateStore, txoracle: seq<byte>)
      requires Accounted(ledger.world, ledger.State()) && store.Valid()
      ensures this.ledger == ledger && this.store == store && committed == map[] && Valid()
    {
      this.ledger, this.store, this.signer, this.txoracle := ledger, store, ledger.strategy.authority, txoracle;
      committed := map[];
    }

    // Each step below keeps up what has happened to the ledger since `start`.

    /** Other writers' instructions run between two of the sink's steps. */
    method Interleave(ixs: seq<Instruction>, ghost start: LedgerModel.Ledger, ghost quiet: bool, ghost own: set<nat>)
      requires ChainValid() && (quiet ==> NoSettles(ixs)) && Grows(start, ledger.State(), quiet, own)
      modifies ledger
      ensures ChainValid() && ledger.State() == ApplyAll(ledger.world, old(ledger.State()), ixs)
      ensures 0 <= ledger.strategy.decisionsCount
      ensures Grows(start, ledger.State(), quiet, own) && LedgerEvolves(old(ledger.State()), ledger.State())
    {
      ghost var before := ledger.State();
      ledger.ExecuteAll(ixs);
      LedgerAccounting(ledger.world, before, ixs);
      OthersGrow(ledger.world, before, ixs, quiet);
      AnchorsSurvive(ledger.world, before, ledger.State(), committed);
      GrowsOn(start, before, ledger.State(), quiet, own, {});
    }

    /** One of our own instructions has been executed, or has failed and changed nothing. */
    ghost method AfterOwn(before: LedgerModel.Ledger, ix: Instruction)
      requires Accounted(ledger.world, before) && signer == before.strategy.authority
      requires AllAnchored(ledger.world, before, committed)
      requires ledger.State() == Apply(ledger.world, before, ix)
      ensures ChainValid() && LedgerEvolves(before, ledger.State())
    {
      ApplyKeepsAccounts(ledger.world, before, ix);
      ApplyEvolves(ledger.world, before, ix);
      AnchorsSurvive(ledger.world, before, ledger.State(), committed);
    }

    /** Send our own commit instruction. */
    method SendCommit(
      target: nat, data: seq<byte>, slot: int, unixTs: int, ghost start: LedgerModel.Ledger, ghost quiet: bool)
      returns (failure: Option<LedgerError>)
      requires ChainValid() && Grows(start, ledger.State(), quiet, {})
      modifies ledger
      ensures ChainValid() && Grows(start, ledger.State(), quiet, {})
      ensures match Exec(ledger.world, old(ledger.State()), CommitIx(signer, target, data, slot, unixTs))
              case Ok(n) => failure == None && ledger.State() == n
              case Err(e) => failure == Some(e) && ledger.State() == old(ledger.State())
    {
      hide Grows, LedgerEvolves, Accounted, ExecCommit;
      ghost var before := ledger.State();
      ghost var own: set<nat> := {};
      ghost var ix := CommitIx(signer, target, data, slot, unixTs);
      failure := ledger.CommitDecision(signer, target, data, slot, unixTs);
      AfterOwn(before, ix);
      QuietStepGrows(ledger.world, before, ix, quiet);
      GrowsOn(start, before, ledger.State(), quiet, own, own);
      assert own + own == own;
    }

    method SendSettle(
      c: CommittedReveal, args: SettleArgs, data: seq<byte>, slot: int, ghost start: LedgerModel.Ledger, ghost quiet: bool)
      returns (failure: Option<LedgerError>)
      requires ChainValid() && data == PutSettle(args, []) && Grows(start, ledger.State(), quiet, {})
      modifies ledger
      ensures ChainValid()
      ensures match Exec(ledger.world, old(ledger.State()), OwnSettle(ledger.world, signer, txoracle, c, args, slot))
              case Ok(n) => failure == None && ledger.State() == n
              case Err(e) => failure == Some(e) && ledger.State() == old(ledger.State())
      ensures Grows(start, ledger.State(), quiet, OwnId(c, failure == None))
    {
      hide Grows, LedgerEvolves, Accounted, PutSettle, ExecSettle;
      ghost var before := ledger.State();
      var roots := RootsFor(ledger.world, txoracle, args.ts);
      ghost var ix := SettleIx(signer, c.onChainIndex, data, txoracle, roots, slot);
      failure := ledger.SettleDecision(signer, c.onChainIndex, data, txoracle, roots, slot);
      AfterOwn(before, ix);
      if failure == None {
        SettleGrows(ledger.world, before, ix, quiet);
        GrowsOn(start, before, ledger.State(), quiet, {}, {c.onChainIndex});
        assert {} + {c.onChainIndex} == OwnId(c, true);
      }
    }

    method SendProof(
      target: nat, data: seq<byte>, roots: seq<byte>, ghost start: LedgerModel.Ledger, ghost quiet: bool, ghost own: set<nat>)
      returns (failure: Option<LedgerError>)
      requires ChainValid() && Grows(start, ledger.State(), quiet, own)
      modifies ledger
      ensures ChainValid() && Grows(start, ledger.State(), quiet, own)
      ensures LedgerEvolves(old(ledger.State()), ledger.State())
    {
      hide Grows, LedgerEvolves, Accounted, ExecProve;
      ghost var before := ledger.State();
      ghost var ix := ProveIx(signer, target, data, txoracle, roots);
      failure := ledger.ProveEntryOdds(signer, target, data, txoracle, roots);
      AfterOwn(before, ix);
      QuietStepGrows(ledger.world, before, ix, quiet);
      GrowsOn(start, before, ledger.State(), quiet, own, {});
      assert own + {} == own;
    }

    /** The port's commit: re-read the strategy, insist the reveal was sealed at the index it shows now, send.
        A receipt comes exactly for a commit that landed and was reported; one that landed unreported is on the
        ledger all the same. */
    method PortCommit(
      sealed: RevealArgs, commitHash: seq<byte>, e: Surroundings, ghost start: LedgerModel.Ledger, ghost quiet: bool)
      returns (receipt: Option<nat>, ghost landed: bool)
      requires ChainValid() && Complete(e) && CheckReveal(sealed) == None && quiet == OthersDoNotSettle(e)
      requires sealed.strategy == ledger.world.strategyKey && commitHash == CommitHash(ledger.world, sealed)
      requires Grows(start, ledger.State(), quiet, {})
      modifies ledger
      ensures ChainValid() && Grows(start, ledger.State(), quiet, {})
      ensures landed <==> PortCommits(ledger.world, old(ledger.State()), signer, sealed, e)
      ensures receipt == if landed && e.reported then Some(sealed.index) else None
      ensures landed ==> CommittedAt(ledger.world, start, ledger.State(), sealed)
    {
      receipt, landed := None, false;
      Interleave(e.others[1], start, quiet, {});
      if !e.answers[1] { return; }
      var index := ledger.strategy.decisionsCount;
      if sealed.index != index { return; }
      var data := CommitData(CommitArgs(commitHash, sealed.fixtureId, sealed.market));
      if data.None? { return; }
      var executed := LandCommit(sealed, data.value, e, start, quiet);
      landed := executed;
      if executed && e.reported {
        receipt := Some(index);
      }
    }

    /** Our commit reaches the program. */
    method LandCommit(
      sealed: RevealArgs, data: seq<byte>, e: Surroundings, ghost start: LedgerModel.Ledger, ghost quiet: bool)
      returns (executed: bool)
      requires ChainValid() && Complete(e) && CheckReveal(sealed) == None && quiet == OthersDoNotSettle(e)
      requires sealed.strategy == ledger.world.strategyKey && Grows(start, ledger.State(), quiet, {})
      requires CommitData(CommitArgs(CommitHash(ledger.world, sealed), sealed.fixtureId, sealed.market)) == Some(data)
      modifies ledger
      ensures ChainValid() && Grows(start, ledger.State(), quiet, {})
      ensures executed <==> CommitExecutes(ledger.world, ApplyAll(ledger.world, old(ledger.State()), e.others[2]), signer,
                                           sealed, e)
      ensures executed ==> CommittedAt(ledger.world, start, ledger.State(), sealed)
    {
      Interleave(e.others[2], start, quiet, {});
      if !e.lands { return false; }
      ghost var before := ledger.State();
      var failure := SendCommit(sealed.index, data, e.slot, e.unixTs, start, quiet);
      if failure.None? {
        CommitAnchors(ledger.world, start, before, signer, sealed, e, ledger.State());
      }
      return failure.None?;
    }

    /** Seal a decision at an on-chain index and hash it; None if it cannot be sealed or encoded. */
    method Seal(d: D.Decision, e: Surroundings) returns (sealed: Option<(RevealArgs, seq<byte>)>)
      requires 0 <= ledger.strategy.decisionsCount
      ensures match SealFor(ledger.world, ledger.State(), d, e)
              case None => sealed == None
              case Some(r) => sealed == Some((r, CommitHash(ledger.world, r)))
    {
      var r := BuildReveal(d, ledger.world.strategyKey, ledger.strategy.decisionsCount, e.signalHash, e.nonce);
      if r.None? { return None; }
      var encoded := EncodeRevealArgs(r.value);
      if encoded.Err? { return None; }
      return Some((r.value, ledger.world.keccak(encoded.value)));
    }

    /** Everything a commit does on chain; None at the first step that fails. */
    method TryCommit(position: D.Position, e: Surroundings)
      returns (done: Option<(CommittedReveal, CommitView)>, ghost landed: bool)
      requires ChainValid() && Complete(e)
      modifies ledger
      ensures ChainValid() && Grows(old(ledger.State()), ledger.State(), OthersDoNotSettle(e), {})
      ensures landed <==> CommitLands(ledger.world, old(ledger.State()), signer, position.decision, e)
      ensures done.Some? <==> landed && e.reported
      ensures done.Some? ==>
                && CommitRecorded(ledger.world, ledger.State(), position, done.value.0, done.value.1)
                && NewOpen(old(ledger.State()), ledger.State(), done.value.0.onChainIndex)
      ensures landed ==>
                var sealed := SealFor(ledger.world, FirstRead(ledger.world, old(ledger.State()), e), position.decision, e).value;
                && CommittedAt(ledger.world, old(ledger.State()), ledger.State(), sealed)
                && (done.Some? ==> done.value.0 == CommittedReveal(sealed, sealed.index))
    {
      hide Grows, LedgerEvolves, Accounted, AllAnchored, CommitExecutes;
      done, landed := None, false;
      ghost var start, quiet := ledger.State(), OthersDoNotSettle(e);
      GrowsNothing(start, quiet);
      Interleave(e.others[0], start, quiet, {});
      if !e.answers[0] { return; }
      var sealed := Seal(position.decision, e);
      if sealed.None? { return; }
      SealForSeals(ledger.world, ledger.State(), position.decision, e);
      var receipt;
      receipt, landed := PortCommit(sealed.value.0, sealed.value.1, e, start, quiet);
      if receipt.Some? {
        done := Some((CommittedReveal(sealed.value.0, receipt.value),
                      CommitView(position.index, receipt.value, sealed.value.1, position.decision, position.committedAtMs)));
      }
    }

    /** A pipeline commit. `landed` says whether our commit was executed: then the ledger holds the decision,
        open, at an index that was free. The reveal is remembered exactly when we also hear of it, and it is
        then anchored at exactly the remembered index, whatever others wrote meanwhile; otherwise an error is
        recorded and nothing else changes on our side. */
    method OnCommit(position: D.Position, e: Surroundings)
      returns (ghost landed: bool, ghost done: Option<(CommittedReveal, CommitView)>)
      requires Valid() && Complete(e)
      modifies this`committed, ledger, store
      ensures Valid() && Grows(old(ledger.State()), ledger.State(), OthersDoNotSettle(e), {})
      ensures landed <==> CommitLands(ledger.world, old(ledger.State()), signer, position.decision, e)
      ensures landed ==>
                CommittedAt(ledger.world, old(ledger.State()), ledger.State(),
                  SealFor(ledger.world, FirstRead(ledger.world, old(ledger.State()), e), position.decision, e).value)
      ensures done.Some? <==> landed && e.reported
      ensures done.None? ==>
                && committed == old(committed) && store.positions == old(store.positions)
                && store.recentErrors == WithError(old(store.recentErrors), ErrorView("commit", position.index))
      ensures done.Some? ==>
                && CommitRecorded(ledger.world, ledger.State(), position, done.value.0, done.value.1)
                && NewOpen(old(ledger.State()), ledger.State(), done.value.0.onChainIndex)
                && committed == old(committed)[position.index := done.value.0]
                && store.positions
                   == old(store.positions)[position.index := PositionEntry(done.value.1, Committed, None)]
      ensures store.realizedPnl == old(store.realizedPnl)
      ensures old(store.Reconciled()) && position.index !in old(store.positions) ==> store.Reconciled()
    {
      hide Grows, CommitLands, CommittedAt, Accounted, Anchored, Seals, SealFor, NewOpen;
      var outcome;
      outcome, landed := TryCommit(position, e);
      Remember(position, outcome);
      done := outcome;
    }

    /** Keep a reported commit, in the map and in the store, or record that it failed. */
    method Remember(position: D.Position, done: Option<(CommittedReveal, CommitView)>)
      requires store.Valid() && AllSealed(committed, store.positions)
      requires done.Some? ==> Seals(done.value.0.sealed, position.decision)
                              && done.value.1.index == position.index && done.value.1.decision == position.decision
      modifies this`committed, store
      ensures store.Valid() && AllSealed(committed, store.positions)
      ensures done.None? ==>
                && committed == old(committed) && store.positions == old(store.positions)
                && store.recentErrors == WithError(old(store.recentErrors), ErrorView("commit", position.index))
      ensures done.Some? ==>
                && committed == old(committed)[position.index := done.value.0]
                && store.positions
                   == old(store.positions)[position.index := PositionEntry(done.value.1, Committed, None)]
      ensures store.realizedPnl == old(store.realizedPnl)
      ensures old(store.Reconciled()) && position.index !in old(store.positions) ==> store.Reconciled()
    {
      if done.None? {
        store.RecordError("commit", position.index);
      } else {
        committed := committed[position.index := done.value.0];
        store.RecordCommit(done.value.1);
      }
    }

    /** The port's settle: send, then read the decision back, so the outcome is the ledger's own. A receipt
        comes exactly for a settle that landed, was reported and could be read back. */
    method PortSettle(
      c: CommittedReveal, args: SettleArgs, e: Surroundings, ghost start: LedgerModel.Ledger, ghost quiet: bool)
      returns (receipt: Option<(bool, int)>, ghost refusal: Option<LedgerError>, ghost landed: bool)
      requires ChainValid() && Complete(e) && Anchored(ledger.world, ledger.State(), c) && quiet == OthersDoNotSettle(e)
      requires args.sealed == c.sealed && SettleLengthsFit(args) && ClaimsProof(args)
      requires Grows(start, ledger.State(), quiet, {})
      modifies ledger
      ensures ChainValid() && Grows(start, ledger.State(), quiet, OwnId(c, landed))
      ensures landed <==> Executes(ledger.world, ApplyAll(ledger.world, old(ledger.State()), e.others[1]), signer,
                                   txoracle, c, args, e)
      ensures refusal.Some? ==> Remaining(refusal.value)
      ensures receipt.Some? <==> landed && Receipted(e)
      ensures receipt.Some? ==> ReceiptFor(ledger.State(), c, args, receipt.value)
    {
      hide Grows, LedgerEvolves, Accounted, AllAnchored, CheckSettle, PutSettle, OwnSettle, ReceiptFor, Remaining, ClaimsProof;
      receipt, refusal, landed := None, None, false;
      var encoded := EncodeSettleArgs(args);
      if encoded.Err? { return; }
      ghost var before := ledger.State();
      Interleave(e.others[1], start, quiet, {});
      AnchorSurvives(ledger.world, before, ledger.State(), c);
      if !e.lands { return; }
      var failure := LandSettle(c, args, encoded.value, e.slot, start, quiet);
      refusal, landed := failure, failure == None;
      if failure.None? && e.reported {
        receipt := ReadSettled(c, args, e, start, quiet);
      }
    }

    /** Our settle reaches the program. */
    method LandSettle(
      c: CommittedReveal, args: SettleArgs, data: seq<byte>, slot: int, ghost start: LedgerModel.Ledger, ghost quiet: bool)
      returns (refusal: Option<LedgerError>)
      requires ChainValid() && Anchored(ledger.world, ledger.State(), c)
      requires args.sealed == c.sealed && SettleLengthsFit(args) && ClaimsProof(args)
      requires CheckSettle(args) == None && data == PutSettle(args, []) && Grows(start, ledger.State(), quiet, {})
      modifies ledger
      ensures ChainValid() && Grows(start, ledger.State(), quiet, OwnId(c, refusal == None))
      ensures refusal == None
         <==> Exec(ledger.world, old(ledger.State()), OwnSettle(ledger.world, signer, txoracle, c, args, slot)).Ok?
      ensures refusal.Some? ==> Remaining(refusal.value)
      ensures refusal == None ==>
                SettledThere(ledger.State(), c, args)
    {
      hide Grows, LedgerEvolves, Accounted, AllAnchored, Remaining, PutSettle, CheckSettle;
      OwnSettleAnswer(ledger.world, ledger.State(), txoracle, c, args, slot);
      refusal := SendSettle(c, args, data, slot, start, quiet);
    }

    /** Read a decision we just settled; others may act first, but a settled record is terminal. */
    method ReadSettled(
      c: CommittedReveal, args: SettleArgs, e: Surroundings, ghost start: LedgerModel.Ledger, ghost quiet: bool)
      returns (receipt: Option<(bool, int)>)
      requires ChainValid() && Complete(e) && quiet == OthersDoNotSettle(e)
      requires SettledThere(ledger.State(), c, args)
      requires Grows(start, ledger.State(), quiet, OwnId(c, true)) && args.sealed == c.sealed
      modifies ledger
      ensures ChainValid() && Grows(start, ledger.State(), quiet, OwnId(c, true))
      ensures receipt.Some? <==> e.answers[1]
      ensures receipt.Some? ==> ReceiptFor(ledger.State(), c, args, receipt.value)
    {
      ghost var settled := ledger.State();
      Interleave(e.others[2], start, quiet, OwnId(c, true));
      assert Evolves(settled.decisions[c.onChainIndex], ledger.decisions[c.onChainIndex]);
      if !e.answers[1] { return None; }
      var d := ledger.decisions[c.onChainIndex];
      return Some((d.status == STATUS_SETTLED && d.outcomeSide == c.sealed.side, d.pnl));
    }

    /** Everything a settlement does off the store: fetch the proof, derive the claim, settle, read back. */
    method TrySettle(position: P.SettledPosition, pending: CommittedReveal, e: Surroundings)
      returns (view: Option<SettleView>, ghost refusal: Option<LedgerError>, ghost landed: bool)
      requires ChainValid() && Complete(e) && Anchored(ledger.world, ledger.State(), pending)
      requires Seals(pending.sealed, position.decision)
      modifies ledger
      ensures ChainValid()
      ensures Grows(old(ledger.State()), ledger.State(), OthersDoNotSettle(e), OwnId(pending, landed))
      ensures landed <==> SettleLands(ledger.world, old(ledger.State()), signer, txoracle, pending, e)
      ensures refusal.Some? ==> Remaining(refusal.value)
      ensures view.Some? <==> landed && Receipted(e)
      ensures view.Some? ==> Earned(ledger.State(), pending, view.value, position, e) && !view.value.entryOddsProven
    {
      hide Grows, LedgerEvolves, Accounted, AllAnchored, Anchored, Seals, Executes, Remaining, ReceiptFor, Earned, SettleArgsFor, ClaimsProof, SettleLengthsFit;
      refusal, view, landed := None, None, false;
      ghost var start, quiet := ledger.State(), OthersDoNotSettle(e);
      GrowsNothing(start, quiet);
      Interleave(e.others[0], start, quiet, {});
      AnchorSurvives(ledger.world, start, ledger.State(), pending);
      var args := SettleArgsFor(pending, e);
      if args.None? { return; }
      ArgsFit(pending, e);
      var receipt;
      receipt, refusal, landed := PortSettle(pending, args.value, e, start, quiet);
      if receipt.Some? {
        view := Some(ViewOf(position, receipt.value));
        ReceiptIsEarned(ledger.State(), pending, receipt.value, position, e);
      }
    }

    /** A pipeline settlement. It targets the decision remembered for the position. `landed` says whether our
        settle was executed; the store books it exactly when we also hear of it, and then shows the ledger's own
        record. `refusal` is the program's answer if the transaction landed and failed: never a commit, routing
        or side mismatch. */
    method OnSettle(position: P.SettledPosition, e: Surroundings)
      returns (ghost refusal: Option<LedgerError>, ghost landed: bool, ghost booked: Option<SettleView>)
      requires Valid() && Complete(e)
      requires position.index in committed ==> position.decision == store.positions[position.index].commit.decision
      modifies ledger, store
      ensures Valid() && committed == old(committed)
      ensures landed <==> position.index in committed
                          && SettleLands(ledger.world, old(ledger.State()), signer, txoracle, committed[position.index], e)
      ensures Grows(old(ledger.State()), ledger.State(), OthersDoNotSettle(e), OwnIds(committed, position.index, landed))
      ensures refusal.Some? ==> Remaining(refusal.value)
      ensures booked.Some? <==> landed && Receipted(e)
      ensures booked.None? ==>
                && store.positions == old(store.positions) && store.realizedPnl == old(store.realizedPnl)
                && store.recentErrors == WithError(old(store.recentErrors), ErrorView("settle", position.index))
      ensures booked.Some? ==>
                && position.index in old(store.positions)
                && Earned(ledger.State(), committed[position.index], booked.value, position, e)
                && store.positions == old(store.positions)[position.index :=
                     PositionEntry(old(store.positions)[position.index].commit, Settled, booked)]
                && store.realizedPnl == old(store.realizedPnl) + booked.value.pnl
      ensures old(store.Reconciled() && NotYetSettled(store.positions, position.index)) ==> store.Reconciled()
    {
      hide Grows, LedgerEvolves, Accounted, SettleLands, Earned, Remaining;
      ghost var before := ledger.State();
      refusal, landed, booked := None, false, None;
      if position.index !in committed {
        GrowsNothing(before, OthersDoNotSettle(e));
        Book(position.index, None);
        return;
      }
      var view;
      view, refusal, landed := TrySettle(position, committed[position.index], e);
      if view.None? {
        Book(position.index, None);
      } else {
        booked := BookAndProve(position, view.value, e, before);
      }
    }

    /** Book a settlement we heard of, then try to prove its entry odds. */
    method BookAndProve(
      position: P.SettledPosition, view: SettleView, e: Surroundings, ghost start: LedgerModel.Ledger)
      returns (ghost booked: Option<SettleView>)
      requires Valid() && Complete(e) && position.index in committed && !view.entryOddsProven
      requires Earned(ledger.State(), committed[position.index], view, position, e)
      requires Grows(start, ledger.State(), OthersDoNotSettle(e), OwnId(committed[position.index], true))
      modifies ledger, store
      ensures Valid()
      ensures Grows(start, ledger.State(), OthersDoNotSettle(e), OwnId(committed[position.index], true))
      ensures booked.Some? && Earned(ledger.State(), committed[position.index], booked.value, position, e)
      ensures position.index in old(store.positions)
      ensures store.positions == old(store.positions)[position.index :=
                PositionEntry(old(store.positions)[position.index].commit, Settled, booked)]
      ensures store.realizedPnl == old(store.realizedPnl) + booked.value.pnl
      ensures old(store.Reconciled() && NotYetSettled(store.positions, position.index)) ==> store.Reconciled()
    {
      hide Grows, LedgerEvolves, Accounted;
      ghost var before := store.positions;
      Book(position.index, Some(view));
      ghost var known := store.positions;
      ghost var search;
      search, booked := ProveAfterSettle(position, view, e, start);
      BookedTwice(before, known, store.positions, position.index, Some(view), booked);
    }

    /** The port's entry-odds proof: send, then read the flag back. True only if the ledger shows it. */
    method PortProve(
      c: CommittedReveal, args: ProveOddsArgs, e: Surroundings, ghost start: LedgerModel.Ledger, ghost quiet: bool)
      returns (proven: bool)
      requires ChainValid() && Complete(e) && quiet == OthersDoNotSettle(e) && c.onChainIndex in ledger.decisions
      requires Grows(start, ledger.State(), quiet, OwnId(c, true))
      modifies ledger
      ensures ChainValid() && Grows(start, ledger.State(), quiet, OwnId(c, true))
      ensures LedgerEvolves(old(ledger.State()), ledger.State())
      ensures proven ==> c.onChainIndex in ledger.decisions && ledger.decisions[c.onChainIndex].entryOddsProven
    {
      ghost var before := ledger.State();
      var reported := LandProof(c, args, e, start, quiet);
      if !reported { return false; }
      ghost var landed := ledger.State();
      Interleave(e.others[4], start, quiet, OwnId(c, true));
      EvolvesOn(before, landed, ledger.State());
      if !e.answers[2] { return false; }
      return ledger.decisions[c.onChainIndex].entryOddsProven;
    }

    /** Encode and send the proof; true if it landed and was reported. */
    method LandProof(
      c: CommittedReveal, args: ProveOddsArgs, e: Surroundings, ghost start: LedgerModel.Ledger, ghost quiet: bool)
      returns (reported: bool)
      requires ChainValid() && Complete(e) && quiet == OthersDoNotSettle(e)
      requires Grows(start, ledger.State(), quiet, OwnId(c, true))
      modifies ledger
      ensures ChainValid() && Grows(start, ledger.State(), quiet, OwnId(c, true))
      ensures LedgerEvolves(old(ledger.State()), ledger.State())
    {
      hide Grows, LedgerEvolves, Accounted, AllAnchored, CheckProveOdds, PutProveOdds;
      ghost var before := ledger.State();
      GrowsNothing(before, quiet);
      var encoded := EncodeProveOddsArgs(args);
      if encoded.Err? { return false; }
      Interleave(e.others[3], start, quiet, OwnId(c, true));
      if !e.quoteLands { return false; }
      ghost var sent := ledger.State();
      var day := EpochDayLe(args.ts);
      var roots := if day.Some? then ledger.world.oddsRoots(day.value, txoracle) else [];
      var failure := SendProof(c.onChainIndex, encoded.value, roots, start, quiet, OwnId(c, true));
      EvolvesOn(before, sent, ledger.State());
      return failure.None? && e.quoteReported;
    }

    /** After a booked settlement: search past odds for the sealed quote, try to prove it, and mark the position
        proven only on the ledger's word. If nothing is found nothing happens; a found quote that is not proven
        is an error of its own. */
    method ProveAfterSettle(
      position: P.SettledPosition, view: SettleView, e: Surroundings, ghost start: LedgerModel.Ledger)
      returns (ghost search: Search, ghost booked: Option<SettleView>)
      requires Valid() && Complete(e) && position.index in committed && !view.entryOddsProven
      requires store.positions[position.index].settlement == Some(view) && store.positions[position.index].status == Settled
      requires Earned(ledger.State(), committed[position.index], view, position, e)
      requires Grows(start, ledger.State(), OthersDoNotSettle(e), OwnId(committed[position.index], true))
      modifies ledger, store
      ensures Valid()
      ensures Grows(start, ledger.State(), OthersDoNotSettle(e), OwnId(committed[position.index], true))
      ensures match e.archive
              case None => search == NoRecord
              case Some(archive) =>
                Discovers(archive, WantedFor(ledger.world.resultMarket, committed[position.index].sealed),
                          e.proof.value.ts, search)
      ensures !search.Found? ==>
                booked == Some(view) && ledger.State() == old(ledger.State()) && store.recentErrors == old(store.recentErrors)
      ensures booked.Some? && booked.value.pnl == view.pnl
      ensures search.Found? && !booked.value.entryOddsProven ==>
                store.recentErrors == WithError(old(store.recentErrors), ErrorView("prove-odds", position.index))
      ensures Earned(ledger.State(), committed[position.index], booked.value, position, e)
      ensures store.positions
           == old(store.positions)[position.index := old(store.positions)[position.index].(settlement := booked)]
      ensures store.realizedPnl == old(store.realizedPnl)
      ensures old(store.Reconciled()) ==> store.Reconciled()
    {
      hide Grows, LedgerEvolves, Accounted, AllAnchored, Discovers;
      search, booked := NoRecord, Some(view);
      var c := committed[position.index];
      if e.archive.None? { return; }
      var found := DiscoverEntryOddsRecord(e.archive.value, WantedFor(ledger.world.resultMarket, c.sealed), e.proof.value.ts);
      search := found;
      if !found.Found? { return; }
      ghost var before := ledger.State();
      var proven := ProveFound(c, found, e, start);
      BackedSurvives(before, ledger.State(), c, view);
      MarkProof(position.index, proven);
      if proven {
        booked := Some(view.(entryOddsProven := true));
      }
    }

    /** Assemble the proof of a found quote and have the port prove it. */
    method ProveFound(c: CommittedReveal, found: Search, e: Surroundings, ghost start: LedgerModel.Ledger)
      returns (proven: bool)
      requires ChainValid() && Complete(e) && found.Found? && c.onChainIndex in ledger.decisions
      requires Grows(start, ledger.State(), OthersDoNotSettle(e), OwnId(c, true))
      modifies ledger
      ensures ChainValid() && Grows(start, ledger.State(), OthersDoNotSettle(e), OwnId(c, true))
      ensures LedgerEvolves(old(ledger.State()), ledger.State())
      ensures proven ==> c.onChainIndex in ledger.decisions && ledger.decisions[c.onChainIndex].entryOddsProven
    {
      hide Grows, Accounted, AllAnchored, BuildProveOddsArgs;
      var args := BuildProveOddsArgs(found.proof, c.sealed, found.sideIndex);
      if args.None? { return false; }
      proven := PortProve(c, args.value, e, start, OthersDoNotSettle(e));
    }

    method MarkProof(index: nat, proven: bool)
      requires store.Valid() && AllSealed(committed, store.positions)
      requires index in store.positions && store.positions[index].settlement.Some?
      modifies store
      ensures store.Valid() && AllSealed(committed, store.positions)
      ensures store.realizedPnl == old(store.realizedPnl) && (old(store.Reconciled()) ==> store.Reconciled())
      ensures !proven ==> store.recentErrors == WithError(old(store.recentErrors), ErrorView("prove-odds", index))
      ensures var e := old(store.positions)[index];
              store.positions == old(store.positions)[index :=
                if proven then e.(settlement := Some(e.settlement.value.(entryOddsProven := true))) else e]
    {
      if proven {
        store.MarkOddsProven(index);
      } else {
        store.RecordError("prove-odds", index);
      }
    }

    /** Mark the position settled with the ledger's result, or record that its settlement failed. */
    method Book(index: nat, view: Option<SettleView>)
      requires store.Valid() && AllSealed(committed, store.positions)
      requires view.Some? ==> index in store.positions
      modifies store
      ensures store.Valid() && AllSealed(committed, store.positions)
      ensures view.None? ==>
                && store.positions == old(store.positions) && store.realizedPnl == old(store.realizedPnl)
                && store.recentErrors == WithError(old(store.recentErrors), ErrorView("settle", index))
      ensures view.Some? ==>
                && store.positions == old(store.positions)[index :=
                     PositionEntry(old(store.positions)[index].commit, Settled, view)]
                && store.realizedPnl == old(store.realizedPnl) + view.value.pnl
      ensures old(store.Reconciled() && NotYetSettled(store.positions, index)) ==> store.Reconciled()
    {
      if view.None? {
        store.RecordError("settle", index);
      } else {
        store.MarkSettled(index, view.value);
      }
    }
  }

  lemma BookedTwice(
    before: map<nat, PositionEntry>, known: map<nat, PositionEntry>, now: map<nat, PositionEntry>, k: nat,
    first: Option<SettleView>, second: Option<SettleView>)
    requires k in before && known == before[k := PositionEntry(before[k].commit, Settled, first)]
    requires now == known[k := known[k].(settlement := second)]
    ensures now == before[k := PositionEntry(before[k].commit, Settled, second)]
  {
  }

  /** A record as a settle with these arguments leaves it. */
  predicate SettledAs(d: DecisionAccount, args: SettleArgs) {
    && d.status == STATUS_SETTLED && d.outcomeSide == args.claimedResult
    && Some(d.pnl) == ComputePnlChecked(Won(args), args.sealed.stake, args.sealed.entryOddsMilli)
  }

  /** The ledger holds such a record at the remembered index. */
  predicate SettledThere(l: LedgerModel.Ledger, c: CommittedReveal, args: SettleArgs) {
    c.onChainIndex in l.decisions && SettledAs(l.decisions[c.onChainIndex], args)
  }

  /** What the sink shows for a receipt, before any proof of the entry odds. */
  function ViewOf(position: P.SettledPosition, receipt: (bool, int)): SettleView {
    SettleView(position.index, position.result, receipt.0, receipt.1, position.settledSeq, position.settledAtMs, false)
  }

  /** A settlement worth showing: the sealed bet's result on the proof's own side, as the ledger holds it. */
  ghost predicate Earned(
    l: LedgerModel.Ledger, c: CommittedReveal, view: SettleView, position: P.SettledPosition, e: Surroundings)
  {
    e.proof.Some? && Booked(view, position, e.proof.value) && Backed(l, c, view)
  }

  lemma ReceiptIsEarned(
    l: LedgerModel.Ledger, c: CommittedReveal, receipt: (bool, int), position: P.SettledPosition, e: Surroundings)
    requires SettleArgsFor(c, e).Some? && ReceiptFor(l, c, SettleArgsFor(c, e).value, receipt)
    requires Seals(c.sealed, position.decision)
    ensures Earned(l, c, ViewOf(position, receipt), position, e)
  {
  }

  /** A receipt is for the sealed bet on the claimed side, and agrees with the settled record it was read from. */
  ghost predicate ReceiptFor(l: LedgerModel.Ledger, c: CommittedReveal, args: SettleArgs, receipt: (bool, int)) {
    && receipt.0 == (args.claimedResult == c.sealed.side)
    && Some(receipt.1) == ComputePnlChecked(receipt.0, c.sealed.stake, c.sealed.entryOddsMilli)
    && c.onChainIndex in l.decisions
    && var d := l.decisions[c.onChainIndex];
       d.status == STATUS_SETTLED && d.pnl == receipt.1 && (receipt.0 <==> d.outcomeSide == c.sealed.side)
  }

  /** A recorded commit: the ledger anchors the reveal, the reveal seals the decision, and the store's view
      shows the same index, hash and decision. */
  ghost predicate CommitRecorded(
    w: World, l: LedgerModel.Ledger, position: D.Position, c: CommittedReveal, view: CommitView)
  {
    && Anchored(w, l, c) && Seals(c.sealed, position.decision)
    && view.index == position.index && view.decision == position.decision
    && view.onChainIndex == c.onChainIndex && view.commitHash == CommitHash(w, c.sealed)
  }

  predicate NotYetSettled(positions: map<nat, PositionEntry>, k: nat) {
    k in positions ==> positions[k].settlement.None?
  }

  /** What the store books: the sealed bet's profit or loss on the side the proof's goals name. */
  predicate Booked(view: SettleView, position: P.SettledPosition, v: Validation) {
    && v.statToProve2.Some?
    && view.index == position.index && view.settledSeq == position.settledSeq && view.settledAtMs == position.settledAtMs
    && view.result == position.result
    && view.won == (Some(SideOfGoals(v.statToProve.statValue, v.statToProve2.value.statValue)) == SideOf(position.decision.outcome))
    && Some(view.pnl) == ComputePnlChecked(view.won, position.decision.stake, position.decision.entryOdds)
  }

  /** The proof shows the same result the pipeline settled on. */
  predicate ProofCarriesResult(position: P.SettledPosition, v: Validation) {
    v.statToProve2.Some? && SideOf(position.result) == Some(SideOfGoals(v.statToProve.statValue, v.statToProve2.value.statValue))
  }

  /** A settlement as the pipeline computes it. */
  predicate PipelineBooked(position: P.SettledPosition) {
    && position.won == (position.result == position.decision.outcome)
    && position.pnl == D.ComputePnl(position.won, position.decision.stake, position.decision.entryOdds)
  }

  /** When the proof carries the pipeline's result, the ledger's win and PnL are the pipeline's. */
  lemma BooksAgree(view: SettleView, position: P.SettledPosition, v: Validation)
    requires Booked(view, position, v) && ProofCarriesResult(position, v) && PipelineBooked(position)
    ensures view.won == position.won && view.pnl == position.pnl
  {
    PnlAgrees(view.won, position.decision.stake, position.decision.entryOdds);
  }

  // ---------------------------------------------------------------------------------------------
  // A whole run of sink calls

  datatype SinkEvent = Commits(position: D.Position) | Settles(settled: P.SettledPosition)

  function IndexOf(e: SinkEvent): nat { if e.Commits? then e.position.index else e.settled.index }

  /** Two calls about one position must be its commit and then its settlement, with the same decision. */
  predicate Follows(earlier: SinkEvent, later: SinkEvent) {
    IndexOf(earlier) == IndexOf(later) ==>
      earlier.Commits? && later.Settles? && earlier.position.decision == later.settled.decision
  }

  /** What the pipeline guarantees about its calls: each index is committed at most once and then settled at
      most once, and a settlement is booked by the pipeline's own arithmetic. */
  ghost predicate PipelineCalls(events: seq<SinkEvent>) {
    && (forall i, j :: 0 <= i < j < |events| ==> Follows(events[i], events[j]))
    && (forall j :: 0 <= j < |events| && events[j].Settles? ==> PipelineBooked(events[j].settled))
  }

  predicate Commits(events: seq<SinkEvent>, n: nat, k: nat, d: D.Decision)
    requires n <= |events|
  {
    exists i :: 0 <= i < n && events[i].Commits? && events[i].position.index == k && events[i].position.decision == d
  }

  /** A call among the first n settles position k; if `exact`, with the win and PnL of this view. */
  predicate Settles(events: seq<SinkEvent>, n: nat, k: nat, view: SettleView, exact: bool)
    requires n <= |events|
  {
    exists j :: 0 <= j < n && events[j].Settles? && events[j].settled.index == k
                && (exact ==> events[j].settled.won == view.won && events[j].settled.pnl == view.pnl)
  }

  /** Every stored position is one the pipeline committed in its first n calls, and every stored settlement is
      for one it settled in them, if `exact` with the pipeline's own win and PnL. */
  ghost predicate StoreMirrors(positions: map<nat, PositionEntry>, events: seq<SinkEvent>, n: nat, exact: bool)
    requires n <= |events|
  {
    && (forall k :: k in positions ==> Commits(events, n, k, positions[k].commit.decision))
    && (forall k :: k in positions && positions[k].settlement.Some? ==>
          Settles(events, n, k, positions[k].settlement.value, exact))
  }

  /** Whenever a proof arrives for a settlement, it shows the result the pipeline settled on. */
  ghost predicate ProofsCarryResults(events: seq<SinkEvent>, surroundings: seq<Surroundings>)
    requires |surroundings| == |events|
  {
    forall j :: 0 <= j < |events| && events[j].Settles? && surroundings[j].proof.Some?
                && surroundings[j].proof.value.statToProve2.Some?
      ==> ProofCarriesResult(events[j].settled, surroundings[j].proof.value)
  }

  lemma MirrorGrows(positions: map<nat, PositionEntry>, events: seq<SinkEvent>, n: nat, exact: bool)
    requires n < |events| && StoreMirrors(positions, events, n, exact)
    ensures StoreMirrors(positions, events, n + 1, exact)
  {
    forall k | k in positions
      ensures Commits(events, n + 1, k, positions[k].commit.decision)
    {
      var i :| 0 <= i < n && events[i].Commits? && events[i].position.index == k
               && events[i].position.decision == positions[k].commit.decision;
      assert 0 <= i < n + 1;
    }
    forall k | k in positions && positions[k].settlement.Some?
      ensures Settles(events, n + 1, k, positions[k].settlement.value, exact)
    {
      var view := positions[k].settlement.value;
      var j :| 0 <= j < n && events[j].Settles? && events[j].settled.index == k
               && (exact ==> events[j].settled.won == view.won && events[j].settled.pnl == view.pnl);
      assert 0 <= j < n + 1;
    }
  }

  /** A commit call is for an index the store has not seen. */
  lemma CommitIsNew(positions: map<nat, PositionEntry>, events: seq<SinkEvent>, n: nat, exact: bool)
    requires n < |events| && PipelineCalls(events) && StoreMirrors(positions, events, n, exact) && events[n].Commits?
    ensures events[n].position.index !in positions
  {
    assert forall i :: 0 <= i < n ==> Follows(events[i], events[n]);
  }

  /** A settle call is for the decision that was committed, and for a position not yet settled. */
  lemma SettleIsFirst(positions: map<nat, PositionEntry>, events: seq<SinkEvent>, n: nat, exact: bool)
    requires n < |events| && PipelineCalls(events) && StoreMirrors(positions, events, n, exact) && events[n].Settles?
    ensures var k := events[n].settled.index;
            NotYetSettled(positions, k) && (k in positions ==> positions[k].commit.decision == events[n].settled.decision)
  {
    assert forall i :: 0 <= i < n ==> Follows(events[i], events[n]);
    var k := events[n].settled.index;
    if k in positions {
      assert Commits(events, n, k, positions[k].commit.decision);
    }
  }

  lemma CommitMirrors(positions: map<nat, PositionEntry>, events: seq<SinkEvent>, n: nat, view: CommitView, exact: bool)
    requires n < |events| && StoreMirrors(positions, events, n, exact) && events[n].Commits?
    requires view.index == events[n].position.index && view.decision == events[n].position.decision
    ensures StoreMirrors(positions[view.index := PositionEntry(view, Committed, None)], events, n + 1, exact)
  {
    MirrorGrows(positions, events, n, exact);
    assert Commits(events, n + 1, view.index, view.decision);
  }

  lemma SettleMirrors(
    positions: map<nat, PositionEntry>, events: seq<SinkEvent>, n: nat, view: SettleView, v: Validation, exact: bool)
    requires n < |events| && PipelineCalls(events) && StoreMirrors(positions, events, n, exact) && events[n].Settles?
    requires events[n].settled.index in positions
    requires Booked(view, events[n].settled, v) && (exact ==> ProofCarriesResult(events[n].settled, v))
    ensures var k := events[n].settled.index;
            StoreMirrors(positions[k := PositionEntry(positions[k].commit, Settled, Some(view))], events, n + 1, exact)
  {
    MirrorGrows(positions, events, n, exact);
    if exact {
      BooksAgree(view, events[n].settled, v);
    }
    assert Settles(events, n + 1, events[n].settled.index, view, exact);
  }

  // ---------------------------------------------------------------------------------------------
  // The store against the chain

  predicate AllComplete(surroundings: seq<Surroundings>) {
    forall j :: 0 <= j < |surroundings| ==> Complete(surroundings[j])
  }

  predicate Shown(positions: map<nat, PositionEntry>, k: nat) { k in positions && positions[k].settlement.Some? }

  /** The remembered decision of a position is settled on chain, by whomever. */
  ghost predicate OnChain(l: LedgerModel.Ledger, committed: map<nat, CommittedReveal>, k: nat) {
    k in committed && committed[k].onChainIndex in SettledIds(l)
  }

  /** Call j settles position k, and its settle landed. */
  predicate Lands(events: seq<SinkEvent>, landings: seq<bool>, j: int, k: nat)
    requires |landings| <= |events|
  {
    0 <= j < |landings| && landings[j] && events[j].Settles? && events[j].settled.index == k
  }

  ghost predicate SettledByUs(events: seq<SinkEvent>, landings: seq<bool>, k: nat)
    requires |landings| <= |events|
  {
    exists j :: Lands(events, landings, j, k)
  }

  ghost predicate Heard(events: seq<SinkEvent>, surroundings: seq<Surroundings>, landings: seq<bool>, k: nat)
    requires |landings| <= |events| == |surroundings| && AllComplete(surroundings)
  {
    exists j :: Lands(events, landings, j, k) && Receipted(surroundings[j])
  }

  /** Different positions are remembered at different on-chain indexes. */
  ghost predicate OneEach(committed: map<nat, CommittedReveal>) {
    forall i, k :: i in committed && k in committed && i != k ==> committed[i].onChainIndex != committed[k].onChainIndex
  }

  /** Where the store, the sink's memory and the chain stand after |landings| calls: what the store shows is
      backed by the chain; it shows exactly the settles that landed and were heard of; and, if the others sent
      no settles, the remembered decisions settled on chain are exactly those our own settles settled. */
  ghost predicate Tally(
    l: LedgerModel.Ledger, committed: map<nat, CommittedReveal>, positions: map<nat, PositionEntry>,
    events: seq<SinkEvent>, surroundings: seq<Surroundings>, landings: seq<bool>)
    requires |landings| <= |events| == |surroundings| && AllComplete(surroundings)
  {
    && OneEach(committed) && AllBacked(l, committed, positions)
    && (forall k :: Shown(positions, k) <==> Heard(events, surroundings, landings, k))
    && (forall k :: SettledByUs(events, landings, k) ==> OnChain(l, committed, k))
    && ((forall j :: 0 <= j < |landings| ==> OthersDoNotSettle(surroundings[j])) ==>
          forall k :: OnChain(l, committed, k) ==> SettledByUs(events, landings, k))
  }

  /** A call that lands nothing leaves the history of landings alone. */
  lemma SilentCall(events: seq<SinkEvent>, surroundings: seq<Surroundings>, landings: seq<bool>, k: nat)
    requires |landings| < |events| == |surroundings| && AllComplete(surroundings)
    ensures SettledByUs(events, landings + [false], k) <==> SettledByUs(events, landings, k)
    ensures Heard(events, surroundings, landings + [false], k) <==> Heard(events, surroundings, landings, k)
  {
    assert forall j :: Lands(events, landings + [false], j, k) <==> Lands(events, landings, j, k);
  }

  /** A settle call that lands adds its own position, heard of if it was receipted. */
  lemma LandingCall(events: seq<SinkEvent>, surroundings: seq<Surroundings>, landings: seq<bool>, k: nat)
    requires |landings| < |events| == |surroundings| && AllComplete(surroundings) && events[|landings|].Settles?
    ensures SettledByUs(events, landings + [true], k)
       <==> SettledByUs(events, landings, k) || k == events[|landings|].settled.index
    ensures Heard(events, surroundings, landings + [true], k)
       <==> Heard(events, surroundings, landings, k)
            || (k == events[|landings|].settled.index && Receipted(surroundings[|landings|]))
  {
    var n := |landings|;
    assert forall j :: j < n ==> (Lands(events, landings + [true], j, k) <==> Lands(events, landings, j, k));
    assert Lands(events, landings + [true], n, k) <==> k == events[n].settled.index;
  }

  lemma NotLandedBefore(events: seq<SinkEvent>, landings: seq<bool>, k: nat)
    requires |landings| < |events| && PipelineCalls(events) && k == IndexOf(events[|landings|])
    ensures !SettledByUs(events, landings, k)
  {
    assert forall j :: 0 <= j < |landings| ==> Follows(events[j], events[|landings|]);
  }

  /** A position's settle lands at most once. */
  lemma LandsOnce(events: seq<SinkEvent>, landings: seq<bool>, i: int, j: int, k: nat)
    requires |landings| <= |events| && PipelineCalls(events)
    requires Lands(events, landings, i, k) && Lands(events, landings, j, k)
    ensures i == j
  {
    assert !Follows(events[i], events[j]) && !Follows(events[j], events[i]);
  }

  /** A commit, or none, between two ledgers: positions still map to different indexes, what is shown stays
      backed, and no remembered decision is settled that was not, unless others settle. */
  lemma CommitSettlesNothing(
    l: LedgerModel.Ledger, committed: map<nat, CommittedReveal>, positions: map<nat, PositionEntry>, quiet: bool,
    m: LedgerModel.Ledger, now: map<nat, CommittedReveal>, shown: map<nat, PositionEntry>, key: nat,
    done: Option<(CommittedReveal, CommitView)>)
    requires OneEach(committed) && AllBacked(l, committed, positions) && Grows(l, m, quiet, {})
    requires forall k :: k in committed ==> committed[k].onChainIndex in l.decisions
    requires key !in positions
    requires if done.None? then now == committed && shown == positions
             else now == committed[key := done.value.0] && NewOpen(l, m, done.value.0.onChainIndex)
                  && shown == positions[key := PositionEntry(done.value.1, Committed, None)]
    ensures OneEach(now) && AllBacked(m, now, shown)
    ensures forall k :: Shown(shown, k) <==> Shown(positions, k)
    ensures forall k :: OnChain(l, committed, k) && k != key ==> OnChain(m, now, k)
    ensures quiet ==> forall k :: OnChain(m, now, k) ==> OnChain(l, committed, k)
  {
    hide Backed, LedgerEvolves;
    BackingSurvives(l, m, committed, positions);
  }

  lemma CommitTallies(
    l: LedgerModel.Ledger, committed: map<nat, CommittedReveal>, positions: map<nat, PositionEntry>,
    events: seq<SinkEvent>, surroundings: seq<Surroundings>, landings: seq<bool>,
    m: LedgerModel.Ledger, now: map<nat, CommittedReveal>, shown: map<nat, PositionEntry>,
    done: Option<(CommittedReveal, CommitView)>)
    requires |landings| < |events| == |surroundings| && AllComplete(surroundings) && PipelineCalls(events)
    requires Tally(l, committed, positions, events, surroundings, landings) && events[|landings|].Commits?
    requires Grows(l, m, OthersDoNotSettle(surroundings[|landings|]), {})
    requires forall k :: k in committed ==> committed[k].onChainIndex in l.decisions
    requires events[|landings|].position.index !in positions
    requires var k := events[|landings|].position.index;
             if done.None? then now == committed && shown == positions
             else now == committed[k := done.value.0] && NewOpen(l, m, done.value.0.onChainIndex)
                  && shown == positions[k := PositionEntry(done.value.1, Committed, None)]
    ensures Tally(m, now, shown, events, surroundings, landings + [false])
  {
    hide OneEach, AllBacked, OnChain, Grows, Heard, SettledByUs, NewOpen, Shown;
    var n, key := |landings|, events[|landings|].position.index;
    NotLandedBefore(events, landings, key);
    CommitSettlesNothing(l, committed, positions, OthersDoNotSettle(surroundings[n]), m, now, shown, key, done);
    forall k
      ensures Heard(events, surroundings, landings + [false], k) <==> Heard(events, surroundings, landings, k)
      ensures SettledByUs(events, landings + [false], k) <==> SettledByUs(events, landings, k)
    {
      SilentCall(events, surroundings, landings, k);
    }
  }

  lemma SettleTallies(
    l: LedgerModel.Ledger, committed: map<nat, CommittedReveal>, positions: map<nat, PositionEntry>,
    events: seq<SinkEvent>, surroundings: seq<Surroundings>, landings: seq<bool>,
    m: LedgerModel.Ledger, shown: map<nat, PositionEntry>, landed: bool, booked: Option<SettleView>)
    requires |landings| < |events| == |surroundings| && AllComplete(surroundings)
    requires Tally(l, committed, positions, events, surroundings, landings) && events[|landings|].Settles?
    requires landed ==> events[|landings|].settled.index in committed
    requires Grows(l, m, OthersDoNotSettle(surroundings[|landings|]),
                   OwnIds(committed, events[|landings|].settled.index, landed))
    requires booked.Some? <==> landed && Receipted(surroundings[|landings|])
    requires booked.Some? ==> Backed(m, committed[events[|landings|].settled.index], booked.value)
    requires var k := events[|landings|].settled.index;
             if booked.None? then shown == positions
             else k in positions && shown == positions[k := PositionEntry(positions[k].commit, Settled, booked)]
    ensures Tally(m, committed, shown, events, surroundings, landings + [landed])
  {
    var n, key := |landings|, events[|landings|].settled.index;
    BackingSurvives(l, m, committed, positions);
    forall k
      ensures Shown(shown, k) <==> Heard(events, surroundings, landings + [landed], k)
      ensures SettledByUs(events, landings + [landed], k) ==> OnChain(m, committed, k)
    {
      if landed {
        LandingCall(events, surroundings, landings, k);
      } else {
        SilentCall(events, surroundings, landings, k);
      }
    }
    if forall j :: 0 <= j < n + 1 ==> OthersDoNotSettle(surroundings[j]) {
      forall k | OnChain(m, committed, k)
        ensures SettledByUs(events, landings + [landed], k)
      {
        if landed {
          LandingCall(events, surroundings, landings, k);
        } else {
          SilentCall(events, surroundings, landings, k);
        }
      }
    }
  }

  /** The store shows every remembered decision that is settled on chain. */
  ghost predicate ShowsAll(
    l: LedgerModel.Ledger, committed: map<nat, CommittedReveal>, positions: map<nat, PositionEntry>)
  {
    forall k :: OnChain(l, committed, k) ==> Shown(positions, k)
  }

  /** Every settle that landed was reported and read back. */
  ghost predicate AllHeard(events: seq<SinkEvent>, surroundings: seq<Surroundings>, landings: seq<bool>)
    requires |landings| <= |events| == |surroundings| && AllComplete(surroundings)
  {
    forall j, k :: Lands(events, landings, j, k) ==> Receipted(surroundings[j])
  }

  /** Exactly when the store misses nothing: every settle of ours that landed was reported and read back, and
      nobody else settled a remembered decision. If the others send no settles, the first part decides it. */
  lemma ShowsAllIff(
    l: LedgerModel.Ledger, committed: map<nat, CommittedReveal>, positions: map<nat, PositionEntry>,
    events: seq<SinkEvent>, surroundings: seq<Surroundings>, landings: seq<bool>)
    requires |landings| == |events| == |surroundings| && AllComplete(surroundings) && PipelineCalls(events)
    requires Tally(l, committed, positions, events, surroundings, landings)
    ensures ShowsAll(l, committed, positions)
       <==> AllHeard(events, surroundings, landings)
            && forall k :: OnChain(l, committed, k) ==> SettledByUs(events, landings, k)
    ensures (forall j :: 0 <= j < |landings| ==> OthersDoNotSettle(surroundings[j])) ==>
              (ShowsAll(l, committed, positions) <==> AllHeard(events, surroundings, landings))
  {
    if ShowsAll(l, committed, positions) {
      forall j, k | Lands(events, landings, j, k)
        ensures Receipted(surroundings[j])
      {
        assert SettledByUs(events, landings, k) && OnChain(l, committed, k) && Shown(positions, k);
        var i :| Lands(events, landings, i, k) && Receipted(surroundings[i]);
        LandsOnce(events, landings, i, j, k);
      }
      forall k | OnChain(l, committed, k)
        ensures SettledByUs(events, landings, k)
      {
        var i :| Lands(events, landings, i, k) && Receipted(surroundings[i]);
      }
    }
    if AllHeard(events, surroundings, landings) {
      forall k | OnChain(l, committed, k) && SettledByUs(events, landings, k)
        ensures Shown(positions, k)
      {
        var j :| Lands(events, landings, j, k);
        assert Heard(events, surroundings, landings, k);
      }
    }
  }

  /** The chain and the sink's memory between two calls. */
  datatype Moment = Moment(ledger: LedgerModel.Ledger, committed: map<nat, CommittedReveal>)

  /** A call made at this moment settles its position's remembered decision on chain. */
  predicate LandsAt(
    w: World, signer: seq<byte>, program: seq<byte>, now: Moment, event: SinkEvent, e: Surroundings)
    requires Complete(e)
  {
    && event.Settles? && event.settled.index in now.committed
    && SettleLands(w, now.ledger, signer, program, now.committed[event.settled.index], e)
  }

  /** A commit call made at this moment is remembered: it lands and is reported. */
  predicate HeardOfCommit(w: World, signer: seq<byte>, now: Moment, event: SinkEvent, e: Surroundings)
    requires Complete(e)
  {
    event.Commits? && CommitLands(w, now.ledger, signer, event.position.decision, e) && e.reported
  }

  /** One call: the ledger grows by what it and the others did, and a commit that lands and is reported, and
      nothing else, is newly remembered, at an index that was free before. */
  ghost predicate Advances(
    w: World, signer: seq<byte>, now: Moment, next: Moment, event: SinkEvent, e: Surroundings, landed: bool)
    requires Complete(e)
  {
    && Grows(now.ledger, next.ledger, OthersDoNotSettle(e), OwnIds(now.committed, IndexOf(event), landed))
    && if HeardOfCommit(w, signer, now, event, e) then Remembers(now, next, event) else next.committed == now.committed
  }

  ghost predicate Remembers(now: Moment, next: Moment, event: SinkEvent) {
    && IndexOf(event) !in now.committed
    && exists c :: next.committed == now.committed[IndexOf(event) := c] && NewOpen(now.ledger, next.ledger, c.onChainIndex)
  }

  /** The landings are those of the calls as each was made, and each call advances the moment before it. */
  ghost predicate Happened(
    w: World, signer: seq<byte>, program: seq<byte>, history: seq<Moment>, events: seq<SinkEvent>,
    surroundings: seq<Surroundings>, landings: seq<bool>)
  {
    && |landings| <= |events| == |surroundings| && |history| == |landings| + 1 && AllComplete(surroundings)
    && forall j :: 0 <= j < |landings| ==>
         && (landings[j] <==> LandsAt(w, signer, program, history[j], events[j], surroundings[j]))
         && Advances(w, signer, history[j], history[j + 1], events[j], surroundings[j], landings[j])
  }

  lemma HappensOn(
    w: World, signer: seq<byte>, program: seq<byte>, history: seq<Moment>, events: seq<SinkEvent>,
    surroundings: seq<Surroundings>, landings: seq<bool>, landed: bool, next: Moment)
    requires Happened(w, signer, program, history, events, surroundings, landings) && |landings| < |events|
    requires landed <==> LandsAt(w, signer, program, history[|landings|], events[|landings|], surroundings[|landings|])
    requires Advances(w, signer, history[|landings|], next, events[|landings|], surroundings[|landings|], landed)
    ensures Happened(w, signer, program, history + [next], events, surroundings, landings + [landed])
  {
    hide LandsAt, Advances;
    var n, moments, lands := |landings|, history + [next], landings + [landed];
    forall j | 0 <= j < n + 1
      ensures lands[j] <==> LandsAt(w, signer, program, moments[j], events[j], surroundings[j])
      ensures Advances(w, signer, moments[j], moments[j + 1], events[j], surroundings[j], lands[j])
    {
      if j < n {
        assert lands[j] == landings[j] && moments[j] == history[j] && moments[j + 1] == history[j + 1];
      } else {
        assert lands[j] == landed && moments[j] == history[n] && moments[j + 1] == next;
      }
    }
  }

  /** Where a run stands after |landings| calls: the store mirrors the calls and tallies with the chain; `exact`
      if the proofs carry the pipeline's results. */
  ghost predicate Standing(
    at: Moment, positions: map<nat, PositionEntry>, events: seq<SinkEvent>, surroundings: seq<Surroundings>,
    landings: seq<bool>, exact: bool)
    requires |landings| <= |events| == |surroundings| && AllComplete(surroundings)
  {
    && StoreMirrors(positions, events, |landings|, exact)
    && Tally(at.ledger, at.committed, positions, events, surroundings, landings)
  }

  ghost predicate Served(
    sink: OnChainSink, events: seq<SinkEvent>, surroundings: seq<Surroundings>, landings: seq<bool>, exact: bool)
    requires |landings| <= |events| == |surroundings| && AllComplete(surroundings)
    reads sink, sink.ledger, sink.store
  {
    && sink.Valid() && sink.store.Reconciled()
    && Standing(Moment(sink.ledger.State(), sink.committed), sink.store.positions, events, surroundings, landings, exact)
  }

  /** What the next call may rely on: a commit is for a new index, a settle for its own unsettled decision. */
  lemma NextCall(
    at: Moment, positions: map<nat, PositionEntry>, events: seq<SinkEvent>, surroundings: seq<Surroundings>,
    landings: seq<bool>, exact: bool)
    requires |landings| < |events| == |surroundings| && AllComplete(surroundings) && PipelineCalls(events)
    requires Standing(at, positions, events, surroundings, landings, exact)
    ensures match events[|landings|]
            case Commits(p) => p.index !in positions
            case Settles(q) =>
              NotYetSettled(positions, q.index) && (q.index in positions ==> positions[q.index].commit.decision == q.decision)
  {
    match events[|landings|]
    case Commits(_) => CommitIsNew(positions, events, |landings|, exact);
    case Settles(_) => SettleIsFirst(positions, events, |landings|, exact);
  }

  lemma CommitStands(
    at: Moment, positions: map<nat, PositionEntry>, events: seq<SinkEvent>, surroundings: seq<Surroundings>,
    landings: seq<bool>, exact: bool, next: Moment, shown: map<nat, PositionEntry>,
    done: Option<(CommittedReveal, CommitView)>)
    requires |landings| < |events| == |surroundings| && AllComplete(surroundings) && PipelineCalls(events)
    requires Standing(at, positions, events, surroundings, landings, exact) && events[|landings|].Commits?
    requires Grows(at.ledger, next.ledger, OthersDoNotSettle(surroundings[|landings|]), {})
    requires forall k :: k in at.committed ==> at.committed[k].onChainIndex in at.ledger.decisions
    requires var p := events[|landings|].position;
             if done.None? then next.committed == at.committed && shown == positions
             else next.committed == at.committed[p.index := done.value.0]
                  && NewOpen(at.ledger, next.ledger, done.value.0.onChainIndex)
                  && shown == positions[p.index := PositionEntry(done.value.1, Committed, None)]
                  && done.value.1.index == p.index && done.value.1.decision == p.decision
    ensures Standing(next, shown, events, surroundings, landings + [false], exact)
  {
    hide Tally, StoreMirrors, Grows;
    var n := |landings|;
    CommitIsNew(positions, events, n, exact);
    CommitTallies(at.ledger, at.committed, positions, events, surroundings, landings, next.ledger, next.committed,
                  shown, done);
    if done.None? {
      MirrorGrows(positions, events, n, exact);
    } else {
      CommitMirrors(positions, events, n, done.value.1, exact);
    }
  }

  lemma SettleStands(
    at: Moment, positions: map<nat, PositionEntry>, events: seq<SinkEvent>, surroundings: seq<Surroundings>,
    landings: seq<bool>, exact: bool, next: Moment, shown: map<nat, PositionEntry>, landed: bool,
    booked: Option<SettleView>)
    requires |landings| < |events| == |surroundings| && AllComplete(surroundings) && PipelineCalls(events)
    requires exact ==> ProofsCarryResults(events, surroundings)
    requires Standing(at, positions, events, surroundings, landings, exact) && events[|landings|].Settles?
    requires next.committed == at.committed && (landed ==> events[|landings|].settled.index in at.committed)
    requires Grows(at.ledger, next.ledger, OthersDoNotSettle(surroundings[|landings|]),
                   OwnIds(at.committed, events[|landings|].settled.index, landed))
    requires booked.Some? <==> landed && Receipted(surroundings[|landings|])
    requires var q, e := events[|landings|].settled, surroundings[|landings|];
             if booked.None? then shown == positions
             else q.index in positions && Earned(next.ledger, at.committed[q.index], booked.value, q, e)
                  && shown == positions[q.index := PositionEntry(positions[q.index].commit, Settled, booked)]
    ensures Standing(next, shown, events, surroundings, landings + [landed], exact)
  {
    hide Tally, StoreMirrors, Grows, Backed;
    var n := |landings|;
    SettleTallies(at.ledger, at.committed, positions, events, surroundings, landings, next.ledger, shown, landed, booked);
    if booked.None? {
      MirrorGrows(positions, events, n, exact);
    } else {
      SettleMirrors(positions, events, n, booked.value, surroundings[n].proof.value, exact);
    }
  }

  /** One commit call among a pipeline's calls. */
  method ServeCommit(
    sink: OnChainSink, events: seq<SinkEvent>, surroundings: seq<Surroundings>, n: nat, ghost landings: seq<bool>,
    ghost exact: bool)
    requires n == |landings| < |events| == |surroundings| && AllComplete(surroundings) && PipelineCalls(events)
    requires events[n].Commits? && Served(sink, events, surroundings, landings, exact)
    modifies sink`committed, sink.ledger, sink.store
    ensures Served(sink, events, surroundings, landings + [false], exact)
    ensures Advances(sink.ledger.world, sink.signer, Moment(old(sink.ledger.State()), old(sink.committed)),
                     Moment(sink.ledger.State(), sink.committed), events[n], surroundings[n], false)
  {
    hide Standing, Grows, Accounted, CommitLands;
    ghost var at, before := Moment(sink.ledger.State(), sink.committed), sink.store.positions;
    NextCall(at, before, events, surroundings, landings, exact);
    ghost var landed, done := sink.OnCommit(events[n].position, surroundings[n]);
    CommitStands(at, before, events, surroundings, landings, exact, Moment(sink.ledger.State(), sink.committed),
                 sink.store.positions, done);
  }

  /** One settle call among a pipeline's calls. */
  method ServeSettle(
    sink: OnChainSink, events: seq<SinkEvent>, surroundings: seq<Surroundings>, n: nat, ghost landings: seq<bool>,
    ghost exact: bool)
    returns (ghost refusal: Option<LedgerError>, ghost landed: bool)
    requires n == |landings| < |events| == |surroundings| && AllComplete(surroundings) && PipelineCalls(events)
    requires events[n].Settles? && (exact ==> ProofsCarryResults(events, surroundings))
    requires Served(sink, events, surroundings, landings, exact)
    modifies sink.ledger, sink.store
    ensures Served(sink, events, surroundings, landings + [landed], exact)
    ensures refusal.Some? ==> Remaining(refusal.value)
    ensures landed <==> LandsAt(sink.ledger.world, sink.signer, sink.txoracle,
                                Moment(old(sink.ledger.State()), old(sink.committed)), events[n], surroundings[n])
    ensures Advances(sink.ledger.world, sink.signer, Moment(old(sink.ledger.State()), old(sink.committed)),
                     Moment(sink.ledger.State(), sink.committed), events[n], surroundings[n], landed)
  {
    hide Standing, Grows, Accounted, AllAnchored, SettleLands, Earned, ProofsCarryResults;
    ghost var at, before := Moment(sink.ledger.State(), sink.committed), sink.store.positions;
    NextCall(at, before, events, surroundings, landings, exact);
    ghost var booked;
    refusal, landed, booked := sink.OnSettle(events[n].settled, surroundings[n]);
    SettleStands(at, before, events, surroundings, landings, exact, Moment(sink.ledger.State(), sink.committed),
                 sink.store.positions, landed, booked);
  }

  lemma StandingStarts(l: LedgerModel.Ledger, events: seq<SinkEvent>, surroundings: seq<Surroundings>, exact: bool)
    requires |events| == |surroundings| && AllComplete(surroundings)
    ensures Standing(Moment(l, map[]), map[], events, surroundings, [], exact)
  {
    assert forall j, k :: !Lands(events, [], j, k);
  }

  predicate AllRemaining(refusals: seq<Option<LedgerError>>) {
    forall j :: 0 <= j < |refusals| && refusals[j].Some? ==> Remaining(refusals[j].value)
  }

  lemma RemainingOn(refusals: seq<Option<LedgerError>>, refusal: Option<LedgerError>)
    requires AllRemaining(refusals) && (refusal.Some? ==> Remaining(refusal.value))
    ensures AllRemaining(refusals + [refusal])
  {
  }

  /** Where a run stands after |landings| calls, with what each call found and was answered. */
  ghost predicate Serving(
    sink: OnChainSink, events: seq<SinkEvent>, surroundings: seq<Surroundings>, refusals: seq<Option<LedgerError>>,
    landings: seq<bool>, history: seq<Moment>, exact: bool)
    reads sink, sink.ledger, sink.store
  {
    && |refusals| == |landings| <= |events| == |surroundings| && AllComplete(surroundings) && AllRemaining(refusals)
    && Served(sink, events, surroundings, landings, exact)
    && Happened(sink.ledger.world, sink.signer, sink.txoracle, history, events, surroundings, landings)
    && history[|landings|] == Moment(sink.ledger.State(), sink.committed)
  }

  /** Serve a pipeline's calls in order against a contended ledger. However reads fail, transactions get lost
      and others interleave, the store's counters stay exact, each settlement it shows is the pipeline's and is
      backed by a settled record of the ledger, and it shows exactly the settles that landed and were heard of.
      No settle is ever refused for a commit, routing or side mismatch. `landings` says which calls settled
      their decision on chain, and `history` what each call found. */
  method Serve(sink: OnChainSink, events: seq<SinkEvent>, surroundings: seq<Surroundings>)
    returns (ghost refusals: seq<Option<LedgerError>>, ghost landings: seq<bool>, ghost history: seq<Moment>)
    requires sink.Valid() && sink.store.Reconciled() && sink.store.positions == map[]
    requires |surroundings| == |events| && AllComplete(surroundings)
    requires PipelineCalls(events)
    modifies sink`committed, sink.ledger, sink.store
    ensures |landings| == |events|
    ensures Serving(sink, events, surroundings, refusals, landings, history, ProofsCarryResults(events, surroundings))
    ensures history[0] == Moment(old(sink.ledger.State()), map[])
  {
    hide Standing, Accounted;
    ghost var exact := ProofsCarryResults(events, surroundings);
    assert sink.committed == map[];
    refusals, landings, history := [], [], [Moment(sink.ledger.State(), sink.committed)];
    StandingStarts(sink.ledger.State(), events, surroundings, exact);
    for n := 0 to |events|
      invariant |landings| == n && Serving(sink, events, surroundings, refusals, landings, history, exact)
      invariant history[0] == Moment(old(sink.ledger.State()), map[])
    {
      refusals, landings, history := ServeNext(sink, events, surroundings, n, refusals, landings, history, exact);
    }
  }

  /** The next call of a run. */
  method ServeNext(
    sink: OnChainSink, events: seq<SinkEvent>, surroundings: seq<Surroundings>, n: nat,
    ghost refusals: seq<Option<LedgerError>>, ghost landings: seq<bool>, ghost history: seq<Moment>, ghost exact: bool)
    returns (ghost answers: seq<Option<LedgerError>>, ghost landed: seq<bool>, ghost moments: seq<Moment>)
    requires n == |landings| < |events| && PipelineCalls(events)
    requires Serving(sink, events, surroundings, refusals, landings, history, exact)
    requires exact ==> ProofsCarryResults(events, surroundings)
    modifies sink`committed, sink.ledger, sink.store
    ensures |landed| == n + 1 && Serving(sink, events, surroundings, answers, landed, moments, exact)
    ensures history <= moments
  {
    hide Served, Advances, LandsAt, AllRemaining;
    ghost var refusal, lands := ServeCall(sink, events, surroundings, n, landings, exact);
    ghost var next := Moment(sink.ledger.State(), sink.committed);
    HappensOn(sink.ledger.world, sink.signer, sink.txoracle, history, events, surroundings, landings, lands, next);
    RemainingOn(refusals, refusal);
    answers, landed, moments := refusals + [refusal], landings + [lands], history + [next];
  }

  method ServeCall(
    sink: OnChainSink, events: seq<SinkEvent>, surroundings: seq<Surroundings>, n: nat, ghost landings: seq<bool>,
    ghost exact: bool)
    returns (ghost refusal: Option<LedgerError>, ghost landed: bool)
    requires n == |landings| < |events| == |surroundings| && AllComplete(surroundings) && PipelineCalls(events)
    requires exact ==> ProofsCarryResults(events, surroundings)
    requires Served(sink, events, surroundings, landings, exact)
    modifies sink`committed, sink.ledger, sink.store
    ensures Served(sink, events, surroundings, landings + [landed], exact)
    ensures refusal.Some? ==> Remaining(refusal.value)
    ensures landed <==> LandsAt(sink.ledger.world, sink.signer, sink.txoracle,
                                Moment(old(sink.ledger.State()), old(sink.committed)), events[n], surroundings[n])
    ensures Advances(sink.ledger.world, sink.signer, Moment(old(sink.ledger.State()), old(sink.committed)),
                     Moment(sink.ledger.State(), sink.committed), events[n], surroundings[n], landed)
  {
    hide Served, Advances, SettleLands, ProofsCarryResults;
    refusal, landed := None, false;
    match events[n]
    case Commits(_) => ServeCommit(sink, events, surroundings, n, landings, exact);
    case Settles(_) => refusal, landed := ServeSettle(sink, events, surroundings, n, landings, exact);
  }
}
