/** The instruction arguments and their Borsh encodings: what the client writes and the program reads. */
module Borsh {
  import opened Prelude
  import opened Bytes

  datatype RevealArgs = RevealArgs(
    strategy: seq<byte>, index: int, fixtureId: int, market: int, side: int, fairProbBps: int,
    entryOddsMilli: int, stake: int, signalHash: seq<byte>, nonce: seq<byte>)

  datatype ProofNode = ProofNode(hash: seq<byte>, isRightSibling: bool)

  datatype ScoreStat = ScoreStat(key: int, statValue: int, period: int)

  datatype StatTerm = StatTerm(statToProve: ScoreStat, eventStatRoot: seq<byte>, statProof: seq<ProofNode>)

  datatype UpdateStats = UpdateStats(updateCount: int, minTimestamp: int, maxTimestamp: int)

  datatype BatchSummary = BatchSummary(fixtureId: int, updateStats: UpdateStats, subTreeRoot: seq<byte>)

  datatype SettleArgs = SettleArgs(
    sealed: RevealArgs, claimedResult: int, ts: int, fixtureSummary: BatchSummary,
    fixtureProof: seq<ProofNode>, mainTreeProof: seq<ProofNode>, statHome: StatTerm, statAway: StatTerm)

  /** Strings are their UTF-8 bytes. */
  datatype OddsSnapshot = OddsSnapshot(
    fixtureId: int, messageId: seq<byte>, ts: int, bookmaker: seq<byte>, bookmakerId: int,
    superOddsType: seq<byte>, gameState: Option<seq<byte>>, inRunning: bool,
    marketParameters: Option<seq<byte>>, marketPeriod: Option<seq<byte>>,
    priceNames: seq<seq<byte>>, prices: seq<int>)

  datatype ProveOddsArgs = ProveOddsArgs(
    sealed: RevealArgs, ts: int, oddsSnapshot: OddsSnapshot, summary: BatchSummary,
    subTreeProof: seq<ProofNode>, mainTreeProof: seq<ProofNode>, sideIndex: int)

  // ---------------------------------------------------------------------------------------------
  // Range checks at the encode boundary

  datatype EncodeError = BadLength(field: string) | BadRange(field: string)

  function OrElse(first: Option<EncodeError>, second: Option<EncodeError>): Option<EncodeError> {
    if first.Some? then first else second
  }

  function Check(ok: bool, field: string): Option<EncodeError> {
    if ok then None else Some(BadRange(field))
  }

  predicate IsU8(v: int) { 0 <= v <= 0xff }
  predicate IsU16(v: int) { 0 <= v <= 0xffff }
  predicate IsU32(v: int) { 0 <= v <= 0xffff_ffff }
  predicate IsI32(v: int) { -0x8000_0000 <= v <= 0x7fff_ffff }
  predicate IsU64(v: int) { 0 <= v <= 0xffff_ffff_ffff_ffff }
  predicate IsI64(v: int) { -0x8000_0000_0000_0000 <= v <= 0x7fff_ffff_ffff_ffff }
  predicate IsSide(v: int) { v == 0 || v == 1 || v == 2 }

  function Ensure32(bytes: seq<byte>, field: string): Option<EncodeError> {
    if |bytes| == 32 then None else Some(BadLength(field))
  }

  function CheckProof(proof: seq<ProofNode>, name: string): Option<EncodeError> {
    if |proof| == 0 then None
    else OrElse(Ensure32(proof[0].hash, name), CheckProof(proof[1..], name))
  }

  function CheckReveal(r: RevealArgs): Option<EncodeError> {
    OrElse(Ensure32(r.strategy, "strategy"),
    OrElse(Ensure32(r.signalHash, "signalHash"),
    OrElse(Ensure32(r.nonce, "nonce"),
    OrElse(Check(IsU64(r.index), "index"),
    OrElse(Check(IsI64(r.fixtureId), "fixtureId"),
    OrElse(Check(IsU16(r.market), "market"),
    OrElse(Check(IsSide(r.side), "side"),
    OrElse(Check(IsU16(r.fairProbBps), "fairProbBps"),
    OrElse(Check(IsU32(r.entryOddsMilli), "entryOddsMilli"),
           Check(IsU64(r.stake), "stake"))))))))))
  }

  function CheckStatTerm(t: StatTerm, name: string): Option<EncodeError> {
    OrElse(Check(IsU32(t.statToProve.key), name + ".statToProve.key"),
    OrElse(Check(IsI32(t.statToProve.statValue), name + ".statToProve.value"),
    OrElse(Check(IsI32(t.statToProve.period), name + ".statToProve.period"),
    OrElse(Ensure32(t.eventStatRoot, name + ".eventStatRoot"),
           CheckProof(t.statProof, name + ".statProof")))))
  }

  function CheckSettle(a: SettleArgs): Option<EncodeError> {
    OrElse(CheckReveal(a.sealed),
    OrElse(Check(IsSide(a.claimedResult), "claimedResult"),
    OrElse(Check(IsI64(a.ts), "ts"),
    OrElse(Check(IsI64(a.fixtureSummary.fixtureId), "fixtureSummary.fixtureId"),
    OrElse(Check(IsI32(a.fixtureSummary.updateStats.updateCount), "fixtureSummary.updateStats.updateCount"),
    OrElse(Check(IsI64(a.fixtureSummary.updateStats.minTimestamp), "fixtureSummary.updateStats.minTimestamp"),
    OrElse(Check(IsI64(a.fixtureSummary.updateStats.maxTimestamp), "fixtureSummary.updateStats.maxTimestamp"),
    OrElse(Ensure32(a.fixtureSummary.subTreeRoot, "fixtureSummary.eventsSubTreeRoot"),
    OrElse(CheckProof(a.fixtureProof, "fixtureProof"),
    OrElse(CheckProof(a.mainTreeProof, "mainTreeProof"),
    OrElse(CheckStatTerm(a.statHome, "statHome"),
           CheckStatTerm(a.statAway, "statAway"))))))))))))
  }

  function CheckPrices(prices: seq<int>): Option<EncodeError> {
    if |prices| == 0 then None
    else OrElse(Check(IsI32(prices[0]), "oddsSnapshot.prices"), CheckPrices(prices[1..]))
  }

  function CheckProveOdds(a: ProveOddsArgs): Option<EncodeError> {
    OrElse(CheckReveal(a.sealed),
    OrElse(Check(IsI64(a.ts), "ts"),
    OrElse(Check(IsI64(a.oddsSnapshot.fixtureId), "oddsSnapshot.fixtureId"),
    OrElse(Check(IsI64(a.oddsSnapshot.ts), "oddsSnapshot.ts"),
    OrElse(Check(IsI32(a.oddsSnapshot.bookmakerId), "oddsSnapshot.bookmakerId"),
    OrElse(CheckPrices(a.oddsSnapshot.prices),
    OrElse(Check(IsI64(a.summary.fixtureId), "summary.fixtureId"),
    OrElse(Check(IsU32(a.summary.updateStats.updateCount), "summary.updateStats.updateCount"),
    OrElse(Check(IsI64(a.summary.updateStats.minTimestamp), "summary.updateStats.minTimestamp"),
    OrElse(Check(IsI64(a.summary.updateStats.maxTimestamp), "summary.updateStats.maxTimestamp"),
    OrElse(Ensure32(a.summary.subTreeRoot, "summary.oddsSubTreeRoot"),
    OrElse(CheckProof(a.subTreeProof, "subTreeProof"),
    OrElse(CheckProof(a.mainTreeProof, "mainTreeProof"),
           Check(IsU8(a.sideIndex), "sideIndex"))))))))))))))
  }

  // ---------------------------------------------------------------------------------------------
  // Encodings

  function PutReveal(r: RevealArgs, tail: seq<byte>): seq<byte> {
    PutBytes(r.strategy, PutInt(8, r.index, PutInt(8, r.fixtureId, PutInt(2, r.market, PutInt(1, r.side,
    PutInt(2, r.fairProbBps, PutInt(4, r.entryOddsMilli, PutInt(8, r.stake, PutBytes(r.signalHash,
    PutBytes(r.nonce, tail))))))))))
  }

  function PutNode(n: ProofNode, tail: seq<byte>): seq<byte> {
    PutBytes(n.hash, PutBool(n.isRightSibling, tail))
  }

  function PutProof(proof: seq<ProofNode>, tail: seq<byte>): seq<byte> { PutVec(PutNode, proof, tail) }

  function PutStatTerm(t: StatTerm, tail: seq<byte>): seq<byte> {
    PutInt(4, t.statToProve.key, PutInt(4, t.statToProve.statValue, PutInt(4, t.statToProve.period,
    PutBytes(t.eventStatRoot, PutProof(t.statProof, tail)))))
  }

  function PutSummary(s: BatchSummary, tail: seq<byte>): seq<byte> {
    PutInt(8, s.fixtureId, PutInt(4, s.updateStats.updateCount, PutInt(8, s.updateStats.minTimestamp,
    PutInt(8, s.updateStats.maxTimestamp, PutBytes(s.subTreeRoot, tail)))))
  }

  function PutSettle(a: SettleArgs, tail: seq<byte>): seq<byte> {
    PutReveal(a.sealed, PutInt(1, a.claimedResult, PutInt(8, a.ts, PutSummary(a.fixtureSummary,
    PutProof(a.fixtureProof, PutProof(a.mainTreeProof, PutStatTerm(a.statHome, PutStatTerm(a.statAway, tail))))))))
  }

  function PutI32(v: int, tail: seq<byte>): seq<byte> { PutInt(4, v, tail) }

  function PutSnapshot(o: OddsSnapshot, tail: seq<byte>): seq<byte> {
    PutInt(8, o.fixtureId, PutStr(o.messageId, PutInt(8, o.ts, PutStr(o.bookmaker, PutInt(4, o.bookmakerId,
    PutStr(o.superOddsType, PutOptStr(o.gameState, PutBool(o.inRunning, PutOptStr(o.marketParameters,
    PutOptStr(o.marketPeriod, PutVec(PutStr, o.priceNames, PutVec(PutI32, o.prices, tail))))))))))))
  }

  function PutProveOdds(a: ProveOddsArgs, tail: seq<byte>): seq<byte> {
    PutReveal(a.sealed, PutInt(8, a.ts, PutSnapshot(a.oddsSnapshot, PutSummary(a.summary,
    PutProof(a.subTreeProof, PutProof(a.mainTreeProof, PutInt(1, a.sideIndex, tail)))))))
  }

  // ---------------------------------------------------------------------------------------------
  // Decodings, field by field in declaration order

  function GetReveal(s: seq<byte>): Option<(RevealArgs, seq<byte>)> {
    var (strategy, s) :- GetBytes(32, s);
    var (index, s) :- GetUnsigned(8, s);
    var (fixtureId, s) :- GetSigned(8, s);
    var (market, s) :- GetUnsigned(2, s);
    var (side, s) :- GetUnsigned(1, s);
    var (fairProbBps, s) :- GetUnsigned(2, s);
    var (entryOddsMilli, s) :- GetUnsigned(4, s);
    var (stake, s) :- GetUnsigned(8, s);
    var (signalHash, s) :- GetBytes(32, s);
    var (nonce, s) :- GetBytes(32, s);
    Some((RevealArgs(strategy, index, fixtureId, market, side, fairProbBps, entryOddsMilli, stake, signalHash, nonce), s))
  }

  function GetNode(s: seq<byte>): Option<(ProofNode, seq<byte>)> {
    var (hash, s) :- GetBytes(32, s);
    var (right, s) :- GetBool(s);
    Some((ProofNode(hash, right), s))
  }

  function GetProof(s: seq<byte>): Option<(seq<ProofNode>, seq<byte>)> { GetVec(GetNode, s) }

  function GetStatTerm(s: seq<byte>): Option<(StatTerm, seq<byte>)> {
    var (key, s) :- GetUnsigned(4, s);
    var (statValue, s) :- GetSigned(4, s);
    var (period, s) :- GetSigned(4, s);
    var (root, s) :- GetBytes(32, s);
    var (proof, s) :- GetProof(s);
    Some((StatTerm(ScoreStat(key, statValue, period), root, proof), s))
  }

  /** The update count is an i32 in a scores summary and a u32 in an odds summary. */
  function GetCount(signedCount: bool, s: seq<byte>): Option<(int, seq<byte>)> {
    if signedCount then GetSigned(4, s) else GetUnsigned(4, s)
  }

  function GetSummary(signedCount: bool, s: seq<byte>): Option<(BatchSummary, seq<byte>)> {
    var (fixtureId, s) :- GetSigned(8, s);
    var (count, s) :- GetCount(signedCount, s);
    var (minTs, s) :- GetSigned(8, s);
    var (maxTs, s) :- GetSigned(8, s);
    var (root, s) :- GetBytes(32, s);
    Some((BatchSummary(fixtureId, UpdateStats(count, minTs, maxTs), root), s))
  }

  function GetSettle(s: seq<byte>): Option<(SettleArgs, seq<byte>)> {
    var (sealed, s) :- GetReveal(s);
    var (claimed, s) :- GetUnsigned(1, s);
    var (ts, s) :- GetSigned(8, s);
    var (summary, s) :- GetSummary(true, s);
    var (fixtureProof, s) :- GetProof(s);
    var (mainTreeProof, s) :- GetProof(s);
    var (home, s) :- GetStatTerm(s);
    var (away, s) :- GetStatTerm(s);
    Some((SettleArgs(sealed, claimed, ts, summary, fixtureProof, mainTreeProof, home, away), s))
  }

  function GetI32(s: seq<byte>): Option<(int, seq<byte>)> { GetSigned(4, s) }

  function GetSnapshot(s: seq<byte>): Option<(OddsSnapshot, seq<byte>)> {
    var (fixtureId, s) :- GetSigned(8, s);
    var (messageId, s) :- GetStr(s);
    var (ts, s) :- GetSigned(8, s);
    var (bookmaker, s) :- GetStr(s);
    var (bookmakerId, s) :- GetSigned(4, s);
    var (superOddsType, s) :- GetStr(s);
    var (gameState, s) :- GetOptStr(s);
    var (inRunning, s) :- GetBool(s);
    var (marketParameters, s) :- GetOptStr(s);
    var (marketPeriod, s) :- GetOptStr(s);
    var (priceNames, s) :- GetVec(GetStr, s);
    var (prices, s) :- GetVec(GetI32, s);
    Some((OddsSnapshot(fixtureId, messageId, ts, bookmaker, bookmakerId, superOddsType, gameState, inRunning,
                       marketParameters, marketPeriod, priceNames, prices), s))
  }

  function GetProveOdds(s: seq<byte>): Option<(ProveOddsArgs, seq<byte>)> {
    var (sealed, s) :- GetReveal(s);
    var (ts, s) :- GetSigned(8, s);
    var (snapshot, s) :- GetSnapshot(s);
    var (summary, s) :- GetSummary(false, s);
    var (subTreeProof, s) :- GetProof(s);
    var (mainTreeProof, s) :- GetProof(s);
    var (sideIndex, s) :- GetUnsigned(1, s);
    Some((ProveOddsArgs(sealed, ts, snapshot, summary, subTreeProof, mainTreeProof, sideIndex), s))
  }

  // ---------------------------------------------------------------------------------------------
  // Round trips

  lemma RangesFit(v: int)
    ensures IsU8(v) ==> FitsUnsigned(1, v)
    ensures IsU16(v) ==> FitsUnsigned(2, v)
    ensures IsU32(v) ==> FitsUnsigned(4, v)
    ensures IsI32(v) ==> FitsSigned(4, v)
    ensures IsU64(v) ==> FitsUnsigned(8, v)
    ensures IsI64(v) ==> FitsSigned(8, v)
  {
    Pow256Values();
  }

  lemma UnsignedField(n: nat, v: int, tail: seq<byte>)
    requires (n == 1 && IsU8(v)) || (n == 2 && IsU16(v)) || (n == 4 && IsU32(v)) || (n == 8 && IsU64(v))
    ensures GetUnsigned(n, PutInt(n, v, tail)) == Some((v, tail))
  {
    RangesFit(v);
    UnsignedRoundTrip(n, v, tail);
  }

  lemma SignedField(n: nat, v: int, tail: seq<byte>)
    requires (n == 4 && IsI32(v)) || (n == 8 && IsI64(v))
    ensures GetSigned(n, PutInt(n, v, tail)) == Some((v, tail))
  {
    RangesFit(v);
    SignedRoundTrip(n, v, tail);
  }

  lemma RevealRoundTrip(r: RevealArgs, tail: seq<byte>)
    requires CheckReveal(r) == None
    ensures GetReveal(PutReveal(r, tail)) == Some((r, tail))
  {
    hide GetUnsigned, GetSigned, GetBytes, PutInt, PutBytes, LittleEndian;
    var t9 := PutBytes(r.nonce, tail);
    var t8 := PutBytes(r.signalHash, t9);
    var t7 := PutInt(8, r.stake, t8);
    var t6 := PutInt(4, r.entryOddsMilli, t7);
    var t5 := PutInt(2, r.fairProbBps, t6);
    var t4 := PutInt(1, r.side, t5);
    var t3 := PutInt(2, r.market, t4);
    var t2 := PutInt(8, r.fixtureId, t3);
    var t1 := PutInt(8, r.index, t2);
    BytesRoundTrip(r.strategy, t1);
    UnsignedField(8, r.index, t2);
    SignedField(8, r.fixtureId, t3);
    UnsignedField(2, r.market, t4);
    UnsignedField(1, r.side, t5);
    UnsignedField(2, r.fairProbBps, t6);
    UnsignedField(4, r.entryOddsMilli, t7);
    UnsignedField(8, r.stake, t8);
    BytesRoundTrip(r.signalHash, t9);
    BytesRoundTrip(r.nonce, tail);
  }

  /** The sealed preimage is always exactly 129 bytes. */
  lemma RevealIs129Bytes(r: RevealArgs)
    requires CheckReveal(r) == None
    ensures |PutReveal(r, [])| == 129
  {
  }

  lemma {:induction false} ProofHashesAre32(proof: seq<ProofNode>, name: string)
    ensures CheckProof(proof, name) == None <==> forall n :: n in proof ==> |n.hash| == 32
  {
    if |proof| > 0 {
      ProofHashesAre32(proof[1..], name);
      assert proof == [proof[0]] + proof[1..];
    }
  }

  lemma NodeRoundTrip(n: ProofNode, tail: seq<byte>)
    requires |n.hash| == 32
    ensures GetNode(PutNode(n, tail)) == Some((n, tail))
  {
    BytesRoundTrip(n.hash, PutBool(n.isRightSibling, tail));
    BoolRoundTrip(n.isRightSibling, tail);
  }

  lemma ProofRoundTrip(proof: seq<ProofNode>, name: string, tail: seq<byte>)
    requires CheckProof(proof, name) == None && |proof| < U32_LIMIT
    ensures GetProof(PutProof(proof, tail)) == Some((proof, tail))
  {
    ProofHashesAre32(proof, name);
    forall n, k | n in proof
      ensures GetNode(PutNode(n, k)) == Some((n, k))
    {
      NodeRoundTrip(n, k);
    }
    VecRoundTrip(PutNode, GetNode, proof, tail);
  }

  lemma StatTermRoundTrip(t: StatTerm, name: string, tail: seq<byte>)
    requires CheckStatTerm(t, name) == None && |t.statProof| < U32_LIMIT
    ensures GetStatTerm(PutStatTerm(t, tail)) == Some((t, tail))
  {
    var t4 := PutProof(t.statProof, tail);
    var t3 := PutBytes(t.eventStatRoot, t4);
    var t2 := PutInt(4, t.statToProve.period, t3);
    var t1 := PutInt(4, t.statToProve.statValue, t2);
    UnsignedField(4, t.statToProve.key, t1);
    SignedField(4, t.statToProve.statValue, t2);
    SignedField(4, t.statToProve.period, t3);
    BytesRoundTrip(t.eventStatRoot, t4);
    ProofRoundTrip(t.statProof, name + ".statProof", tail);
  }

  lemma SummaryRoundTrip(s: BatchSummary, signedCount: bool, tail: seq<byte>)
    requires IsI64(s.fixtureId) && IsI64(s.updateStats.minTimestamp) && IsI64(s.updateStats.maxTimestamp)
    requires if signedCount then IsI32(s.updateStats.updateCount) else IsU32(s.updateStats.updateCount)
    requires |s.subTreeRoot| == 32
    ensures GetSummary(signedCount, PutSummary(s, tail)) == Some((s, tail))
  {
    var t4 := PutBytes(s.subTreeRoot, tail);
    var t3 := PutInt(8, s.updateStats.maxTimestamp, t4);
    var t2 := PutInt(8, s.updateStats.minTimestamp, t3);
    var t1 := PutInt(4, s.updateStats.updateCount, t2);
    SignedField(8, s.fixtureId, t1);
    if signedCount {
      SignedField(4, s.updateStats.updateCount, t2);
    } else {
      UnsignedField(4, s.updateStats.updateCount, t2);
    }
    SignedField(8, s.updateStats.minTimestamp, t3);
    SignedField(8, s.updateStats.maxTimestamp, t4);
    BytesRoundTrip(s.subTreeRoot, tail);
  }

  /** Every vector length in the settle arguments fits its u32 prefix; the encoder does not check this. */
  predicate SettleLengthsFit(a: SettleArgs) {
    && |a.fixtureProof| < U32_LIMIT && |a.mainTreeProof| < U32_LIMIT
    && |a.statHome.statProof| < U32_LIMIT && |a.statAway.statProof| < U32_LIMIT
  }

  lemma SettleRoundTrip(a: SettleArgs, tail: seq<byte>)
    requires CheckSettle(a) == None && SettleLengthsFit(a)
    ensures GetSettle(PutSettle(a, tail)) == Some((a, tail))
  {
    hide CheckReveal, CheckProof, GetReveal, PutReveal, GetSummary, PutSummary, GetProof, PutProof, GetStatTerm, PutStatTerm, CheckStatTerm;
    var t7 := PutStatTerm(a.statAway, tail);
    var t6 := PutStatTerm(a.statHome, t7);
    var t5 := PutProof(a.mainTreeProof, t6);
    var t4 := PutProof(a.fixtureProof, t5);
    var t3 := PutSummary(a.fixtureSummary, t4);
    var t2 := PutInt(8, a.ts, t3);
    var t1 := PutInt(1, a.claimedResult, t2);
    RevealRoundTrip(a.sealed, t1);
    UnsignedField(1, a.claimedResult, t2);
    SignedField(8, a.ts, t3);
    SummaryRoundTrip(a.fixtureSummary, true, t4);
    ProofRoundTrip(a.fixtureProof, "fixtureProof", t5);
    ProofRoundTrip(a.mainTreeProof, "mainTreeProof", t6);
    StatTermRoundTrip(a.statHome, "statHome", t7);
    StatTermRoundTrip(a.statAway, "statAway", tail);
  }

  predicate SnapshotLengthsFit(o: OddsSnapshot) {
    && |o.messageId| < U32_LIMIT && |o.bookmaker| < U32_LIMIT && |o.superOddsType| < U32_LIMIT
    && OptFits(o.gameState) && OptFits(o.marketParameters) && OptFits(o.marketPeriod)
    && |o.priceNames| < U32_LIMIT && |o.prices| < U32_LIMIT
    && (forall name :: name in o.priceNames ==> |name| < U32_LIMIT)
  }

  predicate ProveOddsLengthsFit(a: ProveOddsArgs) {
    SnapshotLengthsFit(a.oddsSnapshot) && |a.subTreeProof| < U32_LIMIT && |a.mainTreeProof| < U32_LIMIT
  }

  lemma {:induction false} PricesAreI32(prices: seq<int>)
    ensures CheckPrices(prices) == None <==> forall p :: p in prices ==> IsI32(p)
  {
    if |prices| > 0 {
      PricesAreI32(prices[1..]);
      assert prices == [prices[0]] + prices[1..];
    }
  }

  lemma NamesRoundTrip(names: seq<seq<byte>>, tail: seq<byte>)
    requires |names| < U32_LIMIT && forall name :: name in names ==> |name| < U32_LIMIT
    ensures GetVec(GetStr, PutVec(PutStr, names, tail)) == Some((names, tail))
  {
    forall name, k | name in names
      ensures GetStr(PutStr(name, k)) == Some((name, k))
    {
      StrRoundTripIff(name, k);
    }
    VecRoundTrip(PutStr, GetStr, names, tail);
  }

  lemma PricesRoundTrip(prices: seq<int>, tail: seq<byte>)
    requires |prices| < U32_LIMIT && CheckPrices(prices) == None
    ensures GetVec(GetI32, PutVec(PutI32, prices, tail)) == Some((prices, tail))
  {
    PricesAreI32(prices);
    forall p, k | p in prices
      ensures GetI32(PutI32(p, k)) == Some((p, k))
    {
      SignedField(4, p, k);
    }
    VecRoundTrip(PutI32, GetI32, prices, tail);
  }

  lemma SnapshotRoundTrip(o: OddsSnapshot, tail: seq<byte>)
    requires IsI64(o.fixtureId) && IsI64(o.ts) && IsI32(o.bookmakerId) && CheckPrices(o.prices) == None
    requires SnapshotLengthsFit(o)
    ensures GetSnapshot(PutSnapshot(o, tail)) == Some((o, tail))
  {
    hide GetStr, PutStr, GetOptStr, PutOptStr, GetVec, PutVec;
    var t11 := PutVec(PutI32, o.prices, tail);
    var t10 := PutVec(PutStr, o.priceNames, t11);
    var t9 := PutOptStr(o.marketPeriod, t10);
    var t8 := PutOptStr(o.marketParameters, t9);
    var t7 := PutBool(o.inRunning, t8);
    var t6 := PutOptStr(o.gameState, t7);
    var t5 := PutStr(o.superOddsType, t6);
    var t4 := PutInt(4, o.bookmakerId, t5);
    var t3 := PutStr(o.bookmaker, t4);
    var t2 := PutInt(8, o.ts, t3);
    var t1 := PutStr(o.messageId, t2);
    SignedField(8, o.fixtureId, t1);
    StrRoundTripIff(o.messageId, t2);
    SignedField(8, o.ts, t3);
    StrRoundTripIff(o.bookmaker, t4);
    SignedField(4, o.bookmakerId, t5);
    StrRoundTripIff(o.superOddsType, t6);
    OptStrRoundTrip(o.gameState, t7);
    BoolRoundTrip(o.inRunning, t8);
    OptStrRoundTrip(o.marketParameters, t9);
    OptStrRoundTrip(o.marketPeriod, t10);
    NamesRoundTrip(o.priceNames, t11);
    PricesRoundTrip(o.prices, tail);
  }

  lemma ProveOddsRoundTrip(a: ProveOddsArgs, tail: seq<byte>)
    requires CheckProveOdds(a) == None && ProveOddsLengthsFit(a)
    ensures GetProveOdds(PutProveOdds(a, tail)) == Some((a, tail))
  {
    hide CheckReveal, CheckProof, GetReveal, PutReveal, GetSnapshot, PutSnapshot, GetSummary, PutSummary, GetProof, PutProof;
    var t6 := PutInt(1, a.sideIndex, tail);
    var t5 := PutProof(a.mainTreeProof, t6);
    var t4 := PutProof(a.subTreeProof, t5);
    var t3 := PutSummary(a.summary, t4);
    var t2 := PutSnapshot(a.oddsSnapshot, t3);
    var t1 := PutInt(8, a.ts, t2);
    RevealRoundTrip(a.sealed, t1);
    SignedField(8, a.ts, t2);
    SnapshotRoundTrip(a.oddsSnapshot, t3);
    SummaryRoundTrip(a.summary, false, t4);
    ProofRoundTrip(a.subTreeProof, "subTreeProof", t5);
    ProofRoundTrip(a.mainTreeProof, "mainTreeProof", t6);
    UnsignedField(1, a.sideIndex, tail);
  }

  // ---------------------------------------------------------------------------------------------
  // Main results: exact conditions, injectivity and prefix-freeness

  /** What the encoder accepts decodes back exactly when every length fits its prefix. */
  lemma SettleRoundTripIff(a: SettleArgs, tail: seq<byte>)
    requires CheckSettle(a) == None
    ensures GetSettle(PutSettle(a, tail)) == Some((a, tail)) <==> SettleLengthsFit(a)
  {
    if SettleLengthsFit(a) {
      SettleRoundTrip(a, tail);
    } else {
      DecodedSettleIsShort(PutSettle(a, tail));
    }
  }

  lemma DecodedStatTermIsShort(s: seq<byte>)
    ensures GetStatTerm(s).Some? ==> |GetStatTerm(s).value.0.statProof| < U32_LIMIT
  {
    if GetStatTerm(s).Some? {
      VecIsShort(GetNode, GetBytes(32, GetSigned(4, GetSigned(4, GetUnsigned(4, s).value.1).value.1).value.1).value.1);
    }
  }

  lemma DecodedSettleIsShort(s: seq<byte>)
    ensures GetSettle(s).Some? ==> SettleLengthsFit(GetSettle(s).value.0)
  {
    if GetSettle(s).Some? {
      var s4 := GetSummary(true, GetSigned(8, GetUnsigned(1, GetReveal(s).value.1).value.1).value.1).value.1;
      VecIsShort(GetNode, s4);
      var s5 := GetProof(s4).value.1;
      VecIsShort(GetNode, s5);
      var s6 := GetProof(s5).value.1;
      DecodedStatTermIsShort(s6);
      DecodedStatTermIsShort(GetStatTerm(s6).value.1);
    }
  }

  lemma ProveOddsRoundTripIff(a: ProveOddsArgs, tail: seq<byte>)
    requires CheckProveOdds(a) == None
    ensures GetProveOdds(PutProveOdds(a, tail)) == Some((a, tail)) <==> ProveOddsLengthsFit(a)
  {
    if ProveOddsLengthsFit(a) {
      ProveOddsRoundTrip(a, tail);
    } else {
      DecodedProveOddsIsShort(PutProveOdds(a, tail));
    }
  }

  lemma DecodedSnapshotIsShort(s: seq<byte>)
    ensures GetSnapshot(s).Some? ==> SnapshotLengthsFit(GetSnapshot(s).value.0)
  {
    if GetSnapshot(s).Some? {
      var s1 := GetSigned(8, s).value.1;
      StrIsShort(s1);
      var s3 := GetSigned(8, GetStr(s1).value.1).value.1;
      StrIsShort(s3);
      var s5 := GetSigned(4, GetStr(s3).value.1).value.1;
      StrIsShort(s5);
      var s6 := GetStr(s5).value.1;
      OptStrIsShort(s6);
      var s8 := GetBool(GetOptStr(s6).value.1).value.1;
      OptStrIsShort(s8);
      var s9 := GetOptStr(s8).value.1;
      OptStrIsShort(s9);
      var s10 := GetOptStr(s9).value.1;
      VecIsShort(GetStr, s10);
      NamesAreShort(s10);
      VecIsShort(GetI32, GetVec(GetStr, s10).value.1);
    }
  }

  lemma NamesAreShort(s: seq<byte>)
    ensures GetVec(GetStr, s).Some? ==> forall name :: name in GetVec(GetStr, s).value.0 ==> |name| < U32_LIMIT
  {
    var prefix := GetUnsigned(4, s);
    if prefix.Some? {
      var Short := (name: seq<byte>) => |name| < U32_LIMIT;
      forall b: seq<byte>
        ensures GetStr(b).Some? ==> Short(GetStr(b).value.0)
      {
        StrIsShort(b);
      }
      EachSatisfies(GetStr, Short, prefix.value.0, prefix.value.1);
    }
  }

  lemma DecodedProveOddsIsShort(s: seq<byte>)
    ensures GetProveOdds(s).Some? ==> ProveOddsLengthsFit(GetProveOdds(s).value.0)
  {
    if GetProveOdds(s).Some? {
      var s2 := GetSigned(8, GetReveal(s).value.1).value.1;
      DecodedSnapshotIsShort(s2);
      var s4 := GetSummary(false, GetSnapshot(s2).value.1).value.1;
      VecIsShort(GetNode, s4);
      VecIsShort(GetNode, GetProof(s4).value.1);
    }
  }

  /** The unchecked prefix really loses data: 2^32 zero bytes encode as an empty string and a remainder. */
  lemma LongStringWraps()
    ensures var s := seq(U32_LIMIT, _ => 0); GetStr(PutStr(s, [])) == Some(([], s))
  {
    var s: seq<byte> := seq(U32_LIMIT, _ => 0);
    Pow256Values();
    assert LittleEndian(4, U32_LIMIT) == LittleEndian(4, 0) by {
      assert LittleEndian(3, 0x100_0000) == [0] + LittleEndian(2, 0x1_0000);
      assert LittleEndian(2, 0x1_0000) == [0] + LittleEndian(1, 0x100);
      assert LittleEndian(1, 0x100) == [0] + LittleEndian(0, 1);
      assert LittleEndian(3, 0) == [0] + LittleEndian(2, 0);
      assert LittleEndian(2, 0) == [0] + LittleEndian(1, 0);
    }
    UnsignedRoundTrip(4, 0, s);
    assert PutStr(s, []) == PutInt(4, 0, s);
    assert GetBytes(0, s) == Some(([], s));
  }

  /** Encodings are injective and no encoding is a proper prefix of another. */
  lemma RevealIsPrefixFree(a: RevealArgs, b: RevealArgs, s: seq<byte>, t: seq<byte>)
    requires CheckReveal(a) == None && CheckReveal(b) == None
    requires PutReveal(a, s) == PutReveal(b, t)
    ensures a == b && s == t
  {
    RevealRoundTrip(a, s);
    RevealRoundTrip(b, t);
  }

  lemma SettleIsPrefixFree(a: SettleArgs, b: SettleArgs, s: seq<byte>, t: seq<byte>)
    requires CheckSettle(a) == None && CheckSettle(b) == None && SettleLengthsFit(a) && SettleLengthsFit(b)
    requires PutSettle(a, s) == PutSettle(b, t)
    ensures a == b && s == t
  {
    SettleRoundTrip(a, s);
    SettleRoundTrip(b, t);
  }

  lemma ProveOddsIsPrefixFree(a: ProveOddsArgs, b: ProveOddsArgs, s: seq<byte>, t: seq<byte>)
    requires CheckProveOdds(a) == None && CheckProveOdds(b) == None
    requires ProveOddsLengthsFit(a) && ProveOddsLengthsFit(b)
    requires PutProveOdds(a, s) == PutProveOdds(b, t)
    ensures a == b && s == t
  {
    ProveOddsRoundTrip(a, s);
    ProveOddsRoundTrip(b, t);
  }
}
