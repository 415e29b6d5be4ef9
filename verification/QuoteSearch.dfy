/** The search for the quote a bet was sealed at: recent odds are walked backwards from the settlement until one
    record quotes the sealed price for the sealed side, and its proof is fetched. */
module QuoteSearch {
  import opened Prelude
  import opened Bytes
  import opened Borsh
  import opened LedgerModel
  import AccountDecode

  const DAY_MS := 86_400_000
  const HOUR_MS := 3_600_000
  const INTERVALS_PER_HOUR := 12
  const ODDS_LOOKBACK_HOURS := 8
  const ALL_BUCKETS := ODDS_LOOKBACK_HOURS * INTERVALS_PER_HOUR
  const MAX_SAFE_INTEGER := 9_007_199_254_740_991

  /** One odds update; names and prices that are absent are empty. */
  datatype OddsRecord = OddsRecord(
    fixtureId: int, superOddsType: seq<byte>, priceNames: seq<seq<byte>>, prices: seq<int>, messageId: seq<byte>, ts: int)

  /** A record's validation as the feed's API returns it. */
  datatype OddsProof = OddsProof(
    odds: OddsSnapshot, summary: BatchSummary, subTreeProof: seq<ProofNode>, mainTreeProof: seq<ProofNode>)

  datatype Bucket = Bucket(epochDay: int, hourOfDay: int, interval: int)

  /** What the API answers, None where it fails, and how the client reads a price label. */
  datatype OddsArchive = OddsArchive(
    updates: Bucket -> Option<seq<OddsRecord>>,
    validation: (seq<byte>, int) -> Option<OddsProof>,
    sideForLabel: seq<byte> -> Option<int>)

  /** What to look for: the sealed bet's fixture, side and price, in the result market. */
  datatype Wanted = Wanted(fixtureId: int, market: seq<byte>, side: int, entryOddsMilli: int)

  datatype Search = NoRecord | NoProof | Found(proof: OddsProof, sideIndex: nat)

  // ---------------------------------------------------------------------------------------------
  // The walk

  /** The remainder keeps the sign of the dividend. */
  function JsRemainder(a: int, m: int): int
    requires m > 0
  {
    if a >= 0 then a % m else -((-a) % m)
  }

  function BucketOf(ts: int, interval: int): Bucket {
    Bucket(ts / DAY_MS, JsRemainder(ts, DAY_MS) / HOUR_MS, interval)
  }

  /** The n-th bucket of the walk: hours newest first, and within an hour its intervals newest first. */
  function BucketAt(anchorTs: int, n: nat): Bucket {
    BucketOf(anchorTs - n / INTERVALS_PER_HOUR * HOUR_MS, INTERVALS_PER_HOUR - 1 - n % INTERVALS_PER_HOUR)
  }

  /** A bucket that cannot be fetched is passed over. */
  function RecordsIn(archive: OddsArchive, bucket: Bucket): seq<OddsRecord> {
    var records := archive.updates(bucket);
    if records.Some? then records.value else []
  }

  /** The records of the first n buckets, in the order of the walk. */
  function Walked(archive: OddsArchive, anchorTs: int, n: nat): seq<OddsRecord> {
    if n == 0 then [] else Walked(archive, anchorTs, n - 1) + RecordsIn(archive, BucketAt(anchorTs, n - 1))
  }

  function FirstLabel(archive: OddsArchive, names: seq<seq<byte>>, side: int): (i: nat)
    ensures i <= |names| && (i < |names| ==> archive.sideForLabel(names[i]) == Some(side))
  {
    if |names| == 0 || archive.sideForLabel(names[0]) == Some(side) then 0
    else FirstLabel(archive, names[1..], side) + 1
  }

  /** The index of the sealed side's label, if the record quotes the sealed price there. */
  function QuoteAt(archive: OddsArchive, wanted: Wanted, r: OddsRecord): Option<nat> {
    if r.fixtureId != wanted.fixtureId || r.superOddsType != wanted.market then None
    else if |r.priceNames| == 0 || |r.priceNames| != |r.prices| then None
    else
      var i := FirstLabel(archive, r.priceNames, wanted.side);
      if i == |r.priceNames| || r.prices[i] != wanted.entryOddsMilli then None else Some(i)
  }

  /** Side k of a record is the first label read as the sealed side, among as many labels as prices. */
  predicate FirstReadAs(archive: OddsArchive, r: OddsRecord, side: int, k: int) {
    && |r.priceNames| == |r.prices| && 0 <= k < |r.priceNames| && archive.sideForLabel(r.priceNames[k]) == Some(side)
    && forall j :: 0 <= j < k ==> archive.sideForLabel(r.priceNames[j]) != Some(side)
  }

  lemma {:induction false} FirstLabelIsFirst(archive: OddsArchive, names: seq<seq<byte>>, side: int)
    ensures var i := FirstLabel(archive, names, side);
            forall j :: 0 <= j < i ==> archive.sideForLabel(names[j]) != Some(side)
  {
    if |names| > 0 && archive.sideForLabel(names[0]) != Some(side) {
      FirstLabelIsFirst(archive, names[1..], side);
      assert forall j :: 0 < j < |names| ==> names[j] == names[1..][j - 1];
    }
  }

  /** A record quotes the bet exactly if it is its fixture's, in its market, with the sealed price at the first label
      read as the sealed side. */
  lemma QuotesIff(archive: OddsArchive, wanted: Wanted, r: OddsRecord, k: nat)
    ensures QuoteAt(archive, wanted, r) == Some(k)
       <==> r.fixtureId == wanted.fixtureId && r.superOddsType == wanted.market
            && FirstReadAs(archive, r, wanted.side, k) && r.prices[k] == wanted.entryOddsMilli
  {
    FirstLabelIsFirst(archive, r.priceNames, wanted.side);
    if FirstReadAs(archive, r, wanted.side, k) {
      LabelIsFirst(archive, r.priceNames, wanted.side, k);
    }
  }

  lemma LabelIsFirst(archive: OddsArchive, names: seq<seq<byte>>, side: int, k: nat)
    requires k < |names| && archive.sideForLabel(names[k]) == Some(side)
    requires forall j :: 0 <= j < k ==> archive.sideForLabel(names[j]) != Some(side)
    ensures FirstLabel(archive, names, side) == k
  {
    FirstLabelIsFirst(archive, names, side);
    FirstLabelStops(archive, names, side, k);
  }

  lemma {:induction false} FirstLabelStops(archive: OddsArchive, names: seq<seq<byte>>, side: int, k: nat)
    requires k < |names| && archive.sideForLabel(names[k]) == Some(side)
    ensures FirstLabel(archive, names, side) <= k
  {
    if k > 0 && archive.sideForLabel(names[0]) != Some(side) {
      FirstLabelStops(archive, names[1..], side, k - 1);
    }
  }

  predicate NoneQuotes(archive: OddsArchive, wanted: Wanted, records: seq<OddsRecord>) {
    forall k :: 0 <= k < |records| ==> QuoteAt(archive, wanted, records[k]).None?
  }

  /** Record k is the first of these that quotes the sealed price. */
  predicate FirstQuote(archive: OddsArchive, wanted: Wanted, records: seq<OddsRecord>, k: int) {
    0 <= k < |records| && QuoteAt(archive, wanted, records[k]).Some? && NoneQuotes(archive, wanted, records[..k])
  }

  /** The outcome the walk should have: the first quoting record of all buckets decides it. */
  ghost predicate Discovers(archive: OddsArchive, wanted: Wanted, anchorTs: int, search: Search) {
    var records := Walked(archive, anchorTs, ALL_BUCKETS);
    if search.NoRecord? then NoneQuotes(archive, wanted, records)
    else exists k :: FirstQuote(archive, wanted, records, k) && Fetched(archive, wanted, records[k], search)
  }

  /** The search ends with this record: its proof and its index, or no proof. */
  predicate Fetched(archive: OddsArchive, wanted: Wanted, r: OddsRecord, search: Search) {
    match archive.validation(r.messageId, r.ts)
    case None => search.NoProof?
    case Some(proof) => search.Found? && search.proof == proof && QuoteAt(archive, wanted, r) == Some(search.sideIndex)
  }

  lemma {:induction false} WalkedPrefix(archive: OddsArchive, anchorTs: int, n: nat, m: nat)
    requires n <= m
    ensures Walked(archive, anchorTs, n) <= Walked(archive, anchorTs, m)
  {
    if n < m {
      WalkedPrefix(archive, anchorTs, n, m - 1);
    }
  }

  lemma FirstQuoteAfter(
    archive: OddsArchive, wanted: Wanted, before: seq<OddsRecord>, records: seq<OddsRecord>, all: seq<OddsRecord>, k: nat)
    requires NoneQuotes(archive, wanted, before) && FirstQuote(archive, wanted, records, k)
    requires before + records <= all
    ensures FirstQuote(archive, wanted, all, |before| + k) && all[|before| + k] == records[k]
  {
    hide QuoteAt;
    assert all[..|before| + k] == before + records[..k];
  }

  lemma QuoteInBucket(
    archive: OddsArchive, wanted: Wanted, anchorTs: int, n: nat, records: seq<OddsRecord>, k: nat)
    requires n < ALL_BUCKETS && records == RecordsIn(archive, BucketAt(anchorTs, n))
    requires NoneQuotes(archive, wanted, Walked(archive, anchorTs, n)) && FirstQuote(archive, wanted, records, k)
    ensures var all, at := Walked(archive, anchorTs, ALL_BUCKETS), |Walked(archive, anchorTs, n)| + k;
            FirstQuote(archive, wanted, all, at) && all[at] == records[k]
  {
    hide FirstQuote, NoneQuotes, BucketAt;
    WalkedPrefix(archive, anchorTs, n + 1, ALL_BUCKETS);
    assert Walked(archive, anchorTs, n + 1) == Walked(archive, anchorTs, n) + records;
    FirstQuoteAfter(archive, wanted, Walked(archive, anchorTs, n), records, Walked(archive, anchorTs, ALL_BUCKETS), k);
  }

  /** Walk the buckets and stop at the first record that quotes the sealed price. */
  method DiscoverEntryOddsRecord(archive: OddsArchive, wanted: Wanted, anchorTs: int) returns (search: Search)
    ensures Discovers(archive, wanted, anchorTs, search)
  {
    hide QuoteAt, Fetched;
    for hoursBack := 0 to ODDS_LOOKBACK_HOURS
      invariant NoneQuotes(archive, wanted, Walked(archive, anchorTs, hoursBack * INTERVALS_PER_HOUR))
    {
      var interval := INTERVALS_PER_HOUR - 1;
      while interval >= 0
        invariant -1 <= interval < INTERVALS_PER_HOUR
        invariant NoneQuotes(archive, wanted, Walked(archive, anchorTs, WalkedBefore(hoursBack, interval)))
      {
        ghost var n := WalkedBefore(hoursBack, interval);
        BucketOfStep(anchorTs, hoursBack, interval);
        var updates := archive.updates(BucketOf(anchorTs - hoursBack * HOUR_MS, interval));
        if updates.Some? {
          var k := FindQuote(archive, wanted, updates.value);
          if k < |updates.value| {
            QuoteInBucket(archive, wanted, anchorTs, n, updates.value, k);
            search := Fetch(archive, wanted, updates.value[k]);
            return;
          }
        }
        interval := interval - 1;
      }
    }
    search := NoRecord;
  }

  /** How many buckets come before this one. */
  function WalkedBefore(hoursBack: nat, interval: int): nat
    requires -1 <= interval < INTERVALS_PER_HOUR
  {
    hoursBack * INTERVALS_PER_HOUR + (INTERVALS_PER_HOUR - 1 - interval)
  }

  lemma BucketOfStep(anchorTs: int, hoursBack: nat, interval: nat)
    requires interval < INTERVALS_PER_HOUR
    ensures BucketAt(anchorTs, WalkedBefore(hoursBack, interval)) == BucketOf(anchorTs - hoursBack * HOUR_MS, interval)
  {
    var n := WalkedBefore(hoursBack, interval);
    assert n / INTERVALS_PER_HOUR == hoursBack && n % INTERVALS_PER_HOUR == INTERVALS_PER_HOUR - 1 - interval;
  }

  method FindQuote(archive: OddsArchive, wanted: Wanted, records: seq<OddsRecord>) returns (k: nat)
    ensures k <= |records|
    ensures if k == |records| then NoneQuotes(archive, wanted, records) else FirstQuote(archive, wanted, records, k)
  {
    hide QuoteAt;
    k := 0;
    while k < |records|
      invariant k <= |records| && NoneQuotes(archive, wanted, records[..k])
    {
      if QuoteAt(archive, wanted, records[k]).Some? { return; }
      k := k + 1;
    }
    assert records[..k] == records;
  }

  method Fetch(archive: OddsArchive, wanted: Wanted, r: OddsRecord) returns (search: Search)
    requires QuoteAt(archive, wanted, r).Some?
    ensures Fetched(archive, wanted, r, search) && !search.NoRecord?
  {
    var proof := archive.validation(r.messageId, r.ts);
    search := if proof.None? then NoProof else Found(proof.value, QuoteAt(archive, wanted, r).value);
  }

  // ---------------------------------------------------------------------------------------------
  // What the search is for

  /** The hours the walk covers, counted from the epoch: the hour of the settlement and the seven before it. */
  lemma WalkCoversHours(anchorTs: int, ts: int, interval: nat)
    requires 0 <= ts && interval < INTERVALS_PER_HOUR && (ODDS_LOOKBACK_HOURS - 1) * HOUR_MS <= anchorTs
    ensures (exists n :: 0 <= n < ALL_BUCKETS && BucketAt(anchorTs, n) == BucketOf(ts, interval))
       <==> anchorTs / HOUR_MS - (ODDS_LOOKBACK_HOURS - 1) <= ts / HOUR_MS <= anchorTs / HOUR_MS
  {
    hide BucketAt, BucketOf;
    var back := anchorTs / HOUR_MS - ts / HOUR_MS;
    if 0 <= back < ODDS_LOOKBACK_HOURS {
      var n := WalkedBefore(back, interval);
      BucketOfStep(anchorTs, back, interval);
      HourBack(anchorTs, back);
      SameHourIff(anchorTs - back * HOUR_MS, ts, interval);
      assert BucketAt(anchorTs, n) == BucketOf(ts, interval);
    }
    forall n | 0 <= n < ALL_BUCKETS && BucketAt(anchorTs, n) == BucketOf(ts, interval)
      ensures 0 <= back < ODDS_LOOKBACK_HOURS
    {
      BucketIsHour(anchorTs, n);
      HourBack(anchorTs, n / INTERVALS_PER_HOUR);
      SameBucketSameHour(anchorTs - n / INTERVALS_PER_HOUR * HOUR_MS, ts, INTERVALS_PER_HOUR - 1 - n % INTERVALS_PER_HOUR,
                         interval);
    }
  }

  lemma BucketIsHour(anchorTs: int, n: nat)
    ensures BucketAt(anchorTs, n)
         == BucketOf(anchorTs - n / INTERVALS_PER_HOUR * HOUR_MS, INTERVALS_PER_HOUR - 1 - n % INTERVALS_PER_HOUR)
  {
  }

  lemma HourBack(ts: int, back: nat)
    ensures (ts - back * HOUR_MS) / HOUR_MS == ts / HOUR_MS - back
  {
  }

  /** A bucket names its hour. */
  lemma HourOf(ts: int, interval: int)
    requires 0 <= ts
    ensures ts / HOUR_MS == BucketOf(ts, interval).epochDay * 24 + BucketOf(ts, interval).hourOfDay
    ensures 0 <= BucketOf(ts, interval).hourOfDay < 24
  {
    assert ts == ts / DAY_MS * DAY_MS + ts % DAY_MS;
  }

  lemma SameBucketSameHour(a: int, b: int, i: int, j: int)
    requires 0 <= a && 0 <= b && BucketOf(a, i) == BucketOf(b, j)
    ensures a / HOUR_MS == b / HOUR_MS
  {
    hide BucketOf;
    HourOf(a, i);
    HourOf(b, j);
  }

  lemma SameHourIff(a: int, b: int, interval: int)
    requires 0 <= a && 0 <= b && a / HOUR_MS == b / HOUR_MS
    ensures BucketOf(a, interval) == BucketOf(b, interval)
  {
    HourOf(a, interval);
    HourOf(b, interval);
  }

  /** How late a bucket is: its hour from the epoch, then its interval. */
  function Lateness(b: Bucket): int { (b.epochDay * 24 + b.hourOfDay) * INTERVALS_PER_HOUR + b.interval }

  /** The walk goes back one five-minute interval at a time, from the last of the settlement's hour. */
  lemma WalkIsNewestFirst(anchorTs: int, n: nat)
    requires n < ALL_BUCKETS && (ODDS_LOOKBACK_HOURS - 1) * HOUR_MS <= anchorTs
    ensures Lateness(BucketAt(anchorTs, n)) == (anchorTs / HOUR_MS) * INTERVALS_PER_HOUR + INTERVALS_PER_HOUR - 1 - n
    ensures 0 <= BucketAt(anchorTs, n).hourOfDay < 24 && 0 <= BucketAt(anchorTs, n).interval < INTERVALS_PER_HOUR
  {
    hide BucketOf;
    var back, interval := n / INTERVALS_PER_HOUR, INTERVALS_PER_HOUR - 1 - n % INTERVALS_PER_HOUR;
    HourBack(anchorTs, back);
    HourOf(anchorTs - back * HOUR_MS, interval);
    BucketInterval(anchorTs - back * HOUR_MS, interval);
  }

  lemma BucketInterval(ts: int, interval: int)
    ensures BucketOf(ts, interval).interval == interval
  {
  }

  // ---------------------------------------------------------------------------------------------
  // The proof's arguments, and what the program makes of them

  predicate IsSafe(v: int) { -MAX_SAFE_INTEGER <= v <= MAX_SAFE_INTEGER }

  predicate ProofIsSafe(proof: OddsProof) {
    && IsSafe(proof.odds.fixtureId) && IsSafe(proof.odds.ts) && IsSafe(proof.odds.bookmakerId)
    && IsSafe(proof.summary.fixtureId) && IsSafe(proof.summary.updateStats.updateCount)
    && IsSafe(proof.summary.updateStats.minTimestamp) && IsSafe(proof.summary.updateStats.maxTimestamp)
    && forall i :: 0 <= i < |proof.odds.prices| ==> IsSafe(proof.odds.prices[i])
  }

  predicate AllAre32(nodes: seq<ProofNode>) { forall i :: 0 <= i < |nodes| ==> |nodes[i].hash| == 32 }

  function BuildProveOddsArgs(proof: OddsProof, sealed: RevealArgs, sideIndex: nat): Option<ProveOddsArgs> {
    if !ProofIsSafe(proof) || |proof.summary.subTreeRoot| != 32 then None
    else if !AllAre32(proof.subTreeProof) || !AllAre32(proof.mainTreeProof) then None
    else Some(ProveOddsArgs(sealed, proof.odds.ts, proof.odds, proof.summary, proof.subTreeProof, proof.mainTreeProof,
                            sideIndex))
  }

  /** Proof arguments are built exactly when every number is a safe integer and every root and hash has 32 bytes,
      and then carry the proof part by part. */
  lemma ProveArgsCarryTheProof(proof: OddsProof, sealed: RevealArgs, sideIndex: nat)
    ensures match BuildProveOddsArgs(proof, sealed, sideIndex)
            case None =>
              !ProofIsSafe(proof) || |proof.summary.subTreeRoot| != 32
              || exists n :: (n in proof.subTreeProof || n in proof.mainTreeProof) && |n.hash| != 32
            case Some(a) =>
              && (a.sealed, a.ts, a.sideIndex) == (sealed, proof.odds.ts, sideIndex)
              && (a.oddsSnapshot, a.summary) == (proof.odds, proof.summary)
              && (a.subTreeProof, a.mainTreeProof) == (proof.subTreeProof, proof.mainTreeProof)
              && ProofIsSafe(proof) && |proof.summary.subTreeRoot| == 32
              && forall n :: n in proof.subTreeProof || n in proof.mainTreeProof ==> |n.hash| == 32
  {
    AllAre32Iff(proof.subTreeProof);
    AllAre32Iff(proof.mainTreeProof);
  }

  lemma AllAre32Iff(nodes: seq<ProofNode>)
    ensures AllAre32(nodes) <==> forall n :: n in nodes ==> |n.hash| == 32
  {
  }

  function WantedFor(market: seq<byte>, sealed: RevealArgs): Wanted {
    Wanted(sealed.fixtureId, market, sealed.side, sealed.entryOddsMilli)
  }

  /** A proof quotes what the record quotes. */
  predicate QuotesSame(proof: OddsProof, r: OddsRecord) {
    && proof.odds.fixtureId == r.fixtureId && proof.odds.superOddsType == r.superOddsType
    && proof.odds.priceNames == r.priceNames && proof.odds.prices == r.prices
  }

  /** The validation service answers for each of these records with that record's own quote. */
  ghost predicate AnswersForRecords(archive: OddsArchive, records: seq<OddsRecord>) {
    forall k :: 0 <= k < |records| ==>
      var proof := archive.validation(records[k].messageId, records[k].ts);
      proof.Some? ==> QuotesSame(proof.value, records[k])
  }

  /** The client and the program read price labels alike. */
  ghost predicate LabelsAgree(w: World, archive: OddsArchive) {
    forall text, side :: archive.sideForLabel(text) == Some(side) ==> w.sideMatchesLabel(side, text)
  }

  /** Which program errors can still answer the proof of a quote the search found. */
  predicate StillPossible(e: LedgerError) {
    e in {NotSettled, OddsAlreadyProven, TxlineProgramMismatch, InvalidRootsPda, OracleRejected}
  }

  /** A found quote is never refused for its market, its index, its side or its price, nor for the commit. */
  lemma FoundQuotePasses(
    w: World, l: LedgerModel.Ledger, d: AccountDecode.DecisionAccount, sealed: RevealArgs, archive: OddsArchive, anchorTs: int,
    search: Search, args: ProveOddsArgs, program: seq<byte>, roots: seq<byte>)
    requires Discovers(archive, WantedFor(w.resultMarket, sealed), anchorTs, search) && search.Found?
    requires AnswersForRecords(archive, Walked(archive, anchorTs, ALL_BUCKETS)) && LabelsAgree(w, archive)
    requires BuildProveOddsArgs(search.proof, sealed, search.sideIndex) == Some(args)
    requires CommitHash(w, sealed) == d.commitHash && Routed(w, sealed, d)
    requires IsSide(sealed.side) && 0 <= sealed.entryOddsMilli
    ensures var e := ProveCheck(w, l, d, args, program, roots); e.Some? ==> StillPossible(e.value)
  {
    hide Walked;
    var wanted, records := WantedFor(w.resultMarket, sealed), Walked(archive, anchorTs, ALL_BUCKETS);
    var k :| FirstQuote(archive, wanted, records, k) && Fetched(archive, wanted, records[k], search);
    assert QuotesSame(search.proof, records[k]);
  }
}
