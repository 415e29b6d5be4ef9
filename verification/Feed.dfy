/** Feed records, their idempotency keys, and the deterministic replay of a recorded window. */
module Feed {
  import opened Prelude
  import opened Sorting
  import D = Domain

  // ---------------------------------------------------------------------------------------------
  // Records and keys

  /** A schema-checked record; what a body holds only matters to the mapping. */
  datatype RawOdds = RawOdds(messageId: string, body: string)

  datatype RawScore = RawScore(fixtureId: int, seqNo: int, body: string)

  datatype Record = OddsRecord(odds: RawOdds) | ScoreRecord(score: RawScore)

  datatype Key = OddsKey(messageId: string) | ScoreKey(fixtureId: int, seqNo: int)

  function KeyOf(r: Record): Key {
    match r
    case OddsRecord(odds) => OddsKey(odds.messageId)
    case ScoreRecord(score) => ScoreKey(score.fixtureId, score.seqNo)
  }

  datatype Payload = OddsPayload(odds: D.OddsUpdate) | ScorePayload(score: D.ScoreUpdate)
  {
    function TsMs(): int { if OddsPayload? then odds.tsMs else score.tsMs }

    function ChannelRank(): int { if OddsPayload? then 0 else 1 }
  }

  /** A mapped payload with the key of the record it came from. */
  datatype Entry = Entry(key: Key, payload: Payload)

  /** The mappings from raw to domain, which may refuse a record; every theorem holds for all of them. */
  datatype Maps = Maps(odds: RawOdds -> Option<D.OddsUpdate>, score: RawScore -> Option<D.ScoreUpdate>)

  function MapRecord(maps: Maps, r: Record): Option<Payload> {
    match r
    case OddsRecord(odds) => (match maps.odds(odds) case None => None case Some(u) => Some(OddsPayload(u)))
    case ScoreRecord(score) => (match maps.score(score) case None => None case Some(u) => Some(ScorePayload(u)))
  }

  function KeysOf(records: seq<Record>): set<Key> { set r | r in records :: KeyOf(r) }

  /** What deduplicating feeds make of a record stream: the first record of each key, mapped, if it maps. */
  function Entries(maps: Maps, records: seq<Record>): seq<Entry> {
    if |records| == 0 then []
    else
      var front, last := records[..|records| - 1], records[|records| - 1];
      var earlier := Entries(maps, front);
      if KeyOf(last) in KeysOf(front) then earlier
      else match MapRecord(maps, last)
           case None => earlier
           case Some(p) => earlier + [Entry(KeyOf(last), p)]
  }

  lemma KeysOfSnoc(records: seq<Record>, r: Record)
    ensures KeysOf(records + [r]) == KeysOf(records) + {KeyOf(r)}
  {
    forall k
      ensures k in KeysOf(records + [r]) <==> k in KeysOf(records) + {KeyOf(r)}
    {
      if k in KeysOf(records) {
        var x :| x in records && KeyOf(x) == k;
        assert x in records + [r];
      }
      if k == KeyOf(r) {
        assert r in records + [r];
      }
    }
  }

  /** Records with the same key map to the same thing. */
  ghost predicate Consistent(maps: Maps, records: seq<Record>) {
    forall a, b :: a in records && b in records && KeyOf(a) == KeyOf(b) ==> MapRecord(maps, a) == MapRecord(maps, b)
  }

  ghost predicate DistinctEntryKeys(entries: seq<Entry>) {
    forall i, j :: 0 <= i < j < |entries| ==> entries[i].key != entries[j].key
  }

  lemma {:induction false} EntriesAreDistinct(maps: Maps, records: seq<Record>)
    ensures DistinctEntryKeys(Entries(maps, records))
    ensures forall e :: e in Entries(maps, records) ==> e.key in KeysOf(records)
  {
    if |records| > 0 {
      var front, last := records[..|records| - 1], records[|records| - 1];
      EntriesAreDistinct(maps, front);
      assert records == front + [last];
      KeysOfSnoc(front, last);
    }
  }

  predicate Yields(maps: Maps, r: Record, e: Entry) {
    KeyOf(r) == e.key && MapRecord(maps, r) == Some(e.payload)
  }

  /** An entry is emitted exactly when some record yields it; order and repetition do not matter. */
  lemma {:induction false} EntryIffYielded(maps: Maps, records: seq<Record>, e: Entry)
    requires Consistent(maps, records)
    ensures e in Entries(maps, records) <==> exists r :: r in records && Yields(maps, r, e)
  {
    if |records| > 0 {
      var front, last := records[..|records| - 1], records[|records| - 1];
      assert records == front + [last];
      EntryIffYielded(maps, front, e);
      if r :| r in front && Yields(maps, r, e) {
        assert r in records;
      }
      if KeyOf(last) in KeysOf(front) && Yields(maps, last, e) {
        var r :| r in front && KeyOf(r) == KeyOf(last);
        assert Yields(maps, r, e);
      }
      if KeyOf(last) !in KeysOf(front) && MapRecord(maps, last) == Some(e.payload) && e.key == KeyOf(last) {
        assert Yields(maps, last, e) && last in records;
      }
    }
  }

  lemma {:induction false} DistinctOccurOnce(s: seq<Entry>, e: Entry)
    requires DistinctEntryKeys(s)
    ensures multiset(s)[e] == if e in s then 1 else 0
  {
    if |s| > 0 {
      var front, last := s[..|s| - 1], s[|s| - 1];
      assert s == front + [last];
      DistinctOccurOnce(front, e);
      assert forall i :: 0 <= i < |front| ==> front[i] == s[i] && s[i].key != last.key;
    }
  }

  /** Two record streams that deliver the same keys, consistently, emit the same entries, each once. */
  lemma SameKeysSameEntries(maps: Maps, a: seq<Record>, b: seq<Record>)
    requires Consistent(maps, a + b) && KeysOf(a) == KeysOf(b)
    ensures multiset(Entries(maps, a)) == multiset(Entries(maps, b))
  {
    forall e
      ensures multiset(Entries(maps, a))[e] == multiset(Entries(maps, b))[e]
    {
      EntryCarriesOver(maps, a, b, e);
      EntryCarriesOver(maps, b, a, e);
      EntriesAreDistinct(maps, a);
      EntriesAreDistinct(maps, b);
      DistinctOccurOnce(Entries(maps, a), e);
      DistinctOccurOnce(Entries(maps, b), e);
    }
  }

  lemma EntryCarriesOver(maps: Maps, a: seq<Record>, b: seq<Record>, e: Entry)
    requires (Consistent(maps, a + b) || Consistent(maps, b + a)) && KeysOf(a) == KeysOf(b)
    ensures e in Entries(maps, a) ==> e in Entries(maps, b)
  {
    assert forall r :: r in a || r in b ==> r in a + b && r in b + a;
    EntryIffYielded(maps, a, e);
    EntryIffYielded(maps, b, e);
    if r :| r in a && Yields(maps, r, e) {
      assert KeyOf(r) in KeysOf(a);
      var x :| x in b && KeyOf(x) == KeyOf(r);
      assert Yields(maps, x, e);
    }
  }

  /** Deduplicates records: odds by message id, scores by fixture and seq. */
  class IdempotencyTracker {
    var seenOdds: set<string>
    var seenScores: set<(int, int)>

    /** Every key seen so far. */
    ghost function Seen(): set<Key>
      reads this
    {
      (set m | m in seenOdds :: OddsKey(m)) + (set p | p in seenScores :: ScoreKey(p.0, p.1))
    }

    constructor ()
      ensures Seen() == {}
    {
      seenOdds, seenScores := {}, {};
    }

    /** Whether this is the first time the message id is seen. */
    method AcceptOdds(messageId: string) returns (first: bool)
      modifies this
      ensures first <==> OddsKey(messageId) !in old(Seen())
      ensures Seen() == old(Seen()) + {OddsKey(messageId)}
    {
      if messageId in seenOdds { return false; }
      seenOdds := seenOdds + {messageId};
      return true;
    }

    method AcceptScore(fixtureId: int, seqNo: int) returns (first: bool)
      modifies this
      ensures first <==> ScoreKey(fixtureId, seqNo) !in old(Seen())
      ensures Seen() == old(Seen()) + {ScoreKey(fixtureId, seqNo)}
    {
      if (fixtureId, seqNo) in seenScores { return false; }
      seenScores := seenScores + {(fixtureId, seqNo)};
      return true;
    }

    method Accept(r: Record) returns (first: bool)
      modifies this
      ensures first <==> KeyOf(r) !in old(Seen())
      ensures Seen() == old(Seen()) + {KeyOf(r)}
    {
      match r
      case OddsRecord(odds) => first := AcceptOdds(odds.messageId);
      case ScoreRecord(score) => first := AcceptScore(score.fixtureId, score.seqNo);
    }
  }

  // ---------------------------------------------------------------------------------------------
  // Intervals

  datatype IntervalCoord = IntervalCoord(epochDay: int, hourOfDay: int, interval: int)

  /** What a source answers for one interval: each channel's records, or a failure. */
  datatype IntervalAnswer = IntervalAnswer(odds: Option<seq<RawOdds>>, scores: Option<seq<RawScore>>)

  function OddsRecords(raws: Option<seq<RawOdds>>): Option<seq<Record>> {
    match raws case None => None case Some(s) => Some(seq(|s|, i requires 0 <= i < |s| => OddsRecord(s[i])))
  }

  function ScoreRecords(raws: Option<seq<RawScore>>): Option<seq<Record>> {
    match raws case None => None case Some(s) => Some(seq(|s|, i requires 0 <= i < |s| => ScoreRecord(s[i])))
  }

  function Answered(records: Option<seq<Record>>): seq<Record> {
    match records case None => [] case Some(s) => s
  }

  function AnswerRecords(a: IntervalAnswer): seq<Record> {
    Answered(OddsRecords(a.odds)) + Answered(ScoreRecords(a.scores))
  }

  function FailedChannels(a: IntervalAnswer): nat {
    (if a.odds.Some? then 0 else 1) + (if a.scores.Some? then 0 else 1)
  }

  /** The records a window delivers, in fetch order, and how many channel fetches failed. */
  function WindowRecords(source: IntervalCoord -> IntervalAnswer, intervals: seq<IntervalCoord>): seq<Record> {
    if |intervals| == 0 then []
    else WindowRecords(source, intervals[..|intervals| - 1]) + AnswerRecords(source(intervals[|intervals| - 1]))
  }

  function WindowFailures(source: IntervalCoord -> IntervalAnswer, intervals: seq<IntervalCoord>): nat {
    if |intervals| == 0 then 0
    else WindowFailures(source, intervals[..|intervals| - 1]) + FailedChannels(source(intervals[|intervals| - 1]))
  }

  // ---------------------------------------------------------------------------------------------
  // Replay

  /** An entry waiting to be replayed, keyed by timestamp, channel and fetch order. */
  function Pending(entries: seq<Entry>): seq<Keyed<Entry>> {
    seq(|entries|, i requires 0 <= i < |entries| => Annotate(entries[i], i))
  }

  function Annotate(e: Entry, order: int): Keyed<Entry> {
    Keyed(e.payload.TsMs(), e.payload.ChannelRank(), order, e)
  }

  function Items<T>(s: seq<Keyed<T>>): seq<T> {
    seq(|s|, i requires 0 <= i < |s| => s[i].item)
  }

  /** The replay order of a deduplicated window. */
  function ReplayOrder(entries: seq<Entry>): seq<Entry> { Items(Sort(Pending(entries))) }

  class ManualClock {
    var currentMs: int

    constructor (startMs: int)
      ensures currentMs == startMs
    {
      currentMs := startMs;
    }

    /** Advance to an absolute time, ignoring backward moves. */
    method SetMs(absoluteMs: int)
      modifies this
      ensures currentMs == Max(old(currentMs), absoluteMs)
    {
      if absoluteMs > currentMs {
        currentMs := absoluteMs;
      }
    }
  }

  datatype Replayed = Replayed(seqNo: nat, receivedAtMs: int, entry: Entry)

  class ReplayFeed {
    const source: IntervalCoord -> IntervalAnswer
    const intervals: seq<IntervalCoord>
    const maps: Maps
    const clock: ManualClock

    constructor (source: IntervalCoord -> IntervalAnswer, intervals: seq<IntervalCoord>, maps: Maps, clock: ManualClock)
      ensures this.source == source && this.intervals == intervals && this.maps == maps && this.clock == clock
    {
      this.source, this.intervals, this.maps, this.clock := source, intervals, maps, clock;
    }

    /** Take one fetched record: pend it if its key is new and it maps. */
    method Take(tracker: IdempotencyTracker, ghost before: seq<Record>, r: Record, pending: seq<Keyed<Entry>>)
      returns (more: seq<Keyed<Entry>>)
      requires tracker.Seen() == KeysOf(before) && pending == Pending(Entries(maps, before))
      modifies tracker
      ensures tracker.Seen() == KeysOf(before + [r]) && more == Pending(Entries(maps, before + [r]))
    {
      KeysOfSnoc(before, r);
      assert (before + [r])[..|before|] == before;
      var first := tracker.Accept(r);
      if !first { return pending; }
      var mapped := MapRecord(maps, r);
      if mapped.None? { return pending; }
      return pending + [Annotate(Entry(KeyOf(r), mapped.value), |pending|)];
    }

    method Collect(tracker: IdempotencyTracker, ghost before: seq<Record>, batch: seq<Record>, pending: seq<Keyed<Entry>>)
      returns (more: seq<Keyed<Entry>>)
      requires tracker.Seen() == KeysOf(before) && pending == Pending(Entries(maps, before))
      modifies tracker
      ensures tracker.Seen() == KeysOf(before + batch) && more == Pending(Entries(maps, before + batch))
    {
      more := pending;
      assert before + batch[..0] == before;
      for i := 0 to |batch|
        invariant tracker.Seen() == KeysOf(before + batch[..i])
        invariant more == Pending(Entries(maps, before + batch[..i]))
      {
        assert before + batch[..i + 1] == (before + batch[..i]) + [batch[i]];
        more := Take(tracker, before + batch[..i], batch[i], more);
      }
      assert batch[..|batch|] == batch;
    }

    /** Collect what one fetch answered; a failed fetch only counts as a gap. */
    method Gather(
      tracker: IdempotencyTracker, ghost before: seq<Record>, answer: Option<seq<Record>>, pending: seq<Keyed<Entry>>)
      returns (more: seq<Keyed<Entry>>, failures: nat)
      requires tracker.Seen() == KeysOf(before) && pending == Pending(Entries(maps, before))
      modifies tracker
      ensures var now := before + Answered(answer);
              tracker.Seen() == KeysOf(now) && more == Pending(Entries(maps, now))
      ensures failures == if answer.None? then 1 else 0
    {
      if answer.None? {
        assert before + Answered(answer) == before;
        return pending, 1;
      }
      more := Collect(tracker, before, answer.value, pending);
      failures := 0;
    }

    /** Fetch one interval's odds, then its scores. */
    method Fetch(tracker: IdempotencyTracker, ghost before: seq<Record>, coord: IntervalCoord, pending: seq<Keyed<Entry>>)
      returns (more: seq<Keyed<Entry>>, failures: nat)
      requires tracker.Seen() == KeysOf(before) && pending == Pending(Entries(maps, before))
      modifies tracker
      ensures var now := before + AnswerRecords(source(coord));
              tracker.Seen() == KeysOf(now) && more == Pending(Entries(maps, now))
      ensures failures == FailedChannels(source(coord))
    {
      hide Entries, KeysOf, Pending;
      var odds, scores := OddsRecords(source(coord).odds), ScoreRecords(source(coord).scores);
      var oddsFailures, scoresFailures;
      more, oddsFailures := Gather(tracker, before, odds, pending);
      more, scoresFailures := Gather(tracker, before + Answered(odds), scores, more);
      assert before + Answered(odds) + Answered(scores) == before + AnswerRecords(source(coord));
      failures := oddsFailures + scoresFailures;
    }

    /** Fetch every interval, dedup, map, sort, and replay with the clock advanced to each timestamp. */
    method Events() returns (log: seq<Replayed>, gaps: nat)
      modifies clock
      ensures gaps == WindowFailures(source, intervals)
      ensures var order := ReplayOrder(Entries(maps, WindowRecords(source, intervals)));
              && |log| == |order|
              && forall i :: 0 <= i < |log| ==>
                   log[i] == Replayed(i, Max(old(clock.currentMs), order[i].payload.TsMs()), order[i])
    {
      var tracker := new IdempotencyTracker();
      var pending: seq<Keyed<Entry>> := [];
      gaps := 0;
      for k := 0 to |intervals|
        invariant tracker.Seen() == KeysOf(WindowRecords(source, intervals[..k])) && fresh(tracker)
        invariant pending == Pending(Entries(maps, WindowRecords(source, intervals[..k])))
        invariant gaps == WindowFailures(source, intervals[..k])
        invariant clock.currentMs == old(clock.currentMs)
      {
        assert intervals[..k + 1][..k] == intervals[..k];
        var failures;
        pending, failures := Fetch(tracker, WindowRecords(source, intervals[..k]), intervals[k], pending);
        gaps := gaps + failures;
      }
      assert intervals[..|intervals|] == intervals;
      log := Replay(pending);
    }

    /** Sort the pending entries and emit them in order. */
    method Replay(pending: seq<Keyed<Entry>>) returns (log: seq<Replayed>)
      requires exists entries :: pending == Pending(entries)
      modifies clock
      ensures var order := Items(Sort(pending));
              && |log| == |order|
              && forall i :: 0 <= i < |log| ==>
                   log[i] == Replayed(i, Max(old(clock.currentMs), order[i].payload.TsMs()), order[i])
    {
      ghost var entries :| pending == Pending(entries);
      SortedByTime(entries);
      var sorted := Sort(pending);
      assert InTimeOrder(sorted);
      log := [];
      for i := 0 to |sorted|
        invariant |log| == i
        invariant clock.currentMs == if i == 0 then old(clock.currentMs)
                                     else Max(old(clock.currentMs), sorted[i - 1].item.payload.TsMs())
        invariant forall j :: 0 <= j < i ==>
          log[j] == Replayed(j, Max(old(clock.currentMs), sorted[j].item.payload.TsMs()), sorted[j].item)
      {
        clock.SetMs(sorted[i].item.payload.TsMs());
        log := log + [Replayed(i, clock.currentMs, sorted[i].item)];
      }
    }
  }

  lemma PendingIsSortable(entries: seq<Entry>)
    ensures Ordered(Sort(Pending(entries))) && multiset(Sort(Pending(entries))) == multiset(Pending(entries))
  {
    SortOrders(Pending(entries));
    SortPermutes(Pending(entries));
  }

  predicate InTimeOrder(sorted: seq<Keyed<Entry>>) {
    forall i, j :: 0 <= i < j < |sorted| ==> sorted[i].item.payload.TsMs() <= sorted[j].item.payload.TsMs()
  }

  /** Timestamps never go back in a replay. */
  lemma SortedByTime(entries: seq<Entry>)
    ensures InTimeOrder(Sort(Pending(entries)))
  {
    PendingIsSortable(entries);
    var sorted := Sort(Pending(entries));
    forall x | x in sorted
      ensures x.major == x.item.payload.TsMs()
    {
      assert x in multiset(sorted);
      assert x in Pending(entries);
    }
    assert forall i :: 0 <= i < |sorted| ==> sorted[i] in sorted;
  }

  // ---------------------------------------------------------------------------------------------
  // Replay against any other delivery of the same records

  lemma ItemsOfPermutation<T>(a: seq<Keyed<T>>, b: seq<Keyed<T>>)
    requires multiset(a) == multiset(b)
    ensures multiset(Items(a)) == multiset(Items(b))
  {
    var f := (k: Keyed<T>) => k.item;
    MapOfPermutation(f, a, b);
    assert Map(f, a) == Items(a) && Map(f, b) == Items(b);
  }

  /** A replay emits exactly the deduplicated entries, each once. */
  lemma ReplayEmitsEntries(entries: seq<Entry>)
    ensures multiset(ReplayOrder(entries)) == multiset(entries)
  {
    PendingIsSortable(entries);
    ItemsOfPermutation(Sort(Pending(entries)), Pending(entries));
    assert Items(Pending(entries)) == entries;
  }

  /** Where an entry stands in a list. */
  function Position(entries: seq<Entry>, e: Entry): (i: nat)
    ensures i <= |entries| && (e in entries ==> i < |entries| && entries[i] == e)
  {
    if |entries| == 0 || entries[0] == e then 0 else Position(entries[1..], e) + 1
  }

  /** The entries of a list, annotated with their fetch order in another. */
  function AnnotateBy(fetched: seq<Entry>, entries: seq<Entry>): seq<Keyed<Entry>> {
    seq(|entries|, i requires 0 <= i < |entries| => Annotate(entries[i], Position(fetched, entries[i])))
  }

  /** A stream that is already in replay order: by timestamp, then odds before scores, then fetch order. */
  ghost predicate InReplayOrder(fetched: seq<Entry>, entries: seq<Entry>) {
    Ordered(AnnotateBy(fetched, entries))
  }

  lemma AnnotatedPermutation(fetched: seq<Entry>, a: seq<Entry>, b: seq<Entry>)
    requires multiset(a) == multiset(b)
    ensures multiset(AnnotateBy(fetched, a)) == multiset(AnnotateBy(fetched, b))
  {
    var f := (e: Entry) => Annotate(e, Position(fetched, e));
    MapOfPermutation(f, a, b);
    assert Map(f, a) == AnnotateBy(fetched, a) && Map(f, b) == AnnotateBy(fetched, b);
  }

  /** A list annotated by itself is annotated with fetch order. */
  lemma AnnotatedByItself(fetched: seq<Entry>)
    requires DistinctEntryKeys(fetched)
    ensures AnnotateBy(fetched, fetched) == Pending(fetched)
  {
    forall i | 0 <= i < |fetched|
      ensures Position(fetched, fetched[i]) == i
    {
      assert fetched[i] in fetched;
      assert fetched[Position(fetched, fetched[i])].key == fetched[i].key;
    }
  }

  /** Annotating is undone by taking items, and on the replay order it gives back the sort. */
  lemma AnnotateInvertsItems(fetched: seq<Entry>, sorted: seq<Keyed<Entry>>)
    requires forall i :: 0 <= i < |sorted| ==> sorted[i] in AnnotateBy(fetched, fetched)
    ensures AnnotateBy(fetched, Items(sorted)) == sorted
  {
  }

  /** A stream of the same entries is the replay, entry for entry, exactly when it is already in replay order. */
  lemma ReplayIsTheOrderedStream(fetched: seq<Entry>, stream: seq<Entry>)
    requires DistinctEntryKeys(fetched) && multiset(stream) == multiset(fetched)
    ensures stream == ReplayOrder(fetched) <==> InReplayOrder(fetched, stream)
  {
    PendingIsSortable(fetched);
    AnnotatedByItself(fetched);
    var sorted := Sort(Pending(fetched));
    forall i | 0 <= i < |sorted|
      ensures sorted[i] in AnnotateBy(fetched, fetched)
    {
      assert sorted[i] in multiset(sorted);
    }
    AnnotateInvertsItems(fetched, sorted);
    if InReplayOrder(fetched, stream) {
      AnnotatedPermutation(fetched, stream, fetched);
      OrderedIsUnique(AnnotateBy(fetched, stream), sorted);
      assert Items(AnnotateBy(fetched, stream)) == stream;
    }
  }
}
