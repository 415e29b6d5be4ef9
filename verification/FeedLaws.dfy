/** What deduplication keeps and in which order a replay plays it, in terms of the records themselves. */
module FeedLaws {
  import opened Prelude
  import opened Sorting
  import opened Feed
  import D = Domain

  /** Two records are the same message: odds by message id, scores by fixture and seq. */
  predicate SameMessage(a: Record, b: Record) {
    match (a, b)
    case (OddsRecord(x), OddsRecord(y)) => x.messageId == y.messageId
    case (ScoreRecord(x), ScoreRecord(y)) => x.fixtureId == y.fixtureId && x.seqNo == y.seqNo
    case _ => false
  }

  lemma SameKeyIffSameMessage(a: Record, b: Record)
    ensures KeyOf(a) == KeyOf(b) <==> SameMessage(a, b)
  {
  }

  /** The i-th record is the first of its message. */
  ghost predicate First(records: seq<Record>, i: int) {
    0 <= i < |records| && forall j :: 0 <= j < i ==> !SameMessage(records[j], records[i])
  }

  /** What a record maps to: an odds record to an odds update, a score record to a score update. */
  ghost predicate MapsTo(maps: Maps, r: Record, p: Payload) {
    match r
    case OddsRecord(odds) => maps.odds(odds).Some? && p == OddsPayload(maps.odds(odds).value)
    case ScoreRecord(score) => maps.score(score).Some? && p == ScorePayload(maps.score(score).value)
  }

  /** The places in a record stream whose records are emitted, in order. */
  ghost predicate EmitsFrom(maps: Maps, records: seq<Record>, entries: seq<Entry>, places: seq<nat>) {
    && |places| == |entries|
    && (forall k :: 0 <= k < |places| ==>
          First(records, places[k]) && MapsTo(maps, records[places[k]], entries[k].payload)
          && entries[k].key == KeyOf(records[places[k]]))
    && (forall k, l :: 0 <= k < l < |places| ==> places[k] < places[l])
    && (forall i :: First(records, i) && (exists p :: MapsTo(maps, records[i], p)) ==> i in places)
  }

  lemma MapsToIff(maps: Maps, r: Record, p: Payload)
    ensures MapsTo(maps, r, p) <==> MapRecord(maps, r) == Some(p)
  {
  }

  lemma FirstIff(records: seq<Record>, r: Record)
    ensures First(records + [r], |records|) <==> KeyOf(r) !in KeysOf(records)
  {
    var longer := records + [r];
    if KeyOf(r) in KeysOf(records) {
      var x :| x in records && KeyOf(x) == KeyOf(r);
      var j :| 0 <= j < |records| && records[j] == x;
      assert SameMessage(longer[j], longer[|records|]);
    } else {
      forall j | 0 <= j < |records|
        ensures !SameMessage(longer[j], longer[|records|])
      {
        assert records[j] in records;
      }
    }
  }

  lemma FirstOfFront(front: seq<Record>, last: Record, i: int)
    requires 0 <= i < |front|
    ensures First(front + [last], i) <==> First(front, i)
  {
    var records := front + [last];
    assert forall j :: 0 <= j < |front| ==> records[j] == front[j];
  }

  /** One more record, emitted if it comes first of its message and maps. */
  lemma EmitsOn(maps: Maps, front: seq<Record>, last: Record, entries: seq<Entry>, places: seq<nat>)
    requires EmitsFrom(maps, front, entries, places)
    ensures var p := MapRecord(maps, last);
            if First(front + [last], |front|) && p.Some?
            then EmitsFrom(maps, front + [last], entries + [Entry(KeyOf(last), p.value)], places + [|front|])
            else EmitsFrom(maps, front + [last], entries, places)
  {
    hide MapsTo, MapRecord, First;
    var records, p := front + [last], MapRecord(maps, last);
    forall i | 0 <= i < |front|
      ensures (First(records, i) <==> First(front, i)) && records[i] == front[i]
    {
      FirstOfFront(front, last, i);
    }
    forall q
      ensures MapsTo(maps, last, q) <==> p == Some(q)
    {
      MapsToIff(maps, last, q);
    }
    forall k | 0 <= k < |places|
      ensures 0 <= places[k] < |front|
    {
      FirstIsPlace(front, places[k]);
    }
    forall i | First(records, i)
      ensures 0 <= i <= |front|
    {
      FirstIsPlace(records, i);
    }
  }

  lemma FirstIsPlace(records: seq<Record>, i: int)
    requires First(records, i)
    ensures 0 <= i < |records|
  {
  }

  /** What is emitted is exactly the mapped records that come first of their message, in order of receipt, whether
      or not repeated messages agree. */
  lemma {:induction false} EntriesAreFirsts(maps: Maps, records: seq<Record>) returns (places: seq<nat>)
    ensures EmitsFrom(maps, records, Entries(maps, records), places)
  {
    places := [];
    if |records| > 0 {
      hide EmitsFrom, First;
      var front, last := records[..|records| - 1], records[|records| - 1];
      assert front + [last] == records;
      places := EntriesAreFirsts(maps, front);
      FirstIff(front, last);
      EmitsOn(maps, front, last, Entries(maps, front), places);
      if First(records, |front|) && MapRecord(maps, last).Some? {
        places := places + [|front|];
      }
    }
  }

  // ---------------------------------------------------------------------------------------------
  // The replay order

  function Stamp(p: Payload): int {
    match p case OddsPayload(odds) => odds.tsMs case ScorePayload(score) => score.tsMs
  }

  /** Entry a of a fetched list is played before entry b: earlier, or at the same time odds before scores, or of
      the same kind and fetched first. */
  predicate PlaysBefore(a: Entry, i: int, b: Entry, j: int) {
    || Stamp(a.payload) < Stamp(b.payload)
    || (Stamp(a.payload) == Stamp(b.payload) && a.payload.OddsPayload? && b.payload.ScorePayload?)
    || (Stamp(a.payload) == Stamp(b.payload) && (a.payload.OddsPayload? <==> b.payload.OddsPayload?) && i < j)
  }

  /** The places in the fetched list of the entries as they are played. */
  ghost predicate PlaysFrom(fetched: seq<Entry>, played: seq<Entry>, places: seq<int>) {
    && |places| == |played| == |fetched|
    && (forall k :: 0 <= k < |places| ==> 0 <= places[k] < |fetched| && played[k] == fetched[places[k]])
    && (forall k, l :: 0 <= k < l < |places| ==>
          places[k] != places[l] && PlaysBefore(played[k], places[k], played[l], places[l]))
  }

  lemma AnnotatedBefore(a: Entry, i: int, b: Entry, j: int)
    ensures Before(Annotate(a, i), Annotate(b, j)) <==> PlaysBefore(a, i, b, j)
  {
  }

  /** A replay plays every fetched entry once, by time, odds before scores, then fetch order. */
  lemma ReplayPlaysInOrder(fetched: seq<Entry>) returns (places: seq<int>)
    ensures PlaysFrom(fetched, ReplayOrder(fetched), places)
  {
    hide Sort, Ordered, Before;
    var sorted, played := Sort(Pending(fetched)), ReplayOrder(fetched);
    PendingIsSortable(fetched);
    SortPermutes(Pending(fetched));
    places := seq(|sorted|, k requires 0 <= k < |sorted| => sorted[k].last);
    forall k | 0 <= k < |sorted|
      ensures 0 <= places[k] < |fetched| && sorted[k] == Annotate(fetched[places[k]], places[k])
    {
      assert sorted[k] in multiset(sorted);
      assert sorted[k] in Pending(fetched);
    }
    forall k, l | 0 <= k < l < |places|
      ensures places[k] != places[l] && PlaysBefore(played[k], places[k], played[l], places[l])
    {
      OrderedAt(sorted, k, l);
      AnnotatedBefore(played[k], places[k], played[l], places[l]);
    }
  }

  lemma OrderedAt<T>(s: seq<Keyed<T>>, i: int, j: int)
    requires Ordered(s) && 0 <= i < j < |s|
    ensures Before(s[i], s[j])
  {
  }

  // ---------------------------------------------------------------------------------------------
  // Failed fetches

  /** The channel fetches of a window: odds and scores of each interval. */
  predicate Fails(source: IntervalCoord -> IntervalAnswer, coord: IntervalCoord, odds: bool) {
    if odds then source(coord).odds.None? else source(coord).scores.None?
  }

  /** The places of the intervals whose fetch failed. */
  ghost function FailedAt(source: IntervalCoord -> IntervalAnswer, intervals: seq<IntervalCoord>,
      odds: bool): set<int> {
    set i | 0 <= i < |intervals| && Fails(source, intervals[i], odds)
  }

  /** The gaps a replay reports are its failed odds fetches and its failed scores fetches. */
  lemma {:induction false} GapsAreFailedFetches(source: IntervalCoord -> IntervalAnswer, intervals: seq<IntervalCoord>)
    ensures WindowFailures(source, intervals)
         == |FailedAt(source, intervals, true)| + |FailedAt(source, intervals, false)|
  {
    if |intervals| > 0 {
      GapsAreFailedFetches(source, intervals[..|intervals| - 1]);
      FailuresGrow(source, intervals, true);
      FailuresGrow(source, intervals, false);
    }
  }

  lemma FailuresGrow(source: IntervalCoord -> IntervalAnswer, intervals: seq<IntervalCoord>, odds: bool)
    requires |intervals| > 0
    ensures var n := |intervals| - 1;
            |FailedAt(source, intervals, odds)|
            == |FailedAt(source, intervals[..n], odds)| + if Fails(source, intervals[n], odds) then 1 else 0
  {
    FailedGrows(source, intervals, odds);
    hide FailedAt, Fails;
    var n := |intervals| - 1;
    var front := FailedAt(source, intervals[..n], odds);
    if Fails(source, intervals[n], odds) {
      assert |front + {n}| == |front| + 1;
    }
  }

  lemma FailedGrows(source: IntervalCoord -> IntervalAnswer, intervals: seq<IntervalCoord>, odds: bool)
    requires |intervals| > 0
    ensures var n := |intervals| - 1; var front := FailedAt(source, intervals[..n], odds);
            && n !in front
            && FailedAt(source, intervals, odds) == if Fails(source, intervals[n], odds) then front + {n} else front
  {
    hide Fails;
  }
}
