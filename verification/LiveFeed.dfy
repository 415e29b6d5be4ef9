/** The live feed: sessions of server-sent events with reconnects and backfills, and why its payloads are
    those of a replay of the same records. */
module LiveFeed {
  import opened Prelude
  import opened Feed
  import opened SseMerge
  import SseParse

  datatype Decoded<+T> = MalformedJson | Rejected | Accepted(record: T)

  /** JSON parsing and schemas: arbitrary functions of a frame's data. */
  datatype Decoding = Decoding(
    heartbeatTs: string -> Option<int>, odds: string -> Decoded<RawOdds>, scores: string -> Decoded<RawScore>)

  datatype StatusKind = Connected | Reconnecting(failed: bool) | Backfilling(intervals: nat) | Stopped

  datatype GapReason = BadJson | BadSchema | NotMapped | BackfillFailed

  datatype Content =
    | Status(kind: StatusKind)
    | Heartbeat(tsMs: int)
    | Gap(channel: Channel, reason: GapReason)
    | Payload(entry: Entry)

  datatype Emitted = Emitted(seqNo: nat, receivedAtMs: int, content: Content)

  /** The clock is read once per emitted event: `clock(n)` is its reading for the n-th. */
  datatype LiveConfig = LiveConfig(
    decoding: Decoding, maps: Maps, clock: nat -> int, maxReconnects: Option<nat>,
    backfillIntervals: int -> seq<IntervalCoord>)

  /** One connection: the frames it delivers, whether it ends in an error, and what a backfill after it would
      be answered. */
  datatype Session = Session(frames: seq<TaggedFrame>, failed: bool, answers: IntervalCoord -> IntervalAnswer)

  datatype LiveState = LiveState(
    seen: set<Key>, log: seq<Emitted>, seqNo: nat, resumeOdds: Option<string>, resumeScores: Option<string>,
    lastTsMs: int, reconnects: nat, gaps: nat, attempt: nat,
    /** The attempt number each backoff sleep was computed from. */
    sleeps: seq<nat>, ended: bool)

  function Start(c: LiveConfig): LiveState {
    Emit(c, LiveState({}, [], 0, None, None, 0, 0, 0, 0, [], false), Status(Connected))
  }

  function Emit(c: LiveConfig, s: LiveState, content: Content): LiveState {
    s.(log := s.log + [Emitted(s.seqNo, c.clock(s.seqNo), content)], seqNo := s.seqNo + 1)
  }

  function EmitGap(c: LiveConfig, s: LiveState, channel: Channel, reason: GapReason): LiveState {
    Emit(c, s.(gaps := s.gaps + 1), Gap(channel, reason))
  }

  function ChannelOf(r: Record): Channel { if r.OddsRecord? then Odds else Scores }

  /** Handle one record. A streamed record moves the last timestamp and announces a failed mapping; a
      backfilled one does neither. */
  function Offer(c: LiveConfig, s: LiveState, r: Record, streamed: bool): LiveState {
    if KeyOf(r) in s.seen then s
    else
      var marked := s.(seen := s.seen + {KeyOf(r)});
      match MapRecord(c.maps, r)
      case None =>
        if streamed then EmitGap(c, marked, ChannelOf(r), NotMapped) else marked.(gaps := marked.gaps + 1)
      case Some(p) =>
        var timed := if streamed then marked.(lastTsMs := Max(marked.lastTsMs, p.TsMs())) else marked;
        Emit(c, timed, Payload(Entry(KeyOf(r), p)))
  }

  function OfferAll(c: LiveConfig, s: LiveState, records: seq<Record>): LiveState {
    if |records| == 0 then s
    else Offer(c, OfferAll(c, s, records[..|records| - 1]), records[|records| - 1], false)
  }

  function Decode(d: Decoding, channel: Channel, data: string): Decoded<Record> {
    match channel
    case Odds =>
      (match d.odds(data)
       case MalformedJson => MalformedJson
       case Rejected => Rejected
       case Accepted(raw) => Accepted(OddsRecord(raw)))
    case Scores =>
      (match d.scores(data)
       case MalformedJson => MalformedJson
       case Rejected => Rejected
       case Accepted(raw) => Accepted(ScoreRecord(raw)))
  }

  function Resumed(s: LiveState, tagged: TaggedFrame): LiveState {
    if tagged.frame.id.None? then s
    else if tagged.channel.Odds? then s.(resumeOdds := tagged.frame.id) else s.(resumeScores := tagged.frame.id)
  }

  function HeartbeatTs(c: LiveConfig, data: Option<string>, seqNo: nat): int {
    if data.Some? && c.decoding.heartbeatTs(data.value).Some? then c.decoding.heartbeatTs(data.value).value
    else c.clock(seqNo)
  }

  predicate IsHeartbeat(frame: SseParse.Frame) { frame.event == Some("heartbeat") }

  function IngestData(c: LiveConfig, s: LiveState, channel: Channel, data: string): LiveState {
    match Decode(c.decoding, channel, data)
    case MalformedJson => EmitGap(c, s, channel, BadJson)
    case Rejected => EmitGap(c, s, channel, BadSchema)
    case Accepted(r) => Offer(c, s, r, true)
  }

  function Ingest(c: LiveConfig, s: LiveState, tagged: TaggedFrame): LiveState {
    var resumed := Resumed(s, tagged);
    var frame := tagged.frame;
    if IsHeartbeat(frame) then Emit(c, resumed, Heartbeat(HeartbeatTs(c, frame.data, s.seqNo)))
    else if frame.data.None? then resumed
    else IngestData(c, resumed, tagged.channel, frame.data.value)
  }

  function IngestAll(c: LiveConfig, s: LiveState, frames: seq<TaggedFrame>): LiveState {
    if |frames| == 0 then s
    else Ingest(c, IngestAll(c, s, frames[..|frames| - 1]), frames[|frames| - 1])
  }

  function BackfillChannel(c: LiveConfig, s: LiveState, channel: Channel, answer: Option<seq<Record>>): LiveState {
    match answer
    case None => EmitGap(c, s, channel, BackfillFailed)
    case Some(records) => OfferAll(c, s, records)
  }

  function BackfillInterval(c: LiveConfig, s: LiveState, a: IntervalAnswer): LiveState {
    BackfillChannel(c, BackfillChannel(c, s, Odds, OddsRecords(a.odds)), Scores, ScoreRecords(a.scores))
  }

  function BackfillAll(
    c: LiveConfig, s: LiveState, answers: IntervalCoord -> IntervalAnswer, intervals: seq<IntervalCoord>): LiveState
  {
    if |intervals| == 0 then s
    else BackfillInterval(c, BackfillAll(c, s, answers, intervals[..|intervals| - 1]), answers(intervals[|intervals| - 1]))
  }

  function Backfill(c: LiveConfig, s: LiveState, answers: IntervalCoord -> IntervalAnswer): LiveState {
    var intervals := c.backfillIntervals(s.lastTsMs);
    if |intervals| == 0 then s
    else BackfillAll(c, Emit(c, s, Status(Backfilling(|intervals|))), answers, intervals)
  }

  predicate MayReconnect(c: LiveConfig, s: LiveState) {
    c.maxReconnects.None? || s.reconnects < c.maxReconnects.value
  }

  /** After a connection is gone: announce it, fill the gap, and sleep. A connection that delivered a frame
      resets the backoff. */
  function Announced(c: LiveConfig, s: LiveState, session: Session): LiveState {
    var reset := if |session.frames| > 0 then s.(attempt := 0) else s;
    Emit(c, reset.(reconnects := reset.reconnects + 1), Status(Reconnecting(session.failed)))
  }

  function Reconnect(c: LiveConfig, s: LiveState, session: Session): LiveState {
    var filled := Backfill(c, Announced(c, s, session), session.answers);
    filled.(sleeps := filled.sleeps + [filled.attempt], attempt := filled.attempt + 1)
  }

  function RunSession(c: LiveConfig, s: LiveState, session: Session): LiveState {
    if s.ended then s
    else
      var ingested := IngestAll(c, s, session.frames);
      if MayReconnect(c, ingested) then Reconnect(c, ingested, session)
      else Emit(c, ingested, Status(Stopped)).(ended := true)
  }

  function Run(c: LiveConfig, sessions: seq<Session>): LiveState {
    if |sessions| == 0 then Start(c)
    else RunSession(c, Run(c, sessions[..|sessions| - 1]), sessions[|sessions| - 1])
  }

  // ---------------------------------------------------------------------------------------------
  // What was delivered

  /** The record a frame carries, if it gets as far as the idempotency check. */
  function FrameRecord(d: Decoding, tagged: TaggedFrame): seq<Record> {
    if IsHeartbeat(tagged.frame) || tagged.frame.data.None? then []
    else match Decode(d, tagged.channel, tagged.frame.data.value)
         case Accepted(r) => [r]
         case _ => []
  }

  function FrameRecords(d: Decoding, frames: seq<TaggedFrame>): seq<Record> {
    if |frames| == 0 then []
    else FrameRecords(d, frames[..|frames| - 1]) + FrameRecord(d, frames[|frames| - 1])
  }

  /** Every record a run receives, streamed or backfilled, in order. */
  function LiveRecords(c: LiveConfig, sessions: seq<Session>): seq<Record> {
    if |sessions| == 0 then []
    else
      var front, last := sessions[..|sessions| - 1], sessions[|sessions| - 1];
      LiveRecords(c, front) + SessionRecords(c, Run(c, front), last)
  }

  function SessionRecords(c: LiveConfig, s: LiveState, session: Session): seq<Record> {
    if s.ended then []
    else
      var ingested := IngestAll(c, s, session.frames);
      FrameRecords(c.decoding, session.frames)
      + if MayReconnect(c, ingested) then WindowRecords(session.answers, c.backfillIntervals(ingested.lastTsMs)) else []
  }

  /** The payloads of a log, in order. */
  function Payloads(log: seq<Emitted>): seq<Entry> {
    if |log| == 0 then []
    else
      var earlier, last := Payloads(log[..|log| - 1]), log[|log| - 1].content;
      if last.Payload? then earlier + [last.entry] else earlier
  }

  // ---------------------------------------------------------------------------------------------
  // The log is the deduplication of what was delivered

  ghost predicate LogTracks(maps: Maps, seen: set<Key>, log: seq<Emitted>, delivered: seq<Record>) {
    seen == KeysOf(delivered) && Payloads(log) == Entries(maps, delivered)
  }

  ghost predicate Tracks(maps: Maps, s: LiveState, delivered: seq<Record>) {
    LogTracks(maps, s.seen, s.log, delivered)
  }

  lemma Regroup(a: seq<Record>, b: seq<Record>, c: seq<Record>)
    ensures (a + b) + c == a + (b + c)
  {
  }

  lemma EmitExtends(c: LiveConfig, s: LiveState, content: Content)
    ensures Payloads(Emit(c, s, content).log) == Payloads(s.log) + if content.Payload? then [content.entry] else []
  {
    var log := Emit(c, s, content).log;
    assert log[..|log| - 1] == s.log;
  }

  lemma EmitTracks(c: LiveConfig, s: LiveState, content: Content, delivered: seq<Record>)
    requires Tracks(c.maps, s, delivered) && !content.Payload?
    ensures Tracks(c.maps, Emit(c, s, content), delivered)
  {
    EmitExtends(c, s, content);
  }

  lemma OfferTracks(c: LiveConfig, s: LiveState, r: Record, streamed: bool, delivered: seq<Record>)
    requires Tracks(c.maps, s, delivered)
    ensures Tracks(c.maps, Offer(c, s, r, streamed), delivered + [r])
  {
    KeysOfSnoc(delivered, r);
    assert (delivered + [r])[..|delivered|] == delivered;
    if KeyOf(r) !in s.seen {
      var marked := s.(seen := s.seen + {KeyOf(r)});
      match MapRecord(c.maps, r)
      case None => EmitExtends(c, marked.(gaps := marked.gaps + 1), Gap(ChannelOf(r), NotMapped));
      case Some(p) =>
        EmitExtends(c, marked, Payload(Entry(KeyOf(r), p)));
        EmitExtends(c, marked.(lastTsMs := Max(marked.lastTsMs, p.TsMs())), Payload(Entry(KeyOf(r), p)));
    }
  }

  lemma {:induction false} OfferAllTracks(c: LiveConfig, s: LiveState, records: seq<Record>, delivered: seq<Record>)
    requires Tracks(c.maps, s, delivered)
    ensures Tracks(c.maps, OfferAll(c, s, records), delivered + records)
  {
    if |records| == 0 {
      assert delivered + records == delivered;
    } else {
      var front, last := records[..|records| - 1], records[|records| - 1];
      OfferAllTracks(c, s, front, delivered);
      OfferTracks(c, OfferAll(c, s, front), last, false, delivered + front);
      Regroup(delivered, front, [last]);
      assert records == front + [last];
    }
  }

  lemma IngestTracks(c: LiveConfig, s: LiveState, tagged: TaggedFrame, delivered: seq<Record>)
    requires Tracks(c.maps, s, delivered)
    ensures Tracks(c.maps, Ingest(c, s, tagged), delivered + FrameRecord(c.decoding, tagged))
  {
    var resumed, frame := Resumed(s, tagged), tagged.frame;
    assert delivered + [] == delivered;
    if IsHeartbeat(frame) {
      EmitTracks(c, resumed, Heartbeat(HeartbeatTs(c, frame.data, s.seqNo)), delivered);
    } else if frame.data.Some? {
      match Decode(c.decoding, tagged.channel, frame.data.value)
      case Accepted(r) => OfferTracks(c, resumed, r, true, delivered);
      case MalformedJson => EmitTracks(c, resumed.(gaps := resumed.gaps + 1), Gap(tagged.channel, BadJson), delivered);
      case Rejected => EmitTracks(c, resumed.(gaps := resumed.gaps + 1), Gap(tagged.channel, BadSchema), delivered);
    }
  }

  lemma {:induction false} IngestAllTracks(c: LiveConfig, s: LiveState, frames: seq<TaggedFrame>, delivered: seq<Record>)
    requires Tracks(c.maps, s, delivered)
    ensures Tracks(c.maps, IngestAll(c, s, frames), delivered + FrameRecords(c.decoding, frames))
  {
    if |frames| == 0 {
      assert delivered + [] == delivered;
    } else {
      var front, last := frames[..|frames| - 1], frames[|frames| - 1];
      IngestAllTracks(c, s, front, delivered);
      var sofar := delivered + FrameRecords(c.decoding, front);
      IngestTracks(c, IngestAll(c, s, front), last, sofar);
      Regroup(delivered, FrameRecords(c.decoding, front), FrameRecord(c.decoding, last));
    }
  }

  lemma BackfillChannelTracks(
    c: LiveConfig, s: LiveState, channel: Channel, answer: Option<seq<Record>>, delivered: seq<Record>)
    requires Tracks(c.maps, s, delivered)
    ensures Tracks(c.maps, BackfillChannel(c, s, channel, answer), delivered + Answered(answer))
  {
    if answer.None? {
      assert delivered + Answered(answer) == delivered;
      EmitTracks(c, s.(gaps := s.gaps + 1), Gap(channel, BackfillFailed), delivered);
    } else {
      OfferAllTracks(c, s, answer.value, delivered);
    }
  }

  lemma BackfillIntervalTracks(c: LiveConfig, s: LiveState, a: IntervalAnswer, delivered: seq<Record>)
    requires Tracks(c.maps, s, delivered)
    ensures Tracks(c.maps, BackfillInterval(c, s, a), delivered + AnswerRecords(a))
  {
    var odds, scores := OddsRecords(a.odds), ScoreRecords(a.scores);
    BackfillChannelTracks(c, s, Odds, odds, delivered);
    BackfillChannelTracks(c, BackfillChannel(c, s, Odds, odds), Scores, scores, delivered + Answered(odds));
    Regroup(delivered, Answered(odds), Answered(scores));
  }

  lemma {:induction false} BackfillAllTracks(
    c: LiveConfig, s: LiveState, answers: IntervalCoord -> IntervalAnswer, intervals: seq<IntervalCoord>,
    delivered: seq<Record>)
    requires Tracks(c.maps, s, delivered)
    ensures Tracks(c.maps, BackfillAll(c, s, answers, intervals), delivered + WindowRecords(answers, intervals))
  {
    if |intervals| == 0 {
      assert delivered + [] == delivered;
    } else {
      var front, last := intervals[..|intervals| - 1], intervals[|intervals| - 1];
      BackfillAllTracks(c, s, answers, front, delivered);
      var sofar := delivered + WindowRecords(answers, front);
      BackfillIntervalTracks(c, BackfillAll(c, s, answers, front), answers(last), sofar);
      Regroup(delivered, WindowRecords(answers, front), AnswerRecords(answers(last)));
    }
  }

  lemma ReconnectTracks(c: LiveConfig, s: LiveState, session: Session, delivered: seq<Record>)
    requires Tracks(c.maps, s, delivered)
    ensures Tracks(c.maps, Reconnect(c, s, session),
                   delivered + WindowRecords(session.answers, c.backfillIntervals(s.lastTsMs)))
  {
    AnnouncedTracks(c, s, session, delivered);
    BackfillTracks(c, Announced(c, s, session), session.answers, delivered);
  }

  lemma AnnouncedTracks(c: LiveConfig, s: LiveState, session: Session, delivered: seq<Record>)
    requires Tracks(c.maps, s, delivered)
    ensures Tracks(c.maps, Announced(c, s, session), delivered) && Announced(c, s, session).lastTsMs == s.lastTsMs
  {
    var reset := if |session.frames| > 0 then s.(attempt := 0) else s;
    EmitTracks(c, reset.(reconnects := reset.reconnects + 1), Status(Reconnecting(session.failed)), delivered);
  }

  lemma BackfillTracks(c: LiveConfig, s: LiveState, answers: IntervalCoord -> IntervalAnswer, delivered: seq<Record>)
    requires Tracks(c.maps, s, delivered)
    ensures Tracks(c.maps, Backfill(c, s, answers), delivered + WindowRecords(answers, c.backfillIntervals(s.lastTsMs)))
  {
    var intervals := c.backfillIntervals(s.lastTsMs);
    if |intervals| == 0 {
      assert delivered + [] == delivered;
    } else {
      EmitTracks(c, s, Status(Backfilling(|intervals|)), delivered);
      BackfillAllTracks(c, Emit(c, s, Status(Backfilling(|intervals|))), answers, intervals, delivered);
    }
  }

  lemma SessionTracks(c: LiveConfig, s: LiveState, session: Session, delivered: seq<Record>)
    requires Tracks(c.maps, s, delivered)
    ensures Tracks(c.maps, RunSession(c, s, session), delivered + SessionRecords(c, s, session))
  {
    if s.ended {
      assert delivered + [] == delivered;
    } else {
      var streamed := delivered + FrameRecords(c.decoding, session.frames);
      IngestAllTracks(c, s, session.frames, delivered);
      var ingested := IngestAll(c, s, session.frames);
      if MayReconnect(c, ingested) {
        ReconnectTracks(c, ingested, session, streamed);
        Regroup(delivered, FrameRecords(c.decoding, session.frames),
                WindowRecords(session.answers, c.backfillIntervals(ingested.lastTsMs)));
      } else {
        EmitTracks(c, ingested, Status(Stopped), streamed);
        Regroup(delivered, FrameRecords(c.decoding, session.frames), []);
        assert streamed + [] == streamed;
      }
    }
  }

  /** Whatever is streamed, repeated, dropped and backfilled, the payloads a run emits are the deduplicated,
      mapped records it received, in order of first receipt. */
  lemma {:induction false} LogIsDeduplication(c: LiveConfig, sessions: seq<Session>)
    ensures Tracks(c.maps, Run(c, sessions), LiveRecords(c, sessions))
  {
    if |sessions| == 0 {
      var blank := LiveState({}, [], 0, None, None, 0, 0, 0, 0, [], false);
      EmitTracks(c, blank, Status(Connected), []);
    } else {
      var front, last := sessions[..|sessions| - 1], sessions[|sessions| - 1];
      LogIsDeduplication(c, front);
      SessionTracks(c, Run(c, front), last, LiveRecords(c, front));
    }
  }

  // ---------------------------------------------------------------------------------------------
  // Main results

  /** Live and replay emit the same payloads, each once, whenever they deliver the same keys and equal keys
      carry equal payloads; and they emit them in the same order exactly when the live stream is already in
      replay order. */
  lemma LiveMatchesReplay(
    c: LiveConfig, sessions: seq<Session>, source: IntervalCoord -> IntervalAnswer, intervals: seq<IntervalCoord>)
    requires KeysOf(LiveRecords(c, sessions)) == KeysOf(WindowRecords(source, intervals))
    requires Consistent(c.maps, LiveRecords(c, sessions) + WindowRecords(source, intervals))
    ensures var live := Payloads(Run(c, sessions).log);
            var fetched := Entries(c.maps, WindowRecords(source, intervals));
            && DistinctEntryKeys(live)
            && multiset(live) == multiset(ReplayOrder(fetched))
            && (live == ReplayOrder(fetched) <==> InReplayOrder(fetched, live))
  {
    var delivered, recorded := LiveRecords(c, sessions), WindowRecords(source, intervals);
    LogIsDeduplication(c, sessions);
    EntriesAreDistinct(c.maps, delivered);
    EntriesAreDistinct(c.maps, recorded);
    SameKeysSameEntries(c.maps, delivered, recorded);
    ReplayEmitsEntries(Entries(c.maps, recorded));
    ReplayIsTheOrderedStream(Entries(c.maps, recorded), Entries(c.maps, delivered));
  }

  /** Events are numbered 0, 1, 2, ... and each is stamped with its own clock reading. */
  ghost predicate Numbered(clock: nat -> int, log: seq<Emitted>, seqNo: nat) {
    && seqNo == |log|
    && forall i :: 0 <= i < |log| ==> log[i].seqNo == i && log[i].receivedAtMs == clock(i)
  }

  function GapEvents(log: seq<Emitted>): nat {
    if |log| == 0 then 0 else GapEvents(log[..|log| - 1]) + if log[|log| - 1].content.Gap? then 1 else 0
  }

  /** The reported gap count covers every gap event; what it has beyond them are backfilled records that
      could not be mapped. */
  ghost predicate Accounts(c: LiveConfig, s: LiveState) {
    Numbered(c.clock, s.log, s.seqNo) && GapEvents(s.log) <= s.gaps
  }

  lemma EmitAccounts(c: LiveConfig, s: LiveState, content: Content)
    requires Numbered(c.clock, s.log, s.seqNo) && GapEvents(s.log) + (if content.Gap? then 1 else 0) <= s.gaps
    ensures Accounts(c, Emit(c, s, content))
    ensures GapEvents(Emit(c, s, content).log) == GapEvents(s.log) + if content.Gap? then 1 else 0
  {
    var log := Emit(c, s, content).log;
    assert log[..|log| - 1] == s.log;
  }

  /** A gap is counted without an event exactly when a new backfilled record does not map. */
  lemma OfferAccounts(c: LiveConfig, s: LiveState, r: Record, streamed: bool)
    requires Accounts(c, s)
    ensures var n := Offer(c, s, r, streamed);
            && Accounts(c, n)
            && n.gaps - GapEvents(n.log)
               == s.gaps - GapEvents(s.log)
                  + if !streamed && KeyOf(r) !in s.seen && MapRecord(c.maps, r).None? then 1 else 0
  {
    if KeyOf(r) !in s.seen {
      var marked := s.(seen := s.seen + {KeyOf(r)});
      match MapRecord(c.maps, r)
      case None => EmitAccounts(c, marked.(gaps := marked.gaps + 1), Gap(ChannelOf(r), NotMapped));
      case Some(p) =>
        EmitAccounts(c, marked, Payload(Entry(KeyOf(r), p)));
        EmitAccounts(c, marked.(lastTsMs := Max(marked.lastTsMs, p.TsMs())), Payload(Entry(KeyOf(r), p)));
    }
  }

  lemma {:induction false} OfferAllAccounts(c: LiveConfig, s: LiveState, records: seq<Record>)
    requires Accounts(c, s)
    ensures Accounts(c, OfferAll(c, s, records))
  {
    if |records| > 0 {
      OfferAllAccounts(c, s, records[..|records| - 1]);
      OfferAccounts(c, OfferAll(c, s, records[..|records| - 1]), records[|records| - 1], false);
    }
  }

  lemma IngestAccounts(c: LiveConfig, s: LiveState, tagged: TaggedFrame)
    requires Accounts(c, s)
    ensures Accounts(c, Ingest(c, s, tagged))
  {
    var resumed, frame := Resumed(s, tagged), tagged.frame;
    if IsHeartbeat(frame) {
      EmitAccounts(c, resumed, Heartbeat(HeartbeatTs(c, frame.data, s.seqNo)));
    } else if frame.data.Some? {
      match Decode(c.decoding, tagged.channel, frame.data.value)
      case Accepted(r) => OfferAccounts(c, resumed, r, true);
      case MalformedJson => EmitAccounts(c, resumed.(gaps := resumed.gaps + 1), Gap(tagged.channel, BadJson));
      case Rejected => EmitAccounts(c, resumed.(gaps := resumed.gaps + 1), Gap(tagged.channel, BadSchema));
    }
  }

  lemma {:induction false} IngestAllAccounts(c: LiveConfig, s: LiveState, frames: seq<TaggedFrame>)
    requires Accounts(c, s)
    ensures Accounts(c, IngestAll(c, s, frames))
  {
    if |frames| > 0 {
      IngestAllAccounts(c, s, frames[..|frames| - 1]);
      IngestAccounts(c, IngestAll(c, s, frames[..|frames| - 1]), frames[|frames| - 1]);
    }
  }

  lemma BackfillChannelAccounts(c: LiveConfig, s: LiveState, channel: Channel, answer: Option<seq<Record>>)
    requires Accounts(c, s)
    ensures Accounts(c, BackfillChannel(c, s, channel, answer))
  {
    match answer
    case None => EmitAccounts(c, s.(gaps := s.gaps + 1), Gap(channel, BackfillFailed));
    case Some(records) => OfferAllAccounts(c, s, records);
  }

  lemma {:induction false} BackfillAllAccounts(
    c: LiveConfig, s: LiveState, answers: IntervalCoord -> IntervalAnswer, intervals: seq<IntervalCoord>)
    requires Accounts(c, s)
    ensures Accounts(c, BackfillAll(c, s, answers, intervals))
  {
    if |intervals| > 0 {
      var front, a := intervals[..|intervals| - 1], answers(intervals[|intervals| - 1]);
      BackfillAllAccounts(c, s, answers, front);
      var before := BackfillAll(c, s, answers, front);
      BackfillChannelAccounts(c, before, Odds, OddsRecords(a.odds));
      BackfillChannelAccounts(c, BackfillChannel(c, before, Odds, OddsRecords(a.odds)), Scores, ScoreRecords(a.scores));
    }
  }

  lemma BackfillAccounts(c: LiveConfig, s: LiveState, answers: IntervalCoord -> IntervalAnswer)
    requires Accounts(c, s)
    ensures Accounts(c, Backfill(c, s, answers))
  {
    var intervals := c.backfillIntervals(s.lastTsMs);
    if |intervals| > 0 {
      var announced := Emit(c, s, Status(Backfilling(|intervals|)));
      EmitAccounts(c, s, Status(Backfilling(|intervals|)));
      BackfillAllAccounts(c, announced, answers, intervals);
    }
  }

  lemma ReconnectAccounts(c: LiveConfig, s: LiveState, session: Session)
    requires Accounts(c, s)
    ensures Accounts(c, Reconnect(c, s, session))
  {
    var reset := if |session.frames| > 0 then s.(attempt := 0) else s;
    EmitAccounts(c, reset.(reconnects := reset.reconnects + 1), Status(Reconnecting(session.failed)));
    BackfillAccounts(c, Announced(c, s, session), session.answers);
  }

  /** In every run, live sequence numbers are 0, 1, 2, ... and no gap event goes uncounted. */
  lemma {:induction false} EveryRunAccounts(c: LiveConfig, sessions: seq<Session>)
    ensures Accounts(c, Run(c, sessions))
  {
    hide IngestAll, Reconnect;
    var blank := LiveState({}, [], 0, None, None, 0, 0, 0, 0, [], false);
    EmitAccounts(c, blank, Status(Connected));
    if |sessions| > 0 {
      var front, last := sessions[..|sessions| - 1], sessions[|sessions| - 1];
      EveryRunAccounts(c, front);
      var s := Run(c, front);
      IngestAllAccounts(c, s, last.frames);
      var ingested := IngestAll(c, s, last.frames);
      ReconnectAccounts(c, ingested, last);
      EmitAccounts(c, ingested, Status(Stopped));
    }
  }

  // ---------------------------------------------------------------------------------------------
  // Resuming and backing off

  /** The connection bookkeeping, which records and events do not touch. */
  predicate SameConnection(s: LiveState, n: LiveState) {
    && n.resumeOdds == s.resumeOdds && n.resumeScores == s.resumeScores && n.reconnects == s.reconnects
    && n.attempt == s.attempt && n.sleeps == s.sleeps && n.ended == s.ended
  }

  lemma {:induction false} OffersKeepConnection(c: LiveConfig, s: LiveState, records: seq<Record>)
    ensures SameConnection(s, OfferAll(c, s, records))
  {
    if |records| > 0 {
      OffersKeepConnection(c, s, records[..|records| - 1]);
    }
  }

  lemma {:induction false} BackfillsKeepConnection(
    c: LiveConfig, s: LiveState, answers: IntervalCoord -> IntervalAnswer, intervals: seq<IntervalCoord>)
    ensures SameConnection(s, BackfillAll(c, s, answers, intervals))
  {
    if |intervals| > 0 {
      var front, a := intervals[..|intervals| - 1], answers(intervals[|intervals| - 1]);
      BackfillsKeepConnection(c, s, answers, front);
      var before := BackfillAll(c, s, answers, front);
      BackfillKeepsConnection(c, before, Odds, OddsRecords(a.odds));
      BackfillKeepsConnection(c, BackfillChannel(c, before, Odds, OddsRecords(a.odds)), Scores, ScoreRecords(a.scores));
    }
  }

  lemma BackfillKeepsConnection(c: LiveConfig, s: LiveState, channel: Channel, answer: Option<seq<Record>>)
    ensures SameConnection(s, BackfillChannel(c, s, channel, answer))
  {
    if answer.Some? {
      OffersKeepConnection(c, s, answer.value);
    }
  }

  /** The last event id a channel carried, or an earlier one if it carried none. */
  function LastId(frames: seq<TaggedFrame>, channel: Channel, earlier: Option<string>): Option<string> {
    if |frames| == 0 then earlier
    else
      var last := frames[|frames| - 1];
      if last.channel == channel && last.frame.id.Some? then last.frame.id
      else LastId(frames[..|frames| - 1], channel, earlier)
  }

  lemma {:induction false} IngestingResumes(c: LiveConfig, s: LiveState, frames: seq<TaggedFrame>)
    ensures var n := IngestAll(c, s, frames);
            && n.resumeOdds == LastId(frames, Odds, s.resumeOdds)
            && n.resumeScores == LastId(frames, Scores, s.resumeScores)
            && SameConnection(s, n.(resumeOdds := s.resumeOdds, resumeScores := s.resumeScores))
  {
    if |frames| > 0 {
      IngestingResumes(c, s, frames[..|frames| - 1]);
      IngestResumes(c, IngestAll(c, s, frames[..|frames| - 1]), frames[|frames| - 1]);
    }
  }

  lemma IngestResumes(c: LiveConfig, s: LiveState, tagged: TaggedFrame)
    ensures SameConnection(Resumed(s, tagged), Ingest(c, s, tagged))
  {
  }

  /** A reconnect's effect on the bookkeeping: a productive connection resets the backoff, and the sleep is
      computed from the attempt number that then grows by one. */
  lemma ReconnectBacksOff(c: LiveConfig, s: LiveState, session: Session)
    ensures var n := Reconnect(c, s, session);
            var attempt := if |session.frames| > 0 then 0 else s.attempt;
            && n.resumeOdds == s.resumeOdds && n.resumeScores == s.resumeScores && n.ended == s.ended
            && n.reconnects == s.reconnects + 1 && n.sleeps == s.sleeps + [attempt] && n.attempt == attempt + 1
  {
    var announced := Announced(c, s, session);
    var intervals := c.backfillIntervals(announced.lastTsMs);
    if |intervals| > 0 {
      BackfillsKeepConnection(c, Emit(c, announced, Status(Backfilling(|intervals|))), session.answers, intervals);
    }
  }

  /** Every frame a run consumed. */
  function AllFrames(c: LiveConfig, sessions: seq<Session>): seq<TaggedFrame> {
    if |sessions| == 0 then []
    else
      var front, last := sessions[..|sessions| - 1], sessions[|sessions| - 1];
      AllFrames(c, front) + if Run(c, front).ended then [] else last.frames
  }

  lemma {:induction false} LastIdAppends(a: seq<TaggedFrame>, b: seq<TaggedFrame>, channel: Channel, earlier: Option<string>)
    ensures LastId(a + b, channel, earlier) == LastId(b, channel, LastId(a, channel, earlier))
  {
    if |b| == 0 {
      assert a + b == a;
    } else {
      LastIdAppends(a, b[..|b| - 1], channel, earlier);
      assert (a + b)[..|a + b| - 1] == a + b[..|b| - 1] && (a + b)[|a + b| - 1] == b[|b| - 1];
    }
  }

  /** How many connections in a row, the k-th the last of them, delivered nothing after one that did; a run
      that starts with such connections starts counting at its second. */
  function FruitlessBefore(sessions: seq<Session>, k: nat): nat
    requires k < |sessions|
  {
    if |sessions[k].frames| > 0 || k == 0 then 0 else FruitlessBefore(sessions, k - 1) + 1
  }

  lemma {:induction false} FruitlessAgrees(a: seq<Session>, b: seq<Session>, k: nat)
    requires k < |a| && k < |b| && forall i :: 0 <= i <= k ==> a[i] == b[i]
    ensures FruitlessBefore(a, k) == FruitlessBefore(b, k)
  {
    if k > 0 {
      FruitlessAgrees(a, b, k - 1);
    }
  }

  /** After a run that is still going: one sleep per connection, each computed from the count of fruitless
      connections before it. */
  ghost predicate BacksOff(sessions: seq<Session>, s: LiveState) {
    && |s.sleeps| == |sessions| == s.reconnects
    && (forall k :: 0 <= k < |sessions| ==> s.sleeps[k] == FruitlessBefore(sessions, k))
    && s.attempt == if |sessions| == 0 then 0 else s.sleeps[|sessions| - 1] + 1
  }

  lemma {:induction false} BackoffCountsFruitless(c: LiveConfig, sessions: seq<Session>)
    requires !Run(c, sessions).ended
    ensures BacksOff(sessions, Run(c, sessions))
  {
    hide IngestAll;
    if |sessions| > 0 {
      var n := |sessions| - 1;
      var front, last := sessions[..n], sessions[n];
      BackoffCountsFruitless(c, front);
      IngestingResumes(c, Run(c, front), last.frames);
      ReconnectBacksOff(c, IngestAll(c, Run(c, front), last.frames), last);
      BackoffGrows(sessions, Run(c, front), Run(c, sessions));
    }
  }

  lemma BackoffGrows(sessions: seq<Session>, s: LiveState, n: LiveState)
    requires |sessions| > 0 && BacksOff(sessions[..|sessions| - 1], s)
    requires var attempt := if |sessions[|sessions| - 1].frames| > 0 then 0 else s.attempt;
             n.reconnects == s.reconnects + 1 && n.sleeps == s.sleeps + [attempt] && n.attempt == attempt + 1
    ensures BacksOff(sessions, n)
  {
    var front := sessions[..|sessions| - 1];
    forall k | 0 <= k < |front|
      ensures FruitlessBefore(front, k) == FruitlessBefore(sessions, k)
    {
      FruitlessAgrees(front, sessions, k);
    }
  }

  /** Each channel resumes from its own last event id, however the two are interleaved and however often the
      connection dropped, and reconnects never exceed their limit. */
  lemma {:induction false} EveryRunResumesPerChannel(c: LiveConfig, sessions: seq<Session>)
    ensures var s := Run(c, sessions); var frames := AllFrames(c, sessions);
            && s.resumeOdds == LastId(frames, Odds, None) && s.resumeScores == LastId(frames, Scores, None)
            && (c.maxReconnects.Some? ==> s.reconnects <= c.maxReconnects.value)
  {
    if |sessions| > 0 {
      var front, last := sessions[..|sessions| - 1], sessions[|sessions| - 1];
      var s, frames := Run(c, front), AllFrames(c, front);
      EveryRunResumesPerChannel(c, front);
      IngestingResumes(c, s, last.frames);
      ReconnectBacksOff(c, IngestAll(c, s, last.frames), last);
      LastIdAppends(frames, last.frames, Odds, None);
      LastIdAppends(frames, last.frames, Scores, None);
      assert frames + [] == frames;
    }
  }

  // ---------------------------------------------------------------------------------------------
  // The feed

  class LiveSseFeed {
    const config: LiveConfig
    const tracker: IdempotencyTracker
    var log: seq<Emitted>
    var seqNo: nat
    var resumeOdds: Option<string>
    var resumeScores: Option<string>
    var lastTsMs: int
    var reconnects: nat
    var gaps: nat
    var attempt: nat
    var sleeps: seq<nat>
    var ended: bool

    ghost function Now(): LiveState
      reads this, tracker
    {
      LiveState(tracker.Seen(), log, seqNo, resumeOdds, resumeScores, lastTsMs, reconnects, gaps, attempt, sleeps, ended)
    }

    constructor (config: LiveConfig)
      ensures this.config == config && fresh(tracker) && Now() == Start(config)
    {
      this.config := config;
      tracker := new IdempotencyTracker();
      log, seqNo := [Emitted(0, config.clock(0), Status(Connected))], 1;
      resumeOdds, resumeScores, lastTsMs, reconnects, gaps, attempt, sleeps, ended := None, None, 0, 0, 0, 0, [], false;
    }

    method EmitEvent(content: Content)
      modifies this`log, this`seqNo
      ensures Now() == Emit(config, old(Now()), content)
    {
      log := log + [Emitted(seqNo, config.clock(seqNo), content)];
      seqNo := seqNo + 1;
    }

    method EmitGapEvent(channel: Channel, reason: GapReason)
      modifies this`gaps, this`log, this`seqNo
      ensures Now() == EmitGap(config, old(Now()), channel, reason)
    {
      gaps := gaps + 1;
      EmitEvent(Gap(channel, reason));
    }

    method OfferRecord(r: Record, streamed: bool)
      modifies this, tracker
      ensures Now() == Offer(config, old(Now()), r, streamed)
    {
      var first := tracker.Accept(r);
      if !first { return; }
      match MapRecord(config.maps, r)
      case None =>
        if streamed {
          EmitGapEvent(ChannelOf(r), NotMapped);
        } else {
          gaps := gaps + 1;
        }
      case Some(p) =>
        if streamed {
          lastTsMs := Max(lastTsMs, p.TsMs());
        }
        EmitEvent(Payload(Entry(KeyOf(r), p)));
    }

    method IngestFrame(tagged: TaggedFrame)
      modifies this, tracker
      ensures Now() == Ingest(config, old(Now()), tagged)
    {
      var frame := tagged.frame;
      if frame.id.Some? {
        if tagged.channel.Odds? { resumeOdds := frame.id; } else { resumeScores := frame.id; }
      }
      if IsHeartbeat(frame) {
        EmitEvent(Heartbeat(HeartbeatTs(config, frame.data, seqNo)));
        return;
      }
      if frame.data.None? { return; }
      match Decode(config.decoding, tagged.channel, frame.data.value)
      case MalformedJson => EmitGapEvent(tagged.channel, BadJson);
      case Rejected => EmitGapEvent(tagged.channel, BadSchema);
      case Accepted(r) => OfferRecord(r, true);
    }

    method FillChannel(channel: Channel, answer: Option<seq<Record>>)
      modifies this, tracker
      ensures Now() == BackfillChannel(config, old(Now()), channel, answer)
    {
      if answer.None? {
        EmitGapEvent(channel, BackfillFailed);
        return;
      }
      var records := answer.value;
      for i := 0 to |records|
        invariant Now() == OfferAll(config, old(Now()), records[..i])
      {
        assert records[..i + 1][..i] == records[..i];
        OfferRecord(records[i], false);
      }
      assert records[..|records|] == records;
    }

    method FillGap(answers: IntervalCoord -> IntervalAnswer)
      modifies this, tracker
      ensures Now() == Backfill(config, old(Now()), answers)
    {
      var intervals := config.backfillIntervals(lastTsMs);
      if |intervals| == 0 { return; }
      EmitEvent(Status(Backfilling(|intervals|)));
      ghost var announced := Now();
      for i := 0 to |intervals|
        invariant Now() == BackfillAll(config, announced, answers, intervals[..i])
      {
        assert intervals[..i + 1][..i] == intervals[..i];
        FillChannel(Odds, OddsRecords(answers(intervals[i]).odds));
        FillChannel(Scores, ScoreRecords(answers(intervals[i]).scores));
      }
      assert intervals[..|intervals|] == intervals;
    }

    /** Consume one connection and, unless that was the last, announce the reconnect, backfill and sleep. */
    method Connection(session: Session)
      requires !ended
      modifies this, tracker
      ensures Now() == RunSession(config, old(Now()), session)
    {
      var frames := session.frames;
      for i := 0 to |frames|
        invariant Now() == IngestAll(config, old(Now()), frames[..i])
      {
        assert frames[..i + 1][..i] == frames[..i];
        IngestFrame(frames[i]);
      }
      assert frames[..|frames|] == frames;
      ghost var ingested := Now();
      if config.maxReconnects.Some? && reconnects >= config.maxReconnects.value {
        EmitEvent(Status(Stopped));
        ended := true;
        return;
      }
      AfterDrop(session);
    }

    method Announce(session: Session)
      modifies this
      ensures Now() == Announced(config, old(Now()), session)
    {
      if |session.frames| > 0 {
        attempt := 0;
      }
      reconnects := reconnects + 1;
      EmitEvent(Status(Reconnecting(session.failed)));
    }

    method AfterDrop(session: Session)
      modifies this, tracker
      ensures Now() == Reconnect(config, old(Now()), session)
    {
      Announce(session);
      FillGap(session.answers);
      sleeps := sleeps + [attempt];
      attempt := attempt + 1;
    }
  }

  /** Run the feed over the connections it gets. */
  method Events(config: LiveConfig, sessions: seq<Session>)
    returns (log: seq<Emitted>, gapsDetected: nat, reconnects: nat)
    ensures log == Run(config, sessions).log && gapsDetected == Run(config, sessions).gaps
    ensures reconnects == Run(config, sessions).reconnects
  {
    var feed := new LiveSseFeed(config);
    var i := 0;
    while i < |sessions| && !feed.ended
      invariant i <= |sessions| && feed.config == config && fresh(feed) && fresh(feed.tracker)
      invariant feed.Now() == Run(config, sessions[..i])
    {
      assert sessions[..i + 1][..i] == sessions[..i];
      feed.Connection(sessions[i]);
      i := i + 1;
    }
    EndedStaysEnded(config, sessions, i);
    return feed.log, feed.gaps, feed.reconnects;
  }

  lemma {:induction false} EndedStaysEnded(c: LiveConfig, sessions: seq<Session>, i: nat)
    requires i <= |sessions| && (i == |sessions| || Run(c, sessions[..i]).ended)
    ensures Run(c, sessions) == Run(c, sessions[..i])
  {
    if i == |sessions| {
      assert sessions[..i] == sessions;
    } else {
      var front := sessions[..|sessions| - 1];
      assert front[..i] == sessions[..i];
      EndedStaysEnded(c, front, i);
    }
  }
}
