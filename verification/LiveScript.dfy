/** The live feed told from its sessions alone: what reaches it, in order, and what it makes of each reception,
    including the backfill it asks for after every drop. */
module LiveScript {
  import opened Prelude
  import opened Feed
  import opened SseMerge
  import opened LiveFeed

  /** One thing that happens to the feed. */
  datatype Reception =
    | Opened
    | Streamed(tagged: TaggedFrame)
    | Dropped(failed: bool)
    | Asked(intervals: nat)
    | Refused(channel: Channel)
    | Fetched(record: Record)
    | Halted

  /** What a frame's data parses to on its own channel. */
  function Parsed(d: Decoding, tagged: TaggedFrame): Decoded<Record>
    requires tagged.frame.data.Some?
  {
    if tagged.channel.Odds? then
      match d.odds(tagged.frame.data.value)
      case MalformedJson => MalformedJson
      case Rejected => Rejected
      case Accepted(raw) => Accepted(OddsRecord(raw))
    else
      match d.scores(tagged.frame.data.value)
      case MalformedJson => MalformedJson
      case Rejected => Rejected
      case Accepted(raw) => Accepted(ScoreRecord(raw))
  }

  /** Whether a frame is looked into: heartbeats and frames without data are not. */
  predicate HasPayload(tagged: TaggedFrame) {
    tagged.frame.event != Some("heartbeat") && tagged.frame.data.Some?
  }

  /** The record a reception brings, if any. */
  function Brings(d: Decoding, r: Reception): seq<Record> {
    match r
    case Streamed(tagged) =>
      if HasPayload(tagged) && Parsed(d, tagged).Accepted? then [Parsed(d, tagged).record] else []
    case Fetched(record) => [record]
    case _ => []
  }

  function Brought(d: Decoding, script: seq<Reception>): seq<Record> {
    if |script| == 0 then [] else Brought(d, script[..|script| - 1]) + Brings(d, script[|script| - 1])
  }

  /** The payload a reception is the first to bring, if its record maps. */
  function News(c: LiveConfig, earlier: seq<Reception>, r: Reception): Option<Payload> {
    var brings := Brings(c.decoding, r);
    if brings == [] || KeyOf(brings[0]) in KeysOf(Brought(c.decoding, earlier)) then None
    else MapRecord(c.maps, brings[0])
  }

  /** A reception brings a record not seen before that does not map. */
  predicate Unmapped(c: LiveConfig, earlier: seq<Reception>, r: Reception) {
    var brings := Brings(c.decoding, r);
    && brings != [] && KeyOf(brings[0]) !in KeysOf(Brought(c.decoding, earlier)) && MapRecord(c.maps, brings[0]).None?
  }

  /** The event a reception causes, as the n-th of the feed. */
  function Says(c: LiveConfig, earlier: seq<Reception>, r: Reception, n: nat): seq<Content> {
    match r
    case Opened => [Status(Connected)]
    case Dropped(failed) => [Status(Reconnecting(failed))]
    case Asked(intervals) => [Status(Backfilling(intervals))]
    case Halted => [Status(Stopped)]
    case Refused(channel) => [Gap(channel, BackfillFailed)]
    case Fetched(record) =>
      (match News(c, earlier, r) case None => [] case Some(p) => [Payload(Entry(KeyOf(record), p))])
    case Streamed(tagged) =>
      var data := tagged.frame.data;
      if tagged.frame.event == Some("heartbeat") then
        var told := if data.Some? then c.decoding.heartbeatTs(data.value) else None;
        [Heartbeat(if told.Some? then told.value else c.clock(n))]
      else if data.None? then []
      else
        match Parsed(c.decoding, tagged)
        case MalformedJson => [Gap(tagged.channel, BadJson)]
        case Rejected => [Gap(tagged.channel, BadSchema)]
        case Accepted(record) =>
          if Unmapped(c, earlier, r) then [Gap(tagged.channel, NotMapped)]
          else match News(c, earlier, r) case None => [] case Some(p) => [Payload(Entry(KeyOf(record), p))]
  }

  /** Everything the feed says. */
  function Told(c: LiveConfig, script: seq<Reception>): seq<Content> {
    if |script| == 0 then []
    else
      var earlier := script[..|script| - 1];
      Told(c, earlier) + Says(c, earlier, script[|script| - 1], |Told(c, earlier)|)
  }

  /** A reception that counts as a gap: a bad frame, a refused backfill, or a new record that does not map. */
  predicate IsGap(c: LiveConfig, earlier: seq<Reception>, r: Reception) {
    || r.Refused?
    || (r.Streamed? && HasPayload(r.tagged) && !Parsed(c.decoding, r.tagged).Accepted?)
    || Unmapped(c, earlier, r)
  }

  function GapsIn(c: LiveConfig, script: seq<Reception>): nat {
    if |script| == 0 then 0
    else
      var earlier := script[..|script| - 1];
      GapsIn(c, earlier) + if IsGap(c, earlier, script[|script| - 1]) then 1 else 0
  }

  /** The latest timestamp streamed: backfilled records, repeats and records that do not map leave it. */
  function LatestTs(c: LiveConfig, script: seq<Reception>): int {
    if |script| == 0 then 0
    else
      var earlier, last := script[..|script| - 1], script[|script| - 1];
      var news := News(c, earlier, last);
      if last.Streamed? && news.Some? then Max(LatestTs(c, earlier), news.value.TsMs()) else LatestTs(c, earlier)
  }

  // ---------------------------------------------------------------------------------------------
  // The script of a run

  function Streams(frames: seq<TaggedFrame>): seq<Reception> {
    if |frames| == 0 then [] else Streams(frames[..|frames| - 1]) + [Streamed(frames[|frames| - 1])]
  }

  function Fetches(records: seq<Record>): seq<Reception> {
    if |records| == 0 then [] else Fetches(records[..|records| - 1]) + [Fetched(records[|records| - 1])]
  }

  function Answers(channel: Channel, answer: Option<seq<Record>>): seq<Reception> {
    if answer.None? then [Refused(channel)] else Fetches(answer.value)
  }

  /** What fetching intervals brings, odds before scores in each. */
  function Refills(answers: IntervalCoord -> IntervalAnswer, intervals: seq<IntervalCoord>): seq<Reception> {
    if |intervals| == 0 then []
    else
      var a := answers(intervals[|intervals| - 1]);
      Refills(answers, intervals[..|intervals| - 1])
      + Answers(Odds, OddsRecords(a.odds)) + Answers(Scores, ScoreRecords(a.scores))
  }

  /** What happens once a connection is gone: the drop, and the backfill of the intervals for the latest
      timestamp streamed by then, unless there are none. */
  function AfterDrop(c: LiveConfig, streamed: seq<Reception>, session: Session): seq<Reception> {
    var intervals := c.backfillIntervals(LatestTs(c, streamed));
    [Dropped(session.failed)]
    + if |intervals| == 0 then [] else [Asked(|intervals|)] + Refills(session.answers, intervals)
  }

  /** How many connections a run makes: one more than the reconnects it may make. */
  predicate Connects(c: LiveConfig, k: nat) { c.maxReconnects.Some? ==> k <= c.maxReconnects.value }

  function Script(c: LiveConfig, sessions: seq<Session>): seq<Reception> {
    if |sessions| == 0 then [Opened]
    else
      var k := |sessions| - 1;
      var before := Script(c, sessions[..k]);
      if !Connects(c, k) then before
      else
        var streamed := before + Streams(sessions[k].frames);
        streamed + if Connects(c, k + 1) then AfterDrop(c, streamed, sessions[k]) else [Halted]
  }

  // ---------------------------------------------------------------------------------------------
  // The feed plays the script

  function Contents(log: seq<Emitted>): seq<Content> {
    seq(|log|, i requires 0 <= i < |log| => log[i].content)
  }

  /** The feed's state after a script. */
  ghost predicate Played(c: LiveConfig, s: LiveState, script: seq<Reception>) {
    && s.seen == KeysOf(Brought(c.decoding, script))
    && Contents(s.log) == Told(c, script) && s.seqNo == |s.log|
    && s.gaps == GapsIn(c, script)
    && s.lastTsMs == LatestTs(c, script)
  }

  lemma Snoc(script: seq<Reception>, r: Reception)
    ensures (script + [r])[..|script| + 1 - 1] == script && (script + [r])[|script|] == r
  {
  }

  lemma EmitContents(c: LiveConfig, s: LiveState, content: Content)
    ensures Contents(Emit(c, s, content).log) == Contents(s.log) + [content]
  {
  }

  /** A reception that brings no record causes just what it says. */
  lemma PlaysPlain(c: LiveConfig, s: LiveState, script: seq<Reception>, r: Reception, n: LiveState)
    requires Played(c, s, script) && Brings(c.decoding, r) == []
    requires n == s.(log := n.log, seqNo := n.seqNo, gaps := n.gaps)
    requires Contents(n.log) == Contents(s.log) + Says(c, script, r, |Told(c, script)|) && n.seqNo == |n.log|
    requires n.gaps == s.gaps + if IsGap(c, script, r) then 1 else 0
    ensures Played(c, n, script + [r])
  {
    Snoc(script, r);
    assert Brought(c.decoding, script + [r]) == Brought(c.decoding, script) + [];
  }

  /** A reception that brings a record is offered to the feed. */
  lemma PlaysRecord(c: LiveConfig, s: LiveState, script: seq<Reception>, r: Reception, record: Record)
    requires Played(c, s, script) && Brings(c.decoding, r) == [record]
    requires r.Streamed? ==> r.tagged.channel == ChannelOf(record)
    ensures Played(c, Offer(c, s, record, r.Streamed?), script + [r])
  {
    hide Told;
    Snoc(script, r);
    KeysOfSnoc(Brought(c.decoding, script), record);
    ToldOn(c, script, r);
    if KeyOf(record) !in s.seen {
      var marked := s.(seen := s.seen + {KeyOf(record)});
      match MapRecord(c.maps, record)
      case None => EmitContents(c, marked.(gaps := marked.gaps + 1), Gap(ChannelOf(record), NotMapped));
      case Some(p) =>
        EmitContents(c, marked, Payload(Entry(KeyOf(record), p)));
        EmitContents(c, marked.(lastTsMs := Max(marked.lastTsMs, p.TsMs())), Payload(Entry(KeyOf(record), p)));
    }
  }

  lemma ToldOn(c: LiveConfig, script: seq<Reception>, r: Reception)
    ensures Told(c, script + [r]) == Told(c, script) + Says(c, script, r, |Told(c, script)|)
  {
    Snoc(script, r);
  }

  lemma PlaysFrame(c: LiveConfig, s: LiveState, script: seq<Reception>, tagged: TaggedFrame)
    requires Played(c, s, script)
    ensures Played(c, Ingest(c, s, tagged), script + [Streamed(tagged)])
  {
    hide Told, Brought, KeysOf, GapsIn, LatestTs;
    var r, resumed, frame := Streamed(tagged), Resumed(s, tagged), tagged.frame;
    assert Played(c, resumed, script);
    assert |Told(c, script)| == s.seqNo;
    if IsHeartbeat(frame) {
      EmitContents(c, resumed, Heartbeat(HeartbeatTs(c, frame.data, s.seqNo)));
      PlaysPlain(c, resumed, script, r, Ingest(c, s, tagged));
    } else if frame.data.None? {
      assert Contents(resumed.log) + [] == Contents(resumed.log);
      PlaysPlain(c, resumed, script, r, resumed);
    } else {
      match Decode(c.decoding, tagged.channel, frame.data.value)
      case Accepted(record) => PlaysRecord(c, resumed, script, r, record);
      case MalformedJson =>
        EmitContents(c, resumed.(gaps := resumed.gaps + 1), Gap(tagged.channel, BadJson));
        PlaysPlain(c, resumed, script, r, Ingest(c, s, tagged));
      case Rejected =>
        EmitContents(c, resumed.(gaps := resumed.gaps + 1), Gap(tagged.channel, BadSchema));
        PlaysPlain(c, resumed, script, r, Ingest(c, s, tagged));
    }
  }

  lemma Onward(script: seq<Reception>, a: seq<Reception>, b: seq<Reception>)
    ensures (script + a) + b == script + (a + b) && script + [] == script
  {
  }

  lemma {:induction false} PlaysFrames(c: LiveConfig, s: LiveState, script: seq<Reception>, frames: seq<TaggedFrame>)
    requires Played(c, s, script)
    ensures Played(c, IngestAll(c, s, frames), script + Streams(frames))
  {
    hide Played, Ingest;
    Onward(script, [], []);
    if |frames| > 0 {
      var front := frames[..|frames| - 1];
      PlaysFrames(c, s, script, front);
      PlaysFrame(c, IngestAll(c, s, front), script + Streams(front), frames[|frames| - 1]);
      Onward(script, Streams(front), [Streamed(frames[|frames| - 1])]);
    }
  }

  lemma {:induction false} PlaysFetches(c: LiveConfig, s: LiveState, script: seq<Reception>, records: seq<Record>)
    requires Played(c, s, script)
    ensures Played(c, OfferAll(c, s, records), script + Fetches(records))
  {
    hide Played, Offer;
    Onward(script, [], []);
    if |records| > 0 {
      var front, last := records[..|records| - 1], records[|records| - 1];
      PlaysFetches(c, s, script, front);
      PlaysRecord(c, OfferAll(c, s, front), script + Fetches(front), Fetched(last), last);
      Onward(script, Fetches(front), [Fetched(last)]);
    }
  }

  lemma PlaysAnswer(
    c: LiveConfig, s: LiveState, script: seq<Reception>, channel: Channel, answer: Option<seq<Record>>)
    requires Played(c, s, script)
    ensures Played(c, BackfillChannel(c, s, channel, answer), script + Answers(channel, answer))
  {
    hide Told, Brought, KeysOf, GapsIn, LatestTs;
    if answer.None? {
      EmitContents(c, s.(gaps := s.gaps + 1), Gap(channel, BackfillFailed));
      PlaysPlain(c, s, script, Refused(channel), BackfillChannel(c, s, channel, answer));
    } else {
      PlaysFetches(c, s, script, answer.value);
    }
  }

  lemma {:induction false} PlaysRefills(
    c: LiveConfig, s: LiveState, script: seq<Reception>, answers: IntervalCoord -> IntervalAnswer,
    intervals: seq<IntervalCoord>)
    requires Played(c, s, script)
    ensures Played(c, BackfillAll(c, s, answers, intervals), script + Refills(answers, intervals))
  {
    hide Played, BackfillChannel, Answers;
    Onward(script, [], []);
    if |intervals| > 0 {
      var front, a := intervals[..|intervals| - 1], answers(intervals[|intervals| - 1]);
      PlaysRefills(c, s, script, answers, front);
      var before := BackfillAll(c, s, answers, front);
      var sofar, odds, scores := script + Refills(answers, front), OddsRecords(a.odds), ScoreRecords(a.scores);
      PlaysAnswer(c, before, sofar, Odds, odds);
      PlaysAnswer(c, BackfillChannel(c, before, Odds, odds), sofar + Answers(Odds, odds), Scores, scores);
      Onward(script, Refills(answers, front), Answers(Odds, odds));
      Onward(script, Refills(answers, front) + Answers(Odds, odds), Answers(Scores, scores));
    }
  }

  lemma PlaysStatus(c: LiveConfig, s: LiveState, script: seq<Reception>, r: Reception, kind: StatusKind)
    requires Played(c, s, script) && Brings(c.decoding, r) == [] && !IsGap(c, script, r)
    requires Says(c, script, r, |Told(c, script)|) == [Status(kind)]
    ensures Played(c, Emit(c, s, Status(kind)), script + [r])
  {
    hide Told, Brought, KeysOf, GapsIn, LatestTs;
    EmitContents(c, s, Status(kind));
    PlaysPlain(c, s, script, r, Emit(c, s, Status(kind)));
  }

  lemma PlaysDrop(c: LiveConfig, s: LiveState, script: seq<Reception>, session: Session)
    requires Played(c, s, script)
    ensures Played(c, Reconnect(c, s, session), script + AfterDrop(c, script, session))
  {
    hide Told, Brought, KeysOf, GapsIn, LatestTs, BackfillAll, Refills;
    var reset := if |session.frames| > 0 then s.(attempt := 0) else s;
    var dropped := script + [Dropped(session.failed)];
    PlaysStatus(c, reset.(reconnects := reset.reconnects + 1), script, Dropped(session.failed),
        Reconnecting(session.failed));
    var announced := Announced(c, s, session);
    var intervals := c.backfillIntervals(s.lastTsMs);
    Onward(script, [Dropped(session.failed)], []);
    Onward(dropped, [], []);
    if |intervals| > 0 {
      var asked := dropped + [Asked(|intervals|)];
      PlaysStatus(c, announced, dropped, Asked(|intervals|), Backfilling(|intervals|));
      PlaysRefills(c, Emit(c, announced, Status(Backfilling(|intervals|))), asked, session.answers, intervals);
      Onward(dropped, [Asked(|intervals|)], Refills(session.answers, intervals));
      Onward(script, [Dropped(session.failed)], [Asked(|intervals|)] + Refills(session.answers, intervals));
    }
    assert Played(c, Backfill(c, announced, session.answers), script + AfterDrop(c, script, session));
  }

  /** How far a run has got: it makes one connection more than the reconnects it may make, and then is over. */
  ghost predicate GotThere(c: LiveConfig, sessions: seq<Session>, s: LiveState) {
    && (s.ended <==> !Connects(c, |sessions|))
    && s.reconnects == if Connects(c, |sessions|) then |sessions| else c.maxReconnects.value
  }

  /** Every run does exactly what its script says: the events it emits and counts, its gaps, the keys it has seen,
      and the timestamp its next backfill starts from, which is the greatest a first-seen streamed record mapped
      to. It connects once more than it may reconnect. */
  lemma {:induction false} EveryRunPlaysItsScript(c: LiveConfig, sessions: seq<Session>)
    ensures Played(c, LiveFeed.Run(c, sessions), Script(c, sessions))
    ensures GotThere(c, sessions, LiveFeed.Run(c, sessions))
  {
    hide Played, Reconnect, IngestAll;
    if |sessions| == 0 {
      StartPlays(c);
    } else {
      var k := |sessions| - 1;
      var s, before, session := LiveFeed.Run(c, sessions[..k]), Script(c, sessions[..k]), sessions[k];
      EveryRunPlaysItsScript(c, sessions[..k]);
      if !s.ended {
        var streamed, ingested := before + Streams(session.frames), IngestAll(c, s, session.frames);
        PlaysFrames(c, s, before, session.frames);
        IngestingResumes(c, s, session.frames);
        if MayReconnect(c, ingested) {
          PlaysDrop(c, ingested, streamed, session);
          ReconnectBacksOff(c, ingested, session);
        } else {
          PlaysHalt(c, ingested, streamed);
        }
      }
    }
  }

  lemma StartPlays(c: LiveConfig)
    ensures Played(c, Start(c), [Opened]) && Start(c).reconnects == 0 && !Start(c).ended
  {
    var blank := LiveState({}, [], 0, None, None, 0, 0, 0, 0, [], false);
    assert Played(c, blank, []);
    PlaysStatus(c, blank, [], Opened, Connected);
    assert [] + [Opened] == [Opened];
  }

  lemma PlaysHalt(c: LiveConfig, s: LiveState, script: seq<Reception>)
    requires Played(c, s, script)
    ensures Played(c, Emit(c, s, Status(Stopped)).(ended := true), script + [Halted])
  {
    PlaysStatus(c, s, script, Halted, Stopped);
  }

  // ---------------------------------------------------------------------------------------------
  // What the script brings is what a run receives

  lemma {:induction false} BroughtAppends(d: Decoding, a: seq<Reception>, b: seq<Reception>)
    ensures Brought(d, a + b) == Brought(d, a) + Brought(d, b)
  {
    hide Brings;
    if |b| == 0 {
      assert a + b == a;
    } else {
      var front, last := b[..|b| - 1], b[|b| - 1];
      BroughtAppends(d, a, front);
      assert (a + b)[..|a + b| - 1] == a + front && (a + b)[|a + b| - 1] == last;
      Regroup(Brought(d, a), Brought(d, front), Brings(d, last));
    }
  }

  lemma FrameBrings(d: Decoding, tagged: TaggedFrame)
    ensures Brings(d, Streamed(tagged)) == FrameRecord(d, tagged)
  {
  }

  lemma {:induction false} FramesBring(d: Decoding, frames: seq<TaggedFrame>)
    ensures Brought(d, Streams(frames)) == FrameRecords(d, frames)
  {
    hide Brings, FrameRecord;
    if |frames| > 0 {
      FramesBring(d, frames[..|frames| - 1]);
      FrameBrings(d, frames[|frames| - 1]);
      Snoc(Streams(frames[..|frames| - 1]), Streamed(frames[|frames| - 1]));
    }
  }

  lemma {:induction false} FetchesBring(d: Decoding, records: seq<Record>)
    ensures Brought(d, Fetches(records)) == records
  {
    if |records| > 0 {
      FetchesBring(d, records[..|records| - 1]);
      Snoc(Fetches(records[..|records| - 1]), Fetched(records[|records| - 1]));
    }
  }

  lemma AnswerBrings(d: Decoding, channel: Channel, answer: Option<seq<Record>>)
    ensures Brought(d, Answers(channel, answer)) == Answered(answer)
  {
    if answer.Some? {
      FetchesBring(d, answer.value);
    }
  }

  lemma {:induction false} RefillsBring(
    d: Decoding, answers: IntervalCoord -> IntervalAnswer, intervals: seq<IntervalCoord>)
    ensures Brought(d, Refills(answers, intervals)) == WindowRecords(answers, intervals)
  {
    hide Brought, Answers;
    if |intervals| == 0 {
      FetchesBring(d, []);
    } else {
      var front, a := intervals[..|intervals| - 1], answers(intervals[|intervals| - 1]);
      RefillsBring(d, answers, front);
      var odds, scores := OddsRecords(a.odds), ScoreRecords(a.scores);
      AnswerBrings(d, Odds, odds);
      AnswerBrings(d, Scores, scores);
      BroughtAppends(d, Refills(answers, front), Answers(Odds, odds));
      BroughtAppends(d, Refills(answers, front) + Answers(Odds, odds), Answers(Scores, scores));
    }
  }

  lemma BringsNothing(d: Decoding, script: seq<Reception>, r: Reception)
    requires Brings(d, r) == []
    ensures Brought(d, script + [r]) == Brought(d, script)
  {
    Snoc(script, r);
  }

  lemma DropBrings(c: LiveConfig, streamed: seq<Reception>, session: Session)
    ensures Brought(c.decoding, streamed + AfterDrop(c, streamed, session))
         == Brought(c.decoding, streamed)
            + WindowRecords(session.answers, c.backfillIntervals(LatestTs(c, streamed)))
  {
    hide Brought, LatestTs;
    var intervals := c.backfillIntervals(LatestTs(c, streamed));
    var dropped := [Dropped(session.failed)];
    BringsNothing(c.decoding, streamed, Dropped(session.failed));
    Onward(streamed, dropped, []);
    Onward(streamed + dropped, [], []);
    if |intervals| > 0 {
      var refills := Refills(session.answers, intervals);
      BringsNothing(c.decoding, streamed + dropped, Asked(|intervals|));
      RefillsBring(c.decoding, session.answers, intervals);
      BroughtAppends(c.decoding, streamed + dropped + [Asked(|intervals|)], refills);
      Onward(streamed + dropped, [Asked(|intervals|)], refills);
      Onward(streamed, dropped, [Asked(|intervals|)] + refills);
    }
  }

  /** What one connection of a run that is still going brings. */
  lemma SessionBrings(c: LiveConfig, s: LiveState, before: seq<Reception>, session: Session, more: bool)
    requires Played(c, s, before) && !s.ended
    requires more == MayReconnect(c, IngestAll(c, s, session.frames))
    ensures var streamed := before + Streams(session.frames);
            Brought(c.decoding, streamed + if more then AfterDrop(c, streamed, session) else [Halted])
            == Brought(c.decoding, before) + SessionRecords(c, s, session)
  {
    hide Brought, AfterDrop, WindowRecords, Played, IngestAll, MayReconnect, FrameRecords, Streams;
    var streamed, ingested := before + Streams(session.frames), IngestAll(c, s, session.frames);
    BroughtAppends(c.decoding, before, Streams(session.frames));
    FramesBring(c.decoding, session.frames);
    PlaysFrames(c, s, before, session.frames);
    PlayedAt(c, ingested, streamed);
    var records := FrameRecords(c.decoding, session.frames);
    if more {
      DropBrings(c, streamed, session);
      Regroup(Brought(c.decoding, before), records,
              WindowRecords(session.answers, c.backfillIntervals(LatestTs(c, streamed))));
    } else {
      BringsNothing(c.decoding, streamed, Halted);
      assert records + [] == records;
    }
  }

  /** The records a run receives are those its script brings. */
  lemma {:induction false} LiveRecordsAreBrought(c: LiveConfig, sessions: seq<Session>)
    ensures LiveRecords(c, sessions) == Brought(c.decoding, Script(c, sessions))
  {
    hide Brought, AfterDrop, Played, IngestAll, SessionRecords, Reconnect;
    if |sessions| == 0 {
      BringsNothing(c.decoding, [], Opened);
      FetchesBring(c.decoding, []);
      assert [] + [Opened] == [Opened];
    } else {
      var k := |sessions| - 1;
      var s, before, session := LiveFeed.Run(c, sessions[..k]), Script(c, sessions[..k]), sessions[k];
      LiveRecordsAreBrought(c, sessions[..k]);
      EveryRunPlaysItsScript(c, sessions[..k]);
      if s.ended {
        EndedBrings(c, s, session);
      } else {
        IngestingResumes(c, s, session.frames);
        SessionBrings(c, s, before, session, Connects(c, k + 1));
      }
    }
  }

  lemma EndedBrings(c: LiveConfig, s: LiveState, session: Session)
    requires s.ended
    ensures SessionRecords(c, s, session) == []
  {
  }

  lemma PlayedAt(c: LiveConfig, s: LiveState, script: seq<Reception>)
    requires Played(c, s, script)
    ensures s.lastTsMs == LatestTs(c, script)
  {
  }
}
