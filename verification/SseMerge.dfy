/** Two event streams pumped into one queue with a single consumer, as a step system: any interleaving of
    chunk arrivals, stream ends, stream failures and consumer turns is a schedule. */
module SseMerge {
  import opened Prelude
  import opened SseParse

  datatype Channel = Odds | Scores

  datatype TaggedFrame = TaggedFrame(channel: Channel, frame: Frame)

  /** A pump's parser buffer, whether it is still reading, and what it has read. */
  datatype Pump = Pump(buffer: string, running: bool, received: seq<string>)

  /** Ready to take a turn, waiting for a wake-up, or finished. */
  datatype Consumer = Ready | Blocked | Returned | Threw(error: string)

  datatype State = State(
    odds: Pump, scores: Pump, queue: seq<TaggedFrame>, failure: Option<string>, consumer: Consumer,
    yielded: seq<TaggedFrame>)
  {
    function PumpOf(channel: Channel): Pump { if channel.Odds? then odds else scores }

    function WithPump(channel: Channel, pump: Pump): State {
      if channel.Odds? then this.(odds := pump) else this.(scores := pump)
    }

    function Finished(): nat { (if odds.running then 0 else 1) + (if scores.running then 0 else 1) }
  }

  /** What can happen next. */
  datatype Move =
    | Arrive(channel: Channel, chunk: string)
    | Fail(channel: Channel, error: string)
    | End(channel: Channel)
    | Turn

  function Initial(): State {
    State(Pump("", true, []), Pump("", true, []), [], None, Ready, [])
  }

  function Tag(channel: Channel, frames: seq<Frame>): seq<TaggedFrame> {
    seq(|frames|, i requires 0 <= i < |frames| => TaggedFrame(channel, frames[i]))
  }

  function Notify(c: Consumer): Consumer { if c.Blocked? then Ready else c }

  function OnChunk(s: State, channel: Channel, chunk: string): State {
    var pump := s.PumpOf(channel);
    var (raws, rest) := Split(pump.buffer + Normalise(chunk));
    var frames := FramesOf(raws);
    s.WithPump(channel, pump.(buffer := rest, received := pump.received + [chunk]))
     .(queue := s.queue + Tag(channel, frames), consumer := if |frames| > 0 then Notify(s.consumer) else s.consumer)
  }

  function OnEnd(s: State, channel: Channel, failure: Option<string>): State {
    s.WithPump(channel, s.PumpOf(channel).(running := false))
     .(failure := if s.failure.None? then failure else s.failure, consumer := Notify(s.consumer))
  }

  function OnTurn(s: State): State {
    if |s.queue| > 0 then s.(queue := s.queue[1..], yielded := s.yielded + [s.queue[0]])
    else if s.Finished() >= 2
    then s.(consumer := if s.failure.Some? then Threw(s.failure.value) else Returned)
    else s.(consumer := Blocked)
  }

  /** A finished pump makes no more moves, and a consumer that waits or is done takes no turns. */
  predicate Enabled(s: State, move: Move) {
    match move
    case Arrive(channel, _) => s.PumpOf(channel).running
    case Fail(channel, _) => s.PumpOf(channel).running
    case End(channel) => s.PumpOf(channel).running
    case Turn => s.consumer.Ready?
  }

  /** One move of the schedule; a move that is not enabled does not happen. */
  function Step(s: State, move: Move): State {
    if !Enabled(s, move) then s
    else
      match move
      case Arrive(channel, chunk) => OnChunk(s, channel, chunk)
      case Fail(channel, error) => OnEnd(s, channel, Some(error))
      case End(channel) => OnEnd(s, channel, None)
      case Turn => OnTurn(s)
  }

  function Run(moves: seq<Move>): State {
    if |moves| == 0 then Initial() else Step(Run(moves[..|moves| - 1]), moves[|moves| - 1])
  }

  // ---------------------------------------------------------------------------------------------
  // What every schedule keeps

  /** The frames of one channel, in order. */
  function On(frames: seq<TaggedFrame>, channel: Channel): seq<Frame> {
    if |frames| == 0 then []
    else
      var n := |frames| - 1;
      On(frames[..n], channel) + if frames[n].channel == channel then [frames[n].frame] else []
  }

  lemma {:induction false} OnAppend(a: seq<TaggedFrame>, b: seq<TaggedFrame>, channel: Channel)
    ensures On(a + b, channel) == On(a, channel) + On(b, channel)
  {
    if |b| == 0 {
      assert a + b == a;
    } else {
      var n := |b| - 1;
      OnAppend(a, b[..n], channel);
      assert (a + b)[..|a + b| - 1] == a + b[..n] && (a + b)[|a + b| - 1] == b[n];
    }
  }

  lemma {:induction false} OnTagged(tag: Channel, frames: seq<Frame>, channel: Channel)
    ensures On(Tag(tag, frames), channel) == if tag == channel then frames else []
  {
    if |frames| > 0 {
      var n := |frames| - 1;
      OnTagged(tag, frames[..n], channel);
      assert Tag(tag, frames)[..n] == Tag(tag, frames[..n]);
    }
  }

  /** The frames a pump's text has completed so far. */
  function Parsed(pump: Pump): seq<Frame> { FramesOf(Split(NormalisedText(pump.received)).0) }

  /** Nothing is lost, duplicated or reordered within a channel. */
  ghost predicate Delivers(frames: seq<TaggedFrame>, pump: Pump, channel: Channel) {
    && On(frames, channel) == Parsed(pump)
    && pump.buffer == Split(NormalisedText(pump.received)).1
  }

  /** No lost wake-up: the consumer waits only while the queue is empty and some pump can still wake it. */
  predicate WaitsOnlyForPumps(s: State) {
    s.consumer.Blocked? ==> s.queue == [] && s.Finished() < 2
  }

  /** The consumer finishes only when both pumps have and every frame was yielded; it throws exactly when
      there was a failure. */
  predicate FinishesLast(s: State) {
    s.consumer.Returned? || s.consumer.Threw? ==>
      && s.queue == [] && s.Finished() == 2
      && s.consumer == if s.failure.Some? then Threw(s.failure.value) else Returned
  }

  ghost predicate Inv(s: State) {
    && (forall channel :: Delivers(s.yielded + s.queue, s.PumpOf(channel), channel)) && WaitsOnlyForPumps(s) && FinishesLast(s)
  }

  /** A chunk's frames join the end of its own channel. */
  lemma OwnChunkDelivers(frames: seq<TaggedFrame>, pump: Pump, channel: Channel, chunk: string)
    requires Delivers(frames, pump, channel)
    ensures var (raws, rest) := Split(pump.buffer + Normalise(chunk));
            Delivers(frames + Tag(channel, FramesOf(raws)), pump.(buffer := rest, received := pump.received + [chunk]),
                     channel)
  {
    var (raws, rest) := Split(pump.buffer + Normalise(chunk));
    OnAppend(frames, Tag(channel, FramesOf(raws)), channel);
    OnTagged(channel, FramesOf(raws), channel);
    var text := NormalisedText(pump.received);
    assert (pump.received + [chunk])[..|pump.received|] == pump.received;
    SplitExtends(text, Normalise(chunk));
    FramesOfAppend(Split(text).0, raws);
  }

  lemma OtherChunkDelivers(frames: seq<TaggedFrame>, pump: Pump, channel: Channel, tag: Channel, added: seq<Frame>)
    requires Delivers(frames, pump, channel) && tag != channel
    ensures Delivers(frames + Tag(tag, added), pump, channel)
  {
    OnAppend(frames, Tag(tag, added), channel);
    OnTagged(tag, added, channel);
  }

  lemma ChunkDelivers(s: State, tag: Channel, chunk: string, channel: Channel, n: State)
    requires Delivers(s.yielded + s.queue, s.PumpOf(channel), channel) && n == OnChunk(s, tag, chunk)
    ensures Delivers(n.yielded + n.queue, n.PumpOf(channel), channel)
  {
    var frames := FramesOf(Split(s.PumpOf(tag).buffer + Normalise(chunk)).0);
    assert n.yielded + n.queue == (s.yielded + s.queue) + Tag(tag, frames);
    if tag == channel {
      OwnChunkDelivers(s.yielded + s.queue, s.PumpOf(channel), channel, chunk);
    } else {
      OtherChunkDelivers(s.yielded + s.queue, s.PumpOf(channel), channel, tag, frames);
    }
  }

  /** Everything but a chunk leaves the frames and the parsers alone. */
  lemma QuietMove(s: State, move: Move, channel: Channel, n: State)
    requires n == Step(s, move) && (move.Arrive? ==> !Enabled(s, move))
    ensures n.yielded + n.queue == s.yielded + s.queue
    ensures n.PumpOf(channel).buffer == s.PumpOf(channel).buffer
    ensures n.PumpOf(channel).received == s.PumpOf(channel).received
  {
  }

  lemma StepDelivers(s: State, move: Move, channel: Channel, n: State)
    requires Delivers(s.yielded + s.queue, s.PumpOf(channel), channel) && n == Step(s, move)
    ensures Delivers(n.yielded + n.queue, n.PumpOf(channel), channel)
  {
    if move.Arrive? && Enabled(s, move) {
      ChunkDelivers(s, move.channel, move.chunk, channel, n);
    } else {
      QuietMove(s, move, channel, n);
      SamePumpDelivers(n.yielded + n.queue, s.PumpOf(channel), n.PumpOf(channel), channel);
    }
  }

  lemma SamePumpDelivers(frames: seq<TaggedFrame>, a: Pump, b: Pump, channel: Channel)
    requires Delivers(frames, a, channel) && b.buffer == a.buffer && b.received == a.received
    ensures Delivers(frames, b, channel)
  {
  }

  lemma StepKeepsInv(s: State, move: Move, n: State)
    requires Inv(s) && n == Step(s, move)
    ensures Inv(n)
  {
    forall channel
      ensures Delivers(n.yielded + n.queue, n.PumpOf(channel), channel)
    {
      StepDelivers(s, move, channel, n);
    }
    StepKeepsConsumer(s, move, n);
  }

  lemma StepKeepsConsumer(s: State, move: Move, n: State)
    requires WaitsOnlyForPumps(s) && FinishesLast(s) && n == Step(s, move)
    ensures WaitsOnlyForPumps(n) && FinishesLast(n)
  {
  }

  /** Under every schedule: within each channel the yielded frames followed by the queued ones are that
      channel's frames in order, no wake-up is lost, and the consumer finishes last. */
  lemma {:induction false} EveryScheduleKeepsInv(moves: seq<Move>)
    ensures Inv(Run(moves))
  {
    if |moves| == 0 {
      forall channel
        ensures Delivers(Initial().yielded + Initial().queue, Initial().PumpOf(channel), channel)
      {
        assert Initial().yielded + Initial().queue == [];
      }
    } else {
      var front := moves[..|moves| - 1];
      EveryScheduleKeepsInv(front);
      StepKeepsInv(Run(front), moves[|moves| - 1], Run(moves));
    }
  }

  // ---------------------------------------------------------------------------------------------
  // Main results

  /** Nobody is ever stuck: some move is enabled until the consumer is done, and a consumer that is not done
      can move as soon as both pumps have ended. */
  lemma NeverStuck(moves: seq<Move>)
    ensures var s := Run(moves);
            || s.consumer.Returned? || s.consumer.Threw?
            || Enabled(s, Turn)
            || exists channel :: Enabled(s, End(channel))
    ensures Run(moves).Finished() == 2 ==> !Run(moves).consumer.Blocked?
  {
    EveryScheduleKeepsInv(moves);
    var s := Run(moves);
    assert Enabled(s, End(Odds)) == s.odds.running && Enabled(s, End(Scores)) == s.scores.running;
  }

  /** A dropped stream does not end the merged one while its sibling is open. */
  lemma OneFailureEndsNothing(moves: seq<Move>, open: Channel)
    requires Run(moves).PumpOf(open).running
    ensures !Run(moves).consumer.Threw? && !Run(moves).consumer.Returned?
  {
    EveryScheduleKeepsInv(moves);
  }

  /** A failure surfaces only after every frame either channel completed has been yielded. */
  lemma FailureComesLast(moves: seq<Move>, channel: Channel)
    requires Run(moves).consumer.Threw? || Run(moves).consumer.Returned?
    ensures On(Run(moves).yielded, channel) == Parsed(Run(moves).PumpOf(channel))
    ensures Run(moves).consumer.Threw? <==> Run(moves).failure.Some?
  {
    EveryScheduleKeepsInv(moves);
    var s := Run(moves);
    assert Delivers(s.yielded + s.queue, s.PumpOf(channel), channel) && s.yielded + s.queue == s.yielded;
  }

  /** Once both pumps have ended, as many turns as there are queued frames, plus one, finish the consumer. */
  lemma {:induction false} TurnsDrain(s: State, moves: seq<Move>)
    requires s == Run(moves) && s.Finished() == 2 && s.consumer.Ready?
    ensures var done := Run(moves + Turns(|s.queue| + 1));
            (done.consumer.Returned? || done.consumer.Threw?) && done.yielded == s.yielded + s.queue
    decreases |s.queue|
  {
    var once := moves + [Turn];
    assert once[..|once| - 1] == moves;
    var n := Run(once);
    if |s.queue| == 0 {
      assert Turns(1) == [Turn];
      assert s.yielded + s.queue == s.yielded;
    } else {
      TurnsDrain(n, once);
      assert moves + Turns(|s.queue| + 1) == once + Turns(|n.queue| + 1);
      assert n.yielded + n.queue == s.yielded + s.queue;
    }
  }

  function Turns(n: nat): seq<Move> { seq(n, _ => Turn) }

  /** End to end: if a server sends printed frames without carriage returns, then however its bytes are cut
      into chunks and interleaved with the other stream, a finished consumer was given exactly them, in order. */
  lemma WhatIsSentIsYielded(moves: seq<Move>, channel: Channel, sent: seq<Frame>)
    requires Run(moves).consumer.Threw? || Run(moves).consumer.Returned?
    requires forall i :: 0 <= i < |sent| ==> Printable(sent[i])
    requires Concat(Run(moves).PumpOf(channel).received) == PrintAll(sent) && '\r' !in PrintAll(sent)
    ensures On(Run(moves).yielded, channel) == sent
  {
    FailureComesLast(moves, channel);
    StreamSurvivesAnyChunking(sent, Run(moves).PumpOf(channel).received);
  }

  /** The first failure of the schedule that happened. */
  function FirstFailure(moves: seq<Move>): Option<string> {
    if |moves| == 0 then None
    else
      var front, last := moves[..|moves| - 1], moves[|moves| - 1];
      var earlier := FirstFailure(front);
      if earlier.None? && last.Fail? && Enabled(Run(front), last) then Some(last.error) else earlier
  }

  /** When both streams fail, the error thrown is the first one's. */
  lemma {:induction false} FailureIsFirst(moves: seq<Move>)
    ensures Run(moves).failure == FirstFailure(moves)
  {
    if |moves| > 0 {
      FailureIsFirst(moves[..|moves| - 1]);
    }
  }

  // ---------------------------------------------------------------------------------------------
  // The connector

  class Connection {
    const oddsParser: SseFrameParser
    const scoresParser: SseFrameParser
    var queue: seq<TaggedFrame>
    var finishedPumps: nat
    var failure: Option<string>
    /** Whether the consumer has left a wake-up callback. */
    var wake: bool
    var outcome: Option<Consumer>
    /** Whether each pump is still inside its read loop. */
    var oddsRunning: bool
    var scoresRunning: bool
    ghost var received: Channel -> seq<string>
    ghost var yielded: seq<TaggedFrame>

    function ParserOf(channel: Channel): SseFrameParser { if channel.Odds? then oddsParser else scoresParser }

    ghost function Now(): State
      reads this, oddsParser, scoresParser
    {
      State(
        Pump(oddsParser.buffer, oddsRunning, received(Odds)), Pump(scoresParser.buffer, scoresRunning, received(Scores)),
        queue, failure, if outcome.Some? then outcome.value else if wake then Blocked else Ready, yielded)
    }

    ghost predicate Valid()
      reads this, oddsParser, scoresParser
    {
      && oddsParser != scoresParser && oddsParser.Valid() && scoresParser.Valid()
      && finishedPumps == Now().Finished()
      && (outcome.Some? ==> !wake && (outcome.value.Returned? || outcome.value.Threw?))
    }

    constructor ()
      ensures Valid() && Now() == Initial() && fresh(oddsParser) && fresh(scoresParser)
    {
      oddsParser := new SseFrameParser();
      scoresParser := new SseFrameParser();
      queue, finishedPumps, failure, wake, outcome := [], 0, None, false, None;
      oddsRunning, scoresRunning, received, yielded := true, true, _ => [], [];
    }

    method NotifyConsumer()
      modifies this`wake
      ensures !wake
    {
      if wake { wake := false; }
    }

    method Enqueue(channel: Channel, frames: seq<Frame>)
      modifies this`queue
      ensures queue == old(queue) + Tag(channel, frames)
    {
      ghost var all := Tag(channel, frames);
      for i := 0 to |frames|
        invariant queue == old(queue) + all[..i]
      {
        queue := queue + [TaggedFrame(channel, frames[i])];
      }
      assert all[..|frames|] == all;
    }

    /** Feed a chunk to the channel's parser. */
    method Read(channel: Channel, chunk: string) returns (frames: seq<Frame>)
      requires Valid()
      modifies this`received, oddsParser, scoresParser
      ensures Valid()
      ensures var pump := old(Now()).PumpOf(channel); var (raws, rest) := Split(pump.buffer + Normalise(chunk));
              && frames == FramesOf(raws)
              && Now() == old(Now()).WithPump(channel, pump.(buffer := rest, received := pump.received + [chunk]))
    {
      frames := ParserOf(channel).Push(chunk);
      ghost var chunks := received;
      received := c => if c == channel then chunks(c) + [chunk] else chunks(c);
    }

    /** A chunk arrives: queue the frames it completes, and wake the consumer if there are any. */
    method PumpChunk(channel: Channel, chunk: string)
      requires Valid() && Enabled(Now(), Arrive(channel, chunk))
      modifies this, oddsParser, scoresParser
      ensures Valid() && Now() == OnChunk(old(Now()), channel, chunk)
    {
      var frames := Read(channel, chunk);
      Enqueue(channel, frames);
      if |frames| > 0 {
        NotifyConsumer();
      }
    }

    /** A stream ends, with an error or without. Only the first error is kept. */
    method PumpEnd(channel: Channel, error: Option<string>)
      requires Valid() && Enabled(Now(), End(channel))
      modifies this
      ensures Valid() && Now() == OnEnd(old(Now()), channel, error)
    {
      if error.Some? && failure.None? {
        failure := error;
      }
      finishedPumps := finishedPumps + 1;
      if channel.Odds? { oddsRunning := false; } else { scoresRunning := false; }
      NotifyConsumer();
    }

    /** One turn of the consumer's loop: yield a frame, finish, or wait. */
    method ConsumerTurn() returns (next: Option<TaggedFrame>)
      requires Valid() && Enabled(Now(), Turn)
      modifies this
      ensures Valid() && Now() == OnTurn(old(Now()))
      ensures next == if |old(queue)| > 0 then Some(old(queue)[0]) else None
    {
      if |queue| > 0 {
        next := Some(queue[0]);
        queue, yielded := queue[1..], yielded + [queue[0]];
        return;
      }
      next := None;
      if finishedPumps >= 2 {
        outcome := Some(if failure.Some? then Threw(failure.value) else Returned);
      } else {
        wake := true;
      }
    }

    /** One move of a schedule, if it is enabled. */
    method Perform(move: Move) returns (next: Option<TaggedFrame>)
      requires Valid()
      modifies this, oddsParser, scoresParser
      ensures Valid() && Now() == Step(old(Now()), move)
      ensures Now().yielded == old(Now()).yielded + (if next.Some? then [next.value] else [])
    {
      next := None;
      if move.Turn? {
        if outcome.None? && !wake {
          next := ConsumerTurn();
        }
      } else if if move.channel.Odds? then oddsRunning else scoresRunning {
        match move
        case Arrive(channel, chunk) => PumpChunk(channel, chunk);
        case Fail(channel, error) => PumpEnd(channel, Some(error));
        case End(channel) => PumpEnd(channel, None);
      }
    }
  }

  /** Open both streams and let a schedule play out; what comes back is what the consumer was given. */
  method Connect(moves: seq<Move>) returns (yielded: seq<TaggedFrame>, outcome: Option<Consumer>)
    ensures yielded == Run(moves).yielded
    ensures outcome == if Run(moves).consumer.Ready? || Run(moves).consumer.Blocked? then None else Some(Run(moves).consumer)
  {
    var connection := new Connection();
    yielded := [];
    for i := 0 to |moves|
      invariant connection.Valid() && connection.Now() == Run(moves[..i])
      invariant fresh(connection) && fresh(connection.oddsParser) && fresh(connection.scoresParser)
      invariant yielded == Run(moves[..i]).yielded
    {
      assert moves[..i + 1][..i] == moves[..i];
      var next := connection.Perform(moves[i]);
      if next.Some? {
        yielded := yielded + [next.value];
      }
    }
    assert moves[..|moves|] == moves;
    outcome := connection.outcome;
  }
}
