/** The REST client's retries: backoff on transient failures, and one session refresh on an expired token. */
module Retry {
  import opened Prelude

  const UNAUTHORIZED := 401
  const TOO_MANY_REQUESTS := 429

  /** What the network does with one send: it drops it, or answers it. */
  datatype Reply = Dropped | Response(status: int, body: string)

  datatype Failure = Transport | HttpStatus(status: int) | BadToken

  /** What went over the wire: a guest-session start, or a data request under a token. */
  datatype Sent = GuestStart | Data(jwt: string)

  /** The network answers the n-th send with network(n); a session response may hold a token. */
  datatype Settings = Settings(network: nat -> Reply, tokenOf: string -> Option<string>, maxAttempts: int)
  {
    /** How many attempts one request really gets. */
    function Attempts(): nat { Max(1, maxAttempts) }
  }

  /** How a request went: its result, what was sent, the attempt each backoff sleep followed, and the token
      held afterwards. */
  datatype Trace = Trace(result: Result<string, Failure>, sent: seq<Sent>, sleeps: seq<nat>, jwt: string)

  predicate Success(reply: Reply) { reply.Response? && 200 <= reply.status < 300 }

  predicate Transient(reply: Reply) {
    reply.Dropped? || reply.status == TOO_MANY_REQUESTS || reply.status >= 500
  }

  function FailureOf(reply: Reply): Failure { if reply.Dropped? then Transport else HttpStatus(reply.status) }

  function Prepend(sent: seq<Sent>, sleeps: seq<nat>, t: Trace): Trace {
    t.(sent := sent + t.sent, sleeps := sleeps + t.sleeps)
  }

  /** A request without a token, from its `attempt`-th attempt on, when `at` sends have been made before. */
  function SendPlain(c: Settings, at: nat, attempt: nat, jwt: string): Trace
    decreases c.Attempts() - attempt
  {
    var reply := c.network(at);
    if Success(reply) then Trace(Ok(reply.body), [GuestStart], [], jwt)
    else if Transient(reply) && attempt + 1 < c.maxAttempts
    then Prepend([GuestStart], [attempt], SendPlain(c, at + 1, attempt + 1, jwt))
    else Trace(Err(FailureOf(reply)), [GuestStart], [], jwt)
  }

  /** Start a guest session and keep its token. */
  function StartSession(c: Settings, at: nat, jwt: string): Trace {
    var t := SendPlain(c, at, 0, jwt);
    match t.result
    case Err(_) => t
    case Ok(body) =>
      match c.tokenOf(body)
      case None => t.(result := Err(BadToken))
      case Some(token) => t.(result := Ok(token), jwt := token)
  }

  function SendAuthed(c: Settings, at: nat, attempt: nat, reauthed: bool, jwt: string): Trace
    decreases c.Attempts() - attempt, !reauthed
  {
    var reply := c.network(at);
    if Success(reply) then Trace(Ok(reply.body), [Data(jwt)], [], jwt)
    else if reply.Response? && reply.status == UNAUTHORIZED && !reauthed then
      var session := StartSession(c, at + 1, jwt);
      if session.result.Err? then Prepend([Data(jwt)], [], session)
      else Prepend([Data(jwt)] + session.sent, session.sleeps,
                   SendAuthed(c, at + 1 + |session.sent|, attempt, true, session.jwt))
    else if Transient(reply) && attempt + 1 < c.maxAttempts
    then Prepend([Data(jwt)], [attempt], SendAuthed(c, at + 1, attempt + 1, reauthed, jwt))
    else Trace(Err(FailureOf(reply)), [Data(jwt)], [], jwt)
  }

  // ---------------------------------------------------------------------------------------------
  // Bounds

  lemma {:induction false} PlainIsBounded(c: Settings, at: nat, attempt: nat, jwt: string)
    requires attempt < c.Attempts()
    ensures var t := SendPlain(c, at, attempt, jwt);
            && 1 <= |t.sent| <= c.Attempts() - attempt && |t.sleeps| == |t.sent| - 1
            && t.jwt == jwt && forall i :: 0 <= i < |t.sent| ==> t.sent[i] == GuestStart
    decreases c.Attempts() - attempt
  {
    if Transient(c.network(at)) && attempt + 1 < c.maxAttempts {
      PlainIsBounded(c, at + 1, attempt + 1, jwt);
    }
  }

  lemma SessionIsBounded(c: Settings, at: nat, jwt: string)
    ensures var t := StartSession(c, at, jwt);
            && 1 <= |t.sent| <= c.Attempts() && |t.sleeps| == |t.sent| - 1
            && (t.result.Err? ==> t.jwt == jwt) && forall i :: 0 <= i < |t.sent| ==> t.sent[i] == GuestStart
  {
    PlainIsBounded(c, at, 0, jwt);
  }

  /** How many sends carried data. */
  function DataSends(sent: seq<Sent>): nat {
    if |sent| == 0 then 0 else DataSends(sent[..|sent| - 1]) + if sent[|sent| - 1].Data? then 1 else 0
  }

  lemma {:induction false} DataSendsAdd(a: seq<Sent>, b: seq<Sent>)
    ensures DataSends(a + b) == DataSends(a) + DataSends(b)
  {
    if |b| == 0 {
      assert a + b == a;
    } else {
      DataSendsAdd(a, b[..|b| - 1]);
      assert (a + b)[..|a + b| - 1] == a + b[..|b| - 1];
    }
  }

  lemma {:induction false} NoDataSends(sent: seq<Sent>)
    requires forall i :: 0 <= i < |sent| ==> sent[i] == GuestStart
    ensures DataSends(sent) == 0
  {
    if |sent| > 0 {
      NoDataSends(sent[..|sent| - 1]);
    }
  }

  lemma OneDataSend(jwt: string)
    ensures DataSends([Data(jwt)]) == 1
  {
    assert [Data(jwt)][..0] == [];
  }

  /** What one request can cost from a given point on: data sends for the remaining attempts and for the
      refresh, if it is still to come, plus the sends of that one refresh. */
  ghost predicate WithinBudget(c: Settings, attempt: nat, reauthed: bool, t: Trace) {
    Affordable(c.Attempts(), attempt, reauthed, DataSends(t.sent), |t.sent|, |t.sleeps|)
  }

  predicate Affordable(m: nat, attempt: nat, reauthed: bool, data: nat, sends: nat, sleeps: nat) {
    && 1 <= data <= m - attempt + (if reauthed then 0 else 1)
    && sends - data <= (if reauthed then 0 else m)
    && sleeps <= m - attempt - 1 + (if reauthed then 0 else m - 1)
  }

  lemma {:induction false} AuthedIsBounded(c: Settings, at: nat, attempt: nat, reauthed: bool, jwt: string)
    requires attempt < c.Attempts()
    ensures WithinBudget(c, attempt, reauthed, SendAuthed(c, at, attempt, reauthed, jwt))
    decreases c.Attempts() - attempt, !reauthed
  {
    var reply := c.network(at);
    OneDataSend(jwt);
    if Success(reply) {
    } else if reply.Response? && reply.status == UNAUTHORIZED && !reauthed {
      RefreshIsBounded(c, at, attempt, jwt);
    } else if Transient(reply) && attempt + 1 < c.maxAttempts {
      AuthedIsBounded(c, at + 1, attempt + 1, reauthed, jwt);
      DataSendsAdd([Data(jwt)], SendAuthed(c, at + 1, attempt + 1, reauthed, jwt).sent);
    }
  }

  lemma {:induction false} RefreshIsBounded(c: Settings, at: nat, attempt: nat, jwt: string)
    requires attempt < c.Attempts()
    requires c.network(at).Response? && c.network(at).status == UNAUTHORIZED
    ensures WithinBudget(c, attempt, false, SendAuthed(c, at, attempt, false, jwt))
    decreases c.Attempts() - attempt, true, 0
  {
    hide StartSession, DataSends;
    var session := StartSession(c, at + 1, jwt);
    SessionIsBounded(c, at + 1, jwt);
    var refresh := [Data(jwt)] + session.sent;
    RefreshHasOneDataSend(jwt, session.sent);
    if session.result.Ok? {
      var rest := SendAuthed(c, at + 1 + |session.sent|, attempt, true, session.jwt);
      AuthedIsBounded(c, at + 1 + |session.sent|, attempt, true, session.jwt);
      DataSendsAdd(refresh, rest.sent);
      assert Affordable(c.Attempts(), attempt, false, DataSends(refresh + rest.sent), |refresh + rest.sent|,
                        |session.sleeps + rest.sleeps|);
    } else {
      assert Affordable(c.Attempts(), attempt, false, DataSends(refresh), |refresh|, |session.sleeps|);
      assert [] + session.sleeps == session.sleeps;
    }
  }

  lemma RefreshHasOneDataSend(jwt: string, session: seq<Sent>)
    requires forall i :: 0 <= i < |session| ==> session[i] == GuestStart
    ensures DataSends([Data(jwt)] + session) == 1
  {
    NoDataSends(session);
    OneDataSend(jwt);
    DataSendsAdd([Data(jwt)], session);
  }

  /** Whatever the network does, one authenticated request ends after at most 2M + 1 sends and 2(M - 1)
      backoff sleeps, where M is the larger of 1 and maxAttempts. */
  lemma RequestIsBounded(c: Settings, at: nat, jwt: string)
    ensures var t := SendAuthed(c, at, 0, false, jwt); var m := c.Attempts();
            1 <= |t.sent| <= 2 * m + 1 && |t.sleeps| <= 2 * (m - 1) && DataSends(t.sent) <= m + 1
  {
    AuthedIsBounded(c, at, 0, false, jwt);
    DataSendsLeAll(SendAuthed(c, at, 0, false, jwt).sent);
  }

  lemma {:induction false} DataSendsLeAll(sent: seq<Sent>)
    ensures DataSends(sent) <= |sent|
  {
    if |sent| > 0 {
      DataSendsLeAll(sent[..|sent| - 1]);
    }
  }

  // ---------------------------------------------------------------------------------------------
  // The bound is tight

  /** A network that fails every attempt but the last, expires the token there, does the same to the refresh,
      and then refuses. */
  function WorstNetwork(m: nat): nat -> Reply {
    n => if n == m - 1 then Response(UNAUTHORIZED, "")
         else if n == 2 * m - 1 then Response(200, "")
         else Response(503, "")
  }

  lemma {:induction false} WorstPlain(c: Settings, at: nat, attempt: nat, jwt: string)
    requires c.maxAttempts >= 1 && c.network == WorstNetwork(c.maxAttempts)
    requires attempt < c.maxAttempts && at == c.maxAttempts + attempt
    ensures var t := SendPlain(c, at, attempt, jwt); t.result == Ok("") && |t.sent| == c.maxAttempts - attempt
    decreases c.maxAttempts - attempt
  {
    if attempt + 1 < c.maxAttempts {
      WorstPlain(c, at + 1, attempt + 1, jwt);
    }
  }

  lemma {:induction false} WorstAuthed(c: Settings, attempt: nat, jwt: string)
    requires c.maxAttempts >= 1 && c.network == WorstNetwork(c.maxAttempts) && c.tokenOf("").Some?
    requires attempt < c.maxAttempts
    ensures var t := SendAuthed(c, attempt, attempt, false, jwt);
            |t.sent| == 2 * c.maxAttempts + 1 - attempt && |t.sleeps| == 2 * (c.maxAttempts - 1) - attempt
    decreases c.maxAttempts - attempt
  {
    if attempt + 1 < c.maxAttempts {
      WorstAuthed(c, attempt + 1, jwt);
    } else {
      WorstPlain(c, attempt + 1, 0, jwt);
      SessionIsBounded(c, attempt + 1, jwt);
      var session := StartSession(c, attempt + 1, jwt);
      assert |session.sent| == c.maxAttempts;
      assert attempt + 1 + |session.sent| == 2 * c.maxAttempts;
    }
  }

  /** For every M at least 1 some network forces exactly 2M + 1 sends and 2(M - 1) sleeps. */
  lemma BoundIsTight(c: Settings, jwt: string)
    requires c.maxAttempts >= 1 && c.network == WorstNetwork(c.maxAttempts) && c.tokenOf("").Some?
    ensures var t := SendAuthed(c, 0, 0, false, jwt);
            |t.sent| == 2 * c.maxAttempts + 1 && |t.sleeps| == 2 * (c.maxAttempts - 1)
  {
    WorstAuthed(c, 0, jwt);
  }

  // ---------------------------------------------------------------------------------------------
  // What the result means

  /** A result reports the reply to the last send: a success is its body; a status is one no retry is owed. */
  ghost predicate ReportsLast(c: Settings, at: nat, t: Trace) {
    && |t.sent| > 0
    && var last := c.network(at + |t.sent| - 1);
       match t.result
       case Ok(body) => Success(last) && body == last.body && t.sent[|t.sent| - 1] == Data(t.jwt)
       case Err(BadToken) => Success(last) && t.sent[|t.sent| - 1] == GuestStart
       case Err(f) => !Success(last) && f == FailureOf(last)
  }

  lemma {:induction false} PlainReportsLast(c: Settings, at: nat, attempt: nat, jwt: string)
    requires attempt < c.Attempts()
    ensures var t := SendPlain(c, at, attempt, jwt);
            && |t.sent| > 0 && t.sent[|t.sent| - 1] == GuestStart
            && var last := c.network(at + |t.sent| - 1);
               match t.result
               case Ok(body) => Success(last) && body == last.body
               case Err(f) => !Success(last) && f == FailureOf(last)
    decreases c.Attempts() - attempt
  {
    if Transient(c.network(at)) && attempt + 1 < c.maxAttempts {
      PlainReportsLast(c, at + 1, attempt + 1, jwt);
    }
  }

  /** Like LaterReports, for a whole refresh followed by the rest of the request. */
  lemma RefreshReports(c: Settings, at: nat, attempt: nat, jwt: string)
    requires c.network(at).Response? && c.network(at).status == UNAUTHORIZED
    requires var session := StartSession(c, at + 1, jwt);
             session.result.Ok? ==>
               ReportsLast(c, at + 1 + |session.sent|, SendAuthed(c, at + 1 + |session.sent|, attempt, true, session.jwt))
    ensures ReportsLast(c, at, SendAuthed(c, at, attempt, false, jwt))
  {
    var session := StartSession(c, at + 1, jwt);
    if session.result.Ok? {
      var rest := SendAuthed(c, at + 1 + |session.sent|, attempt, true, session.jwt);
      LaterReports(c, at, [Data(jwt)] + session.sent, session.sleeps, rest);
    } else {
      FailedSessionReports(c, at + 1, jwt);
      LaterReports(c, at, [Data(jwt)], [], session);
    }
  }

  lemma LaterReports(c: Settings, at: nat, sent: seq<Sent>, sleeps: seq<nat>, t: Trace)
    requires ReportsLast(c, at + |sent|, t)
    ensures ReportsLast(c, at, Prepend(sent, sleeps, t))
  {
  }

  /** A request's result is always about its last send, and a success was obtained under the token the client
      then holds. */
  lemma {:induction false} AuthedReportsLast(c: Settings, at: nat, attempt: nat, reauthed: bool, jwt: string)
    requires attempt < c.Attempts()
    ensures ReportsLast(c, at, SendAuthed(c, at, attempt, reauthed, jwt))
    decreases c.Attempts() - attempt, !reauthed
  {
    var reply := c.network(at);
    if Success(reply) {
    } else if reply.Response? && reply.status == UNAUTHORIZED && !reauthed {
      var session := StartSession(c, at + 1, jwt);
      if session.result.Ok? {
        AuthedReportsLast(c, at + 1 + |session.sent|, attempt, true, session.jwt);
      }
      RefreshReports(c, at, attempt, jwt);
    } else if Transient(reply) && attempt + 1 < c.maxAttempts {
      AuthedReportsLast(c, at + 1, attempt + 1, reauthed, jwt);
      LaterReports(c, at, [Data(jwt)], [attempt], SendAuthed(c, at + 1, attempt + 1, reauthed, jwt));
    }
  }

  lemma FailedSessionReports(c: Settings, at: nat, jwt: string)
    requires StartSession(c, at, jwt).result.Err?
    ensures ReportsLast(c, at, StartSession(c, at, jwt))
  {
    PlainReportsLast(c, at, 0, jwt);
  }

  // ---------------------------------------------------------------------------------------------
  // The client

  class TxlineClient {
    const settings: Settings
    var jwt: string
    /** Every send and backoff sleep so far. */
    ghost var sent: seq<Sent>
    ghost var sleeps: seq<nat>
    var sends: nat

    ghost predicate Valid()
      reads this
    {
      sends == |sent|
    }

    constructor (settings: Settings, jwt: string)
      ensures Valid() && this.settings == settings && this.jwt == jwt && sent == [] && sleeps == []
    {
      this.settings, this.jwt, sent, sleeps, sends := settings, jwt, [], [], 0;
    }

    method Send(what: Sent) returns (reply: Reply)
      requires Valid()
      modifies this`sent, this`sends
      ensures Valid() && sent == old(sent) + [what] && reply == settings.network(old(sends))
    {
      reply := settings.network(sends);
      sent, sends := sent + [what], sends + 1;
    }

    method Sleep(attempt: nat)
      modifies this`sleeps
      ensures sleeps == old(sleeps) + [attempt]
    {
      sleeps := sleeps + [attempt];
    }

    method SendPlainRequest() returns (result: Result<string, Failure>)
      requires Valid()
      modifies this`sent, this`sends, this`sleeps
      ensures Valid()
      ensures var t := SendPlain(settings, old(sends), 0, jwt);
              result == t.result && sent == old(sent) + t.sent && sleeps == old(sleeps) + t.sleeps
    {
      var attempt := 0;
      while true
        invariant Valid() && attempt < settings.Attempts()
        invariant var t := SendPlain(settings, old(sends), 0, jwt);
                  var rest := SendPlain(settings, sends, attempt, jwt);
                  && t.result == rest.result
                  && old(sent) + t.sent == sent + rest.sent && old(sleeps) + t.sleeps == sleeps + rest.sleeps
        decreases settings.Attempts() - attempt
      {
        ghost var before, slept := sent, sleeps;
        var reply := Send(GuestStart);
        if Success(reply) { return Ok(reply.body); }
        if !(Transient(reply) && attempt + 1 < settings.maxAttempts) { return Err(FailureOf(reply)); }
        Sleep(attempt);
        attempt := attempt + 1;
        Regroup(before, [GuestStart], SendPlain(settings, sends, attempt, jwt).sent);
        Regroup(slept, [attempt - 1], SendPlain(settings, sends, attempt, jwt).sleeps);
      }
    }

    method StartGuestSession() returns (result: Result<string, Failure>)
      requires Valid()
      modifies this
      ensures Valid()
      ensures var t := StartSession(settings, old(sends), old(jwt));
              && result == t.result && jwt == t.jwt
              && sent == old(sent) + t.sent && sleeps == old(sleeps) + t.sleeps
    {
      PlainIsBounded(settings, sends, 0, jwt);
      var response := SendPlainRequest();
      if response.Err? { return response; }
      var token := settings.tokenOf(response.value);
      if token.None? { return Err(BadToken); }
      jwt := token.value;
      return Ok(token.value);
    }

    /** One pass of the retry loop: an answer, or the state to try again in. */
    method Attempt(attempt: nat, reauthed: bool)
      returns (answer: Option<Result<string, Failure>>, nextAttempt: nat, nextReauthed: bool,
               ghost step: seq<Sent>, ghost slept: seq<nat>)
      requires Valid() && attempt < settings.Attempts()
      modifies this
      ensures Valid() && sent == old(sent) + step && sleeps == old(sleeps) + slept
      ensures var t := SendAuthed(settings, old(sends), attempt, reauthed, old(jwt));
              if answer.Some? then t == Trace(answer.value, step, slept, jwt)
              else t == Prepend(step, slept, SendAuthed(settings, sends, nextAttempt, nextReauthed, jwt))
      ensures answer.None? ==>
                && attempt <= nextAttempt < settings.Attempts()
                && (nextAttempt == attempt ==> nextReauthed && !reauthed)
    {
      answer, nextAttempt, nextReauthed, step, slept := None, attempt, reauthed, [Data(jwt)], [];
      var reply := Send(Data(jwt));
      if Success(reply) {
        answer := Some(Ok(reply.body));
      } else if reply.Response? && reply.status == UNAUTHORIZED && !reauthed {
        ghost var session := StartSession(settings, sends, jwt);
        step, slept := step + session.sent, session.sleeps;
        var refreshed := StartGuestSession();
        if refreshed.Err? {
          answer := Some(refreshed);
        } else {
          nextReauthed := true;
        }
      } else if Transient(reply) && attempt + 1 < settings.maxAttempts {
        Sleep(attempt);
        nextAttempt, slept := attempt + 1, [attempt];
      } else {
        answer := Some(Err(FailureOf(reply)));
      }
    }

    /** Send a data request, retrying as long as the rules allow. */
    method SendWithRetry() returns (result: Result<string, Failure>)
      requires Valid()
      modifies this
      ensures Valid()
      ensures var t := SendAuthed(settings, old(sends), 0, false, old(jwt));
              && result == t.result && jwt == t.jwt
              && sent == old(sent) + t.sent && sleeps == old(sleeps) + t.sleeps
      ensures var m := settings.Attempts();
              |sent| - |old(sent)| <= 2 * m + 1 && |sleeps| - |old(sleeps)| <= 2 * (m - 1)
    {
      RequestIsBounded(settings, sends, jwt);
      var attempt, reauthed := 0, false;
      ghost var whole := SendAuthed(settings, sends, 0, false, jwt);
      while true
        invariant Valid() && attempt < settings.Attempts()
        invariant Continues(whole, old(sent), old(sleeps), SendAuthed(settings, sends, attempt, reauthed, jwt), sent, sleeps)
        decreases settings.Attempts() - attempt, !reauthed
      {
        ghost var before, slept := sent, sleeps;
        var answer;
        ghost var step, rested;
        answer, attempt, reauthed, step, rested := Attempt(attempt, reauthed);
        if answer.Some? { return answer.value; }
        Stepped(whole, old(sent), old(sleeps), before, slept, step, rested,
                SendAuthed(settings, sends, attempt, reauthed, jwt));
      }
    }
  }

  /** What is left of a request, done after what was done already, makes up the whole request. */
  ghost predicate Continues(
    whole: Trace, sent0: seq<Sent>, sleeps0: seq<nat>, rest: Trace, sent: seq<Sent>, sleeps: seq<nat>)
  {
    && whole.result == rest.result && whole.jwt == rest.jwt
    && sent0 + whole.sent == sent + rest.sent && sleeps0 + whole.sleeps == sleeps + rest.sleeps
  }

  lemma Regroup<T>(a: seq<T>, b: seq<T>, c: seq<T>)
    ensures (a + b) + c == a + (b + c)
  {
  }

  /** Doing the next part of a request leaves the rest of it. */
  lemma Stepped(
    whole: Trace, sent0: seq<Sent>, sleeps0: seq<nat>, sent: seq<Sent>, sleeps: seq<nat>, step: seq<Sent>, slept: seq<nat>,
    rest: Trace)
    requires Continues(whole, sent0, sleeps0, Prepend(step, slept, rest), sent, sleeps)
    ensures Continues(whole, sent0, sleeps0, rest, sent + step, sleeps + slept)
  {
    Regroup(sent, step, rest.sent);
    Regroup(sleeps, slept, rest.sleeps);
  }
}
