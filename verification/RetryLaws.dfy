/** The exact course of a REST request: at most three runs of sends, what each is owed, and when it gives up. */
module RetryLaws {
  import opened Prelude
  import opened Retry

  predicate Good(reply: Reply) { reply.Response? && 200 <= reply.status <= 299 }

  /** A reply that is owed a retry: no reply at all, too many requests, or a server error. */
  predicate Owed(reply: Reply) { reply.Dropped? || reply.status == 429 || 500 <= reply.status }

  predicate Expired(reply: Reply) { reply.Response? && reply.status == 401 }

  function Repeat(x: Sent, n: nat): (s: seq<Sent>)
    ensures |s| == n
  {
    seq(n, _ => x)
  }

  /** n consecutive attempt numbers from a. */
  function Numbers(a: nat, n: nat): (s: seq<nat>)
    ensures |s| == n
  {
    seq(n, i requires 0 <= i < n => a + i)
  }

  function Less1(n: nat): nat { if n == 0 then 0 else n - 1 }

  ghost predicate AllOwed(c: Settings, at: nat, n: nat) { forall i :: at <= i < at + n ==> Owed(c.network(i)) }

  /** How one loop over attempts goes: n sends of the same thing, each but the last owed a retry and followed by the
      sleep of its number; a bad last reply either is owed none or used up the attempts. */
  ghost predicate OneRun(c: Settings, at: nat, attempt: nat, what: Sent, n: nat, t: Trace) {
    && 1 <= n && attempt + n <= c.Attempts()
    && t.sent == Repeat(what, n) && t.sleeps == Numbers(attempt, n - 1) && AllOwed(c, at, n - 1)
    && var last := c.network(at + n - 1);
       if Good(last) then t.result == Ok(last.body)
       else t.result == Err(if last.Dropped? then Transport else HttpStatus(last.status))
            && (Owed(last) ==> attempt + n == c.Attempts())
  }

  lemma RunOn(c: Settings, at: nat, attempt: nat, what: Sent, n: nat, rest: Trace)
    requires OneRun(c, at + 1, attempt + 1, what, n, rest) && Owed(c.network(at))
    ensures OneRun(c, at, attempt, what, n + 1, Prepend([what], [attempt], rest))
  {
    assert [what] + Repeat(what, n) == Repeat(what, n + 1);
    assert [attempt] + Numbers(attempt + 1, n - 1) == Numbers(attempt, n);
  }

  lemma RunEnds(c: Settings, at: nat, attempt: nat, what: Sent, t: Trace)
    requires attempt < c.Attempts() && t.sent == [what] && t.sleeps == []
    requires var last := c.network(at);
             if Good(last) then t.result == Ok(last.body)
             else t.result == Err(if last.Dropped? then Transport else HttpStatus(last.status))
                  && (Owed(last) ==> c.maxAttempts <= attempt + 1)
    ensures OneRun(c, at, attempt, what, 1, t)
  {
    assert Repeat(what, 1) == [what] && Numbers(attempt, 0) == [];
  }

  lemma {:induction false} PlainIsOneRun(c: Settings, at: nat, attempt: nat, jwt: string) returns (n: nat)
    requires attempt < c.Attempts()
    ensures OneRun(c, at, attempt, GuestStart, n, SendPlain(c, at, attempt, jwt))
        && SendPlain(c, at, attempt, jwt).jwt == jwt
    decreases c.Attempts() - attempt
  {
    hide OneRun;
    var reply := c.network(at);
    if Transient(reply) && attempt + 1 < c.maxAttempts {
      n := PlainIsOneRun(c, at + 1, attempt + 1, jwt);
      RunOn(c, at, attempt, GuestStart, n, SendPlain(c, at + 1, attempt + 1, jwt));
      n := n + 1;
    } else {
      n := 1;
      RunEnds(c, at, attempt, GuestStart, SendPlain(c, at, attempt, jwt));
    }
  }

  /** After the one refresh, or without the need of it, data sends are a run too. */
  lemma {:induction false} RefreshedIsOneRun(c: Settings, at: nat, attempt: nat, jwt: string) returns (n: nat)
    requires attempt < c.Attempts()
    ensures var t := SendAuthed(c, at, attempt, true, jwt); OneRun(c, at, attempt, Data(jwt), n, t) && t.jwt == jwt
    decreases c.Attempts() - attempt
  {
    hide OneRun;
    var reply := c.network(at);
    if Transient(reply) && attempt + 1 < c.maxAttempts {
      n := RefreshedIsOneRun(c, at + 1, attempt + 1, jwt);
      RunOn(c, at, attempt, Data(jwt), n, SendAuthed(c, at + 1, attempt + 1, true, jwt));
      n := n + 1;
    } else {
      n := 1;
      RunEnds(c, at, attempt, Data(jwt), SendAuthed(c, at, attempt, true, jwt));
    }
  }

  /** How a whole request goes. Without an expired token it is one run of data sends. With one, the run stops at
      it, the session is started in a run of its own, and only a fresh token is followed by a second run, which
      takes up the attempts where the first left them and is never refreshed again. */
  ghost predicate Course(
    c: Settings, at: nat, attempt: nat, jwt: string, t: Trace, n: nat, g: nat, m: nat, rest: Trace)
  {
    && 1 <= n && attempt + n <= c.Attempts() && AllOwed(c, at, n - 1)
    && if !Expired(c.network(at + n - 1)) then OneRun(c, at, attempt, Data(jwt), n, t) && t.jwt == jwt
       else Refresh(c, at, attempt, jwt, t, n, g, m, rest)
  }

  ghost predicate Refresh(
    c: Settings, at: nat, attempt: nat, jwt: string, t: Trace, n: nat, g: nat, m: nat, rest: Trace)
    requires 1 <= n
  {
    && 1 <= g <= c.Attempts() && AllOwed(c, at + n, g - 1)
    && var started := c.network(at + n + g - 1);
       var sent, sleeps := Repeat(Data(jwt), n) + Repeat(GuestStart, g), Numbers(attempt, n - 1) + Numbers(0, g - 1);
       if !Good(started) then
         t == Trace(Err(if started.Dropped? then Transport else HttpStatus(started.status)), sent, sleeps, jwt)
         && (Owed(started) ==> g == c.Attempts())
       else
         match c.tokenOf(started.body)
         case None => t == Trace(Err(BadToken), sent, sleeps, jwt)
         case Some(token) =>
           OneRun(c, at + n + g, attempt + n - 1, Data(token), m, rest) && rest.jwt == token
               && t == Prepend(sent, sleeps, rest)
  }

  lemma CourseOn(
    c: Settings, at: nat, attempt: nat, jwt: string, t: Trace, n: nat, g: nat, m: nat, rest: Trace)
    requires Course(c, at + 1, attempt + 1, jwt, t, n, g, m, rest) && Owed(c.network(at))
    ensures Course(c, at, attempt, jwt, Prepend([Data(jwt)], [attempt], t), n + 1, g, m, rest)
  {
    hide OneRun;
    assert at + 1 + n - 1 == at + (n + 1) - 1;
    if !Expired(c.network(at + n)) {
      RunOn(c, at, attempt, Data(jwt), n, t);
    } else {
      assert [Data(jwt)] + Repeat(Data(jwt), n) == Repeat(Data(jwt), n + 1);
      assert [attempt] + Numbers(attempt + 1, n - 1) == Numbers(attempt, n);
      Regroup([Data(jwt)], Repeat(Data(jwt), n), Repeat(GuestStart, g));
      Regroup([attempt], Numbers(attempt + 1, n - 1), Numbers(0, Less1(g)));
      Regroup([Data(jwt)], Repeat(Data(jwt), n) + Repeat(GuestStart, g), rest.sent);
      Regroup([attempt], Numbers(attempt + 1, n - 1) + Numbers(0, Less1(g)), rest.sleeps);
    }
  }

  lemma RefreshedCourse(c: Settings, at: nat, attempt: nat, jwt: string) returns (g: nat, m: nat, rest: Trace)
    requires attempt < c.Attempts() && Expired(c.network(at))
    ensures Course(c, at, attempt, jwt, SendAuthed(c, at, attempt, false, jwt), 1, g, m, rest)
  {
    hide OneRun, Refresh;
    var plain := SendPlain(c, at + 1, 0, jwt);
    g := PlainIsOneRun(c, at + 1, 0, jwt);
    m, rest := 0, plain;
    var session := StartSession(c, at + 1, jwt);
    if session.result.Ok? {
      m := RefreshedIsOneRun(c, at + 1 + |session.sent|, attempt, session.jwt);
      rest := SendAuthed(c, at + 1 + |session.sent|, attempt, true, session.jwt);
    }
    RefreshIs(c, at, attempt, jwt, g, m, rest);
  }

  /** A refresh put together from its session and what follows it. */
  lemma RefreshIs(c: Settings, at: nat, attempt: nat, jwt: string, g: nat, m: nat, rest: Trace)
    requires attempt < c.Attempts() && Expired(c.network(at))
    requires OneRun(c, at + 1, 0, GuestStart, g, SendPlain(c, at + 1, 0, jwt))
        && SendPlain(c, at + 1, 0, jwt).jwt == jwt
    requires var session := StartSession(c, at + 1, jwt);
             session.result.Ok? ==>
               && rest == SendAuthed(c, at + 1 + |session.sent|, attempt, true, session.jwt)
               && OneRun(c, at + 1 + |session.sent|, attempt, Data(session.jwt), m, rest) && rest.jwt == session.jwt
    ensures Refresh(c, at, attempt, jwt, SendAuthed(c, at, attempt, false, jwt), 1, g, m, rest)
  {
    hide OneRun, SendPlain;
    var plain, session := SendPlain(c, at + 1, 0, jwt), StartSession(c, at + 1, jwt);
    RunParts(c, at + 1, 0, GuestStart, g, plain);
    assert Repeat(Data(jwt), 1) == [Data(jwt)] && Numbers(attempt, 0) == [];
    assert [] + Numbers(0, g - 1) == Numbers(0, g - 1);
    assert session.sent == plain.sent && session.sleeps == plain.sleeps;
  }

  lemma RunParts(c: Settings, at: nat, attempt: nat, what: Sent, n: nat, t: Trace)
    requires OneRun(c, at, attempt, what, n, t)
    ensures 1 <= n && attempt + n <= c.Attempts() && AllOwed(c, at, n - 1)
    ensures t.sent == Repeat(what, n) && t.sleeps == Numbers(attempt, n - 1)
    ensures var last := c.network(at + n - 1);
            if Good(last) then t.result == Ok(last.body)
            else t.result == Err(if last.Dropped? then Transport else HttpStatus(last.status))
                 && (Owed(last) ==> attempt + n == c.Attempts())
  {
  }

  /** A request's course, for every network: which sends are made and under which token, after which replies and
      sleeps, and with what result. It is given up only on a reply that is owed no retry or with the attempts
      used up. */
  lemma {:induction false} RequestTakesItsCourse(c: Settings, at: nat, attempt: nat, jwt: string)
    returns (n: nat, g: nat, m: nat, rest: Trace)
    requires attempt < c.Attempts()
    ensures Course(c, at, attempt, jwt, SendAuthed(c, at, attempt, false, jwt), n, g, m, rest)
    decreases c.Attempts() - attempt
  {
    hide OneRun, Course;
    var reply, t := c.network(at), SendAuthed(c, at, attempt, false, jwt);
    n, g, m, rest := 1, 0, 0, t;
    if Expired(reply) {
      g, m, rest := RefreshedCourse(c, at, attempt, jwt);
    } else if Transient(reply) && attempt + 1 < c.maxAttempts {
      n, g, m, rest := RequestTakesItsCourse(c, at + 1, attempt + 1, jwt);
      CourseOn(c, at, attempt, jwt, SendAuthed(c, at + 1, attempt + 1, false, jwt), n, g, m, rest);
      n := n + 1;
    } else {
      RunEnds(c, at, attempt, Data(jwt), t);
      EndsAtOnce(c, at, attempt, jwt, t);
    }
  }

  lemma EndsAtOnce(c: Settings, at: nat, attempt: nat, jwt: string, t: Trace)
    requires OneRun(c, at, attempt, Data(jwt), 1, t) && !Expired(c.network(at)) && t.jwt == jwt
    ensures Course(c, at, attempt, jwt, t, 1, 0, 0, t)
  {
  }
}
