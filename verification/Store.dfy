/** The agent's in-memory projection of its run, and the equity series the dashboard derives from it. */
module Store {
  import opened Prelude
  import opened Domain
  import opened Walk
  import opened Sorting

  const MAX_RECENT_ERRORS := 50

  datatype PositionStatus = Committed | Settled

  datatype CommitView = CommitView(index: nat, onChainIndex: nat, commitHash: seq<int>, decision: Decision, committedAtMs: int)

  datatype SettleView = SettleView(
    index: nat, result: Outcome, won: bool, pnl: int, settledSeq: int, settledAtMs: int, entryOddsProven: bool)

  datatype PositionEntry = PositionEntry(commit: CommitView, status: PositionStatus, settlement: Option<SettleView>)

  datatype ErrorView = ErrorView(stage: string, index: nat)

  /** The error log after one more error: the newest fifty are kept. */
  function WithError(errors: seq<ErrorView>, e: ErrorView): seq<ErrorView> {
    var all := errors + [e];
    if |all| <= MAX_RECENT_ERRORS then all else all[|all| - MAX_RECENT_ERRORS..]
  }

  /** The log keeps the newest of everything it was told, up to fifty, the latest error last. */
  lemma ErrorsKeepTheNewest(errors: seq<ErrorView>, e: ErrorView)
    ensures var kept, all := WithError(errors, e), errors + [e];
            && |kept| == Min(|all|, 50) && kept == all[|all| - |kept|..] && kept[|kept| - 1] == e
  {
  }

  function PnlOf(e: PositionEntry): int { if e.settlement.Some? then e.settlement.value.pnl else 0 }

  /** Settled PnL summed over the positions with an index below n. */
  function TotalPnl(positions: map<nat, PositionEntry>, n: nat): int {
    if n == 0 then 0 else TotalPnl(positions, n - 1) + if n - 1 in positions then PnlOf(positions[n - 1]) else 0
  }

  function SettledCount(positions: map<nat, PositionEntry>, n: nat): nat {
    if n == 0 then 0
    else SettledCount(positions, n - 1) + if n - 1 in positions && positions[n - 1].settlement.Some? then 1 else 0
  }

  lemma {:induction false} TotalsAfterUpdate(positions: map<nat, PositionEntry>, n: nat, k: nat, e: PositionEntry)
    requires k < n
    ensures var was := if k in positions then PnlOf(positions[k]) else 0;
            TotalPnl(positions[k := e], n) == TotalPnl(positions, n) + PnlOf(e) - was
    ensures var was := if k in positions && positions[k].settlement.Some? then 1 else 0;
            SettledCount(positions[k := e], n)
            == SettledCount(positions, n) + (if e.settlement.Some? then 1 else 0) - was
  {
    if k < n - 1 {
      TotalsAfterUpdate(positions, n - 1, k, e);
    } else {
      TotalsUntouchedBelow(positions, n - 1, k, e);
    }
  }

  lemma {:induction false} TotalsUntouchedBelow(positions: map<nat, PositionEntry>, n: nat, k: nat, e: PositionEntry)
    requires n <= k
    ensures TotalPnl(positions[k := e], n) == TotalPnl(positions, n)
    ensures SettledCount(positions[k := e], n) == SettledCount(positions, n)
  {
    if n > 0 {
      TotalsUntouchedBelow(positions, n - 1, k, e);
    }
  }

  /** A position index beyond every stored one adds nothing to the totals. */
  lemma {:induction false} TotalsPastEnd(positions: map<nat, PositionEntry>, n: nat, m: nat)
    requires n <= m && forall k :: k in positions ==> k < n
    ensures TotalPnl(positions, m) == TotalPnl(positions, n)
    ensures SettledCount(positions, m) == SettledCount(positions, n)
  {
    if n < m {
      TotalsPastEnd(positions, n, m - 1);
    }
  }

  class AgentStateStore {
    const startingBankroll: int
    var settlesCount: nat
    var errorsCount: nat
    var realizedPnl: int
    var positions: map<nat, PositionEntry>
    var recentErrors: seq<ErrorView>
    /** One past the largest index ever recorded. */
    ghost var limit: nat

    ghost predicate Valid()
      reads this
    {
      && (forall k :: k in positions ==> k < limit && positions[k].commit.index == k)
      && (forall k :: k in positions ==> (positions[k].status == Settled <==> positions[k].settlement.Some?))
      && |recentErrors| <= MAX_RECENT_ERRORS
      && |recentErrors| <= errorsCount
    }

    /** The running counters are the totals over the stored positions. */
    ghost predicate Reconciled()
      reads this
    {
      realizedPnl == TotalPnl(positions, limit) && settlesCount == SettledCount(positions, limit)
    }

    constructor (startingBankroll: int)
      ensures Valid() && Reconciled()
      ensures this.startingBankroll == startingBankroll && positions == map[] && errorsCount == 0
    {
      this.startingBankroll := startingBankroll;
      settlesCount, errorsCount, realizedPnl := 0, 0, 0;
      positions, recentErrors, limit := map[], [], 0;
    }

    /** Recording a commit keeps the counters exact when the index is new; a repeated index would drop a
        settlement from the map but not from the counters. */
    method RecordCommit(commit: CommitView)
      requires Valid()
      modifies this`positions, this`limit
      ensures Valid() && limit == Max(old(limit), commit.index + 1)
      ensures positions == old(positions)[commit.index := PositionEntry(commit, Committed, None)]
      ensures old(Reconciled()) && commit.index !in old(positions) ==> Reconciled()
    {
      TotalsPastEnd(positions, limit, Max(limit, commit.index + 1));
      limit := Max(limit, commit.index + 1);
      TotalsAfterUpdate(positions, limit, commit.index, PositionEntry(commit, Committed, None));
      positions := positions[commit.index := PositionEntry(commit, Committed, None)];
    }

    /** There is no guard against settling twice: starting from exact counters, they stay exact exactly when
        the position had no settlement yet. */
    method MarkSettled(index: nat, settlement: SettleView)
      requires Valid()
      modifies this
      ensures Valid() && limit == old(limit)
      ensures index !in old(positions) ==>
                && positions == old(positions) && realizedPnl == old(realizedPnl)
                && settlesCount == old(settlesCount) && errorsCount == old(errorsCount) + 1
                && recentErrors == WithError(old(recentErrors), ErrorView("settle", index))
      ensures index in old(positions) ==>
                && positions == old(positions)[index := PositionEntry(old(positions)[index].commit, Settled, Some(settlement))]
                && realizedPnl == old(realizedPnl) + settlement.pnl && settlesCount == old(settlesCount) + 1
                && errorsCount == old(errorsCount) && recentErrors == old(recentErrors)
      ensures old(Reconciled()) ==>
                (Reconciled() <==> index !in old(positions) || old(positions)[index].settlement.None?)
    {
      if index !in positions {
        RecordError("settle", index);
        return;
      }
      var entry := PositionEntry(positions[index].commit, Settled, Some(settlement));
      TotalsAfterUpdate(positions, limit, index, entry);
      positions := positions[index := entry];
      settlesCount := settlesCount + 1;
      realizedPnl := realizedPnl + settlement.pnl;
    }

    method MarkOddsProven(index: nat)
      requires Valid()
      modifies this
      ensures Valid() && limit == old(limit)
      ensures realizedPnl == old(realizedPnl) && settlesCount == old(settlesCount)
      ensures old(Reconciled()) ==> Reconciled()
      ensures index in old(positions) && old(positions)[index].settlement.Some? ==>
                var e := old(positions)[index];
                && errorsCount == old(errorsCount) && recentErrors == old(recentErrors)
                && positions == old(positions)[index := e.(settlement := Some(e.settlement.value.(entryOddsProven := true)))]
      ensures index !in old(positions) || old(positions)[index].settlement.None? ==>
                positions == old(positions) && errorsCount == old(errorsCount) + 1
                && recentErrors == WithError(old(recentErrors), ErrorView("prove-odds", index))
    {
      if index !in positions || positions[index].settlement.None? {
        RecordError("prove-odds", index);
        return;
      }
      var e := positions[index];
      var proven := e.(settlement := Some(e.settlement.value.(entryOddsProven := true)));
      TotalsAfterUpdate(positions, limit, index, proven);
      positions := positions[index := proven];
    }

    /** The log keeps the most recent errors and counts all of them. */
    method RecordError(stage: string, index: nat)
      requires Valid()
      modifies this`errorsCount, this`recentErrors
      ensures Valid() && errorsCount == old(errorsCount) + 1
      ensures recentErrors == WithError(old(recentErrors), ErrorView(stage, index))
    {
      errorsCount := errorsCount + 1;
      recentErrors := recentErrors + [ErrorView(stage, index)];
      ghost var all := recentErrors;
      ghost var dropped := 0;
      while |recentErrors| > MAX_RECENT_ERRORS
        invariant dropped <= |all| && recentErrors == all[dropped..]
        invariant dropped > 0 ==> MAX_RECENT_ERRORS <= |recentErrors|
        invariant unchanged(`positions) && errorsCount == old(errorsCount) + 1
      {
        recentErrors := recentErrors[1..];
        dropped := dropped + 1;
      }
    }
  }

  // ---------------------------------------------------------------------------------------------
  // The dashboard's equity series

  /** A settled position as the series sees it, keyed by settle time and then commit index. */
  datatype SettlePoint = SettlePoint(pnl: int, won: bool)

  type SettledEntry = Keyed<SettlePoint>

  /** The settled positions below index n, in index order. */
  function SettledEntries(positions: map<nat, PositionEntry>, n: nat): seq<SettledEntry> {
    if n == 0 then []
    else
      var rest := SettledEntries(positions, n - 1);
      if n - 1 in positions && positions[n - 1].settlement.Some? then
        var s := positions[n - 1].settlement.value;
        rest + [Keyed(s.settledAtMs, n - 1, 0, SettlePoint(s.pnl, s.won))]
      else rest
  }

  /** The series is drawn from the settled positions, each once, keyed by settle time and then commit index. */
  lemma {:induction false} EntriesAreTheSettled(positions: map<nat, PositionEntry>, n: nat, e: SettledEntry)
    ensures e in SettledEntries(positions, n)
       <==> exists k: nat :: k < n && k in positions && positions[k].settlement.Some?
                             && var s := positions[k].settlement.value;
                                e == Keyed(s.settledAtMs, k, 0, SettlePoint(s.pnl, s.won))
  {
    if n > 0 {
      EntriesAreTheSettled(positions, n - 1, e);
    }
  }

  function EntryPnls(entries: seq<SettledEntry>): seq<int> {
    seq(|entries|, i requires 0 <= i < |entries| => entries[i].item.pnl)
  }

  function EntryTotal(entries: seq<SettledEntry>): int { Sum(EntryPnls(entries)) }

  lemma EntryTotalSnoc(entries: seq<SettledEntry>, e: SettledEntry)
    ensures EntryTotal(entries + [e]) == EntryTotal(entries) + e.item.pnl
  {
    assert EntryPnls(entries + [e]) == EntryPnls(entries) + [e.item.pnl];
    SumSnoc(EntryPnls(entries), e.item.pnl);
  }

  lemma {:induction false} EntryTotalSplit(a: seq<SettledEntry>, b: seq<SettledEntry>)
    ensures EntryTotal(a + b) == EntryTotal(a) + EntryTotal(b)
  {
    if |b| == 0 {
      assert a + b == a;
    } else {
      var front, last := b[..|b| - 1], b[|b| - 1];
      EntryTotalSplit(a, front);
      EntryTotalSnoc(a + front, last);
      EntryTotalSnoc(front, last);
      assert a + b == (a + front) + [last] && b == front + [last];
    }
  }

  lemma TakeOut(a: seq<SettledEntry>, b: seq<SettledEntry>) returns (left: seq<SettledEntry>, right: seq<SettledEntry>)
    requires multiset(a) == multiset(b) && |a| > 0
    ensures b == left + [a[|a| - 1]] + right
    ensures multiset(a[..|a| - 1]) == multiset(left + right)
  {
    var last := a[|a| - 1];
    assert a == a[..|a| - 1] + [last];
    assert last in multiset(b);
    var k :| 0 <= k < |b| && b[k] == last;
    left, right := b[..k], b[k + 1..];
    assert b == left + [last] + right;
    assert multiset(b) - multiset{last} == multiset(left) + multiset(right);
    assert multiset(a) - multiset{last} == multiset(a[..|a| - 1]);
  }

  /** Any rearrangement of the settlements has the same total. */
  lemma {:induction false} RearrangementKeepsTotal(a: seq<SettledEntry>, b: seq<SettledEntry>)
    requires multiset(a) == multiset(b)
    ensures EntryTotal(a) == EntryTotal(b)
  {
    if |a| == 0 {
      assert |multiset(b)| == 0;
    } else {
      var front, last := a[..|a| - 1], a[|a| - 1];
      var left, right := TakeOut(a, b);
      RearrangementKeepsTotal(front, left + right);
      assert a == front + [last];
      EntryTotalSnoc(front, last);
      EntryTotalSplit(left + [last], right);
      EntryTotalSnoc(left, last);
      EntryTotalSplit(left, right);
    }
  }

  lemma {:induction false} EntriesTotal(positions: map<nat, PositionEntry>, n: nat)
    ensures EntryTotal(SettledEntries(positions, n)) == TotalPnl(positions, n)
  {
    if n > 0 {
      EntriesTotal(positions, n - 1);
      if n - 1 in positions && positions[n - 1].settlement.Some? {
        var s := positions[n - 1].settlement.value;
        EntryTotalSnoc(SettledEntries(positions, n - 1), Keyed(s.settledAtMs, n - 1, 0, SettlePoint(s.pnl, s.won)));
      }
    }
  }

  lemma {:induction false} EntriesAreIndexed(positions: map<nat, PositionEntry>, n: nat)
    ensures forall e :: e in SettledEntries(positions, n) ==> e.minor < n
    ensures DistinctKeys(SettledEntries(positions, n))
  {
    if n > 0 {
      EntriesAreIndexed(positions, n - 1);
    }
  }

  datatype EquitySeries = EquitySeries(points: seq<int>, min: int, max: int)

  /** The points are the walk, and min and max are its extremes, the start included. */
  ghost predicate SeriesIsWalk(series: EquitySeries, start: int, pnls: seq<int>) {
    && |series.points| == |pnls|
    && (forall k :: 0 <= k < |pnls| ==> series.points[k] == Level(start, pnls, k + 1))
    && (forall k :: 0 <= k <= |pnls| ==> series.min <= Level(start, pnls, k) <= series.max)
    && (exists k :: 0 <= k <= |pnls| && series.min == Level(start, pnls, k))
    && (exists k :: 0 <= k <= |pnls| && series.max == Level(start, pnls, k))
  }

  /** Track the running bankroll and its range over PnLs in settle order. */
  method WalkSeries(start: int, pnls: seq<int>) returns (series: EquitySeries)
    ensures SeriesIsWalk(series, start, pnls)
  {
    var running, min, max := start, start, start;
    var points := [];
    assert Level(start, pnls, 0) == start;
    for i := 0 to |pnls|
      invariant |points| == i && running == Level(start, pnls, i)
      invariant forall k :: 0 <= k < i ==> points[k] == Level(start, pnls, k + 1)
      invariant forall k :: 0 <= k <= i ==> min <= Level(start, pnls, k) <= max
      invariant exists k :: 0 <= k <= i && min == Level(start, pnls, k)
      invariant exists k :: 0 <= k <= i && max == Level(start, pnls, k)
    {
      running := running + pnls[i];
      assert running == Level(start, pnls, i + 1);
      if running < min { min := running; }
      if running > max { max := running; }
      points := points + [running];
    }
    series := EquitySeries(points, min, max);
  }

  /** One past the largest index of a stored position. */
  method IndexBound(positions: map<nat, PositionEntry>) returns (bound: nat)
    ensures forall k :: k in positions ==> k < bound
  {
    bound := 0;
    var left := positions.Keys;
    while left != {}
      invariant left <= positions.Keys && forall k :: k in positions && k !in left ==> k < bound
      decreases |left|
    {
      var k :| k in left;
      bound, left := Max(bound, k + 1), left - {k};
    }
  }

  lemma {:induction false} EntriesPastEnd(positions: map<nat, PositionEntry>, n: nat, m: nat)
    requires n <= m && forall k :: k in positions ==> k < n
    ensures SettledEntries(positions, m) == SettledEntries(positions, n)
  {
    if n < m {
      EntriesPastEnd(positions, n, m - 1);
    }
  }

  /** Two bounds on the indexes see the same settled positions and the same total. */
  lemma BoundsAgree(positions: map<nat, PositionEntry>, n: nat, m: nat)
    requires forall k :: k in positions ==> k < n && k < m
    ensures SettledEntries(positions, m) == SettledEntries(positions, n)
    ensures TotalPnl(positions, m) == TotalPnl(positions, n)
  {
    if n <= m {
      EntriesPastEnd(positions, n, m);
      TotalsPastEnd(positions, n, m);
    } else {
      EntriesPastEnd(positions, m, n);
      TotalsPastEnd(positions, m, n);
    }
  }

  /** The dashboard's equity line: settled positions in settle-time order, commit index breaking ties. Its last
      point is the start plus the total over the stored positions, whatever order they settled in. */
  method BuildEquitySeries(start: int, positions: map<nat, PositionEntry>, ghost n: nat) returns (series: EquitySeries)
    requires forall k :: k in positions ==> k < n
    ensures var entries := SettledEntries(positions, n);
            && Ordered(Sort(entries)) && multiset(Sort(entries)) == multiset(entries)
            && SeriesIsWalk(series, start, EntryPnls(Sort(entries)))
    ensures (if |series.points| == 0 then start else series.points[|series.points| - 1]) == start + TotalPnl(positions, n)
  {
    var bound := IndexBound(positions);
    var entries := SettledEntries(positions, bound);
    BoundsAgree(positions, n, bound);
    EntriesAreIndexed(positions, bound);
    SortOrders(entries);
    SortPermutes(entries);
    var ordered := Sort(entries);
    var pnls := EntryPnls(ordered);
    series := WalkSeries(start, pnls);
    EntriesTotal(positions, bound);
    RearrangementKeepsTotal(ordered, entries);
    assert Level(start, pnls, |pnls|) == start + TotalPnl(positions, n);
  }

  /** The dashboard's line ends at the bankroll the snapshot reports. */
  method SnapshotSeries(store: AgentStateStore) returns (series: EquitySeries, bankroll: int)
    requires store.Valid() && store.Reconciled()
    ensures bankroll == store.startingBankroll + store.realizedPnl
    ensures |series.points| == 0 ==> bankroll == store.startingBankroll
    ensures |series.points| > 0 ==> series.points[|series.points| - 1] == bankroll
  {
    bankroll := store.startingBankroll + store.realizedPnl;
    series := BuildEquitySeries(store.startingBankroll, store.positions, store.limit);
  }
}
