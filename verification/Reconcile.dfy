/** The store's books against the ledger's own: over a run of sink calls in which nobody else settles and every
    settle that landed is heard of, both realize the same PnL. */
module Reconcile {
  import opened Prelude
  import opened AccountDecode
  import opened Bytes
  import opened LedgerModel
  import opened LedgerProofs
  import opened Sink
  import Store

  // ---------------------------------------------------------------------------------------------
  // PnL over a set of decisions

  function PnlAt(decisions: map<nat, DecisionAccount>, i: nat): int {
    if i in decisions then decisions[i].pnl else 0
  }

  /** The PnL of the decisions below n with an index in a set. */
  function PnlAmong(decisions: map<nat, DecisionAccount>, n: nat, ids: set<nat>): int {
    if n == 0 then 0 else PnlAmong(decisions, n - 1, ids) + if n - 1 in ids then PnlAt(decisions, n - 1) else 0
  }

  lemma {:induction false} PnlAmongOneMore(decisions: map<nat, DecisionAccount>, n: nat, ids: set<nat>, x: nat)
    requires x !in ids
    ensures PnlAmong(decisions, n, ids + {x}) == PnlAmong(decisions, n, ids) + if x < n then PnlAt(decisions, x) else 0
  {
    if n > 0 {
      PnlAmongOneMore(decisions, n - 1, ids, x);
    }
  }

  /** Unsettled decisions have no PnL, so the settled ones make up the total. */
  lemma {:induction false} SettledMakeTheTotal(w: World, l: LedgerModel.Ledger, n: nat)
    requires Dense(w, l)
    ensures TotalPnl(l.decisions, n) == PnlAmong(l.decisions, n, SettledIds(l))
  {
    if n > 0 {
      SettledMakeTheTotal(w, l, n - 1);
    }
  }

  /** What was settled at the start keeps its PnL. */
  lemma {:induction false} OldPnlStays(w: World, start: LedgerModel.Ledger, end: LedgerModel.Ledger, n: nat)
    requires Dense(w, start) && LedgerEvolves(start, end)
    ensures PnlAmong(end.decisions, n, SettledIds(start)) == TotalPnl(start.decisions, n)
  {
    if n > 0 {
      OldPnlStays(w, start, end, n - 1);
      if n - 1 in start.decisions {
        assert Evolves(start.decisions[n - 1], end.decisions[n - 1]);
      }
    }
  }

  lemma {:induction false} NothingPastTheEnd(w: World, l: LedgerModel.Ledger, n: nat)
    requires Dense(w, l) && l.strategy.decisionsCount <= n
    ensures TotalPnl(l.decisions, n) == TotalPnl(l.decisions, l.strategy.decisionsCount)
  {
    if l.strategy.decisionsCount < n {
      NothingPastTheEnd(w, l, n - 1);
    }
  }

  // ---------------------------------------------------------------------------------------------
  // What a run settles

  /** Every remembered decision is newer than the start, and whatever has been settled since is remembered. */
  ghost predicate NewlySettled(start: LedgerModel.Ledger, now: Moment) {
    && LedgerEvolves(start, now.ledger)
    && (forall k :: k in now.committed ==> now.committed[k].onChainIndex !in start.decisions)
    && (forall i :: i in SettledIds(now.ledger) ==>
          i in SettledIds(start) || exists k :: k in now.committed && now.committed[k].onChainIndex == i)
  }

  lemma NewlySettledStep(
    w: World, signer: seq<byte>, start: LedgerModel.Ledger, now: Moment, next: Moment, event: SinkEvent,
    e: Surroundings, landed: bool)
    requires Complete(e) && NewlySettled(start, now) && OthersDoNotSettle(e)
    requires Advances(w, signer, now, next, event, e, landed)
    ensures NewlySettled(start, next)
  {
    hide HeardOfCommit, Evolves, NoSettles, OthersDoNotSettle;
    EvolvesOn(start, now.ledger, next.ledger);
    forall i | i in SettledIds(next.ledger) && i !in SettledIds(start)
      ensures exists k :: k in next.committed && next.committed[k].onChainIndex == i
    {
      var k := if i in SettledIds(now.ledger) then KeyOf(now.committed, i) else IndexOf(event);
      assert k in next.committed && next.committed[k].onChainIndex == i;
    }
  }

  ghost function KeyOf(committed: map<nat, CommittedReveal>, i: nat): (k: nat)
    requires exists k :: k in committed && committed[k].onChainIndex == i
    ensures k in committed && committed[k].onChainIndex == i
  {
    var k :| k in committed && committed[k].onChainIndex == i; k
  }

  lemma {:induction false} RunSettlesOurs(
    w: World, signer: seq<byte>, program: seq<byte>, history: seq<Moment>, events: seq<SinkEvent>,
    surroundings: seq<Surroundings>, landings: seq<bool>, n: nat)
    requires Happened(w, signer, program, history, events, surroundings, landings) && n <= |landings|
    requires history[0].committed == map[]
    requires forall j :: 0 <= j < |surroundings| ==> OthersDoNotSettle(surroundings[j])
    ensures NewlySettled(history[0].ledger, history[n])
  {
    if n > 0 {
      RunSettlesOurs(w, signer, program, history, events, surroundings, landings, n - 1);
      NewlySettledStep(w, signer, history[0].ledger, history[n - 1], history[n], events[n - 1], surroundings[n - 1],
                       landings[n - 1]);
    }
  }

  // ---------------------------------------------------------------------------------------------
  // The two totals

  /** The on-chain indexes of the positions below m that a store shows settled. */
  ghost function ShownIds(committed: map<nat, CommittedReveal>, positions: map<nat, Store.PositionEntry>, m: nat): set<nat> {
    set k | k in committed && k < m && Shown(positions, k) :: committed[k].onChainIndex
  }

  lemma ShownIdsStep(committed: map<nat, CommittedReveal>, positions: map<nat, Store.PositionEntry>, k: nat)
    requires OneEach(committed)
    ensures k in committed && Shown(positions, k) ==>
              && ShownIds(committed, positions, k + 1) == ShownIds(committed, positions, k) + {committed[k].onChainIndex}
              && committed[k].onChainIndex !in ShownIds(committed, positions, k)
    ensures !(k in committed && Shown(positions, k)) ==>
              ShownIds(committed, positions, k + 1) == ShownIds(committed, positions, k)
  {
    var upTo, below := ShownIds(committed, positions, k + 1), ShownIds(committed, positions, k);
    forall i | i in upTo
      ensures i in below || (k in committed && Shown(positions, k) && i == committed[k].onChainIndex)
    {
      var j :| j in committed && j < k + 1 && Shown(positions, j) && committed[j].onChainIndex == i;
      assert j < k ==> i in below;
    }
    assert below <= upTo;
  }

  /** The shown positions add their own PnL to whatever else is counted. */
  lemma {:induction false} ShownAddUp(
    l: LedgerModel.Ledger, committed: map<nat, CommittedReveal>, positions: map<nat, Store.PositionEntry>,
    before: set<nat>, n: nat, m: nat)
    requires OneEach(committed) && AllBacked(l, committed, positions)
    requires forall k :: k in committed ==> committed[k].onChainIndex !in before
    requires forall i: nat :: i in l.decisions ==> i < n
    ensures PnlAmong(l.decisions, n, before + ShownIds(committed, positions, m))
         == PnlAmong(l.decisions, n, before) + Store.TotalPnl(positions, m)
  {
    if m == 0 {
      assert before + ShownIds(committed, positions, 0) == before;
    } else {
      var k := m - 1;
      ShownAddUp(l, committed, positions, before, n, k);
      ShownIdsStep(committed, positions, k);
      if Shown(positions, k) {
        var earlier := before + ShownIds(committed, positions, k);
        PnlAmongOneMore(l.decisions, n, earlier, committed[k].onChainIndex);
        assert before + ShownIds(committed, positions, m) == earlier + {committed[k].onChainIndex};
      }
    }
  }

  lemma AllSettledAccountedFor(
    start: LedgerModel.Ledger, now: Moment, positions: map<nat, Store.PositionEntry>, limit: nat)
    requires NewlySettled(start, now) && AllBacked(now.ledger, now.committed, positions)
    requires ShowsAll(now.ledger, now.committed, positions) && forall k :: k in positions ==> k < limit
    ensures SettledIds(now.ledger) == SettledIds(start) + ShownIds(now.committed, positions, limit)
  {
    var shown := ShownIds(now.committed, positions, limit);
    EvolvingKeepsSettled(start, now.ledger);
    forall i | i in SettledIds(now.ledger) && i !in SettledIds(start)
      ensures i in shown
    {
      var k :| k in now.committed && now.committed[k].onChainIndex == i;
      assert OnChain(now.ledger, now.committed, k);
    }
    forall i | i in shown
      ensures i in SettledIds(now.ledger)
    {
      var k :| k in now.committed && k < limit && Shown(positions, k) && now.committed[k].onChainIndex == i;
    }
  }

  /** The ledger's realized PnL moves by exactly what the store shows. */
  lemma LedgerMovesWithStore(
    w: World, start: LedgerModel.Ledger, now: Moment, positions: map<nat, Store.PositionEntry>, limit: nat)
    requires Accounted(w, start) && Accounted(w, now.ledger) && NewlySettled(start, now)
    requires OneEach(now.committed) && AllBacked(now.ledger, now.committed, positions)
    requires ShowsAll(now.ledger, now.committed, positions) && forall k :: k in positions ==> k < limit
    ensures now.ledger.strategy.realizedPnl - start.strategy.realizedPnl == Store.TotalPnl(positions, limit)
  {
    var n := now.ledger.strategy.decisionsCount;
    SettledMakeTheTotal(w, now.ledger, n);
    OldPnlStays(w, start, now.ledger, n);
    NothingPastTheEnd(w, start, n);
    AllSettledAccountedFor(start, now, positions, limit);
    ShownAddUp(now.ledger, now.committed, positions, SettledIds(start), n, limit);
  }
}
