/** Where every field of the fixed layouts stands, byte by byte, and what the range checks let through. */
module LayoutLaws {
  import opened Prelude
  import opened Bytes
  import opened Borsh
  import opened AccountDecode

  // ---------------------------------------------------------------------------------------------
  // Bytes of a number

  lemma DividesTwice(v: int, m: nat)
    requires 0 < m
    ensures v / 256 / m == v / (256 * m)
  {
    var q := v / 256;
    var a, r := q / m, q % m;
    assert v == 256 * (a * m + r) + v % 256;
    QuotientIs(v, 256 * m, a, 256 * r + v % 256);
  }

  lemma QuotientIs(v: int, d: nat, a: int, r: int)
    requires 0 < d && v == a * d + r && 0 <= r < d
    ensures v / d == a
  {
    var b, s := v / d, v % d;
    assert v == b * d + s && 0 <= s < d;
    SameQuotient(d, a, r, b, s);
  }

  lemma SameQuotient(d: nat, a: int, r: int, b: int, s: int)
    requires a * d + r == b * d + s && 0 <= r < d && 0 <= s < d
    ensures a == b
  {
    var gap := a - b;
    MultiplesAreFar(gap, d);
    assert gap * d == s - r;
  }

  lemma MultiplesAreFar(gap: int, d: nat)
    ensures gap >= 1 ==> d <= gap * d
    ensures gap <= -1 ==> gap * d <= 0 - d
  {
    if gap <= -1 {
      assert (gap + 1) * d <= 0;
    }
  }

  /** Byte k of a number is its k-th digit to the base 256, the lowest first, in two's complement. */
  lemma {:induction false} LittleEndianDigits(n: nat, v: int, k: nat)
    requires k < n
    ensures LittleEndian(n, v)[k] == v / Pow256(k) % 256
  {
    if k > 0 {
      LittleEndianDigits(n - 1, v / 256, k - 1);
      DividesTwice(v, Pow256(k - 1));
    }
  }

  // ---------------------------------------------------------------------------------------------
  // Fields in a row

  /** The bytes stand at an offset. */
  predicate At(s: seq<byte>, offset: nat, bytes: seq<byte>) {
    offset + |bytes| <= |s| && s[offset..offset + |bytes|] == bytes
  }

  function Row(fields: seq<seq<byte>>): seq<byte> {
    if |fields| == 0 then [] else Row(fields[..|fields| - 1]) + fields[|fields| - 1]
  }

  /** Each field stands where the ones before it end. */
  ghost predicate Laid(s: seq<byte>, fields: seq<seq<byte>>, offsets: seq<nat>) {
    && |offsets| == |fields| + 1 && offsets[0] == 0
    && (forall i :: 0 <= i < |fields| ==> offsets[i + 1] == offsets[i] + |fields[i]|)
    && (forall i :: 0 <= i < |fields| ==> At(s, offsets[i], fields[i]))
  }

  lemma {:induction false} RowIsLaid(fields: seq<seq<byte>>, offsets: seq<nat>, tail: seq<byte>)
    requires |offsets| == |fields| + 1 && offsets[0] == 0
    requires forall i :: 0 <= i < |fields| ==> offsets[i + 1] == offsets[i] + |fields[i]|
    ensures Laid(Row(fields) + tail, fields, offsets) && |Row(fields)| == offsets[|fields|]
  {
    if |fields| > 0 {
      var n := |fields| - 1;
      var front := fields[..n];
      RowIsLaid(front, offsets[..n + 1], fields[n] + tail);
      var s := Row(fields) + tail;
      assert s == Row(front) + (fields[n] + tail);
      forall i | 0 <= i < |fields|
        ensures At(s, offsets[i], fields[i])
      {
        if i < n {
          assert At(s, offsets[..n + 1][i], front[i]);
        } else {
          assert s[|Row(front)|..|Row(front)| + |fields[n]|] == fields[n];
        }
      }
    }
  }

  lemma Joined(a: seq<byte>, b: seq<byte>, c: seq<byte>)
    ensures (a + b) + c == a + (b + c)
  {
  }

  /** A row built field by field around what follows it. */
  function Nest(fields: seq<seq<byte>>, tail: seq<byte>): seq<byte> {
    if |fields| == 0 then tail else fields[0] + Nest(fields[1..], tail)
  }

  lemma {:induction false} NestIsRow(fields: seq<seq<byte>>, tail: seq<byte>)
    ensures Nest(fields, tail) == Row(fields) + tail
  {
    if |fields| > 0 {
      NestIsRow(fields[1..], tail);
      RowFromFront(fields);
      Joined(fields[0], Row(fields[1..]), tail);
    }
  }

  lemma {:induction false} RowFromFront(fields: seq<seq<byte>>)
    requires |fields| > 0
    ensures Row(fields) == fields[0] + Row(fields[1..])
  {
    var n := |fields| - 1;
    if n > 0 {
      RowFromFront(fields[..n]);
      assert fields[..n][1..] == fields[1..][..n - 1];
      Joined(fields[0], Row(fields[1..][..n - 1]), fields[n]);
    } else {
      assert fields[1..] == [] && fields[..n] == [];
    }
  }

  // ---------------------------------------------------------------------------------------------
  // The layouts

  function RevealFields(r: RevealArgs): seq<seq<byte>> {
    [r.strategy, LittleEndian(8, r.index), LittleEndian(8, r.fixtureId), LittleEndian(2, r.market), LittleEndian(1,
        r.side),
     LittleEndian(2, r.fairProbBps), LittleEndian(4, r.entryOddsMilli), LittleEndian(8, r.stake), r.signalHash, r.nonce]
  }

  lemma RevealNests(r: RevealArgs, tail: seq<byte>)
    ensures PutReveal(r, tail) == Nest(RevealFields(r), tail)
  {
    hide LittleEndian;
    var f := RevealFields(r);
    Unnest10(f, tail);
  }

  lemma Unnest10(f: seq<seq<byte>>, tail: seq<byte>)
    requires |f| == 10
    ensures Nest(f, tail) == f[0] + (f[1] + (f[2] + (f[3] + (f[4] + Nest(f[5..], tail)))))
    ensures Nest(f[5..], tail) == f[5] + (f[6] + (f[7] + (f[8] + (f[9] + tail))))
  {
    Unnest5(f, tail);
    Unnest5(f[5..], tail);
    assert f[5..][5..] == [];
  }

  lemma Unnest5(f: seq<seq<byte>>, tail: seq<byte>)
    requires |f| >= 5
    ensures Nest(f, tail) == f[0] + (f[1] + (f[2] + (f[3] + (f[4] + Nest(f[5..], tail)))))
  {
    assert f[1..][1..] == f[2..] && f[2..][1..] == f[3..] && f[3..][1..] == f[4..] && f[4..][1..] == f[5..];
    assert Nest(f, tail) == f[0] + Nest(f[1..], tail);
    assert Nest(f[1..], tail) == f[1] + Nest(f[2..], tail);
    assert Nest(f[2..], tail) == f[2] + Nest(f[3..], tail);
    assert Nest(f[3..], tail) == f[3] + Nest(f[4..], tail);
    assert Nest(f[4..], tail) == f[4] + Nest(f[5..], tail);
  }

  /** Where the hashed reveal's fields stand. */
  lemma RevealLayout(r: RevealArgs, tail: seq<byte>)
    requires |r.strategy| == |r.signalHash| == |r.nonce| == 32
    ensures var s := PutReveal(r, tail);
            && At(s, 0, r.strategy) && At(s, 32, LittleEndian(8, r.index)) && At(s, 40, LittleEndian(8, r.fixtureId))
            && At(s, 48, LittleEndian(2, r.market)) && At(s, 50, LittleEndian(1, r.side))
            && At(s, 51, LittleEndian(2, r.fairProbBps)) && At(s, 53, LittleEndian(4, r.entryOddsMilli))
            && At(s, 57, LittleEndian(8, r.stake)) && At(s, 65, r.signalHash) && At(s, 97, r.nonce)
            && |s| == 129 + |tail|
  {
    hide LittleEndian, At, PutReveal, Row, Nest;
    var fields, offsets := RevealFields(r), [0, 32, 40, 48, 50, 51, 53, 57, 65, 97, 129];
    RevealNests(r, tail);
    NestIsRow(fields, tail);
    RowIsLaid(fields, offsets, tail);
    forall i | 0 <= i < 10
      ensures At(PutReveal(r, tail), offsets[i], fields[i])
    {
    }
    assert offsets[0] == 0 && offsets[1] == 32 && offsets[2] == 40 && offsets[3] == 48 && offsets[4] == 50;
    assert offsets[5] == 51 && offsets[6] == 53 && offsets[7] == 57 && offsets[8] == 65 && offsets[9] == 97;
  }

  function StrategyFields(a: StrategyAccount): seq<seq<byte>> {
    [a.authority, LittleEndian(8, a.strategyId), a.txlineProgram, LittleEndian(8, a.startingBankroll),
     LittleEndian(8, a.bankroll), LittleEndian(8, a.realizedPnl), LittleEndian(8, a.decisionsCount),
     LittleEndian(8, a.openCount), LittleEndian(8, a.settledCount), LittleEndian(4, a.wins), LittleEndian(4, a.losses),
     LittleEndian(4, a.pushes), a.commitLogRoot, LittleEndian(1, a.bump)]
  }

  lemma StrategyNests(a: StrategyAccount, f: seq<seq<byte>>, tail: seq<byte>)
    requires f == StrategyFields(a)
    ensures PutStrategy(a, tail) == Nest(f, tail)
  {
    hide LittleEndian, PutStrategy, Nest;
    assert f[5..][5..] == f[10..];
    Unnest5(f, tail);
    Unnest5(f[5..], tail);
    Unnest4(f[10..], tail);
    StrategyByParts(a, tail);
  }

  lemma StrategyByParts(a: StrategyAccount, tail: seq<byte>)
    ensures var f := StrategyFields(a);
            PutStrategy(a, tail)
            == f[0] + (f[1] + (f[2] + (f[3] + (f[4] + (f[5] + (f[6] + (f[7] + (f[8] + (f[9]
               + (f[10] + (f[11] + (f[12] + (f[13] + tail)))))))))))))
  {
    hide LittleEndian;
  }

  lemma Unnest3(f: seq<seq<byte>>, tail: seq<byte>)
    requires |f| == 3
    ensures Nest(f, tail) == f[0] + (f[1] + (f[2] + tail))
  {
    assert f[1..][1..] == f[2..] && f[2..][1..] == [];
    assert Nest(f[2..], tail) == f[2] + Nest([], tail);
  }

  lemma Unnest4(f: seq<seq<byte>>, tail: seq<byte>)
    requires |f| == 4
    ensures Nest(f, tail) == f[0] + (f[1] + (f[2] + (f[3] + tail)))
  {
    Unnest3(f[1..], tail);
  }

  function StrategyOffsets(): seq<nat> { [0, 32, 40, 72, 80, 88, 96, 104, 112, 120, 124, 128, 132, 164, 165] }

  lemma StrategySteps(a: StrategyAccount)
    requires |a.authority| == |a.txlineProgram| == |a.commitLogRoot| == 32
    ensures var f, o := StrategyFields(a), StrategyOffsets();
            |o| == |f| + 1 && o[0] == 0 && forall i :: 0 <= i < |f| ==> o[i + 1] == o[i] + |f[i]|
  {
    hide LittleEndian;
  }

  lemma LaidAt(s: seq<byte>, fields: seq<seq<byte>>, offsets: seq<nat>, i: nat)
    requires Laid(s, fields, offsets) && i < |fields|
    ensures i < |offsets| && At(s, offsets[i], fields[i])
  {
  }

  /** Where the strategy account's fields stand. */
  lemma StrategyLayout(a: StrategyAccount, tail: seq<byte>)
    requires |a.authority| == |a.txlineProgram| == |a.commitLogRoot| == 32
    ensures var s := PutStrategy(a, tail);
            && At(s, 0, a.authority) && At(s, 32, LittleEndian(8, a.strategyId)) && At(s, 40, a.txlineProgram)
            && At(s, 72, LittleEndian(8, a.startingBankroll)) && At(s, 80, LittleEndian(8, a.bankroll))
            && At(s, 88, LittleEndian(8, a.realizedPnl)) && At(s, 96, LittleEndian(8, a.decisionsCount))
            && At(s, 104, LittleEndian(8, a.openCount)) && At(s, 112, LittleEndian(8, a.settledCount))
            && At(s, 120, LittleEndian(4, a.wins)) && At(s, 124, LittleEndian(4, a.losses))
            && At(s, 128, LittleEndian(4, a.pushes)) && At(s, 132, a.commitLogRoot)
                && At(s, 164, LittleEndian(1, a.bump))
            && |s| == 165 + |tail|
  {
    hide LittleEndian, At, PutStrategy, Row, Nest, Laid;
    var fields, offsets := StrategyFields(a), StrategyOffsets();
    StrategyNests(a, fields, tail);
    NestIsRow(fields, tail);
    StrategySteps(a);
    RowIsLaid(fields, offsets, tail);
    forall i | 0 <= i < 14
      ensures At(PutStrategy(a, tail), offsets[i], fields[i])
    {
      LaidAt(PutStrategy(a, tail), fields, offsets, i);
    }
    assert offsets[0] == 0 && offsets[1] == 32 && offsets[2] == 40 && offsets[3] == 72 && offsets[4] == 80;
    assert offsets[5] == 88 && offsets[6] == 96 && offsets[7] == 104 && offsets[8] == 112 && offsets[9] == 120;
    assert offsets[10] == 124 && offsets[11] == 128 && offsets[12] == 132 && offsets[13] == 164;
  }

  function DecisionFields(a: DecisionAccount): seq<seq<byte>> {
    [a.strategy, LittleEndian(8, a.index), a.commitHash, LittleEndian(8, a.fixtureId), LittleEndian(2, a.market),
     LittleEndian(8, a.commitSlot), LittleEndian(8, a.commitUnixTs), LittleEndian(1, a.status),
     LittleEndian(1, a.outcomeSide), LittleEndian(8, a.pnl), LittleEndian(8, a.settleSlot),
     LittleEndian(1, if a.entryOddsProven then 1 else 0), LittleEndian(1, a.bump)]
  }

  lemma DecisionNests(a: DecisionAccount, tail: seq<byte>)
    ensures PutDecision(a, tail) == Nest(DecisionFields(a), tail)
  {
    hide LittleEndian;
    var f := DecisionFields(a);
    Unnest5(f, tail);
    Unnest5(f[5..], tail);
    Unnest3(f[10..], tail);
    assert f[5..][5..] == f[10..];
  }

  /** Where the decision account's fields stand. */
  lemma DecisionLayout(a: DecisionAccount, tail: seq<byte>)
    requires |a.strategy| == |a.commitHash| == 32
    ensures var s := PutDecision(a, tail);
            && At(s, 0, a.strategy) && At(s, 32, LittleEndian(8, a.index)) && At(s, 40, a.commitHash)
            && At(s, 72, LittleEndian(8, a.fixtureId)) && At(s, 80, LittleEndian(2, a.market))
            && At(s, 82, LittleEndian(8, a.commitSlot)) && At(s, 90, LittleEndian(8, a.commitUnixTs))
            && At(s, 98, LittleEndian(1, a.status)) && At(s, 99, LittleEndian(1, a.outcomeSide))
            && At(s, 100, LittleEndian(8, a.pnl)) && At(s, 108, LittleEndian(8, a.settleSlot))
            && At(s, 116, LittleEndian(1, if a.entryOddsProven then 1 else 0)) && At(s, 117, LittleEndian(1, a.bump))
            && |s| == 118 + |tail|
  {
    hide LittleEndian, At, PutDecision, Row, Nest;
    var fields, offsets := DecisionFields(a), [0, 32, 40, 72, 80, 82, 90, 98, 99, 100, 108, 116, 117, 118];
    DecisionNests(a, tail);
    NestIsRow(fields, tail);
    RowIsLaid(fields, offsets, tail);
    forall i | 0 <= i < 13
      ensures At(PutDecision(a, tail), offsets[i], fields[i])
    {
    }
    assert offsets[0] == 0 && offsets[1] == 32 && offsets[2] == 40 && offsets[3] == 72 && offsets[4] == 80;
    assert offsets[5] == 82 && offsets[6] == 90 && offsets[7] == 98 && offsets[8] == 99 && offsets[9] == 100;
    assert offsets[10] == 108 && offsets[11] == 116 && offsets[12] == 117;
  }

  // ---------------------------------------------------------------------------------------------
  // What the range checks let through

  predicate RevealInRange(r: RevealArgs) {
    && |r.strategy| == |r.signalHash| == |r.nonce| == 32
    && 0 <= r.index < 0x1_0000_0000_0000_0000 && -0x8000_0000_0000_0000 <= r.fixtureId < 0x8000_0000_0000_0000
    && 0 <= r.market < 0x1_0000 && 0 <= r.side <= 2 && 0 <= r.fairProbBps < 0x1_0000
    && 0 <= r.entryOddsMilli < 0x1_0000_0000 && 0 <= r.stake < 0x1_0000_0000_0000_0000
  }

  predicate ProofInRange(proof: seq<ProofNode>) { forall n :: n in proof ==> |n.hash| == 32 }

  lemma {:induction false} CheckProofIff(proof: seq<ProofNode>, name: string)
    ensures CheckProof(proof, name) == (if ProofInRange(proof) then None else Some(BadLength(name)))
  {
    if |proof| > 0 {
      CheckProofIff(proof[1..], name);
      assert proof == [proof[0]] + proof[1..];
    }
  }

  predicate TermInRange(t: StatTerm) {
    && 0 <= t.statToProve.key < 0x1_0000_0000
    && -0x8000_0000 <= t.statToProve.statValue < 0x8000_0000 && -0x8000_0000 <= t.statToProve.period < 0x8000_0000
    && |t.eventStatRoot| == 32 && ProofInRange(t.statProof)
  }

  predicate InI64(v: int) { -0x8000_0000_0000_0000 <= v < 0x8000_0000_0000_0000 }

  predicate InI32(v: int) { -0x8000_0000 <= v < 0x8000_0000 }

  predicate SummaryInRange(s: BatchSummary) {
    && InI64(s.fixtureId) && InI64(s.updateStats.minTimestamp) && InI64(s.updateStats.maxTimestamp)
    && |s.subTreeRoot| == 32
  }

  lemma CheckTermIff(t: StatTerm, name: string)
    ensures CheckStatTerm(t, name) == None <==> TermInRange(t)
  {
    hide CheckProof;
    CheckProofIff(t.statProof, name + ".statProof");
  }

  /** Arguments are encoded exactly when every field fits its width, every root, hash and key has 32 bytes, and
      sides are 0, 1 or 2. */
  lemma RevealIsEncodableIff(r: RevealArgs)
    ensures CheckReveal(r) == None <==> RevealInRange(r)
  {
  }

  lemma SettleIsEncodableIff(a: SettleArgs)
    ensures CheckSettle(a) == None <==>
              && RevealInRange(a.sealed) && 0 <= a.claimedResult <= 2 && InI64(a.ts)
              && SummaryInRange(a.fixtureSummary) && InI32(a.fixtureSummary.updateStats.updateCount)
              && ProofInRange(a.fixtureProof) && ProofInRange(a.mainTreeProof)
              && TermInRange(a.statHome) && TermInRange(a.statAway)
  {
    hide CheckReveal, CheckProof, CheckStatTerm, RevealInRange, ProofInRange, TermInRange;
    RevealIsEncodableIff(a.sealed);
    CheckProofIff(a.fixtureProof, "fixtureProof");
    CheckProofIff(a.mainTreeProof, "mainTreeProof");
    CheckTermIff(a.statHome, "statHome");
    CheckTermIff(a.statAway, "statAway");
  }

  lemma ProveOddsIsEncodableIff(p: ProveOddsArgs)
    ensures CheckProveOdds(p) == None <==>
              && RevealInRange(p.sealed) && InI64(p.ts)
              && InI64(p.oddsSnapshot.fixtureId) && InI64(p.oddsSnapshot.ts) && InI32(p.oddsSnapshot.bookmakerId)
              && (forall v :: v in p.oddsSnapshot.prices ==> InI32(v))
              && SummaryInRange(p.summary) && 0 <= p.summary.updateStats.updateCount < 0x1_0000_0000
              && ProofInRange(p.subTreeProof) && ProofInRange(p.mainTreeProof) && 0 <= p.sideIndex < 256
  {
    hide CheckReveal, CheckProof, CheckPrices, RevealInRange, ProofInRange;
    RevealIsEncodableIff(p.sealed);
    CheckProofIff(p.subTreeProof, "subTreeProof");
    CheckProofIff(p.mainTreeProof, "mainTreeProof");
    CheckPricesIff(p.oddsSnapshot.prices);
  }

  lemma {:induction false} CheckPricesIff(prices: seq<int>)
    ensures CheckPrices(prices) == None <==> forall v :: v in prices ==> InI32(v)
  {
    if |prices| > 0 {
      CheckPricesIff(prices[1..]);
      assert prices == [prices[0]] + prices[1..];
      assert prices[0] in prices;
      assert forall v :: v in prices <==> v == prices[0] || v in prices[1..];
    }
  }
}
