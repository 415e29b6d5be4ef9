/** The client's codec as it runs: a writer that collects parts, a fixed buffer filled at a moving offset,
    and a reader that advances through account data. */
module BorshCodec {
  import opened Prelude
  import opened Bytes
  import opened Borsh

  function Flatten(parts: seq<seq<byte>>): seq<byte> {
    if |parts| == 0 then [] else Flatten(parts[..|parts| - 1]) + parts[|parts| - 1]
  }

  /** Copy bytes into a buffer at an offset, as TypedArray.set does. */
  method SetBytes(buffer: array<byte>, offset: nat, bytes: seq<byte>)
    requires offset + |bytes| <= buffer.Length
    modifies buffer
    ensures buffer[..offset + |bytes|] == old(buffer[..offset]) + bytes
  {
    for i := 0 to |bytes|
      invariant buffer[..offset] == old(buffer[..offset])
      invariant buffer[offset..offset + i] == bytes[..i]
    {
      buffer[offset + i] := bytes[i];
    }
    assert buffer[..offset + |bytes|] == buffer[..offset] + buffer[offset..offset + |bytes|];
  }

  /** One write into a fixed buffer. What has been written so far, followed by the encoding of everything
      still to come, is unchanged by writing the next field. */
  method SetField(buffer: array<byte>, offset: nat, bytes: seq<byte>, ghost tail: seq<byte>) returns (next: nat)
    requires offset + |bytes| <= buffer.Length
    modifies buffer
    ensures next == offset + |bytes|
    ensures buffer[..next] + tail == old(buffer[..offset]) + (bytes + tail)
  {
    SetBytes(buffer, offset, bytes);
    next := offset + |bytes|;
    assert (old(buffer[..offset]) + bytes) + tail == old(buffer[..offset]) + (bytes + tail);
  }

  /** Encode the reveal into its fixed 129-byte layout, or report the first field that does not fit. */
  method EncodeRevealArgs(r: RevealArgs) returns (result: Result<seq<byte>, EncodeError>)
    ensures match CheckReveal(r)
            case Some(e) => result == Err(e)
            case None => result == Ok(PutReveal(r, [])) && |result.value| == 129
  {
    var failure := CheckReveal(r);
    if failure.Some? {
      return Err(failure.value);
    }
    RevealIs129Bytes(r);
    ghost var t9 := PutBytes(r.nonce, []);
    ghost var t8 := PutBytes(r.signalHash, t9);
    ghost var t7 := PutInt(8, r.stake, t8);
    ghost var t6 := PutInt(4, r.entryOddsMilli, t7);
    ghost var t5 := PutInt(2, r.fairProbBps, t6);
    ghost var t4 := PutInt(1, r.side, t5);
    ghost var t3 := PutInt(2, r.market, t4);
    ghost var t2 := PutInt(8, r.fixtureId, t3);
    ghost var t1 := PutInt(8, r.index, t2);
    var buffer := new byte[129](_ => 0);
    var offset := 0;
    assert buffer[..0] + PutReveal(r, []) == PutReveal(r, []);
    offset := SetField(buffer, offset, r.strategy, t1);
    offset := SetField(buffer, offset, LittleEndian(8, r.index), t2);
    offset := SetField(buffer, offset, LittleEndian(8, r.fixtureId), t3);
    offset := SetField(buffer, offset, LittleEndian(2, r.market), t4);
    offset := SetField(buffer, offset, LittleEndian(1, r.side), t5);
    offset := SetField(buffer, offset, LittleEndian(2, r.fairProbBps), t6);
    offset := SetField(buffer, offset, LittleEndian(4, r.entryOddsMilli), t7);
    offset := SetField(buffer, offset, LittleEndian(8, r.stake), t8);
    offset := SetField(buffer, offset, r.signalHash, t9);
    offset := SetField(buffer, offset, r.nonce, []);
    assert buffer[..] == buffer[..offset] + [];
    result := Ok(buffer[..]);
  }

  class BorshWriter {
    var parts: seq<seq<byte>>

    ghost function Contents(): seq<byte>
      reads this
    {
      Flatten(parts)
    }

    constructor ()
      ensures Contents() == []
    {
      parts := [];
    }

    /** Append raw bytes. `tail` is what the caller will write afterwards. */
    method Raw(bytes: seq<byte>, ghost tail: seq<byte>)
      modifies this
      ensures Contents() + tail == old(Contents()) + PutBytes(bytes, tail)
    {
      ghost var before := Contents();
      parts := parts + [bytes];
      assert parts[..|parts| - 1] == old(parts);
      assert (before + bytes) + tail == before + (bytes + tail);
    }

    method Scalar(n: nat, v: int, ghost tail: seq<byte>)
      modifies this
      ensures Contents() + tail == old(Contents()) + PutInt(n, v, tail)
    {
      Raw(LittleEndian(n, v), tail);
    }

    method Bool(b: bool, ghost tail: seq<byte>)
      modifies this
      ensures Contents() + tail == old(Contents()) + PutBool(b, tail)
    {
      Scalar(1, if b then 1 else 0, tail);
    }

    method Str(s: seq<byte>, ghost tail: seq<byte>)
      modifies this
      ensures Contents() + tail == old(Contents()) + PutStr(s, tail)
    {
      Scalar(4, |s|, PutBytes(s, tail));
      Raw(s, tail);
    }

    method OptStr(s: Option<seq<byte>>, ghost tail: seq<byte>)
      modifies this
      ensures Contents() + tail == old(Contents()) + PutOptStr(s, tail)
    {
      match s
      case None => Scalar(1, 0, tail);
      case Some(v) =>
        Scalar(1, 1, PutStr(v, tail));
        Str(v, tail);
    }

    /** Concatenate the parts into one buffer at a running offset. */
    method Finish() returns (out: array<byte>)
      ensures fresh(out) && out[..] == Contents()
    {
      var total := 0;
      for i := 0 to |parts|
        invariant total == |Flatten(parts[..i])|
      {
        total := total + |parts[i]|;
        assert parts[..i + 1][..i] == parts[..i];
      }
      assert parts[..|parts|] == parts;
      out := new byte[total](_ => 0);
      var offset := 0;
      for i := 0 to |parts|
        invariant offset == |Flatten(parts[..i])| <= total
        invariant out[..offset] == Flatten(parts[..i])
      {
        assert parts[..i + 1][..i] == parts[..i];
        FlattenIsMonotone(parts, i + 1);
        SetBytes(out, offset, parts[i]);
        offset := offset + |parts[i]|;
      }
    }
  }

  lemma {:induction false} FlattenIsMonotone(parts: seq<seq<byte>>, n: nat)
    requires n <= |parts|
    ensures |Flatten(parts[..n])| <= |Flatten(parts)|
    decreases |parts| - n
  {
    if n < |parts| {
      assert parts[..n + 1][..n] == parts[..n];
      FlattenIsMonotone(parts, n + 1);
    } else {
      assert parts[..n] == parts;
    }
  }

  method WriteProofVec(writer: BorshWriter, proof: seq<ProofNode>, ghost tail: seq<byte>)
    modifies writer
    ensures writer.Contents() + tail == old(writer.Contents()) + PutProof(proof, tail)
  {
    ghost var whole := writer.Contents() + PutProof(proof, tail);
    writer.Scalar(4, |proof|, PutEach(PutNode, proof, tail));
    for i := 0 to |proof|
      invariant writer.Contents() + PutEach(PutNode, proof[i..], tail) == whole
    {
      ghost var rest := PutEach(PutNode, proof[i + 1..], tail);
      assert proof[i..][1..] == proof[i + 1..];
      assert PutEach(PutNode, proof[i..], tail) == PutNode(proof[i], rest);
      writer.Raw(proof[i].hash, PutBool(proof[i].isRightSibling, rest));
      writer.Bool(proof[i].isRightSibling, rest);
    }
  }

  method WriteStatTerm(writer: BorshWriter, t: StatTerm, ghost tail: seq<byte>)
    modifies writer
    ensures writer.Contents() + tail == old(writer.Contents()) + PutStatTerm(t, tail)
  {
    ghost var t4 := PutProof(t.statProof, tail);
    ghost var t3 := PutBytes(t.eventStatRoot, t4);
    ghost var t2 := PutInt(4, t.statToProve.period, t3);
    ghost var t1 := PutInt(4, t.statToProve.statValue, t2);
    writer.Scalar(4, t.statToProve.key, t1);
    writer.Scalar(4, t.statToProve.statValue, t2);
    writer.Scalar(4, t.statToProve.period, t3);
    writer.Raw(t.eventStatRoot, t4);
    WriteProofVec(writer, t.statProof, tail);
  }

  method WriteSummary(writer: BorshWriter, s: BatchSummary, ghost tail: seq<byte>)
    modifies writer
    ensures writer.Contents() + tail == old(writer.Contents()) + PutSummary(s, tail)
  {
    ghost var t4 := PutBytes(s.subTreeRoot, tail);
    ghost var t3 := PutInt(8, s.updateStats.maxTimestamp, t4);
    ghost var t2 := PutInt(8, s.updateStats.minTimestamp, t3);
    ghost var t1 := PutInt(4, s.updateStats.updateCount, t2);
    writer.Scalar(8, s.fixtureId, t1);
    writer.Scalar(4, s.updateStats.updateCount, t2);
    writer.Scalar(8, s.updateStats.minTimestamp, t3);
    writer.Scalar(8, s.updateStats.maxTimestamp, t4);
    writer.Raw(s.subTreeRoot, tail);
  }

  method EncodeSettleArgs(a: SettleArgs) returns (result: Result<seq<byte>, EncodeError>)
    ensures match CheckSettle(a) case Some(e) => result == Err(e) case None => result == Ok(PutSettle(a, []))
  {
    var sealed := EncodeRevealArgs(a.sealed);
    if sealed.Err? {
      return Err(sealed.error);
    }
    var failure := CheckSettle(a);
    if failure.Some? {
      return Err(failure.value);
    }
    ghost var t7 := PutStatTerm(a.statAway, []);
    ghost var t6 := PutStatTerm(a.statHome, t7);
    ghost var t5 := PutProof(a.mainTreeProof, t6);
    ghost var t4 := PutProof(a.fixtureProof, t5);
    ghost var t3 := PutSummary(a.fixtureSummary, t4);
    ghost var t2 := PutInt(8, a.ts, t3);
    ghost var t1 := PutInt(1, a.claimedResult, t2);
    var writer := new BorshWriter();
    writer.Raw(sealed.value, t1);
    RevealThenTail(a.sealed, t1);
    writer.Scalar(1, a.claimedResult, t2);
    writer.Scalar(8, a.ts, t3);
    WriteSummary(writer, a.fixtureSummary, t4);
    WriteProofVec(writer, a.fixtureProof, t5);
    WriteProofVec(writer, a.mainTreeProof, t6);
    WriteStatTerm(writer, a.statHome, t7);
    WriteStatTerm(writer, a.statAway, []);
    var out := writer.Finish();
    assert out[..] + [] == out[..] && [] + PutSettle(a, []) == PutSettle(a, []);
    result := Ok(out[..]);
  }

  method WriteOddsSnapshot(writer: BorshWriter, o: OddsSnapshot, ghost tail: seq<byte>)
    modifies writer
    ensures writer.Contents() + tail == old(writer.Contents()) + PutSnapshot(o, tail)
  {
    ghost var t11 := PutVec(PutI32, o.prices, tail);
    ghost var t10 := PutVec(PutStr, o.priceNames, t11);
    ghost var t9 := PutOptStr(o.marketPeriod, t10);
    ghost var t8 := PutOptStr(o.marketParameters, t9);
    ghost var t7 := PutBool(o.inRunning, t8);
    ghost var t6 := PutOptStr(o.gameState, t7);
    ghost var t5 := PutStr(o.superOddsType, t6);
    ghost var t4 := PutInt(4, o.bookmakerId, t5);
    ghost var t3 := PutStr(o.bookmaker, t4);
    ghost var t2 := PutInt(8, o.ts, t3);
    ghost var t1 := PutStr(o.messageId, t2);
    writer.Scalar(8, o.fixtureId, t1);
    writer.Str(o.messageId, t2);
    writer.Scalar(8, o.ts, t3);
    writer.Str(o.bookmaker, t4);
    writer.Scalar(4, o.bookmakerId, t5);
    writer.Str(o.superOddsType, t6);
    writer.OptStr(o.gameState, t7);
    writer.Bool(o.inRunning, t8);
    writer.OptStr(o.marketParameters, t9);
    writer.OptStr(o.marketPeriod, t10);
    WriteNames(writer, o.priceNames, t11);
    WritePrices(writer, o.prices, tail);
  }

  method WriteNames(writer: BorshWriter, names: seq<seq<byte>>, ghost tail: seq<byte>)
    modifies writer
    ensures writer.Contents() + tail == old(writer.Contents()) + PutVec(PutStr, names, tail)
  {
    ghost var whole := writer.Contents() + PutVec(PutStr, names, tail);
    writer.Scalar(4, |names|, PutEach(PutStr, names, tail));
    for i := 0 to |names|
      invariant writer.Contents() + PutEach(PutStr, names[i..], tail) == whole
    {
      assert names[i..][1..] == names[i + 1..];
      writer.Str(names[i], PutEach(PutStr, names[i + 1..], tail));
    }
  }

  method WritePrices(writer: BorshWriter, prices: seq<int>, ghost tail: seq<byte>)
    modifies writer
    ensures writer.Contents() + tail == old(writer.Contents()) + PutVec(PutI32, prices, tail)
  {
    ghost var whole := writer.Contents() + PutVec(PutI32, prices, tail);
    writer.Scalar(4, |prices|, PutEach(PutI32, prices, tail));
    for i := 0 to |prices|
      invariant writer.Contents() + PutEach(PutI32, prices[i..], tail) == whole
    {
      assert prices[i..][1..] == prices[i + 1..];
      writer.Scalar(4, prices[i], PutEach(PutI32, prices[i + 1..], tail));
    }
  }

  method EncodeProveOddsArgs(a: ProveOddsArgs) returns (result: Result<seq<byte>, EncodeError>)
    ensures match CheckProveOdds(a) case Some(e) => result == Err(e) case None => result == Ok(PutProveOdds(a, []))
  {
    var sealed := EncodeRevealArgs(a.sealed);
    if sealed.Err? {
      return Err(sealed.error);
    }
    var failure := CheckProveOdds(a);
    if failure.Some? {
      return Err(failure.value);
    }
    ghost var t6 := PutInt(1, a.sideIndex, []);
    ghost var t5 := PutProof(a.mainTreeProof, t6);
    ghost var t4 := PutProof(a.subTreeProof, t5);
    ghost var t3 := PutSummary(a.summary, t4);
    ghost var t2 := PutSnapshot(a.oddsSnapshot, t3);
    ghost var t1 := PutInt(8, a.ts, t2);
    var writer := new BorshWriter();
    writer.Raw(sealed.value, t1);
    RevealThenTail(a.sealed, t1);
    writer.Scalar(8, a.ts, t2);
    WriteOddsSnapshot(writer, a.oddsSnapshot, t3);
    WriteSummary(writer, a.summary, t4);
    WriteProofVec(writer, a.subTreeProof, t5);
    WriteProofVec(writer, a.mainTreeProof, t6);
    writer.Scalar(1, a.sideIndex, []);
    var out := writer.Finish();
    assert out[..] + [] == out[..] && [] + PutProveOdds(a, []) == PutProveOdds(a, []);
    result := Ok(out[..]);
  }

  lemma TailMovesIn(bytes: seq<byte>, rest: seq<byte>, tail: seq<byte>)
    ensures PutBytes(bytes, rest) + tail == PutBytes(bytes, rest + tail)
  {
  }

  /** A reveal encoded on its own and then followed by a tail is the reveal encoded before that tail. */
  lemma RevealThenTail(r: RevealArgs, tail: seq<byte>)
    ensures PutBytes(PutReveal(r, []), tail) == PutReveal(r, tail)
  {
    var u9 := PutBytes(r.nonce, []);
    var u8 := PutBytes(r.signalHash, u9);
    var u7 := PutInt(8, r.stake, u8);
    var u6 := PutInt(4, r.entryOddsMilli, u7);
    var u5 := PutInt(2, r.fairProbBps, u6);
    var u4 := PutInt(1, r.side, u5);
    var u3 := PutInt(2, r.market, u4);
    var u2 := PutInt(8, r.fixtureId, u3);
    var u1 := PutInt(8, r.index, u2);
    TailMovesIn(r.nonce, [], tail);
    assert [] + tail == tail;
    TailMovesIn(r.signalHash, u9, tail);
    TailMovesIn(LittleEndian(8, r.stake), u8, tail);
    TailMovesIn(LittleEndian(4, r.entryOddsMilli), u7, tail);
    TailMovesIn(LittleEndian(2, r.fairProbBps), u6, tail);
    TailMovesIn(LittleEndian(1, r.side), u5, tail);
    TailMovesIn(LittleEndian(2, r.market), u4, tail);
    TailMovesIn(LittleEndian(8, r.fixtureId), u3, tail);
    TailMovesIn(LittleEndian(8, r.index), u2, tail);
    TailMovesIn(r.strategy, u1, tail);
  }
}
