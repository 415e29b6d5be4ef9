/** Reading the program's two account types back from raw account data. */
module AccountDecode {
  import opened Prelude
  import opened Bytes

  datatype StrategyAccount = StrategyAccount(
    authority: seq<byte>, strategyId: int, txlineProgram: seq<byte>, startingBankroll: int, bankroll: int,
    realizedPnl: int, decisionsCount: int, openCount: int, settledCount: int, wins: int, losses: int, pushes: int,
    commitLogRoot: seq<byte>, bump: int)

  datatype DecisionAccount = DecisionAccount(
    strategy: seq<byte>, index: int, commitHash: seq<byte>, fixtureId: int, market: int, commitSlot: int,
    commitUnixTs: int, status: int, outcomeSide: int, pnl: int, settleSlot: int, entryOddsProven: bool, bump: int)

  datatype DecodeError = TooShort | WrongDiscriminator

  const DISCRIMINATOR_SIZE := 8
  const STRATEGY_BODY_SIZE := 165
  const DECISION_BODY_SIZE := 118

  /** The layout the program serializes, field by field in declaration order. */
  function PutStrategy(a: StrategyAccount, tail: seq<byte>): seq<byte> {
    PutBytes(a.authority, PutInt(8, a.strategyId, PutBytes(a.txlineProgram, PutInt(8, a.startingBankroll,
    PutInt(8, a.bankroll, PutInt(8, a.realizedPnl, PutInt(8, a.decisionsCount, PutInt(8, a.openCount,
    PutInt(8, a.settledCount, PutInt(4, a.wins, PutInt(4, a.losses, PutInt(4, a.pushes,
    PutBytes(a.commitLogRoot, PutInt(1, a.bump, tail))))))))))))))
  }

  function PutDecision(a: DecisionAccount, tail: seq<byte>): seq<byte> {
    PutFlagged(a, if a.entryOddsProven then 1 else 0, tail)
  }

  /** A decision with whatever byte stands where its entry-odds flag is stored. */
  function PutFlagged(a: DecisionAccount, flag: int, tail: seq<byte>): seq<byte> {
    PutBytes(a.strategy, PutInt(8, a.index, PutBytes(a.commitHash, PutInt(8, a.fixtureId, PutInt(2, a.market,
    PutInt(8, a.commitSlot, PutInt(8, a.commitUnixTs, PutInt(1, a.status, PutInt(1, a.outcomeSide,
    PutInt(8, a.pnl, PutInt(8, a.settleSlot, PutInt(1, flag, PutInt(1, a.bump, tail)))))))))))))
  }

  /** Values the account's field widths can hold. */
  predicate StrategyFits(a: StrategyAccount) {
    && |a.authority| == 32 && |a.txlineProgram| == 32 && |a.commitLogRoot| == 32
    && FitsUnsigned(8, a.strategyId) && FitsUnsigned(8, a.startingBankroll) && FitsUnsigned(8, a.bankroll)
    && FitsSigned(8, a.realizedPnl) && FitsUnsigned(8, a.decisionsCount) && FitsUnsigned(8, a.openCount)
    && FitsUnsigned(8, a.settledCount) && FitsUnsigned(4, a.wins) && FitsUnsigned(4, a.losses)
    && FitsUnsigned(4, a.pushes) && FitsUnsigned(1, a.bump)
  }

  predicate DecisionFits(a: DecisionAccount) {
    && |a.strategy| == 32 && |a.commitHash| == 32
    && FitsUnsigned(8, a.index) && FitsSigned(8, a.fixtureId) && FitsUnsigned(2, a.market)
    && FitsUnsigned(8, a.commitSlot) && FitsSigned(8, a.commitUnixTs) && FitsUnsigned(1, a.status)
    && FitsUnsigned(1, a.outcomeSide) && FitsSigned(8, a.pnl) && FitsUnsigned(8, a.settleSlot)
    && FitsUnsigned(1, a.bump)
  }

  class BorshReader {
    const data: seq<byte>
    var offset: nat

    constructor (data: seq<byte>)
      ensures this.data == data && offset == 0
    {
      this.data := data;
      offset := 0;
    }

    /** The bytes not yet consumed. */
    ghost function Rest(): seq<byte>
      reads this
      requires offset <= |data|
    {
      data[offset..]
    }

    method Skip(count: nat)
      requires offset + count <= |data|
      modifies this
      ensures offset == old(offset) + count
    {
      offset := offset + count;
    }

    /** Each read returns the one value whose encoding is the bytes it consumes. */
    method Raw(count: nat) returns (value: seq<byte>)
      requires offset + count <= |data|
      modifies this
      ensures offset == old(offset) + count && |value| == count
      ensures old(Rest()) == PutBytes(value, Rest())
    {
      value := data[offset..offset + count];
      offset := offset + count;
    }

    method Unsigned(n: nat) returns (value: int)
      requires offset + n <= |data|
      modifies this
      ensures offset == old(offset) + n && FitsUnsigned(n, value)
      ensures old(Rest()) == PutInt(n, value, Rest())
    {
      var raw := Raw(n);
      LittleEndianInverts(raw);
      value := Bytes.Unsigned(raw);
    }

    method Byte() returns (value: int)
      requires offset < |data|
      modifies this
      ensures offset == old(offset) + 1 && FitsUnsigned(1, value) && value == data[old(offset)]
      ensures old(Rest()) == PutInt(1, value, Rest())
    {
      value := Unsigned(1);
      FirstByteIs(value, Rest());
      assert old(Rest())[0] == data[old(offset)];
    }

    method Signed(n: nat) returns (value: int)
      requires offset + n <= |data|
      modifies this
      ensures offset == old(offset) + n && FitsSigned(n, value)
      ensures old(Rest()) == PutInt(n, value, Rest())
    {
      var raw := Raw(n);
      LittleEndianInverts(raw);
      value := Bytes.Signed(raw);
    }
  }

  method BytesEqual(left: seq<byte>, right: seq<byte>) returns (equal: bool)
    ensures equal <==> left == right
  {
    if |left| != |right| {
      return false;
    }
    for i := 0 to |left|
      invariant left[..i] == right[..i]
    {
      if left[i] != right[i] {
        return false;
      }
    }
    assert left[..|left|] == left && right[..|right|] == right;
    return true;
  }

  /** Which data is refused: too short for the account type first, then the wrong leading eight bytes. */
  function Failure(data: seq<byte>, discriminator: seq<byte>, bodySize: nat): Option<DecodeError> {
    if |data| < DISCRIMINATOR_SIZE + bodySize then Some(TooShort)
    else if data[..DISCRIMINATOR_SIZE] != discriminator then Some(WrongDiscriminator)
    else None
  }

  function GetStrategy(s: seq<byte>): Option<(StrategyAccount, seq<byte>)> {
    var (authority, s) :- GetBytes(32, s);
    var (strategyId, s) :- GetUnsigned(8, s);
    var (txlineProgram, s) :- GetBytes(32, s);
    var (startingBankroll, s) :- GetUnsigned(8, s);
    var (bankroll, s) :- GetUnsigned(8, s);
    var (realizedPnl, s) :- GetSigned(8, s);
    var (decisionsCount, s) :- GetUnsigned(8, s);
    var (openCount, s) :- GetUnsigned(8, s);
    var (settledCount, s) :- GetUnsigned(8, s);
    var (wins, s) :- GetUnsigned(4, s);
    var (losses, s) :- GetUnsigned(4, s);
    var (pushes, s) :- GetUnsigned(4, s);
    var (commitLogRoot, s) :- GetBytes(32, s);
    var (bump, s) :- GetUnsigned(1, s);
    Some((StrategyAccount(authority, strategyId, txlineProgram, startingBankroll, bankroll, realizedPnl, decisionsCount,
                          openCount, settledCount, wins, losses, pushes, commitLogRoot, bump), s))
  }

  function GetDecision(s: seq<byte>): Option<(DecisionAccount, seq<byte>)> {
    var (strategy, s) :- GetBytes(32, s);
    var (index, s) :- GetUnsigned(8, s);
    var (commitHash, s) :- GetBytes(32, s);
    var (fixtureId, s) :- GetSigned(8, s);
    var (market, s) :- GetUnsigned(2, s);
    var (commitSlot, s) :- GetUnsigned(8, s);
    var (commitUnixTs, s) :- GetSigned(8, s);
    var (status, s) :- GetUnsigned(1, s);
    var (outcomeSide, s) :- GetUnsigned(1, s);
    var (pnl, s) :- GetSigned(8, s);
    var (settleSlot, s) :- GetUnsigned(8, s);
    var (flag, s) :- GetUnsigned(1, s);
    var (bump, s) :- GetUnsigned(1, s);
    Some((DecisionAccount(strategy, index, commitHash, fixtureId, market, commitSlot, commitUnixTs, status, outcomeSide,
                          pnl, settleSlot, flag == 1, bump), s))
  }

  /** The account in some raw account data, or why there is none. */
  function AccountIn<A>(
    data: seq<byte>, discriminator: seq<byte>, bodySize: nat, get: seq<byte> -> Option<(A, seq<byte>)>)
    : Result<A, DecodeError>
  {
    match Failure(data, discriminator, bodySize)
    case Some(e) => Err(e)
    case None =>
      match get(data[DISCRIMINATOR_SIZE..])
      case Some((a, _)) => Ok(a)
      case None => Err(TooShort)
  }

  function StrategyIn(data: seq<byte>, discriminator: seq<byte>): Result<StrategyAccount, DecodeError> {
    AccountIn(data, discriminator, STRATEGY_BODY_SIZE, GetStrategy)
  }

  function DecisionIn(data: seq<byte>, discriminator: seq<byte>): Result<DecisionAccount, DecodeError> {
    AccountIn(data, discriminator, DECISION_BODY_SIZE, GetDecision)
  }

  method CheckAccount(data: seq<byte>, discriminator: seq<byte>, bodySize: nat) returns (failure: Option<DecodeError>)
    ensures failure == Failure(data, discriminator, bodySize)
  {
    if |data| < DISCRIMINATOR_SIZE + bodySize {
      return Some(TooShort);
    }
    var equal := BytesEqual(data[..DISCRIMINATOR_SIZE], discriminator);
    return if equal then None else Some(WrongDiscriminator);
  }

  /** Read the fields in order; each read peels one field off the bytes that remain. */
  method ReadStrategy(reader: BorshReader) returns (a: StrategyAccount)
    requires reader.offset + STRATEGY_BODY_SIZE <= |reader.data|
    modifies reader
    ensures reader.offset == old(reader.offset) + STRATEGY_BODY_SIZE
    ensures StrategyFits(a) && old(reader.Rest()) == PutStrategy(a, reader.Rest())
  {
    ghost var r0 := reader.Rest();
    var authority := reader.Raw(32);
    ghost var r1 := reader.Rest();
    var strategyId := reader.Unsigned(8);
    ghost var r2 := reader.Rest();
    var txlineProgram := reader.Raw(32);
    ghost var r3 := reader.Rest();
    var startingBankroll := reader.Unsigned(8);
    ghost var r4 := reader.Rest();
    var bankroll := reader.Unsigned(8);
    ghost var r5 := reader.Rest();
    var realizedPnl := reader.Signed(8);
    ghost var r6 := reader.Rest();
    var decisionsCount := reader.Unsigned(8);
    ghost var r7 := reader.Rest();
    var openCount := reader.Unsigned(8);
    ghost var r8 := reader.Rest();
    var settledCount := reader.Unsigned(8);
    ghost var r9 := reader.Rest();
    var wins := reader.Unsigned(4);
    ghost var r10 := reader.Rest();
    var losses := reader.Unsigned(4);
    ghost var r11 := reader.Rest();
    var pushes := reader.Unsigned(4);
    ghost var r12 := reader.Rest();
    var commitLogRoot := reader.Raw(32);
    ghost var r13 := reader.Rest();
    var bump := reader.Byte();
    ghost var r14 := reader.Rest();
    a := StrategyAccount(authority, strategyId, txlineProgram, startingBankroll, bankroll, realizedPnl,
                         decisionsCount, openCount, settledCount, wins, losses, pushes, commitLogRoot, bump);
  }

  /** Decode a Strategy account. On success the result is the one value whose serialization is the body that
      was read. */
  method DecodeStrategyAccount(data: seq<byte>, discriminator: seq<byte>)
    returns (result: Result<StrategyAccount, DecodeError>)
    requires |discriminator| == DISCRIMINATOR_SIZE
    ensures result == StrategyIn(data, discriminator)
    ensures result.Ok? <==> Failure(data, discriminator, STRATEGY_BODY_SIZE) == None
    ensures result.Ok? ==>
              && StrategyFits(result.value)
              && data == discriminator + PutStrategy(result.value, data[DISCRIMINATOR_SIZE + STRATEGY_BODY_SIZE..])
  {
    var failure := CheckAccount(data, discriminator, STRATEGY_BODY_SIZE);
    if failure.Some? {
      return Err(failure.value);
    }
    var reader := new BorshReader(data);
    reader.Skip(DISCRIMINATOR_SIZE);
    var account := ReadStrategy(reader);
    result := Ok(account);
    GetStrategyInverts(account, reader.Rest());
    Splits(data);
  }

  /** Where the entry-odds flag sits: after every field but the flag and the bump. */
  const FLAG_OFFSET := DISCRIMINATOR_SIZE + DECISION_BODY_SIZE - 2

  method ReadDecision(reader: BorshReader) returns (a: DecisionAccount, flag: int)
    requires reader.offset + DECISION_BODY_SIZE <= |reader.data|
    modifies reader
    ensures reader.offset == old(reader.offset) + DECISION_BODY_SIZE
    ensures DecisionFits(a) && flag == reader.data[reader.offset - 2] && (a.entryOddsProven <==> flag == 1)
    ensures FitsUnsigned(1, flag) && old(reader.Rest()) == PutFlagged(a, flag, reader.Rest())
  {
    ghost var r0 := reader.Rest();
    var strategy := reader.Raw(32);
    ghost var r1 := reader.Rest();
    var index := reader.Unsigned(8);
    ghost var r2 := reader.Rest();
    var commitHash := reader.Raw(32);
    ghost var r3 := reader.Rest();
    var fixtureId := reader.Signed(8);
    ghost var r4 := reader.Rest();
    var market := reader.Unsigned(2);
    ghost var r5 := reader.Rest();
    var commitSlot := reader.Unsigned(8);
    ghost var r6 := reader.Rest();
    var commitUnixTs := reader.Signed(8);
    ghost var r7 := reader.Rest();
    var status := reader.Byte();
    ghost var r8 := reader.Rest();
    var outcomeSide := reader.Byte();
    ghost var r9 := reader.Rest();
    var pnl := reader.Signed(8);
    ghost var r10 := reader.Rest();
    var settleSlot := reader.Unsigned(8);
    ghost var r11 := reader.Rest();
    flag := reader.Byte();
    ghost var r12 := reader.Rest();
    var bump := reader.Byte();
    ghost var r13 := reader.Rest();
    a := DecisionAccount(strategy, index, commitHash, fixtureId, market, commitSlot, commitUnixTs, status,
                         outcomeSide, pnl, settleSlot, flag == 1, bump);
  }

  /** Decode a DecisionCommit account. The flag is true only for byte 1; for the bytes 0 and 1 the program
      writes, the result's serialization is the body that was read. */
  method DecodeDecisionAccount(data: seq<byte>, discriminator: seq<byte>)
    returns (result: Result<DecisionAccount, DecodeError>)
    requires |discriminator| == DISCRIMINATOR_SIZE
    ensures result == DecisionIn(data, discriminator)
    ensures result.Ok? <==> Failure(data, discriminator, DECISION_BODY_SIZE) == None
    ensures result.Ok? ==>
              && DecisionFits(result.value)
              && (result.value.entryOddsProven <==> data[FLAG_OFFSET] == 1)
              && (data[FLAG_OFFSET] <= 1 ==>
                    data == discriminator + PutDecision(result.value, data[DISCRIMINATOR_SIZE + DECISION_BODY_SIZE..]))
  {
    var failure := CheckAccount(data, discriminator, DECISION_BODY_SIZE);
    if failure.Some? {
      return Err(failure.value);
    }
    var reader := new BorshReader(data);
    reader.Skip(DISCRIMINATOR_SIZE);
    var account, flag := ReadDecision(reader);
    result := Ok(account);
    GetFlaggedInverts(account, flag, reader.Rest());
    FlagIsBool(account, flag, reader.Rest());
    Splits(data);
  }

  lemma Splits(data: seq<byte>)
    requires |data| >= DISCRIMINATOR_SIZE
    ensures data == data[..DISCRIMINATOR_SIZE] + data[DISCRIMINATOR_SIZE..]
  {
  }

  lemma FlagIsBool(a: DecisionAccount, flag: int, tail: seq<byte>)
    requires FitsUnsigned(1, flag) && (a.entryOddsProven <==> flag == 1)
    ensures flag <= 1 ==> PutFlagged(a, flag, tail) == PutDecision(a, tail)
  {
  }

  lemma FirstByteIs(v: int, tail: seq<byte>)
    requires FitsUnsigned(1, v)
    ensures PutInt(1, v, tail)[0] == v
  {
    Pow256Values();
  }

  // ---------------------------------------------------------------------------------------------
  // The decoders invert the serializer

  lemma GetStrategyInverts(a: StrategyAccount, tail: seq<byte>)
    requires StrategyFits(a)
    ensures GetStrategy(PutStrategy(a, tail)) == Some((a, tail))
  {
    var t13 := PutInt(1, a.bump, tail);
    var t12 := PutBytes(a.commitLogRoot, t13);
    var t11 := PutInt(4, a.pushes, t12);
    var t10 := PutInt(4, a.losses, t11);
    var t9 := PutInt(4, a.wins, t10);
    var t8 := PutInt(8, a.settledCount, t9);
    var t7 := PutInt(8, a.openCount, t8);
    var t6 := PutInt(8, a.decisionsCount, t7);
    var t5 := PutInt(8, a.realizedPnl, t6);
    var t4 := PutInt(8, a.bankroll, t5);
    var t3 := PutInt(8, a.startingBankroll, t4);
    var t2 := PutBytes(a.txlineProgram, t3);
    var t1 := PutInt(8, a.strategyId, t2);
    BytesRoundTrip(a.authority, t1);
    UnsignedRoundTrip(8, a.strategyId, t2);
    BytesRoundTrip(a.txlineProgram, t3);
    UnsignedRoundTrip(8, a.startingBankroll, t4);
    UnsignedRoundTrip(8, a.bankroll, t5);
    SignedRoundTrip(8, a.realizedPnl, t6);
    UnsignedRoundTrip(8, a.decisionsCount, t7);
    UnsignedRoundTrip(8, a.openCount, t8);
    UnsignedRoundTrip(8, a.settledCount, t9);
    UnsignedRoundTrip(4, a.wins, t10);
    UnsignedRoundTrip(4, a.losses, t11);
    UnsignedRoundTrip(4, a.pushes, t12);
    BytesRoundTrip(a.commitLogRoot, t13);
    UnsignedRoundTrip(1, a.bump, tail);
  }

  /** Only byte 1 reads as a proven flag. */
  lemma GetFlaggedInverts(a: DecisionAccount, flag: int, tail: seq<byte>)
    requires DecisionFits(a) && FitsUnsigned(1, flag) && (a.entryOddsProven <==> flag == 1)
    ensures GetDecision(PutFlagged(a, flag, tail)) == Some((a, tail))
  {
    var t12 := PutInt(1, a.bump, tail);
    var t11 := PutInt(1, flag, t12);
    var t10 := PutInt(8, a.settleSlot, t11);
    var t9 := PutInt(8, a.pnl, t10);
    var t8 := PutInt(1, a.outcomeSide, t9);
    var t7 := PutInt(1, a.status, t8);
    var t6 := PutInt(8, a.commitUnixTs, t7);
    var t5 := PutInt(8, a.commitSlot, t6);
    var t4 := PutInt(2, a.market, t5);
    var t3 := PutInt(8, a.fixtureId, t4);
    var t2 := PutBytes(a.commitHash, t3);
    var t1 := PutInt(8, a.index, t2);
    BytesRoundTrip(a.strategy, t1);
    UnsignedRoundTrip(8, a.index, t2);
    BytesRoundTrip(a.commitHash, t3);
    SignedRoundTrip(8, a.fixtureId, t4);
    UnsignedRoundTrip(2, a.market, t5);
    UnsignedRoundTrip(8, a.commitSlot, t6);
    SignedRoundTrip(8, a.commitUnixTs, t7);
    UnsignedRoundTrip(1, a.status, t8);
    UnsignedRoundTrip(1, a.outcomeSide, t9);
    SignedRoundTrip(8, a.pnl, t10);
    UnsignedRoundTrip(8, a.settleSlot, t11);
    UnsignedRoundTrip(1, flag, t12);
    UnsignedRoundTrip(1, a.bump, tail);
  }

  lemma GetDecisionInverts(a: DecisionAccount, tail: seq<byte>)
    requires DecisionFits(a)
    ensures GetDecision(PutDecision(a, tail)) == Some((a, tail))
  {
    Pow256Values();
    GetFlaggedInverts(a, if a.entryOddsProven then 1 else 0, tail);
  }

  /** Two accounts with equal serializations are equal. */
  lemma StrategyIsPrefixFree(a: StrategyAccount, b: StrategyAccount, s: seq<byte>, t: seq<byte>)
    requires StrategyFits(a) && StrategyFits(b) && PutStrategy(a, s) == PutStrategy(b, t)
    ensures a == b && s == t
  {
    GetStrategyInverts(a, s);
    GetStrategyInverts(b, t);
  }

  lemma DecisionIsPrefixFree(a: DecisionAccount, b: DecisionAccount, s: seq<byte>, t: seq<byte>)
    requires DecisionFits(a) && DecisionFits(b) && PutDecision(a, s) == PutDecision(b, t)
    ensures a == b && s == t
  {
    GetDecisionInverts(a, s);
    GetDecisionInverts(b, t);
  }

  lemma Headed(discriminator: seq<byte>, body: seq<byte>)
    requires |discriminator| == DISCRIMINATOR_SIZE
    ensures var data := discriminator + body;
            data[..DISCRIMINATOR_SIZE] == discriminator && data[DISCRIMINATOR_SIZE..] == body
  {
  }

  /** Writing an account and decoding the data, with any trailing bytes, gives the account back. */
  lemma StrategyRoundTrip(a: StrategyAccount, discriminator: seq<byte>, trailing: seq<byte>)
    requires |discriminator| == DISCRIMINATOR_SIZE && StrategyFits(a)
    ensures StrategyIn(discriminator + PutStrategy(a, trailing), discriminator) == Ok(a)
  {
    Headed(discriminator, PutStrategy(a, trailing));
    StrategySize(a, trailing);
    GetStrategyInverts(a, trailing);
  }

  lemma DecisionRoundTrip(a: DecisionAccount, discriminator: seq<byte>, trailing: seq<byte>)
    requires |discriminator| == DISCRIMINATOR_SIZE && DecisionFits(a)
    ensures DecisionIn(discriminator + PutDecision(a, trailing), discriminator) == Ok(a)
  {
    Headed(discriminator, PutDecision(a, trailing));
    DecisionSize(a, trailing);
    GetDecisionInverts(a, trailing);
  }

  lemma StrategySize(a: StrategyAccount, tail: seq<byte>)
    requires StrategyFits(a)
    ensures |PutStrategy(a, tail)| == STRATEGY_BODY_SIZE + |tail|
  {
  }

  lemma DecisionSize(a: DecisionAccount, tail: seq<byte>)
    requires DecisionFits(a)
    ensures |PutDecision(a, tail)| == DECISION_BODY_SIZE + |tail|
  {
  }
}
