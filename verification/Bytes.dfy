/** Little-endian integers over bytes, and the scalar layer of the Borsh format. Encoders take the bytes
    that follow as a continuation, so that a struct's encoding nests and its decoder peels. */
module Bytes {
  import opened Prelude

  type byte = b: int | 0 <= b < 256

  const U32_LIMIT := 0x1_0000_0000

  function Pow256(n: nat): (p: nat)
    ensures 0 < p
  {
    if n == 0 then 1 else 256 * Pow256(n - 1)
  }

  /** The low n bytes of v, least significant first. Euclidean division makes this two's complement for
      negative v, and an out-of-range v wraps, as the source's DataView writers do. */
  function LittleEndian(n: nat, v: int): (s: seq<byte>)
    ensures |s| == n
  {
    if n == 0 then [] else [v % 256] + LittleEndian(n - 1, v / 256)
  }

  function Unsigned(s: seq<byte>): (v: nat)
    ensures v < Pow256(|s|)
  {
    if |s| == 0 then 0 else s[0] + 256 * Unsigned(s[1..])
  }

  function Signed(s: seq<byte>): int {
    var u := Unsigned(s);
    if 2 * u >= Pow256(|s|) then u - Pow256(|s|) else u
  }

  predicate FitsUnsigned(n: nat, v: int) { 0 <= v < Pow256(n) }

  predicate FitsSigned(n: nat, v: int) { 0 - Pow256(n) <= 2 * v < Pow256(n) }

  lemma {:induction false} UnsignedInverts(n: nat, v: int)
    ensures 0 <= v < Pow256(n) ==> Unsigned(LittleEndian(n, v)) == v
    ensures 0 - Pow256(n) <= v < 0 ==> Unsigned(LittleEndian(n, v)) == v + Pow256(n)
  {
    if n > 0 {
      UnsignedInverts(n - 1, v / 256);
      assert LittleEndian(n, v)[1..] == LittleEndian(n - 1, v / 256);
    }
  }

  lemma SignedInverts(n: nat, v: int)
    requires FitsSigned(n, v)
    ensures Signed(LittleEndian(n, v)) == v
  {
    UnsignedInverts(n, v);
  }

  lemma Quotient256(low: int, high: int)
    requires 0 <= low < 256
    ensures (low + 256 * high) / 256 == high && (low + 256 * high) % 256 == low
  {
  }

  lemma {:induction false} LittleEndianInverts(s: seq<byte>)
    ensures LittleEndian(|s|, Unsigned(s)) == s
    ensures LittleEndian(|s|, Unsigned(s) - Pow256(|s|)) == s
  {
    if |s| > 0 {
      LittleEndianInverts(s[1..]);
      var u: int, p: int := Unsigned(s[1..]), Pow256(|s| - 1);
      Quotient256(s[0], u);
      Quotient256(s[0], u - p);
      assert s == [s[0]] + s[1..];
    }
  }

  lemma Pow256Values()
    ensures Pow256(1) == 0x100 && Pow256(2) == 0x1_0000 && Pow256(4) == U32_LIMIT
    ensures Pow256(8) == U32_LIMIT * U32_LIMIT
  {
    assert Pow256(1) == 0x100 && Pow256(2) == 0x1_0000;
    assert Pow256(3) == 0x100_0000 && Pow256(4) == U32_LIMIT;
    assert Pow256(5) == 256 * U32_LIMIT && Pow256(6) == 256 * Pow256(5);
    assert Pow256(7) == 256 * Pow256(6) && Pow256(8) == 256 * Pow256(7);
  }

  // ---------------------------------------------------------------------------------------------
  // Encoders with a continuation

  function PutInt(n: nat, v: int, tail: seq<byte>): seq<byte> { LittleEndian(n, v) + tail }

  function PutBytes(bytes: seq<byte>, tail: seq<byte>): seq<byte> { bytes + tail }

  function PutBool(b: bool, tail: seq<byte>): seq<byte> { PutInt(1, if b then 1 else 0, tail) }

  /** A u32 length prefix, then the bytes; a length of 2^32 or more wraps, as in the source. */
  function PutStr(s: seq<byte>, tail: seq<byte>): seq<byte> { PutInt(4, |s|, PutBytes(s, tail)) }

  function PutOptStr(s: Option<seq<byte>>, tail: seq<byte>): seq<byte> {
    match s
    case None => PutInt(1, 0, tail)
    case Some(v) => PutInt(1, 1, PutStr(v, tail))
  }

  function PutEach<T>(put: (T, seq<byte>) -> seq<byte>, xs: seq<T>, tail: seq<byte>): seq<byte> {
    if |xs| == 0 then tail else put(xs[0], PutEach(put, xs[1..], tail))
  }

  function PutVec<T>(put: (T, seq<byte>) -> seq<byte>, xs: seq<T>, tail: seq<byte>): seq<byte> {
    PutInt(4, |xs|, PutEach(put, xs, tail))
  }

  // ---------------------------------------------------------------------------------------------
  // Decoders

  function GetBytes(n: nat, s: seq<byte>): Option<(seq<byte>, seq<byte>)> {
    if |s| < n then None else Some((s[..n], s[n..]))
  }

  function GetUnsigned(n: nat, s: seq<byte>): Option<(int, seq<byte>)> {
    var (b, rest) :- GetBytes(n, s);
    Some((Unsigned(b), rest))
  }

  function GetSigned(n: nat, s: seq<byte>): Option<(int, seq<byte>)> {
    var (b, rest) :- GetBytes(n, s);
    Some((Signed(b), rest))
  }

  function GetBool(s: seq<byte>): Option<(bool, seq<byte>)> {
    var (tag, rest) :- GetUnsigned(1, s);
    if tag == 0 then Some((false, rest)) else if tag == 1 then Some((true, rest)) else None
  }

  function GetStr(s: seq<byte>): Option<(seq<byte>, seq<byte>)> {
    var (length, rest) :- GetUnsigned(4, s);
    GetBytes(length, rest)
  }

  function GetOptStr(s: seq<byte>): Option<(Option<seq<byte>>, seq<byte>)> {
    var (tag, rest) :- GetUnsigned(1, s);
    if tag == 0 then Some((None, rest))
    else if tag == 1 then
      var (v, after) :- GetStr(rest);
      Some((Some(v), after))
    else None
  }

  function GetEach<T>(get: seq<byte> -> Option<(T, seq<byte>)>, n: nat, s: seq<byte>)
    : (r: Option<(seq<T>, seq<byte>)>)
    ensures r.Some? ==> |r.value.0| == n
  {
    if n == 0 then Some(([], s))
    else
      var (x, rest) :- get(s);
      var (xs, after) :- GetEach(get, n - 1, rest);
      Some(([x] + xs, after))
  }

  function GetVec<T>(get: seq<byte> -> Option<(T, seq<byte>)>, s: seq<byte>): Option<(seq<T>, seq<byte>)> {
    var (length, rest) :- GetUnsigned(4, s);
    GetEach(get, length, rest)
  }

  // ---------------------------------------------------------------------------------------------
  // Round trips

  lemma BytesRoundTrip(b: seq<byte>, tail: seq<byte>)
    ensures GetBytes(|b|, PutBytes(b, tail)) == Some((b, tail))
  {
  }

  lemma UnsignedRoundTrip(n: nat, v: int, tail: seq<byte>)
    requires FitsUnsigned(n, v)
    ensures GetUnsigned(n, PutInt(n, v, tail)) == Some((v, tail))
  {
    BytesRoundTrip(LittleEndian(n, v), tail);
    UnsignedInverts(n, v);
  }

  lemma SignedRoundTrip(n: nat, v: int, tail: seq<byte>)
    requires FitsSigned(n, v)
    ensures GetSigned(n, PutInt(n, v, tail)) == Some((v, tail))
  {
    BytesRoundTrip(LittleEndian(n, v), tail);
    SignedInverts(n, v);
  }

  lemma BoolRoundTrip(b: bool, tail: seq<byte>)
    ensures GetBool(PutBool(b, tail)) == Some((b, tail))
  {
    Pow256Values();
    UnsignedRoundTrip(1, if b then 1 else 0, tail);
  }

  /** A string survives exactly when its length fits the u32 prefix. */
  lemma StrRoundTripIff(s: seq<byte>, tail: seq<byte>)
    ensures GetStr(PutStr(s, tail)) == Some((s, tail)) <==> |s| < U32_LIMIT
  {
    Pow256Values();
    if |s| < U32_LIMIT {
      UnsignedRoundTrip(4, |s|, PutBytes(s, tail));
      BytesRoundTrip(s, tail);
    } else {
      StrIsShort(PutStr(s, tail));
    }
  }

  lemma StrIsShort(s: seq<byte>)
    ensures GetStr(s).Some? ==> |GetStr(s).value.0| < U32_LIMIT
  {
    Pow256Values();
  }

  predicate OptFits(s: Option<seq<byte>>) { s.Some? ==> |s.value| < U32_LIMIT }

  lemma OptStrRoundTrip(s: Option<seq<byte>>, tail: seq<byte>)
    requires OptFits(s)
    ensures GetOptStr(PutOptStr(s, tail)) == Some((s, tail))
  {
    Pow256Values();
    match s
    case None => UnsignedRoundTrip(1, 0, tail);
    case Some(v) =>
      UnsignedRoundTrip(1, 1, PutStr(v, tail));
      StrRoundTripIff(v, tail);
  }

  lemma OptStrIsShort(s: seq<byte>)
    ensures GetOptStr(s).Some? ==> OptFits(GetOptStr(s).value.0)
  {
    var tag := GetUnsigned(1, s);
    if tag.Some? {
      StrIsShort(tag.value.1);
    }
  }

  lemma {:induction false} EachRoundTrip<T>(
    put: (T, seq<byte>) -> seq<byte>, get: seq<byte> -> Option<(T, seq<byte>)>, xs: seq<T>, tail: seq<byte>)
    requires forall x, k :: x in xs ==> get(put(x, k)) == Some((x, k))
    ensures GetEach(get, |xs|, PutEach(put, xs, tail)) == Some((xs, tail))
  {
    if |xs| > 0 {
      EachRoundTrip(put, get, xs[1..], tail);
      var rest := PutEach(put, xs[1..], tail);
      assert get(put(xs[0], rest)) == Some((xs[0], rest));
      assert xs == [xs[0]] + xs[1..];
    }
  }

  lemma VecRoundTrip<T>(
    put: (T, seq<byte>) -> seq<byte>, get: seq<byte> -> Option<(T, seq<byte>)>, xs: seq<T>, tail: seq<byte>)
    requires forall x, k :: x in xs ==> get(put(x, k)) == Some((x, k))
    requires |xs| < U32_LIMIT
    ensures GetVec(get, PutVec(put, xs, tail)) == Some((xs, tail))
  {
    Pow256Values();
    UnsignedRoundTrip(4, |xs|, PutEach(put, xs, tail));
    EachRoundTrip(put, get, xs, tail);
  }

  lemma VecIsShort<T>(get: seq<byte> -> Option<(T, seq<byte>)>, s: seq<byte>)
    ensures GetVec(get, s).Some? ==> |GetVec(get, s).value.0| < U32_LIMIT
  {
    Pow256Values();
  }

  /** Elements of a decoded vector satisfy whatever every decoded element satisfies. */
  lemma {:induction false} EachSatisfies<T(!new)>(
    get: seq<byte> -> Option<(T, seq<byte>)>, P: T -> bool, n: nat, s: seq<byte>)
    requires forall b :: get(b).Some? ==> P(get(b).value.0)
    ensures GetEach(get, n, s).Some? ==> forall x :: x in GetEach(get, n, s).value.0 ==> P(x)
  {
    if n > 0 && GetEach(get, n, s).Some? {
      EachSatisfies(get, P, n - 1, get(s).value.1);
    }
  }
}
