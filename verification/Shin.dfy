/** De-vigging a book of odds: proportional normalisation, and Shin's method solved by bisection. Reals stand
    for the program's floating-point numbers. */
module Shin {
  import opened Prelude
  import opened Domain

  const SHIN_MAX_ITERS := 200
  const SHIN_TOLERANCE: real := 0.000000000001
  const SHIN_Z_UPPER: real := 0.999999999

  datatype QuantError = EmptyMarket | DegenerateBook | NoConvergence

  datatype Priced = Priced(outcome: Outcome, fairProb: real)

  datatype Book = Book(outcomes: seq<Priced>, booksum: real, overround: real, shinZ: Option<real>)

  /** Any square root will do. */
  ghost predicate IsSqrt(sqrt: real -> real) {
    forall x: real :: 0.0 <= x ==> 0.0 <= sqrt(x) && sqrt(x) * sqrt(x) == x
  }

  function Total(s: seq<real>): real {
    if |s| == 0 then 0.0 else Total(s[..|s| - 1]) + s[|s| - 1]
  }

  /** The implied probability of decimal odds, never above 1000/1001. */
  function Implied(odds: OddsMilli): (r: real)
    ensures r * odds as real == 1000.0 && 0.0 < r && r * 1001.0 <= 1000.0
  {
    ImpliedIsBelowOne(odds);
    1000.0 / odds as real
  }

  lemma ImpliedIsBelowOne(odds: OddsMilli)
    ensures 1000.0 / odds as real * odds as real == 1000.0
    ensures 0.0 < 1000.0 / odds as real && 1000.0 / odds as real * 1001.0 <= 1000.0
  {
    var r, o := 1000.0 / odds as real, odds as real;
    assert r * o == 1000.0 && o >= 1001.0;
  }

  function Implieds(lines: seq<OddsLine>): seq<real> {
    seq(|lines|, i requires 0 <= i < |lines| => Implied(lines[i].odds))
  }

  function Clamp(v: real): real { if v < 0.0 then 0.0 else if v > 1.0 then 1.0 else v }

  // Order facts about products. A product gets a name of its own wherever it has to be recognised later.

  function Times(a: real, b: real): real { a * b }

  lemma ProductIsPositive(a: real, b: real, ab: real)
    requires 0.0 < a && 0.0 < b && ab == a * b
    ensures 0.0 < ab
  {
  }

  lemma QuotientIsPositive(a: real, b: real)
    requires 0.0 < a && 0.0 < b
    ensures 0.0 < a / b
  {
    assert a / b * b == a;
  }

  lemma ProductOrders(k: real, a: real, b: real, ka: real, kb: real)
    requires 0.0 < k && a < b && ka == k * a && kb == k * b
    ensures ka < kb
  {
    ProductIsPositive(k, b - a, kb - ka);
  }

  lemma SquaresOrder(a: real, b: real, aa: real, bb: real)
    requires 0.0 <= a && 0.0 <= b && aa == a * a && bb == b * b
    ensures a < b <==> aa < bb
  {
    if 0.0 < a < b {
      ProductOrders(a, a, b, aa, a * b);
      ProductOrders(b, a, b, a * b, bb);
    } else if 0.0 < b < a {
      ProductOrders(b, b, a, bb, a * b);
      ProductOrders(a, b, a, a * b, aa);
    } else if a == 0.0 && 0.0 < b {
      ProductIsPositive(b, b, bb);
    } else if b == 0.0 && 0.0 < a {
      ProductIsPositive(a, a, aa);
    }
  }

  // ---------------------------------------------------------------------------------------------
  // One outcome

  function Discriminant(r: real, booksum: real, z: real): real
    requires 0.0 < booksum
  {
    z * z + 4.0 * (1.0 - z) * r * r / booksum
  }

  function RootFrom(s: real, z: real): real
    requires z < 1.0
  {
    (s - z) / (2.0 * (1.0 - z))
  }

  /** Shin's probability for one outcome at an insider fraction z. */
  function ShinProb(sqrt: real -> real, r: real, booksum: real, z: real): real
    requires z < 1.0 && 0.0 < booksum
  {
    RootFrom(sqrt(Discriminant(r, booksum, z)), z)
  }

  /** Shin's quadratic without its constant term. */
  function Quadratic(z: real, p: real): real { (1.0 - z) * (p * p) + z * p }

  /** A positive root for an outcome's share c: its squared implied probability over the booksum. */
  predicate IsRoot(c: real, z: real, p: real) { 0.0 < p && Quadratic(z, p) == c }

  function Share(r: real, booksum: real): real
    requires 0.0 < booksum
  {
    r * r / booksum
  }

  lemma ShareIsPositive(r: real, booksum: real)
    requires 0.0 < r && 0.0 < booksum
    ensures 0.0 < Share(r, booksum)
  {
    var rr := r * r;
    ProductIsPositive(r, r, rr);
    QuotientIsPositive(rr, booksum);
  }

  lemma DiscriminantShape(z: real, r: real, booksum: real)
    requires 0.0 < booksum
    ensures Discriminant(r, booksum, z) == z * z + 4.0 * (1.0 - z) * Share(r, booksum)
  {
    var k, q := 4.0 * (1.0 - z), r * r;
    assert 4.0 * (1.0 - z) * r * r == k * q;
    assert k * q / booksum == k * (q / booksum);
  }

  lemma HalfSquare(z: real, s: real, p: real, c: real)
    requires z < 1.0 && p * (2.0 * (1.0 - z)) == s - z && s * s == z * z + 4.0 * (1.0 - z) * c
    ensures Quadratic(z, p) == c
  {
    var w := 1.0 - z;
    assert s == 2.0 * w * p + z;
    assert s * s == 4.0 * w * (w * (p * p) + z * p) + z * z;
    assert 4.0 * w * (w * (p * p) + z * p) == 4.0 * w * c;
  }

  /** Its square root exceeds z, so the root it gives is the positive one. */
  lemma DiscriminantRoot(sqrt: real -> real, z: real, c: real, d: real)
    requires IsSqrt(sqrt) && 0.0 <= z < 1.0 && 0.0 < c && d == z * z + 4.0 * (1.0 - z) * c
    ensures z < sqrt(d) && sqrt(d) * sqrt(d) == d
  {
    var zz, wc := z * z, (1.0 - z) * c;
    ProductIsPositive(1.0 - z, c, wc);
    assert d == zz + 4.0 * wc && 0.0 <= zz;
    SquaresOrder(z, sqrt(d), zz, d);
  }

  /** The closed form is the positive root of the quadratic. */
  lemma ShinProbIsRoot(sqrt: real -> real, r: real, booksum: real, z: real)
    requires IsSqrt(sqrt) && 0.0 <= z < 1.0 && 0.0 < r && 0.0 < booksum
    ensures IsRoot(Share(r, booksum), z, ShinProb(sqrt, r, booksum, z))
  {
    ShareIsPositive(r, booksum);
    DiscriminantShape(z, r, booksum);
    RootOfShare(sqrt, Share(r, booksum), z, Discriminant(r, booksum, z));
  }

  lemma RootOfShare(sqrt: real -> real, c: real, z: real, d: real)
    requires IsSqrt(sqrt) && 0.0 <= z < 1.0 && 0.0 < c && d == z * z + 4.0 * (1.0 - z) * c
    ensures IsRoot(c, z, RootFrom(sqrt(d), z))
  {
    DiscriminantRoot(sqrt, z, c, d);
    PositiveRoot(z, sqrt(d), c);
  }

  lemma PositiveRoot(z: real, s: real, c: real)
    requires z < 1.0 && z < s && s * s == z * z + 4.0 * (1.0 - z) * c
    ensures IsRoot(c, z, RootFrom(s, z))
  {
    var w := 2.0 * (1.0 - z);
    var p := (s - z) / w;
    QuotientIsPositive(s - z, w);
    assert p * w == s - z;
    HalfSquare(z, s, p, c);
  }

  lemma QuadraticIncreases(z: real, p: real, q: real)
    requires 0.0 <= z < 1.0 && 0.0 < p < q
    ensures Quadratic(z, p) < Quadratic(z, q)
  {
    var pp, qq := p * p, q * q;
    SquaresOrder(p, q, pp, qq);
    ProductOrders(1.0 - z, pp, qq, (1.0 - z) * pp, (1.0 - z) * qq);
    if z > 0.0 {
      ProductOrders(z, p, q, z * p, z * q);
    }
  }

  lemma RootBelowOne(c: real, z: real, p: real)
    requires 0.0 <= z < 1.0 && c < 1.0 && IsRoot(c, z, p)
    ensures p < 1.0
  {
    if p > 1.0 {
      QuadraticIncreases(z, 1.0, p);
    }
  }

  lemma QuadraticInZ(z: real, y: real, p: real)
    ensures Quadratic(y, p) - Quadratic(z, p) == (y - z) * (p * (1.0 - p))
  {
  }

  /** A larger insider fraction gives every outcome less. */
  lemma RootDecreasesInZ(c: real, z: real, p: real, y: real, q: real)
    requires 0.0 <= z < y < 1.0 && c < 1.0 && IsRoot(c, z, p) && IsRoot(c, y, q)
    ensures q < p
  {
    RootBelowOne(c, z, p);
    QuadraticInZ(z, y, p);
    var spread := p * (1.0 - p);
    ProductIsPositive(p, 1.0 - p, spread);
    ProductIsPositive(y - z, spread, (y - z) * spread);
    if p < q {
      QuadraticIncreases(y, p, q);
    }
  }

  /** A larger share gives an outcome more, and equal shares the same. */
  lemma RootIncreasesInShare(c: real, p: real, d: real, q: real, z: real)
    requires 0.0 <= z < 1.0 && IsRoot(c, z, p) && IsRoot(d, z, q)
    ensures c < d <==> p < q
  {
    if p < q {
      QuadraticIncreases(z, p, q);
    } else if q < p {
      QuadraticIncreases(z, q, p);
    }
  }

  lemma ShareBelowOne(r: real, booksum: real)
    requires 0.0 < r < 1.0 < booksum
    ensures Share(r, booksum) < 1.0
  {
    var rr := r * r;
    SquaresOrder(r, 1.0, rr, 1.0);
    QuotientsOrder(rr, booksum, booksum);
    assert booksum / booksum == 1.0;
  }

  lemma SharesOrder(r: real, s: real, booksum: real)
    requires 0.0 < r && 0.0 < s && 0.0 < booksum
    ensures r < s <==> Share(r, booksum) < Share(s, booksum)
  {
    var rr, ss := r * r, s * s;
    SquaresOrder(r, s, rr, ss);
    QuotientsOrder(rr, ss, booksum);
  }

  lemma QuotientsOrder(a: real, b: real, k: real)
    requires 0.0 < k
    ensures a < b <==> a / k < b / k
  {
    var x, y := a / k, b / k;
    assert x * k == a && y * k == b;
    if x < y {
      ProductOrders(k, x, y, a, b);
    } else if y < x {
      ProductOrders(k, y, x, b, a);
    }
  }

  /** Shin shifts probability from longshots to favourites: the ratio of Shin's probability to the implied one
      grows with the implied one. */
  lemma FavouriteLongshot(z: real, booksum: real, r: real, p: real, s: real, q: real)
    requires 0.0 < z < 1.0 && 0.0 < booksum && 0.0 < r < s
    requires IsRoot(Share(r, booksum), z, p) && IsRoot(Share(s, booksum), z, q)
    ensures p / r < q / s
  {
    var u, v := p / r, q / s;
    QuotientIsPositive(p, r);
    QuotientIsPositive(q, s);
    assert u * r == p && v * s == q;
    var uu, vv, rs, k := u * u, v * v, r * s, 1.0 - z;
    RatioEquation(k, z, booksum, r, p, u, uu);
    RatioEquation(k, z, booksum, s, q, v, vv);
    if v <= u {
      RatiosMeet(k, z, booksum, r, s, u, v, uu, vv);
      SquaresOrder(u, v, uu, vv);
      ProductIsPositive(r, s, rs);
      ProductIsPositive(k, rs, k * rs);
      ProductsKeepOrder(k * rs, vv, uu);
      CrossGap(z, r, s, u, v);
    }
  }

  lemma ProductsKeepOrder(k: real, a: real, b: real)
    requires 0.0 < k && a <= b
    ensures k * a <= k * b
  {
    if a < b {
      ProductOrders(k, a, b, k * a, k * b);
    }
  }

  lemma CrossGap(z: real, r: real, s: real, u: real, v: real)
    requires 0.0 < z && 0.0 < r < s && 0.0 < v <= u
    ensures z * (v * r) < z * (u * s)
  {
    var vr, vs, us := v * r, v * s, u * s;
    ProductOrders(v, r, s, vr, vs);
    ProductsKeepOrder(s, v, u);
    assert s * v == vs && s * u == us;
    ProductOrders(z, vr, us, z * vr, z * us);
  }

  /** The quadratic divided by the implied probability, in terms of their ratio. */
  lemma RatioEquation(k: real, z: real, booksum: real, r: real, p: real, u: real, uu: real)
    requires k == 1.0 - z && 0.0 < booksum && 0.0 < r && p == u * r && uu == u * u
    requires IsRoot(Share(r, booksum), z, p)
    ensures k * uu * r + z * u == r / booksum
  {
    var left := k * uu * r + z * u;
    assert Quadratic(z, p) == left * r;
    assert r * r / booksum == r / booksum * r;
    assert left * r == (r / booksum) * r;
    assert (left - r / booksum) * r == 0.0;
  }

  lemma RatiosMeet(k: real, z: real, booksum: real, r: real, s: real, u: real, v: real, uu: real, vv: real)
    requires 0.0 < booksum && uu == u * u && vv == v * v
    requires k * uu * r + z * u == r / booksum && k * vv * s + z * v == s / booksum
    ensures (k * (r * s)) * uu + z * (u * s) == (k * (r * s)) * vv + z * (v * r)
  {
    assert (k * uu * r + z * u) * s == r / booksum * s;
    assert (k * vv * s + z * v) * r == s / booksum * r;
    assert r / booksum * s == s / booksum * r;
  }

  // ---------------------------------------------------------------------------------------------
  // Totals

  lemma {:induction false} TotalsOrder(a: seq<real>, b: seq<real>)
    requires |a| == |b| && forall i :: 0 <= i < |a| ==> a[i] < b[i]
    ensures |a| > 0 ==> Total(a) < Total(b)
  {
    if |a| > 0 {
      TotalsOrder(a[..|a| - 1], b[..|b| - 1]);
    }
  }

  lemma {:induction false} TotalScales(k: real, a: seq<real>, b: seq<real>)
    requires |a| == |b| && forall i :: 0 <= i < |a| ==> b[i] == k * a[i]
    ensures Total(b) == Times(k, Total(a))
  {
    if |a| > 0 {
      TotalScales(k, a[..|a| - 1], b[..|b| - 1]);
      assert k * Total(a) == k * Total(a[..|a| - 1]) + k * a[|a| - 1];
    }
  }

  /** A total of positive numbers is positive, and exceeds each of them when there are several. */
  lemma {:induction false} TotalExceeds(s: seq<real>, i: nat)
    requires forall k :: 0 <= k < |s| ==> 0.0 < s[k]
    ensures |s| > 0 ==> 0.0 < Total(s)
    ensures i < |s| ==> s[i] <= Total(s)
    ensures i < |s| && |s| > 1 ==> s[i] < Total(s)
  {
    if |s| > 0 {
      TotalExceeds(s[..|s| - 1], i);
    }
  }

  // ---------------------------------------------------------------------------------------------
  // The book

  predicate Quoted(rs: seq<real>) { forall i :: 0 <= i < |rs| ==> 0.0 < rs[i] && rs[i] * 1001.0 <= 1000.0 }

  function ShinProbs(sqrt: real -> real, rs: seq<real>, booksum: real, z: real): seq<real>
    requires z < 1.0 && 0.0 < booksum
  {
    seq(|rs|, i requires 0 <= i < |rs| => ShinProb(sqrt, rs[i], booksum, z))
  }

  function ShinSum(sqrt: real -> real, rs: seq<real>, booksum: real, z: real): real
    requires z < 1.0 && 0.0 < booksum
  {
    Total(ShinProbs(sqrt, rs, booksum, z))
  }

  /** The sum of Shin's probabilities strictly decreases in the insider fraction. */
  lemma ShinSumDecreases(sqrt: real -> real, rs: seq<real>, booksum: real, z: real, y: real)
    requires IsSqrt(sqrt) && Quoted(rs) && |rs| > 0 && 1.0 < booksum && 0.0 <= z < y < 1.0
    ensures ShinSum(sqrt, rs, booksum, y) < ShinSum(sqrt, rs, booksum, z)
  {
    var ps, qs := ShinProbs(sqrt, rs, booksum, z), ShinProbs(sqrt, rs, booksum, y);
    forall i | 0 <= i < |rs|
      ensures qs[i] < ps[i]
    {
      ShinProbIsRoot(sqrt, rs[i], booksum, z);
      ShinProbIsRoot(sqrt, rs[i], booksum, y);
      ShareBelowOne(rs[i], booksum);
      RootDecreasesInZ(Share(rs[i], booksum), z, ps[i], y, qs[i]);
    }
    TotalsOrder(qs, ps);
  }

  /** Without insiders the probabilities are the implied ones over the square root of the booksum. */
  lemma RootAtZero(r: real, booksum: real, t: real, p: real)
    requires 0.0 < r && 0.0 < booksum && 0.0 < t && t * t == booksum && IsRoot(Share(r, booksum), 0.0, p)
    ensures r == t * p
  {
    var pt, pp, rr := t * p, p * p, r * r;
    assert pp == rr / booksum;
    assert pp * booksum == rr;
    assert pt * pt == pp * (t * t);
    ProductIsPositive(t, p, pt);
    SquaresOrder(pt, r, pt * pt, rr);
    SquaresOrder(r, pt, rr, pt * pt);
  }

  lemma ShinSumAtZero(sqrt: real -> real, rs: seq<real>)
    requires IsSqrt(sqrt) && Quoted(rs) && 1.0 < Total(rs)
    ensures 1.0 < ShinSum(sqrt, rs, Total(rs), 0.0)
  {
    var booksum := Total(rs);
    var t := sqrt(booksum);
    SquaresOrder(1.0, t, 1.0, booksum);
    var ps := ShinProbs(sqrt, rs, booksum, 0.0);
    ShinProbsAreRoots(sqrt, rs, booksum, 0.0);
    RootsAtZero(ps, rs, booksum, t);
  }

  lemma RootsAtZero(ps: seq<real>, rs: seq<real>, booksum: real, t: real)
    requires Quoted(rs) && 1.0 < booksum == Total(rs) && 1.0 < t && t * t == booksum && AreRoots(ps, rs, booksum, 0.0)
    ensures 1.0 < Total(ps)
  {
    RootsScale(ps, rs, booksum, t);
    TotalScales(t, ps, rs);
    ExceedsOne(t, Total(ps), booksum);
  }

  lemma RootsScale(ps: seq<real>, rs: seq<real>, booksum: real, t: real)
    requires Quoted(rs) && 0.0 < booksum && 0.0 < t && t * t == booksum && AreRoots(ps, rs, booksum, 0.0)
    ensures forall i :: 0 <= i < |rs| ==> rs[i] == t * ps[i]
  {
    forall i | 0 <= i < |rs|
      ensures rs[i] == t * ps[i]
    {
      RootAtZero(rs[i], booksum, t, ps[i]);
    }
  }

  lemma ExceedsOne(t: real, total: real, booksum: real)
    requires 1.0 < t && t * t == booksum == Times(t, total)
    ensures 1.0 < total
  {
    assert t * (total - t) == 0.0;
  }

  lemma RootBelowShare(c: real, z: real, p: real)
    requires 0.0 <= z < 1.0 && IsRoot(c, z, p)
    ensures z * p < c
  {
    var pp := p * p;
    ProductIsPositive(p, p, pp);
    ProductIsPositive(1.0 - z, pp, (1.0 - z) * pp);
  }

  lemma ShareIsBounded(r: real, booksum: real, k: real)
    requires 0.0 < r && r * 1001.0 <= 1000.0 && 0.0 < booksum && k * booksum == 1000.0 / 1001.0
    ensures Share(r, booksum) <= k * r
  {
    var rr, kr, m := r * r, k * r * booksum, 1000.0 / 1001.0;
    assert kr == m * r;
    if r < m {
      ProductOrders(r, r, m, rr, kr);
      QuotientsOrder(rr, kr, booksum);
    }
    assert kr / booksum == k * r;
  }

  lemma RootIsBounded(r: real, booksum: real, z: real, p: real, k: real)
    requires 0.0 < r && r * 1001.0 <= 1000.0 && 0.0 < booksum && 0.0 <= z < 1.0
    requires k * booksum == 1000.0 / 1001.0 && IsRoot(Share(r, booksum), z, p)
    ensures z * p < k * r
  {
    RootBelowShare(Share(r, booksum), z, p);
    ShareIsBounded(r, booksum, k);
  }

  lemma {:induction false} TotalsBound(z: real, ps: seq<real>, k: real, rs: seq<real>)
    requires |ps| == |rs| && forall i :: 0 <= i < |ps| ==> z * ps[i] < k * rs[i]
    ensures |ps| > 0 ==> Times(z, Total(ps)) < Times(k, Total(rs))
  {
    if |ps| > 0 {
      var n := |ps| - 1;
      TotalsBound(z, ps[..n], k, rs[..n]);
      assert z * Total(ps) == z * Total(ps[..n]) + z * ps[n];
      assert k * Total(rs) == k * Total(rs[..n]) + k * rs[n];
    }
  }

  /** Every element of ps is the root for the implied probability at its place. */
  ghost predicate AreRoots(ps: seq<real>, rs: seq<real>, booksum: real, z: real)
    requires 0.0 < booksum
  {
    |ps| == |rs| && forall i :: 0 <= i < |rs| ==> IsRoot(Share(rs[i], booksum), z, ps[i])
  }

  lemma ShinProbsAreRoots(sqrt: real -> real, rs: seq<real>, booksum: real, z: real)
    requires IsSqrt(sqrt) && Quoted(rs) && 0.0 < booksum && 0.0 <= z < 1.0
    ensures AreRoots(ShinProbs(sqrt, rs, booksum, z), rs, booksum, z)
  {
    forall i | 0 <= i < |rs|
      ensures IsRoot(Share(rs[i], booksum), z, ShinProb(sqrt, rs[i], booksum, z))
    {
      ShinProbIsRoot(sqrt, rs[i], booksum, z);
    }
  }

  lemma RootsAreBounded(ps: seq<real>, rs: seq<real>, booksum: real, z: real, k: real)
    requires Quoted(rs) && 0.0 < booksum && 0.0 <= z < 1.0 && AreRoots(ps, rs, booksum, z)
    requires Times(k, booksum) == 1000.0 / 1001.0
    ensures forall i :: 0 <= i < |rs| ==> z * ps[i] < k * rs[i]
  {
    hide IsRoot, Quadratic, Share;
    forall i | 0 <= i < |rs|
      ensures z * ps[i] < k * rs[i]
    {
      RootIsBounded(rs[i], booksum, z, ps[i], k);
    }
  }

  /** The sum is below the largest implied probability over the insider fraction. */
  lemma TotalIsBounded(ps: seq<real>, rs: seq<real>, z: real)
    requires Quoted(rs) && |rs| > 0 && 0.0 < Total(rs) && 0.0 <= z < 1.0 && AreRoots(ps, rs, Total(rs), z)
    ensures Times(z, Total(ps)) < 1000.0 / 1001.0
  {
    var k := Scale(Total(rs));
    RootsAreBounded(ps, rs, Total(rs), z, k);
    TotalsBound(z, ps, k, rs);
  }

  lemma Scale(booksum: real) returns (k: real)
    requires 0.0 < booksum
    ensures Times(k, booksum) == 1000.0 / 1001.0
  {
    k := 1000.0 / 1001.0 / booksum;
  }

  lemma ShinSumAtUpper(sqrt: real -> real, rs: seq<real>)
    requires IsSqrt(sqrt) && Quoted(rs) && |rs| > 0 && 0.0 < Total(rs)
    ensures ShinSum(sqrt, rs, Total(rs), SHIN_Z_UPPER) < 1.0
  {
    ShinProbsAreRoots(sqrt, rs, Total(rs), SHIN_Z_UPPER);
    TotalIsBounded(ShinProbs(sqrt, rs, Total(rs), SHIN_Z_UPPER), rs, SHIN_Z_UPPER);
    BelowOne(ShinSum(sqrt, rs, Total(rs), SHIN_Z_UPPER));
  }

  lemma BelowOne(total: real)
    requires Times(SHIN_Z_UPPER, total) < 1000.0 / 1001.0
    ensures total < 1.0
  {
  }

  // ---------------------------------------------------------------------------------------------
  // Books

  function PriceLines(lines: seq<OddsLine>, probs: seq<real>): seq<Priced>
    requires |lines| == |probs|
  {
    seq(|lines|, i requires 0 <= i < |lines| => Priced(lines[i].outcome, Clamp(probs[i])))
  }

  function DividedBy(s: seq<real>, k: real): seq<real>
    requires k != 0.0
  {
    seq(|s|, i requires 0 <= i < |s| => s[i] / k)
  }

  /** Probabilities strictly between 0 and 1 that sum to 1 and rank the outcomes as the odds do. */
  ghost predicate IsFair(probs: seq<real>, rs: seq<real>) {
    && |probs| == |rs|
    && (forall i :: 0 <= i < |probs| ==> 0.0 < probs[i] < 1.0)
    && Total(probs) == 1.0
    && (forall i, j :: 0 <= i < |rs| && 0 <= j < |rs| ==> (rs[i] < rs[j] <==> probs[i] < probs[j]))
  }

  /** The book prices each line's outcome with the probability at its place. */
  ghost predicate Prices(book: Book, lines: seq<OddsLine>, probs: seq<real>) {
    && |book.outcomes| == |lines| == |probs|
    && (forall i :: 0 <= i < |lines| ==> book.outcomes[i] == Priced(lines[i].outcome, probs[i]))
    && book.booksum == Total(Implieds(lines)) && book.overround == book.booksum - 1.0
  }

  lemma QuotientTotal(s: seq<real>, k: real)
    requires 0.0 < k && k == Total(s)
    ensures Total(DividedBy(s, k)) == 1.0
  {
    var shares := DividedBy(s, k);
    assert forall i :: 0 <= i < |s| ==> s[i] == k * shares[i];
    TotalScales(k, shares, s);
    UnitShare(k, Total(shares));
  }

  lemma UnitShare(k: real, total: real)
    requires 0.0 < k && k == Times(k, total)
    ensures total == 1.0
  {
    assert k * (total - 1.0) == 0.0;
  }

  lemma ProperFraction(p: real, k: real)
    requires 0.0 < p < k
    ensures 0.0 < p / k < 1.0
  {
    QuotientIsPositive(p, k);
    QuotientsOrder(p, k, k);
    assert k / k == 1.0;
  }

  /** Dividing positive numbers by their total gives a fair book, as long as they rank as the odds do. */
  lemma NormalisedIsFair(ps: seq<real>, rs: seq<real>)
    requires |ps| == |rs| && |ps| >= 2 && forall i :: 0 <= i < |ps| ==> 0.0 < ps[i]
    requires forall i, j :: 0 <= i < |rs| && 0 <= j < |rs| ==> (rs[i] < rs[j] <==> ps[i] < ps[j])
    ensures 0.0 < Total(ps) && IsFair(DividedBy(ps, Total(ps)), rs)
  {
    var k := Total(ps);
    TotalExceeds(ps, 0);
    forall i | 0 <= i < |ps|
      ensures 0.0 < ps[i] / k < 1.0
    {
      TotalExceeds(ps, i);
      ProperFraction(ps[i], k);
    }
    forall i, j | 0 <= i < |rs| && 0 <= j < |rs|
      ensures ps[i] < ps[j] <==> ps[i] / k < ps[j] / k
    {
      QuotientsOrder(ps[i], ps[j], k);
    }
    QuotientTotal(ps, k);
  }

  function ValidateShape(lines: seq<OddsLine>): Option<QuantError> {
    if |lines| == 0 then Some(EmptyMarket) else if |lines| < 2 then Some(DegenerateBook) else None
  }

  function Proportional(lines: seq<OddsLine>, shinZ: Option<real>): Result<Book, QuantError> {
    var rs := Implieds(lines);
    var booksum := Total(rs);
    if !(booksum > 0.0) then Err(DegenerateBook)
    else Ok(Book(PriceLines(lines, DividedBy(rs, booksum)), booksum, booksum - 1.0, shinZ))
  }

  function DevigMultiplicative(lines: seq<OddsLine>): Result<Book, QuantError> {
    match ValidateShape(lines)
    case Some(e) => Err(e)
    case None => Proportional(lines, None)
  }

  /** Any book of two or more lines de-vigs to a fair one, in proportion to the implied probabilities. */
  lemma ProportionalIsFair(lines: seq<OddsLine>, shinZ: Option<real>)
    requires |lines| >= 2
    ensures var rs := Implieds(lines);
            && 0.0 < Total(rs)
            && Proportional(lines, shinZ).Ok?
            && IsFair(DividedBy(rs, Total(rs)), rs)
            && Prices(Proportional(lines, shinZ).value, lines, DividedBy(rs, Total(rs)))
  {
    NormalisedIsFair(Implieds(lines), Implieds(lines));
  }

  lemma MultiplicativeIsFair(lines: seq<OddsLine>)
    ensures DevigMultiplicative(lines).Ok? <==> |lines| >= 2
    ensures |lines| >= 2 ==>
              var rs := Implieds(lines);
              && 0.0 < Total(rs) && IsFair(DividedBy(rs, Total(rs)), rs)
              && Prices(DevigMultiplicative(lines).value, lines, DividedBy(rs, Total(rs)))
  {
    if |lines| >= 2 {
      ProportionalIsFair(lines, None);
    }
  }

  function Pow2(n: nat): (r: real)
    ensures 0.0 < r
  {
    if n == 0 then 1.0 else 2.0 * Pow2(n - 1)
  }

  function Within(x: real, tolerance: real): bool { -tolerance <= x <= tolerance }

  /** Shin's probabilities at z, normalised. */
  function ShinShares(sqrt: real -> real, rs: seq<real>, z: real): seq<real>
    requires z < 1.0 && 0.0 < Total(rs) && ShinSum(sqrt, rs, Total(rs), z) != 0.0
  {
    DividedBy(ShinProbs(sqrt, rs, Total(rs), z), ShinSum(sqrt, rs, Total(rs), z))
  }

  /** Compared with the odds themselves, favourites gain on longshots. */
  ghost predicate FavoursFavourites(probs: seq<real>, rs: seq<real>)
    requires |probs| == |rs| && Quoted(rs)
  {
    forall i, j :: 0 <= i < |rs| && 0 <= j < |rs| && rs[i] < rs[j] ==> probs[i] / rs[i] < probs[j] / rs[j]
  }

  lemma ShinSharesAreFair(sqrt: real -> real, rs: seq<real>, z: real)
    requires IsSqrt(sqrt) && Quoted(rs) && |rs| >= 2 && 1.0 < Total(rs) && 0.0 < z < 1.0
    ensures 0.0 < ShinSum(sqrt, rs, Total(rs), z)
    ensures IsFair(ShinShares(sqrt, rs, z), rs) && FavoursFavourites(ShinShares(sqrt, rs, z), rs)
  {
    var booksum := Total(rs);
    var ps := ShinProbs(sqrt, rs, booksum, z);
    ShinProbsAreRoots(sqrt, rs, booksum, z);
    forall i, j | 0 <= i < |rs| && 0 <= j < |rs|
      ensures rs[i] < rs[j] <==> ps[i] < ps[j]
    {
      SharesOrder(rs[i], rs[j], booksum);
      RootIncreasesInShare(Share(rs[i], booksum), ps[i], Share(rs[j], booksum), ps[j], z);
    }
    NormalisedIsFair(ps, rs);
    forall i, j | 0 <= i < |rs| && 0 <= j < |rs| && rs[i] < rs[j]
      ensures ps[i] / Total(ps) / rs[i] < ps[j] / Total(ps) / rs[j]
    {
      FavouriteLongshot(z, booksum, rs[i], ps[i], rs[j], ps[j]);
      RatiosScale(ps[i], rs[i], ps[j], rs[j], Total(ps));
    }
  }

  lemma RatiosScale(p: real, r: real, q: real, s: real, k: real)
    requires 0.0 < r && 0.0 < s && 0.0 < k && p / r < q / s
    ensures p / k / r < q / k / s
  {
    QuotientsOrder(p / r, q / s, k);
    assert p / k / r == p / r / k && q / k / s == q / s / k;
  }

  // ---------------------------------------------------------------------------------------------
  // Convergence: near the root the sum moves little, so a small bracket is within the tolerance.

  /** What one outcome loses between two insider fractions, short of the upper search bound. */
  lemma RootMovesLittle(c: real, z: real, p: real, y: real, q: real)
    requires 0.0 <= z < y <= SHIN_Z_UPPER && c < 1.0 && IsRoot(c, z, p) && IsRoot(c, y, q)
    ensures p - q <= 1_000_000_000.0 * (y - z)
  {
    hide Quadratic, Times;
    RootDecreasesInZ(c, z, p, y, q);
    QuadraticInZ(z, y, p);
    QuadraticInP(y, p, q, p - q);
    var loss := Quadratic(y, p) - Quadratic(y, q);
    LossBounds(1.0 - y, y, p, q, y - z, loss);
  }

  /** A loss written both ways bounds the gap it opens. */
  lemma LossBounds(u: real, y: real, p: real, q: real, step: real, loss: real)
    requires 0.000000001 <= u && 0.0 <= y && 0.0 < q < p && 0.0 < step
    requires loss == u * (p * p - q * q) + y * (p - q) && loss == step * (p * (1.0 - p))
    ensures p - q <= 1_000_000_000.0 * step
  {
    hide Times;
    var up := LossAtLeast(u, y, p, q, p - q, loss);
    LossAtMost(step, p, loss);
    FactorOrders(p, up, step);
    SmallFactor(u, p - q, step, up);
  }

  lemma QuadraticInP(y: real, p: real, q: real, gap: real)
    requires gap == p - q
    ensures Quadratic(y, p) - Quadratic(y, q) == (1.0 - y) * (p * p - q * q) + y * gap
  {
    var u, pp, qq := 1.0 - y, p * p, q * q;
    assert u * pp - u * qq == u * (pp - qq);
  }

  lemma LossAtLeast(u: real, y: real, p: real, q: real, gap: real, loss: real) returns (up: real)
    requires 0.0 < u && 0.0 <= y && 0.0 < q && gap == p - q && 0.0 < gap
    requires loss == u * (p * p - q * q) + y * gap
    ensures up == u * gap && Times(up, p) <= loss
  {
    up := u * gap;
    ProductIsPositive(u, gap, up);
    ProductIsPositive(up, q, up * q);
    assert p * p - q * q == gap * (p + q);
    assert u * (gap * (p + q)) == up * (p + q);
    assert up * (p + q) == up * p + up * q;
    assert 0.0 <= y * gap;
  }

  lemma LossAtMost(step: real, p: real, loss: real)
    requires 0.0 < step && 0.0 < p && loss == step * (p * (1.0 - p))
    ensures loss <= Times(step, p)
  {
    var pp := p * p;
    ProductIsPositive(p, p, pp);
    ProductIsPositive(step, pp, step * pp);
    assert p * (1.0 - p) == p - pp;
    assert step * (p - pp) == step * p - step * pp;
  }

  lemma FactorOrders(p: real, a: real, b: real)
    requires 0.0 < p && Times(a, p) <= Times(b, p)
    ensures a <= b
  {
    if b < a {
      ProductIsPositive(a - b, p, (a - b) * p);
    }
  }

  lemma SmallFactor(u: real, gap: real, step: real, up: real)
    requires 0.000000001 <= u && 0.0 < gap && up == u * gap && up <= step
    ensures gap <= 1_000_000_000.0 * step
  {
    var least := 0.000000001 * gap;
    assert (u - 0.000000001) * gap >= 0.0;
    assert up == least + (u - 0.000000001) * gap;
  }

  lemma {:induction false} TotalsGap(a: seq<real>, b: seq<real>, w: real)
    requires |a| == |b| && forall i :: 0 <= i < |a| ==> a[i] - b[i] <= w
    ensures Total(a) - Total(b) <= Times(|a| as real, w)
  {
    if |a| > 0 {
      var n := |a| - 1;
      TotalsGap(a[..n], b[..n], w);
      assert |a| as real * w == n as real * w + w;
    }
  }

  /** The sum moves at most a thousand million times as far as the insider fraction, per line. */
  lemma ShinSumMovesLittle(sqrt: real -> real, rs: seq<real>, booksum: real, z: real, y: real)
    requires IsSqrt(sqrt) && Quoted(rs) && 1.0 < booksum && 0.0 <= z < y <= SHIN_Z_UPPER
    ensures ShinSum(sqrt, rs, booksum, z) - ShinSum(sqrt, rs, booksum, y)
            <= Times(|rs| as real, 1_000_000_000.0 * (y - z))
  {
    var ps, qs := ShinProbs(sqrt, rs, booksum, z), ShinProbs(sqrt, rs, booksum, y);
    forall i | 0 <= i < |rs|
      ensures ps[i] - qs[i] <= 1_000_000_000.0 * (y - z)
    {
      ShinProbIsRoot(sqrt, rs[i], booksum, z);
      ShinProbIsRoot(sqrt, rs[i], booksum, y);
      ShareBelowOne(rs[i], booksum);
      RootMovesLittle(Share(rs[i], booksum), z, ps[i], y, qs[i]);
    }
    TotalsGap(ps, qs, 1_000_000_000.0 * (y - z));
  }

  /** While a bracket's midpoint misses the tolerance, half the bracket is still wide for the number of lines. */
  lemma MissIsWide(sqrt: real -> real, rs: seq<real>, low: real, z: real, high: real)
    requires IsSqrt(sqrt) && Quoted(rs) && |rs| >= 2 && 1.0 < Total(rs)
    requires 0.0 <= low < z < high <= SHIN_Z_UPPER && z - low == high - z
    requires ShinSum(sqrt, rs, Total(rs), high) < 1.0 < ShinSum(sqrt, rs, Total(rs), low)
    requires !Within(ShinSum(sqrt, rs, Total(rs), z) - 1.0, SHIN_TOLERANCE)
    ensures SHIN_TOLERANCE < Times(|rs| as real, 1_000_000_000.0 * (high - z))
  {
    hide ShinSum, Times;
    ShinSumMovesLittle(sqrt, rs, Total(rs), low, z);
    ShinSumMovesLittle(sqrt, rs, Total(rs), z, high);
  }

  lemma PowersMultiply(n: nat, m: nat)
    ensures Pow2(n + m) == Times(Pow2(n), Pow2(m))
  {
    if m > 0 {
      PowersMultiply(n, m - 1);
      assert Times(Pow2(n), Pow2(m)) == 2.0 * Times(Pow2(n), Pow2(m - 1));
    }
  }

  lemma PowerDoubles(n: nat, bound: real)
    requires 1.0 <= bound <= Pow2(n)
    ensures bound * bound <= Pow2(2 * n)
  {
    PowersMultiply(n, n);
    SquareOrders(bound, Pow2(n));
    assert n + n == 2 * n;
  }

  lemma SquareOrders(a: real, b: real)
    requires 0.0 <= a <= b
    ensures a * a <= Times(b, b)
  {
    assert b * b - a * a == (b - a) * (b + a);
    if a < b {
      ProductIsPositive(b - a, b + a, (b - a) * (b + a));
    }
  }

  /** Two hundred halvings leave next to nothing of the search interval. */
  lemma HalvingsSuffice(n: nat)
    requires n < 0x1_0000_0000
    ensures Times(n as real, 1_000_000_000.0 * (SHIN_Z_UPPER / Pow2(SHIN_MAX_ITERS))) <= SHIN_TOLERANCE
  {
    assert Pow2(25) == 33_554_432.0 by {
      assert Pow2(1) == 2.0 && Pow2(2) == 4.0 && Pow2(3) == 8.0 && Pow2(4) == 16.0 && Pow2(5) == 32.0;
      PowersMultiply(5, 5);
      PowersMultiply(10, 10);
      PowersMultiply(20, 5);
    }
    PowerDoubles(25, 10_000_000.0);
    PowerDoubles(50, 100_000_000_000_000.0);
    PowerDoubles(100, 10_000_000_000_000_000_000_000_000_000.0);
    ManyHalvings(n, Pow2(SHIN_MAX_ITERS));
  }

  lemma ManyHalvings(n: nat, big: real)
    requires n < 0x1_0000_0000
    requires 100_000_000_000_000_000_000_000_000_000_000_000_000_000_000_000_000_000_000.0 <= big
    ensures Times(n as real, 1_000_000_000.0 * (SHIN_Z_UPPER / big)) <= SHIN_TOLERANCE
  {
    var left := SHIN_Z_UPPER / big;
    assert left * big == SHIN_Z_UPPER;
    QuotientIsPositive(SHIN_Z_UPPER, big);
    TinyShare(left, big, n as real);
  }

  lemma TinyShare(left: real, big: real, n: real)
    requires left * big == SHIN_Z_UPPER && 0.0 < left && 0.0 <= n <= 10_000_000_000.0
    requires 100_000_000_000_000_000_000_000_000_000_000_000_000_000_000_000_000_000_000.0 <= big
    ensures Times(n, 1_000_000_000.0 * left) <= SHIN_TOLERANCE
  {
    var least := 100_000_000_000_000_000_000_000_000_000_000_000_000_000_000_000_000_000_000.0;
    assert left * least <= SHIN_Z_UPPER by {
      assert left * (big - least) >= 0.0;
    }
    assert (10_000_000_000.0 - n) * left >= 0.0;
    assert n * (1_000_000_000.0 * left) == 1_000_000_000.0 * (n * left);
  }

  /** Shin's de-vig by bisection. An answer is a fair book at an insider fraction whose probabilities sum to 1
      within the tolerance. It never gives up on fewer than 2^32 lines; if it does on more, it leaves a bracket
      around the root. */
  method DevigShin(sqrt: real -> real, lines: seq<OddsLine>)
    returns (r: Result<Book, QuantError>, ghost low: real, ghost high: real)
    requires IsSqrt(sqrt)
    ensures |lines| < 2 ==> r == Err(if |lines| == 0 then EmptyMarket else DegenerateBook)
    ensures 2 <= |lines| < 0x1_0000_0000 ==> r.Ok?
    ensures |lines| >= 2 && r.Err? ==>
              var rs := Implieds(lines);
              && r.error == NoConvergence && 1.0 < Total(rs)
              && 0.0 <= low < high < 1.0 && high - low == SHIN_Z_UPPER / Pow2(SHIN_MAX_ITERS)
              && ShinSum(sqrt, rs, Total(rs), high) < 1.0 < ShinSum(sqrt, rs, Total(rs), low)
    ensures r.Ok? ==>
              var rs := Implieds(lines);
              && r.value.shinZ.Some? && 0.0 < Total(rs)
              && if Total(rs) <= 1.0 then
                   && r.value.shinZ == Some(0.0) && IsFair(DividedBy(rs, Total(rs)), rs)
                   && Prices(r.value, lines, DividedBy(rs, Total(rs)))
                 else
                   var z := r.value.shinZ.value;
                   && 0.0 < z < 1.0 && Within(ShinSum(sqrt, rs, Total(rs), z) - 1.0, SHIN_TOLERANCE)
                   && IsFair(ShinShares(sqrt, rs, z), rs) && FavoursFavourites(ShinShares(sqrt, rs, z), rs)
                   && Prices(r.value, lines, ShinShares(sqrt, rs, z))
  {
    low, high := 0.0, 0.0;
    var shape := ValidateShape(lines);
    if shape.Some? { return Err(shape.value), low, high; }
    var rs := Implieds(lines);
    var booksum := Total(rs);
    ProportionalIsFair(lines, Some(0.0));
    if booksum <= 1.0 { return Proportional(lines, Some(0.0)), low, high; }
    var z, converged;
    z, converged, low, high := Bisect(sqrt, rs);
    if !converged { return Err(NoConvergence), low, high; }
    ShinSharesAreFair(sqrt, rs, z);
    r := Ok(Book(PriceLines(lines, ShinShares(sqrt, rs, z)), booksum, booksum - 1.0, Some(z)));
  }

  /** Halve a bracket around the insider fraction until the sum is close enough to 1. */
  method Bisect(sqrt: real -> real, rs: seq<real>)
    returns (z: real, converged: bool, ghost bracketLow: real, ghost bracketHigh: real)
    requires IsSqrt(sqrt) && Quoted(rs) && |rs| >= 2 && 1.0 < Total(rs)
    ensures converged ==> 0.0 < z < 1.0 && Within(ShinSum(sqrt, rs, Total(rs), z) - 1.0, SHIN_TOLERANCE)
    ensures |rs| < 0x1_0000_0000 ==> converged
    ensures !converged ==>
              && 0.0 <= bracketLow < bracketHigh < 1.0
              && bracketHigh - bracketLow == SHIN_Z_UPPER / Pow2(SHIN_MAX_ITERS)
              && ShinSum(sqrt, rs, Total(rs), bracketHigh) < 1.0 < ShinSum(sqrt, rs, Total(rs), bracketLow)
  {
    hide ShinSum, Total, Quoted, Times;
    var low, high, iteration := 0.0, SHIN_Z_UPPER, 0;
    z, converged := 0.0, false;
    ShinSumAtZero(sqrt, rs);
    ShinSumAtUpper(sqrt, rs);
    while iteration < SHIN_MAX_ITERS
      invariant 0 <= iteration <= SHIN_MAX_ITERS
      invariant 0.0 <= low < high <= SHIN_Z_UPPER
      invariant high - low == SHIN_Z_UPPER / Pow2(iteration)
      invariant ShinSum(sqrt, rs, Total(rs), high) < 1.0 < ShinSum(sqrt, rs, Total(rs), low)
      invariant 0 < iteration ==> SHIN_TOLERANCE < Times(|rs| as real, 1_000_000_000.0 * (high - low))
      invariant !converged
    {
      z := (low + high) / 2.0;
      var difference := ShinSum(sqrt, rs, Total(rs), z) - 1.0;
      if Within(difference, SHIN_TOLERANCE) {
        converged := true;
        break;
      }
      MissIsWide(sqrt, rs, low, z, high);
      if difference > 0.0 {
        low := z;
      } else {
        high := z;
      }
      HalfOf(SHIN_Z_UPPER, Pow2(iteration));
      iteration := iteration + 1;
    }
    if !converged && |rs| < 0x1_0000_0000 {
      HalvingsSuffice(|rs|);
      assert false;
    }
    bracketLow, bracketHigh := low, high;
  }

  lemma HalfOf(a: real, b: real)
    requires 0.0 < b
    ensures a / b / 2.0 == a / (2.0 * b)
  {
  }

  /** The bracket determines the insider fraction: at most one makes the probabilities sum to 1, and it lies
      strictly inside every bracket. */
  lemma InsiderFractionIsUnique(sqrt: real -> real, rs: seq<real>, z: real, y: real, low: real, high: real)
    requires IsSqrt(sqrt) && Quoted(rs) && |rs| > 0 && 1.0 < Total(rs)
    requires 0.0 <= z < 1.0 && ShinSum(sqrt, rs, Total(rs), z) == 1.0
    requires 0.0 <= y < 1.0 && ShinSum(sqrt, rs, Total(rs), y) == 1.0
    requires 0.0 <= low < 1.0 && 1.0 < ShinSum(sqrt, rs, Total(rs), low)
    requires 0.0 <= high < 1.0 && ShinSum(sqrt, rs, Total(rs), high) < 1.0
    ensures z == y && low < z < high
  {
    if z < y {
      ShinSumDecreases(sqrt, rs, Total(rs), z, y);
    } else if y < z {
      ShinSumDecreases(sqrt, rs, Total(rs), y, z);
    }
    if z < low {
      ShinSumDecreases(sqrt, rs, Total(rs), z, low);
    }
    if high < z {
      ShinSumDecreases(sqrt, rs, Total(rs), high, z);
    }
  }
}
