/** Array sort by a lexicographic integer key, and why its result is unique when keys are distinct. */
module Sorting {
  import opened Prelude

  datatype Keyed<T> = Keyed(major: int, minor: int, last: int, item: T)

  predicate Before<T>(a: Keyed<T>, b: Keyed<T>) {
    || a.major < b.major
    || (a.major == b.major && a.minor < b.minor)
    || (a.major == b.major && a.minor == b.minor && a.last < b.last)
  }

  predicate SameKey<T>(a: Keyed<T>, b: Keyed<T>) {
    a.major == b.major && a.minor == b.minor && a.last == b.last
  }

  ghost predicate Ordered<T>(s: seq<Keyed<T>>) {
    forall i, j :: 0 <= i < j < |s| ==> Before(s[i], s[j])
  }

  ghost predicate DistinctKeys<T>(s: seq<Keyed<T>>) {
    forall i, j :: 0 <= i < j < |s| ==> !SameKey(s[i], s[j])
  }

  /** Insert x after everything it does not come before. */
  function Insert<T>(s: seq<Keyed<T>>, x: Keyed<T>): seq<Keyed<T>> {
    if |s| == 0 then [x] else if Before(x, s[0]) then [x] + s else [s[0]] + Insert(s[1..], x)
  }

  function Sort<T>(s: seq<Keyed<T>>): seq<Keyed<T>> {
    if |s| == 0 then [] else Insert(Sort(s[..|s| - 1]), s[|s| - 1])
  }

  lemma {:induction false} InsertAdds<T>(s: seq<Keyed<T>>, x: Keyed<T>)
    ensures multiset(Insert(s, x)) == multiset(s) + multiset{x}
  {
    if |s| > 0 {
      assert s == [s[0]] + s[1..];
      if !Before(x, s[0]) {
        InsertAdds(s[1..], x);
      }
    }
  }

  /** Everything in an insertion was there before or is the inserted element. */
  lemma {:induction false} InsertHolds<T>(s: seq<Keyed<T>>, x: Keyed<T>, j: nat)
    requires j < |Insert(s, x)|
    ensures Insert(s, x)[j] == x || Insert(s, x)[j] in s
  {
    if |s| > 0 && !Before(x, s[0]) && j > 0 {
      InsertHolds(s[1..], x, j - 1);
    }
  }

  lemma {:induction false} InsertKeepsOrder<T>(s: seq<Keyed<T>>, x: Keyed<T>)
    requires Ordered(s) && forall y :: y in s ==> !SameKey(x, y)
    ensures Ordered(Insert(s, x))
  {
    if |s| > 0 && !Before(x, s[0]) {
      var rest := s[1..];
      assert s[0] in s;
      InsertKeepsOrder(rest, x);
      var r := Insert(rest, x);
      forall j | 0 <= j < |r|
        ensures Before(s[0], r[j])
      {
        InsertHolds(rest, x, j);
      }
    }
  }

  lemma {:induction false} SortPermutes<T>(s: seq<Keyed<T>>)
    ensures multiset(Sort(s)) == multiset(s) && |Sort(s)| == |s|
  {
    if |s| > 0 {
      var front, last := s[..|s| - 1], s[|s| - 1];
      assert s == front + [last];
      SortPermutes(front);
      InsertAdds(Sort(front), last);
    }
    assert |multiset(Sort(s))| == |multiset(s)|;
  }

  lemma {:induction false} SortOrders<T>(s: seq<Keyed<T>>)
    requires DistinctKeys(s)
    ensures Ordered(Sort(s))
  {
    if |s| > 0 {
      var front, last := s[..|s| - 1], s[|s| - 1];
      SortOrders(front);
      SortPermutes(front);
      forall y | y in Sort(front)
        ensures !SameKey(last, y)
      {
        assert y in multiset(Sort(front));
        assert y in front;
      }
      InsertKeepsOrder(Sort(front), last);
    }
  }

  lemma FirstOfOrdered<T>(a: seq<Keyed<T>>, b: seq<Keyed<T>>)
    requires multiset(a) == multiset(b) && Ordered(a) && Ordered(b) && |a| > 0
    ensures |b| > 0 && a[0] == b[0]
  {
    assert a[0] in multiset(b);
    var i :| 0 <= i < |b| && b[i] == a[0];
    assert b[0] in multiset(a);
    var j :| 0 <= j < |a| && a[j] == b[0];
    assert i > 0 ==> Before(b[0], b[i]);
    assert j > 0 ==> Before(a[0], a[j]);
  }

  /** A collection has at most one strictly ordered arrangement. */
  lemma {:induction false} OrderedIsUnique<T>(a: seq<Keyed<T>>, b: seq<Keyed<T>>)
    requires multiset(a) == multiset(b) && Ordered(a) && Ordered(b)
    ensures a == b
  {
    hide Ordered;
    if |a| > 0 {
      FirstOfOrdered(a, b);
      SameTails(a, b);
      OrderedTail(a);
      OrderedTail(b);
      OrderedIsUnique(a[1..], b[1..]);
      assert a == [a[0]] + a[1..] && b == [b[0]] + b[1..];
    } else {
      assert |multiset(a)| == |multiset(b)|;
    }
  }

  lemma SameTails<T>(a: seq<Keyed<T>>, b: seq<Keyed<T>>)
    requires |a| > 0 && |b| > 0 && a[0] == b[0] && multiset(a) == multiset(b)
    ensures multiset(a[1..]) == multiset(b[1..])
  {
    assert a == [a[0]] + a[1..] && b == [b[0]] + b[1..];
    assert multiset(a[1..]) == multiset(a) - multiset{a[0]};
    assert multiset(b[1..]) == multiset(b) - multiset{b[0]};
  }

  lemma OrderedTail<T>(a: seq<Keyed<T>>)
    requires |a| > 0 && Ordered(a)
    ensures Ordered(a[1..])
  {
  }

  function Without<A>(s: seq<A>, i: nat): seq<A>
    requires i < |s|
  {
    s[..i] + s[i + 1..]
  }

  lemma MapWithout<A, B>(f: A -> B, s: seq<A>, i: nat)
    requires i < |s|
    ensures multiset(s) == multiset(Without(s, i)) + multiset{s[i]}
    ensures multiset(Map(f, s)) == multiset(Map(f, Without(s, i))) + multiset{f(s[i])}
  {
    assert s == s[..i] + [s[i]] + s[i + 1..];
    assert Map(f, s) == Map(f, s[..i]) + [f(s[i])] + Map(f, s[i + 1..]);
    assert Map(f, Without(s, i)) == Map(f, s[..i]) + Map(f, s[i + 1..]);
  }

  /** Mapping two arrangements of one collection gives two arrangements of one collection. */
  lemma {:induction false} MapOfPermutation<A, B>(f: A -> B, a: seq<A>, b: seq<A>)
    requires multiset(a) == multiset(b)
    ensures multiset(Map(f, a)) == multiset(Map(f, b))
    decreases |a|
  {
    if |a| == 0 {
      assert |multiset(b)| == 0;
    } else {
      assert a[0] in multiset(b);
      var i :| 0 <= i < |b| && b[i] == a[0];
      MapWithout(f, a, 0);
      MapWithout(f, b, i);
      assert multiset(Without(a, 0)) == multiset(a) - multiset{a[0]};
      assert multiset(Without(b, i)) == multiset(b) - multiset{a[0]};
      MapOfPermutation(f, Without(a, 0), Without(b, i));
    }
  }
}
