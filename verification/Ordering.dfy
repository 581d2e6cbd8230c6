/** Python's order on strings, by code point, and sorting by it. */
module Ordering {
  import opened Bytes

  predicate Leq(a: Text, b: Text)
  {
    a == [] || (b != [] && (a[0] < b[0] || (a[0] == b[0] && Leq(a[1..], b[1..]))))
  }

  lemma {:induction false} LeqReflexive(a: Text)
    ensures Leq(a, a)
  {
    if a != [] { LeqReflexive(a[1..]); }
  }

  lemma {:induction false} LeqTotal(a: Text, b: Text)
    ensures Leq(a, b) || Leq(b, a)
  {
    if a != [] && b != [] && a[0] == b[0] { LeqTotal(a[1..], b[1..]); }
  }

  lemma {:induction false} LeqAntisymmetric(a: Text, b: Text)
    requires Leq(a, b) && Leq(b, a)
    ensures a == b
  {
    if a != [] && b != [] {
      LeqAntisymmetric(a[1..], b[1..]);
      assert a == [a[0]] + a[1..] && b == [b[0]] + b[1..];
    }
  }

  lemma {:induction false} LeqTransitive(a: Text, b: Text, c: Text)
    requires Leq(a, b) && Leq(b, c)
    ensures Leq(a, c)
  {
    if a != [] && b != [] && c != [] && a[0] == b[0] && b[0] == c[0] { LeqTransitive(a[1..], b[1..], c[1..]); }
  }

  /** `a < b` in Python. */
  predicate Less(a: Text, b: Text) { Leq(a, b) && a != b }

  /** A key-sorted sequence: each key is at most the next. */
  ghost predicate SortedBy<T(!new)>(xs: seq<T>, key: T -> Text)
  {
    forall i :: 0 < i < |xs| ==> Leq(key(xs[i - 1]), key(xs[i]))
  }

  function Insert<T>(xs: seq<T>, x: T, key: T -> Text): seq<T>
  {
    if xs == [] || Leq(key(x), key(xs[0])) then [x] + xs else [xs[0]] + Insert(xs[1..], x, key)
  }

  function Sorted<T>(xs: seq<T>, key: T -> Text): seq<T>
  {
    if xs == [] then [] else Insert(Sorted(xs[1..], key), xs[0], key)
  }

  lemma {:induction false} InsertKeepsItems<T(!new)>(xs: seq<T>, x: T, key: T -> Text)
    ensures multiset(Insert(xs, x, key)) == multiset(xs) + multiset{x}
  {
    if xs != [] && !Leq(key(x), key(xs[0])) {
      InsertKeepsItems(xs[1..], x, key);
      assert xs == [xs[0]] + xs[1..];
    }
  }

  lemma {:induction false} InsertKeepsOrder<T(!new)>(xs: seq<T>, x: T, key: T -> Text)
    requires SortedBy(xs, key)
    ensures SortedBy(Insert(xs, x, key), key)
    ensures Insert(xs, x, key) != [] && (Insert(xs, x, key)[0] == x || (xs != [] && Insert(xs, x, key)[0] == xs[0]))
  {
    if xs != [] && !Leq(key(x), key(xs[0])) {
      LeqTotal(key(x), key(xs[0]));
      var tail := xs[1..];
      assert forall i :: 0 <= i < |tail| ==> tail[i] == xs[i + 1];
      InsertKeepsOrder(tail, x, key);
      var inserted := Insert(tail, x, key);
      assert Leq(key(xs[0]), key(inserted[0]));
    }
  }

  lemma NothingSorted<T(!new)>(key: T -> Text)
    ensures SortedBy([], key)
  {
  }

  /** Python's `sorted`: the same items in order. */
  lemma {:induction false} SortedSorts<T(!new)>(xs: seq<T>, key: T -> Text)
    ensures SortedBy(Sorted(xs, key), key)
    ensures multiset(Sorted(xs, key)) == multiset(xs)
  {
    hide Insert, Leq, SortedBy;
    if xs == [] {
      NothingSorted<T>(key);
    } else {
      SortedSorts(xs[1..], key);
      InsertKeepsOrder(Sorted(xs[1..], key), xs[0], key);
      InsertKeepsItems(Sorted(xs[1..], key), xs[0], key);
      assert xs == [xs[0]] + xs[1..];
    }
  }

  /** Strictly increasing strings are fixed by their set, so `sorted` of a set has one value. */
  ghost predicate Increasing(xs: seq<Text>)
  {
    forall i, j :: 0 <= i < j < |xs| ==> Less(xs[i], xs[j])
  }

  lemma {:induction false} IncreasingUnique(xs: seq<Text>, ys: seq<Text>)
    requires Increasing(xs) && Increasing(ys)
    requires forall s :: s in xs <==> s in ys
    ensures xs == ys
  {
    if xs != [] { assert xs[0] in ys; }
    if ys != [] { assert ys[0] in xs; }
    if xs != [] {
      if xs[0] != ys[0] { LeqAntisymmetric(xs[0], ys[0]); }
      var xt, yt := xs[1..], ys[1..];
      forall s
        ensures s in xt <==> s in yt
      {
        InTail(xs, s);
        InTail(ys, s);
      }
      IncreasingUnique(xt, yt);
      assert xs == [xs[0]] + xt && ys == [ys[0]] + yt;
    }
  }

  lemma InTail(xs: seq<Text>, s: Text)
    requires xs != [] && Increasing(xs)
    ensures s in xs[1..] <==> s in xs && s != xs[0]
  {
    assert forall i :: 0 < i < |xs| ==> Less(xs[0], xs[i]);
    if s in xs && s != xs[0] {
      var i :| 0 <= i < |xs| && xs[i] == s;
      assert xs[1..][i - 1] == s;
    }
  }

  // ---------- The increasing listing of a set ----------

  ghost predicate IsLeast(m: Text, s: set<Text>) { m in s && forall p :: p in s ==> Leq(m, p) }

  lemma {:induction false} LeastExists(s: set<Text>) returns (least: Text)
    requires s != {}
    ensures IsLeast(least, s)
    decreases |s|
  {
    var x :| x in s;
    LeqReflexive(x);
    if s - {x} == {} {
      assert s == {x};
      least := x;
    } else {
      var m := LeastExists(s - {x});
      LeqTotal(x, m);
      least := if Leq(x, m) then x else m;
      LesserIsLeast(s, x, m, least);
    }
  }

  lemma LesserIsLeast(s: set<Text>, x: Text, m: Text, least: Text)
    requires x in s && IsLeast(m, s - {x}) && Leq(x, x)
    requires least == (if Leq(x, m) then x else m) && (Leq(x, m) || Leq(m, x))
    ensures IsLeast(least, s)
  {
    forall p | p in s
      ensures Leq(least, p)
    {
      if p != x {
        assert p in s - {x};
        if least == x { LeqTransitive(x, m, p); }
      }
    }
  }

  ghost predicate Lists(xs: seq<Text>, s: set<Text>)
  {
    Increasing(xs) && forall p :: p in xs <==> p in s
  }

  lemma {:induction false} ListingExists(s: set<Text>) returns (xs: seq<Text>)
    ensures Lists(xs, s)
    decreases |s|
  {
    if s == {} {
      xs := [];
    } else {
      var m := LeastExists(s);
      var rest := ListingExists(s - {m});
      xs := [m] + rest;
      ConsListing(m, rest, s);
    }
  }

  lemma ConsListing(m: Text, rest: seq<Text>, s: set<Text>)
    requires IsLeast(m, s) && Lists(rest, s - {m})
    ensures Lists([m] + rest, s)
  {
    var xs := [m] + rest;
    forall i, j | 0 <= i < j < |xs|
      ensures Less(xs[i], xs[j])
    {
      assert xs[j] == rest[j - 1] && rest[j - 1] in rest;
      if i > 0 { assert xs[i] == rest[i - 1]; }
    }
    forall p
      ensures p in xs <==> p in s
    {
      assert p in xs <==> p == m || p in rest;
    }
  }

  lemma SomeListing(s: set<Text>)
    ensures exists xs :: Lists(xs, s)
  {
    var xs := ListingExists(s);
  }

  /** The strings of a set in increasing order. */
  ghost function Listing(s: set<Text>): (xs: seq<Text>)
    ensures Lists(xs, s)
  {
    SomeListing(s);
    var xs :| Lists(xs, s);
    xs
  }

  function Identity(s: Text): Text { s }

  predicate Distinct(xs: seq<Text>) { forall i, j :: 0 <= i < j < |xs| ==> xs[i] != xs[j] }

  /** A dictionary's keys, in whatever order they were inserted, sort to the one increasing listing. */
  lemma SortingLists(order: seq<Text>, s: set<Text>)
    requires Distinct(order) && forall p :: p in order <==> p in s
    ensures Sorted(order, Identity) == Listing(s)
  {
    var sorted := Sorted(order, Identity);
    SortedSorts(order, Identity);
    forall p
      ensures p in sorted <==> p in order
    {
      assert p in multiset(sorted) <==> p in multiset(order);
    }
    DistinctIncreasing(order, sorted);
    IncreasingUnique(sorted, Listing(s));
  }

  lemma DistinctIncreasing(order: seq<Text>, sorted: seq<Text>)
    requires Distinct(order) && multiset(order) == multiset(sorted) && SortedBy(sorted, Identity)
    ensures Increasing(sorted)
  {
    forall i, j | 0 <= i < j < |sorted|
      ensures Less(sorted[i], sorted[j])
    {
      Spread(sorted, i, j);
      OnceEach(order, sorted[i]);
      if sorted[i] == sorted[j] { TwiceInMultiset(sorted, i, j); }
    }
  }

  lemma {:induction false} Spread(sorted: seq<Text>, i: nat, j: nat)
    requires SortedBy(sorted, Identity) && i < j < |sorted|
    ensures Leq(sorted[i], sorted[j])
    decreases j
  {
    assert Leq(Identity(sorted[j - 1]), Identity(sorted[j]));
    if i < j - 1 {
      Spread(sorted, i, j - 1);
      LeqTransitive(sorted[i], sorted[j - 1], sorted[j]);
    }
  }

  lemma {:induction false} OnceEach(order: seq<Text>, p: Text)
    requires Distinct(order)
    ensures multiset(order)[p] <= 1
  {
    if order != [] {
      assert order == [order[0]] + order[1..];
      OnceEach(order[1..], p);
      if order[0] == p {
        assert p !in order[1..];
        assert p !in multiset(order[1..]);
      }
    }
  }

  lemma TwiceInMultiset(s: seq<Text>, i: nat, j: nat)
    requires i < j < |s| && s[i] == s[j]
    ensures multiset(s)[s[i]] >= 2
  {
    assert s == s[..j] + [s[j]] + s[j + 1..];
    assert s[i] == s[..j][i] && s[i] in s[..j];
    assert s[i] in multiset(s[..j]);
  }
}
