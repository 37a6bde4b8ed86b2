/** Stable sorting by string keys, with localeCompare as a parameter. */
module Sorting {
  datatype Keyed<+T> = Keyed(key: string, value: T)

  type Order = (string, string) -> bool

  ghost predicate IsTotalPreorder(le: Order) {
    && (forall a, b :: le(a, b) || le(b, a))
    && (forall a, b, c :: le(a, b) && le(b, c) ==> le(a, c))
  }

  // A stable sort by key; every stable sort gives this sequence.
  function Insert<T>(le: Order, x: Keyed<T>, xs: seq<Keyed<T>>): (r: seq<Keyed<T>>)
    ensures multiset(r) == multiset(xs) + multiset{x}
  {
    if xs == [] then [x]
    else if le(x.key, xs[0].key) then [x] + xs
    else
      assert xs == [xs[0]] + xs[1..];
      [xs[0]] + Insert(le, x, xs[1..])
  }

  function Sort<T>(le: Order, xs: seq<Keyed<T>>): (r: seq<Keyed<T>>)
    ensures multiset(r) == multiset(xs)
  {
    if xs == [] then []
    else
      assert xs == [xs[0]] + xs[1..];
      Insert(le, xs[0], Sort(le, xs[1..]))
  }

  predicate UniqueKeys<T>(ms: seq<Keyed<T>>) {
    forall i, j | 0 <= i < j < |ms| :: ms[i].key != ms[j].key
  }

  lemma SortKeeps<T>(le: Order, ms: seq<Keyed<T>>)
    ensures |Sort(le, ms)| == |ms|
    ensures forall m :: m in Sort(le, ms) <==> m in ms
    ensures forall i | 0 <= i < |ms| :: Sort(le, ms)[i] in ms
  {
    PermutationKeeps(Sort(le, ms), ms);
  }

  lemma PermutationKeeps<T>(r: seq<Keyed<T>>, s: seq<Keyed<T>>)
    requires multiset(r) == multiset(s)
    ensures |r| == |s|
    ensures forall m :: m in r <==> m in s
    ensures forall i | 0 <= i < |r| :: r[i] in s
  {
    assert |multiset(r)| == |multiset(s)|;
    assert forall m :: m in r <==> m in multiset(r);
    assert forall m :: m in s <==> m in multiset(s);
    assert forall i | 0 <= i < |r| :: r[i] in multiset(r);
  }

  predicate Ascending<T>(le: Order, s: seq<Keyed<T>>) {
    forall i, j | 0 <= i < j < |s| :: le(s[i].key, s[j].key)
  }

  predicate Tied(le: Order, a: string, b: string) { a != b && le(a, b) && le(b, a) }

  predicate Untied<T>(le: Order, s: seq<Keyed<T>>) {
    forall i, j | 0 <= i < |s| && 0 <= j < |s| :: !Tied(le, s[i].key, s[j].key)
  }

  lemma {:induction false} InsertAscends<T>(le: Order, x: Keyed<T>, s: seq<Keyed<T>>)
    requires IsTotalPreorder(le) && Ascending(le, s)
    ensures Ascending(le, Insert(le, x, s))
  {
    if s != [] && !le(x.key, s[0].key) {
      InsertAscends(le, x, s[1..]);
      var r := Insert(le, x, s[1..]);
      forall j | 0 <= j < |r| ensures le(s[0].key, r[j].key) {
        assert r[j] in multiset(r);
      }
    }
  }

  lemma {:induction false} SortAscends<T>(le: Order, s: seq<Keyed<T>>)
    requires IsTotalPreorder(le)
    ensures Ascending(le, Sort(le, s))
  {
    if s != [] {
      SortAscends(le, s[1..]);
      InsertAscends(le, s[0], Sort(le, s[1..]));
    }
  }

  lemma {:induction false} DistinctSize<T>(s: seq<Keyed<T>>)
    requires UniqueKeys(s)
    ensures |set x | x in s| == |s|
  {
    if s != [] {
      DistinctSize(s[1..]);
      assert (set x | x in s) == {s[0]} + (set x | x in s[1..]);
    }
  }

  lemma SameElements<T>(a: seq<Keyed<T>>, b: seq<Keyed<T>>)
    requires UniqueKeys(a) && UniqueKeys(b) && |a| == |b|
    requires forall x :: x in a ==> x in b
    ensures forall x :: x in b ==> x in a
  {
    DistinctSize(a);
    DistinctSize(b);
    var sa, sb := set x | x in a, set x | x in b;
    assert sa <= sb && |sb - sa| == |sb| - |sa|;
    assert sb - sa == {};
    forall x | x in b ensures x in a {
      assert x in sb && x !in sb - sa;
    }
  }

  predicate Strict<T>(le: Order, s: seq<Keyed<T>>) {
    forall i, j | 0 <= i < j < |s| :: !le(s[j].key, s[i].key)
  }

  lemma {:induction false} StrictUnique<T>(le: Order, s: seq<Keyed<T>>, t: seq<Keyed<T>>)
    requires IsTotalPreorder(le) && Strict(le, s) && Strict(le, t) && |s| == |t|
    requires forall x :: x in s <==> x in t
    ensures s == t
  {
    if s != [] {
      assert s[0] in t;
      assert t[0] in s;
      var i :| 0 <= i < |s| && s[i] == t[0];
      var j :| 0 <= j < |t| && t[j] == s[0];
      assert i == 0;
      assert forall x :: x in s <==> x == s[0] || x in s[1..];
      assert forall x :: x in t <==> x == t[0] || x in t[1..];
      assert s[0] !in s[1..] && t[0] !in t[1..];
      StrictUnique(le, s[1..], t[1..]);
      assert s == [s[0]] + s[1..] && t == [t[0]] + t[1..];
    }
  }

  lemma {:induction false} InsertUnique<T>(le: Order, x: Keyed<T>, s: seq<Keyed<T>>)
    requires UniqueKeys(s) && forall y | y in s :: y.key != x.key
    ensures UniqueKeys(Insert(le, x, s))
  {
    if s != [] && !le(x.key, s[0].key) {
      InsertUnique(le, x, s[1..]);
      var r := Insert(le, x, s[1..]);
      forall j | 0 <= j < |r| ensures r[j].key != s[0].key {
        assert r[j] in multiset(r);
      }
    }
  }

  lemma {:induction false} SortUnique<T>(le: Order, s: seq<Keyed<T>>)
    requires UniqueKeys(s)
    ensures UniqueKeys(Sort(le, s))
  {
    if s != [] {
      SortUnique(le, s[1..]);
      SortKeeps(le, s[1..]);
      var r := Sort(le, s[1..]);
      forall y | y in r ensures y.key != s[0].key {
        assert y in s[1..];
      }
      InsertUnique(le, s[0], r);
    }
  }

  lemma SortStrict<T>(le: Order, s: seq<Keyed<T>>)
    requires IsTotalPreorder(le) && UniqueKeys(s) && Untied(le, s)
    ensures Strict(le, Sort(le, s))
  {
    SortAscends(le, s);
    SortUnique(le, s);
    SortKeeps(le, s);
    var r := Sort(le, s);
    forall i, j | 0 <= i < j < |r| ensures !le(r[j].key, r[i].key) {
      assert r[i] in s && r[j] in s;
      var p :| 0 <= p < |s| && s[p] == r[i];
      var q :| 0 <= q < |s| && s[q] == r[j];
      assert !Tied(le, s[p].key, s[q].key);
    }
  }

  lemma SortForgetsOrder<T>(le: Order, a: seq<Keyed<T>>, b: seq<Keyed<T>>)
    requires IsTotalPreorder(le) && UniqueKeys(a) && UniqueKeys(b) && Untied(le, a) && |a| == |b|
    requires forall x :: x in a ==> x in b
    ensures Sort(le, a) == Sort(le, b)
  {
    SameElements(a, b);
    UntiedMoves(le, a, b);
    SortStrict(le, a);
    SortStrict(le, b);
    SortedElements(le, a, b);
    StrictUnique(le, Sort(le, a), Sort(le, b));
  }

  lemma UntiedMoves<T>(le: Order, a: seq<Keyed<T>>, b: seq<Keyed<T>>)
    requires Untied(le, a)
    requires forall x :: x in b ==> x in a
    ensures Untied(le, b)
  {
    forall i, j | 0 <= i < |b| && 0 <= j < |b| ensures !Tied(le, b[i].key, b[j].key) {
      assert b[i] in b && b[j] in b;
      var p :| 0 <= p < |a| && a[p] == b[i];
      var q :| 0 <= q < |a| && a[q] == b[j];
      assert !Tied(le, a[p].key, a[q].key);
    }
  }

  lemma SortedElements<T>(le: Order, a: seq<Keyed<T>>, b: seq<Keyed<T>>)
    requires |a| == |b|
    requires forall x :: x in a <==> x in b
    ensures |Sort(le, a)| == |Sort(le, b)|
    ensures forall x :: x in Sort(le, a) <==> x in Sort(le, b)
  {
    PermutationKeeps(Sort(le, a), a);
    PermutationKeeps(Sort(le, b), b);
  }

  predicate Precedes<T>(s: seq<Keyed<T>>, a: string, b: string) {
    exists p, q | 0 <= p < q < |s| :: s[p].key == a && s[q].key == b
  }

  lemma {:induction false} InsertInFront<T>(le: Order, x: Keyed<T>, s: seq<Keyed<T>>, i: nat)
    requires i < |s| && le(x.key, s[i].key)
    ensures Precedes(Insert(le, x, s), x.key, s[i].key)
  {
    var r := Insert(le, x, s);
    if le(x.key, s[0].key) {
      assert r[0] == x && r[i + 1] == s[i];
    } else {
      InsertInFront(le, x, s[1..], i - 1);
      PrecedesShift(s[0], Insert(le, x, s[1..]), x.key, s[i].key);
    }
  }

  lemma PrecedesShift<T>(x: Keyed<T>, s: seq<Keyed<T>>, a: string, b: string)
    requires Precedes(s, a, b)
    ensures Precedes([x] + s, a, b)
  {
    var p, q :| 0 <= p < q < |s| && s[p].key == a && s[q].key == b;
    assert ([x] + s)[p + 1] == s[p] && ([x] + s)[q + 1] == s[q];
  }

  lemma {:induction false} InsertKeepsOrder<T>(le: Order, x: Keyed<T>, s: seq<Keyed<T>>, p: nat, q: nat)
    requires p < q < |s|
    ensures Precedes(Insert(le, x, s), s[p].key, s[q].key)
  {
    var r := Insert(le, x, s);
    if le(x.key, s[0].key) {
      assert r[p + 1] == s[p] && r[q + 1] == s[q];
    } else if p > 0 {
      InsertKeepsOrder(le, x, s[1..], p - 1, q - 1);
      PrecedesShift(s[0], Insert(le, x, s[1..]), s[p].key, s[q].key);
    } else {
      var t := Insert(le, x, s[1..]);
      assert s[q] == s[1..][q - 1];
      assert s[q] in multiset(t);
      var k :| 0 <= k < |t| && t[k] == s[q];
      assert r == [s[0]] + t;
      assert r[0] == s[0] && r[k + 1] == s[q];
    }
  }

  // The sort is stable: an earlier member that may come first does.
  lemma {:induction false} SortStable<T>(le: Order, s: seq<Keyed<T>>, i: nat, j: nat)
    requires i < j < |s| && le(s[i].key, s[j].key)
    ensures Precedes(Sort(le, s), s[i].key, s[j].key)
  {
    var rest := Sort(le, s[1..]);
    if i == 0 {
      PermutationKeeps(rest, s[1..]);
      assert s[j] == s[1..][j - 1];
      assert s[j] in rest;
      var k :| 0 <= k < |rest| && rest[k] == s[j];
      InsertInFront(le, s[0], rest, k);
    } else {
      SortStable(le, s[1..], i - 1, j - 1);
      var p, q :| 0 <= p < q < |rest| && rest[p].key == s[i].key && rest[q].key == s[j].key;
      InsertKeepsOrder(le, s[0], rest, p, q);
    }
  }
}
