/** Sorting by a pair of naturals, as the sources use it. */
module Sorting {

  predicate KeyLe(a: (nat, nat), b: (nat, nat)) {
    a.0 < b.0 || (a.0 == b.0 && a.1 <= b.1)
  }

  predicate SortedBy<T>(s: seq<T>, key: T -> (nat, nat)) {
    forall i, j :: 0 <= i < j < |s| ==> KeyLe(key(s[i]), key(s[j]))
  }

  function InsertBy<T>(s: seq<T>, x: T, key: T -> (nat, nat)): seq<T> {
    if s == [] then [x]
    else if KeyLe(key(x), key(s[0])) then [x] + s
    else [s[0]] + InsertBy(s[1..], x, key)
  }

  lemma {:induction false} InsertKeepsElements<T>(s: seq<T>, x: T, key: T -> (nat, nat))
    ensures multiset(InsertBy(s, x, key)) == multiset(s) + multiset{x}
  {
    if s != [] && !KeyLe(key(x), key(s[0])) {
      InsertKeepsElements(s[1..], x, key);
      assert s == [s[0]] + s[1..];
    }
  }

  lemma {:induction false} InsertSorts<T>(s: seq<T>, x: T, key: T -> (nat, nat))
    requires SortedBy(s, key)
    ensures SortedBy(InsertBy(s, x, key), key)
  {
    if s != [] && !KeyLe(key(x), key(s[0])) {
      var rest := InsertBy(s[1..], x, key);
      InsertSorts(s[1..], x, key);
      InsertKeepsElements(s[1..], x, key);
      forall j | 0 <= j < |rest| ensures KeyLe(key(s[0]), key(rest[j])) {
        assert rest[j] in multiset(rest);
        assert rest[j] == x || rest[j] in s[1..];
      }
    }
  }

  /** Python's `sorted` with a key. */
  function SortBy<T>(s: seq<T>, key: T -> (nat, nat)): (r: seq<T>)
    ensures multiset(r) == multiset(s)
    ensures SortedBy(r, key)
  {
    if s == [] then []
    else
      var rest := SortBy(s[1..], key);
      assert s == [s[0]] + s[1..];
      InsertKeepsElements(rest, s[0], key);
      InsertSorts(rest, s[0], key);
      InsertBy(rest, s[0], key)
  }

  lemma RepeatCounts<T>(s: seq<T>, i: nat, j: nat)
    requires i < j < |s| && s[i] == s[j]
    ensures multiset(s)[s[i]] >= 2
  {
    assert s == s[..i] + [s[i]] + s[i + 1..j] + [s[j]] + s[j + 1..];
  }

  /** A value at most once in a sequence stays so under sorting. */
  lemma SortKeepsDistinct<T>(s: seq<T>, r: seq<T>)
    requires multiset(r) == multiset(s)
    requires forall i, j :: 0 <= i < j < |s| ==> s[i] != s[j]
    ensures forall i, j :: 0 <= i < j < |r| ==> r[i] != r[j]
  {
    forall i, j | 0 <= i < j < |r| ensures r[i] != r[j] {
      MultiplicityOfDistinct(s, r[i]);
      if r[i] == r[j] { RepeatCounts(r, i, j); }
    }
  }

  lemma {:induction false} MultiplicityOfDistinct<T>(s: seq<T>, x: T)
    requires forall i, j :: 0 <= i < j < |s| ==> s[i] != s[j]
    ensures multiset(s)[x] <= 1
  {
    if s != [] {
      assert s == [s[0]] + s[1..];
      MultiplicityOfDistinct(s[1..], x);
    }
  }

  lemma SameMembers<T>(a: seq<T>, b: seq<T>)
    requires multiset(a) == multiset(b)
    ensures |a| == |b|
    ensures forall x :: x in a <==> x in b
  {
    assert |multiset(a)| == |a| && |multiset(b)| == |b|;
    forall x ensures x in a <==> x in b {
      assert x in a <==> x in multiset(a);
      assert x in b <==> x in multiset(b);
    }
  }

  lemma {:induction false} InsertInFront<T>(s: seq<T>, x: T, key: T -> (nat, nat))
    requires s != [] ==> KeyLe(key(x), key(s[0]))
    ensures InsertBy(s, x, key) == [x] + s
  {
  }

  /** Sorting an ordered sequence changes nothing. */
  lemma {:induction false} SortOfSorted<T>(s: seq<T>, key: T -> (nat, nat))
    requires SortedBy(s, key)
    ensures SortBy(s, key) == s
  {
    if s != [] {
      SortOfSorted(s[1..], key);
      InsertInFront(s[1..], s[0], key);
    }
  }

  // ---------------------------------------------------------------- keys that differ

  predicate StrictlyBy<T>(s: seq<T>, key: T -> (nat, nat)) {
    forall i, j :: 0 <= i < j < |s| ==> KeyLe(key(s[i]), key(s[j])) && key(s[i]) != key(s[j])
  }

  lemma FirstIsFirst<T>(a: seq<T>, b: seq<T>, key: T -> (nat, nat))
    requires StrictlyBy(a, key) && StrictlyBy(b, key) && a != [] && forall x :: x in a <==> x in b
    ensures b != [] && a[0] == b[0]
  {
    assert a[0] in b;
    assert b[0] in a;
    var i :| 0 <= i < |a| && a[i] == b[0];
    var j :| 0 <= j < |b| && b[j] == a[0];
  }

  lemma TailMembers<T>(a: seq<T>, b: seq<T>, key: T -> (nat, nat), x: T)
    requires StrictlyBy(a, key) && a != [] && b != [] && a[0] == b[0] && (forall x :: x in a ==> x in b) && x in a[1..]
    ensures x in b[1..]
  {
    var i :| 0 <= i < |a[1..]| && a[1..][i] == x;
    assert x == a[i + 1] && x != a[0];
    assert b == [b[0]] + b[1..];
    assert x in b;
  }

  /** Members in strictly rising order leave one sequence only. */
  lemma {:induction false} StrictIsUnique<T>(a: seq<T>, b: seq<T>, key: T -> (nat, nat))
    requires StrictlyBy(a, key) && StrictlyBy(b, key) && forall x :: x in a <==> x in b
    ensures a == b
  {
    if a == [] {
      if b != [] { FirstIsFirst(b, a, key); }
    } else {
      FirstIsFirst(a, b, key);
      forall x ensures x in a[1..] <==> x in b[1..] {
        if x in a[1..] { TailMembers(a, b, key, x); }
        if x in b[1..] { TailMembers(b, a, key, x); }
      }
      StrictIsUnique(a[1..], b[1..], key);
      assert a == [a[0]] + a[1..] && b == [b[0]] + b[1..];
    }
  }

  lemma KeysDiffer<T>(a: seq<T>, key: T -> (nat, nat), x: T, y: T)
    requires StrictlyBy(a, key) && x in a && y in a && x != y
    ensures key(x) != key(y)
  {
    var i :| 0 <= i < |a| && a[i] == x;
    var j :| 0 <= j < |a| && a[j] == y;
  }

  /** Distinct members sorted by keys that differ come out the same, whatever order they went in. */
  lemma SortIsUnique<T>(s: seq<T>, a: seq<T>, key: T -> (nat, nat))
    requires forall i, j :: 0 <= i < j < |s| ==> s[i] != s[j]
    requires StrictlyBy(a, key) && forall x :: x in s <==> x in a
    ensures SortBy(s, key) == a
  {
    var r := SortBy(s, key);
    SortKeepsDistinct(s, r);
    SameMembers(s, r);
    hide SortBy, InsertBy;
    DistinctKeysRise(r, a, key);
    StrictIsUnique(r, a, key);
  }

  lemma DistinctKeysRise<T>(r: seq<T>, a: seq<T>, key: T -> (nat, nat))
    requires SortedBy(r, key) && (forall i, j :: 0 <= i < j < |r| ==> r[i] != r[j])
    requires StrictlyBy(a, key) && forall x :: x in r <==> x in a
    ensures StrictlyBy(r, key)
  {
    hide KeyLe;
    forall i, j | 0 <= i < j < |r| ensures key(r[i]) != key(r[j]) {
      assert r[i] in r && r[j] in r;
      KeysDiffer(a, key, r[i], r[j]);
    }
  }
}
