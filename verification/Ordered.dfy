/** Insertion-ordered dictionaries and de-duplicated lists: every key keeps the place of its first insertion. */
module Ordered {

  function InsertOne<T(==)>(order: seq<T>, e: T): seq<T> {
    if e in order then order else order + [e]
  }

  function InsertTo<T(==)>(order: seq<T>, used: seq<T>, n: nat): seq<T>
    requires n <= |used|
  {
    if n == 0 then order else InsertOne(InsertTo(order, used, n - 1), used[n - 1])
  }

  /** The distinct elements in the order of their first use. */
  function FirstUses<T(==)>(used: seq<T>): seq<T> {
    InsertTo([], used, |used|)
  }

  predicate Distinct<T(==)>(s: seq<T>) {
    forall i, j :: 0 <= i < j < |s| ==> s[i] != s[j]
  }

  lemma {:induction false} InsertToGrows<T>(order: seq<T>, used: seq<T>, m: nat, n: nat)
    requires m <= n <= |used|
    ensures InsertTo(order, used, m) <= InsertTo(order, used, n)
  {
    if m < n {
      InsertToGrows(order, used, m, n - 1);
    }
  }

  lemma {:induction false} InsertToAdds<T>(order: seq<T>, used: seq<T>, n: nat)
    requires n <= |used| && Distinct(order)
    ensures Distinct(InsertTo(order, used, n))
    ensures forall e :: e in InsertTo(order, used, n) <==> e in order || e in used[..n]
  {
    if n > 0 {
      InsertToAdds(order, used, n - 1);
      assert used[..n] == used[..n - 1] + [used[n - 1]];
    }
  }

  lemma InsertedIsUsed<T>(used: seq<T>, n: nat, e: T)
    requires n <= |used|
    ensures e in InsertTo([], used, n) <==> e in used[..n]
  {
    InsertToAdds([], used, n);
  }

  lemma FirstUsesAreTheUsed<T>(used: seq<T>)
    ensures Distinct(FirstUses(used))
    ensures forall e :: e in FirstUses(used) <==> e in used
  {
    InsertToAdds([], used, |used|);
    assert used[..|used|] == used;
  }

  lemma {:induction false} InsertToPrefix<T>(order: seq<T>, used: seq<T>, more: seq<T>, n: nat)
    requires n <= |used|
    ensures InsertTo(order, used + more, n) == InsertTo(order, used, n)
  {
    if n > 0 {
      InsertToPrefix(order, used, more, n - 1);
    }
  }

  /** Inserting list after list is inserting all of them at once. */
  lemma {:induction false} InsertToJoins<T>(order: seq<T>, used: seq<T>, more: seq<T>, n: nat)
    requires n <= |more|
    ensures InsertTo(order, used + more, |used| + n) == InsertTo(InsertTo(order, used, |used|), more, n)
  {
    if n == 0 {
      InsertToPrefix(order, used, more, |used|);
    } else {
      InsertToJoins(order, used, more, n - 1);
    }
  }

  /** Elements stand in the order of their first occurrence. */
  lemma {:induction false} FirstUsesKeepOrder<T>(used: seq<T>, len: nat, m: nat, n: nat) returns (i: nat)
    requires len <= |used| && m < n < |InsertTo([], used, len)|
    ensures i < len && used[i] == InsertTo([], used, len)[m]
    ensures InsertTo([], used, len)[n] !in used[..i + 1]
  {
    var before := InsertTo([], used, len - 1);
    InsertToAdds([], used, len - 1);
    if n < |before| {
      i := FirstUsesKeepOrder(used, len - 1, m, n);
    } else {
      var e := before[m];
      InsertedIsUsed(used, len - 1, e);
      i :| 0 <= i < len - 1 && used[..len - 1][i] == e;
      assert forall j :: 0 <= j <= i ==> used[..len - 1][j] == used[j];
    }
  }

  lemma {:induction false} DistinctIsSmall<T>(s: seq<T>, all: set<T>)
    requires Distinct(s) && forall e :: e in s ==> e in all
    ensures |s| <= |all|
  {
    if s != [] {
      var e := s[|s| - 1];
      var rest := s[..|s| - 1];
      assert forall x :: x in rest ==> x in s && x != e;
      DistinctIsSmall(rest, all - {e});
    }
  }
}
