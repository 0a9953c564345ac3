/** All table rows offered to an answer, bucketed by source, place, table and value columns, and grouped bucket by bucket. */
module TableBuckets {
  import opened Common
  import opened Ordered
  import opened Policy
  import opened Sorting
  import opened TableVariants

  /** A row option: the evidence of its subject and of its values, and where the row stands. */
  datatype Choice = Choice(subjects: seq<EvidenceId>, values: seq<EvidenceId>, table: int, row: int)

  /** A cell a piece of evidence comes from: its table, if known, and the columns it spans. */
  datatype Owner = Owner(table: Option<int>, data: bool, row: int, columns: set<nat>)

  /** Where evidence comes from: the identity of its source and its path in the document, both as numbers. */
  datatype Place = Place(source: nat, path: nat)

  /** What the evidence pack and its bindings say about evidence; `words` splits a row's joined subject texts. */
  datatype Sources = Sources(place: EvidenceId -> Place, owners: EvidenceId -> seq<Owner>, words: seq<EvidenceId> -> seq<string>)

  datatype BucketKey = BucketKey(place: Place, table: int, columns: set<nat>)

  // ---------------------------------------------------------------- the key of a row

  predicate OwnsValue(o: Owner, c: Choice) {
    o.data && o.row == c.row && o.table == Some(c.table)
  }

  /** The columns of the data cells of this row, in this table, that the row's values come from. */
  function ColumnsTo(c: Choice, s: Sources, n: nat): set<nat>
    requires n <= |c.values|
  {
    if n == 0 then {} else ColumnsTo(c, s, n - 1) + OwnedTo(c, s.owners(c.values[n - 1]), |s.owners(c.values[n - 1])|)
  }

  function OwnedTo(c: Choice, owners: seq<Owner>, n: nat): set<nat>
    requires n <= |owners|
  {
    if n == 0 then {} else OwnedTo(c, owners, n - 1) + if OwnsValue(owners[n - 1], c) then owners[n - 1].columns else {}
  }

  ghost predicate OnePlace(c: Choice, s: Sources)
    requires c.subjects != []
  {
    forall e :: e in c.subjects || e in c.values ==> s.place(e) == s.place(c.subjects[0])
  }

  /** A row has a bucket if all its evidence shares one place, its values have columns and its subject at least two words. */
  ghost function KeyOf(c: Choice, s: Sources): Option<BucketKey>
    requires c.subjects != []
  {
    var columns := ColumnsTo(c, s, |c.values|);
    if OnePlace(c, s) && columns != {} && |s.words(c.subjects)| >= 2
    then Some(BucketKey(s.place(c.subjects[0]), c.table, columns)) else None
  }

  method FindKey(c: Choice, s: Sources) returns (key: Option<BucketKey>)
    requires c.subjects != []
    ensures key == KeyOf(c, s)
  {
    var place := s.place(c.subjects[0]);
    var ids := c.subjects + c.values;
    for i := 0 to |ids|
      invariant forall j :: 0 <= j < i ==> s.place(ids[j]) == place
    {
      if s.place(ids[i]) != place {
        assert ids[i] in c.subjects || ids[i] in c.values;
        return None;
      }
    }
    assert OnePlace(c, s) by {
      forall e | e in c.subjects || e in c.values ensures s.place(e) == place { assert e in ids; }
    }
    var columns: set<nat> := {};
    for i := 0 to |c.values|
      invariant columns == ColumnsTo(c, s, i)
    {
      var owners := s.owners(c.values[i]);
      for k := 0 to |owners|
        invariant columns == ColumnsTo(c, s, i) + OwnedTo(c, owners, k)
      {
        if OwnsValue(owners[k], c) { columns := columns + owners[k].columns; }
      }
    }
    if columns == {} || |s.words(c.subjects)| < 2 { return None; }
    return Some(BucketKey(place, c.table, columns));
  }

  // ---------------------------------------------------------------- buckets

  predicate Named(choices: seq<Choice>) {
    forall i :: 0 <= i < |choices| ==> choices[i].subjects != []
  }

  /** The rows of one bucket among the first `n`, in order. */
  ghost function RowsTo(choices: seq<Choice>, s: Sources, key: BucketKey, n: nat): seq<SubjectRow>
    requires Named(choices) && n <= |choices|
  {
    if n == 0 then []
    else
      RowsTo(choices, s, key, n - 1)
      + if KeyOf(choices[n - 1], s) == Some(key) then [SubjectRow(n - 1, s.words(choices[n - 1].subjects))] else []
  }

  /** The rows of a bucket. */
  ghost function BucketOf(choices: seq<Choice>, s: Sources, key: BucketKey): seq<SubjectRow>
    requires Named(choices)
  {
    RowsTo(choices, s, key, |choices|)
  }

  /** A bucket holds exactly the rows with its key, under their own indices. */
  lemma {:induction false} RowsOfBucket(choices: seq<Choice>, s: Sources, key: BucketKey, n: nat)
    requires Named(choices) && n <= |choices|
    ensures DistinctIndices(RowsTo(choices, s, key, n))
    ensures forall x :: x in RowsTo(choices, s, key, n) <==>
              x.index < n && KeyOf(choices[x.index], s) == Some(key) && x.words == s.words(choices[x.index].subjects)
  {
    if n > 0 {
      RowsOfBucket(choices, s, key, n - 1);
    }
  }

  ghost predicate HoldsRows(choices: seq<Choice>, s: Sources, n: nat, buckets: map<BucketKey, seq<SubjectRow>>)
    requires Named(choices) && n <= |choices|
  {
    forall k :: k in buckets ==> buckets[k] == RowsTo(choices, s, k, n)
  }

  ghost predicate HasAllKeys(choices: seq<Choice>, s: Sources, n: nat, buckets: map<BucketKey, seq<SubjectRow>>)
    requires Named(choices) && n <= |choices|
  {
    forall i :: 0 <= i < n && KeyOf(choices[i], s).Some? ==> KeyOf(choices[i], s).value in buckets
  }

  ghost predicate KeysInOrder(keys: seq<BucketKey>, buckets: map<BucketKey, seq<SubjectRow>>) {
    Distinct(keys) && forall k :: k in keys <==> k in buckets
  }

  /** The insertion-ordered dictionary after the first `n` rows. */
  ghost predicate Bucketed(choices: seq<Choice>, s: Sources, n: nat, keys: seq<BucketKey>, buckets: map<BucketKey, seq<SubjectRow>>)
    requires Named(choices) && n <= |choices|
  {
    KeysInOrder(keys, buckets) && HoldsRows(choices, s, n, buckets) && HasAllKeys(choices, s, n, buckets)
  }

  lemma NoRowsYet(choices: seq<Choice>, s: Sources, n: nat, buckets: map<BucketKey, seq<SubjectRow>>, key: BucketKey)
    requires Named(choices) && n <= |choices| && HasAllKeys(choices, s, n, buckets) && key !in buckets
    ensures RowsTo(choices, s, key, n) == []
  {
    RowsOfBucket(choices, s, key, n);
    if RowsTo(choices, s, key, n) != [] {
      assert RowsTo(choices, s, key, n)[0] in RowsTo(choices, s, key, n);
    }
  }

  /** A row goes to the end of its bucket, which is opened if need be; without a key it goes nowhere. */
  function PutKey(keys: seq<BucketKey>, buckets: map<BucketKey, seq<SubjectRow>>, key: Option<BucketKey>): seq<BucketKey> {
    if key.None? || key.value in buckets then keys else keys + [key.value]
  }

  function PutRow(buckets: map<BucketKey, seq<SubjectRow>>, key: Option<BucketKey>, row: SubjectRow): map<BucketKey, seq<SubjectRow>> {
    if key.None? then buckets
    else buckets[key.value := (if key.value in buckets then buckets[key.value] else []) + [row]]
  }

  function RowAt(choices: seq<Choice>, s: Sources, n: nat): SubjectRow
    requires n < |choices|
  {
    SubjectRow(n, s.words(choices[n].subjects))
  }

  lemma PutKeepsRows(choices: seq<Choice>, s: Sources, n: nat, buckets: map<BucketKey, seq<SubjectRow>>)
    requires Named(choices) && n < |choices| && HoldsRows(choices, s, n, buckets) && HasAllKeys(choices, s, n, buckets)
    ensures HoldsRows(choices, s, n + 1, PutRow(buckets, KeyOf(choices[n], s), RowAt(choices, s, n)))
  {
    var key := KeyOf(choices[n], s);
    var row := RowAt(choices, s, n);
    if key.Some? && key.value !in buckets { NoRowsYet(choices, s, n, buckets, key.value); }
    hide KeyOf, HasAllKeys;
    var buckets' := PutRow(buckets, key, row);
    forall k | k in buckets' ensures buckets'[k] == RowsTo(choices, s, k, n + 1) {
      assert RowsTo(choices, s, k, n + 1) == RowsTo(choices, s, k, n) + if key == Some(k) then [row] else [];
    }
  }

  lemma PutKeepsOrder(keys: seq<BucketKey>, buckets: map<BucketKey, seq<SubjectRow>>, key: Option<BucketKey>, row: SubjectRow)
    requires KeysInOrder(keys, buckets)
    ensures KeysInOrder(PutKey(keys, buckets, key), PutRow(buckets, key, row))
    ensures forall k :: k in PutRow(buckets, key, row) <==> k in buckets || key == Some(k)
  {
  }

  lemma PutKeepsBuckets(choices: seq<Choice>, s: Sources, n: nat, keys: seq<BucketKey>, buckets: map<BucketKey, seq<SubjectRow>>)
    requires Named(choices) && n < |choices| && Bucketed(choices, s, n, keys, buckets)
    ensures Bucketed(choices, s, n + 1, PutKey(keys, buckets, KeyOf(choices[n], s)),
                     PutRow(buckets, KeyOf(choices[n], s), RowAt(choices, s, n)))
  {
    hide KeyOf, PutKey, PutRow, KeysInOrder, HoldsRows;
    PutKeepsRows(choices, s, n, buckets);
    PutKeepsOrder(keys, buckets, KeyOf(choices[n], s), RowAt(choices, s, n));
  }

  lemma NothingPut(choices: seq<Choice>, s: Sources)
    requires Named(choices)
    ensures Bucketed(choices, s, 0, [], map[])
  {
  }

  method FillBuckets(choices: seq<Choice>, s: Sources) returns (keys: seq<BucketKey>, buckets: map<BucketKey, seq<SubjectRow>>)
    requires Named(choices)
    ensures Bucketed(choices, s, |choices|, keys, buckets)
  {
    hide Bucketed, KeyOf, PutKey, PutRow, RowAt;
    keys, buckets := [], map[];
    NothingPut(choices, s);
    for index := 0 to |choices|
      invariant Bucketed(choices, s, index, keys, buckets)
    {
      PutKeepsBuckets(choices, s, index, keys, buckets);
      var key := FindKey(choices[index], s);
      keys := PutKey(keys, buckets, key);
      buckets := PutRow(buckets, key, RowAt(choices, s, index));
    }
  }

  // ---------------------------------------------------------------- groups of all buckets

  /** A variant group of some bucket: one of its bases with exactly that base's refinements. */
  ghost predicate IsVariantGroup(rows: seq<SubjectRow>, g: Group) {
    exists b :: IsBase(rows, b) && GroupOf(rows, b, g)
  }

  ghost predicate FromSomeBucket(choices: seq<Choice>, s: Sources, keys: seq<BucketKey>, n: nat, g: Group)
    requires Named(choices) && n <= |keys|
  {
    exists i :: 0 <= i < n && IsVariantGroup(BucketOf(choices, s, keys[i]), g)
  }

  /** The base of a variant group is a row of its bucket. */
  lemma BaseIsInBucket(choices: seq<Choice>, s: Sources, key: BucketKey, g: Group)
    requires Named(choices) && IsVariantGroup(BucketOf(choices, s, key), g)
    ensures g.base < |choices| && KeyOf(choices[g.base], s) == Some(key)
  {
    RowsOfBucket(choices, s, key, |choices|);
    var b :| IsBase(BucketOf(choices, s, key), b) && GroupOf(BucketOf(choices, s, key), b, g);
  }

  /** What the groups of the first `n` buckets are: all of them, and no base twice. */
  ghost predicate Collected(choices: seq<Choice>, s: Sources, keys: seq<BucketKey>, n: nat, groups: seq<Group>)
    requires Named(choices) && n <= |keys|
  {
    && (forall g :: g in groups ==> FromSomeBucket(choices, s, keys, n, g))
    && (forall i, b :: 0 <= i < n && IsBase(BucketOf(choices, s, keys[i]), b) ==> HasGroup(BucketOf(choices, s, keys[i]), groups, b))
    && DistinctBases(groups)
  }

  /** Groups of a new bucket have new bases. */
  lemma NewBasesAreNew(choices: seq<Choice>, s: Sources, keys: seq<BucketKey>, n: nat, groups: seq<Group>, more: seq<Group>)
    requires Named(choices) && n < |keys| && Distinct(keys)
    requires (forall g :: g in groups ==> FromSomeBucket(choices, s, keys, n, g)) && DistinctBases(groups)
    requires (forall g :: g in more ==> IsVariantGroup(BucketOf(choices, s, keys[n]), g)) && DistinctBases(more)
    ensures DistinctBases(groups + more)
  {
    hide IsVariantGroup, KeyOf;
    forall k, l | 0 <= k < |groups| && 0 <= l < |more| ensures groups[k].base != more[l].base {
      assert groups[k] in groups && more[l] in more;
      var i :| 0 <= i < n && IsVariantGroup(BucketOf(choices, s, keys[i]), groups[k]);
      BaseIsInBucket(choices, s, keys[i], groups[k]);
      BaseIsInBucket(choices, s, keys[n], more[l]);
    }
    forall k, l | 0 <= k < l < |groups + more| ensures (groups + more)[k].base != (groups + more)[l].base {
      if l < |groups| {
        assert groups[k].base != groups[l].base;
      } else if k >= |groups| {
        assert more[k - |groups|].base != more[l - |groups|].base;
      }
    }
  }

  lemma FromLaterBucket(choices: seq<Choice>, s: Sources, keys: seq<BucketKey>, n: nat, groups: seq<Group>, more: seq<Group>)
    requires Named(choices) && n < |keys| && forall g :: g in groups ==> FromSomeBucket(choices, s, keys, n, g)
    requires forall g :: g in more ==> IsVariantGroup(BucketOf(choices, s, keys[n]), g)
    ensures forall g :: g in groups + more ==> FromSomeBucket(choices, s, keys, n + 1, g)
  {
    hide IsVariantGroup, BucketOf;
    forall g | g in groups + more ensures FromSomeBucket(choices, s, keys, n + 1, g) {
      if g in groups {
        var i :| 0 <= i < n && IsVariantGroup(BucketOf(choices, s, keys[i]), g);
      }
    }
  }

  lemma GroupStaysListed(rows: seq<SubjectRow>, groups: seq<Group>, more: seq<Group>, b: SubjectRow)
    requires HasGroup(rows, groups, b) || HasGroup(rows, more, b)
    ensures HasGroup(rows, groups + more, b)
  {
    hide GroupOf;
    if HasGroup(rows, groups, b) {
      var g :| g in groups && GroupOf(rows, b, g);
      assert g in groups + more;
    } else {
      var g :| g in more && GroupOf(rows, b, g);
      assert g in groups + more;
    }
  }

  lemma CollectBucket(choices: seq<Choice>, s: Sources, keys: seq<BucketKey>, n: nat, groups: seq<Group>, more: seq<Group>)
    requires Named(choices) && n < |keys| && Distinct(keys) && Collected(choices, s, keys, n, groups)
    requires forall g :: g in more ==> IsVariantGroup(BucketOf(choices, s, keys[n]), g)
    requires forall b :: IsBase(BucketOf(choices, s, keys[n]), b) ==> HasGroup(BucketOf(choices, s, keys[n]), more, b)
    requires DistinctBases(more)
    ensures Collected(choices, s, keys, n + 1, groups + more)
  {
    hide IsVariantGroup, IsBase, DistinctBases, BucketOf, HasGroup, FromSomeBucket;
    NewBasesAreNew(choices, s, keys, n, groups, more);
    FromLaterBucket(choices, s, keys, n, groups, more);
    forall i, b | 0 <= i < n + 1 && IsBase(BucketOf(choices, s, keys[i]), b)
      ensures HasGroup(BucketOf(choices, s, keys[i]), groups + more, b)
    {
      GroupStaysListed(BucketOf(choices, s, keys[i]), groups, more, b);
    }
  }

  ghost predicate InSomeBucket(choices: seq<Choice>, s: Sources, g: Group)
    requires Named(choices)
  {
    exists key :: IsVariantGroup(BucketOf(choices, s, key), g)
  }

  ghost predicate BasesListed(choices: seq<Choice>, s: Sources, groups: seq<Group>, key: BucketKey)
    requires Named(choices)
  {
    forall b :: IsBase(BucketOf(choices, s, key), b) ==> HasGroup(BucketOf(choices, s, key), groups, b)
  }

  /** The result: every base of every bucket with its group, and nothing else, by ascending base. */
  ghost predicate AllGroups(choices: seq<Choice>, s: Sources, groups: seq<Group>)
    requires Named(choices)
  {
    && (forall g :: g in groups ==> InSomeBucket(choices, s, g))
    && (forall key :: BasesListed(choices, s, groups, key))
    && (forall i, j :: 0 <= i < j < |groups| ==> groups[i].base < groups[j].base)
  }

  /** A key that no row has gives an empty bucket, which has no base. */
  lemma OnlyKeysHaveBases(choices: seq<Choice>, s: Sources, keys: seq<BucketKey>, buckets: map<BucketKey, seq<SubjectRow>>,
                          key: BucketKey, b: SubjectRow)
    requires Named(choices) && Bucketed(choices, s, |choices|, keys, buckets) && IsBase(BucketOf(choices, s, key), b)
    ensures key in keys
  {
    if key !in buckets { NoRowsYet(choices, s, |choices|, buckets, key); }
  }

  lemma SortedGroupsAreAll(choices: seq<Choice>, s: Sources, keys: seq<BucketKey>, buckets: map<BucketKey, seq<SubjectRow>>,
                           groups: seq<Group>, sorted: seq<Group>)
    requires Named(choices) && Bucketed(choices, s, |choices|, keys, buckets) && Collected(choices, s, keys, |keys|, groups)
    requires multiset(sorted) == multiset(groups) && SortedBy(sorted, (g: Group) => (0, g.base))
    ensures AllGroups(choices, s, sorted)
  {
    SameMembers(sorted, groups);
    forall g | g in sorted ensures InSomeBucket(choices, s, g) {
      assert FromSomeBucket(choices, s, keys, |keys|, g);
    }
    forall key ensures BasesListed(choices, s, sorted, key) {
      forall b | IsBase(BucketOf(choices, s, key), b) ensures HasGroup(BucketOf(choices, s, key), sorted, b) {
        OnlyKeysHaveBases(choices, s, keys, buckets, key, b);
        var i :| 0 <= i < |keys| && keys[i] == key;
        assert HasGroup(BucketOf(choices, s, keys[i]), groups, b);
        var g :| g in groups && GroupOf(BucketOf(choices, s, key), b, g);
        assert g in sorted;
      }
    }
    BasesStayDistinct(groups, sorted);
  }

  lemma BasesStayDistinct(groups: seq<Group>, sorted: seq<Group>)
    requires DistinctBases(groups) && multiset(sorted) == multiset(groups) && SortedBy(sorted, (g: Group) => (0, g.base))
    ensures forall i, j :: 0 <= i < j < |sorted| ==> sorted[i].base < sorted[j].base
  {
    SameMembers(sorted, groups);
    SortKeepsDistinct(groups, sorted);
    forall i, j | 0 <= i < j < |sorted| ensures sorted[i].base < sorted[j].base {
      assert KeyLe((0, sorted[i].base), (0, sorted[j].base));
      assert sorted[i] in sorted && sorted[j] in sorted;
      var k :| 0 <= k < |groups| && groups[k] == sorted[i];
      var l :| 0 <= l < |groups| && groups[l] == sorted[j];
      assert k != l;
    }
  }

  /**
   `table_variant_groups`: rows fall into buckets by source, path, table and value columns; every bucket is grouped
   greedily; the result lists every base with exactly its refinements in its own bucket, by ascending base.
   */
  method TableVariantGroups(choices: seq<Choice>, s: Sources) returns (groups: seq<Group>)
    requires Named(choices)
    ensures AllGroups(choices, s, groups)
  {
    var keys, buckets := FillBuckets(choices, s);
    var all: seq<Group> := [];
    for i := 0 to |keys|
      invariant Collected(choices, s, keys, i, all)
    {
      assert buckets[keys[i]] == BucketOf(choices, s, keys[i]);
      RowsOfBucket(choices, s, keys[i], |choices|);
      var more := VariantGroups(buckets[keys[i]]);
      hide *;
      CollectBucket(choices, s, keys, i, all, more);
      all := all + more;
    }
    groups := SortBy(all, (g: Group) => (0, g.base));
    SortedGroupsAreAll(choices, s, keys, buckets, all, groups);
  }
}
