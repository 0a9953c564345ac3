/** Table rows whose subjects refine each other, grouped around the shortest subject of each family. */
module TableVariants {
  import opened Sorting

  // ---------------------------------------------------------------- containment of subjects

  datatype SubjectRow = SubjectRow(index: nat, words: seq<string>)

  /** `base` occurs contiguously in `words`. */
  predicate Contains(words: seq<string>, base: seq<string>) {
    exists start :: 0 <= start <= |words| - |base| && OccursAt(words, base, start)
  }

  predicate OccursAt(words: seq<string>, base: seq<string>, start: nat) {
    start + |base| <= |words| && words[start..start + |base|] == base
  }

  /** A strictly longer subject that contains the base's words in a row. */
  predicate Refines(row: SubjectRow, base: SubjectRow) {
    |row.words| > |base.words| && Contains(row.words, base.words)
  }

  lemma SliceOfSlice(words: seq<string>, from: nat, length: nat, inner: nat, innerLength: nat)
    requires from + length <= |words| && inner + innerLength <= length
    ensures words[from..from + length][inner..inner + innerLength] == words[from + inner..from + inner + innerLength]
  {
    var outer := words[from..from + length];
    var a, b := outer[inner..inner + innerLength], words[from + inner..from + inner + innerLength];
    forall k | 0 <= k < innerLength ensures a[k] == b[k] {
      assert a[k] == outer[inner + k] && outer[inner + k] == words[from + (inner + k)];
    }
    assert a == b;
  }

  lemma RefinesIsTransitive(a: SubjectRow, b: SubjectRow, c: SubjectRow)
    requires Refines(a, b) && Refines(b, c)
    ensures Refines(a, c)
  {
    var s :| 0 <= s <= |a.words| - |b.words| && OccursAt(a.words, b.words, s);
    var t :| 0 <= t <= |b.words| - |c.words| && OccursAt(b.words, c.words, t);
    SliceOfSlice(a.words, s, |b.words|, t, |c.words|);
    assert OccursAt(a.words, c.words, s + t);
  }

  predicate Minimal(rows: seq<SubjectRow>, row: SubjectRow) {
    forall x :: x in rows ==> !Refines(row, x)
  }

  /** The declarative meaning of a group base: nothing shorter occurs in it, and it occurs in something longer. */
  predicate IsBase(rows: seq<SubjectRow>, row: SubjectRow) {
    row in rows && Minimal(rows, row) && exists y :: y in rows && Refines(y, row)
  }

  lemma {:induction false} MinimalBelow(rows: seq<SubjectRow>, row: SubjectRow, x: SubjectRow) returns (m: SubjectRow)
    requires x in rows && Refines(row, x)
    ensures m in rows && Refines(row, m) && Minimal(rows, m) && (m == x || Refines(x, m))
    decreases |x.words|
  {
    if Minimal(rows, x) {
      m := x;
    } else {
      var y :| y in rows && Refines(x, y);
      RefinesIsTransitive(row, x, y);
      m := MinimalBelow(rows, row, y);
      if m != y { RefinesIsTransitive(x, y, m); }
    }
  }

  // ---------------------------------------------------------------- variant groups

  datatype Group = Group(base: nat, members: seq<nat>)

  predicate DistinctIndices(rows: seq<SubjectRow>) {
    forall i, j :: 0 <= i < j < |rows| ==> rows[i].index != rows[j].index
  }

  function RowIndices(rows: seq<SubjectRow>): (r: seq<nat>)
    ensures |r| == |rows|
    ensures forall i :: 0 <= i < |r| ==> r[i] == rows[i].index
  {
    seq(|rows|, i requires 0 <= i < |rows| => rows[i].index)
  }

  /** The rows that refine a base, in the order of the bucket. */
  function Refinements(rows: seq<SubjectRow>, base: SubjectRow): (r: seq<SubjectRow>)
    ensures forall x :: x in r <==> x in rows && Refines(x, base)
  {
    if rows == [] then []
    else
      assert rows == [rows[0]] + rows[1..];
      var rest := Refinements(rows[1..], base);
      if Refines(rows[0], base) then [rows[0]] + rest else rest
  }

  lemma {:induction false} RefinementsAreDistinct(rows: seq<SubjectRow>, base: SubjectRow)
    requires DistinctIndices(rows)
    ensures DistinctIndices(Refinements(rows, base))
  {
    hide Refines;
    if rows != [] {
      var rest := Refinements(rows[1..], base);
      RefinementsAreDistinct(rows[1..], base);
      forall j | 0 <= j < |rest| ensures rest[j].index != rows[0].index {
        assert rest[j] in rows[1..];
      }
    }
  }

  /** The group of a base row: exactly the base and the rows refining it, by ascending index. */
  ghost predicate GroupOf(rows: seq<SubjectRow>, base: SubjectRow, g: Group) {
    && g.base == base.index
    && (forall i :: i in g.members <==> i == base.index || exists y :: y in rows && Refines(y, base) && y.index == i)
    && (forall i, j :: 0 <= i < j < |g.members| ==> g.members[i] < g.members[j])
  }

  lemma SameIndexSameRow(rows: seq<SubjectRow>, a: SubjectRow, b: SubjectRow)
    requires DistinctIndices(rows) && a in rows && b in rows
    ensures a.index == b.index ==> a == b
  {
  }

  lemma MembersBeforeSorting(rows: seq<SubjectRow>, base: SubjectRow, i: nat)
    ensures i in [base.index] + RowIndices(Refinements(rows, base))
            <==> i == base.index || exists y :: y in rows && Refines(y, base) && y.index == i
  {
    var refined := Refinements(rows, base);
    if i in RowIndices(refined) {
      var k :| 0 <= k < |refined| && RowIndices(refined)[k] == i;
      assert refined[k] in refined;
    }
    if y :| y in rows && Refines(y, base) && y.index == i {
      assert y in refined;
      var k :| 0 <= k < |refined| && refined[k] == y;
      assert RowIndices(refined)[k] == i;
    }
  }

  lemma MembersAreDistinct(rows: seq<SubjectRow>, base: SubjectRow)
    requires DistinctIndices(rows) && base in rows
    ensures var m := [base.index] + RowIndices(Refinements(rows, base));
            forall i, j :: 0 <= i < j < |m| ==> m[i] != m[j]
  {
    var refined := Refinements(rows, base);
    RefinementsAreDistinct(rows, base);
    hide Refines;
    var m := [base.index] + RowIndices(refined);
    forall i, j | 0 <= i < j < |m| ensures m[i] != m[j] {
      if i == 0 {
        assert refined[j - 1] in refined;
        SameIndexSameRow(rows, refined[j - 1], base);
      }
    }
  }

  method MakeGroup(rows: seq<SubjectRow>, base: SubjectRow, refined: seq<SubjectRow>) returns (g: Group)
    requires DistinctIndices(rows) && base in rows && refined == Refinements(rows, base)
    ensures GroupOf(rows, base, g)
  {
    var key := (n: nat) => (0, n);
    var unsorted := [base.index] + RowIndices(refined);
    var members := SortBy(unsorted, key);
    SameMembers(members, unsorted);
    MembersAreDistinct(rows, base);
    SortKeepsDistinct(unsorted, members);
    forall i, j | 0 <= i < j < |members| ensures members[i] < members[j] {
      assert KeyLe(key(members[i]), key(members[j]));
    }
    forall i: nat { MembersBeforeSorting(rows, base, i); }
    g := Group(base.index, members);
  }

  /** A row that is shorter than row `i` comes before it in length order. */
  lemma ShorterComesFirst(sorted: seq<SubjectRow>, i: nat, m: SubjectRow) returns (j: nat)
    requires i < |sorted| && m in sorted && |m.words| < |sorted[i].words|
    requires SortedBy(sorted, (row: SubjectRow) => (|row.words|, row.index))
    ensures j < i && sorted[j] == m
  {
    j :| 0 <= j < |sorted| && sorted[j] == m;
  }

  ghost predicate HasGroup(rows: seq<SubjectRow>, groups: seq<Group>, b: SubjectRow) {
    exists g :: g in groups && GroupOf(rows, b, g)
  }

  ghost predicate FromBase(rows: seq<SubjectRow>, sorted: seq<SubjectRow>, i: nat, g: Group) {
    exists j :: 0 <= j < i && j < |sorted| && IsBase(rows, sorted[j]) && GroupOf(rows, sorted[j], g)
  }

  ghost predicate Sound(rows: seq<SubjectRow>, sorted: seq<SubjectRow>, i: nat, groups: seq<Group>) {
    forall g :: g in groups ==> FromBase(rows, sorted, i, g)
  }

  ghost predicate Complete(rows: seq<SubjectRow>, sorted: seq<SubjectRow>, i: nat, groups: seq<Group>) {
    forall j :: 0 <= j < i && j < |sorted| && IsBase(rows, sorted[j]) ==> HasGroup(rows, groups, sorted[j])
  }

  ghost predicate Covering(groups: seq<Group>, covered: set<nat>) {
    forall n :: n in covered <==> exists g :: g in groups && n in g.members
  }

  predicate DistinctBases(groups: seq<Group>) {
    forall k, l :: 0 <= k < l < |groups| ==> groups[k].base != groups[l].base
  }

  /** What holds when the rows before position `i` of the length order have been treated. */
  ghost predicate Grouped(rows: seq<SubjectRow>, sorted: seq<SubjectRow>, i: nat, groups: seq<Group>, covered: set<nat>) {
    Sound(rows, sorted, i, groups) && Complete(rows, sorted, i, groups) && Covering(groups, covered) && DistinctBases(groups)
  }

  predicate LengthOrder(rows: seq<SubjectRow>, sorted: seq<SubjectRow>) {
    && DistinctIndices(rows) && SortedBy(sorted, (row: SubjectRow) => (|row.words|, row.index))
    && (forall i, j :: 0 <= i < j < |sorted| ==> sorted[i] != sorted[j])
    && (forall i :: 0 <= i < |sorted| ==> sorted[i] in rows)
    && (forall x :: x in rows ==> x in sorted)
  }

  /** A member of a group that is not its base refines the base. */
  lemma MemberRefines(rows: seq<SubjectRow>, base: SubjectRow, g: Group, row: SubjectRow)
    requires DistinctIndices(rows) && GroupOf(rows, base, g) && base in rows && row in rows && row.index in g.members
    ensures row == base || Refines(row, base)
  {
    if row.index == base.index {
      SameIndexSameRow(rows, row, base);
    } else {
      var y :| y in rows && Refines(y, base) && y.index == row.index;
      SameIndexSameRow(rows, row, y);
    }
  }

  /** A covered row refines an earlier base, so it is no base. */
  lemma CoveredIsNoBase(rows: seq<SubjectRow>, sorted: seq<SubjectRow>, i: nat, groups: seq<Group>, covered: set<nat>)
    requires LengthOrder(rows, sorted) && i < |sorted| && Sound(rows, sorted, i, groups) && Covering(groups, covered)
    requires sorted[i].index in covered
    ensures !IsBase(rows, sorted[i])
  {
    var g :| g in groups && sorted[i].index in g.members;
    assert FromBase(rows, sorted, i, g);
    var j :| 0 <= j < i && IsBase(rows, sorted[j]) && GroupOf(rows, sorted[j], g);
    assert sorted[i] in rows && sorted[j] != sorted[i];
    MemberRefines(rows, sorted[j], g, sorted[i]);
  }

  /** An uncovered row has nothing shorter inside it: the minimal such row would be an earlier base covering it. */
  lemma UncoveredIsMinimal(rows: seq<SubjectRow>, sorted: seq<SubjectRow>, i: nat, groups: seq<Group>, covered: set<nat>)
    requires LengthOrder(rows, sorted) && i < |sorted| && Grouped(rows, sorted, i, groups, covered)
    requires sorted[i].index !in covered
    ensures Minimal(rows, sorted[i])
  {
    forall x | x in rows ensures !Refines(sorted[i], x) {
      if Refines(sorted[i], x) { RefinedIsCovered(rows, sorted, i, groups, covered, x); }
    }
  }

  lemma RefinedIsCovered(rows: seq<SubjectRow>, sorted: seq<SubjectRow>, i: nat, groups: seq<Group>, covered: set<nat>, x: SubjectRow)
    requires LengthOrder(rows, sorted) && i < |sorted| && Complete(rows, sorted, i, groups) && Covering(groups, covered)
    requires x in rows && Refines(sorted[i], x)
    ensures sorted[i].index in covered
  {
    var m := MinimalBelow(rows, sorted[i], x);
    var j := ShorterComesFirst(sorted, i, m);
    assert sorted[i] in rows;
    assert IsBase(rows, sorted[j]);
    var g :| g in groups && GroupOf(rows, sorted[j], g);
    MemberOf(rows, sorted[j], g, sorted[i]);
  }

  lemma MemberOf(rows: seq<SubjectRow>, base: SubjectRow, g: Group, row: SubjectRow)
    requires GroupOf(rows, base, g) && row in rows && Refines(row, base)
    ensures row.index in g.members
  {
  }

  lemma SoundLater(rows: seq<SubjectRow>, sorted: seq<SubjectRow>, i: nat, groups: seq<Group>)
    requires Sound(rows, sorted, i, groups)
    ensures Sound(rows, sorted, i + 1, groups)
  {
    forall g | g in groups ensures FromBase(rows, sorted, i + 1, g) {
      assert FromBase(rows, sorted, i, g);
      var j :| 0 <= j < i && j < |sorted| && IsBase(rows, sorted[j]) && GroupOf(rows, sorted[j], g);
    }
  }

  lemma StepWithoutGroup(rows: seq<SubjectRow>, sorted: seq<SubjectRow>, i: nat, groups: seq<Group>, covered: set<nat>)
    requires i < |sorted| && Grouped(rows, sorted, i, groups, covered) && !IsBase(rows, sorted[i])
    ensures Grouped(rows, sorted, i + 1, groups, covered)
  {
    SoundLater(rows, sorted, i, groups);
    assert Complete(rows, sorted, i + 1, groups);
  }

  lemma SoundWithGroup(rows: seq<SubjectRow>, sorted: seq<SubjectRow>, i: nat, groups: seq<Group>, g: Group)
    requires i < |sorted| && Sound(rows, sorted, i, groups) && IsBase(rows, sorted[i]) && GroupOf(rows, sorted[i], g)
    ensures Sound(rows, sorted, i + 1, groups + [g])
  {
    SoundLater(rows, sorted, i, groups);
    forall h | h in groups + [g] ensures FromBase(rows, sorted, i + 1, h) {
      if h in groups { assert FromBase(rows, sorted, i + 1, h); }
    }
  }

  lemma CompleteWithGroup(rows: seq<SubjectRow>, sorted: seq<SubjectRow>, i: nat, groups: seq<Group>, g: Group)
    requires i < |sorted| && Complete(rows, sorted, i, groups) && GroupOf(rows, sorted[i], g)
    ensures Complete(rows, sorted, i + 1, groups + [g])
  {
    forall j | 0 <= j < i + 1 && IsBase(rows, sorted[j]) ensures HasGroup(rows, groups + [g], sorted[j]) {
      if j < i {
        assert HasGroup(rows, groups, sorted[j]);
        var h :| h in groups && GroupOf(rows, sorted[j], h);
        assert h in groups + [g];
      } else {
        assert g in groups + [g];
      }
    }
  }

  lemma CoveringWithGroup(groups: seq<Group>, covered: set<nat>, g: Group)
    requires Covering(groups, covered)
    ensures Covering(groups + [g], covered + set x | x in g.members)
  {
    var covered' := covered + set x | x in g.members;
    forall n | n in covered' ensures exists h :: h in groups + [g] && n in h.members {
      if n in g.members {
        assert g in groups + [g];
      } else {
        var h :| h in groups && n in h.members;
        assert h in groups + [g];
      }
    }
    forall h, n | h in groups + [g] && n in h.members ensures n in covered' {
      if h in groups { assert n in covered; }
    }
  }

  /** A base not covered yet is not the base of an earlier group, since a group covers its own base. */
  lemma NewBase(rows: seq<SubjectRow>, sorted: seq<SubjectRow>, i: nat, groups: seq<Group>, covered: set<nat>, g: Group)
    requires Sound(rows, sorted, i, groups) && Covering(groups, covered) && DistinctBases(groups) && g.base !in covered
    ensures DistinctBases(groups + [g])
  {
    forall k | 0 <= k < |groups| ensures groups[k].base != g.base {
      assert groups[k] in groups;
      assert FromBase(rows, sorted, i, groups[k]);
      var j :| 0 <= j < i && j < |sorted| && IsBase(rows, sorted[j]) && GroupOf(rows, sorted[j], groups[k]);
      assert groups[k].base in groups[k].members;
    }
  }

  lemma StepWithGroup(rows: seq<SubjectRow>, sorted: seq<SubjectRow>, i: nat, groups: seq<Group>, covered: set<nat>, g: Group)
    requires i < |sorted| && Grouped(rows, sorted, i, groups, covered)
    requires IsBase(rows, sorted[i]) && GroupOf(rows, sorted[i], g) && sorted[i].index !in covered
    ensures Grouped(rows, sorted, i + 1, groups + [g], covered + set x | x in g.members)
  {
    SoundWithGroup(rows, sorted, i, groups, g);
    CompleteWithGroup(rows, sorted, i, groups, g);
    CoveringWithGroup(groups, covered, g);
    NewBase(rows, sorted, i, groups, covered, g);
  }

  lemma NoRefinementNoBase(rows: seq<SubjectRow>, row: SubjectRow)
    requires row in rows && Minimal(rows, row)
    ensures IsBase(rows, row) <==> Refinements(rows, row) != []
  {
    var refined := Refinements(rows, row);
    if refined != [] { assert refined[0] in refined; }
    if y :| y in rows && Refines(y, row) { assert y in refined; }
  }

  /** One round of the greedy loop: a row not covered yet opens a group if anything refines it. */
  method TreatRow(rows: seq<SubjectRow>, sorted: seq<SubjectRow>, i: nat, groups: seq<Group>, covered: set<nat>)
    returns (groups': seq<Group>, covered': set<nat>)
    requires LengthOrder(rows, sorted) && i < |sorted| && Grouped(rows, sorted, i, groups, covered)
    ensures Grouped(rows, sorted, i + 1, groups', covered')
  {
    var base := sorted[i];
    groups', covered' := groups, covered;
    if base.index in covered {
      CoveredIsNoBase(rows, sorted, i, groups, covered);
      StepWithoutGroup(rows, sorted, i, groups, covered);
      return;
    }
    UncoveredIsMinimal(rows, sorted, i, groups, covered);
    NoRefinementNoBase(rows, base);
    var refined := Refinements(rows, base);
    if refined == [] {
      StepWithoutGroup(rows, sorted, i, groups, covered);
    } else {
      var g := MakeGroup(rows, base, refined);
      StepWithGroup(rows, sorted, i, groups, covered, g);
      groups', covered' := groups + [g], covered + set x | x in g.members;
    }
  }

  lemma SortedIsLengthOrder(rows: seq<SubjectRow>, sorted: seq<SubjectRow>)
    requires DistinctIndices(rows) && multiset(sorted) == multiset(rows)
    requires SortedBy(sorted, (row: SubjectRow) => (|row.words|, row.index))
    ensures LengthOrder(rows, sorted)
  {
    SameMembers(sorted, rows);
    SortKeepsDistinct(rows, sorted);
  }

  lemma AllTreated(rows: seq<SubjectRow>, sorted: seq<SubjectRow>, groups: seq<Group>)
    requires LengthOrder(rows, sorted) && Sound(rows, sorted, |sorted|, groups) && Complete(rows, sorted, |sorted|, groups)
    ensures forall g :: g in groups ==> exists b :: IsBase(rows, b) && GroupOf(rows, b, g)
    ensures forall b :: IsBase(rows, b) ==> HasGroup(rows, groups, b)
  {
    hide GroupOf, Minimal;
    forall b | IsBase(rows, b) ensures HasGroup(rows, groups, b) {
      var j :| 0 <= j < |sorted| && sorted[j] == b;
    }
    forall g | g in groups ensures exists b :: IsBase(rows, b) && GroupOf(rows, b, g) {
      assert FromBase(rows, sorted, |sorted|, g);
    }
  }

  /**
   The greedy grouping of one bucket.  Its bases are exactly the minimal rows with a refinement, each once, and every
   group is exactly its base and the base's refinements.
   */
  method VariantGroups(rows: seq<SubjectRow>) returns (groups: seq<Group>)
    requires DistinctIndices(rows)
    ensures forall g :: g in groups ==> exists b :: IsBase(rows, b) && GroupOf(rows, b, g)
    ensures forall b :: IsBase(rows, b) ==> HasGroup(rows, groups, b)
    ensures DistinctBases(groups)
  {
    var sorted := SortBy(rows, (row: SubjectRow) => (|row.words|, row.index));
    SortedIsLengthOrder(rows, sorted);
    groups := [];
    var covered: set<nat> := {};
    for i := 0 to |sorted|
      invariant Grouped(rows, sorted, i, groups, covered)
    {
      groups, covered := TreatRow(rows, sorted, i, groups, covered);
    }
    AllTreated(rows, sorted, groups);
  }

  /** Two rows one of which refines the other always share a group, that of the minimal row below both. */
  lemma ComparableRowsShareAGroup(rows: seq<SubjectRow>, groups: seq<Group>, row: SubjectRow, x: SubjectRow)
    requires forall b :: IsBase(rows, b) ==> HasGroup(rows, groups, b)
    requires row in rows && x in rows && Refines(row, x)
    ensures exists g :: g in groups && row.index in g.members && x.index in g.members
  {
    var m := MinimalBelow(rows, row, x);
    assert IsBase(rows, m);
    var g :| g in groups && GroupOf(rows, m, g);
    assert row.index in g.members && x.index in g.members;
  }
}
