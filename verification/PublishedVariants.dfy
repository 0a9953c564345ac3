/** What a published answer says about table variants: the gaps of the answer graph are those of the rows offered for its one pack. */
module PublishedVariants {
  import opened Common
  import opened AnswerGraph
  import opened AnswerGraphSafety
  import opened AnswerGraphResults
  import opened RunStore
  import G = VariantGaps
  import P = Policy
  import T = TableBuckets
  import V = TableVariants

  /** A row offered to the answer, with the citations that make it complete. */
  datatype TableRow = TableRow(choice: T.Choice, complete: seq<P.EvidenceId>)

  /** The projection of a pack: its rows, where their evidence comes from, their variant groups, and what the question says of them. */
  datatype Tables = Tables(rows: Pack -> seq<TableRow>, sources: Pack -> T.Sources, groups: Pack -> seq<V.Group>,
                           view: Pack -> G.VariantGroup -> G.TextView)

  function Choices(rows: seq<TableRow>): (r: seq<T.Choice>)
    ensures |r| == |rows|
  {
    seq(|rows|, i requires 0 <= i < |rows| => rows[i].choice)
  }

  function Options(rows: seq<TableRow>): (r: seq<G.RowOption>)
    ensures |r| == |rows|
  {
    seq(|rows|, i requires 0 <= i < |rows| =>
      G.RowOption(rows[i].choice.row, rows[i].choice.subjects, rows[i].choice.values, rows[i].complete))
  }

  function Indices(members: seq<nat>): seq<int> {
    seq(|members|, i requires 0 <= i < |members| => members[i])
  }

  function Projected(g: V.Group): G.VariantGroup {
    G.VariantGroup(g.base, Indices(g.members))
  }

  function Variants(groups: seq<V.Group>): (r: seq<G.VariantGroup>)
    ensures |r| == |groups|
  {
    seq(|groups|, i requires 0 <= i < |groups| => Projected(groups[i]))
  }

  function Cited(d: P.Draft): set<P.EvidenceId> {
    set i, e | 0 <= i < |d.claims| && e in d.claims[i].evidence :: e
  }

  function FirstTwelve(messages: seq<P.Message>): seq<P.Message> {
    if |messages| <= 12 then messages else messages[..12]
  }

  function MissingParts(t: Tables, d: P.Draft, p: Pack): seq<P.Message> {
    FirstTwelve(G.AllMessages(Options(t.rows(p)), Variants(t.groups(p)), Cited(d), t.view(p)))
  }

  /** The groups of every pack are those of its rows, and the gaps of every draft are read off them. */
  ghost predicate Tied(w: World, t: Tables) {
    && (forall p :: T.Named(Choices(t.rows(p))) && T.AllGroups(Choices(t.rows(p)), t.sources(p), t.groups(p)))
    && (forall d, p :: w.missing(d, p) == MissingParts(t, d, p))
  }

  /** The run has completed with this draft over this pack. */
  ghost predicate Publishes(w: World, events: seq<Event>, d: P.Draft, p: Pack) {
    var c := Exec(w, events);
    c.st.outcome == Some(Outcome.Answered) && DraftPassed(w, c) && d == DraftOf(c) && c.store.pack == Some(p)
  }

  lemma CompletedRunPublishes(w: World, events: seq<Event>) returns (d: P.Draft, p: Pack)
    requires Exec(w, events).st.outcome == Some(Outcome.Answered)
    ensures Publishes(w, events, d, p)
  {
    hide Exec;
    PublicationIsSound(w, events);
    d, p := DraftOf(Exec(w, events)), Exec(w, events).store.pack.value;
  }

  /** A published answer leaves no gap in any variant group of its pack. */
  lemma {:induction false} PublishedHasNoGap(w: World, t: Tables, events: seq<Event>, d: P.Draft, p: Pack)
    requires Tied(w, t) && Publishes(w, events, d, p)
    ensures forall g, i: nat :: g in Variants(t.groups(p)) ==> !G.Gap(Options(t.rows(p)), g, i, Cited(d), t.view(p)(g))
  {
    hide Exec, T.AllGroups, T.Named, G.AllMessages, G.Gap;
    PublicationIsSound(w, events);
    assert MissingParts(t, d, p) == [];
    G.MissingIffGap(Options(t.rows(p)), Variants(t.groups(p)), Cited(d), t.view(p));
  }

  // ---------------------------------------------------------------- comparable rows

  /** The rows of a group that an answer has to cite: those the question names, or all when it names none. */
  predicate Owed(view: G.TextView, g: V.Group, count: nat, i: nat) {
    var indices := G.Usable(Indices(g.members), count);
    i in indices && (G.Names(view, g.base, indices, i) || forall j :: j in indices ==> !G.Names(view, g.base, indices, j))
  }

  lemma OwedIsRequired(view: G.TextView, g: V.Group, count: nat, i: nat)
    requires Owed(view, g, count, i)
    ensures i in G.Required(view, Projected(g), G.Usable(Indices(g.members), count))
  {
    hide G.Names;
    var indices := G.Usable(Indices(g.members), count);
    assert indices[..|indices|] == indices;
    var selected := G.Selected(view, g.base, indices, |indices|);
    if selected != [] { assert selected[0] in selected; }
  }

  lemma MemberIsUsable(g: V.Group, count: nat, i: nat)
    requires i in g.members && i < count
    ensures i in G.Usable(Indices(g.members), count)
  {
    var k :| 0 <= k < |g.members| && g.members[k] == i;
    assert Indices(g.members)[k] == i;
  }

  lemma TwoAreTwo(s: seq<nat>, i: nat, j: nat)
    requires i in s && j in s && i != j
    ensures |s| >= 2
  {
  }

  /** The answer uses a value of the row. */
  predicate Uses(d: P.Draft, row: TableRow) {
    exists e :: e in row.choice.values && e in Cited(d)
  }

  /** Every citation that makes the row complete is in the answer. */
  predicate CitesCompletely(d: P.Draft, row: TableRow) {
    forall e :: e in row.complete ==> e in Cited(d)
  }

  lemma {:induction false} UsedGroupIsTouched(rows: seq<TableRow>, d: P.Draft, g: V.Group, i: nat, j: nat)
    requires i in g.members && j in g.members && i != j && i < |rows| && j < |rows| && Uses(d, rows[i])
    ensures var indices := G.Usable(Indices(g.members), |rows|);
            |indices| >= 2 && G.Touched(Options(rows), indices, Cited(d))
  {
    MemberIsUsable(g, |rows|, i);
    MemberIsUsable(g, |rows|, j);
    TwoAreTwo(G.Usable(Indices(g.members), |rows|), i, j);
    var e :| e in rows[i].choice.values && e in Cited(d);
    assert e in Options(rows)[i].values;
  }

  lemma {:induction false} ComparableRowsMeet(rows: seq<TableRow>, s: T.Sources, groups: seq<V.Group>, key: T.BucketKey, x: V.SubjectRow, y: V.SubjectRow)
    returns (g: V.Group)
    requires T.Named(Choices(rows)) && T.AllGroups(Choices(rows), s, groups)
    requires x in T.BucketOf(Choices(rows), s, key) && y in T.BucketOf(Choices(rows), s, key) && V.Refines(y, x)
    ensures g in groups && x.index in g.members && y.index in g.members
    ensures x.index < |rows| && y.index < |rows| && x.index != y.index
  {
    hide V.Refines, T.KeyOf;
    assert T.BasesListed(Choices(rows), s, groups, key);
    V.ComparableRowsShareAGroup(T.BucketOf(Choices(rows), s, key), groups, y, x);
    g :| g in groups && y.index in g.members && x.index in g.members;
    T.RowsOfBucket(Choices(rows), s, key, |rows|);
    V.SameIndexSameRow(T.BucketOf(Choices(rows), s, key), x, y);
    RefinesIsStrict(x);
  }

  lemma RefinesIsStrict(x: V.SubjectRow)
    ensures !V.Refines(x, x)
  {
  }

  /**
   When two rows of one bucket are comparable, one subject refining the other, and a published answer uses a value of either,
   then they stand in one group of which the answer cites completely every row that the question names, or every row if it
   names none.
   */
  lemma {:induction false} PublishedCoversVariants(w: World, t: Tables, events: seq<Event>, d: P.Draft, p: Pack,
                                                   key: T.BucketKey, x: V.SubjectRow, y: V.SubjectRow)
    requires Tied(w, t) && Publishes(w, events, d, p)
    requires var bucket := T.BucketOf(Choices(t.rows(p)), t.sources(p), key); x in bucket && y in bucket && V.Refines(y, x)
    requires exists i :: (i == x.index || i == y.index) && i < |t.rows(p)| && Uses(d, t.rows(p)[i])
    ensures exists g :: g in t.groups(p) && x.index in g.members && y.index in g.members
              && forall i :: 0 <= i < |t.rows(p)| && Owed(t.view(p)(Projected(g)), g, |t.rows(p)|, i) ==> CitesCompletely(d, t.rows(p)[i])
  {
    hide T.AllGroups, T.BucketOf, V.Refines, Exec, Publishes, Uses, CitesCompletely, Owed, G.Gap;
    PublishedHasNoGap(w, t, events, d, p);
    var rows := t.rows(p);
    var g := ComparableRowsMeet(rows, t.sources(p), t.groups(p), key, x, y);
    var used: nat :| (used == x.index || used == y.index) && used < |rows| && Uses(d, rows[used]);
    UsedGroupIsTouched(rows, d, g, used, if used == x.index then y.index else x.index);
    var k :| 0 <= k < |t.groups(p)| && t.groups(p)[k] == g;
    assert Variants(t.groups(p))[k] == Projected(g);
    forall i: nat | i < |rows| && Owed(t.view(p)(Projected(g)), g, |rows|, i) ensures CitesCompletely(d, rows[i]) {
      NoGapIsComplete(rows, d, g, i, t.view(p)(Projected(g)));
    }
  }

  lemma {:induction false} NoGapIsComplete(rows: seq<TableRow>, d: P.Draft, g: V.Group, i: nat, view: G.TextView)
    requires i < |rows| && Owed(view, g, |rows|, i) && !G.Gap(Options(rows), Projected(g), i, Cited(d), view)
    requires var indices := G.Usable(Indices(g.members), |rows|); |indices| >= 2 && G.Touched(Options(rows), indices, Cited(d))
    ensures CitesCompletely(d, rows[i])
  {
    OwedIsRequired(view, g, |rows|, i);
    assert !G.Incomplete(Options(rows)[i], Cited(d));
  }
}
