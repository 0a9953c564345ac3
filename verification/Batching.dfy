/** Embedding batches: greedy splitting under three limits, and indexing that resumes from committed batches. */
module Batching {
  /** A draft to embed: its identifier, token count and JSON size including the reserve for its vector. */
  datatype Item = Item(id: nat, tokens: nat, size: nat)

  datatype Limits = Limits(items: nat, tokens: nat, bytes: nat)

  type Batch = seq<Item>

  function TokensTo(b: Batch, n: nat): nat
    requires n <= |b|
  {
    if n == 0 then 0 else TokensTo(b, n - 1) + b[n - 1].tokens
  }

  function SizesTo(b: Batch, n: nat): nat
    requires n <= |b|
  {
    if n == 0 then 0 else SizesTo(b, n - 1) + b[n - 1].size
  }

  function Tokens(b: Batch): nat {
    TokensTo(b, |b|)
  }

  function Sizes(b: Batch): nat {
    SizesTo(b, |b|)
  }

  /** The limits a batch meets: two bytes of brackets count only beside a second item. */
  predicate Fits(b: Batch, l: Limits) {
    && 1 <= |b| <= l.items
    && Tokens(b) <= l.tokens
    && (if |b| == 1 then b[0].size <= l.bytes else 2 + Sizes(b) <= l.bytes)
  }

  function ConcatTo(bs: seq<Batch>, n: nat): Batch
    requires n <= |bs|
  {
    if n == 0 then [] else ConcatTo(bs, n - 1) + bs[n - 1]
  }

  function Concat(bs: seq<Batch>): Batch {
    ConcatTo(bs, |bs|)
  }

  predicate AllFit(bs: seq<Batch>, l: Limits) {
    forall i :: 0 <= i < |bs| ==> Fits(bs[i], l)
  }

  /** An item too large for any batch fails the whole projection. */
  predicate Embeddable(item: Item, l: Limits) {
    item.size <= l.bytes && item.tokens <= l.tokens
  }

  // ---------------------------------------------------------------- sums

  lemma {:induction false} SumsOfPrefix(a: Batch, b: Batch, n: nat)
    requires n <= |a|
    ensures TokensTo(a + b, n) == TokensTo(a, n) && SizesTo(a + b, n) == SizesTo(a, n)
  {
    if n > 0 {
      SumsOfPrefix(a, b, n - 1);
    }
  }

  lemma {:induction false} SumsAddTo(a: Batch, b: Batch, n: nat)
    requires n <= |b|
    ensures TokensTo(a + b, |a| + n) == Tokens(a) + TokensTo(b, n)
    ensures SizesTo(a + b, |a| + n) == Sizes(a) + SizesTo(b, n)
  {
    if n == 0 {
      SumsOfPrefix(a, b, |a|);
    } else {
      SumsAddTo(a, b, n - 1);
    }
  }

  lemma SumsAdd(a: Batch, b: Batch)
    ensures Tokens(a + b) == Tokens(a) + Tokens(b) && Sizes(a + b) == Sizes(a) + Sizes(b)
  {
    SumsAddTo(a, b, |b|);
  }

  /** Any non-empty stretch of a fitting batch fits: the limits are hereditary. */
  lemma StretchFits(b: Batch, l: Limits, i: nat, j: nat)
    requires Fits(b, l) && i < j <= |b|
    ensures Fits(b[i..j], l)
  {
    assert b == b[..i] + b[i..j] + b[j..];
    SumsAdd(b[..i] + b[i..j], b[j..]);
    SumsAdd(b[..i], b[i..j]);
    if j == i + 1 {
      assert b[i..j] == [b[i]];
      assert SizesTo(b[i..j], 1) == b[i].size;
    }
  }

  lemma {:induction false} ConcatOfPrefix(bs: seq<Batch>, cs: seq<Batch>, n: nat)
    requires n <= |bs|
    ensures ConcatTo(bs + cs, n) == ConcatTo(bs, n)
  {
    if n > 0 {
      ConcatOfPrefix(bs, cs, n - 1);
    }
  }

  lemma {:induction false} ConcatGrows(bs: seq<Batch>, n: nat)
    requires n <= |bs|
    ensures ConcatTo(bs, n) <= Concat(bs)
    decreases |bs| - n
  {
    if n < |bs| {
      ConcatGrows(bs, n + 1);
    }
  }

  // ---------------------------------------------------------------- greedy splitting

  /** A batch is closed only because the next item does not fit into it. */
  predicate Full(b: Batch, next: Item, l: Limits) {
    !Fits(b + [next], l)
  }

  predicate Chain(bs: seq<Batch>, l: Limits) {
    forall i :: 0 < i < |bs| ==> bs[i] != [] && Full(bs[i - 1], bs[i][0], l)
  }

  predicate ClosedBy(bs: seq<Batch>, next: Item, l: Limits) {
    bs != [] ==> Full(bs[|bs| - 1], next, l)
  }

  /** Fitting batches that split a beginning of the drafts, each closed only by the draft that follows it. */
  predicate Greedy(bs: seq<Batch>, drafts: seq<Item>, l: Limits) {
    && Concat(bs) <= drafts
    && AllFit(bs, l)
    && Chain(bs, l)
    && (|Concat(bs)| < |drafts| ==> ClosedBy(bs, drafts[|Concat(bs)|], l))
  }

  predicate AllEmbeddable(drafts: seq<Item>, l: Limits) {
    forall i :: 0 <= i < |drafts| ==> Embeddable(drafts[i], l)
  }

  lemma ConcatSnoc(bs: seq<Batch>, batch: Batch)
    ensures Concat(bs + [batch]) == Concat(bs) + batch
  {
    ConcatOfPrefix(bs, [batch], |bs|);
  }

  /** The splitter between two drafts: closed batches, and the batch being filled. */
  predicate Filling(batches: seq<Batch>, batch: Batch, seen: seq<Item>, l: Limits) {
    && Concat(batches) + batch == seen
    && AllFit(batches, l) && Chain(batches, l)
    && (batch == [] ==> batches == [])
    && (batch != [] ==> Fits(batch, l) && ClosedBy(batches, batch[0], l))
  }

  lemma CloseBatch(batches: seq<Batch>, batch: Batch, seen: seq<Item>, l: Limits)
    requires Filling(batches, batch, seen, l) && batch != []
    ensures Concat(batches + [batch]) == seen
    ensures AllFit(batches + [batch], l) && Chain(batches + [batch], l)
  {
    ConcatSnoc(batches, batch);
  }

  lemma FillOn(batches: seq<Batch>, batch: Batch, seen: seq<Item>, draft: Item, l: Limits)
    requires Filling(batches, batch, seen, l) && Fits(batch + [draft], l)
    ensures Filling(batches, batch + [draft], seen + [draft], l)
  {
    assert Concat(batches) + (batch + [draft]) == seen + [draft];
  }

  lemma StartNew(batches: seq<Batch>, batch: Batch, seen: seq<Item>, draft: Item, l: Limits)
    requires Filling(batches, batch, seen, l) && batch != [] && Full(batch, draft, l) && Fits([draft], l)
    ensures Filling(batches + [batch], [draft], seen + [draft], l)
  {
    CloseBatch(batches, batch, seen, l);
  }

  /** What is yielded when the next draft stops the splitter: the batch being filled is lost. */
  lemma StopIsGreedy(batches: seq<Batch>, batch: Batch, drafts: seq<Item>, i: nat, l: Limits)
    requires i < |drafts| && Filling(batches, batch, drafts[..i], l) && !Embeddable(drafts[i], l)
    ensures Greedy(batches, drafts, l) && !AllEmbeddable(drafts, l)
  {
    assert drafts == Concat(batches) + batch + drafts[i..];
  }

  /** The splitter's variables after the drafts seen so far. */
  predicate Splitter(batches: seq<Batch>, batch: Batch, tokens: nat, size: nat, seen: seq<Item>, l: Limits) {
    && Filling(batches, batch, seen, l)
    && tokens == Tokens(batch) && size == 2 + Sizes(batch)
  }

  /** The running counts decide exactly whether the next draft still fits. */
  lemma RoomFor(batch: Batch, draft: Item, l: Limits)
    requires 1 <= l.items && Embeddable(draft, l) && (batch != [] ==> Fits(batch, l))
    ensures Tokens(batch + [draft]) == Tokens(batch) + draft.tokens
    ensures Sizes(batch + [draft]) == Sizes(batch) + draft.size
    ensures Full(batch, draft, l) <==> MustClose(batch, Tokens(batch), 2 + Sizes(batch), draft, l)
  {
    SumsAdd(batch, [draft]);
    assert TokensTo([draft], 1) == draft.tokens && SizesTo([draft], 1) == draft.size;
  }

  predicate MustClose(batch: Batch, tokens: nat, size: nat, draft: Item, l: Limits) {
    batch != [] && (|batch| == l.items || tokens + draft.tokens > l.tokens || size + draft.size > l.bytes)
  }

  lemma AdmitNew(batches: seq<Batch>, batch: Batch, tokens: nat, size: nat, seen: seq<Item>, draft: Item, l: Limits)
    requires 1 <= l.items && Splitter(batches, batch, tokens, size, seen, l) && Embeddable(draft, l)
    requires MustClose(batch, tokens, size, draft, l)
    ensures Splitter(batches + [batch], [draft], draft.tokens, 2 + draft.size, seen + [draft], l)
  {
    RoomFor(batch, draft, l);
    RoomFor([], draft, l);
    assert [] + [draft] == [draft];
    StartNew(batches, batch, seen, draft, l);
  }

  lemma AdmitMore(batches: seq<Batch>, batch: Batch, tokens: nat, size: nat, seen: seq<Item>, draft: Item, l: Limits)
    requires 1 <= l.items && Splitter(batches, batch, tokens, size, seen, l) && Embeddable(draft, l)
    requires !MustClose(batch, tokens, size, draft, l)
    ensures Splitter(batches, batch + [draft], tokens + draft.tokens, size + draft.size, seen + [draft], l)
  {
    RoomFor(batch, draft, l);
    FillOn(batches, batch, seen, draft, l);
  }

  lemma Admit(batches: seq<Batch>, batch: Batch, tokens: nat, size: nat, seen: seq<Item>, draft: Item, l: Limits)
    requires 1 <= l.items && Splitter(batches, batch, tokens, size, seen, l) && Embeddable(draft, l)
    ensures MustClose(batch, tokens, size, draft, l) ==>
      Splitter(batches + [batch], [] + [draft], 0 + draft.tokens, 2 + draft.size, seen + [draft], l)
    ensures !MustClose(batch, tokens, size, draft, l) ==>
      Splitter(batches, batch + [draft], tokens + draft.tokens, size + draft.size, seen + [draft], l)
  {
    if MustClose(batch, tokens, size, draft, l) {
      AdmitNew(batches, batch, tokens, size, seen, draft, l);
      assert [] + [draft] == [draft];
    } else {
      AdmitMore(batches, batch, tokens, size, seen, draft, l);
    }
  }

  lemma Finish(batches: seq<Batch>, batch: Batch, drafts: seq<Item>, l: Limits)
    requires Filling(batches, batch, drafts, l)
    ensures batch == [] ==> Greedy(batches, drafts, l) && Concat(batches) == drafts
    ensures batch != [] ==> Greedy(batches + [batch], drafts, l) && Concat(batches + [batch]) == drafts
  {
    if batch != [] {
      CloseBatch(batches, batch, drafts, l);
    }
  }

  /** The loop body of `_batches` for a draft that fits some batch. */
  method Place(batches: seq<Batch>, batch: Batch, tokens: nat, size: nat, ghost seen: seq<Item>, draft: Item, l: Limits)
    returns (batches': seq<Batch>, batch': Batch, tokens': nat, size': nat)
    requires 1 <= l.items && Splitter(batches, batch, tokens, size, seen, l) && Embeddable(draft, l)
    ensures Splitter(batches', batch', tokens', size', seen + [draft], l)
  {
    Admit(batches, batch, tokens, size, seen, draft, l);
    batches', batch', tokens', size' := batches, batch, tokens, size;
    if batch != [] && (|batch| == l.items || tokens + draft.tokens > l.tokens || size + draft.size > l.bytes) {
      batches' := batches + [batch];
      batch', tokens', size' := [], 0, 2;
    }
    batch' := batch' + [draft];
    tokens' := tokens' + draft.tokens;
    size' := size' + draft.size;
  }

  lemma NothingPlaced(l: Limits)
    ensures Splitter([], [], 0, 2, [], l)
  {
  }

  lemma StopSplitter(batches: seq<Batch>, batch: Batch, tokens: nat, size: nat, drafts: seq<Item>, i: nat, l: Limits)
    requires i < |drafts| && Splitter(batches, batch, tokens, size, drafts[..i], l) && !Embeddable(drafts[i], l)
    ensures Greedy(batches, drafts, l) && !AllEmbeddable(drafts, l)
  {
    StopIsGreedy(batches, batch, drafts, i, l);
  }

  lemma FinishSplitter(batches: seq<Batch>, batch: Batch, tokens: nat, size: nat, drafts: seq<Item>, l: Limits)
    requires Splitter(batches, batch, tokens, size, drafts, l)
    ensures batch == [] ==> Greedy(batches, drafts, l) && Concat(batches) == drafts
    ensures batch != [] ==> Greedy(batches + [batch], drafts, l) && Concat(batches + [batch]) == drafts
  {
    Finish(batches, batch, drafts, l);
  }

  /** `_batches`: the batches it yields, and whether it ran to the end or stopped at a draft too large for any batch. */
  method Batches(drafts: seq<Item>, l: Limits) returns (batches: seq<Batch>, ok: bool)
    requires 1 <= l.items
    ensures Greedy(batches, drafts, l)
    ensures ok <==> AllEmbeddable(drafts, l)
    ensures ok ==> Concat(batches) == drafts
  {
    hide Splitter, Greedy, Concat;
    batches, ok := [], false;
    var batch: Batch := [];
    var tokens: nat, size: nat := 0, 2;
    NothingPlaced(l);
    assert drafts[..0] == [];
    for i := 0 to |drafts|
      invariant Splitter(batches, batch, tokens, size, drafts[..i], l)
      invariant forall j :: 0 <= j < i ==> Embeddable(drafts[j], l)
    {
      if drafts[i].size > l.bytes || drafts[i].tokens > l.tokens {
        StopSplitter(batches, batch, tokens, size, drafts, i, l);
        return;
      }
      batches, batch, tokens, size := Place(batches, batch, tokens, size, drafts[..i], drafts[i], l);
      assert drafts[..i + 1] == drafts[..i] + [drafts[i]];
    }
    assert drafts[..|drafts|] == drafts;
    FinishSplitter(batches, batch, tokens, size, drafts, l);
    if batch != [] {
      batches := batches + [batch];
    }
    ok := true;
  }

  // ---------------------------------------------------------------- optimality and uniqueness

  /** Number of items in the first `k` batches. */
  function Boundary(bs: seq<Batch>, k: nat): nat
    requires k <= |bs|
  {
    |ConcatTo(bs, k)|
  }

  lemma BatchIsSlice(bs: seq<Batch>, k: nat, drafts: seq<Item>)
    requires k < |bs| && Concat(bs) <= drafts
    ensures Boundary(bs, k) + |bs[k]| == Boundary(bs, k + 1) <= |Concat(bs)|
    ensures drafts[Boundary(bs, k)..Boundary(bs, k + 1)] == bs[k]
  {
    ConcatGrows(bs, k + 1);
    var before := ConcatTo(bs, k);
    forall i | 0 <= i < |bs[k]| ensures drafts[|before| + i] == bs[k][i] {
      assert ConcatTo(bs, k + 1)[|before| + i] == bs[k][i];
    }
  }

  /** Whatever follows a greedy batch in the drafts did not fit into it. */
  lemma ClosedByNext(g: seq<Batch>, drafts: seq<Item>, l: Limits, k: nat)
    requires Greedy(g, drafts, l) && k < |g| && Boundary(g, k + 1) < |drafts|
    ensures Full(g[k], drafts[Boundary(g, k + 1)], l)
  {
    if k + 1 < |g| {
      BatchIsSlice(g, k + 1, drafts);
      assert g[k + 1][0] == drafts[Boundary(g, k + 1)..Boundary(g, k + 2)][0];
    }
  }

  /**
   Greedy stays ahead: after k batches it has consumed at least as many items as any other admissible split.  Had it
   closed earlier, inside a batch of the other split, the next item would still have fitted.
   */
  lemma {:induction false} GreedyStaysAhead(g: seq<Batch>, o: seq<Batch>, drafts: seq<Item>, l: Limits, k: nat)
    requires Greedy(g, drafts, l) && AllFit(o, l) && Concat(o) <= drafts
    requires k <= |g| && k <= |o|
    ensures Boundary(g, k) >= Boundary(o, k)
  {
    if k > 0 {
      GreedyStaysAhead(g, o, drafts, l, k - 1);
      BatchIsSlice(g, k - 1, drafts);
      BatchIsSlice(o, k - 1, drafts);
      if Boundary(g, k) < Boundary(o, k) {
        NextStillFits(drafts, l, o[k - 1], Boundary(g, k - 1), Boundary(g, k), Boundary(o, k - 1), Boundary(o, k));
        ClosedByNext(g, drafts, l, k - 1);
      }
    }
  }

  lemma NextStillFits(drafts: seq<Item>, l: Limits, c: Batch, from: nat, to: nat, from': nat, to': nat)
    requires from' <= from < to < to' <= |drafts| && drafts[from'..to'] == c && Fits(c, l)
    ensures Fits(drafts[from..to] + [drafts[to]], l)
  {
    var i, j := from - from', to + 1 - from';
    StretchFits(c, l, i, j);
    forall x | 0 <= x < j - i ensures c[i..j][x] == (drafts[from..to] + [drafts[to]])[x] {
      assert c[i..j][x] == c[i + x] == drafts[from + x];
    }
    assert c[i..j] == drafts[from..to] + [drafts[to]];
  }

  /** No order-preserving split of the same drafts under the same limits has fewer batches. */
  lemma GreedyIsOptimal(g: seq<Batch>, o: seq<Batch>, drafts: seq<Item>, l: Limits)
    requires Greedy(g, drafts, l) && AllFit(o, l) && Concat(o) == drafts
    ensures |g| <= |o|
  {
    if |o| < |g| {
      BatchIsSlice(g, |o|, drafts);
      GreedyStaysAhead(g, o, drafts, l, |o|);
    }
  }

  lemma SameBoundary(g: seq<Batch>, h: seq<Batch>, drafts: seq<Item>, l: Limits, k: nat)
    requires Greedy(g, drafts, l) && Greedy(h, drafts, l) && k <= |g| && k <= |h|
    ensures Boundary(g, k) == Boundary(h, k)
  {
    GreedyStaysAhead(g, h, drafts, l, k);
    GreedyStaysAhead(h, g, drafts, l, k);
  }

  /** Two greedy runs over the same drafts yield the same batches as far as both go, so a resumed run repeats them. */
  lemma GreedyRepeats(g: seq<Batch>, h: seq<Batch>, drafts: seq<Item>, l: Limits, k: nat)
    requires Greedy(g, drafts, l) && Greedy(h, drafts, l) && k < |h|
    requires k < |g| || Concat(g) == drafts
    ensures k < |g| && g[k] == h[k]
  {
    if k < |g| {
      SameBoundary(g, h, drafts, l, k);
      SameBoundary(g, h, drafts, l, k + 1);
      BatchIsSlice(g, k, drafts);
      BatchIsSlice(h, k, drafts);
    } else {
      GreedyIsOptimal(h, g, drafts, l);
    }
  }

  // ---------------------------------------------------------------- resumable indexing

  datatype Kind = Chunks | Descriptors

  /** The identifier of a batch is a digest of its kind and items. */
  datatype BatchId = BatchId(kind: Kind, items: Batch)

  function Ids(kind: Kind, batches: seq<Batch>): set<BatchId> {
    set k | 0 <= k < |batches| :: BatchId(kind, batches[k])
  }

  /** What one index generation is built from: both projections. */
  datatype Projection = Projection(chunks: seq<Item>, descriptors: seq<Item>) {
    function Drafts(kind: Kind): seq<Item> {
      if kind.Chunks? then chunks else descriptors
    }
  }

  predicate DistinctIds(drafts: seq<Item>) {
    forall i, j :: 0 <= i < j < |drafts| ==> drafts[i].id != drafts[j].id
  }

  predicate Identified(p: Projection) {
    DistinctIds(p.chunks) && DistinctIds(p.descriptors)
  }

  /** The batch is one that these limits yield: it belongs to some greedy run over its own projection, complete or not. */
  ghost predicate Expected(p: Projection, l: Limits, id: BatchId) {
    exists bs :: Greedy(bs, p.Drafts(id.kind), l) && id.items in bs
  }

  /** Every batch committed so far is one that these limits yield. */
  ghost predicate Resumable(p: Projection, l: Limits, committed: set<BatchId>) {
    forall id :: id in committed ==> Expected(p, l, id)
  }

  predicate IsSplit(p: Projection, l: Limits, c: seq<Batch>, d: seq<Batch>) {
    && Greedy(c, p.chunks, l) && Concat(c) == p.chunks
    && Greedy(d, p.descriptors, l) && Concat(d) == p.descriptors
  }

  /** The committed batches are exactly the greedy splits of both whole projections under some limits. */
  ghost predicate IsComplete(p: Projection, l: Limits, committed: set<BatchId>) {
    exists c, d :: IsSplit(p, l, c, d) && committed == Ids(Chunks, c) + Ids(Descriptors, d)
  }

  /** Two batches want to insert a row under the same identifier. */
  predicate Share(a: BatchId, b: BatchId) {
    a.kind == b.kind && exists i, j :: 0 <= i < |a.items| && 0 <= j < |b.items| && a.items[i].id == b.items[j].id
  }

  /** The primary key of the rows: a batch is refused if a row of it exists already, or twice in itself. */
  predicate Clashes(committed: set<BatchId>, id: BatchId) {
    !DistinctIds(id.items) || exists other :: other in committed && Share(other, id)
  }

  ghost predicate NoSharing(committed: set<BatchId>) {
    forall a, b :: a in committed && b in committed && Share(a, b) ==> a == b
  }

  /** Committed batches hold drafts of their own projection, at least one each. */
  ghost predicate FromDrafts(p: Projection, id: BatchId) {
    id.items != [] && forall x :: x in id.items ==> x in p.Drafts(id.kind)
  }

  lemma {:induction false} BatchesAreFew(bs: seq<Batch>, l: Limits, n: nat)
    requires AllFit(bs, l) && n <= |bs|
    ensures n <= Boundary(bs, n)
  {
    if n > 0 {
      BatchesAreFew(bs, l, n - 1);
    }
  }

  /** Items of greedy batches are drafts. */
  lemma YieldedAreDrafts(bs: seq<Batch>, drafts: seq<Item>, l: Limits, k: nat)
    requires Greedy(bs, drafts, l) && k < |bs|
    ensures bs[k] != [] && forall x :: x in bs[k] ==> x in drafts
  {
    BatchIsSlice(bs, k, drafts);
    forall x | x in bs[k] ensures x in drafts {
      assert x in drafts[Boundary(bs, k)..Boundary(bs, k + 1)];
    }
  }

  /** A batch these limits yield is a batch of their complete split. */
  lemma ExpectedIsInSplit(p: Projection, l: Limits, bs: seq<Batch>, id: BatchId)
    requires Greedy(bs, p.Drafts(id.kind), l) && Concat(bs) == p.Drafts(id.kind)
    requires Expected(p, l, id)
    ensures id in Ids(id.kind, bs)
  {
    var h :| Greedy(h, p.Drafts(id.kind), l) && id.items in h;
    var k :| 0 <= k < |h| && h[k] == id.items;
    GreedyRepeats(bs, h, p.Drafts(id.kind), l, k);
  }

  lemma {:induction false} BoundariesGrow(bs: seq<Batch>, m: nat, n: nat)
    requires m <= n <= |bs|
    ensures Boundary(bs, m) <= Boundary(bs, n)
  {
    if m < n {
      BoundariesGrow(bs, m, n - 1);
    }
  }

  lemma ItemAt(bs: seq<Batch>, drafts: seq<Item>, k: nat, i: nat)
    requires Concat(bs) <= drafts && k < |bs| && i < |bs[k]|
    ensures Boundary(bs, k) + i < Boundary(bs, k + 1) <= |drafts| && drafts[Boundary(bs, k) + i] == bs[k][i]
  {
    BatchIsSlice(bs, k, drafts);
    assert drafts[Boundary(bs, k)..Boundary(bs, k + 1)][i] == drafts[Boundary(bs, k) + i];
  }

  /** Different batches of one split have no identifier in common. */
  lemma SplitSharesNothing(bs: seq<Batch>, drafts: seq<Item>, m: nat, n: nat, i: nat, j: nat)
    requires Concat(bs) <= drafts && DistinctIds(drafts) && m < |bs| && n < |bs| && i < |bs[m]| && j < |bs[n]|
    requires bs[m][i].id == bs[n][j].id
    ensures m == n && i == j
  {
    ItemAt(bs, drafts, m, i);
    ItemAt(bs, drafts, n, j);
    hide Boundary;
    if m < n { BoundariesGrow(bs, m + 1, n); }
    if n < m { BoundariesGrow(bs, n + 1, m); }
  }

  lemma SplitIsDistinct(bs: seq<Batch>, drafts: seq<Item>, k: nat)
    requires Concat(bs) <= drafts && DistinctIds(drafts) && k < |bs|
    ensures DistinctIds(bs[k])
  {
    forall i, j | 0 <= i < j < |bs[k]| ensures bs[k][i].id != bs[k][j].id {
      if bs[k][i].id == bs[k][j].id { SplitSharesNothing(bs, drafts, k, k, i, j); }
    }
  }

  ghost predicate InRun(bs: seq<Batch>, id: BatchId) {
    exists n :: 0 <= n < |bs| && bs[n] == id.items
  }

  /** Over drafts with identifiers of their own, batches of one greedy run never clash with each other. */
  lemma ExpectedNeverClash(p: Projection, l: Limits, bs: seq<Batch>, kind: Kind, committed: set<BatchId>, k: nat)
    requires Greedy(bs, p.Drafts(kind), l) && DistinctIds(p.Drafts(kind)) && k < |bs|
    requires BatchId(kind, bs[k]) !in committed
    requires forall id :: id in committed && id.kind == kind ==> InRun(bs, id)
    ensures !Clashes(committed, BatchId(kind, bs[k]))
  {
    var id := BatchId(kind, bs[k]);
    SplitIsDistinct(bs, p.Drafts(kind), k);
    forall other | other in committed ensures !Share(other, id) {
      if other.kind == kind {
        var n :| 0 <= n < |bs| && bs[n] == other.items;
        forall i, j | 0 <= i < |other.items| && 0 <= j < |id.items| ensures other.items[i].id != id.items[j].id {
          if other.items[i].id == id.items[j].id {
            SplitSharesNothing(bs, p.Drafts(kind), n, k, i, j);
          }
        }
      }
    }
  }

  /** What the committed batches of one kind must be for these limits to go on. */
  ghost predicate ResumableKind(p: Projection, l: Limits, kind: Kind, committed: set<BatchId>) {
    forall id :: id in committed && id.kind == kind ==> Expected(p, l, id)
  }

  /** A clash in a complete run can only come from a batch that other limits have left behind. */
  lemma ClashIsForeign(p: Projection, l: Limits, kind: Kind, bs: seq<Batch>, before: set<BatchId>, committed: set<BatchId>, k: nat)
    requires Greedy(bs, p.Drafts(kind), l) && Concat(bs) == p.Drafts(kind) && DistinctIds(p.Drafts(kind))
    requires committed <= before + Ids(kind, bs) && k < |bs|
    requires BatchId(kind, bs[k]) !in committed && Clashes(committed, BatchId(kind, bs[k]))
    ensures !ResumableKind(p, l, kind, before)
  {
    if ResumableKind(p, l, kind, before) {
      forall id | id in committed && id.kind == kind ensures InRun(bs, id) {
        if id in before { ExpectedIsInSplit(p, l, bs, id); }
      }
      ExpectedNeverClash(p, l, bs, kind, committed, k);
    }
  }

  lemma {:induction false} InSomeBatch(bs: seq<Batch>, n: nat, x: Item) returns (k: nat)
    requires n <= |bs| && x in ConcatTo(bs, n)
    ensures k < n && x in bs[k]
  {
    if x in bs[n - 1] {
      k := n - 1;
    } else {
      k := InSomeBatch(bs, n - 1, x);
    }
  }

  /** Once a whole split is committed, no other batch can be: it would share a row with one of the split. */
  lemma SplitLeavesNoOther(p: Projection, l: Limits, kind: Kind, bs: seq<Batch>, committed: set<BatchId>, id: BatchId)
    requires Greedy(bs, p.Drafts(kind), l) && Concat(bs) == p.Drafts(kind) && Ids(kind, bs) <= committed
    requires NoSharing(committed) && id in committed && id.kind == kind && FromDrafts(p, id)
    ensures id in Ids(kind, bs) && Expected(p, l, id)
  {
    var k := InSomeBatch(bs, |bs|, id.items[0]);
    var i :| 0 <= i < |bs[k]| && bs[k][i] == id.items[0];
    var other := BatchId(kind, bs[k]);
    assert other in Ids(kind, bs);
    assert id.items[0].id == other.items[i].id;
    assert Share(id, other);
  }

  lemma ShareIsSymmetric(a: BatchId, b: BatchId)
    ensures Share(a, b) ==> Share(b, a)
  {
    if Share(a, b) {
      var i, j :| 0 <= i < |a.items| && 0 <= j < |b.items| && a.items[i].id == b.items[j].id;
    }
  }

  lemma CommitKeepsNoSharing(committed: set<BatchId>, id: BatchId)
    requires NoSharing(committed) && !Clashes(committed, id)
    ensures NoSharing(committed + {id})
  {
    forall other | other in committed ensures Share(id, other) ==> Share(other, id) { ShareIsSymmetric(id, other); }
  }

  lemma CommittedIsComplete(p: Projection, l: Limits, c: seq<Batch>, d: seq<Batch>, committed: set<BatchId>)
    requires IsSplit(p, l, c, d) && NoSharing(committed) && forall id :: id in committed ==> FromDrafts(p, id)
    requires Ids(Chunks, c) <= committed && Ids(Descriptors, d) <= committed
    ensures committed == Ids(Chunks, c) + Ids(Descriptors, d)
    ensures Resumable(p, l, committed)
  {
    forall id | id in committed ensures id in Ids(Chunks, c) + Ids(Descriptors, d) && Expected(p, l, id) {
      if id.kind.Chunks? {
        SplitLeavesNoOther(p, l, Chunks, c, committed, id);
      } else {
        SplitLeavesNoOther(p, l, Descriptors, d, committed, id);
      }
    }
  }

  datatype Status = Ready | Interrupted | Invalid

  datatype Outcome = Written | Cut | Clashed

  datatype Stage = Staging | Finished | Failed

  /** One index generation: the batches the database committed, and every embedding request sent for it so far. */
  class IndexStore {
    var committed: set<BatchId>
    var embedded: seq<BatchId>
    var stage: Stage

    constructor ()
      ensures committed == {} && embedded == [] && stage == Staging
    {
      committed, embedded, stage := {}, [], Staging;
    }

    ghost predicate Valid(p: Projection)
      reads this
    {
      && NoSharing(committed) && (forall id :: id in committed ==> FromDrafts(p, id) && id in embedded)
      && (stage.Finished? ==> exists l :: IsComplete(p, l, committed))
    }

    /**
     Embeds and writes the batches not committed yet; `patience` bounds the remote calls that return.  The database
     refuses a batch that brings a row it already has.
     */
    method Write(kind: Kind, batches: seq<Batch>, patience: nat) returns (processed: nat, left: nat, outcome: Outcome)
      requires NoSharing(committed)
      modifies this`committed, this`embedded
      ensures old(committed) <= committed <= old(committed) + Ids(kind, batches) && NoSharing(committed)
      ensures outcome.Written? ==> Ids(kind, batches) <= committed && processed == |Concat(batches)|
      ensures outcome.Clashed? ==>
        exists k :: 0 <= k < |batches| && BatchId(kind, batches[k]) !in committed && Clashes(committed, BatchId(kind, batches[k]))
      ensures old(embedded) <= embedded && left <= patience
      ensures forall id :: id in embedded[|old(embedded)|..] ==> id in Ids(kind, batches) - old(committed)
      ensures forall id :: id in committed - old(committed) ==> id in embedded
      ensures patience >= 2 * |batches| ==> !outcome.Cut? && left >= patience - 2 * |batches|
    {
      processed, left, outcome := 0, patience, Cut;
      for k := 0 to |batches|
        invariant old(committed) <= committed <= old(committed) + Ids(kind, batches) && NoSharing(committed)
        invariant Ids(kind, batches[..k]) <= committed
        invariant processed == Boundary(batches, k) && left <= patience && outcome.Cut?
        invariant forall id :: id in committed - old(committed) ==> id in embedded
        invariant left >= patience - 2 * k
        invariant old(embedded) <= embedded
        invariant forall id :: id in embedded[|old(embedded)|..] ==> id in Ids(kind, batches) - old(committed)
      {
        hide NoSharing, Clashes;
        var id := BatchId(kind, batches[k]);
        assert id in Ids(kind, batches);
        assert batches[..k + 1] == batches[..k] + [batches[k]];
        if left == 0 { return; }
        left := left - 1;
        if id !in committed {
          embedded := embedded + [id];
          if left == 0 { return; }
          left := left - 1;
          if Clashes(committed, id) {
            outcome := Clashed;
            return;
          }
          CommitKeepsNoSharing(committed, id);
          committed := committed + {id};
        }
        processed := processed + |batches[k]|;
      }
      assert batches[..|batches|] == batches;
      outcome := Written;
    }

    /** One kind of `prepare`: the yielded batches are written even when a later draft then fails the generation. */
    method Project(p: Projection, l: Limits, kind: Kind, patience: nat) returns (processed: nat, left: nat, status: Status)
      requires 1 <= l.items && Valid(p) && stage.Staging?
      modifies this`committed, this`embedded
      ensures Valid(p) && old(committed) <= committed && old(embedded) <= embedded && left <= patience
      ensures forall id :: id in committed - old(committed) ==> id.kind == kind && Expected(p, l, id)
      ensures forall id :: id in embedded[|old(embedded)|..] ==> id !in old(committed)
      ensures status.Ready? ==> processed == |p.Drafts(kind)| && Covered(p, l, kind, committed)
      ensures status.Ready? ==> AllEmbeddable(p.Drafts(kind), l)
      ensures status.Invalid? && DistinctIds(p.Drafts(kind)) ==>
        !AllEmbeddable(p.Drafts(kind), l) || !ResumableKind(p, l, kind, old(committed))
      ensures patience >= 2 * |p.Drafts(kind)| ==> !status.Interrupted? && left >= patience - 2 * |p.Drafts(kind)|
    {
      var batches, ok := Batches(p.Drafts(kind), l);
      YieldedAreExpected(p, l, kind, batches);
      BatchesAreFew(batches, l, |batches|);
      var outcome;
      processed, left, outcome := Write(kind, batches, patience);
      status := if outcome.Cut? then Interrupted else if outcome.Clashed? || !ok then Invalid else Ready;
      if outcome.Clashed? && ok && DistinctIds(p.Drafts(kind)) {
        ghost var k :| 0 <= k < |batches| && BatchId(kind, batches[k]) !in committed && Clashes(committed, BatchId(kind, batches[k]));
        ClashIsForeign(p, l, kind, batches, old(committed), committed, k);
      }
    }

    /**
     `prepare` once the index is open: both kinds in order, then finalization.  Interrupted anywhere, a later call
     resumes without embedding a committed batch again, under whatever limits the model service then has.  Given time, it
     finishes exactly when every draft fits some batch and every batch committed before is one that these limits yield.
     */
    method Prepare(p: Projection, l: Limits, patience: nat) returns (status: Status, processed: nat)
      requires 1 <= l.items && Valid(p)
      modifies this
      ensures Valid(p) && old(committed) <= committed && old(embedded) <= embedded
      ensures forall id :: id in embedded[|old(embedded)|..] ==> id !in old(committed)
      ensures forall id :: id in committed - old(committed) ==> Expected(p, l, id)
      ensures !old(stage).Staging? ==> stage == old(stage) && committed == old(committed) && embedded == old(embedded)
      ensures status.Ready? <==> stage.Finished?
      ensures status.Interrupted? ==> stage.Staging?
      ensures patience > 2 * (|p.chunks| + |p.descriptors|) ==> !status.Interrupted?
      ensures old(stage).Staging? && p.chunks != [] && p.descriptors != [] ==> (status.Invalid? <==> stage.Failed?)
      ensures status.Ready? && old(stage).Staging? ==> processed == |p.chunks| + |p.descriptors| && IsComplete(p, l, committed)
      ensures status.Ready? && old(stage).Staging? ==> AllEmbeddable(p.chunks + p.descriptors, l) && Resumable(p, l, old(committed))
      ensures stage.Failed? && old(stage).Staging? && Identified(p) ==>
        !AllEmbeddable(p.chunks + p.descriptors, l) || !Resumable(p, l, old(committed))
    {
      hide AllEmbeddable, Covered, IsComplete, Resumable, ResumableKind, Expected, FromDrafts, NoSharing, DistinctIds;
      processed := 0;
      if !stage.Staging? { return if stage.Finished? then Ready else Invalid, 0; }
      if p.chunks == [] || p.descriptors == [] { return Invalid, 0; }
      var left, more;
      processed, left, status := Project(p, l, Chunks, patience);
      if status.Invalid? {
        NotPreparable(p, l, Chunks, old(committed));
        stage := Failed;
      }
      if !status.Ready? { return; }
      ghost var between := committed;
      more, left, status := Project(p, l, Descriptors, left);
      processed := processed + more;
      if status.Invalid? {
        NotPreparable(p, l, Descriptors, old(committed));
        SameDescriptors(p, l, old(committed), between);
        stage := Failed;
      }
      if !status.Ready? { return; }
      if left == 0 { status := Interrupted; return; }
      CoveredIsComplete(p, l, old(committed), between, committed);
      stage := Finished;
    }
  }

  /** When both kinds are covered the generation is complete, and nothing foreign can have been committed before. */
  lemma CoveredIsComplete(p: Projection, l: Limits, before: set<BatchId>, between: set<BatchId>, committed: set<BatchId>)
    requires before <= between <= committed && NoSharing(committed) && forall id :: id in committed ==> FromDrafts(p, id)
    requires Covered(p, l, Chunks, between) && Covered(p, l, Descriptors, committed)
    requires AllEmbeddable(p.chunks, l) && AllEmbeddable(p.descriptors, l)
    ensures IsComplete(p, l, committed) && Resumable(p, l, before) && AllEmbeddable(p.chunks + p.descriptors, l)
  {
    var c :| Greedy(c, p.chunks, l) && Concat(c) == p.chunks && Ids(Chunks, c) <= between;
    var d :| Greedy(d, p.descriptors, l) && Concat(d) == p.descriptors && Ids(Descriptors, d) <= committed;
    CommittedIsComplete(p, l, c, d, committed);
  }

  ghost predicate Covered(p: Projection, l: Limits, kind: Kind, committed: set<BatchId>) {
    exists bs :: Greedy(bs, p.Drafts(kind), l) && Concat(bs) == p.Drafts(kind) && Ids(kind, bs) <= committed
  }

  lemma YieldedAreExpected(p: Projection, l: Limits, kind: Kind, bs: seq<Batch>)
    requires Greedy(bs, p.Drafts(kind), l)
    ensures forall id :: id in Ids(kind, bs) ==> id.kind == kind && Expected(p, l, id) && FromDrafts(p, id)
  {
    forall id | id in Ids(kind, bs) ensures Expected(p, l, id) && FromDrafts(p, id) {
      var k :| 0 <= k < |bs| && id == BatchId(kind, bs[k]);
      YieldedAreDrafts(bs, p.Drafts(kind), l, k);
      assert id.items in bs;
    }
  }

  /** What stops one kind stops the index. */
  lemma NotPreparable(p: Projection, l: Limits, kind: Kind, committed: set<BatchId>)
    ensures !AllEmbeddable(p.Drafts(kind), l) ==> !AllEmbeddable(p.chunks + p.descriptors, l)
    ensures !ResumableKind(p, l, kind, committed) ==> !Resumable(p, l, committed)
  {
    if !AllEmbeddable(p.Drafts(kind), l) {
      var i :| 0 <= i < |p.Drafts(kind)| && !Embeddable(p.Drafts(kind)[i], l);
      assert (p.chunks + p.descriptors)[if kind.Chunks? then i else |p.chunks| + i] == p.Drafts(kind)[i];
    }
  }

  lemma SameDescriptors(p: Projection, l: Limits, before: set<BatchId>, between: set<BatchId>)
    requires before <= between && forall id :: id in between - before ==> id.kind.Chunks?
    ensures ResumableKind(p, l, Descriptors, before) ==> ResumableKind(p, l, Descriptors, between)
  {
    hide Expected;
  }

  // Two chunks and a descriptor whose sizes include the reserve of 65536 for the vector, and limits that shrink between two attempts.
  const FIRST := Item(0, 1, 70000)
  const SECOND := Item(1, 1, 70000)
  const THIRD := Item(2, 1, 70000)
  const PAIRS := Limits(2, 512, 200000)
  const SINGLES := Limits(1, 512, 200000)
  const TRIO := Projection([FIRST, SECOND], [THIRD])
  const PAIR := BatchId(Chunks, [FIRST, SECOND])

  lemma OneBatch(b: Batch)
    ensures Concat([b]) == b
  {
    assert ConcatTo([b], 1) == ConcatTo([b], 0) + b;
    assert [] + b == b;
  }

  lemma PairIsGreedy()
    ensures Greedy([[FIRST, SECOND]], TRIO.chunks, PAIRS)
  {
    var pair := [FIRST, SECOND];
    assert SizesTo(pair, 0) == 0 && TokensTo(pair, 0) == 0;
    assert pair[0] == FIRST && SizesTo(pair, 1) == 70000 && TokensTo(pair, 1) == 1;
    assert pair[1] == SECOND && Sizes(pair) == 140000 && Tokens(pair) == 2;
    assert Fits(pair, PAIRS);
    OneBatch(pair);
    hide Fits, TokensTo, SizesTo;
    assert AllFit([pair], PAIRS);
    assert Chain([pair], PAIRS);
  }

  /** Under the wider limits both chunks go into one batch, which the tighter limits never yield. */
  lemma PairIsNoSingle()
    ensures Expected(TRIO, PAIRS, PAIR) && !Expected(TRIO, SINGLES, PAIR)
    ensures AllEmbeddable(TRIO.chunks + TRIO.descriptors, SINGLES) && AllEmbeddable(TRIO.chunks, PAIRS)
  {
    PairIsGreedy();
    assert PAIR.items in [[FIRST, SECOND]];
    forall bs | Greedy(bs, TRIO.chunks, SINGLES) ensures PAIR.items !in bs {
      assert !Fits(PAIR.items, SINGLES);
    }
  }

  /** Whatever splits the chunks under the wider limits has the pair in it. */
  lemma PairIsCommitted(committed: set<BatchId>)
    requires Covered(TRIO, PAIRS, Chunks, committed)
    ensures PAIR in committed
  {
    var bs :| Greedy(bs, TRIO.chunks, PAIRS) && Concat(bs) == TRIO.chunks && Ids(Chunks, bs) <= committed;
    PairIsGreedy();
    GreedyRepeats(bs, [[FIRST, SECOND]], TRIO.chunks, PAIRS, 0);
    assert BatchId(Chunks, bs[0]) in Ids(Chunks, bs);
  }

  /**
   Limits that became tighter between two attempts strand an index: the first attempt commits the pair and is cut off before
   the descriptors; the second, under limits that fit every draft, fails the generation for good.
   */
  method TighterLimitsStrand(patience: nat) returns (store: IndexStore, first: Status, second: Status)
    requires patience > 2 * 3
    ensures fresh(store) && first.Ready? && PAIR in store.committed
    ensures AllEmbeddable(TRIO.chunks + TRIO.descriptors, SINGLES) && !Resumable(TRIO, SINGLES, store.committed)
    ensures second.Invalid? && store.stage.Failed?
  {
    hide AllEmbeddable, Expected, Covered, FromDrafts, NoSharing;
    PairIsNoSingle();
    store := new IndexStore();
    var processed, left;
    processed, left, first := store.Project(TRIO, PAIRS, Chunks, 4);
    assert DistinctIds(TRIO.Drafts(Chunks));
    PairIsCommitted(store.committed);
    second, processed := store.Prepare(TRIO, SINGLES, patience);
  }
}
