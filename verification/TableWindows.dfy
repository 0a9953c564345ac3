/** Row windows of one parsed table: bounded pages that together show the whole table once. */
module TableWindows {
  import opened Common
  import opened Ordered

  type Ref = nat

  /** A cell belongs to its anchor row and reaches down over `span` rows; its text comes from these source spans. */
  datatype Cell = Cell(id: nat, row: nat, column: nat, span: nat, sources: seq<Ref>)

  datatype SourceRow = SourceRow(cellIds: seq<nat>, refs: seq<Ref>)

  datatype RowGroup = RowGroup(first: nat, last: nat, refs: seq<Ref>)

  datatype Table = Table(cells: seq<Cell>, rows: map<nat, SourceRow>, groups: seq<RowGroup>)

  datatype RowView = RowView(index: nat, cellIds: seq<nat>, refs: seq<Ref>)

  /** `sources` lists, cell by cell, the distinct source spans. */
  datatype Page = Page(start: nat, end: nat, rows: seq<RowView>, cells: seq<Cell>, sources: seq<seq<Ref>>, next: Option<nat>)

  datatype Error = InvalidLimit | InvalidCursor | SizeLimit | Internal

  const MAX_WINDOW := 50
  const MAX_ITEMS := 1000
  const MAX_BYTES := 8 * 1024 * 1024

  /** The encoded sizes of the parts of a page. */
  datatype Sizes = Sizes(cells: seq<Cell> -> nat, row: RowView -> nat, page: Page -> nat)

  function TotalTo(cells: seq<Cell>, n: nat): nat
    requires n <= |cells|
  {
    if n == 0 then 0
    else
      var before, reach := TotalTo(cells, n - 1), cells[n - 1].row + cells[n - 1].span;
      if reach > before then reach else before
  }

  /** Number of rows: the lowest row any cell reaches. */
  function Total(t: Table): nat {
    TotalTo(t.cells, |t.cells|)
  }

  lemma {:induction false} TotalCovers(cells: seq<Cell>, n: nat, i: nat)
    requires i < n <= |cells|
    ensures cells[i].row + cells[i].span <= TotalTo(cells, n)
  {
    if i < n - 1 {
      TotalCovers(cells, n - 1, i);
    }
  }

  /** The cell reaches into rows `start` to `end`. */
  predicate Meets(c: Cell, start: nat, end: nat) {
    c.row <= end && c.row + c.span > start
  }

  /** Rows first, then columns, then identifiers. */
  predicate Precedes(a: Cell, b: Cell) {
    || a.row < b.row
    || (a.row == b.row && a.column < b.column)
    || (a.row == b.row && a.column == b.column && a.id <= b.id)
  }

  predicate InOrder(cells: seq<Cell>) {
    forall i, j :: 0 <= i < j < |cells| ==> Precedes(cells[i], cells[j])
  }

  function Place(sorted: seq<Cell>, c: Cell): seq<Cell> {
    if sorted == [] then [c]
    else if Precedes(c, sorted[0]) then [c] + sorted
    else [sorted[0]] + Place(sorted[1..], c)
  }

  /** The sorted cells of a window, among the first `n` cells of the table. */
  function CellsTo(cells: seq<Cell>, start: nat, end: nat, n: nat): seq<Cell>
    requires n <= |cells|
  {
    if n == 0 then []
    else if Meets(cells[n - 1], start, end) then Place(CellsTo(cells, start, end, n - 1), cells[n - 1])
    else CellsTo(cells, start, end, n - 1)
  }

  lemma {:induction false} PlaceKeepsCells(sorted: seq<Cell>, c: Cell)
    ensures multiset(Place(sorted, c)) == multiset(sorted) + multiset{c}
  {
    if sorted != [] && !Precedes(c, sorted[0]) {
      PlaceKeepsCells(sorted[1..], c);
      assert sorted == [sorted[0]] + sorted[1..];
    }
  }

  lemma PlacedIsMember(sorted: seq<Cell>, c: Cell, x: Cell)
    ensures x in Place(sorted, c) <==> x == c || x in sorted
  {
    PlaceKeepsCells(sorted, c);
    assert x in Place(sorted, c) <==> x in multiset(Place(sorted, c));
    assert x in sorted <==> x in multiset(sorted);
  }

  lemma {:induction false} PlaceKeepsOrder(sorted: seq<Cell>, c: Cell)
    requires InOrder(sorted)
    ensures InOrder(Place(sorted, c))
  {
    if sorted != [] && !Precedes(c, sorted[0]) {
      var rest := Place(sorted[1..], c);
      PlaceKeepsOrder(sorted[1..], c);
      forall j | 0 <= j < |rest| ensures Precedes(sorted[0], rest[j]) {
        PlacedIsMember(sorted[1..], c, rest[j]);
      }
    }
  }

  /** The cells of a window are exactly the table's cells reaching into it, in order, each as often as in the table. */
  lemma {:induction false} CellsOfWindow(cells: seq<Cell>, start: nat, end: nat, n: nat, c: Cell)
    requires n <= |cells|
    ensures InOrder(CellsTo(cells, start, end, n))
    ensures multiset(CellsTo(cells, start, end, n))[c] == if Meets(c, start, end) then multiset(cells[..n])[c] else 0
  {
    if n > 0 {
      CellsOfWindow(cells, start, end, n - 1, c);
      assert cells[..n] == cells[..n - 1] + [cells[n - 1]];
      if Meets(cells[n - 1], start, end) {
        PlaceKeepsOrder(CellsTo(cells, start, end, n - 1), cells[n - 1]);
        PlaceKeepsCells(CellsTo(cells, start, end, n - 1), cells[n - 1]);
      }
    }
  }

  lemma CellInWindow(cells: seq<Cell>, start: nat, end: nat, c: Cell)
    ensures c in CellsTo(cells, start, end, |cells|) <==> c in cells && Meets(c, start, end)
  {
    CellsOfWindow(cells, start, end, |cells|, c);
    assert cells[..|cells|] == cells;
    assert c in multiset(CellsTo(cells, start, end, |cells|)) <==> c in CellsTo(cells, start, end, |cells|);
    assert c in multiset(cells) <==> c in cells;
  }

  function GroupRefsTo(groups: seq<RowGroup>, index: nat, n: nat): seq<Ref>
    requires n <= |groups|
  {
    if n == 0 then []
    else
      var g := groups[n - 1];
      GroupRefsTo(groups, index, n - 1) + if g.first <= index <= g.last then g.refs else []
  }

  function SourceRowOf(t: Table, index: nat): SourceRow {
    if index in t.rows then t.rows[index] else SourceRow([], [])
  }

  /** A row as every page shows it: its own context, then the context of its groups, without repetition. */
  function View(t: Table, index: nat): RowView {
    var source := SourceRowOf(t, index);
    RowView(index, source.cellIds, FirstUses(source.refs + GroupRefsTo(t.groups, index, |t.groups|)))
  }

  function Views(t: Table, start: nat, n: nat): seq<RowView> {
    if n == 0 then [] else Views(t, start, n - 1) + [View(t, start + n - 1)]
  }

  /** The distinct source spans of the first `n` cells. */
  function SourcesTo(cells: seq<Cell>, n: nat): seq<seq<Ref>>
    requires n <= |cells|
  {
    if n == 0 then [] else SourcesTo(cells, n - 1) + [FirstUses(cells[n - 1].sources)]
  }

  lemma {:induction false} SourcesAt(cells: seq<Cell>, n: nat, i: nat)
    requires i < n <= |cells|
    ensures |SourcesTo(cells, n)| == n && SourcesTo(cells, n)[i] == FirstUses(cells[i].sources)
  {
    if i < n - 1 {
      SourcesAt(cells, n - 1, i);
    } else if n > 1 {
      SourcesAt(cells, n - 1, 0);
    }
  }

  /** The page a request for `limit` rows from `start` on must show. */
  function Window(t: Table, start: nat, limit: nat): Page
    requires 1 <= limit && start < Total(t)
  {
    var end := if start + limit < Total(t) then start + limit - 1 else Total(t) - 1;
    var cells := CellsTo(t.cells, start, end, |t.cells|);
    Page(start, end, Views(t, start, end + 1 - start), cells, SourcesTo(cells, |cells|),
         if end + 1 < Total(t) then Some(end + 1) else None)
  }

  // ---------------------------------------------------------------- projection

  /** `_distinct`: stops as soon as more than `most` different items were seen. */
  method DistinctItems(items: seq<Ref>, most: nat) returns (r: Option<seq<Ref>>)
    ensures r == if |FirstUses(items)| <= most then Some(FirstUses(items)) else None
  {
    var result: seq<Ref> := [];
    for i := 0 to |items|
      invariant result == InsertTo([], items, i) && |result| <= most
    {
      if items[i] !in result {
        result := result + [items[i]];
        if |result| > most {
          InsertToGrows([], items, i + 1, |items|);
          return None;
        }
      }
    }
    return Some(result);
  }

  predicate FewRefs(t: Table, index: nat) {
    |View(t, index).refs| <= MAX_ITEMS
  }

  method ProjectRow(t: Table, index: nat) returns (r: Option<RowView>)
    ensures r == if FewRefs(t, index) then Some(View(t, index)) else None
  {
    var source := SourceRowOf(t, index);
    var context := source.refs;
    for g := 0 to |t.groups|
      invariant context == source.refs + GroupRefsTo(t.groups, index, g)
    {
      if t.groups[g].first <= index <= t.groups[g].last {
        context := context + t.groups[g].refs;
      }
    }
    var refs := DistinctItems(context, MAX_ITEMS);
    return if refs.None? then None else Some(RowView(index, source.cellIds, refs.value));
  }

  function ViewBytes(t: Table, start: nat, n: nat, s: Sizes): nat {
    if n == 0 then 0 else ViewBytes(t, start, n - 1, s) + s.row(View(t, start + n - 1))
  }

  lemma {:induction false} ViewBytesGrow(t: Table, start: nat, m: nat, n: nat, s: Sizes)
    requires m <= n
    ensures ViewBytes(t, start, m, s) <= ViewBytes(t, start, n, s)
  {
    if m < n {
      ViewBytesGrow(t, start, m, n - 1, s);
    }
  }

  lemma {:induction false} ViewsAt(t: Table, start: nat, n: nat, i: nat)
    requires i < n
    ensures |Views(t, start, n)| == n && Views(t, start, n)[i] == View(t, start + i)
  {
    if i < n - 1 {
      ViewsAt(t, start, n - 1, i);
    } else if n > 1 {
      ViewsAt(t, start, n - 1, 0);
    }
  }

  /** The rows have few enough context items and, after `base` bytes, are small enough. */
  predicate ViewsFit(t: Table, start: nat, n: nat, base: nat, s: Sizes) {
    (forall i :: start <= i < start + n ==> FewRefs(t, i)) && base + ViewBytes(t, start, n, s) <= MAX_BYTES
  }

  predicate FewSources(c: Cell) {
    |FirstUses(c.sources)| <= MAX_ITEMS
  }

  /** The page is small enough to be sent. */
  predicate Small(t: Table, p: Page, s: Sizes) {
    && |p.cells| <= MAX_ITEMS && (forall i :: 0 <= i < |p.cells| ==> FewSources(p.cells[i]))
    && ViewsFit(t, p.start, |p.rows|, s.cells(p.cells), s) && s.page(p) <= MAX_BYTES
  }

  lemma RowOfWindow(t: Table, start: nat, limit: nat, i: nat)
    requires 1 <= limit && start < Total(t) && start + i <= Window(t, start, limit).end
    ensures var p := Window(t, start, limit);
            |p.rows| == p.end + 1 - start && p.rows[i] == View(t, start + i)
  {
    ViewsAt(t, start, Window(t, start, limit).end + 1 - start, i);
  }

  /** Rows `start` to `end`, unless one of them or their running size is too large. */
  method ProjectRows(t: Table, start: nat, end: nat, base: nat, s: Sizes) returns (rows: Option<seq<RowView>>)
    requires start <= end
    ensures rows == if ViewsFit(t, start, end + 1 - start, base, s) then Some(Views(t, start, end + 1 - start)) else None
  {
    hide View, FewRefs;
    var result: seq<RowView> := [];
    var encoded := base;
    for index := start to end + 1
      invariant result == Views(t, start, index - start)
      invariant encoded == base + ViewBytes(t, start, index - start, s)
      invariant encoded <= MAX_BYTES || index == start
      invariant forall i :: start <= i < index ==> FewRefs(t, i)
    {
      var row := ProjectRow(t, index);
      if row.None? {
        assert !FewRefs(t, index);
        return None;
      }
      encoded := encoded + s.row(row.value);
      if encoded > MAX_BYTES {
        ViewBytesGrow(t, start, index + 1 - start, end + 1 - start, s);
        return None;
      }
      result := result + [row.value];
    }
    return Some(result);
  }

  /** The source spans of the chosen cells, unless some cell has too many. */
  method ProjectSources(cells: seq<Cell>) returns (r: Option<seq<seq<Ref>>>)
    ensures r == if forall i :: 0 <= i < |cells| ==> FewSources(cells[i]) then Some(SourcesTo(cells, |cells|)) else None
  {
    var result: seq<seq<Ref>> := [];
    for i := 0 to |cells|
      invariant result == SourcesTo(cells, i)
      invariant forall j :: 0 <= j < i ==> FewSources(cells[j])
    {
      var distinct := DistinctItems(cells[i].sources, MAX_ITEMS);
      if distinct.None? {
        assert !FewSources(cells[i]);
        return None;
      }
      result := result + [distinct.value];
    }
    return Some(result);
  }

  /** The page for a cursor inside the table. */
  method ProjectWindow(t: Table, start: nat, limit: nat, s: Sizes) returns (r: Option<Page>)
    requires 1 <= limit && start < Total(t)
    ensures r == if Small(t, Window(t, start, limit), s) then Some(Window(t, start, limit)) else None
  {
    var total := Total(t);
    var end := if total - 1 <= start + limit - 1 then total - 1 else start + limit - 1;
    var cells := CellsTo(t.cells, start, end, |t.cells|);
    if |cells| > MAX_ITEMS { return None; }
    var sources := ProjectSources(cells);
    if sources.None? { return None; }
    ViewsAt(t, start, end + 1 - start, 0);
    var rows := ProjectRows(t, start, end, s.cells(cells), s);
    if rows.None? { return None; }
    var page := Page(start, end, rows.value, cells, sources.value, if end + 1 < total then Some(end + 1) else None);
    return if s.page(page) > MAX_BYTES then None else Some(page);
  }

  /**
   `project_table`: exactly the window asked for, or a refusal: of a bad limit, of a table without cells, of a
   cursor outside the table, or of a page that is too large, in this order.
   */
  method ProjectTable(t: Table, start: int, limit: int, s: Sizes) returns (r: Result<Page, Error>)
    ensures r == if !(1 <= limit <= MAX_WINDOW) then Err(InvalidLimit)
                 else if t.cells == [] then Err(Internal)
                 else if !(0 <= start < Total(t)) then Err(InvalidCursor)
                 else if Small(t, Window(t, start, limit), s) then Ok(Window(t, start, limit))
                 else Err(SizeLimit)
  {
    if !(1 <= limit <= MAX_WINDOW) { return Err(InvalidLimit); }
    if t.cells == [] { return Err(Internal); }
    if !(0 <= start < Total(t)) { return Err(InvalidCursor); }
    var page := ProjectWindow(t, start, limit, s);
    return if page.None? then Err(SizeLimit) else Ok(page.value);
  }

  // ---------------------------------------------------------------- windows tile the table

  /** A reader follows `next` from row `start` to the end, with any admissible limits. */
  predicate Reading(t: Table, start: nat, pages: seq<Page>, limits: seq<nat>)
    decreases |pages|
  {
    && |pages| == |limits| && pages != [] && 1 <= limits[0] && start < Total(t)
    && pages[0] == Window(t, start, limits[0])
    && (if pages[0].next.None? then |pages| == 1
        else |pages| > 1 && Reading(t, pages[0].next.value, pages[1..], limits[1..]))
  }

  function RowsOf(pages: seq<Page>): seq<RowView>
    decreases |pages|
  {
    if pages == [] then [] else pages[0].rows + RowsOf(pages[1..])
  }

  lemma RowsOfPages(pages: seq<Page>)
    ensures RowsOf(pages) == if pages == [] then [] else pages[0].rows + RowsOf(pages[1..])
  {
  }

  lemma {:induction false} ViewsJoin(t: Table, start: nat, m: nat, n: nat)
    ensures Views(t, start, m) + Views(t, start + m, n) == Views(t, start, m + n)
  {
    if n > 0 {
      ViewsJoin(t, start, m, n - 1);
    } else {
      assert Views(t, start, m) + [] == Views(t, start, m);
    }
  }

  lemma OneMorePage(t: Table, start: nat, pages: seq<Page>, m: nat, n: nat)
    requires pages != [] && pages[0].rows == Views(t, start, m) && RowsOf(pages[1..]) == Views(t, start + m, n)
    ensures RowsOf(pages) == Views(t, start, m + n)
  {
    hide Views;
    ViewsJoin(t, start, m, n);
  }

  /** A page ends where the next one begins, or at the last row. */
  lemma WindowRows(t: Table, start: nat, limit: nat)
    requires 1 <= limit && start < Total(t)
    ensures var p := Window(t, start, limit);
            && start <= p.end < Total(t) && p.rows == Views(t, start, p.end + 1 - start)
            && p.next == (if p.end + 1 < Total(t) then Some(p.end + 1) else None)
  {
    hide Views, CellsTo, SourcesTo, TotalTo;
  }

  /** Whatever the limits, the pages together show every row once, in order, and each as it is shown on any page. */
  lemma {:induction false} PagesTileTheTable(t: Table, start: nat, pages: seq<Page>, limits: seq<nat>)
    requires Reading(t, start, pages, limits)
    ensures RowsOf(pages) == Views(t, start, Total(t) - start)
    decreases |pages|
  {
    hide Window, Total, RowsOf;
    WindowRows(t, start, limits[0]);
    var n := pages[0].end + 1 - start;
    if pages[0].next.None? {
      assert pages[1..] == [];
      RowsOfPages(pages[1..]);
      OneMorePage(t, start, pages, n, 0);
    } else {
      PagesTileTheTable(t, start + n, pages[1..], limits[1..]);
      OneMorePage(t, start, pages, n, Total(t) - start - n);
    }
  }

  /** The cell covers row `r`. */
  predicate Covers(c: Cell, r: nat) {
    c.row <= r < c.row + c.span
  }

  /** A page carries exactly the cells that cover one of its rows. */
  lemma PageHasCoveringCells(t: Table, start: nat, limit: nat, c: Cell)
    requires 1 <= limit && start < Total(t) && c.span >= 1
    ensures var p := Window(t, start, limit);
            c in p.cells <==> c in t.cells && exists r :: p.start <= r <= p.end && Covers(c, r)
  {
    var p := Window(t, start, limit);
    CellInWindow(t.cells, start, p.end, c);
    if Meets(c, start, p.end) {
      assert Covers(c, if c.row < start then start else c.row);
    }
  }

  /** A cell shows the same source spans on every page that carries it: its own, each once, in order of first use. */
  lemma CellSourcesAreItsOwn(t: Table, start: nat, limit: nat, i: nat)
    requires 1 <= limit && start < Total(t) && i < |Window(t, start, limit).cells|
    ensures var p := Window(t, start, limit);
            |p.sources| == |p.cells| && p.sources[i] == FirstUses(p.cells[i].sources)
  {
    SourcesAt(Window(t, start, limit).cells, |Window(t, start, limit).cells|, i);
  }

  /** The identifiers a row lists are those of cells anchored in it. */
  predicate Anchored(t: Table) {
    && (forall i :: 0 <= i < |t.cells| ==> t.cells[i].span >= 1)
    && forall r :: r in t.rows ==> forall id :: id in t.rows[r].cellIds ==> AnchoredAt(t, r, id)
  }

  predicate AnchoredAt(t: Table, row: nat, id: nat) {
    exists i :: 0 <= i < |t.cells| && t.cells[i].id == id && t.cells[i].row == row
  }

  /** Every cell identifier a row of a page lists belongs to a cell on that same page. */
  lemma RowCellsAreOnThePage(t: Table, start: nat, limit: nat, i: nat, id: nat)
    requires Anchored(t) && 1 <= limit && start < Total(t)
    requires i < |Window(t, start, limit).rows| && id in Window(t, start, limit).rows[i].cellIds
    ensures exists c :: c in Window(t, start, limit).cells && c.id == id && c.row == start + i
  {
    var p := Window(t, start, limit);
    RowOfWindow(t, start, limit, 0);
    RowOfWindow(t, start, limit, i);
    assert AnchoredAt(t, start + i, id);
    var k :| 0 <= k < |t.cells| && t.cells[k].id == id && t.cells[k].row == start + i;
    var c := t.cells[k];
    CellInWindow(t.cells, start, p.end, c);
  }

  /** Over a whole reading, a cell is on exactly the pages with a row it covers, the page of its anchor row among them. */
  lemma {:induction false} CellIsOnItsPages(t: Table, start: nat, pages: seq<Page>, limits: seq<nat>, c: Cell)
    requires Reading(t, start, pages, limits) && c in t.cells && c.span >= 1
    ensures forall i :: 0 <= i < |pages| ==>
      (c in pages[i].cells <==> Meets(c, pages[i].start, pages[i].end))
    ensures start <= c.row ==> exists i :: 0 <= i < |pages| && pages[i].start <= c.row <= pages[i].end && c in pages[i].cells
    decreases |pages|
  {
    var p := pages[0];
    var k :| 0 <= k < |t.cells| && t.cells[k] == c;
    TotalCovers(t.cells, |t.cells|, k);
    CellInWindow(t.cells, start, p.end, c);
    if p.next.Some? {
      var rest := pages[1..];
      CellIsOnItsPages(t, p.next.value, rest, limits[1..], c);
      assert forall i :: 1 <= i < |pages| ==> pages[i] == rest[i - 1];
      if start <= c.row && p.end < c.row {
        var i :| 0 <= i < |rest| && rest[i].start <= c.row <= rest[i].end && c in rest[i].cells;
        assert pages[i + 1] == rest[i];
      }
    }
  }
}
