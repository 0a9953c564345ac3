/**
 Citations of evidence units: their pages, printed labels and numbers, as the agent and as the database works them out,
 and what their validators and the browser demand.
 */
module Citations {
  import opened Common
  import opened Ordered
  import opened Sorting
  import opened Texts
  import P = Policy

  datatype Span = Span(page: nat, printed: Option<string>)

  /** A unit of the evidence pack, as far as a citation shows it. */
  datatype Unit = Unit(version: nat, title: string, path: seq<string>, spans: seq<Span>, excerpt: string)

  type Pack = map<P.EvidenceId, Unit>

  /** Public version labels by version; a known version may have no label. */
  type Labels = map<nat, Option<string>>

  /** A citation identifier is held as its number; `Label` is how it is printed.  The source URL names the version. */
  datatype Citation = Citation(number: nat, evidence: P.EvidenceId, title: string, version: Option<string>, path: seq<string>,
                               pages: seq<nat>, printed: seq<string>, source: nat)

  const MAX_UNITS := 72
  const MAX_SPANS := 500
  const MAX_PATH := 32
  const MAX_TITLE := 500
  const MAX_VERSION_LABEL := 200

  /** The browser's own limit for the pages and for the printed labels of a citation. */
  const MAX_BROWSER_LIST := 100

  function Excerpts(pack: Pack): (units: P.Units)
    ensures units.Keys == pack.Keys
  {
    map e | e in pack :: pack[e].excerpt
  }

  // ---------------------------------------------------------------- pages and printed labels

  predicate Ascending(pages: seq<nat>) {
    forall i, j :: 0 <= i < j < |pages| ==> pages[i] < pages[j]
  }

  function InsertPage(pages: seq<nat>, page: nat): (r: seq<nat>)
    ensures |pages| <= |r| <= |pages| + 1
  {
    if pages == [] || page < pages[0] then [page] + pages
    else if page == pages[0] then pages
    else [pages[0]] + InsertPage(pages[1..], page)
  }

  lemma {:induction false} InsertPageAdds(pages: seq<nat>, page: nat, p: nat)
    ensures p in InsertPage(pages, page) <==> p in pages || p == page
  {
    if pages != [] && page > pages[0] {
      InsertPageAdds(pages[1..], page, p);
      assert pages == [pages[0]] + pages[1..];
    }
  }

  lemma Prepended(p: nat, pages: seq<nat>)
    requires Ascending(pages) && forall q :: q in pages ==> p < q
    ensures Ascending([p] + pages)
  {
    forall j | 0 < j < |[p] + pages| ensures ([p] + pages)[j] == pages[j - 1] && p < pages[j - 1] {
      assert pages[j - 1] in pages;
    }
  }

  lemma {:induction false} InsertPageAscends(pages: seq<nat>, page: nat)
    requires Ascending(pages)
    ensures Ascending(InsertPage(pages, page))
  {
    assert forall i :: 0 <= i < |pages| ==> pages[0] <= pages[i];
    if pages == [] || page < pages[0] {
      Prepended(page, pages);
    } else if page > pages[0] {
      var rest := InsertPage(pages[1..], page);
      InsertPageAscends(pages[1..], page);
      forall q | q in rest ensures pages[0] < q {
        InsertPageAdds(pages[1..], page, q);
      }
      Prepended(pages[0], rest);
    }
  }

  /** The pages of the first spans, each once, ascending. */
  function PagesTo(spans: seq<Span>, n: nat): (r: seq<nat>)
    requires n <= |spans|
    ensures |r| <= n
  {
    if n == 0 then [] else InsertPage(PagesTo(spans, n - 1), spans[n - 1].page)
  }

  lemma {:induction false} PagesAscend(spans: seq<Span>, n: nat)
    requires n <= |spans|
    ensures Ascending(PagesTo(spans, n))
  {
    if n > 0 {
      PagesAscend(spans, n - 1);
      InsertPageAscends(PagesTo(spans, n - 1), spans[n - 1].page);
    }
  }

  lemma {:induction false} PagesAreOfSpans(spans: seq<Span>, n: nat, p: nat)
    requires n <= |spans|
    ensures p in PagesTo(spans, n) <==> exists i :: 0 <= i < n && spans[i].page == p
  {
    if n > 0 {
      PagesAreOfSpans(spans, n - 1, p);
      InsertPageAdds(PagesTo(spans, n - 1), spans[n - 1].page, p);
    }
  }

  lemma {:induction false} InsertLast(pages: seq<nat>, page: nat)
    requires forall i :: 0 <= i < |pages| ==> pages[i] < page
    ensures InsertPage(pages, page) == pages + [page]
  {
    if pages != [] {
      InsertLast(pages[1..], page);
      assert [pages[0]] + (pages[1..] + [page]) == pages + [page];
    }
  }

  /** Spans on consecutive pages: none is merged. */
  lemma {:induction false} ConsecutivePages(spans: seq<Span>, n: nat)
    requires n <= |spans| && forall i :: 0 <= i < |spans| ==> spans[i].page == i + 1
    ensures |PagesTo(spans, n)| == n && forall i :: 0 <= i < n ==> PagesTo(spans, n)[i] == i + 1
  {
    if n > 0 {
      ConsecutivePages(spans, n - 1);
      InsertLast(PagesTo(spans, n - 1), n);
    }
  }

  /** Printed labels in the order of the spans that have one. */
  function PrintedTo(spans: seq<Span>, n: nat): (r: seq<string>)
    requires n <= |spans|
    ensures |r| <= n
  {
    if n == 0 then []
    else PrintedTo(spans, n - 1) + if spans[n - 1].printed.Some? then [spans[n - 1].printed.value] else []
  }

  function Pages(u: Unit): seq<nat> {
    PagesTo(u.spans, |u.spans|)
  }

  function Printed(u: Unit): seq<string> {
    FirstUses(PrintedTo(u.spans, |u.spans|))
  }

  lemma {:induction false} FirstUsesAreFewer<T>(used: seq<T>, n: nat)
    requires n <= |used|
    ensures |InsertTo([], used, n)| <= n
  {
    if n > 0 {
      FirstUsesAreFewer(used, n - 1);
    }
  }

  /** The citation of a unit under a number. */
  function Cite(number: nat, e: P.EvidenceId, u: Unit, version: Option<string>): Citation {
    Citation(number, e, u.title, version, u.path, Pages(u), Printed(u), u.version)
  }

  // ---------------------------------------------------------------- the same by the database

  /** What `DISTINCT` or `GROUP BY` may leave of some rows: each value once, in no particular order. */
  ghost predicate Groups<T(!new)>(rows: seq<T>, groups: seq<T>) {
    Distinct(groups) && forall x :: x in groups <==> x in rows
  }

  /** One such order: that of the last rows. */
  function Grouped<T(==)>(rows: seq<T>): seq<T> {
    if rows == [] then []
    else if rows[0] in rows[1..] then Grouped(rows[1..])
    else [rows[0]] + Grouped(rows[1..])
  }

  lemma {:induction false} GroupedGroups<T(!new)>(rows: seq<T>)
    ensures Groups(rows, Grouped(rows))
  {
    if rows != [] {
      GroupedGroups(rows[1..]);
      assert rows == [rows[0]] + rows[1..];
    }
  }

  function PageRows(u: Unit): (r: seq<nat>)
    ensures |r| == |u.spans| && forall i :: 0 <= i < |r| ==> r[i] == u.spans[i].page
  {
    seq(|u.spans|, i requires 0 <= i < |u.spans| => u.spans[i].page)
  }

  function LabelRows(u: Unit): seq<string> {
    PrintedTo(u.spans, |u.spans|)
  }

  function PageKey(p: nat): (nat, nat) {
    (p, 0)
  }

  /** `min(ord)` over the spans so far that carry the label, counted from one; zero while there is none. */
  function MinOrd(spans: seq<Span>, text: string, n: nat): nat
    requires n <= |spans|
  {
    if n == 0 then 0
    else
      var m := MinOrd(spans, text, n - 1);
      if m > 0 then m else if spans[n - 1].printed == Some(text) then n else 0
  }

  function FirstSeen(u: Unit): string -> (nat, nat) {
    text => (MinOrd(u.spans, text, |u.spans|), 0)
  }

  /** `jsonb_agg(page ORDER BY page)` over the distinct pages. */
  function StoredPages(u: Unit): seq<nat> {
    SortBy(Grouped(PageRows(u)), PageKey)
  }

  /** `jsonb_agg(label ORDER BY first_seen)` over the labels, grouped. */
  function StoredPrinted(u: Unit): seq<string> {
    SortBy(Grouped(LabelRows(u)), FirstSeen(u))
  }

  /** The citation as `agent._public_answer` builds it; over no spans at all it would store null for the pages. */
  function StoredCite(number: nat, e: P.EvidenceId, u: Unit, version: Option<string>): Citation
    requires u.spans != []
  {
    Citation(number, e, u.title, version, u.path, StoredPages(u), StoredPrinted(u), u.version)
  }

  /** Distinct pages sorted are the agent's pages, in whatever order the database groups them. */
  lemma PagesInAnyOrder(u: Unit, groups: seq<nat>)
    requires Groups(PageRows(u), groups)
    ensures SortBy(groups, PageKey) == Pages(u)
  {
    PagesAscend(u.spans, |u.spans|);
    forall p ensures p in groups <==> p in Pages(u) {
      PagesAreOfSpans(u.spans, |u.spans|, p);
      assert p in PageRows(u) <==> exists i :: 0 <= i < |u.spans| && u.spans[i].page == p;
    }
    SortIsUnique(groups, Pages(u), PageKey);
  }

  /** In the agent's list the labels stand in the order in which the spans first show them. */
  predicate StandAsSeen(order: seq<string>, spans: seq<Span>, n: nat)
    requires n <= |spans|
  {
    && (forall i :: 0 <= i < |order| ==> 0 < MinOrd(spans, order[i], n) <= n)
    && (forall i, j :: 0 <= i < j < |order| ==> MinOrd(spans, order[i], n) < MinOrd(spans, order[j], n))
  }

  lemma {:induction false} SeenIsListed(spans: seq<Span>, n: nat, text: string)
    requires n <= |spans|
    ensures MinOrd(spans, text, n) <= n
    ensures MinOrd(spans, text, n) > 0 <==> text in PrintedTo(spans, n)
  {
    if n > 0 {
      SeenIsListed(spans, n - 1, text);
    }
  }

  lemma MinOrdStep(spans: seq<Span>, n: nat, text: string)
    requires n < |spans|
    ensures MinOrd(spans, text, n) > 0 ==> MinOrd(spans, text, n + 1) == MinOrd(spans, text, n)
    ensures MinOrd(spans, text, n) == 0 && spans[n].printed == Some(text) ==> MinOrd(spans, text, n + 1) == n + 1
  {
  }

  lemma SeenStays(order: seq<string>, spans: seq<Span>, n: nat)
    requires n < |spans| && StandAsSeen(order, spans, n)
    ensures StandAsSeen(order, spans, n + 1)
    ensures forall i :: 0 <= i < |order| ==> MinOrd(spans, order[i], n + 1) <= n
  {
    hide MinOrd;
    forall i | 0 <= i < |order| ensures MinOrd(spans, order[i], n + 1) == MinOrd(spans, order[i], n) {
      MinOrdStep(spans, n, order[i]);
    }
  }

  lemma OneMoreSeen(order: seq<string>, spans: seq<Span>, n: nat, text: string)
    requires n < |spans| && spans[n].printed == Some(text) && StandAsSeen(order, spans, n)
    requires text in order <==> MinOrd(spans, text, n) > 0
    ensures StandAsSeen(InsertOne(order, text), spans, n + 1)
  {
    hide MinOrd;
    SeenStays(order, spans, n);
    MinOrdStep(spans, n, text);
  }

  lemma FirstUsesOn(used: seq<string>, text: string)
    ensures FirstUses(used + [text]) == InsertOne(FirstUses(used), text)
  {
    InsertToPrefix([], used, [text], |used|);
  }

  lemma NoneSeen(spans: seq<Span>)
    ensures StandAsSeen(FirstUses(PrintedTo(spans, 0)), spans, 0)
  {
  }

  lemma {:induction false} LabelsStandAsSeen(spans: seq<Span>, n: nat)
    requires n <= |spans|
    ensures StandAsSeen(FirstUses(PrintedTo(spans, n)), spans, n)
  {
    hide FirstUses, InsertTo, InsertOne, MinOrd, StandAsSeen;
    if n == 0 {
      NoneSeen(spans);
    } else {
      var used := PrintedTo(spans, n - 1);
      LabelsStandAsSeen(spans, n - 1);
      if spans[n - 1].printed.Some? {
        var text := spans[n - 1].printed.value;
        FirstUsesAreTheUsed(used);
        FirstUsesOn(used, text);
        SeenIsListed(spans, n - 1, text);
        OneMoreSeen(FirstUses(used), spans, n - 1, text);
      } else {
        assert used + [] == used;
        SeenStays(FirstUses(used), spans, n - 1);
      }
    }
  }

  /** Labels sorted by first occurrence are the agent's labels, in whatever order the database groups them. */
  lemma LabelsInAnyOrder(u: Unit, groups: seq<string>)
    requires Groups(LabelRows(u), groups)
    ensures SortBy(groups, FirstSeen(u)) == Printed(u)
  {
    LabelsStandAsSeen(u.spans, |u.spans|);
    FirstUsesAreTheUsed(LabelRows(u));
    SortIsUnique(groups, Printed(u), FirstSeen(u));
  }

  /** Both programs cite a unit alike: sorted set against grouped and sorted rows, first uses against smallest ordinals. */
  lemma CitesAgree(number: nat, e: P.EvidenceId, u: Unit, version: Option<string>)
    requires u.spans != []
    ensures StoredCite(number, e, u, version) == Cite(number, e, u, version)
  {
    GroupedGroups(PageRows(u));
    GroupedGroups(LabelRows(u));
    PagesInAnyOrder(u, Grouped(PageRows(u)));
    LabelsInAnyOrder(u, Grouped(LabelRows(u)));
  }

  // ---------------------------------------------------------------- validators

  predicate ValidPath(path: seq<string>) {
    |path| <= MAX_PATH && forall i :: 0 <= i < |path| ==> NonBlank(path[i])
  }

  predicate ValidTitle(title: string) {
    NonBlank(title) && |title| <= MAX_TITLE
  }

  predicate ValidUnit(u: Unit) {
    && ValidTitle(u.title) && ValidPath(u.path)
    && 1 <= |u.spans| <= MAX_SPANS && forall i :: 0 <= i < |u.spans| ==> u.spans[i].page >= 1
  }

  predicate ValidPack(pack: Pack) {
    |pack| <= MAX_UNITS && forall e :: e in pack ==> IsShortId(e) && ValidUnit(pack[e])
  }

  predicate ValidVersionLabel(version: Option<string>) {
    version.Some? ==> |version.value| <= MAX_VERSION_LABEL
  }

  predicate ValidCitation(c: Citation) {
    && IsShortId(c.evidence) && ValidTitle(c.title) && ValidPath(c.path) && ValidVersionLabel(c.version)
    && 1 <= |c.pages| <= MAX_SPANS && Ascending(c.pages) && (forall p :: p in c.pages ==> p >= 1)
    && |c.printed| <= MAX_SPANS
  }

  /** The citation of a valid unit is valid. */
  lemma CiteIsValid(number: nat, e: P.EvidenceId, u: Unit, version: Option<string>)
    requires IsShortId(e) && ValidUnit(u) && ValidVersionLabel(version)
    ensures ValidCitation(Cite(number, e, u, version))
  {
    PagesAscend(u.spans, |u.spans|);
    PagesAreOfSpans(u.spans, |u.spans|, u.spans[0].page);
    FirstUsesAreFewer(PrintedTo(u.spans, |u.spans|), |PrintedTo(u.spans, |u.spans|)|);
    forall p | p in Pages(u) ensures p >= 1 {
      PagesAreOfSpans(u.spans, |u.spans|, p);
    }
  }

  // ---------------------------------------------------------------- printed numbers

  function Digit(n: nat): char
    requires n < 10
  {
    '0' + n as char
  }

  function Decimal(n: nat): string {
    if n < 10 then [Digit(n)] else Decimal(n / 10) + [Digit(n % 10)]
  }

  /** C001, C002, ... */
  function Label(n: nat): string {
    if n < 1000 then ['C', Digit(n / 100), Digit(n / 10 % 10), Digit(n % 10)] else ['C'] + Decimal(n)
  }

  /** The database pads on the left, and cuts what is longer than three places. */
  function PaddedLabel(n: nat): string {
    var d := Decimal(n);
    ['C'] + if |d| == 1 then ['0', '0'] + d else if |d| == 2 then ['0'] + d else if |d| >= 3 then d[..3] else d
  }

  lemma DigitsOf(n: nat)
    ensures n == n / 100 * 100 + n / 10 % 10 * 10 + n % 10
  {
    assert n / 100 == n / 10 / 10;
  }

  lemma LabelIsInjective(m: nat, n: nat)
    requires m < 1000 && n < 1000 && Label(m) == Label(n)
    ensures m == n
  {
    assert Label(m)[1] == Label(n)[1] && Label(m)[2] == Label(n)[2] && Label(m)[3] == Label(n)[3];
    DigitsOf(m);
    DigitsOf(n);
  }

  /** Both services print the numbers of an admissible answer alike. */
  lemma LabelsAgree(n: nat)
    requires n < 1000
    ensures PaddedLabel(n) == Label(n)
  {
    if n < 10 {
    } else if n < 100 {
      assert Decimal(n) == [Digit(n / 10)] + [Digit(n % 10)];
    } else {
      assert n / 10 / 10 == n / 100;
      assert Decimal(n / 10) == [Digit(n / 100)] + [Digit(n / 10 % 10)];
    }
  }
}
