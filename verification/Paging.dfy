/** Keyset pages over rows that come and go between requests, and the browser's stack of page cursors. */
module Paging {
  import opened Common

  /** The sort key of a row: creation time or ordinal, then identifier. */
  datatype Key = Key(major: int, minor: int)

  /** Libraries and runs list the newest first, the document tree in document order. */
  datatype Direction = Newest | Document

  predicate Less(a: Key, b: Key) {
    a.major < b.major || (a.major == b.major && a.minor < b.minor)
  }

  /** `a` is listed before `b`. */
  predicate Before(dir: Direction, a: Key, b: Key) {
    if dir.Newest? then Less(b, a) else Less(a, b)
  }

  predicate After(dir: Direction, cursor: Option<Key>, k: Key) {
    cursor.Some? ==> Before(dir, cursor.value, k)
  }

  predicate Listed(dir: Direction, s: seq<Key>) {
    forall i, j :: 0 <= i < j < |s| ==> Before(dir, s[i], s[j])
  }

  /** What the query returns: the first `most` of the rows visible at that moment behind the cursor, in order. */
  predicate Fetched(dir: Direction, visible: set<Key>, cursor: Option<Key>, most: nat, rows: seq<Key>) {
    && Listed(dir, rows) && |rows| <= most
    && (forall k :: k in rows ==> k in visible && After(dir, cursor, k))
    && (forall k :: k in visible && After(dir, cursor, k) && k !in rows ==>
          |rows| == most && forall r :: r in rows ==> Before(dir, r, k))
  }

  datatype Page = Page(items: seq<Key>, next: Option<Key>)

  /** `list`: one row more than the page is fetched only to learn whether another page follows. */
  function PageOf(rows: seq<Key>, limit: nat): Page
    requires limit >= 1
  {
    if |rows| > limit then Page(rows[..limit], Some(rows[limit - 1])) else Page(rows, None)
  }

  /** One request of a scan: the rows visible to it, its limit, and what the query returned. */
  datatype Request = Request(visible: set<Key>, limit: nat, rows: seq<Key>)

  function PageFor(r: Request): Page
    requires r.limit >= 1
  {
    PageOf(r.rows, r.limit)
  }

  /** A client follows `next` from `cursor` on; rows may appear, disappear and change visibility between requests. */
  predicate Scan(dir: Direction, cursor: Option<Key>, requests: seq<Request>)
    decreases |requests|
  {
    requests != [] ==>
      var r := requests[0];
      && r.limit >= 1 && Fetched(dir, r.visible, cursor, r.limit + 1, r.rows)
      && (|requests| > 1 ==> PageFor(r).next.Some? && Scan(dir, PageFor(r).next, requests[1..]))
  }

  predicate AllLimited(requests: seq<Request>) {
    forall i :: 0 <= i < |requests| ==> requests[i].limit >= 1
  }

  /** Everything the client was given, page after page. */
  function Delivered(requests: seq<Request>): seq<Key>
    requires AllLimited(requests)
    decreases |requests|
  {
    if requests == [] then [] else PageFor(requests[0]).items + Delivered(requests[1..])
  }

  /** The scan went on until a page had no successor. */
  predicate Finished(requests: seq<Request>)
    requires AllLimited(requests)
  {
    requests != [] && PageFor(requests[|requests| - 1]).next.None?
  }

  lemma {:induction false} ScansAreLimited(dir: Direction, cursor: Option<Key>, requests: seq<Request>)
    requires Scan(dir, cursor, requests)
    ensures AllLimited(requests)
    decreases |requests|
  {
    if |requests| > 1 {
      ScansAreLimited(dir, PageFor(requests[0]).next, requests[1..]);
      forall i | 0 <= i < |requests| ensures requests[i].limit >= 1 {
        assert i > 0 ==> requests[i] == requests[1..][i - 1];
      }
    }
  }

  // ---------------------------------------------------------------- one page

  lemma LaterIndex(s: seq<Key>, n: nat, k: Key) returns (i: nat)
    requires n <= |s| && k in s && k !in s[..n]
    ensures n <= i < |s| && s[i] == k
  {
    assert s == s[..n] + s[n..];
    var j :| 0 <= j < |s[n..]| && s[n..][j] == k;
    i := n + j;
  }

  lemma FirstIsMember(s: seq<Key>)
    ensures s != [] ==> s[0] in s
  {
  }

  /** A page is visible, ordered and behind its cursor; its own cursor is its last row; unlisted rows come later. */
  lemma PageFacts(dir: Direction, cursor: Option<Key>, r: Request)
    requires r.limit >= 1 && Fetched(dir, r.visible, cursor, r.limit + 1, r.rows)
    ensures Listed(dir, PageFor(r).items) && |PageFor(r).items| <= r.limit
    ensures forall k :: k in PageFor(r).items ==> k in r.visible && After(dir, cursor, k)
    ensures PageFor(r).next.Some? ==>
      |PageFor(r).items| == r.limit && PageFor(r).next.value == PageFor(r).items[r.limit - 1]
    ensures forall k :: k in r.visible && After(dir, cursor, k) && k !in PageFor(r).items ==>
      PageFor(r).next.Some? && After(dir, PageFor(r).next, k)
  {
    if |r.rows| > r.limit {
      var last := r.rows[r.limit - 1];
      forall k | k in r.visible && After(dir, cursor, k) && k !in r.rows[..r.limit] ensures Before(dir, last, k) {
        if k in r.rows {
          var i := LaterIndex(r.rows, r.limit, k);
        } else {
          assert last in r.rows;
        }
      }
      assert forall k :: k in r.rows[..r.limit] ==> k in r.rows;
    }
  }

  /** What is listed on a page comes at or before the page's own cursor. */
  lemma PageEndsAtCursor(dir: Direction, cursor: Option<Key>, r: Request, i: nat)
    requires r.limit >= 1 && Fetched(dir, r.visible, cursor, r.limit + 1, r.rows)
    requires PageFor(r).next.Some? && i < |PageFor(r).items|
    ensures PageFor(r).items[i] == PageFor(r).next.value || Before(dir, PageFor(r).items[i], PageFor(r).next.value)
  {
    PageFacts(dir, cursor, r);
  }

  // ---------------------------------------------------------------- scans

  /** Everything delivered from a cursor on is behind that cursor. */
  lemma {:induction false} DeliveredIsAfter(dir: Direction, cursor: Option<Key>, requests: seq<Request>, k: Key)
    requires Scan(dir, cursor, requests) && AllLimited(requests) && k in Delivered(requests)
    ensures After(dir, cursor, k)
    decreases |requests|
  {
    var r := requests[0];
    PageFacts(dir, cursor, r);
    if k !in PageFor(r).items && |requests| > 1 {
      DeliveredIsAfter(dir, PageFor(r).next, requests[1..], k);
      assert PageFor(r).next.value in PageFor(r).items;
    }
  }

  /** Whatever changes between pages, the scan lists rows in strict order: no row is delivered twice. */
  lemma {:induction false} ScanIsStrictlyOrdered(dir: Direction, cursor: Option<Key>, requests: seq<Request>)
    requires Scan(dir, cursor, requests) && AllLimited(requests)
    ensures Listed(dir, Delivered(requests))
    decreases |requests|
  {
    if requests != [] {
      var r, items := requests[0], PageFor(requests[0]).items;
      PageFacts(dir, cursor, r);
      if |requests| > 1 {
        var rest := Delivered(requests[1..]);
        ScanIsStrictlyOrdered(dir, PageFor(r).next, requests[1..]);
        forall i, j | 0 <= i < j < |items + rest| ensures Before(dir, (items + rest)[i], (items + rest)[j]) {
          if i < |items| <= j {
            assert rest[j - |items|] in rest;
            DeliveredIsAfter(dir, PageFor(r).next, requests[1..], rest[j - |items|]);
            PageEndsAtCursor(dir, cursor, r, i);
          }
        }
      }
    }
  }

  /** A delivered row was visible when its page was read. */
  lemma {:induction false} DeliveredWasVisible(dir: Direction, cursor: Option<Key>, requests: seq<Request>, k: Key)
    returns (i: nat)
    requires Scan(dir, cursor, requests) && AllLimited(requests) && k in Delivered(requests)
    ensures i < |requests| && k in requests[i].visible && k in PageFor(requests[i]).items
    decreases |requests|
  {
    PageFacts(dir, cursor, requests[0]);
    if k in PageFor(requests[0]).items || |requests| == 1 {
      i := 0;
    } else {
      var j := DeliveredWasVisible(dir, PageFor(requests[0]).next, requests[1..], k);
      i := j + 1;
    }
  }

  /**
   A finished scan misses no row behind its starting cursor that was visible to all of its requests, whatever rows
   appeared or disappeared in between.
   */
  lemma {:induction false} ScanIsComplete(dir: Direction, cursor: Option<Key>, requests: seq<Request>, k: Key)
    requires Scan(dir, cursor, requests) && AllLimited(requests) && Finished(requests)
    requires After(dir, cursor, k) && forall i :: 0 <= i < |requests| ==> k in requests[i].visible
    ensures k in Delivered(requests)
    decreases |requests|
  {
    var r := requests[0];
    PageFacts(dir, cursor, r);
    if k !in PageFor(r).items {
      assert |requests| > 1;
      var rest := requests[1..];
      assert forall i :: 0 <= i < |rest| ==> rest[i] == requests[i + 1];
      assert rest[|rest| - 1] == requests[|requests| - 1];
      ScanIsComplete(dir, PageFor(r).next, rest, k);
    }
  }

  /** Over rows that do not change, any limits give the same listing: exactly the rows behind the start, in order. */
  lemma UnchangedRowsAreListed(dir: Direction, cursor: Option<Key>, requests: seq<Request>, visible: set<Key>)
    requires Scan(dir, cursor, requests) && AllLimited(requests) && Finished(requests)
    requires forall i :: 0 <= i < |requests| ==> requests[i].visible == visible
    ensures Listed(dir, Delivered(requests))
    ensures forall k :: k in Delivered(requests) <==> k in visible && After(dir, cursor, k)
  {
    ScanIsStrictlyOrdered(dir, cursor, requests);
    forall k | k in Delivered(requests) ensures k in visible && After(dir, cursor, k) {
      DeliveredIsAfter(dir, cursor, requests, k);
      var i := DeliveredWasVisible(dir, cursor, requests, k);
    }
    forall k | k in visible && After(dir, cursor, k) ensures k in Delivered(requests) {
      ScanIsComplete(dir, cursor, requests, k);
    }
  }

  /** An ordered listing is determined by its rows. */
  lemma {:induction false} ListingIsUnique(dir: Direction, a: seq<Key>, b: seq<Key>)
    requires Listed(dir, a) && Listed(dir, b) && forall k :: k in a <==> k in b
    ensures a == b
  {
    FirstIsMember(a);
    FirstIsMember(b);
    if a != [] {
      assert a[0] == b[0];
      forall k ensures k in a[1..] <==> k in b[1..] {
        TailMembers(dir, a, k);
        TailMembers(dir, b, k);
      }
      ListingIsUnique(dir, a[1..], b[1..]);
    }
  }

  lemma TailMembers(dir: Direction, s: seq<Key>, k: Key)
    requires Listed(dir, s) && s != []
    ensures k in s[1..] <==> k in s && k != s[0]
  {
    if k in s && k != s[0] {
      var i :| 0 <= i < |s| && s[i] == k;
      assert s[1..][i - 1] == k;
    }
    if k in s[1..] {
      var i :| 0 <= i < |s[1..]| && s[1..][i] == k;
      assert s[i + 1] == k;
    }
  }

  /** Page sizes are invisible in the result: two finished scans of the same unchanged rows deliver the same list. */
  lemma LimitsDoNotMatter(dir: Direction, cursor: Option<Key>, one: seq<Request>, other: seq<Request>, visible: set<Key>)
    requires Scan(dir, cursor, one) && AllLimited(one) && Finished(one)
    requires Scan(dir, cursor, other) && AllLimited(other) && Finished(other)
    requires forall i :: 0 <= i < |one| ==> one[i].visible == visible
    requires forall i :: 0 <= i < |other| ==> other[i].visible == visible
    ensures Delivered(one) == Delivered(other)
  {
    UnchangedRowsAreListed(dir, cursor, one, visible);
    UnchangedRowsAreListed(dir, cursor, other, visible);
    ListingIsUnique(dir, Delivered(one), Delivered(other));
  }

  // ---------------------------------------------------------------- the browser's cursor stack

  datatype CursorPages<C> = CursorPages(cursors: seq<Option<C>>, index: nat)

  predicate ValidPages<C>(s: CursorPages<C>) {
    s.index < |s.cursors|
  }

  function Current<C>(s: CursorPages<C>): Option<C> {
    if s.index < |s.cursors| then s.cursors[s.index] else None
  }

  function Previous<C>(s: CursorPages<C>): CursorPages<C> {
    s.(index := if s.index == 0 then 0 else s.index - 1)
  }

  function Forward<C>(s: CursorPages<C>, next: C): CursorPages<C>
    requires ValidPages(s)
  {
    CursorPages(s.cursors[..s.index + 1] + [Some(next)], s.index + 1)
  }

  function ForwardAll<C>(s: CursorPages<C>, nexts: seq<C>): CursorPages<C>
    requires ValidPages(s)
    decreases |nexts|
  {
    if nexts == [] then s else ForwardAll(Forward(s, nexts[0]), nexts[1..])
  }

  function BackAll<C>(s: CursorPages<C>, n: nat): CursorPages<C>
    decreases n
  {
    if n == 0 then s else BackAll(Previous(s), n - 1)
  }

  /** Going forward keeps every page up to the present one and appends the pages reached. */
  lemma {:induction false} ForwardKeepsHistory<C>(s: CursorPages<C>, nexts: seq<C>)
    requires ValidPages(s)
    ensures ValidPages(ForwardAll(s, nexts))
    ensures ForwardAll(s, nexts).index == s.index + |nexts|
    ensures s.cursors[..s.index + 1] <= ForwardAll(s, nexts).cursors
    ensures forall i :: 0 <= i < |nexts| ==> ForwardAll(s, nexts).cursors[s.index + 1 + i] == Some(nexts[i])
    decreases |nexts|
  {
    if nexts != [] {
      var t := Forward(s, nexts[0]);
      ForwardKeepsHistory(t, nexts[1..]);
      var u := ForwardAll(s, nexts);
      assert t.cursors[..t.index + 1] == t.cursors;
      assert s.cursors[..s.index + 1] <= t.cursors;
      assert u.cursors[s.index + 1] == t.cursors[s.index + 1] == Some(nexts[0]);
    }
  }

  lemma {:induction false} BackSteps<C>(s: CursorPages<C>, n: nat)
    ensures BackAll(s, n) == s.(index := if n <= s.index then s.index - n else 0)
    decreases n
  {
    if n > 0 {
      BackSteps(Previous(s), n - 1);
    }
  }

  /** After any pages forward, `n` steps back show the page the client saw `n` pages earlier, down to the start. */
  lemma BackRetracesForward<C>(s: CursorPages<C>, nexts: seq<C>, n: nat)
    requires ValidPages(s) && n <= |nexts|
    ensures Current(BackAll(ForwardAll(s, nexts), n)) == Current(ForwardAll(s, nexts[..|nexts| - n]))
    ensures n == |nexts| ==> Current(BackAll(ForwardAll(s, nexts), n)) == Current(s)
  {
    var m := |nexts| - n;
    ForwardKeepsHistory(s, nexts);
    ForwardKeepsHistory(s, nexts[..m]);
    BackSteps(ForwardAll(s, nexts), n);
    var u, v := ForwardAll(s, nexts), ForwardAll(s, nexts[..m]);
    if m == 0 {
      assert u.cursors[s.index] == s.cursors[..s.index + 1][s.index] == v.cursors[s.index];
    } else {
      assert u.cursors[s.index + 1 + (m - 1)] == Some(nexts[m - 1]);
      assert v.cursors[s.index + 1 + (m - 1)] == Some(nexts[..m][m - 1]);
    }
  }
}
