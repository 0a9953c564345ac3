/**
 Gap-free replay of an append-only event log: batches read under a gap check, a streaming server, lossy connections,
 reconnects by the last received identifier, and the client reducer.  Run events and ingestion events share it.
 */
module EventReplay {
  import opened Common
  import opened Sorting

  /** Events are numbered 1..last; retention may have removed any of them.  A terminal status ends the log. */
  datatype Log = Log(last: nat, present: set<nat>, terminal: bool)

  predicate LogOk(log: Log) {
    forall n :: n in log.present ==> 1 <= n <= log.last
  }

  datatype Batch = Batch(events: seq<nat>, last: nat, terminal: bool)

  datatype ReadError = CursorInvalid(last: nat) | HistoryExpired(last: nat)

  /** The numbers from + 1, ..., to. */
  function Range(from: nat, to: nat): (r: seq<nat>)
    requires from <= to
    ensures |r| == to - from
    ensures forall i :: 0 <= i < |r| ==> r[i] == from + 1 + i
  {
    seq(to - from, i requires 0 <= i < to - from => from + 1 + i)
  }

  function Min(a: nat, b: nat): nat {
    if a <= b then a else b
  }

  predicate AllPresent(log: Log, from: nat, to: nat) {
    forall n :: from < n <= to ==> n in log.present
  }

  /** What a read must deliver: the next `size` events or all remaining ones, or the news that some are gone. */
  function ExpectedBatch(log: Log, cursor: int, size: nat): Result<Batch, ReadError> {
    if cursor < 0 || cursor > log.last then Err(CursorInvalid(log.last))
    else
      var to := Min(cursor + size, log.last);
      if AllPresent(log, cursor, to) then Ok(Batch(Range(cursor, to), log.last, log.terminal))
      else Err(HistoryExpired(log.last))
  }

  /** The query: present events after the cursor in ascending order, cut at the batch size. */
  function Query(log: Log, cursor: nat, size: nat): (rows: seq<nat>)
    requires cursor <= log.last
    ensures |rows| <= size
    ensures forall i :: 0 <= i < |rows| ==> rows[i] in log.present && cursor < rows[i] <= log.last
    decreases log.last - cursor
  {
    if cursor == log.last || size == 0 then []
    else if cursor + 1 in log.present then [cursor + 1] + Query(log, cursor + 1, size - 1)
    else Query(log, cursor + 1, size)
  }

  lemma {:induction false} QueryOfPresent(log: Log, cursor: nat, size: nat)
    requires cursor <= log.last && AllPresent(log, cursor, Min(cursor + size, log.last))
    ensures Query(log, cursor, size) == Range(cursor, Min(cursor + size, log.last))
    decreases size
  {
    if cursor != log.last && size != 0 {
      QueryOfPresent(log, cursor + 1, size - 1);
    }
  }

  /** A short answer means the query reached the end of the log. */
  lemma {:induction false} ShortQueryIsAll(log: Log, cursor: nat, size: nat, n: nat)
    requires cursor < n <= log.last && n in log.present
    requires |Query(log, cursor, size)| < size
    ensures n in Query(log, cursor, size)
    decreases log.last - cursor
  {
    if cursor + 1 in log.present {
      if n != cursor + 1 { ShortQueryIsAll(log, cursor + 1, size - 1, n); }
    } else {
      ShortQueryIsAll(log, cursor + 1, size, n);
    }
  }

  /** `read_batch`: one consistent view, rows checked one by one against the expected number. */
  method ReadBatch(log: Log, cursor: int, size: nat) returns (result: Result<Batch, ReadError>)
    requires LogOk(log) && 1 <= size
    ensures result == ExpectedBatch(log, cursor, size)
  {
    var last := log.last;
    if cursor < 0 || cursor > last { return Err(CursorInvalid(last)); }
    var rows := Query(log, cursor, size);
    ghost var to := Min(cursor + size, last);
    if AllPresent(log, cursor, to) { QueryOfPresent(log, cursor, size); }
    var expected := cursor + 1;
    for i := 0 to |rows|
      invariant expected == cursor + 1 + i
      invariant forall j :: 0 <= j < i ==> rows[j] == cursor + 1 + j
    {
      if rows[i] != expected || rows[i] > last { return Err(HistoryExpired(last)); }
      expected := expected + 1;
    }
    if expected <= last && |rows| < size { return Err(HistoryExpired(last)); }
    forall n | cursor < n <= to ensures n in log.present {
      assert rows[n - cursor - 1] == n;
    }
    assert rows == Range(cursor, to);
    return Ok(Batch(rows, last, log.terminal));
  }

  // ---------------------------------------------------------------- client reducer

  datatype Client = Client(lastSequence: nat, events: seq<nat>)

  function Key(n: nat): (nat, nat) {
    (0, n)
  }

  /** `reduceRunEvent` and `reduceJobEvent`. */
  function Reduce(c: Client, event: nat): Client {
    if event <= c.lastSequence || event in c.events then c
    else Client(event, SortBy(c.events + [event], Key))
  }

  predicate Ascending(s: seq<nat>) {
    forall i, j :: 0 <= i < j < |s| ==> s[i] < s[j]
  }

  predicate ClientOk(c: Client) {
    Ascending(c.events) && forall n :: n in c.events ==> n <= c.lastSequence
  }

  /** Whatever arrives, in whatever order and however often, the client's list stays ordered and free of duplicates. */
  lemma ReducerKeepsOrder(c: Client, event: nat)
    requires ClientOk(c)
    ensures ClientOk(Reduce(c, event))
    ensures Reduce(c, event) == (if event <= c.lastSequence then c else Client(event, c.events + [event]))
    ensures Reduce(Reduce(c, event), event) == Reduce(c, event)
  {
    if event > c.lastSequence {
      var s := c.events + [event];
      forall i, j | 0 <= i < j < |s| ensures s[i] < s[j] {
        assert s[i] in c.events;
      }
      SortOfSorted(s, Key);
    }
  }

  // ---------------------------------------------------------------- server, connection, client

  /** The position of `iterate`: last yielded number, events of the current batch still to yield, and the batch's view. */
  datatype Stream = Stream(cursor: nat, pending: seq<nat>, last: nat, terminal: bool)

  datatype State = State(log: Log, stream: Option<Stream>, inFlight: seq<nat>, client: Client, closedAt: Option<nat>)

  datatype Action =
    | Append(ends: bool)
    | Trim(n: nat)
    | Connect(size: nat)
    | Yield
    | Deliver
    | NextBatch(size: nat)
    | CloseTerminal
    | Disconnect

  function Subscribe(log: Log, start: nat): State {
    State(log, None, [], Client(start, []), None)
  }

  function StreamOf(b: Batch, cursor: nat): Stream {
    Stream(cursor, b.events, b.last, b.terminal)
  }

  function Next(s: State, a: Action): State {
    match a
    case Append(ends) =>
      if s.log.terminal then s
      else s.(log := Log(s.log.last + 1, s.log.present + {s.log.last + 1}, ends))
    case Trim(n) => s.(log := s.log.(present := s.log.present - {n}))
    case Connect(size) =>
      if s.stream.Some? || size == 0 then s
      else
        var r := ExpectedBatch(s.log, s.client.lastSequence, size);
        s.(stream := if r.Ok? then Some(StreamOf(r.value, s.client.lastSequence)) else None, inFlight := [])
    case Yield =>
      if s.stream.None? || s.stream.value.pending == [] then s
      else
        var e := s.stream.value.pending[0];
        s.(stream := Some(s.stream.value.(cursor := e, pending := s.stream.value.pending[1..])), inFlight := s.inFlight + [e])
    case Deliver =>
      if s.inFlight == [] then s
      else s.(client := Reduce(s.client, s.inFlight[0]), inFlight := s.inFlight[1..])
    case NextBatch(size) =>
      if s.stream.None? || s.stream.value.pending != [] || size == 0
         || (s.stream.value.terminal && s.stream.value.cursor == s.stream.value.last) then s
      else
        var r := ExpectedBatch(s.log, s.stream.value.cursor, size);
        s.(stream := if r.Ok? then Some(StreamOf(r.value, s.stream.value.cursor)) else None)
    case CloseTerminal =>
      if s.stream.Some? && s.stream.value.pending == [] && s.stream.value.terminal && s.stream.value.cursor == s.stream.value.last
      then s.(stream := None, closedAt := Some(s.stream.value.cursor)) else s
    case Disconnect => s.(stream := None, inFlight := [])
  }

  function Exec(s: State, acts: seq<Action>): State {
    if acts == [] then s else Next(Exec(s, acts[..|acts| - 1]), acts[|acts| - 1])
  }

  function Sent(s: State): nat {
    s.client.lastSequence + |s.inFlight|
  }

  /** The stream continues what was sent, inside the part of the log it has seen. */
  predicate StreamOk(s: State) {
    s.stream.Some? ==>
      var st := s.stream.value;
      && st.cursor == Sent(s)
      && st.pending == Range(Sent(s), Sent(s) + |st.pending|)
      && Sent(s) + |st.pending| <= st.last <= s.log.last
      && (st.terminal ==> s.log.terminal && st.last == s.log.last)
  }

  predicate ClientSlice(s: State, start: nat) {
    && start <= s.client.lastSequence
    && s.client.events == Range(start, s.client.lastSequence)
    && s.inFlight == Range(s.client.lastSequence, Sent(s))
    && (s.inFlight != [] ==> Sent(s) <= s.log.last)
  }

  predicate Inv(s: State, start: nat) {
    && LogOk(s.log) && ClientSlice(s, start) && StreamOk(s)
    && (s.closedAt.Some? ==> s.log.terminal && s.closedAt.value == s.log.last)
  }

  lemma RangeTail(from: nat, to: nat)
    requires from < to
    ensures Range(from, to)[0] == from + 1 && Range(from, to)[1..] == Range(from + 1, to)
  {
  }

  lemma RangeSnoc(from: nat, to: nat)
    requires from <= to
    ensures Range(from, to) + [to + 1] == Range(from, to + 1)
  {
  }

  lemma RangeConcat(a: nat, b: nat, c: nat)
    requires a <= b <= c
    ensures Range(a, b) + Range(b, c) == Range(a, c)
  {
  }

  lemma YieldKeepsInv(s: State, start: nat)
    requires Inv(s, start)
    ensures Inv(Next(s, Yield), start)
  {
    if s.stream.Some? && s.stream.value.pending != [] {
      RangeTail(Sent(s), Sent(s) + |s.stream.value.pending|);
      RangeSnoc(s.client.lastSequence, Sent(s));
    }
  }

  lemma ReduceExtendsRange(start: nat, from: nat)
    requires start <= from
    ensures Reduce(Client(from, Range(start, from)), from + 1) == Client(from + 1, Range(start, from + 1))
  {
    ReducerKeepsOrder(Client(from, Range(start, from)), from + 1);
    RangeSnoc(start, from);
  }

  /** The state after the first event on the wire was received. */
  function Received(s: State, start: nat): State
    requires start <= s.client.lastSequence && s.inFlight != []
  {
    var from := s.client.lastSequence;
    s.(client := Client(from + 1, Range(start, from + 1)), inFlight := Range(from + 1, Sent(s)))
  }

  lemma DeliverIsReceive(s: State, start: nat)
    requires ClientSlice(s, start) && s.inFlight != []
    ensures Next(s, Deliver) == Received(s, start)
  {
    var from := s.client.lastSequence;
    assert s.client == Client(from, Range(start, from));
    RangeTail(from, Sent(s));
    assert s.inFlight[0] == from + 1;
    assert s.inFlight[1..] == Range(from + 1, Sent(s));
    assert Reduce(s.client, s.inFlight[0]) == Client(from + 1, Range(start, from + 1)) by {
      ReduceExtendsRange(start, from);
    }
  }

  lemma DeliverKeepsInv(s: State, start: nat)
    requires Inv(s, start)
    ensures Inv(Next(s, Deliver), start)
  {
    if s.inFlight != [] {
      DeliverIsReceive(s, start);
      var s' := Received(s, start);
      assert Sent(s') == Sent(s);
      assert ClientSlice(s', start);
    }
  }

  lemma ReadKeepsInv(s: State, a: Action, start: nat)
    requires Inv(s, start) && (a.Connect? || a.NextBatch?)
    ensures Inv(Next(s, a), start)
  {
  }

  lemma NextKeepsInv(s: State, a: Action, start: nat)
    requires Inv(s, start)
    ensures Inv(Next(s, a), start)
  {
    match a
    case Yield => YieldKeepsInv(s, start);
    case Deliver => DeliverKeepsInv(s, start);
    case Connect(_) => ReadKeepsInv(s, a, start);
    case NextBatch(_) => ReadKeepsInv(s, a, start);
    case _ =>
  }

  lemma {:induction false} ExecKeepsInv(log: Log, start: nat, acts: seq<Action>)
    requires LogOk(log)
    ensures Inv(Exec(Subscribe(log, start), acts), start)
  {
    if acts != [] {
      ExecKeepsInv(log, start, acts[..|acts| - 1]);
      NextKeepsInv(Exec(Subscribe(log, start), acts[..|acts| - 1]), acts[|acts| - 1], start);
    }
  }

  // ---------------------------------------------------------------- main results

  /**
   However appends, trimming, losses and reconnects interleave, the client holds exactly the events after its starting
   cursor up to the last one it received: contiguous, in order, each once.  What is on the wire continues that slice.
   */
  lemma ClientSliceIsContiguous(log: Log, start: nat, acts: seq<Action>)
    requires LogOk(log)
    ensures var s := Exec(Subscribe(log, start), acts);
            && start <= s.client.lastSequence
            && s.client.events == Range(start, s.client.lastSequence)
            && s.inFlight == Range(s.client.lastSequence, s.client.lastSequence + |s.inFlight|)
  {
    ExecKeepsInv(log, start, acts);
  }

  /**
   When the server closes a stream as terminal, the log has ended and the stream had reached its final event: what the
   client already holds followed by what is still on the wire is everything after the starting cursor.
   */
  lemma TerminalCloseIsComplete(log: Log, start: nat, acts: seq<Action>)
    requires LogOk(log)
    requires var s := Exec(Subscribe(log, start), acts);
             s.closedAt.None? && Next(s, CloseTerminal).closedAt.Some?
    ensures var s := Next(Exec(Subscribe(log, start), acts), CloseTerminal);
            && s.log.terminal && start <= s.log.last && s.closedAt == Some(s.log.last)
            && s.client.events + s.inFlight == Range(start, s.log.last)
  {
    ExecKeepsInv(log, start, acts);
    var s := Exec(Subscribe(log, start), acts);
    RangeConcat(start, s.client.lastSequence, Sent(s));
  }

  // ---------------------------------------------------------------- trimmed events

  /** The last event that needs no further read: it is with the client, on the wire, or in the server's batch. */
  function Ahead(s: State): nat {
    Sent(s) + if s.stream.Some? then |s.stream.value.pending| else 0
  }

  /** A read over a missing event reports it. */
  lemma GapIsDetected(log: Log, cursor: nat, size: nat, missing: nat)
    requires LogOk(log) && cursor < missing <= Min(cursor + size, log.last) && missing !in log.present
    ensures ExpectedBatch(log, cursor, size) == Err(HistoryExpired(log.last))
  {
  }

  /** A missing event that nobody has read yet. */
  predicate Lost(s: State, n: nat) {
    Ahead(s) < n <= s.log.last && n !in s.log.present
  }

  lemma ReadStopsBefore(log: Log, cursor: nat, size: nat, n: nat)
    requires LogOk(log) && cursor < n <= log.last && n !in log.present
    ensures var r := ExpectedBatch(log, cursor, size); r.Ok? ==> cursor + |r.value.events| < n
  {
    if Min(cursor + size, log.last) >= n { GapIsDetected(log, cursor, size, n); }
  }

  lemma LostStaysLost(s: State, a: Action, start: nat, n: nat)
    requires Inv(s, start) && Lost(s, n)
    ensures Lost(Next(s, a), n)
  {
    match a
    case Connect(size) => ReadStopsBefore(s.log, s.client.lastSequence, size, n);
    case NextBatch(size) => ReadStopsBefore(s.log, Sent(s), size, n);
    case Deliver =>
      if s.inFlight != [] { DeliverIsReceive(s, start); }
    case _ =>
  }

  /** Once an event is trimmed that nobody has read yet, no continuation of any kind brings the client up to it. */
  lemma {:induction false} LostIsNeverPassed(s: State, start: nat, n: nat, more: seq<Action>)
    requires Inv(s, start) && Lost(s, n)
    ensures Inv(Exec(s, more), start) && Lost(Exec(s, more), n) && Exec(s, more).client.lastSequence < n
  {
    if more != [] {
      LostIsNeverPassed(s, start, n, more[..|more| - 1]);
      NextKeepsInv(Exec(s, more[..|more| - 1]), more[|more| - 1], start);
      LostStaysLost(Exec(s, more[..|more| - 1]), more[|more| - 1], start, n);
    }
  }

  lemma Then(s: State, acts: seq<Action>, a: Action)
    ensures Exec(s, acts + [a]) == Next(Exec(s, acts), a)
  {
    assert (acts + [a])[..|acts + [a]| - 1] == acts;
  }

  lemma {:induction false} ExecConcat(s: State, acts: seq<Action>, more: seq<Action>)
    ensures Exec(s, acts + more) == Exec(Exec(s, acts), more)
  {
    if more == [] {
      assert acts + more == acts;
    } else {
      ExecConcat(s, acts, more[..|more| - 1]);
      assert (acts + more)[..|acts + more| - 1] == acts + more[..|more| - 1];
    }
  }

  /** The next event is still on its way or in the log. */
  predicate Coming(s: State, n: nat) {
    s.client.lastSequence < n <= s.log.last && AllPresent(s.log, Ahead(s), n)
  }

  lemma ReadDelivers(log: Log, cursor: nat)
    requires cursor < log.last && cursor + 1 in log.present
    ensures ExpectedBatch(log, cursor, 1) == Ok(Batch([cursor + 1], log.last, log.terminal))
  {
    assert Range(cursor, cursor + 1) == [cursor + 1];
  }

  /** With nothing on the wire, one read at the client's position puts the next event into the server's batch. */
  lemma ReadOn(s: State, start: nat, n: nat) returns (a: Action)
    requires Inv(s, start) && Coming(s, n) && s.inFlight == [] && (s.stream.None? || s.stream.value.pending == [])
    ensures Inv(Next(s, a), start) && Next(s, a).log == s.log && Next(s, a).client == s.client && Next(s, a).inFlight == []
    ensures Next(s, a).stream.Some? && Next(s, a).stream.value.pending == [s.client.lastSequence + 1]
  {
    assert s.client.lastSequence + 1 in s.log.present;
    ReadDelivers(s.log, s.client.lastSequence);
    a := if s.stream.None? then Connect(1) else NextBatch(1);
    NextKeepsInv(s, a, start);
  }

  lemma YieldSends(s: State, start: nat)
    requires Inv(s, start) && s.stream.Some? && s.stream.value.pending != []
    ensures var s' := Next(s, Yield);
            Inv(s', start) && s'.log == s.log && s'.client == s.client && s'.inFlight != [] && Ahead(s') == Ahead(s)
  {
    NextKeepsInv(s, Yield, start);
  }

  lemma DeliverAdvances(s: State, start: nat)
    requires Inv(s, start) && s.inFlight != []
    ensures var s' := Next(s, Deliver);
            && Inv(s', start) && s'.log == s.log && Ahead(s') == Ahead(s)
            && s'.client.lastSequence == s.client.lastSequence + 1
  {
    NextKeepsInv(s, Deliver, start);
    DeliverIsReceive(s, start);
  }

  /** The client can be given one more event, without losing what is ahead. */
  lemma Advance(s: State, start: nat, n: nat) returns (acts: seq<Action>)
    requires Inv(s, start) && Coming(s, n)
    ensures var s' := Exec(s, acts);
            && Inv(s', start) && s'.log == s.log && s'.client.lastSequence == s.client.lastSequence + 1
            && AllPresent(s'.log, Ahead(s'), n)
  {
    hide Next, Inv;
    acts := [];
    var u := s;
    if u.inFlight == [] && (u.stream.None? || u.stream.value.pending == []) {
      var a := ReadOn(u, start, n);
      Then(s, acts, a);
      acts, u := acts + [a], Next(u, a);
    }
    if u.inFlight == [] {
      YieldSends(u, start);
      Then(s, acts, Yield);
      acts, u := acts + [Yield], Next(u, Yield);
    }
    DeliverAdvances(u, start);
    Then(s, acts, Deliver);
    acts := acts + [Deliver];
  }

  lemma {:induction false} Arrives(s: State, start: nat, n: nat) returns (more: seq<Action>)
    requires Inv(s, start) && n <= s.log.last && AllPresent(s.log, Ahead(s), n)
    ensures n <= Exec(s, more).client.lastSequence
    decreases n - s.client.lastSequence
  {
    if n <= s.client.lastSequence {
      more := [];
    } else {
      var first := Advance(s, start, n);
      var rest := Arrives(Exec(s, first), start, n);
      ExecConcat(s, first, rest);
      more := first + rest;
    }
  }

  /**
   Exactly when an event of the log can still reach the client: at any point of any run some continuation delivers it if
   and only if no event up to it that nobody has read yet has been trimmed.  Otherwise no continuation skips the gap.
   */
  lemma EventArrivesExactly(log: Log, start: nat, acts: seq<Action>, n: nat)
    requires LogOk(log) && n <= Exec(Subscribe(log, start), acts).log.last
    ensures var s := Exec(Subscribe(log, start), acts);
            (exists more :: n <= Exec(s, more).client.lastSequence) <==> AllPresent(s.log, Ahead(s), n)
  {
    ExecKeepsInv(log, start, acts);
    var s := Exec(Subscribe(log, start), acts);
    if AllPresent(s.log, Ahead(s), n) {
      var more := Arrives(s, start, n);
    } else {
      var k :| Ahead(s) < k <= n && k !in s.log.present;
      forall more ensures Exec(s, more).client.lastSequence < n { LostIsNeverPassed(s, start, k, more); }
    }
  }
}
