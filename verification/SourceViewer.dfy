/** The source viewer: byte ranges, a verified copy of the stored object, and the one admission slot. */
module SourceViewer {
  import opened Common

  // ---------------------------------------------------------------- range headers

  predicate IsDigit(c: char) {
    '0' <= c <= '9'
  }

  function DigitValue(c: char): nat
    requires IsDigit(c)
  {
    c as int - '0' as int
  }

  /** What `[0-9]{0,20}` matches. */
  predicate Digits(s: string) {
    |s| <= 20 && forall i :: 0 <= i < |s| ==> IsDigit(s[i])
  }

  function Value(s: string): nat
    requires forall i :: 0 <= i < |s| ==> IsDigit(s[i])
  {
    if s == [] then 0 else 10 * Value(s[..|s| - 1]) + DigitValue(s[|s| - 1])
  }

  /** One range of RFC 9110 section 14.1.2: first-last, first to the end, or the last so many bytes. */
  datatype RangeSpec = FromTo(first: nat, last: nat) | From(first: nat) | Suffix(length: nat)

  /** The positions a range selects from a representation of `size` bytes. */
  predicate Selects(spec: RangeSpec, size: nat, at: nat) {
    at < size
    && match spec {
         case FromTo(first, last) => first <= at <= last
         case From(first) => first <= at
         case Suffix(length) => at + length >= size
       }
  }

  const UNIT := "bytes="

  /** `header` is `bytes=<first>-<last>` with at least one of the two numbers. */
  predicate Denotes(header: string, first: string, last: string) {
    header == UNIT + first + "-" + last && Digits(first) && Digits(last) && (first != "" || last != "")
  }

  function SpecOf(first: string, last: string): RangeSpec
    requires Digits(first) && Digits(last)
  {
    if first == "" then Suffix(Value(last))
    else if last == "" then From(Value(first))
    else FromTo(Value(first), Value(last))
  }

  /** The first number ends at the first character after the unit that is not a digit, and that is the dash. */
  lemma DashAfterDigits(header: string, f: string, l: string)
    requires Denotes(header, f, l)
    ensures |UNIT| + |f| < |header| && header[|UNIT| + |f|] == '-'
    ensures forall i :: |UNIT| <= i < |UNIT| + |f| ==> IsDigit(header[i])
    ensures f == header[|UNIT|..|UNIT| + |f|] && l == header[|UNIT| + |f| + 1..]
  {
    assert forall i :: 0 <= i < |f| ==> header[|UNIT| + i] == f[i];
  }

  /** A header reads in one way only. */
  lemma HeaderIsUnambiguous(header: string, f: string, l: string, f': string, l': string)
    requires Denotes(header, f, l) && Denotes(header, f', l')
    ensures f == f' && l == l'
  {
    DashAfterDigits(header, f, l);
    DashAfterDigits(header, f', l');
    assert |f| == |f'|;
  }

  /** The full match of the header pattern. */
  method MatchHeader(header: string) returns (m: Option<(string, string)>)
    ensures m.Some? ==> Denotes(header, m.value.0, m.value.1)
    ensures m.None? ==> forall f, l :: !Denotes(header, f, l)
  {
    var n := |UNIT|;
    if !(UNIT <= header) { return None; }
    var dash := n;
    while dash < |header| && IsDigit(header[dash])
      invariant n <= dash <= |header|
      invariant forall i :: n <= i < dash ==> IsDigit(header[i])
    {
      dash := dash + 1;
    }
    if dash == |header| || header[dash] != '-' {
      forall f, l ensures !Denotes(header, f, l) {
        NoDash(header, dash, f, l);
      }
      return None;
    }
    var first, last := header[n..dash], header[dash + 1..];
    assert header == UNIT + first + "-" + last;
    if !Digits(first) || !Digits(last) || (first == "" && last == "") {
      forall f, l ensures !Denotes(header, f, l) {
        SplitAtDash(header, dash, f, l);
      }
      return None;
    }
    return Some((first, last));
  }

  lemma NoDash(header: string, dash: nat, f: string, l: string)
    requires |UNIT| <= dash <= |header| && forall i :: |UNIT| <= i < dash ==> IsDigit(header[i])
    requires dash == |header| || (!IsDigit(header[dash]) && header[dash] != '-')
    ensures !Denotes(header, f, l)
  {
    if Denotes(header, f, l) {
      DashAfterDigits(header, f, l);
    }
  }

  lemma SplitAtDash(header: string, dash: nat, f: string, l: string)
    requires |UNIT| <= dash < |header| && header[dash] == '-' && forall i :: |UNIT| <= i < dash ==> IsDigit(header[i])
    ensures Denotes(header, f, l) ==> f == header[|UNIT|..dash] && l == header[dash + 1..]
  {
    if Denotes(header, f, l) {
      DashAfterDigits(header, f, l);
      assert dash == |UNIT| + |f|;
    }
  }

  datatype Range = Range(start: nat, end: nat, partial: bool)

  /** `start..end` is exactly what the range selects, and it is not empty. */
  predicate Exactly(r: Range, spec: RangeSpec, size: nat) {
    r.partial && r.start <= r.end < size && forall at :: 0 <= at < size ==> (r.start <= at <= r.end <==> Selects(spec, size, at))
  }

  predicate Satisfiable(spec: RangeSpec, size: nat) {
    exists at :: 0 <= at < size && Selects(spec, size, at)
  }

  /**
   `byte_range`: without a header the whole object; a header is accepted if and only if it is well formed and selects at
   least one byte, and then the answer is exactly the bytes it selects.
   */
  method ByteRange(header: Option<string>, size: nat) returns (r: Option<Range>)
    requires size >= 1
    ensures header.None? ==> r == Some(Range(0, size - 1, false))
    ensures header.Some? ==>
      forall f, l :: Denotes(header.value, f, l) ==>
        (if Satisfiable(SpecOf(f, l), size) then r.Some? && Exactly(r.value, SpecOf(f, l), size) else r.None?)
    ensures header.Some? && r.Some? ==> exists f, l :: Denotes(header.value, f, l)
  {
    if header.None? { return Some(Range(0, size - 1, false)); }
    var m := MatchHeader(header.value);
    if m.None? { return None; }
    var first, last := m.value.0, m.value.1;
    forall f, l | Denotes(header.value, f, l) ensures f == first && l == last {
      HeaderIsUnambiguous(header.value, f, l, first, last);
    }
    if first != "" {
      var start, end := Value(first), if last != "" then Value(last) else size - 1;
      if start >= size || start > end { return None; }
      assert Selects(SpecOf(first, last), size, start);
      return Some(Range(start, if end < size - 1 then end else size - 1, true));
    }
    var length := Value(last);
    if length <= 0 { return None; }
    assert Selects(SpecOf(first, last), size, size - 1);
    return Some(Range(if length < size then size - length else 0, size - 1, true));
  }

  // ---------------------------------------------------------------- a verified copy, streamed

  type Bytes = seq<bv8>

  const CHUNK := 64 * 1024

  type Positive = n: nat | n >= 1 witness 1

  /** What the database recorded of the object; `record` stands for its identifiers, place and name. */
  datatype Reference = Reference(size: Positive, digest: Bytes, versionId: Option<string>, record: nat)

  /** What the storage answers: the bytes, and what it says about them. */
  datatype Body = Body(data: Bytes, length: Option<int>, mediaType: string, digest: Option<Bytes>, versionId: Option<string>)

  const PDF_PREFIX: Bytes := [0x25, 0x50, 0x44, 0x46, 0x2D]

  predicate Genuine(data: Bytes, reference: Reference, digest: Bytes -> Bytes) {
    && |data| == reference.size && digest(data) == reference.digest
    && |data| >= 5 && data[..5] == PDF_PREFIX
  }

  /** What the storage says agrees with what was recorded. */
  predicate Described(body: Body, reference: Reference) {
    && body.length == Some(reference.size) && body.mediaType == "application/pdf" && body.digest == Some(reference.digest)
    && (reference.versionId.Some? ==> body.versionId == reference.versionId)
  }

  /** One turn of the download: a read of this many bytes, none at the end, or an error, or the deadline has passed. */
  datatype BodyRead = Chunk(length: nat) | Broken | PastDeadline

  /** Every read returns something, and there are enough parts for `n` bytes. */
  predicate ReadOut(parts: seq<BodyRead>, n: nat) {
    |parts| >= n && forall i :: 0 <= i < |parts| ==> parts[i].Chunk? && parts[i].length >= 1
  }

  /** Why a reference check or a download ends without a result; the deadline and a cancellation may end any of them. */
  datatype Failure = NotFound | Revoked | Unavailable | DatabaseFailed | DeadlineExceeded | Cancelled

  /** `_download`: metadata first, then chunk by chunk; the storage chooses the length of each read. */
  method Download(got: Option<Body>, parts: seq<BodyRead>, closes: bool, reference: Reference, digest: Bytes -> Bytes)
    returns (r: Result<Bytes, Failure>)
    ensures r.Ok? ==> got.Some? && Described(got.value, reference) && r.value <= got.value.data && Genuine(r.value, reference, digest)
    ensures r.Err? ==> r.error.Unavailable? || (r.error.DeadlineExceeded? && PastDeadline in parts)
    ensures got.Some? && Described(got.value, reference) && Genuine(got.value.data, reference, digest)
            && ReadOut(parts, |got.value.data|) && closes
            ==> r == Ok(got.value.data)
  {
    if got.None? || !Described(got.value, reference) { return Err(Unavailable); }
    var stored := got.value.data;
    var file: Bytes := [];
    var prefix: Bytes := [];
    var turn := 0;
    while turn < |parts|
      invariant file <= stored && turn <= |parts|
      invariant prefix == file[..if |file| < 5 then |file| else 5]
      invariant |file| <= reference.size
      invariant ReadOut(parts, |stored|) ==> |file| >= Least(turn, |stored|)
    {
      if parts[turn].PastDeadline? { return Err(DeadlineExceeded); }
      if parts[turn].Broken? { return Err(Unavailable); }
      var most := Least(Least(CHUNK, reference.size - |file| + 1), |stored| - |file|);
      var n := Least(parts[turn].length, most);
      if n == 0 { break; }
      var chunk := stored[|file|..|file| + n];
      if |file| + n > reference.size { return Err(Unavailable); }
      if |prefix| < 5 {
        prefix := (prefix + chunk)[..Least(5, |prefix + chunk|)];
      }
      file := file + chunk;
      turn := turn + 1;
    }
    assert |file| == |stored| ==> file == stored;
    assert Genuine(stored, reference, digest) && ReadOut(parts, |stored|) ==> |file| == |stored|;
    if |file| != reference.size || digest(file) != reference.digest || prefix != PDF_PREFIX || !closes {
      return Err(Unavailable);
    }
    return Ok(file);
  }

  function Least(a: nat, b: nat): nat {
    if a <= b then a else b
  }

  /** What may happen before a chunk: the reference check fails, or the file returns this many bytes. */
  datatype Turn = CheckFailed | Read(length: nat)

  /**
   `stream`: a chunk at a time, each after a fresh check of the reference.  Whatever happens, the bytes sent are a
   beginning of the range; when it finishes they are the range, as many as the announced length.
   */
  method Stream(file: Bytes, start: nat, end: nat, turns: seq<Turn>) returns (sent: Bytes, finished: bool)
    requires start <= end < |file|
    ensures sent <= file[start..end + 1]
    ensures finished ==> sent == file[start..end + 1] && |sent| == end - start + 1
    ensures |turns| > end - start && (forall i :: 0 <= i < |turns| ==> turns[i].Read? && turns[i].length >= 1) ==> finished
  {
    sent, finished := [], false;
    var remaining := end - start + 1;
    var turn := 0;
    while remaining > 0
      invariant remaining == end - start + 1 - |sent| && sent <= file[start..end + 1]
      invariant 0 <= turn <= |turns|
      invariant (forall i :: 0 <= i < |turns| ==> turns[i].Read? && turns[i].length >= 1) ==> |sent| >= turn
      decreases |turns| - turn
    {
      if turn >= |turns| || turns[turn].CheckFailed? { return; }
      var position := start + |sent|;
      var n := Least(turns[turn].length, Least(CHUNK, remaining));
      if n == 0 { return; }
      var chunk := file[position..position + n];
      assert file[start..end + 1][..|sent| + n] == sent + chunk;
      remaining := remaining - n;
      sent := sent + chunk;
      turn := turn + 1;
    }
    finished := true;
  }

  // ---------------------------------------------------------------- the admission slot

  /** A response owns its temporary file and the slot until it is closed, once. */
  class Response {
    const file: Bytes
    const range: Range
    var closed: bool

    constructor (file: Bytes, range: Range)
      ensures this.file == file && this.range == range && !closed
    {
      this.file, this.range, closed := file, range, false;
    }
  }

  /** The storage holds the genuine object, says so, and hands all of it out. */
  predicate Readable(got: Option<Body>, parts: seq<BodyRead>, closes: bool, reference: Reference, digest: Bytes -> Bytes) {
    && got.Some? && Described(got.value, reference) && Genuine(got.value.data, reference, digest)
    && ReadOut(parts, |got.value.data|) && closes
  }

  /** The range header counts unless `If-Range` names another copy. */
  function RangeOf(header: Option<string>, ifRange: Option<string>, etag: string): Option<string> {
    if ifRange.Some? && ifRange.value != etag then None else header
  }

  /** There is something to serve: no range applies, or it is a good one. */
  ghost predicate RangeServed(header: Option<string>, size: nat) {
    header.Some? ==> exists f, l :: Denotes(header.value, f, l) && Satisfiable(SpecOf(f, l), size)
  }

  datatype Refusal = CapacityExceeded | RangeNotSatisfiable | Failed(why: Failure)

  class SourceViewerService {
    var active: nat
    /** The response that holds the slot, if any. */
    ghost var holder: Option<Response>

    constructor ()
      ensures Valid() && active == 0
    {
      active, holder := 0, None;
    }

    /** The counter counts the responses not closed yet: none or one. */
    ghost predicate Valid()
      reads this, if holder.Some? then {holder.value} else {}
    {
      active == (if holder.Some? then 1 else 0) && (holder.Some? ==> !holder.value.closed)
    }

    /**
     `original`: with the slot taken it refuses at once; otherwise it takes the slot and keeps it exactly when a response
     is handed over.  The response carries a genuine copy and the range the header selects of it.  `first` and `second`
     are the two reads of the reference, `cut` an interruption of the download.
     */
    method Original(header: Option<string>, ifRange: Option<string>, etag: Reference -> string,
                    first: Result<Reference, Failure>, temporary: bool, got: Option<Body>, parts: seq<BodyRead>, closes: bool,
                    digest: Bytes -> Bytes, cut: Option<Failure>, second: Result<Reference, Failure>)
      returns (r: Result<Response, Refusal>)
      requires Valid()
      modifies this
      ensures Valid()
      ensures old(active) > 0 ==> r == Err(CapacityExceeded) && active == old(active) && holder == old(holder)
      ensures r.Err? ==> active == old(active) && holder == old(holder)
      ensures r.Ok? ==> old(active) == 0 && active == 1 && fresh(r.value) && holder == Some(r.value) && first.Ok? && second == first
      ensures old(active) == 0 && first.Err? ==> r == Err(Failed(first.error))
      ensures old(active) == 0 ==>
        (r == Err(RangeNotSatisfiable) <==>
         first.Ok? && !RangeServed(RangeOf(header, ifRange, etag(first.value)), first.value.size))
      ensures old(active) == 0 && first.Ok? && RangeServed(RangeOf(header, ifRange, etag(first.value)), first.value.size)
              && temporary && cut.None? && Readable(got, parts, closes, first.value, digest) && second == first
              ==> (r.Ok? && r.value.file == got.value.data)
      ensures r.Ok? ==> Genuine(r.value.file, first.value, digest) && r.value.range.start <= r.value.range.end < first.value.size
      ensures r.Ok? && RangeOf(header, ifRange, etag(first.value)).None? ==> r.value.range == Range(0, first.value.size - 1, false)
      ensures r.Ok? && RangeOf(header, ifRange, etag(first.value)).Some? ==>
        exists f, l :: Denotes(header.value, f, l) && Exactly(r.value.range, SpecOf(f, l), first.value.size)
    {
      if active > 0 { return Err(CapacityExceeded); }
      active := active + 1;
      if first.Err? {
        active := active - 1;
        return Err(Failed(first.error));
      }
      var reference := first.value;
      var range := ByteRange(RangeOf(header, ifRange, etag(reference)), reference.size);
      if range.None? {
        active := active - 1;
        return Err(RangeNotSatisfiable);
      }
      if !temporary {
        active := active - 1;
        return Err(Failed(Unavailable));
      }
      var copy := Download(got, parts, closes, reference, digest);
      if cut.Some? || copy.Err? || second != first {
        active := active - 1;
        return Err(Failed(if cut.Some? then cut.value
                          else if copy.Err? then copy.error
                          else if second.Err? then second.error
                          else Unavailable));
      }
      var response := new Response(copy.value, range.value);
      holder := Some(response);
      return Ok(response);
    }

    /** `close` of a response this service handed over: the slot is given back once, however often it is called. */
    method Close(response: Response)
      requires Valid() && (!response.closed ==> holder == Some(response))
      modifies this, response
      ensures Valid() && response.closed
      ensures !old(response.closed) ==> active == old(active) - 1 == 0 && holder == None
      ensures old(response.closed) ==> active == old(active) && holder == old(holder)
    {
      if !response.closed {
        response.closed := true;
        active := active - 1;
        holder := None;
      }
    }
  }
}
