/** What every run of leased cleanup keeps: workers, rows, plans, storage and log fit each other. */
module CleanupSafety {
  import opened Common
  import opened Cleanup

  // ---------------------------------------------------------------- appending to the log

  lemma Appended(log: seq<Entry>, x: Entry)
    ensures (log + [x])[..|log|] == log && (log + [x])[|log|] == x
  {
  }

  /** How one more entry moves the holder and the numbers of claims. */
  lemma AppendedHolder(log: seq<Entry>, x: Entry, o: nat)
    ensures Holder(log + [x], o) ==
      if !Touches(x.event, o) then Holder(log, o)
      else if x.event.Claimed? then Some(x.event.claim)
      else if x.event.Marked? || x.event.Released? || x.event.Reaccepted? then None
      else Holder(log, o)
    ensures ClaimsInRound(log + [x], o) ==
      if Renews(x.event, o) then 0 else ClaimsInRound(log, o) + if IsClaimOf(x.event, o) then 1 else 0
    ensures ClaimsOn(log + [x], o) == ClaimsOn(log, o) + if IsClaimOf(x.event, o) then 1 else 0
    ensures Rounds(log + [x], o) == Rounds(log, o) + if Renews(x.event, o) then 1 else 0
  {
    Appended(log, x);
  }

  lemma AppendedCleared(log: seq<Entry>, x: Entry, c: Claim)
    ensures Cleared(log + [x], c) <==> Cleared(log, c) || (Renews(x.event, c.obj) && Has(log, Claimed(c)))
  {
    Appended(log, x);
  }

  lemma HasMore(log: seq<Entry>, x: Entry, e: Event)
    ensures Has(log + [x], e) <==> Has(log, e) || x.event == e
  {
    if Has(log, e) {
      var i :| 0 <= i < |log| && log[i].event == e;
      assert (log + [x])[i].event == e;
    }
    assert (log + [x])[|log|].event == x.event;
    if Has(log + [x], e) {
      var i :| 0 <= i < |log + [x]| && (log + [x])[i].event == e;
      assert i < |log| ==> log[i].event == e;
    }
  }

  /** Entry `i` was justified by the entries before it. */
  lemma {:induction false} EntryIsJustified(service: Service, log: seq<Entry>, i: nat)
    requires LogOk(service, log) && i < |log|
    ensures LogOk(service, log[..i]) && Justified(service, log[..i], log[i])
  {
    hide Justified;
    if i < |log| - 1 {
      EntryIsJustified(service, log[..|log| - 1], i);
      assert log[..|log| - 1][..i] == log[..i];
    }
  }

  lemma {:induction false} TimesGrow(service: Service, log: seq<Entry>, i: nat, j: nat)
    requires LogOk(service, log) && i <= j < |log|
    ensures log[i].at <= log[j].at
  {
    if i < j {
      TimesGrow(service, log, i, j - 1);
      EntryIsJustified(service, log, j);
      assert log[..j][j - 1] == log[j - 1];
    }
  }

  /** An object changes hands only through a claim entry. */
  lemma {:induction false} HolderWasClaimed(log: seq<Entry>, i: nat, j: nat, o: nat) returns (k: nat)
    requires i <= j <= |log| && Holder(log[..j], o).Some? && Holder(log[..i], o) != Holder(log[..j], o)
    ensures i <= k < j && log[k].event == Claimed(Holder(log[..j], o).value)
  {
    assert log[..j][..j - 1] == log[..j - 1];
    if Holder(log[..j - 1], o) == Holder(log[..j], o) {
      k := HolderWasClaimed(log, i, j - 1, o);
    } else {
      k := j - 1;
    }
  }

  // ---------------------------------------------------------------- invariant

  predicate ClaimOk(s: State, c: Claim) {
    c.token < s.nextToken && c.from <= s.clock && c.until == c.from + s.lease && c.obj in s.rows
  }

  /** While its lease runs, a worker's claim is the row's claim, unless the plan was accepted again. */
  predicate Owned(s: State, c: Claim) {
    && ClaimOk(s, c) && Has(s.log, Claimed(c))
    && (s.clock < c.until ==> s.rows[c.obj].claim == Some(c) || Cleared(s.log, c))
  }

  predicate StepOk(s: State, c: Claim, step: Step) {
    match step
    case Seen => Has(s.log, FoundPresent(c))
    case Allowed => s.service.Purge? && Has(s.log, Authorized(c, true))
    case Sent => s.service.Purge? ==> Has(s.log, Authorized(c, true))
    case Confirm => s.service.Purge? ==> Has(s.log, Authorized(c, true))
    case Looking(confirming) => confirming && s.service.Purge? ==> Has(s.log, Authorized(c, true))
    case Gone(p) => Has(s.log, FoundAbsent(c, p))
    case GoneAllowed(p) =>
      Has(s.log, FoundAbsent(c, p)) && (Has(s.log, Authorized(c, true)) || Has(s.log, Authorized(c, false)))
    case Start => true
  }

  predicate PhaseOk(s: State, offset: int, p: Phase) {
    match p
    case Idle => true
    case Asking(started) => started <= s.clock + offset
    case Claiming(started, c) => Owned(s, c) && started <= c.from + offset
    case Working(c, deadline, step) => Owned(s, c) && deadline <= c.until + offset && StepOk(s, c, step)
    case Failed(c) => Owned(s, c)
  }

  predicate WorkersOk(s: State) {
    forall w :: w in s.workers ==> PhaseOk(s, s.workers[w].offset, s.workers[w].phase)
  }

  predicate SameClaim(s: State, v: nat, w: nat)
    requires v in s.workers && w in s.workers
  {
    var c, d := ClaimOf(s.workers[v].phase), ClaimOf(s.workers[w].phase);
    c.Some? && d.Some? && c.value.token == d.value.token
  }

  predicate ClaimsDiffer(s: State) {
    forall v, w :: v in s.workers && w in s.workers && SameClaim(s, v, w) ==> v == w
  }

  /** The row is what the log says, and within its round of attempts. */
  predicate RowOk(s: State, o: nat)
    requires o in s.rows
  {
    var row := s.rows[o];
    && Holder(s.log, o) == row.claim
    && (row.claim.Some? ==> row.claim.value.obj == o && ClaimOk(s, row.claim.value))
    && (s.service.Purge? && !row.marked ==>
          && ClaimsInRound(s.log, o) == row.attempt <= MAX_ATTEMPTS
          && ClaimsOn(s.log, o) <= MAX_ATTEMPTS * Rounds(s.log, o) + row.attempt)
  }

  predicate RowsOk(s: State) {
    forall o :: o in s.rows ==> RowOk(s, o)
  }

  /** A completed plan has nothing left to delete. */
  predicate PlansOk(s: State) {
    s.service.Purge? ==>
      forall o :: o in s.rows ==> s.rows[o].plan in s.plans && (s.plans[s.rows[o].plan].Completed? ==> s.rows[o].marked)
  }

  predicate EntryFits(s: State, x: Entry) {
    && x.at <= s.clock
    && (!x.event.Reaccepted? ==> x.event.claim.token < s.nextToken && x.event.claim.obj in s.rows)
    && (x.event.FoundAbsent? ==>
          var row := s.rows[x.event.claim.obj];
          x.event.puts <= row.puts && (x.event.puts == row.puts ==> !row.present))
  }

  predicate LogFits(s: State) {
    && LogOk(s.service, s.log)
    && (forall i :: 0 <= i < |s.log| ==> EntryFits(s, s.log[i]))
  }

  predicate Inv(s: State) {
    WorkersOk(s) && ClaimsDiffer(s) && RowsOk(s) && PlansOk(s) && LogFits(s)
  }

  lemma InitHolds(s: State)
    requires Init(s)
    ensures Inv(s)
  {
  }

  // ---------------------------------------------------------------- parts that a step leaves alone

  /** Nothing a worker knows depends on the other workers, the plans or what is in flight. */
  lemma PhaseMoves(s: State, t: State, offset: int, p: Phase)
    requires PhaseOk(s, offset, p) && t.log == s.log && t.service == s.service && t.lease == s.lease && t.nextToken == s.nextToken
    requires t.clock >= s.clock && t.rows.Keys == s.rows.Keys && (forall o :: o in s.rows ==> t.rows[o].claim == s.rows[o].claim)
    ensures PhaseOk(t, offset, p)
  {
    hide Has, Cleared;
  }

  lemma RowMoves(s: State, t: State, o: nat)
    requires o in s.rows && RowOk(s, o) && t.log == s.log && t.service == s.service && t.lease == s.lease
    requires t.nextToken >= s.nextToken && t.clock >= s.clock && t.rows.Keys == s.rows.Keys
    requires t.rows[o].claim == s.rows[o].claim && t.rows[o].marked == s.rows[o].marked && t.rows[o].attempt == s.rows[o].attempt
    ensures RowOk(t, o)
  {
    hide Holder, ClaimsInRound, ClaimsOn, Rounds;
  }

  /** Time, storage and what is in flight: rows keep claims, marks and attempts, and the log stays. */
  lemma QuietStep(s: State, t: State)
    requires Inv(s) && t.log == s.log && t.service == s.service && t.lease == s.lease && t.nextToken == s.nextToken
    requires t.workers == s.workers && t.plans == s.plans && t.clock >= s.clock && t.rows.Keys == s.rows.Keys
    requires forall o :: o in s.rows ==>
               && t.rows[o] == s.rows[o].(present := t.rows[o].present, puts := t.rows[o].puts) && t.rows[o].puts >= s.rows[o].puts
               && (t.rows[o].puts == s.rows[o].puts && !s.rows[o].present ==> !t.rows[o].present)
    ensures Inv(t)
  {
    hide PhaseOk, RowOk, LogOk;
    forall w | w in t.workers ensures PhaseOk(t, t.workers[w].offset, t.workers[w].phase) {
      PhaseMoves(s, t, s.workers[w].offset, s.workers[w].phase);
    }
    forall o | o in t.rows ensures RowOk(t, o) {
      RowMoves(s, t, o);
    }
    forall v, u | v in t.workers && u in t.workers && SameClaim(t, v, u) ensures v == u {
      assert SameClaim(s, v, u);
    }
    forall i | 0 <= i < |t.log| ensures EntryFits(t, t.log[i]) {
      assert EntryFits(s, s.log[i]);
    }
  }

  /** A change of one worker's process, which takes no new claim. */
  lemma WorkerChange(s: State, w: nat, x: Worker)
    requires Inv(s) && w in s.workers && PhaseOk(s, x.offset, x.phase)
    requires ClaimOf(x.phase).Some? ==> ClaimOf(x.phase) == ClaimOf(s.workers[w].phase)
    ensures Inv(s.(workers := s.workers[w := x]))
  {
    hide RowOk, LogOk, Has, Cleared, StepOk;
    var t := s.(workers := s.workers[w := x]);
    forall v | v in t.workers ensures PhaseOk(t, t.workers[v].offset, t.workers[v].phase) {
      PhaseMoves(s, t, t.workers[v].offset, t.workers[v].phase);
    }
    forall v, u | v in t.workers && u in t.workers && SameClaim(t, v, u) ensures v == u {
      assert SameClaim(s, v, u);
    }
    forall o | o in t.rows ensures RowOk(t, o) {
      RowMoves(s, t, o);
    }
    forall i | 0 <= i < |t.log| ensures EntryFits(t, t.log[i]) {
      assert EntryFits(s, s.log[i]);
    }
  }

  lemma PhaseChange(s: State, w: nat, p: Phase)
    requires Inv(s) && w in s.workers && PhaseOk(s, s.workers[w].offset, p)
    requires ClaimOf(p).Some? ==> ClaimOf(p) == ClaimOf(s.workers[w].phase)
    ensures Inv(Go(s, w, p))
  {
    hide Inv, PhaseOk;
    WorkerChange(s, w, s.workers[w].(phase := p));
  }

  // ---------------------------------------------------------------- entries

  lemma StepSurvives(s: State, t: State, x: Entry, c: Claim, step: Step)
    requires StepOk(s, c, step) && t.log == s.log + [x] && t.service == s.service
    ensures StepOk(t, c, step)
  {
    hide Has;
    HasMore(s.log, x, FoundPresent(c));
    HasMore(s.log, x, Authorized(c, true));
    HasMore(s.log, x, Authorized(c, false));
    if step.Gone? || step.GoneAllowed? {
      HasMore(s.log, x, FoundAbsent(c, step.puts));
    }
  }

  /** What a worker knows outlives an entry, if its row keeps its claim or the entry clears it. */
  lemma PhaseSurvives(s: State, t: State, x: Entry, offset: int, p: Phase)
    requires PhaseOk(s, offset, p) && t.log == s.log + [x] && t.service == s.service && t.lease == s.lease
    requires t.clock == s.clock && t.nextToken >= s.nextToken && t.rows.Keys == s.rows.Keys
    requires ClaimOf(p).Some? ==>
               var c := ClaimOf(p).value;
               c.obj in s.rows && s.rows[c.obj].claim == Some(c) && s.clock < c.until ==>
                 t.rows[c.obj].claim == Some(c) || Renews(x.event, c.obj)
    ensures PhaseOk(t, offset, p)
  {
    hide Has, Cleared, StepOk;
    if ClaimOf(p).Some? {
      HasMore(s.log, x, Claimed(ClaimOf(p).value));
      AppendedCleared(s.log, x, ClaimOf(p).value);
    }
    if p.Working? {
      StepSurvives(s, t, x, p.claim, p.step);
    }
  }

  /** A justified entry beside storage that is untouched. */
  lemma LogGrows(s: State, t: State, x: Entry)
    requires LogFits(s) && Justified(s.service, s.log, x) && x.at == s.clock == t.clock && t.service == s.service
    requires t.log == s.log + [x] && t.nextToken >= s.nextToken && t.rows.Keys == s.rows.Keys
    requires !x.event.Reaccepted? ==> x.event.claim.token < t.nextToken && x.event.claim.obj in s.rows
    requires x.event.FoundAbsent? ==> x.event.puts == s.rows[x.event.claim.obj].puts && !s.rows[x.event.claim.obj].present
    requires forall o :: o in s.rows ==> t.rows[o].puts == s.rows[o].puts && t.rows[o].present == s.rows[o].present
    ensures LogFits(t)
  {
    hide Justified;
    Appended(s.log, x);
    forall i | 0 <= i < |t.log| ensures EntryFits(t, t.log[i]) {
      if i < |s.log| {
        assert EntryFits(s, s.log[i]);
      }
    }
  }

  lemma LastEntry(s: State)
    requires LogFits(s)
    ensures s.log != [] ==> s.log[|s.log| - 1].at <= s.clock
  {
    assert s.log != [] ==> EntryFits(s, s.log[|s.log| - 1]);
  }

  /** Recording a justified entry that gives or takes no claim. */
  lemma QuietEntry(s: State, e: Event)
    requires Inv(s) && Justified(s.service, s.log, Entry(s.clock, e))
    requires e.FoundPresent? || e.FoundAbsent? || e.Authorized? || e.Deleted?
    requires e.claim.token < s.nextToken && e.claim.obj in s.rows
    requires e.FoundAbsent? ==> e.puts == s.rows[e.claim.obj].puts && !s.rows[e.claim.obj].present
    ensures Inv(Record(s, e)) && Has(Record(s, e).log, e)
  {
    hide PhaseOk, LogOk, Justified, Has;
    var t, x := Record(s, e), Entry(s.clock, e);
    HasMore(s.log, x, e);
    forall w | w in t.workers ensures PhaseOk(t, t.workers[w].offset, t.workers[w].phase) {
      PhaseSurvives(s, t, x, s.workers[w].offset, s.workers[w].phase);
    }
    forall v, u | v in t.workers && u in t.workers && SameClaim(t, v, u) ensures v == u {
      assert SameClaim(s, v, u);
    }
    forall o | o in t.rows ensures RowOk(t, o) {
      assert RowOk(s, o);
      AppendedHolder(s.log, x, o);
    }
    LogGrows(s, t, x);
  }

  // ---------------------------------------------------------------- claims

  lemma TokenIsFresh(s: State, c: Claim)
    requires LogFits(s) && c.token >= s.nextToken
    ensures !Has(s.log, Claimed(c))
  {
    assert forall i :: 0 <= i < |s.log| ==> EntryFits(s, s.log[i]);
  }

  /** A new claim is fresh, and takes the row only from a lease that has ended. */
  lemma GrantIsJustified(s: State, c: Claim)
    requires Inv(s) && Claimable(s, c.obj) && c.token == s.nextToken && c.from == s.clock
    ensures Justified(s.service, s.log, Entry(s.clock, Claimed(c)))
  {
    hide LogOk, PhaseOk;
    assert RowOk(s, c.obj);
    TokenIsFresh(s, c);
    LastEntry(s);
  }

  lemma GrantedRow(s: State, w: nat, o: nat, r: nat)
    requires Inv(s) && Enabled(s, Grant(w, o)) && r in s.rows
    ensures RowOk(Next(s, Grant(w, o)), r)
  {
    hide LogOk, PhaseOk, ClaimsDiffer, EntryFits, Holder, ClaimsInRound, ClaimsOn, Rounds;
    assert RowOk(s, r);
    AppendedHolder(s.log, Entry(s.clock, Claimed(Claim(o, s.nextToken, s.clock, s.clock + s.lease))), r);
  }

  lemma GrantedPhase(s: State, w: nat, o: nat, v: nat)
    requires Inv(s) && Enabled(s, Grant(w, o)) && v in s.workers
    ensures var t := Next(s, Grant(w, o)); PhaseOk(t, t.workers[v].offset, t.workers[v].phase)
  {
    hide LogOk, RowOk, ClaimsDiffer, EntryFits, Has, Cleared, StepOk;
    var t := Next(s, Grant(w, o));
    var x := Entry(s.clock, Claimed(Claim(o, s.nextToken, s.clock, s.clock + s.lease)));
    HasMore(s.log, x, x.event);
    assert PhaseOk(s, s.workers[v].offset, s.workers[v].phase);
    if v != w { PhaseSurvives(s, t, x, s.workers[v].offset, s.workers[v].phase); }
  }

  lemma GrantedClaimsDiffer(s: State, w: nat, o: nat)
    requires Inv(s) && Enabled(s, Grant(w, o))
    ensures ClaimsDiffer(Next(s, Grant(w, o)))
  {
    hide LogOk, RowOk, EntryFits, Has, Cleared, StepOk;
    var t := Next(s, Grant(w, o));
    forall v, u | v in t.workers && u in t.workers && SameClaim(t, v, u) ensures v == u {
      assert PhaseOk(s, s.workers[v].offset, s.workers[v].phase) && PhaseOk(s, s.workers[u].offset, s.workers[u].phase);
      assert v != w && u != w ==> SameClaim(s, v, u);
    }
  }

  lemma GrantKeepsInv(s: State, w: nat, o: nat)
    requires Inv(s) && Enabled(s, Grant(w, o))
    ensures Inv(Next(s, Grant(w, o)))
  {
    hide PhaseOk, RowOk, LogOk, Justified, ClaimsDiffer, LogFits;
    var t := Next(s, Grant(w, o));
    var c := Claim(o, s.nextToken, s.clock, s.clock + s.lease);
    GrantIsJustified(s, c);
    LogGrows(s, t, Entry(s.clock, Claimed(c)));
    forall v | v in t.workers ensures PhaseOk(t, t.workers[v].offset, t.workers[v].phase) { GrantedPhase(s, w, o, v); }
    GrantedClaimsDiffer(s, w, o);
    forall r | r in t.rows ensures RowOk(t, r) { GrantedRow(s, w, o, r); }
  }

  /** Giving a claim up, marked deleted or not: no other worker relied on it. */
  lemma DropKeepsInv(s: State, t: State, w: nat, c: Claim, row: Row, e: Event)
    requires Inv(s) && w in s.workers && ClaimOf(s.workers[w].phase) == Some(c) && Current(s, c)
    requires row.claim.None? && row.present == s.rows[c.obj].present && row.puts == s.rows[c.obj].puts && row.plan == s.rows[c.obj].plan
    requires row.marked || row == s.rows[c.obj].(claim := None)
    requires e.Marked? || e.Released?
    requires e.claim == c && Justified(s.service, s.log, Entry(s.clock, e))
    requires t == Go(Record(Put(s.(plans := t.plans), c.obj, row), e), w, Idle) && PlansOk(t)
    ensures Inv(t)
  {
    hide PhaseOk, LogOk, Justified, LogFits, PlansOk;
    var x := Entry(s.clock, e);
    OwnClaim(s, w, c);
    LogGrows(s, t, x);
    forall v | v in t.workers ensures PhaseOk(t, t.workers[v].offset, t.workers[v].phase) {
      DroppedPhase(s, t, w, c, x, v);
    }
    forall v, u | v in t.workers && u in t.workers && SameClaim(t, v, u) ensures v == u {
      assert SameClaim(s, v, u);
    }
    forall o | o in t.rows ensures RowOk(t, o) {
      assert RowOk(s, o);
      AppendedHolder(s.log, x, o);
    }
  }

  lemma OwnClaim(s: State, w: nat, c: Claim)
    requires Inv(s) && w in s.workers && ClaimOf(s.workers[w].phase) == Some(c)
    ensures Owned(s, c)
  {
    assert PhaseOk(s, s.workers[w].offset, s.workers[w].phase);
  }

  lemma DroppedPhase(s: State, t: State, w: nat, c: Claim, x: Entry, v: nat)
    requires Inv(s) && w in s.workers && v in s.workers && ClaimOf(s.workers[w].phase) == Some(c) && Current(s, c)
    requires t.log == s.log + [x] && t.service == s.service && t.lease == s.lease && t.clock == s.clock && t.nextToken == s.nextToken
    requires c.obj in t.rows && t.rows == s.rows[c.obj := t.rows[c.obj]]
    requires t.workers == s.workers[w := s.workers[w].(phase := Idle)]
    ensures PhaseOk(t, t.workers[v].offset, t.workers[v].phase)
  {
    hide LogOk, RowOk, EntryFits, Has, Cleared, StepOk, Owned;
    assert PhaseOk(s, s.workers[v].offset, s.workers[v].phase);
    if v != w {
      assert !SameClaim(s, v, w);
      PhaseSurvives(s, t, x, s.workers[v].offset, s.workers[v].phase);
    }
  }

  // ---------------------------------------------------------------- steps of a worker

  /** A claim that runs and was not cleared holds the row. */
  lemma OwnedIsInLease(s: State, c: Claim)
    requires Inv(s) && Owned(s, c) && s.clock < c.until
    ensures Holder(s.log, c.obj) == Some(c) || Cleared(s.log, c)
    ensures Current(s, c) ==> InLease(s.log, c, s.clock)
    ensures s.log != [] ==> s.log[|s.log| - 1].at <= s.clock
  {
    hide LogOk, PhaseOk;
    assert RowOk(s, c.obj);
    LastEntry(s);
  }

  lemma {:induction false} OnlyPurgesClear(service: Service, log: seq<Entry>, c: Claim)
    requires LogOk(service, log) && !service.Purge?
    ensures !Cleared(log, c)
  {
    if log != [] {
      OnlyPurgesClear(service, log[..|log| - 1], c);
    }
  }

  /** The heart of the protocol: a DELETE sent before the local deadline is sent before the lease ends. */
  lemma SendDeleteKeepsInv(s: State, w: nat)
    requires Inv(s) && Enabled(s, SendDelete(w))
    ensures Inv(Next(s, SendDelete(w)))
  {
    hide LogOk, RowOk, ClaimsDiffer, EntryFits, Has, Cleared, Holder, PlansOk, RowsOk;
    var p := s.workers[w].phase;
    var r := Record(s, Deleted(p.claim));
    DeleteIsJustified(s, w);
    QuietEntry(s, Deleted(p.claim));
    assert PhaseOk(r, r.workers[w].offset, r.workers[w].phase);
    PhaseChange(r, w, p.(step := Sent));
    QuietStep(Go(r, w, p.(step := Sent)), Next(s, SendDelete(w)));
  }

  lemma DeleteIsJustified(s: State, w: nat)
    requires Inv(s) && Enabled(s, SendDelete(w))
    ensures var c := s.workers[w].phase.claim;
            Owned(s, c) && Justified(s.service, s.log, Entry(s.clock, Deleted(c)))
  {
    hide RowOk, ClaimsDiffer, EntryFits, Has, Cleared, Holder, PlansOk, RowsOk, LogOk;
    var c := s.workers[w].phase.claim;
    assert PhaseOk(s, s.workers[w].offset, s.workers[w].phase);
    OwnedIsInLease(s, c);
    if !s.service.Purge? { OnlyPurgesClear(s.service, s.log, c); }
  }

  lemma ReadHeadKeepsInv(s: State, w: nat)
    requires Inv(s) && Enabled(s, ReadHead(w))
    ensures Inv(Next(s, ReadHead(w)))
  {
    hide LogOk, RowOk, ClaimsDiffer, EntryFits, Has, Cleared, PlansOk, RowsOk;
    var p := s.workers[w].phase;
    assert PhaseOk(s, s.workers[w].offset, p);
    LastEntry(s);
    var row := s.rows[p.claim.obj];
    if row.present && p.step.confirming {
      PhaseChange(s, w, if s.service.Purge? then Failed(p.claim) else Idle);
    } else {
      var e := if row.present then FoundPresent(p.claim) else FoundAbsent(p.claim, row.puts);
      QuietEntry(s, e);
      var r := Record(s, e);
      assert PhaseOk(r, r.workers[w].offset, r.workers[w].phase);
      PhaseChange(r, w, Next(s, ReadHead(w)).workers[w].phase);
    }
  }

  lemma AuthorizeKeepsInv(s: State, w: nat)
    requires Inv(s) && Enabled(s, Authorize(w))
    ensures Inv(Next(s, Authorize(w)))
  {
    hide LogOk, RowOk, ClaimsDiffer, EntryFits, Has, Cleared, PlansOk, RowsOk, Holder, Open;
    var p := s.workers[w].phase;
    assert PhaseOk(s, s.workers[w].offset, p);
    if !Current(s, p.claim) || !Open(s, p.claim.obj) {
      PhaseChange(s, w, Failed(p.claim));
    } else {
      OwnedIsInLease(s, p.claim);
      var e := Authorized(p.claim, p.step.Seen?);
      QuietEntry(s, e);
      var r := Record(s, e);
      assert PhaseOk(r, r.workers[w].offset, r.workers[w].phase);
      PhaseChange(r, w, p.(step := if p.step.Seen? then Allowed else GoneAllowed(p.step.puts)));
    }
  }

  lemma MarkedPlans(s: State, w: nat)
    requires Inv(s) && Enabled(s, Mark(w))
    ensures PlansOk(Next(s, Mark(w)))
  {
    hide LogOk, RowOk, ClaimsDiffer, EntryFits, Has, Cleared, PhaseOk, Holder;
  }

  lemma MarkKeepsInv(s: State, w: nat)
    requires Inv(s) && Enabled(s, Mark(w))
    ensures Inv(Next(s, Mark(w)))
  {
    hide LogOk, RowOk, ClaimsDiffer, EntryFits, Has, Cleared, PlansOk, RowsOk, Holder, Open, Finishes;
    var p := s.workers[w].phase;
    assert PhaseOk(s, s.workers[w].offset, p);
    if !Current(s, p.claim) || !Open(s, p.claim.obj) {
      PhaseChange(s, w, if s.service.Purge? then Failed(p.claim) else Idle);
    } else {
      OwnedIsInLease(s, p.claim);
      MarkedPlans(s, w);
      DropKeepsInv(s, Next(s, Mark(w)), w, p.claim, s.rows[p.claim.obj].(claim := None, marked := true, attempt := 0),
                   Marked(p.claim, p.step.puts));
    }
  }

  lemma ReleasedPlans(s: State, w: nat)
    requires Inv(s) && Enabled(s, Reschedule(w))
    ensures PlansOk(Next(s, Reschedule(w)))
  {
    hide LogOk, RowOk, ClaimsDiffer, EntryFits, Has, Cleared, PhaseOk, Holder;
  }

  lemma RescheduleKeepsInv(s: State, w: nat)
    requires Inv(s) && Enabled(s, Reschedule(w))
    ensures Inv(Next(s, Reschedule(w)))
  {
    hide LogOk, RowOk, ClaimsDiffer, EntryFits, Has, Cleared, PlansOk, RowsOk, Holder, Open;
    var c := s.workers[w].phase.claim;
    assert PhaseOk(s, s.workers[w].offset, s.workers[w].phase);
    if !Current(s, c) || !Open(s, c.obj) {
      PhaseChange(s, w, Idle);
    } else {
      LastEntry(s);
      ReleasedPlans(s, w);
      DropKeepsInv(s, Next(s, Reschedule(w)), w, c, s.rows[c.obj].(claim := None), Released(c));
    }
  }

  /** Receiving a claim never postpones its end: the query was sent before the row was updated. */
  lemma PhaseStepKeepsInv(s: State, a: Action, w: nat)
    requires Inv(s) && Enabled(s, a)
    requires a == Ask(w) || (a.Receive? && a.w == w) || a == SendHead(w) || a == DeleteAnswered(w) || a == Fail(w)
    ensures Inv(Next(s, a))
  {
    hide LogOk, RowOk, ClaimsDiffer, EntryFits, Has, Cleared, PlansOk, RowsOk;
    assert PhaseOk(s, s.workers[w].offset, s.workers[w].phase);
    PhaseChange(s, w, Next(s, a).workers[w].phase);
  }

  // ---------------------------------------------------------------- steps of plans, storage and processes

  lemma FailPlanKeepsInv(s: State, p: nat)
    requires Inv(s) && Enabled(s, FailPlan(p))
    ensures Inv(Next(s, FailPlan(p)))
  {
    hide LogOk, PhaseOk, RowOk;
    var t := Next(s, FailPlan(p));
    forall w | w in t.workers ensures PhaseOk(t, t.workers[w].offset, t.workers[w].phase) {
      PhaseMoves(s, t, s.workers[w].offset, s.workers[w].phase);
    }
    forall v, u | v in t.workers && u in t.workers && SameClaim(t, v, u) ensures v == u {
      assert SameClaim(s, v, u);
    }
    forall o | o in t.rows ensures RowOk(t, o) { RowMoves(s, t, o); }
    forall i | 0 <= i < |t.log| ensures EntryFits(t, t.log[i]) { assert EntryFits(s, s.log[i]); }
  }

  lemma RenewedRow(s: State, p: nat, o: nat)
    requires Inv(s) && Enabled(s, Accept(p)) && o in s.rows
    ensures RowOk(Next(s, Accept(p)), o)
  {
    hide LogOk, PhaseOk, ClaimsDiffer, EntryFits, Holder, ClaimsInRound, ClaimsOn, Rounds;
    assert RowOk(s, o);
    AppendedHolder(s.log, Entry(s.clock, Reaccepted(Remaining(s, p))), o);
  }

  /** Accepting a plan again: its rows start over, and every claim on them is cleared. */
  lemma AcceptKeepsInv(s: State, p: nat)
    requires Inv(s) && Enabled(s, Accept(p))
    ensures Inv(Next(s, Accept(p)))
  {
    hide LogOk, PhaseOk, RowOk, LogFits;
    var t, x := Next(s, Accept(p)), Entry(s.clock, Reaccepted(Remaining(s, p)));
    LastEntry(s);
    LogGrows(s, t, x);
    forall w | w in t.workers ensures PhaseOk(t, t.workers[w].offset, t.workers[w].phase) {
      PhaseSurvives(s, t, x, s.workers[w].offset, s.workers[w].phase);
    }
    forall v, u | v in t.workers && u in t.workers && SameClaim(t, v, u) ensures v == u {
      assert SameClaim(s, v, u);
    }
    forall o | o in t.rows ensures RowOk(t, o) { RenewedRow(s, p, o); }
  }

  /** Time and storage change no claim; a stopped or restarted process holds no claim it did not hold. */
  lemma OutsideKeepsInv(s: State, a: Action)
    requires Inv(s) && Enabled(s, a)
    requires a.Tick? || a.PutLands? || a.DeleteLands? || a.Stop? || a.Restart?
    ensures Inv(Next(s, a))
  {
    hide Inv, PhaseOk;
    if a.Stop? || a.Restart? {
      PhaseOfWorker(s, a.w);
      WorkerChange(s, a.w, Next(s, a).workers[a.w]);
    } else {
      QuietStep(s, Next(s, a));
    }
  }

  lemma PhaseOfWorker(s: State, w: nat)
    requires Inv(s) && w in s.workers
    ensures PhaseOk(s, s.workers[w].offset, s.workers[w].phase)
    ensures forall offset :: PhaseOk(s, offset, Idle)
  {
  }

  lemma StepKeepsInv(s: State, a: Action)
    requires Inv(s) && Enabled(s, a)
    ensures Inv(Next(s, a))
  {
    hide Inv, Next;
    match a
    case Grant(w, o) => GrantKeepsInv(s, w, o);
    case ReadHead(w) => ReadHeadKeepsInv(s, w);
    case Authorize(w) => AuthorizeKeepsInv(s, w);
    case SendDelete(w) => SendDeleteKeepsInv(s, w);
    case Mark(w) => MarkKeepsInv(s, w);
    case Reschedule(w) => RescheduleKeepsInv(s, w);
    case FailPlan(p) => FailPlanKeepsInv(s, p);
    case Accept(p) => AcceptKeepsInv(s, p);
    case Ask(w) => PhaseStepKeepsInv(s, a, w);
    case Receive(w, _) => PhaseStepKeepsInv(s, a, w);
    case SendHead(w) => PhaseStepKeepsInv(s, a, w);
    case DeleteAnswered(w) => PhaseStepKeepsInv(s, a, w);
    case Fail(w) => PhaseStepKeepsInv(s, a, w);
    case _ => OutsideKeepsInv(s, a);
  }

  lemma {:induction false} RunKeepsInv(s: State, actions: seq<Action>, t: State)
    requires Inv(s) && Run(s, actions, t)
    ensures Inv(t)
    decreases |actions|
  {
    hide Inv, Next, Enabled;
    if actions != [] {
      StepKeepsInv(s, actions[0]);
      RunKeepsInv(Next(s, actions[0]), actions[1..], t);
    }
  }

  lemma {:induction false} RunKeepsService(s: State, actions: seq<Action>, t: State)
    requires Run(s, actions, t)
    ensures t.service == s.service && t.rows.Keys == s.rows.Keys
    decreases |actions|
  {
    if actions != [] {
      StepKeepsService(s, actions[0]);
      RunKeepsService(Next(s, actions[0]), actions[1..], t);
    }
  }

  lemma StepKeepsService(s: State, a: Action)
    requires Enabled(s, a)
    ensures Next(s, a).service == s.service && Next(s, a).rows.Keys == s.rows.Keys
  {
    hide Open, Finishes, PlanIs, Live, Remaining;
  }
}
