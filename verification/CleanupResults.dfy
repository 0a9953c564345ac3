/** What holds of every run of leased cleanup: when DELETEs are sent, by whom, and how often an object is tried. */
module CleanupResults {
  import opened Common
  import opened Cleanup
  import opened CleanupSafety

  /** `x` is a DELETE sent under claim `c`. */
  predicate IsDelete(x: Entry, c: Claim) {
    x.event == Deleted(c)
  }

  // ---------------------------------------------------------------- deletes and leases

  lemma HasAt(log: seq<Entry>, n: nat, e: Event) returns (i: nat)
    requires n <= |log| && Has(log[..n], e)
    ensures i < n && log[i].event == e
  {
    i :| 0 <= i < n && log[..n][i].event == e;
  }

  /** What was cleared was claimed, and then an acceptance renewed its object. */
  lemma {:induction false} ClearedAt(log: seq<Entry>, n: nat, c: Claim) returns (r: nat)
    requires n <= |log| && Cleared(log[..n], c)
    ensures r < n && Renews(log[r].event, c.obj) && Has(log[..r], Claimed(c))
  {
    assert log[..n][..n - 1] == log[..n - 1];
    if Cleared(log[..n - 1], c) {
      r := ClearedAt(log, n - 1, c);
    } else {
      r := n - 1;
    }
  }

  lemma ClaimedOnce(t: State, i: nat, j: nat, c: Claim)
    requires LogOk(t.service, t.log) && i < j < |t.log| && t.log[i].event == Claimed(c)
    ensures t.log[j].event != Claimed(c)
  {
    EntryIsJustified(t.service, t.log, j);
    assert t.log[..j][i].event == Claimed(c);
  }

  /** A claim that holds its object was not cleared before. */
  lemma HolderIsNotCleared(t: State, r: nat, a: nat, c: Claim)
    requires LogOk(t.service, t.log) && r < a <= |t.log| && Renews(t.log[r].event, c.obj) && Has(t.log[..r], Claimed(c))
    ensures Holder(t.log[..a], c.obj) != Some(c)
  {
    if Holder(t.log[..a], c.obj) == Some(c) {
      assert t.log[..r + 1][..r] == t.log[..r];
      assert Holder(t.log[..r + 1], c.obj) == None;
      var k := HolderWasClaimed(t.log, r + 1, a, c.obj);
      var i := HasAt(t.log, r, Claimed(c));
      ClaimedOnce(t, i, k, c);
    }
  }

  /**
   Every DELETE of every run is sent before its claim's lease ends, after a HEAD under the same claim found the object and,
   for a purge, after an authorization at which the database held the object for exactly that claim.
   */
  lemma DeletesStayInLease(s: State, actions: seq<Action>, t: State, j: nat, c: Claim) returns (h: nat, a: nat)
    requires Init(s) && Run(s, actions, t) && j < |t.log| && IsDelete(t.log[j], c)
    ensures c.from <= t.log[j].at < c.until
    ensures h <= a <= j && t.log[h].event == FoundPresent(c)
    ensures if s.service.Purge? then a < j && t.log[a].event == Authorized(c, true) else a == j
    ensures Holder(t.log[..a], c.obj) == Some(c)
  {
    hide Holder, Has, Cleared;
    InitHolds(s);
    RunKeepsInv(s, actions, t);
    RunKeepsService(s, actions, t);
    EntryIsJustified(t.service, t.log, j);
    if t.service.Purge? {
      a := HasAt(t.log, j, Authorized(c, true));
      EntryIsJustified(t.service, t.log, a);
      h := HasAt(t.log, a, FoundPresent(c));
    } else {
      a := j;
      h := HasAt(t.log, j, FoundPresent(c));
    }
  }

  /**
   When the DELETE is sent, the database still holds the object for that claim, unless the plan was accepted again between
   the authorization and the DELETE.
   */
  lemma DeletesHoldOrWereCleared(s: State, actions: seq<Action>, t: State, j: nat, c: Claim)
    requires Init(s) && Run(s, actions, t) && j < |t.log| && IsDelete(t.log[j], c) && Holder(t.log[..j], c.obj) != Some(c)
    ensures s.service.Purge?
    ensures exists a, r :: 0 <= a < r < j && t.log[a].event == Authorized(c, true) && Renews(t.log[r].event, c.obj)
  {
    hide Holder, Has, Cleared, Run, Init, WorkersOk, ClaimsDiffer, RowsOk, PlansOk, EntryFits;
    var h, a := DeletesStayInLease(s, actions, t, j, c);
    InitHolds(s);
    RunKeepsInv(s, actions, t);
    RunKeepsService(s, actions, t);
    EntryIsJustified(t.service, t.log, j);
    var r := ClearedAt(t.log, j, c);
    if r < a { HolderIsNotCleared(t, r, a, c); }
    assert t.log[a].event == Authorized(c, true) && Renews(t.log[r].event, c.obj);
  }

  // ---------------------------------------------------------------- one claim after another

  lemma {:induction false} ClearedStays(log: seq<Entry>, n: nat, c: Claim)
    requires n <= |log| && Cleared(log[..n], c)
    ensures Cleared(log, c)
    decreases |log| - n
  {
    if n < |log| {
      assert log[..n + 1][..n] == log[..n];
      ClearedStays(log, n + 1, c);
    } else {
      assert log[..n] == log;
    }
  }

  /** Once another claim on the object was granted, no DELETE is sent under an earlier one that was not cleared. */
  lemma EarlierClaimIsOver(t: State, m: nat, k: nat, x: nat, c: Claim, d: Claim)
    requires LogOk(t.service, t.log) && m < k < x < |t.log| && t.log[m].event == Claimed(c) && t.log[k].event == Claimed(d)
    requires c.obj == d.obj && c != d && !Cleared(t.log, c)
    ensures !IsDelete(t.log[x], c)
  {
    EntryIsJustified(t.service, t.log, x);
    if Cleared(t.log[..x], c) { ClearedStays(t.log, x, c); }
    if Holder(t.log[..x], c.obj) == Some(c) {
      assert t.log[..k + 1][..k] == t.log[..k];
      assert Holder(t.log[..k + 1], c.obj) == Some(d);
      var y := HolderWasClaimed(t.log, k + 1, x, c.obj);
      ClaimedOnce(t, m, y, c);
    }
  }

  /**
   DELETEs of one object under two claims never interleave, if neither claim was cleared: all those of the earlier claim are
   sent before the later claim begins, and it begins only when the earlier one was given up or its lease had ended.
   */
  lemma ClaimsNeverInterleave(s: State, actions: seq<Action>, t: State, i: nat, j: nat, c: Claim, d: Claim)
    returns (k: nat)
    requires Init(s) && Run(s, actions, t) && i < j < |t.log| && !Cleared(t.log, c) && !Cleared(t.log, d)
    requires IsDelete(t.log[i], c) && IsDelete(t.log[j], d) && c.obj == d.obj && c != d
    ensures i < k < j && t.log[k].event == Claimed(d)
    ensures t.log[i].at <= d.from <= t.log[j].at
    ensures c.until <= d.from || Holder(t.log[..k], c.obj) != Some(c)
    ensures forall x :: k < x < |t.log| ==> !IsDelete(t.log[x], c)
  {
    InitHolds(s);
    RunKeepsInv(s, actions, t);
    HoldsAtDelete(t, i, c);
    HoldsAtDelete(t, j, d);
    k := HolderWasClaimed(t.log, i, j, c.obj);
    EntryIsJustified(t.service, t.log, k);
    TimesGrow(t.service, t.log, i, k);
    TimesGrow(t.service, t.log, k, j);
    assert Holder(t.log[..0], c.obj) == None;
    var m := HolderWasClaimed(t.log, 0, i, c.obj);
    forall x | k < x < |t.log| ensures !IsDelete(t.log[x], c) {
      EarlierClaimIsOver(t, m, k, x, c, d);
    }
  }

  lemma HoldsAtDelete(t: State, i: nat, c: Claim)
    requires LogOk(t.service, t.log) && i < |t.log| && IsDelete(t.log[i], c) && !Cleared(t.log, c)
    ensures Holder(t.log[..i], c.obj) == Some(c)
  {
    EntryIsJustified(t.service, t.log, i);
    if Cleared(t.log[..i], c) { ClearedStays(t.log, i, c); }
  }

  // ---------------------------------------------------------------- one deleter at a time

  /** The worker may send a DELETE without asking the database again. */
  predicate MaySend(s: State, w: nat) {
    Enabled(s, SendDelete(w))
  }

  predicate HoldsRow(s: State, w: nat)
    requires w in s.workers && s.workers[w].phase.Working?
  {
    var c := s.workers[w].phase.claim;
    c.obj in s.rows && s.rows[c.obj].claim == Some(c)
  }

  /** Whoever may send a DELETE holds the object. */
  predicate DeletersHold(s: State) {
    forall w :: w in s.workers && MaySend(s, w) ==> HoldsRow(s, w)
  }

  /** The worker may send a DELETE for an object its plan still has to delete. */
  predicate AtWorkOn(s: State, w: nat, p: nat) {
    MaySend(s, w) && s.workers[w].phase.claim.obj in Remaining(s, p)
  }

  /** A plan is accepted again while a worker may still send a DELETE for one of its objects. */
  predicate Harmful(s: State, a: Action) {
    a.Accept? && Enabled(s, a) && exists w :: w in s.workers && AtWorkOn(s, w, a.p)
  }

  lemma SenderIsInLease(s: State, w: nat)
    requires Inv(s) && MaySend(s, w)
    ensures Owned(s, s.workers[w].phase.claim) && s.clock < s.workers[w].phase.claim.until
    ensures !s.service.Purge? ==> HoldsRow(s, w)
  {
    hide RowOk, ClaimsDiffer, EntryFits, Has, Cleared, Holder, PlansOk, RowsOk, LogOk;
    assert PhaseOk(s, s.workers[w].offset, s.workers[w].phase);
    if !s.service.Purge? { OnlyPurgesClear(s.service, s.log, s.workers[w].phase.claim); }
  }

  /** The claims of two workers differ, so only one of them holds the row. */
  lemma HoldersAreOne(s: State, v: nat, w: nat)
    requires Inv(s) && v in s.workers && w in s.workers && ClaimOf(s.workers[v].phase).Some? && ClaimOf(s.workers[v].phase) == ClaimOf(s.workers[w].phase)
    ensures v == w
  {
    assert SameClaim(s, v, w);
  }

  /** Who changes the claim of a row: a grant, the claim's own worker giving it up, or an acceptance. */
  lemma ClaimChanges(s: State, a: Action, o: nat)
    requires Enabled(s, a) && o in s.rows && o in Next(s, a).rows && Next(s, a).rows[o].claim != s.rows[o].claim
    ensures a.Grant? || a.Mark? || a.Reschedule? || a.Accept?
    ensures a.Grant? ==> a.o == o
    ensures a.Mark? || a.Reschedule? ==> s.rows[o].claim.Some? && ClaimOf(s.workers[a.w].phase) == s.rows[o].claim
    ensures a.Accept? ==> o in Remaining(s, a.p)
  {
    hide Open, Finishes, PlanIs, Live;
  }

  /** A worker that gives its claim up is done with it. */
  lemma DropperStops(s: State, a: Action)
    requires Enabled(s, a) && (a.Mark? || a.Reschedule?)
    ensures !MaySend(Next(s, a), a.w)
  {
    hide Open, Finishes, PlanIs;
  }

  /** No step takes a row from a worker that may still send a DELETE, except the harmful acceptance. */
  lemma OthersKeepRows(s: State, a: Action, v: nat)
    requires Inv(s) && Enabled(s, a) && !Harmful(s, a) && MaySend(s, v) && HoldsRow(s, v) && MaySend(Next(s, a), v)
    requires Next(s, a).workers[v].phase.claim == s.workers[v].phase.claim
    ensures HoldsRow(Next(s, a), v)
  {
    hide Inv, Next, Owned, Remaining, Live;
    StepKeepsService(s, a);
    SenderIsInLease(s, v);
    var c := s.workers[v].phase.claim;
    if Next(s, a).rows[c.obj].claim != Some(c) {
      ClaimChanges(s, a, c.obj);
      if a.Mark? || a.Reschedule? {
        HoldersAreOne(s, v, a.w);
        DropperStops(s, a);
      }
    }
  }

  lemma SenderKeepsClaim(s: State, a: Action, v: nat)
    requires Enabled(s, a) && MaySend(s, v) && MaySend(Next(s, a), v)
    ensures Next(s, a).workers[v].phase.claim == s.workers[v].phase.claim
  {
    hide Open, Finishes, PlanIs, Claimable, Remaining;
  }

  /** In a purge only an authorization brings a worker to the point of sending a DELETE. */
  lemma AuthorizationAdmits(s: State, a: Action, v: nat)
    requires Enabled(s, a) && s.service.Purge? && !MaySend(s, v) && MaySend(Next(s, a), v)
    ensures a == Authorize(v) && HoldsRow(Next(s, a), v)
  {
    hide Open, Finishes, PlanIs, Claimable, Remaining;
  }

  /** A worker comes to the point of sending a DELETE only while it holds the object. */
  lemma NewSenderHolds(s: State, a: Action, v: nat)
    requires Inv(s) && Enabled(s, a) && !MaySend(s, v) && MaySend(Next(s, a), v)
    ensures Next(s, a).workers[v].phase.Working? && HoldsRow(Next(s, a), v)
  {
    hide Inv, Next, Owned;
    SenderWorks(Next(s, a), v);
    if s.service.Purge? {
      AuthorizationAdmits(s, a, v);
    } else {
      StepKeepsInv(s, a);
      StepKeepsService(s, a);
      SenderIsInLease(Next(s, a), v);
    }
  }

  /**
   Exactly one kind of step breaks the rule that whoever may send a DELETE holds the object: accepting a plan again while
   such a worker is at work on one of its objects.
   */
  lemma DeletersHoldAfterStep(s: State, a: Action)
    requires Inv(s) && Enabled(s, a) && DeletersHold(s)
    ensures DeletersHold(Next(s, a)) <==> !Harmful(s, a)
  {
    hide Inv, HoldsRow, MaySend, Next, Enabled;
    if Harmful(s, a) {
      ClearedSenderStays(s, a);
    } else {
      forall v | v in Next(s, a).workers && MaySend(Next(s, a), v)
        ensures Next(s, a).workers[v].phase.Working? && HoldsRow(Next(s, a), v)
      {
        SenderWorks(Next(s, a), v);
        if MaySend(s, v) {
          SenderWorks(s, v);
          SenderKeepsClaim(s, a, v);
          OthersKeepRows(s, a, v);
        } else {
          NewSenderHolds(s, a, v);
        }
      }
    }
  }

  lemma SenderWorks(s: State, w: nat)
    requires MaySend(s, w)
    ensures w in s.workers && s.workers[w].phase.Working?
  {
  }

  /** Accepting a plan again disturbs no worker, but takes every claim on what remains. */
  lemma AcceptClears(s: State, p: nat)
    requires Enabled(s, Accept(p))
    ensures var t := Next(s, Accept(p));
            t.workers == s.workers && t.clock == s.clock && t.service == s.service
            && forall o :: o in Remaining(s, p) ==> o in t.rows && t.rows[o].claim.None?
  {
  }

  lemma SenderGoesOn(s: State, t: State, w: nat)
    requires MaySend(s, w) && t.workers == s.workers && t.clock == s.clock && t.service == s.service
    ensures MaySend(t, w)
  {
  }

  lemma ClearedSenderStays(s: State, a: Action)
    requires Harmful(s, a)
    ensures !DeletersHold(Next(s, a))
  {
    hide Next, Enabled, Remaining, MaySend;
    var w :| w in s.workers && AtWorkOn(s, w, a.p);
    AcceptClears(s, a.p);
    SenderGoesOn(s, Next(s, a), w);
    SenderWorks(s, w);
    assert !HoldsRow(Next(s, a), w);
  }

  predicate AlwaysHold(s: State, actions: seq<Action>, t: State)
    requires Run(s, actions, t)
    decreases |actions|
  {
    DeletersHold(s) && (actions != [] ==> AlwaysHold(Next(s, actions[0]), actions[1..], t))
  }

  predicate NeverHarmed(s: State, actions: seq<Action>, t: State)
    requires Run(s, actions, t)
    decreases |actions|
  {
    actions != [] ==> !Harmful(s, actions[0]) && NeverHarmed(Next(s, actions[0]), actions[1..], t)
  }

  lemma {:induction false} HoldingRun(s: State, actions: seq<Action>, t: State)
    requires Inv(s) && DeletersHold(s) && Run(s, actions, t)
    ensures AlwaysHold(s, actions, t) <==> NeverHarmed(s, actions, t)
    ensures NeverHarmed(s, actions, t) ==> DeletersHold(t)
    decreases |actions|
  {
    hide Inv, DeletersHold, Harmful, Next, Enabled;
    if actions != [] {
      StepKeepsInv(s, actions[0]);
      DeletersHoldAfterStep(s, actions[0]);
      if DeletersHold(Next(s, actions[0])) {
        HoldingRun(Next(s, actions[0]), actions[1..], t);
      } else if |actions| == 1 {
        assert actions[1..] == [];
      }
    }
  }

  /**
   Over whole runs: at every moment whoever may send a DELETE holds the object, if and only if no plan is ever accepted again
   while a worker may still send a DELETE for one of its objects.
   */
  lemma DeletersHoldExactly(s: State, actions: seq<Action>, t: State)
    requires Init(s) && Run(s, actions, t)
    ensures AlwaysHold(s, actions, t) <==> NeverHarmed(s, actions, t)
  {
    hide Inv, AlwaysHold, NeverHarmed;
    InitHolds(s);
    HoldingRun(s, actions, t);
  }

  /** What the database itself can see: an object that the plan still has to delete is under a claim whose lease runs. */
  predicate LeaseRuns(s: State, p: nat) {
    exists o :: o in Remaining(s, p) && s.rows[o].claim.Some? && s.clock < s.rows[o].claim.value.until
  }

  lemma WorkIsUnderLease(s: State, w: nat, p: nat)
    requires Inv(s) && DeletersHold(s) && w in s.workers && AtWorkOn(s, w, p)
    ensures LeaseRuns(s, p)
  {
    hide Inv, MaySend;
    SenderIsInLease(s, w);
    SenderWorks(s, w);
    assert HoldsRow(s, w);
  }

  /** An acceptance meets a worker that may send a DELETE only if it finds a running lease on what the plan still has to delete. */
  lemma HarmNeedsLease(s: State, p: nat)
    requires Inv(s) && DeletersHold(s)
    ensures Harmful(s, Accept(p)) ==> LeaseRuns(s, p)
  {
    hide Inv, Enabled, DeletersHold, AtWorkOn, LeaseRuns;
    forall w | w in s.workers && AtWorkOn(s, w, p) ensures LeaseRuns(s, p) { WorkIsUnderLease(s, w, p); }
  }

  /** Every acceptance of the run is such a quiet one. */
  predicate AcceptsQuietly(s: State, actions: seq<Action>, t: State)
    requires Run(s, actions, t)
    decreases |actions|
  {
    actions != [] ==>
      && (actions[0].Accept? ==> !LeaseRuns(s, actions[0].p))
      && AcceptsQuietly(Next(s, actions[0]), actions[1..], t)
  }

  lemma {:induction false} QuietRun(s: State, actions: seq<Action>, t: State)
    requires Inv(s) && DeletersHold(s) && Run(s, actions, t) && AcceptsQuietly(s, actions, t)
    ensures AlwaysHold(s, actions, t)
    decreases |actions|
  {
    hide Inv, DeletersHold, LeaseRuns, Next, Enabled;
    if actions != [] {
      if actions[0].Accept? { HarmNeedsLease(s, actions[0].p); }
      StepKeepsInv(s, actions[0]);
      DeletersHoldAfterStep(s, actions[0]);
      QuietRun(Next(s, actions[0]), actions[1..], t);
    }
  }

  /** If the routine accepted a failed plan only once its leases have run out, whoever may send a DELETE would always hold the object. */
  lemma QuietAcceptsAreEnough(s: State, actions: seq<Action>, t: State)
    requires Init(s) && Run(s, actions, t) && AcceptsQuietly(s, actions, t)
    ensures AlwaysHold(s, actions, t)
  {
    hide Inv, AlwaysHold, AcceptsQuietly;
    InitHolds(s);
    QuietRun(s, actions, t);
  }

  /** In a run without such an acceptance at most one worker may send a DELETE for any object, at any time. */
  lemma OneDeleterPerObject(s: State, actions: seq<Action>, t: State, v: nat, w: nat)
    requires Init(s) && Run(s, actions, t) && NeverHarmed(s, actions, t) && MaySend(t, v) && MaySend(t, w)
    requires t.workers[v].phase.claim.obj == t.workers[w].phase.claim.obj
    ensures v == w
  {
    hide Inv, AlwaysHold, NeverHarmed;
    InitHolds(s);
    HoldingRun(s, actions, t);
    RunKeepsInv(s, actions, t);
    assert HoldsRow(t, v) && HoldsRow(t, w);
    HoldersAreOne(t, v, w);
  }

  // ---------------------------------------------------------------- marks and attempts

  /**
   An object is marked deleted only under a running claim, after a HEAD of that same claim saw it absent (and, for a
   purge, an authorization of that claim); it is stored again only if another upload landed after that HEAD.
   */
  lemma MarkFollowsAbsence(s: State, actions: seq<Action>, t: State, i: nat, c: Claim, puts: nat)
    requires Init(s) && Run(s, actions, t) && i < |t.log| && t.log[i].event == Marked(c, puts)
    ensures Holder(t.log[..i], c.obj) == Some(c) && c.from <= t.log[i].at < c.until
    ensures exists h :: 0 <= h < i && t.log[h].event == FoundAbsent(c, puts)
    ensures s.service.Purge? ==> exists a :: 0 <= a < i && t.log[a].event.Authorized? && t.log[a].event.claim == c
    ensures c.obj in t.rows && (t.rows[c.obj].present ==> puts < t.rows[c.obj].puts)
  {
    hide Holder, Has;
    InitHolds(s);
    RunKeepsInv(s, actions, t);
    RunKeepsService(s, actions, t);
    EntryIsJustified(t.service, t.log, i);
    var h := HasAt(t.log, i, FoundAbsent(c, puts));
    assert EntryFits(t, t.log[h]);
    if t.service.Purge? {
      var a := HasAt(t.log, i, Authorized(c, Has(t.log[..i], Authorized(c, true))));
    }
  }

  /**
   An object still to be purged is claimed at most eight times after each acceptance of its plan, however its workers
   crash: with `n` further acceptances at most `8 (n + 1)` times.
   */
  lemma PurgeAttemptsAreBounded(s: State, actions: seq<Action>, t: State, o: nat)
    requires Init(s) && Run(s, actions, t) && s.service.Purge? && o in t.rows && !t.rows[o].marked
    ensures ClaimsInRound(t.log, o) == t.rows[o].attempt <= 8
    ensures ClaimsOn(t.log, o) <= 8 * (Rounds(t.log, o) + 1)
  {
    InitHolds(s);
    RunKeepsInv(s, actions, t);
    RunKeepsService(s, actions, t);
    assert RowOk(t, o);
  }

  // ---------------------------------------------------------------- rescheduling

  function Pow2(n: nat): nat {
    if n == 0 then 1 else 2 * Pow2(n - 1)
  }

  function Ceil(x: real): int {
    -(-x).Floor
  }

  /** `_reschedule`: seconds until a failed purge attempt is repeated. */
  function Delay(poll: real, attempt: nat): int
    requires attempt >= 1
  {
    var seconds := Ceil(poll * Pow2(attempt - 1) as real);
    var atLeast := if seconds > 1 then seconds else 1;
    if atLeast < 3600 then atLeast else 3600
  }

  /** The database accepts every delay; each is at least the one before and at most twice as long. */
  lemma DelaysBackOff(poll: real, attempt: nat)
    requires attempt >= 1 && poll >= 0.0
    ensures 1 <= Delay(poll, attempt) <= Delay(poll, attempt + 1) <= 3600
    ensures Delay(poll, attempt + 1) <= 2 * Delay(poll, attempt)
  {
    var x := poll * Pow2(attempt - 1) as real;
    assert poll * Pow2(attempt) as real == 2.0 * x;
    assert x >= 0.0;
    assert Ceil(2.0 * x) <= 2 * Ceil(x);
  }
}
