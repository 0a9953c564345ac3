/**
 When "one live lease in the whole system" holds.

 The admission count reads committed leases without locking the rows it counts, and a
 heartbeat decides on a live lease but commits its extension later.  A heartbeat that
 commits after the lease it extends has run out can therefore revive a run beside a newly
 admitted one.  The property holds in every execution whose heartbeats commit in time, in
 every execution in which no permit holder crashes or loses its session, and exactly in those
 in which no heartbeat revives its lease, and no acquisition commits one, beside a live run.
 */
module RunExclusion {
  import opened Common
  import opened RunProtocol
  import opened RunSafety

  predicate AtMostOneLive(s: State) {
    forall r, q :: r in s.rows && q in s.rows && Live(s.rows[r], s.now) && Live(s.rows[q], s.now) ==> r == q
  }

  predicate OthersDead(s: State, r: RunId) {
    forall q :: q in s.rows && q != r ==> !Live(s.rows[q], s.now)
  }

  /** A row that no later `acquire_run` can take. */
  predicate Closed(row: Row, now: int) {
    Terminal(row.status) || row.cancel || row.deadline <= now
  }

  predicate AdmissionSafe(s: State) {
    s.admission.Some? ==>
      var r := s.admission.value.run;
      r in s.rows && (Closed(s.rows[r], s.now) || OthersDead(s, r))
  }

  predicate Solo(s: State) {
    AtMostOneLive(s) && AdmissionSafe(s)
  }

  /** A heartbeat commits while the lease it extends is still live. */
  predicate Prompt(s: State, a: Action) {
    a.BeatCommit? && a.r in s.txns && s.txns[a.r].Beat? && a.r in s.rows ==> LeaseLive(s.rows[a.r], s.now)
  }

  /** A heartbeat commits an extension that is still ahead to a lease that has run out meanwhile. */
  predicate Revives(s: State, a: Action) {
    && a.BeatCommit? && a.r in s.txns && s.txns[a.r].Beat? && a.r in s.rows
    && !LeaseLive(s.rows[a.r], s.now) && s.now < s.txns[a.r].expires
  }

  /** Another run is live, or is about to be admitted because none was. */
  predicate Beside(s: State, r: RunId) {
    || !OthersDead(s, r)
    || (s.admission.Some? && s.admission.value.run != r && s.admission.value.run in s.rows
        && !Closed(s.rows[s.admission.value.run], s.now))
  }

  /** No row becomes live, and no closed row reopens. */
  predicate Calm(s: State, s': State) {
    && (forall r :: r in s'.rows && Live(s'.rows[r], s'.now) ==> r in s.rows && Live(s.rows[r], s.now))
    && (forall r :: r in s.rows ==> r in s'.rows && (Closed(s.rows[r], s.now) ==> Closed(s'.rows[r], s'.now)))
  }

  lemma PutRowIsCalm(s: State, r: RunId, row: Row)
    requires r in s.rows && RowOk(s.rows[r])
    requires row == s.rows[r] || row.lease.None? || (row.lease == s.rows[r].lease && row.cancel)
    requires Closed(s.rows[r], s.now) ==> Closed(row, s.now)
    ensures Calm(s, PutRow(s, r, row))
  {
  }

  lemma RoutineIsCalm(s: State, a: Action)
    requires RowsOk(s) && (a.Cancel? || a.Recover?)
    ensures Calm(s, Next(s, a))
  {
    match a
    case Cancel(r) =>
      if r in s.rows {
        assert RowOk(s.rows[r]);
        PutRowIsCalm(s, r, s.rows[r].(status := Cancelling, cancel := true));
      }
    case Recover(r) =>
      if r in s.rows {
        assert RowOk(s.rows[r]);
        PutRowIsCalm(s, r, RecoverRun(s.rows[r], s.now));
      }
  }

  /** An end drops the lease or leaves the row alone. */
  lemma EndedRow(row: Row, t: Token, outcome: Status, now: int)
    requires RowOk(row) && Terminal(outcome)
    ensures var row' := FinalizeRun(row, t, outcome, now); row' == row || (row'.lease.None? && Terminal(row'.status))
  {
  }

  lemma GraphEndIsCalm(s: State, m: Owner, outcome: Status)
    requires RowsOk(s)
    ensures Calm(s, Next(s, GraphEnd(m, outcome)))
  {
    var p := PhaseOf(s, m);
    if p.Working? && p.token.run in s.rows && (outcome.Completed? || outcome.Refused?) {
      assert RowOk(s.rows[p.token.run]);
      EndedRow(s.rows[p.token.run], p.token, outcome, s.now);
      hide FinalizeRun, RowsOk, RowOk;
      PutRowIsCalm(s, p.token.run, FinalizeRun(s.rows[p.token.run], p.token, outcome, s.now));
    }
  }

  lemma ManagerEndIsCalm(s: State, m: Owner)
    requires RowsOk(s)
    ensures Calm(s, Next(s, ManagerEnd(m)))
  {
    var p := PhaseOf(s, m);
    if p.Finalizing? && p.token.run in s.rows {
      assert RowOk(s.rows[p.token.run]);
      EndedRow(s.rows[p.token.run], p.token, Failed, s.now);
      hide FinalizeRun, RowsOk, RowOk;
      PutRowIsCalm(s, p.token.run, FinalizeRun(s.rows[p.token.run], p.token, Failed, s.now));
    }
  }

  /** Steps that touch no row. */
  lemma RowsStay(s: State, a: Action)
    requires !(a.Cancel? || a.Recover? || a.GraphEnd? || a.ManagerEnd? || a.AcquireCommit?)
    requires !(a.Create? || a.Revoke? || a.BeatCommit?)
    ensures Next(s, a).rows == s.rows && Next(s, a).now >= s.now
  {
  }

  lemma LaterIsCalm(s: State, s': State)
    requires s'.rows == s.rows && s'.now >= s.now
    ensures Calm(s, s')
  {
  }

  lemma BeatCommitIsCalm(s: State, r: RunId)
    requires TxnsOk(s) && !Revives(s, BeatCommit(r))
    ensures Calm(s, Next(s, BeatCommit(r)))
  {
    if r in s.txns { assert TxnOk(s, r); }
  }

  lemma RowActionsAreCalm(s: State, a: Action)
    requires Inv(s) && (a.Create? || a.Revoke?)
    ensures Calm(s, Next(s, a))
  {
  }

  /** Every step but an acquisition leaves no row livelier than it was, unless a heartbeat revives one. */
  lemma OtherActionsAreCalm(s: State, a: Action)
    requires Inv(s) && !Revives(s, a) && !a.AcquireCommit?
    ensures Calm(s, Next(s, a))
  {
    hide Next, Calm, Revives;
    if a.Cancel? || a.Recover? {
      RoutineIsCalm(s, a);
    } else if a.GraphEnd? {
      GraphEndIsCalm(s, a.m, a.outcome);
    } else if a.ManagerEnd? {
      ManagerEndIsCalm(s, a.m);
    } else if a.BeatCommit? {
      BeatCommitIsCalm(s, a.r);
    } else if a.Create? || a.Revoke? {
      RowActionsAreCalm(s, a);
    } else {
      RowsStay(s, a);
      LaterIsCalm(s, Next(s, a));
    }
  }

  lemma CalmKeepsSolo(s: State, s': State)
    requires Solo(s) && Calm(s, s') && (s'.admission == s.admission || s'.admission.None?)
    ensures Solo(s')
  {
  }

  /** A begun admission has either counted no live run, or targets the one live run, or a closed row. */
  lemma AcquireBeginKeepsSolo(s: State, m: Owner)
    requires Inv(s) && Solo(s)
    ensures Solo(Next(s, AcquireBegin(m)))
  {
    hide TxnsOk, ManagersOk, WritesOk, EndsOk, DrainOk;
    var s' := Next(s, AcquireBegin(m));
    if s'.admission.Some? && s.admission.None? {
      var r := PhaseOf(s, m).run;
      assert RowOk(s.rows[r]);
      if !Closed(s.rows[r], s.now) && LeaseLive(s.rows[r], s.now) {
        assert Live(s.rows[r], s.now);
      }
    }
  }

  /** An acquisition whose transaction goes through; any other leaves the state alone. */
  predicate Commits(s: State, m: Owner) {
    && s.admission.Some? && s.admission.value.manager == m && m in s.managers
    && s.admission.value.run in s.rows && s.admission.value.run !in s.txns
  }

  lemma CommitShape(s: State, m: Owner, lease: nat, r: RunId, row: Row)
    requires Commits(s, m) && r == s.admission.value.run && row == AcquireRun(s.rows[r], s.now, m, lease).1
    ensures var s' := NextAcquireCommit(s, m, lease);
            && s'.rows == s.rows[r := row] && s'.now == s.now && s'.txns == s.txns && s'.admission.None?
            && s'.managers == (if PhaseOf(s, m) != Starting(r) then s.managers
                               else if AcquireRun(s.rows[r], s.now, m, lease).0.Acquired?
                               then s.managers[m := s.managers[m].(phase := Working(Token(r, m, row.epoch)))]
                               else s.managers[m := Manager(Idle)])
            && (AcquireRun(s.rows[r], s.now, m, lease).0.Acquired? ==> s'.permit == s.permit)
  {
    hide AcquireRun;
  }

  /** Only an open row is acquired, and the row is open no later than its admission. */
  lemma AcquiredWasOpen(row: Row, now: int, owner: Owner, lease: nat)
    requires AcquireRun(row, now, owner, lease).0.Acquired?
    ensures !Closed(row, now) && !LeaseLive(row, now)
    ensures Live(AcquireRun(row, now, owner, lease).1, now) <==> 0 < lease
  {
  }

  /** A row that is not acquired keeps its lease or ends. */
  lemma UnacquiredStep(row: Row, now: int, owner: Owner, lease: nat)
    requires RowOk(row) && !AcquireRun(row, now, owner, lease).0.Acquired?
    ensures var row' := AcquireRun(row, now, owner, lease).1;
            row' == row || (Terminal(row'.status) && row'.lease.None?)
  {
  }

  lemma OneRowKeepsSolo(s: State, s': State, r: RunId, row: Row)
    requires Solo(s) && r in s.rows && s'.rows == s.rows[r := row] && s'.now == s.now && s'.admission.None?
    requires OthersDead(s, r) || !Live(row, s.now) || row == s.rows[r]
    ensures Solo(s')
    ensures OthersDead(s, r) ==> OthersDead(s', r)
  {
    hide Live;
  }

  lemma AcquireCommitKeepsSolo(s: State, m: Owner, lease: nat)
    requires Inv(s) && Solo(s)
    ensures Solo(NextAcquireCommit(s, m, lease))
    ensures forall n, t :: PhaseOf(NextAcquireCommit(s, m, lease), n) == Working(t) && PhaseOf(s, n) != Working(t)
              ==> n == m && OthersDead(NextAcquireCommit(s, m, lease), t.run)
    ensures NextAcquireCommit(s, m, lease) == s || NextAcquireCommit(s, m, lease).admission.None?
  {
    if Commits(s, m) {
      var r := s.admission.value.run;
      var (outcome, row) := AcquireRun(s.rows[r], s.now, m, lease);
      CommitShape(s, m, lease, r, row);
      var s' := NextAcquireCommit(s, m, lease);
      hide NextAcquireCommit;
      if outcome.Acquired? {
        AcquiredWasOpen(s.rows[r], s.now, m, lease);
        hide AcquireRun, Inv, Closed;
        assert OthersDead(s, r);
        hide OthersDead, AtMostOneLive, AdmissionSafe;
        OneRowKeepsSolo(s, s', r, row);
      } else {
        assert RowOk(s.rows[r]);
        UnacquiredStep(s.rows[r], s.now, m, lease);
        hide AcquireRun, Inv, Solo, OthersDead;
        OneRowKeepsSolo(s, s', r, row);
      }
    }
  }

  lemma NextKeepsSolo(s: State, a: Action)
    requires Inv(s) && Solo(s) && !Revives(s, a)
    ensures Solo(Next(s, a))
  {
    hide Solo, Inv, NextAcquireCommit, NextAcquireBegin;
    if a.AcquireCommit? {
      AcquireCommitKeepsSolo(s, a.m, a.lease);
    } else if a.AcquireBegin? {
      AcquireBeginKeepsSolo(s, a.m);
    } else {
      OtherActionsAreCalm(s, a);
      AdmissionStaysOrCloses(s, a);
      hide Next;
      CalmKeepsSolo(s, Next(s, a));
    }
  }

  lemma AdmissionStaysOrCloses(s: State, a: Action)
    requires !a.AcquireBegin?
    ensures Next(s, a).admission == s.admission || Next(s, a).admission.None?
  {
  }

  /** A reviving heartbeat makes a second run live exactly beside a live one. */
  lemma RevivalBesideLive(s: State, r: RunId)
    requires TxnsOk(s) && AtMostOneLive(s) && Revives(s, BeatCommit(r))
    ensures AtMostOneLive(Next(s, BeatCommit(r))) <==> OthersDead(s, r)
  {
    var s' := Next(s, BeatCommit(r));
    assert TxnOk(s, r);
    assert Live(s'.rows[r], s'.now);
    if !OthersDead(s, r) {
      var q :| q in s.rows && q != r && Live(s.rows[q], s.now);
      assert Live(s'.rows[q], s'.now);
    }
  }

  /** It is harmless exactly when it is also not beside an admission that has counted no live run. */
  lemma RevivalIsSafeAlone(s: State, r: RunId)
    requires Inv(s) && Solo(s) && Revives(s, BeatCommit(r))
    ensures Solo(Next(s, BeatCommit(r))) <==> !Beside(s, r)
  {
    hide RowsOk, ManagersOk, WritesOk, EndsOk, DrainOk;
    RevivalBesideLive(s, r);
    var s' := Next(s, BeatCommit(r));
    assert TxnOk(s, r);
    assert Live(s'.rows[r], s'.now);
    assert s'.admission == s.admission;
  }

  /** The exact condition, before any step of any process: exclusion outlives the step unless it revives a run beside another. */
  lemma ExclusionSurvivesExactly(s: State, a: Action)
    requires Inv(s) && Solo(s)
    ensures Solo(Next(s, a)) <==> !(Revives(s, a) && Beside(s, a.r))
  {
    if Revives(s, a) {
      RevivalIsSafeAlone(s, a.r);
    } else {
      NextKeepsSolo(s, a);
    }
  }

  ghost predicate AlwaysSolo(acts: seq<Action>) {
    forall k :: 0 <= k <= |acts| ==> Solo(Exec(INIT, acts[..k]))
  }

  predicate Harmless(s: State, a: Action) {
    !(Revives(s, a) && Beside(s, a.r))
  }

  ghost predicate HarmlessRun(acts: seq<Action>) {
    forall i :: 0 <= i < |acts| ==> Harmless(Exec(INIT, acts[..i]), acts[i])
  }

  lemma PrefixStep(acts: seq<Action>, k: nat)
    requires k < |acts|
    ensures Exec(INIT, acts[..k + 1]) == Next(Exec(INIT, acts[..k]), acts[k])
  {
    assert acts[..k + 1][..k] == acts[..k];
  }

  lemma {:induction false} HarmlessPrefixIsSolo(acts: seq<Action>, k: nat)
    requires HarmlessRun(acts) && k <= |acts|
    ensures Solo(Exec(INIT, acts[..k]))
  {
    if k > 0 {
      HarmlessPrefixIsSolo(acts, k - 1);
      ExecKeepsInv(acts[..k - 1]);
      ExclusionSurvivesExactly(Exec(INIT, acts[..k - 1]), acts[k - 1]);
      PrefixStep(acts, k - 1);
    }
  }

  ghost predicate PromptRun(acts: seq<Action>) {
    forall i :: 0 <= i < |acts| ==> Prompt(Exec(INIT, acts[..i]), acts[i])
  }

  lemma {:induction false} PromptRunIsSolo(acts: seq<Action>)
    requires PromptRun(acts)
    ensures Solo(Exec(INIT, acts))
  {
    if acts != [] {
      var front := acts[..|acts| - 1];
      forall i | 0 <= i < |front| ensures Prompt(Exec(INIT, front[..i]), front[i]) {
        assert front[..i] == acts[..i];
      }
      PromptRunIsSolo(front);
      ExecKeepsInv(front);
      NextKeepsSolo(Exec(INIT, front), acts[|acts| - 1]);
    }
  }

  // ---------------------------------------------------------------- executions without lost sessions

  /** The manager is between taking the permit and giving it back. */
  predicate Holding(p: Phase) {
    !p.Idle? && !p.Dead?
  }

  predicate Lossless(s: State, a: Action) {
    && !(a.SessionLost? && s.permit == Some(a.m))
    && !(a.Crash? && Holding(PhaseOf(s, a.m)))
  }

  predicate Supervises(p: Phase, t: Token) {
    (p.Working? || p.Draining?) && p.token == t
  }

  /** The permit really excludes: whoever is between take and release is its one holder. */
  predicate PermitHeld(s: State) {
    && (forall m :: m in s.managers && Holding(s.managers[m].phase) ==> s.permit == Some(m))
    && (s.admission.Some? ==> PhaseOf(s, s.admission.value.manager).Starting?)
    && (forall r :: r in s.txns ==> Supervises(PhaseOf(s, s.txns[r].token.owner), s.txns[r].token))
    && (forall m :: m in s.managers ==> WardAlone(s, s.managers[m].phase))
  }

  /** While a current execution is supervised no other run is live. */
  predicate WardAlone(s: State, p: Phase) {
    (p.Working? || p.Draining?) && p.token.run in s.rows && s.rows[p.token.run].epoch == p.token.epoch
    ==> OthersDead(s, p.token.run)
  }

  /** Apart from an acquisition, a supervision phase only comes from a supervision phase with the same token. */
  lemma SupervisionOf(s: State, a: Action, m: Owner)
    requires !a.AcquireCommit?
    ensures var p := PhaseOf(Next(s, a), m);
            p.Working? || p.Draining? ==> m in s.managers && Supervises(s.managers[m].phase, p.token)
  {
    hide Guard, FinalizeRun, RecoverRun, AcquireRun, Eligible, AnyLive;
  }

  lemma SupervisionComesFrom(s: State, a: Action, s': State)
    requires !a.AcquireCommit? && s' == Next(s, a)
    ensures forall m :: m in s'.managers && (s'.managers[m].phase.Working? || s'.managers[m].phase.Draining?)
              ==> m in s.managers && Supervises(s.managers[m].phase, s'.managers[m].phase.token)
  {
    hide Next;
    forall m | m in s'.managers && (s'.managers[m].phase.Working? || s'.managers[m].phase.Draining?)
      ensures m in s.managers && Supervises(s.managers[m].phase, s'.managers[m].phase.token)
    {
      SupervisionOf(s, a, m);
    }
  }

  /** Apart from an acquisition, only taking the free permit makes a manager a holder. */
  lemma HoldingOf(s: State, a: Action, m: Owner)
    requires !a.AcquireCommit?
    ensures Holding(PhaseOf(Next(s, a), m)) ==>
              && m in s.managers
              && (Holding(s.managers[m].phase) || (a.TakePermit? && a.m == m && Next(s, a).permit == Some(m)))
  {
    hide Guard, FinalizeRun, RecoverRun, AcquireRun, Eligible, AnyLive;
  }

  lemma HoldingComesFrom(s: State, a: Action, s': State)
    requires !a.AcquireCommit? && s' == Next(s, a)
    ensures forall m :: m in s'.managers && Holding(s'.managers[m].phase)
              ==> m in s.managers && (Holding(s.managers[m].phase) || (a.TakePermit? && a.m == m && s'.permit == Some(m)))
  {
    hide Next;
    forall m | m in s'.managers && Holding(s'.managers[m].phase)
      ensures m in s.managers && (Holding(s.managers[m].phase) || (a.TakePermit? && a.m == m && s'.permit == Some(m)))
    {
      HoldingOf(s, a, m);
    }
  }

  /** A new transaction belongs to the supervision that opened it. */
  lemma TxnsComeFromSupervision(s: State, a: Action, s': State)
    requires Inv(s) && !a.AcquireCommit? && s' == Next(s, a)
    ensures forall r :: r in s'.txns ==>
              || (r in s.txns && s.txns[r] == s'.txns[r])
              || ((a.BeatBegin? || a.WriteBegin?) && s'.txns[r].token.owner == a.m
                  && PhaseOf(s, a.m) == Working(s'.txns[r].token))
  {
    hide RowsOk, TxnsOk, AdmissionOk, WritesOk, EndsOk, DrainOk, Guard;
    if (a.BeatBegin? || a.WriteBegin?) && PhaseOf(s, a.m).Working? {
      ManagerHasToken(s, a.m);
    }
  }

  /** A supervision with something in flight goes on, unless its process crashes. */
  lemma SupervisionGoesOn(s: State, a: Action, r: RunId)
    requires r in s.txns && Supervises(PhaseOf(s, s.txns[r].token.owner), s.txns[r].token)
    requires Lossless(s, a) && !a.AcquireCommit?
    ensures Supervises(PhaseOf(Next(s, a), s.txns[r].token.owner), s.txns[r].token)
  {
    if a.Drained? && a.m == s.txns[r].token.owner { assert r in InFlight(s, a.m); }
  }

  /** Apart from an acquisition, no transaction outlives the supervision that opened it. */
  lemma TxnsStaySupervised(s: State, a: Action)
    requires Inv(s) && PermitHeld(s) && Lossless(s, a) && !a.AcquireCommit?
    ensures forall r :: r in Next(s, a).txns ==> Supervises(PhaseOf(Next(s, a), Next(s, a).txns[r].token.owner), Next(s, a).txns[r].token)
  {
    var s' := Next(s, a);
    TxnsComeFromSupervision(s, a, s');
    forall r | r in s'.txns ensures Supervises(PhaseOf(s', s'.txns[r].token.owner), s'.txns[r].token) {
      if r in s.txns && s.txns[r] == s'.txns[r] {
        SupervisionGoesOn(s, a, r);
      } else {
        assert s'.managers == s.managers;
      }
    }
  }

  lemma CalmKeepsPermitHeld(s: State, a: Action)
    requires Inv(s) && PermitHeld(s) && Lossless(s, a) && Calm(s, Next(s, a)) && Grows(s, Next(s, a))
    requires !a.AcquireCommit? && !a.BeatCommit? && AdmissionOk(Next(s, a))
    ensures PermitHeld(Next(s, a))
  {
    var s' := Next(s, a);
    SupervisionComesFrom(s, a, s');
    TxnsStaySupervised(s, a);
    forall m | m in s'.managers ensures WardAlone(s', s'.managers[m].phase) {
      var p' := s'.managers[m].phase;
      if p'.Working? || p'.Draining? {
        assert ManagerOk(s, m) && WardAlone(s, s.managers[m].phase);
      }
    }
    PermitFollows(s, a, s');
    AdmissionFollows(s, a, s');
  }

  /** The permit changes hands only with its holder: nobody else gives it back, and losing it is excluded. */
  lemma PermitStays(s: State, a: Action, m: Owner)
    requires s.permit == Some(m) && Lossless(s, a) && !a.AcquireCommit?
    ensures Next(s, a).permit == Some(m) || (Next(s, a).permit.None? && !Holding(PhaseOf(Next(s, a), m)))
  {
  }

  lemma PermitFollows(s: State, a: Action, s': State)
    requires PermitHeld(s) && Lossless(s, a) && !a.AcquireCommit? && s' == Next(s, a)
    ensures forall m :: m in s'.managers && Holding(s'.managers[m].phase) ==> s'.permit == Some(m)
  {
    HoldingComesFrom(s, a, s');
    hide Next;
    forall m | m in s'.managers && Holding(s'.managers[m].phase) ensures s'.permit == Some(m) {
      if m in s.managers && Holding(s.managers[m].phase) {
        PermitStays(s, a, m);
      }
    }
  }

  lemma AdmissionFollows(s: State, a: Action, s': State)
    requires PermitHeld(s) && Lossless(s, a) && !a.AcquireCommit? && s' == Next(s, a) && AdmissionOk(s')
    ensures s'.admission.Some? ==> PhaseOf(s', s'.admission.value.manager).Starting?
  {
    assert s.admission.Some? ==> PhaseOf(s, s.admission.value.manager).Starting?;
    hide PermitHeld, Guard, FinalizeRun, RecoverRun, AcquireRun, Eligible, AnyLive;
  }

  lemma SupervisedHolds(s: State, r: RunId, m: Owner)
    requires PermitHeld(s) && m in s.managers && PhaseOf(s, m).Starting?
    ensures r !in s.txns
  {
  }

  lemma AcquireCommitKeepsPermitHeld(s: State, m: Owner, lease: nat)
    requires Inv(s) && Solo(s) && PermitHeld(s)
    ensures PermitHeld(NextAcquireCommit(s, m, lease))
  {
    var s' := NextAcquireCommit(s, m, lease);
    if Commits(s, m) {
      var r := s.admission.value.run;
      CommitShape(s, m, lease, r, AcquireRun(s.rows[r], s.now, m, lease).1);
      AcquireCommitKeepsSolo(s, m, lease);
      hide AcquireRun, Inv, Solo;
      assert PhaseOf(s, m).Starting?;
      forall r ensures r !in s.txns { SupervisedHolds(s, r, m); }
      assert s'.txns == map[];
      AcquiringHoldsPermit(s, s', m);
    }
  }

  /** The manager that acquires is the one holder, so it is the only one to supervise afterwards. */
  lemma AcquiringHoldsPermit(s: State, s': State, m: Owner)
    requires PermitHeld(s) && m in s.managers && PhaseOf(s, m).Starting? && s'.txns == map[] && s'.admission.None?
    requires m in s'.managers && s'.managers == s.managers[m := s'.managers[m]]
    requires s'.managers[m].phase.Idle? || (s'.permit == s.permit && (s'.managers[m].phase.Starting? || s'.managers[m].phase.Working?))
    requires s'.managers[m].phase.Working? ==> OthersDead(s', s'.managers[m].phase.token.run)
    ensures PermitHeld(s')
  {
    hide OthersDead;
    assert forall n :: n in s.managers && Holding(s.managers[n].phase) ==> n == m;
  }

  /** With the permit held, even a late heartbeat finds every other run dead. */
  lemma LateBeatIsHarmless(s: State, r: RunId)
    requires Inv(s) && Solo(s) && PermitHeld(s)
    ensures Solo(Next(s, BeatCommit(r))) && PermitHeld(Next(s, BeatCommit(r)))
  {
    var s' := Next(s, BeatCommit(r));
    if s' != s {
      var t := s.txns[r].token;
      assert TxnOk(s, r);
      assert Supervises(PhaseOf(s, t.owner), t);
      assert Holding(s.managers[t.owner].phase);
      assert OthersDead(s, r);
      assert OthersDead(s', r);
      assert s.admission.None?;
      forall m | m in s'.managers ensures WardAlone(s', s'.managers[m].phase) {
        if s.managers[m].phase.Working? || s.managers[m].phase.Draining? {
          assert Holding(s.managers[m].phase);
        }
      }
    }
  }

  lemma NextKeepsPermitHeld(s: State, a: Action)
    requires Inv(s) && Solo(s) && PermitHeld(s) && Lossless(s, a)
    ensures Solo(Next(s, a)) && PermitHeld(Next(s, a))
  {
    if a.BeatCommit? {
      LateBeatIsHarmless(s, a.r);
    } else {
      NextKeepsSolo(s, a);
      NextKeepsInv(s, a);
      if a.AcquireCommit? {
        AcquireCommitKeepsPermitHeld(s, a.m, a.lease);
      } else {
        OtherActionsAreCalm(s, a);
        CalmKeepsPermitHeld(s, a);
      }
    }
  }

  ghost predicate LosslessRun(acts: seq<Action>) {
    forall i :: 0 <= i < |acts| ==> Lossless(Exec(INIT, acts[..i]), acts[i])
  }

  lemma {:induction false} LosslessRunIsSolo(acts: seq<Action>)
    requires LosslessRun(acts)
    ensures Solo(Exec(INIT, acts)) && PermitHeld(Exec(INIT, acts))
  {
    if acts != [] {
      var front := acts[..|acts| - 1];
      forall i | 0 <= i < |front| ensures Lossless(Exec(INIT, front[..i]), front[i]) {
        assert front[..i] == acts[..i];
      }
      LosslessRunIsSolo(front);
      ExecKeepsInv(front);
      NextKeepsPermitHeld(Exec(INIT, front), acts[|acts| - 1]);
    }
  }

  // ---------------------------------------------------------------- exclusion alone

  /** An acquisition that commits a lease ahead of the clock. */
  predicate Acquires(s: State, a: Action) {
    && a.AcquireCommit? && 0 < a.lease && Commits(s, a.m)
    && AcquireRun(s.rows[s.admission.value.run], s.now, a.m, a.lease).0.Acquired?
  }

  /** The only two ways to a second live run: a revival, or an acquisition, that commits beside a live run. */
  predicate Breaks(s: State, a: Action) {
    || (Revives(s, a) && !OthersDead(s, a.r))
    || (Acquires(s, a) && !OthersDead(s, s.admission.value.run))
  }

  lemma CalmKeepsOneLive(s: State, s': State)
    requires AtMostOneLive(s) && Calm(s, s')
    ensures AtMostOneLive(s')
  {
  }

  lemma OneRowKeepsOneLive(s: State, s': State, r: RunId, row: Row)
    requires AtMostOneLive(s) && r in s.rows && s'.rows == s.rows[r := row] && s'.now == s.now
    requires row == s.rows[r] || !LeaseLive(s.rows[r], s.now)
    ensures AtMostOneLive(s') <==> OthersDead(s, r) || !Live(row, s.now) || row == s.rows[r]
  {
    if row != s.rows[r] && Live(row, s.now) && !OthersDead(s, r) {
      var q :| q in s.rows && q != r && Live(s.rows[q], s.now);
      assert Live(s'.rows[q], s'.now) && Live(s'.rows[r], s'.now);
    }
  }

  /** An acquisition makes a second run live exactly if it commits a lease beside a live run. */
  lemma AcquisitionBesideLive(s: State, m: Owner, lease: nat)
    requires RowsOk(s) && AtMostOneLive(s)
    ensures AtMostOneLive(NextAcquireCommit(s, m, lease)) <==> !Breaks(s, AcquireCommit(m, lease))
  {
    if Commits(s, m) {
      var r := s.admission.value.run;
      var (outcome, row) := AcquireRun(s.rows[r], s.now, m, lease);
      CommitShape(s, m, lease, r, row);
      var s' := NextAcquireCommit(s, m, lease);
      hide NextAcquireCommit, AtMostOneLive, OthersDead;
      if outcome.Acquired? {
        AcquiredWasOpen(s.rows[r], s.now, m, lease);
        hide AcquireRun;
        assert row == s.rows[r] ==> lease == 0;
        OneRowKeepsOneLive(s, s', r, row);
      } else {
        assert RowOk(s.rows[r]);
        UnacquiredStep(s.rows[r], s.now, m, lease);
        UnacquiredKeepsOneLive(s, s', r, row);
      }
    }
  }

  lemma UnacquiredKeepsOneLive(s: State, s': State, r: RunId, row: Row)
    requires AtMostOneLive(s) && r in s.rows && s'.rows == s.rows[r := row] && s'.now == s.now
    requires row == s.rows[r] || row.lease.None?
    ensures AtMostOneLive(s')
  {
  }

  /** The exact condition on one step of any process: at most one live run stays so unless the step breaks it. */
  lemma OneLiveSurvivesExactly(s: State, a: Action)
    requires Inv(s) && AtMostOneLive(s)
    ensures AtMostOneLive(Next(s, a)) <==> !Breaks(s, a)
  {
    hide Next, NextAcquireCommit, AtMostOneLive, OthersDead;
    if Revives(s, a) {
      RevivalBesideLive(s, a.r);
    } else if a.AcquireCommit? {
      AcquisitionBesideLive(s, a.m, a.lease);
      assert Next(s, a) == NextAcquireCommit(s, a.m, a.lease) by { CommitIsAStep(s, a); }
    } else {
      OtherActionsAreCalm(s, a);
      CalmKeepsOneLive(s, Next(s, a));
    }
  }

  lemma CommitIsAStep(s: State, a: Action)
    requires a.AcquireCommit?
    ensures Next(s, a) == NextAcquireCommit(s, a.m, a.lease)
  {
    hide NextAcquireCommit;
  }

  ghost predicate AlwaysOneLive(acts: seq<Action>) {
    forall k :: 0 <= k <= |acts| ==> AtMostOneLive(Exec(INIT, acts[..k]))
  }

  ghost predicate NeverBroken(acts: seq<Action>) {
    forall i :: 0 <= i < |acts| ==> !Breaks(Exec(INIT, acts[..i]), acts[i])
  }

  lemma {:induction false} UnbrokenPrefix(acts: seq<Action>, k: nat)
    requires NeverBroken(acts) && k <= |acts|
    ensures AtMostOneLive(Exec(INIT, acts[..k]))
  {
    if k > 0 {
      hide Breaks, Next, Inv;
      UnbrokenPrefix(acts, k - 1);
      ExecKeepsInv(acts[..k - 1]);
      OneLiveSurvivesExactly(Exec(INIT, acts[..k - 1]), acts[k - 1]);
      PrefixStep(acts, k - 1);
    }
  }

  // ---------------------------------------------------------------- main results

  /**
   In every execution in which each heartbeat commits before the lease it extends has run out, or in which no
   holder of the permit crashes or loses its session, at most one run has a live lease at any time.
   */
  lemma OneLiveRun(acts: seq<Action>)
    requires PromptRun(acts) || LosslessRun(acts)
    ensures AtMostOneLive(Exec(INIT, acts))
  {
    if PromptRun(acts) { PromptRunIsSolo(acts); } else { LosslessRunIsSolo(acts); }
  }

  /**
   Exactly when exclusion holds all the way: there is never more than one live run if and only if no heartbeat revives
   its lease, and no acquisition commits one, beside a live run.
   */
  lemma ExclusionHoldsExactly(acts: seq<Action>)
    ensures AlwaysOneLive(acts) <==> NeverBroken(acts)
  {
    hide Breaks, Next, Inv, AtMostOneLive;
    if NeverBroken(acts) {
      forall k | 0 <= k <= |acts| ensures AtMostOneLive(Exec(INIT, acts[..k])) {
        UnbrokenPrefix(acts, k);
      }
    }
    if AlwaysOneLive(acts) {
      forall i | 0 <= i < |acts| ensures !Breaks(Exec(INIT, acts[..i]), acts[i]) {
        ExecKeepsInv(acts[..i]);
        OneLiveSurvivesExactly(Exec(INIT, acts[..i]), acts[i]);
        PrefixStep(acts, i);
      }
    }
  }

  /**
   The same for the stronger state: never more than one live run, and never an admission under way beside one,
   if and only if no heartbeat of the run revives its lease beside another run that is live or being admitted.
   */
  lemma SoloHoldsExactly(acts: seq<Action>)
    ensures AlwaysSolo(acts) <==> HarmlessRun(acts)
    ensures HarmlessRun(acts) ==> AtMostOneLive(Exec(INIT, acts))
  {
    if HarmlessRun(acts) {
      forall k | 0 <= k <= |acts| ensures Solo(Exec(INIT, acts[..k])) {
        HarmlessPrefixIsSolo(acts, k);
      }
      assert acts[..|acts|] == acts;
    }
    if AlwaysSolo(acts) {
      forall i | 0 <= i < |acts| ensures Harmless(Exec(INIT, acts[..i]), acts[i]) {
        ExecKeepsInv(acts[..i]);
        ExclusionSurvivesExactly(Exec(INIT, acts[..i]), acts[i]);
        PrefixStep(acts, i);
      }
    }
  }

  /**
   The condition cannot be dropped: whenever a heartbeat is still uncommitted after its old lease ran out, the permit
   is free and another run can be admitted, four steps lead to two live runs.
   */
  lemma LateHeartbeatBreaks(s: State, r: RunId, m: Owner, q: RunId, lease: nat)
    requires r in s.rows && r in s.txns && s.txns[r].Beat? && s.now < s.txns[r].expires
    requires s.rows[r].status.Running? && !LeaseLive(s.rows[r], s.now)
    requires m in s.managers && s.managers[m].phase.Idle? && s.permit.None? && s.admission.None?
    requires q in s.rows && q != r && q !in s.txns && !AnyLive(s) && 0 < lease
    requires Eligible(s.rows[q], s.now) && !s.rows[q].revoked && s.rows[q].recoveries < s.rows[q].maxRecoveries
    ensures !AtMostOneLive(Next(Next(Next(Next(s, TakePermit(m, q)), AcquireBegin(m)), AcquireCommit(m, lease)), BeatCommit(r)))
  {
    var s1 := Next(s, TakePermit(m, q));
    assert !AnyLive(s1) by {
      forall x | x in s1.rows ensures !Live(s1.rows[x], s1.now) { assert x in s.rows; }
    }
    var s2 := Next(s1, AcquireBegin(m));
    assert s2.admission == Some(Admission(m, q));
    var s3 := Next(s2, AcquireCommit(m, lease));
    assert Live(s3.rows[q], s3.now);
    var s4 := Next(s3, BeatCommit(r));
    assert Live(s4.rows[r], s4.now) && Live(s4.rows[q], s4.now);
  }

  const FIRST := Row(Running, 1, Some(1), Some(10), 100, false, false, 0, 2)
  const FRESH := Row(Status.Created, 0, None, None, 100, false, false, 0, 2)
  const IDLE := Manager(Idle)

  lemma TwoProcesses() returns (acts: seq<Action>, s: State)
    ensures Exec(INIT, acts) == s
    ensures s == State(0, map[], map[], None, None, map[1 := IDLE, 2 := IDLE], [], [])
  {
    acts, s := [], INIT;
    acts, s := Extend(acts, s, Boot(1));
    acts, s := Extend(acts, s, Boot(2));
  }

  lemma TwoRuns() returns (acts: seq<Action>, s: State)
    ensures Exec(INIT, acts) == s
    ensures s == State(0, map[0 := FRESH, 1 := FRESH], map[], None, None, map[1 := IDLE, 2 := IDLE], [], [])
  {
    acts, s := TwoProcesses();
    acts, s := Extend(acts, s, Create(0, 100, 2));
    acts, s := Extend(acts, s, Create(1, 100, 2));
  }

  /** Two processes and two runs; the first process has the permit and the admission lock. */
  lemma FirstAdmissionBegun() returns (acts: seq<Action>, s: State)
    ensures Exec(INIT, acts) == s
    ensures s == State(0, map[0 := FRESH, 1 := FRESH], map[], Some(Admission(1, 0)), Some(1),
                       map[1 := Manager(Starting(0)), 2 := IDLE], [], [])
  {
    acts, s := TwoRuns();
    acts, s := Extend(acts, s, TakePermit(1, 0));
    assert s == State(0, map[0 := FRESH, 1 := FRESH], map[], None, Some(1),
                      map[1 := Manager(Starting(0)), 2 := IDLE], [], []);
    acts, s := Extend(acts, s, AcquireBegin(1));
  }

  lemma FirstRowAcquired()
    ensures AcquireRun(FRESH, 0, 1, 10) == (Acquired, FIRST)
  {
  }

  lemma AcquireCommitOf(s: State, r: RunId, m: Owner, lease: nat, row: Row)
    requires s.admission == Some(Admission(m, r)) && r in s.rows && r !in s.txns && PhaseOf(s, m) == Starting(r)
    requires AcquireRun(s.rows[r], s.now, m, lease) == (Acquired, row) && !Terminal(row.status)
    ensures NextAcquireCommit(s, m, lease) ==
      s.(rows := s.rows[r := row], admission := None,
         managers := s.managers[m := s.managers[m].(phase := Working(Token(r, m, row.epoch)))])
  {
  }

  lemma FirstRunAcquired() returns (acts: seq<Action>, s: State)
    ensures Exec(INIT, acts) == s
    ensures s == State(0, map[0 := FIRST, 1 := FRESH], map[], None, Some(1),
                       map[1 := Manager(Working(Token(0, 1, 1))), 2 := IDLE], [], [])
  {
    acts, s := FirstAdmissionBegun();
    FirstRowAcquired();
    AcquireCommitOf(s, 0, 1, 10, FIRST);
    acts, s := Extend(acts, s, AcquireCommit(1, 10));
  }

  lemma HeartbeatOpens() returns (acts: seq<Action>, s: State)
    ensures Exec(INIT, acts) == s
    ensures s == State(9, map[0 := FIRST, 1 := FRESH], map[0 := Beat(Token(0, 1, 1), 19)], None, Some(1),
                       map[1 := Manager(Working(Token(0, 1, 1))), 2 := IDLE], [], [])
  {
    acts, s := FirstRunAcquired();
    acts, s := Extend(acts, s, Tick(9));
    acts, s := Extend(acts, s, BeatBegin(1, 10));
  }

  /** The lease runs out under an open heartbeat transaction, and the permit session is lost. */
  lemma HeartbeatIsLate() returns (acts: seq<Action>, s: State)
    ensures Exec(INIT, acts) == s
    ensures s == State(11, map[0 := FIRST, 1 := FRESH], map[0 := Beat(Token(0, 1, 1), 19)], None, None,
                       map[1 := Manager(Working(Token(0, 1, 1))), 2 := IDLE], [], [])
  {
    acts, s := HeartbeatOpens();
    acts, s := Extend(acts, s, Tick(2));
    acts, s := Extend(acts, s, SessionLost(1));
  }

  /** The state `LateHeartbeatBreaks` starts from is reachable, so two live runs are. */
  lemma TwoLiveRunsAreReachable()
    ensures exists acts :: !AtMostOneLive(Exec(INIT, acts))
  {
    var acts, s := HeartbeatIsLate();
    LateHeartbeatBreaks(s, 0, 2, 1, 10);
    acts, s := Extend(acts, s, TakePermit(2, 1));
    acts, s := Extend(acts, s, AcquireBegin(2));
    acts, s := Extend(acts, s, AcquireCommit(2, 10));
    acts, s := Extend(acts, s, BeatCommit(0));
  }

  lemma Snoc(acts: seq<Action>, a: Action)
    ensures Exec(INIT, acts + [a]) == Next(Exec(INIT, acts), a)
  {
    assert (acts + [a])[..|acts + [a]| - 1] == acts;
  }

  lemma Extend(acts: seq<Action>, s: State, a: Action) returns (acts': seq<Action>, s': State)
    requires Exec(INIT, acts) == s
    ensures Exec(INIT, acts') == s' && s' == Next(s, a)
  {
    Snoc(acts, a);
    acts', s' := acts + [a], Next(s, a);
  }
}
