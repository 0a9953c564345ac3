/**
 Safety of the run protocol over every interleaving: fencing, epoch order, a single
 terminal outcome and cancellation precedence.
 */
module RunSafety {
  import opened Common
  import opened RunProtocol

  predicate RowOk(row: Row) {
    && (Terminal(row.status) ==> row.lease.None?)
    && (Terminal(row.status) ==> (row.status.Cancelled? <==> row.cancel))
    && (row.status.Cancelling? ==> row.cancel)
    && (!Terminal(row.status) && row.cancel ==> row.status.Cancelling?)
    && (row.status.Created? ==> row.epoch == 0)
    && (row.epoch == 0 ==> row.lease.None? && row.owner.None? && row.recoveries == 0 && !row.status.Running?)
    && (row.epoch > 0 ==> row.owner.Some? && row.epoch == row.recoveries + 1)
    && row.recoveries <= row.maxRecoveries
  }

  /** While a transaction holds the row lock the row still satisfies what its guard saw, except time and revocation. */
  predicate TxnOk(s: State, r: RunId)
    requires r in s.txns
  {
    var t := s.txns[r].token;
    && t.run == r && r in s.rows
    && s.rows[r].owner == Some(t.owner) && s.rows[r].epoch == t.epoch
    && !s.rows[r].cancel && s.rows[r].status.Running? && s.rows[r].lease.Some?
  }

  predicate TokenOk(s: State, m: Owner, t: Token) {
    && t.owner == m && t.run in s.rows && 0 < t.epoch <= s.rows[t.run].epoch
    && (t.epoch == s.rows[t.run].epoch ==> s.rows[t.run].owner == Some(m))
  }

  predicate ManagerOk(s: State, m: Owner)
    requires m in s.managers
  {
    var p := s.managers[m].phase;
    p.Working? || p.Draining? || p.Finalizing? || p.Releasing? ==> TokenOk(s, m, p.token)
  }

  predicate CommitOk(s: State, c: Commit) {
    c.token.run in s.rows && c.token.epoch <= s.rows[c.token.run].epoch
    && (c.token.epoch == s.rows[c.token.run].epoch ==> s.rows[c.token.run].owner == Some(c.token.owner))
  }

  predicate Ordered(c: Commit, d: Commit) {
    c.token.run == d.token.run ==>
      c.token.epoch <= d.token.epoch && (c.token.epoch == d.token.epoch ==> c.token.owner == d.token.owner)
  }

  predicate EndOk(s: State, e: End) {
    e.run in s.rows && Terminal(e.status) && s.rows[e.run].status == e.status
  }

  predicate RowsOk(s: State) {
    forall r :: r in s.rows ==> RowOk(s.rows[r])
  }

  predicate TxnsOk(s: State) {
    forall r :: r in s.txns ==> TxnOk(s, r)
  }

  predicate ManagersOk(s: State) {
    forall m :: m in s.managers ==> ManagerOk(s, m)
  }

  predicate AdmissionOk(s: State) {
    s.admission.Some? ==>
      var adm := s.admission.value;
      adm.manager in s.managers
      && (PhaseOf(s, adm.manager) == Starting(adm.run) || PhaseOf(s, adm.manager).Dead?)
  }

  predicate WritesOk(s: State) {
    && (forall i :: 0 <= i < |s.writes| ==> CommitOk(s, s.writes[i]))
    && (forall i, j :: 0 <= i < j < |s.writes| ==> Ordered(s.writes[i], s.writes[j]))
  }

  predicate EndsOk(s: State) {
    && (forall i :: 0 <= i < |s.ends| ==> EndOk(s, s.ends[i]))
    && (forall i, j :: 0 <= i < j < |s.ends| ==> s.ends[i].run != s.ends[j].run)
    && (forall r :: r in s.rows && Terminal(s.rows[r].status) ==> End(r, s.rows[r].status) in s.ends)
  }

  /** A transaction in flight belongs to a callback or heartbeat that has not been drained, or to a dead process. */
  predicate DrainOk(s: State) {
    forall r :: r in s.txns ==>
      var t := s.txns[r].token;
      var p := PhaseOf(s, t.owner);
      t.owner in s.managers && (p.Dead? || ((p.Working? || p.Draining?) && p.token == t))
  }

  predicate Inv(s: State) {
    RowsOk(s) && TxnsOk(s) && ManagersOk(s) && AdmissionOk(s) && WritesOk(s) && EndsOk(s) && DrainOk(s)
  }

  /** Every row known before is still there, no older, owned by the same owner in the same epoch. */
  predicate Grows(s: State, s': State) {
    forall r :: r in s.rows ==>
      && r in s'.rows
      && s.rows[r].epoch <= s'.rows[r].epoch
      && (s.rows[r].epoch == s'.rows[r].epoch ==> s.rows[r].owner == s'.rows[r].owner)
      && (s.rows[r].cancel ==> s'.rows[r].cancel)
      && (Terminal(s.rows[r].status) ==> s'.rows[r].status == s.rows[r].status)
  }

  lemma TokensKept(s: State, s': State)
    requires ManagersOk(s) && Grows(s, s') && s'.managers == s.managers
    ensures ManagersOk(s')
  {
    forall m | m in s'.managers ensures ManagerOk(s', m) { assert ManagerOk(s, m); }
  }

  lemma WritesKept(s: State, s': State)
    requires WritesOk(s) && Grows(s, s') && s'.writes == s.writes
    ensures WritesOk(s')
  {
    forall i | 0 <= i < |s'.writes| ensures CommitOk(s', s'.writes[i]) { assert CommitOk(s, s.writes[i]); }
  }

  lemma EndsKept(s: State, s': State)
    requires EndsOk(s) && Grows(s, s') && s'.ends == s.ends
    requires forall r :: r in s'.rows && Terminal(s'.rows[r].status) ==> r in s.rows && Terminal(s.rows[r].status)
    ensures EndsOk(s')
  {
    forall i | 0 <= i < |s'.ends| ensures EndOk(s', s'.ends[i]) { assert EndOk(s, s.ends[i]); }
  }

  /** What any routine may do to a row that is not locked by a transaction. */
  predicate RowStep(row: Row, row': Row) {
    && row.epoch <= row'.epoch
    && (row.epoch == row'.epoch ==> row.owner == row'.owner)
    && (row.cancel ==> row'.cancel)
    && (Terminal(row.status) ==> row' == row)
    && RowOk(row')
  }

  lemma PutRowKeepsEnds(s: State, r: RunId, row: Row)
    requires EndsOk(s) && r in s.rows && RowStep(s.rows[r], row)
    ensures EndsOk(PutRow(s, r, row))
  {
    var s' := PutRow(s, r, row);
    forall i | 0 <= i < |s'.ends| ensures EndOk(s', s'.ends[i]) {
      if i < |s.ends| { assert EndOk(s, s.ends[i]); }
    }
    forall i, j | 0 <= i < j < |s'.ends| ensures s'.ends[i].run != s'.ends[j].run {
      assert EndOk(s, s.ends[i]);
    }
    forall q | q in s'.rows && Terminal(s'.rows[q].status) ensures End(q, s'.rows[q].status) in s'.ends {
      if q != r || Terminal(s.rows[r].status) {
        assert End(q, s.rows[q].status) in s.ends;
      } else {
        assert s'.ends[|s.ends|] == End(q, s'.rows[q].status);
      }
    }
  }

  lemma PutRowKeepsInv(s: State, r: RunId, row: Row)
    requires Inv(s) && r in s.rows && r !in s.txns && RowStep(s.rows[r], row)
    ensures Inv(PutRow(s, r, row)) && Grows(s, PutRow(s, r, row))
  {
    hide RowOk, WritesOk, EndsOk, ManagerOk;
    var s' := PutRow(s, r, row);
    assert Grows(s, s');
    TokensKept(s, s');
    WritesKept(s, s');
    forall q | q in s'.txns ensures TxnOk(s', q) { assert TxnOk(s, q); }
    PutRowKeepsEnds(s, r, row);
  }

  lemma AcquireStep(row: Row, now: int, owner: Owner, lease: nat)
    requires RowOk(row)
    ensures RowStep(row, AcquireRun(row, now, owner, lease).1)
  {
  }

  lemma FinalizeStep(row: Row, t: Token, outcome: Status, now: int)
    requires RowOk(row) && Terminal(outcome) && !outcome.Cancelled?
    ensures RowStep(row, FinalizeRun(row, t, outcome, now))
  {
  }

  lemma GiveBackKeepsInv(s: State, m: Owner)
    requires Inv(s) && m in s.managers && (PhaseOf(s, m).Starting? || PhaseOf(s, m).Releasing?)
    ensures Inv(GiveBack(s, m)) && Grows(s, GiveBack(s, m))
  {
    hide RowOk, WritesOk, EndsOk;
    var s' := GiveBack(s, m);
    forall n | n in s'.managers ensures ManagerOk(s', n) { assert ManagerOk(s, n); }
    forall q | q in s'.txns ensures TxnOk(s', q) { assert TxnOk(s, q); }
    WritesKept(s, s');
    EndsKept(s, s');
  }

  /** The supervision phases follow each other; a phase change of a manager is legal when it moves along this order. */
  predicate PhaseStep(s: State, m: Owner, p: Phase)
    requires m in s.managers
  {
    var q := PhaseOf(s, m);
    || p.Dead?
    || (p.Working? && q.Starting? && TokenOk(s, m, p.token) && s.admission.None?)
    || (p.Draining? && q == Working(p.token))
    || (p.Finalizing? && q == Draining(p.token, p.reason) && InFlight(s, m) == {})
    || (p.Releasing? && q.Finalizing? && q.token == p.token)
  }

  lemma SetPhaseKeepsInv(s: State, m: Owner, p: Phase)
    requires Inv(s) && m in s.managers && PhaseStep(s, m, p)
    ensures Inv(SetPhase(s, m, p)) && Grows(s, SetPhase(s, m, p))
  {
    hide RowOk, WritesOk, EndsOk;
    var s' := SetPhase(s, m, p);
    assert ManagerOk(s, m);
    forall n | n in s'.managers ensures ManagerOk(s', n) { assert ManagerOk(s, n); }
    forall q | q in s'.txns ensures TxnOk(s', q) { assert TxnOk(s, q); }
    assert p.Finalizing? ==> forall q :: q in s.txns && s.txns[q].token.owner == m ==> q in InFlight(s, m);
    WritesKept(s, s');
    EndsKept(s, s');
  }

  lemma ManagerHasToken(s: State, m: Owner)
    requires Inv(s) && m in s.managers
    requires var p := PhaseOf(s, m); p.Working? || p.Draining? || p.Finalizing? || p.Releasing?
    ensures TokenOk(s, m, PhaseOf(s, m).token)
    ensures s.admission.Some? ==> s.admission.value.manager != m
  {
    assert ManagerOk(s, m);
  }

  lemma AdmissionClosedKeepsInv(s: State)
    requires Inv(s)
    ensures Inv(s.(admission := None)) && Grows(s, s.(admission := None))
  {
    hide RowOk, WritesOk, EndsOk;
    var s' := s.(admission := None);
    forall q | q in s'.txns ensures TxnOk(s', q) { assert TxnOk(s, q); }
    TokensKept(s, s');
    WritesKept(s, s');
    EndsKept(s, s');
  }

  lemma AcquireCommitKeepsInv(s: State, m: Owner, lease: nat)
    requires Inv(s)
    ensures Inv(NextAcquireCommit(s, m, lease)) && Grows(s, NextAcquireCommit(s, m, lease))
  {
    if s.admission.Some? && s.admission.value.manager == m && s.admission.value.run in s.rows
       && s.admission.value.run !in s.txns {
      var r := s.admission.value.run;
      var (outcome, row) := AcquireRun(s.rows[r], s.now, m, lease);
      AcquireStep(s.rows[r], s.now, m, lease);
      PutRowKeepsInv(s, r, row);
      AdmissionClosedKeepsInv(PutRow(s, r, row));
      AcquirePhaseKeepsInv(s, PutRow(s, r, row).(admission := None), m, lease);
    }
  }

  lemma AcquirePhaseKeepsInv(s: State, s1: State, m: Owner, lease: nat)
    requires s.admission.Some? && s.admission.value.manager == m && m in s.managers
    requires s.admission.value.run in s.rows && s.admission.value.run !in s.txns
    requires s1 == PutRow(s, s.admission.value.run, AcquireRun(s.rows[s.admission.value.run], s.now, m, lease).1).(admission := None)
    requires Inv(s1) && Grows(s, s1)
    ensures Inv(NextAcquireCommit(s, m, lease)) && Grows(s, NextAcquireCommit(s, m, lease))
  {
    var r := s.admission.value.run;
    var (outcome, row) := AcquireRun(s.rows[r], s.now, m, lease);
    if PhaseOf(s, m) == Starting(r) {
      if outcome.Acquired? {
        SetPhaseKeepsInv(s1, m, Working(Token(r, m, row.epoch)));
      } else {
        GiveBackKeepsInv(s1, m);
      }
    }
  }

  lemma ManagerEndKeepsInv(s: State, m: Owner)
    requires Inv(s)
    ensures Inv(NextManagerEnd(s, m)) && Grows(s, NextManagerEnd(s, m))
  {
    hide TxnsOk, AdmissionOk, WritesOk, EndsOk, DrainOk;
    var p := PhaseOf(s, m);
    if p.Finalizing? {
      ManagerHasToken(s, m);
      var r := p.token.run;
      if LeavesRow(p.reason) || r !in s.rows {
        SetPhaseKeepsInv(s, m, Releasing(p.token));
      } else if r !in s.txns {
        var row := FinalizeRun(s.rows[r], p.token, Failed, s.now);
        FinalizeStep(s.rows[r], p.token, Failed, s.now);
        hide RowStep, FinalizeRun;
        PutRowKeepsInv(s, r, row);
        SetPhaseKeepsInv(PutRow(s, r, row), m, Releasing(p.token));
      }
    }
  }

  /** Time moves, a transaction or the permit session is dropped, and no row or manager changes. */
  lemma QuietKeepsInv(s: State, s': State)
    requires Inv(s) && s' == s.(now := s'.now, txns := s'.txns, permit := s'.permit)
    requires forall q :: q in s'.txns ==> q in s.txns && s'.txns[q] == s.txns[q]
    ensures Inv(s') && Grows(s, s')
  {
    hide RowOk, WritesOk, EndsOk;
    forall r | r in s'.txns ensures TxnOk(s', r) { assert TxnOk(s, r); }
    TokensKept(s, s');
    WritesKept(s, s');
    EndsKept(s, s');
  }

  lemma QuietActionsKeepInv(s: State, a: Action)
    requires Inv(s) && (a.Tick? || a.TxnAbort? || a.SessionLost?)
    ensures Inv(Next(s, a)) && Grows(s, Next(s, a))
  {
    QuietKeepsInv(s, Next(s, a));
  }

  /** A run that is new has no epoch, no lease and no end. */
  lemma NewRowKeepsInv(s: State, s': State, r: RunId, row: Row)
    requires Inv(s) && r !in s.rows && RowOk(row) && !Terminal(row.status) && s' == s.(rows := s.rows[r := row])
    ensures Inv(s') && Grows(s, s')
  {
    hide WritesOk, EndsOk, ManagerOk, RowOk;
    assert Grows(s, s');
    forall q | q in s'.txns ensures TxnOk(s', q) { assert TxnOk(s, q); }
    TokensKept(s, s');
    WritesKept(s, s');
    EndsKept(s, s');
  }

  lemma CreateKeepsInv(s: State, r: RunId, deadline: int, maxRecoveries: nat)
    requires Inv(s)
    ensures Inv(Next(s, Create(r, deadline, maxRecoveries))) && Grows(s, Next(s, Create(r, deadline, maxRecoveries)))
  {
    if r !in s.rows && deadline > s.now {
      var row := Row(Status.Created, 0, None, None, deadline, false, false, 0, maxRecoveries);
      NewRowKeepsInv(s, Next(s, Create(r, deadline, maxRecoveries)), r, row);
    }
  }

  /** Revocation and a heartbeat commit change a row in place whatever transaction holds its lock. */
  lemma InPlaceKeepsInv(s: State, s': State, r: RunId, row: Row)
    requires Inv(s) && r in s.rows && RowOk(row)
    requires s' == s.(rows := s.rows[r := row], txns := s'.txns)
    requires forall q :: q in s'.txns ==> q in s.txns && s'.txns[q] == s.txns[q]
    requires row.epoch == s.rows[r].epoch && row.owner == s.rows[r].owner && row.cancel == s.rows[r].cancel
    requires row.status == s.rows[r].status && (r in s'.txns ==> row.lease.Some?)
    ensures Inv(s') && Grows(s, s')
  {
    hide WritesOk, EndsOk, ManagerOk, RowOk;
    assert Grows(s, s');
    forall q | q in s'.txns ensures TxnOk(s', q) { assert TxnOk(s, q); }
    TokensKept(s, s');
    WritesKept(s, s');
    EndsKept(s, s');
  }

  lemma BeatCommitKeepsInv(s: State, r: RunId)
    requires Inv(s)
    ensures Inv(Next(s, BeatCommit(r))) && Grows(s, Next(s, BeatCommit(r)))
  {
    if r in s.txns && s.txns[r].Beat? {
      assert TxnOk(s, r);
      assert RowOk(s.rows[r]);
      InPlaceKeepsInv(s, Next(s, BeatCommit(r)), r, s.rows[r].(lease := Some(s.txns[r].expires)));
    }
  }

  lemma RevokeKeepsInv(s: State, r: RunId)
    requires Inv(s)
    ensures Inv(Next(s, Revoke(r))) && Grows(s, Next(s, Revoke(r)))
  {
    if r in s.rows {
      if r in s.txns { assert TxnOk(s, r); }
      assert RowOk(s.rows[r]);
      InPlaceKeepsInv(s, Next(s, Revoke(r)), r, s.rows[r].(revoked := true));
    }
  }

  /** A transaction opens under the row lock of its own run, for the execution its manager supervises. */
  lemma OpenTxnKeepsInv(s: State, s': State, m: Owner, txn: Txn)
    requires Inv(s) && PhaseOf(s, m) == Working(txn.token) && txn.token.run in s.rows && txn.token.run !in s.txns
    requires Guard(s.rows[txn.token.run], txn.token, s.now) && s' == s.(txns := s.txns[txn.token.run := txn])
    ensures Inv(s') && Grows(s, s')
  {
    hide RowOk, WritesOk, EndsOk, ManagerOk;
    ManagerHasToken(s, m);
    forall r | r in s'.txns ensures TxnOk(s', r) {
      if r != txn.token.run { assert TxnOk(s, r); }
    }
    TokensKept(s, s');
    WritesKept(s, s');
    EndsKept(s, s');
  }

  lemma BeginActionsKeepInv(s: State, a: Action)
    requires Inv(s) && (a.BeatBegin? || a.WriteBegin?)
    ensures Inv(Next(s, a)) && Grows(s, Next(s, a))
  {
    var s' := Next(s, a);
    if s' != s {
      OpenTxnKeepsInv(s, s', a.m, s'.txns[PhaseOf(s, a.m).token.run]);
    }
  }

  /** A manager that joins, or that takes the free permit to start a run, has nothing in flight. */
  lemma NewManagerKeepsInv(s: State, s': State, m: Owner, mgr: Manager)
    requires Inv(s) && (mgr.phase.Idle? || mgr.phase.Starting?)
    requires m in s.managers ==> s.managers[m].phase.Idle?
    requires s' == s.(managers := s.managers[m := mgr], permit := s'.permit)
    ensures Inv(s') && Grows(s, s')
  {
    hide RowOk, WritesOk, EndsOk;
    forall n | n in s'.managers ensures ManagerOk(s', n) { if n in s.managers { assert ManagerOk(s, n); } }
    forall r | r in s'.txns ensures TxnOk(s', r) { assert TxnOk(s, r); }
    WritesKept(s, s');
    EndsKept(s, s');
  }

  lemma BootKeepsInv(s: State, m: Owner)
    requires Inv(s)
    ensures Inv(Next(s, Boot(m))) && Grows(s, Next(s, Boot(m)))
  {
    if m !in s.managers { NewManagerKeepsInv(s, Next(s, Boot(m)), m, Manager(Idle)); }
  }

  lemma TakePermitKeepsInv(s: State, m: Owner, r: RunId)
    requires Inv(s)
    ensures Inv(Next(s, TakePermit(m, r))) && Grows(s, Next(s, TakePermit(m, r)))
  {
    if PhaseOf(s, m).Idle? && s.permit.None? {
      assert ManagerOk(s, m);
      NewManagerKeepsInv(s, Next(s, TakePermit(m, r)), m, Manager(Starting(r)));
    }
  }

  /** A commit under the row lock is the latest of its run so far. */
  lemma CommitKeepsWrites(s: State, s': State, r: RunId)
    requires WritesOk(s) && r in s.txns && TxnOk(s, r) && s'.rows == s.rows
    requires s'.writes == s.writes + [Commit(s.txns[r].token, s.now)]
    ensures WritesOk(s')
  {
    forall i | 0 <= i < |s'.writes| ensures CommitOk(s', s'.writes[i]) {
      if i < |s.writes| { assert CommitOk(s, s.writes[i]); }
    }
    forall i, j | 0 <= i < j < |s'.writes| ensures Ordered(s'.writes[i], s'.writes[j]) {
      assert CommitOk(s, s.writes[i]);
    }
  }

  lemma WriteCommitKeepsInv(s: State, r: RunId)
    requires Inv(s)
    ensures Inv(Next(s, WriteCommit(r))) && Grows(s, Next(s, WriteCommit(r)))
  {
    hide RowOk, WritesOk, EndsOk, ManagerOk, Guard;
    var s' := Next(s, WriteCommit(r));
    forall q | q in s'.txns ensures TxnOk(s', q) { assert TxnOk(s, q); }
    TokensKept(s, s');
    EndsKept(s, s');
    if s'.writes == s.writes {
      WritesKept(s, s');
    } else {
      CommitKeepsWrites(s, s', r);
    }
  }

  lemma AcquireBeginKeepsInv(s: State, m: Owner)
    requires Inv(s)
    ensures Inv(Next(s, AcquireBegin(m))) && Grows(s, Next(s, AcquireBegin(m)))
  {
    hide RowOk, WritesOk, EndsOk;
    var p := PhaseOf(s, m);
    if p.Starting? && s.admission.None? {
      var s' := Next(s, AcquireBegin(m));
      if p.run !in s.rows || (Eligible(s.rows[p.run], s.now) && AnyLive(s)) {
        GiveBackKeepsInv(s, m);
      } else {
        forall q | q in s'.txns ensures TxnOk(s', q) { assert TxnOk(s, q); }
        TokensKept(s, s');
        WritesKept(s, s');
        EndsKept(s, s');
      }
    }
  }

  /** Actions of one manager's supervision. */
  lemma ManagerActionsKeepInv(s: State, a: Action)
    requires Inv(s)
    requires a.StartAbort? || a.Stop? || a.Drained? || a.ManagerEndFailed? || a.Release? || a.Crash?
    ensures Inv(Next(s, a)) && Grows(s, Next(s, a))
  {
    hide RowsOk, TxnsOk, ManagersOk, AdmissionOk, WritesOk, EndsOk, DrainOk;
    var p := PhaseOf(s, a.m);
    if Next(s, a) != s {
      match a
      case StartAbort(m) => GiveBackKeepsInv(s, m);
      case Release(m) => GiveBackKeepsInv(s, m);
      case Stop(m, reason) => SetPhaseKeepsInv(s, m, Draining(p.token, reason));
      case Drained(m) => SetPhaseKeepsInv(s, m, Finalizing(p.token, p.reason));
      case ManagerEndFailed(m) => SetPhaseKeepsInv(s, m, Releasing(p.token));
      case Crash(m) => SetPhaseKeepsInv(s, m, Dead);
    }
  }

  lemma CancelKeepsInv(s: State, r: RunId)
    requires Inv(s)
    ensures Inv(Next(s, Cancel(r))) && Grows(s, Next(s, Cancel(r)))
  {
    if r in s.rows && r !in s.txns && !Terminal(s.rows[r].status) && !s.rows[r].cancel {
      assert RowOk(s.rows[r]);
      hide Inv;
      PutRowKeepsInv(s, r, s.rows[r].(status := Cancelling, cancel := true));
    }
  }

  lemma RecoverKeepsInv(s: State, r: RunId)
    requires Inv(s)
    ensures Inv(Next(s, Recover(r))) && Grows(s, Next(s, Recover(r)))
  {
    if r in s.rows && r !in s.txns {
      assert RowOk(s.rows[r]);
      hide Inv;
      PutRowKeepsInv(s, r, RecoverRun(s.rows[r], s.now));
    }
  }

  lemma GraphEndKeepsInv(s: State, m: Owner, outcome: Status)
    requires Inv(s)
    ensures Inv(Next(s, GraphEnd(m, outcome))) && Grows(s, Next(s, GraphEnd(m, outcome)))
  {
    var p := PhaseOf(s, m);
    if p.Working? && p.token.run in s.rows && p.token.run !in s.txns && (outcome.Completed? || outcome.Refused?) {
      FinalizeStep(s.rows[p.token.run], p.token, outcome, s.now);
      hide Inv, RowStep, FinalizeRun;
      PutRowKeepsInv(s, p.token.run, FinalizeRun(s.rows[p.token.run], p.token, outcome, s.now));
    }
  }

  lemma NextKeepsInv(s: State, a: Action)
    requires Inv(s)
    ensures Inv(Next(s, a)) && Grows(s, Next(s, a))
  {
    hide Inv, Grows;
    if a.StartAbort? || a.Stop? || a.Drained? || a.ManagerEndFailed? || a.Release? || a.Crash? {
      ManagerActionsKeepInv(s, a);
    } else if a.Tick? || a.TxnAbort? || a.SessionLost? {
      QuietActionsKeepInv(s, a);
    } else if a.BeatBegin? || a.WriteBegin? {
      BeginActionsKeepInv(s, a);
    } else {
      hide NextAcquireCommit, NextManagerEnd;
      match a
      case Cancel(r) => CancelKeepsInv(s, r);
      case Recover(r) => RecoverKeepsInv(s, r);
      case GraphEnd(m, outcome) => GraphEndKeepsInv(s, m, outcome);
      case AcquireCommit(m, lease) => AcquireCommitKeepsInv(s, m, lease);
      case ManagerEnd(m) => ManagerEndKeepsInv(s, m);
      case WriteCommit(r) => WriteCommitKeepsInv(s, r);
      case Boot(m) => BootKeepsInv(s, m);
      case TakePermit(m, r) => TakePermitKeepsInv(s, m, r);
      case AcquireBegin(m) => AcquireBeginKeepsInv(s, m);
      case Create(r, deadline, maxRecoveries) => CreateKeepsInv(s, r, deadline, maxRecoveries);
      case Revoke(r) => RevokeKeepsInv(s, r);
      case BeatCommit(r) => BeatCommitKeepsInv(s, r);
    }
  }

  lemma {:induction false} ExecKeepsInv(acts: seq<Action>)
    ensures Inv(Exec(INIT, acts))
  {
    if acts != [] {
      ExecKeepsInv(acts[..|acts| - 1]);
      NextKeepsInv(Exec(INIT, acts[..|acts| - 1]), acts[|acts| - 1]);
    }
  }

  /** Only the commit of a guarded write appends to the log of committed writes. */
  lemma OnlyCommitsWrite(s: State, a: Action)
    ensures Next(s, a).writes == s.writes
            || (a.WriteCommit? && a.r in s.txns && a.r in s.rows && Guard(s.rows[a.r], s.txns[a.r].token, s.now)
                && Next(s, a).writes == s.writes + [Commit(s.txns[a.r].token, s.now)])
  {
  }

  lemma GrowsOn(s: State, t: State, u: State)
    requires Grows(s, t) && Grows(t, u)
    ensures Grows(s, u)
  {
  }

  lemma StepGrows(acts: seq<Action>, a: Action)
    ensures Grows(Exec(INIT, acts), Next(Exec(INIT, acts), a))
  {
    ExecKeepsInv(acts);
    NextKeepsInv(Exec(INIT, acts), a);
  }

  lemma {:induction false} ExecGrows(acts: seq<Action>, more: seq<Action>)
    ensures Grows(Exec(INIT, acts), Exec(INIT, acts + more))
  {
    if more == [] {
      assert acts + more == acts;
    } else {
      var front, a := more[..|more| - 1], more[|more| - 1];
      assert (acts + more)[..|acts + more| - 1] == acts + front;
      ExecGrows(acts, front);
      StepGrows(acts + front, a);
      GrowsOn(Exec(INIT, acts), Exec(INIT, acts + front), Next(Exec(INIT, acts + front), a));
    }
  }

  // ---------------------------------------------------------------- main results

  /**
   Over any two points of any execution: the epoch of a run never decreases and names one owner;
   a terminal outcome never changes again; a run whose cancellation was requested before it ended can only end
   as cancelled, and only such a run does; a run is acquired at most once plus its recovery allowance.
   */
  lemma RunHistory(acts: seq<Action>, more: seq<Action>, r: RunId)
    requires r in Exec(INIT, acts).rows
    ensures r in Exec(INIT, acts + more).rows
    ensures var row, row' := Exec(INIT, acts).rows[r], Exec(INIT, acts + more).rows[r];
            && row.epoch <= row'.epoch
            && (row.epoch == row'.epoch ==> row.owner == row'.owner)
            && (Terminal(row.status) ==> row'.status == row.status)
            && (row.cancel && Terminal(row'.status) ==> row'.status.Cancelled?)
            && (row'.status.Cancelled? ==> row'.cancel)
            && row'.epoch <= row'.maxRecoveries + 1
  {
    ExecGrows(acts, more);
    ExecKeepsInv(acts + more);
    assert RowOk(Exec(INIT, acts + more).rows[r]);
  }

  /** Committed writes of one run are ordered by epoch, and one epoch writes for one owner only. */
  lemma WritesAreEpochOrdered(acts: seq<Action>, i: nat, j: nat)
    requires i < j < |Exec(INIT, acts).writes|
    requires Exec(INIT, acts).writes[i].token.run == Exec(INIT, acts).writes[j].token.run
    ensures var a, b := Exec(INIT, acts).writes[i].token, Exec(INIT, acts).writes[j].token;
            a.epoch <= b.epoch && (a.epoch == b.epoch ==> a.owner == b.owner)
  {
    ExecKeepsInv(acts);
    assert Ordered(Exec(INIT, acts).writes[i], Exec(INIT, acts).writes[j]);
  }

  lemma CommitIsCurrent(s0: State, s: State, r: RunId, t: Token)
    requires Inv(s) && Grows(s0, s) && t.run in s0.rows
    requires t.epoch < s0.rows[t.run].epoch || Terminal(s0.rows[t.run].status)
             || (s0.rows[t.run].cancel && t.epoch == s0.rows[t.run].epoch)
    ensures r in s.txns && r in s.rows && Guard(s.rows[r], s.txns[r].token, s.now) ==> s.txns[r].token != t
  {
    if r in s.txns { assert TxnOk(s, r); }
  }

  /**
   Once a run has been acquired in a later epoch, ended or been asked to cancel, no execution of an earlier token ever
   commits again, whatever transactions it still has open.
   */
  lemma {:induction false} SupersededTokenNeverCommits(acts: seq<Action>, more: seq<Action>, t: Token)
    requires t.run in Exec(INIT, acts).rows
    requires var row := Exec(INIT, acts).rows[t.run];
             t.epoch < row.epoch || Terminal(row.status) || (row.cancel && t.epoch == row.epoch)
    ensures |Exec(INIT, acts).writes| <= |Exec(INIT, acts + more).writes|
    ensures forall i :: |Exec(INIT, acts).writes| <= i < |Exec(INIT, acts + more).writes| ==>
                          Exec(INIT, acts + more).writes[i].token != t
  {
    if more == [] {
      assert acts + more == acts;
    } else {
      var front := more[..|more| - 1];
      assert (acts + more)[..|acts + more| - 1] == acts + front;
      SupersededTokenNeverCommits(acts, front, t);
      ExecGrows(acts, front);
      ExecKeepsInv(acts);
      ExecKeepsInv(acts + front);
      OnlyCommitsWrite(Exec(INIT, acts + front), more[|more| - 1]);
      if more[|more| - 1].WriteCommit? { CommitIsCurrent(Exec(INIT, acts), Exec(INIT, acts + front), more[|more| - 1].r, t); }
    }
  }

  /** A run ends at most once, and the recorded end is the status its row keeps. */
  lemma EndsAtMostOnce(acts: seq<Action>, r: RunId)
    requires r in Exec(INIT, acts).rows
    ensures var s := Exec(INIT, acts);
            && (Terminal(s.rows[r].status) <==> exists i :: 0 <= i < |s.ends| && s.ends[i].run == r)
            && (forall i, j :: 0 <= i < j < |s.ends| ==> s.ends[i].run != s.ends[j].run)
            && (forall i :: 0 <= i < |s.ends| && s.ends[i].run == r ==> s.ends[i].status == s.rows[r].status)
  {
    ExecKeepsInv(acts);
    var s := Exec(INIT, acts);
    if Terminal(s.rows[r].status) {
      assert End(r, s.rows[r].status) in s.ends;
    }
    forall i | 0 <= i < |s.ends| && s.ends[i].run == r
      ensures s.ends[i].status == s.rows[r].status && Terminal(s.rows[r].status)
    {
      assert EndOk(s, s.ends[i]);
    }
  }
}
