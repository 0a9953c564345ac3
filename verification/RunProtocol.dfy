/**
 The lease, epoch and admission protocol of run execution, as a transition system.

 Any number of managers (processes) share one database.  A run row carries an owner,
 an execution epoch and a lease; a process-wide admission permit is a session lock; an
 acquisition is one transaction under a second lock.  Heartbeats and guarded writes are
 two-phase: the guard is evaluated when the row lock is taken, the effect appears when
 the transaction commits, and the clock may advance in between.  Managers may crash, and a
 permit session may be lost without its manager noticing, at any point.  The phases of a
 manager abstract from its tasks, which `Supervision` models one `await` at a time.
 */
module RunProtocol {
  import opened Common

  type RunId = nat
  type Owner = nat

  datatype Status = Created | Running | Cancelling | Completed | Refused | Failed | Cancelled

  predicate Terminal(s: Status) {
    s.Completed? || s.Refused? || s.Failed? || s.Cancelled?
  }

  datatype Row = Row(status: Status, epoch: nat, owner: Option<Owner>, lease: Option<int>, deadline: int,
                     cancel: bool, revoked: bool, recoveries: nat, maxRecoveries: nat)

  datatype Token = Token(run: RunId, owner: Owner, epoch: nat)

  /** A transaction holding the row lock of one run after its first guard succeeded. */
  datatype Txn = Beat(token: Token, expires: int) | Write(token: Token)

  datatype Reason = Shutdown | StaleExecution | LeaseExpired | RunNotFound | TerminalSeen
                  | CancelRequested | DeadlineExceeded | Error

  datatype Phase = Idle
                 | Starting(run: RunId)
                 | Working(token: Token)
                 | Draining(token: Token, reason: Reason)
                 | Finalizing(token: Token, reason: Reason)
                 | Releasing(token: Token)
                 | Dead

  datatype Manager = Manager(phase: Phase)

  datatype Admission = Admission(manager: Owner, run: RunId)

  datatype Commit = Commit(token: Token, at: int)

  datatype End = End(run: RunId, status: Status)

  datatype State = State(now: int, rows: map<RunId, Row>, txns: map<RunId, Txn>, admission: Option<Admission>,
                         permit: Option<Owner>, managers: map<Owner, Manager>,
                         writes: seq<Commit>, ends: seq<End>)

  const INIT := State(0, map[], map[], None, None, map[], [], [])

  datatype Action =
    | Tick(dt: nat)
    | Boot(m: Owner)
    | Create(r: RunId, deadline: int, maxRecoveries: nat)
    | Cancel(r: RunId)
    | Revoke(r: RunId)
    | Recover(r: RunId)
    | TakePermit(m: Owner, r: RunId)
    | AcquireBegin(m: Owner)
    | AcquireCommit(m: Owner, lease: nat)
    | StartAbort(m: Owner)
    | BeatBegin(m: Owner, lease: nat)
    | BeatCommit(r: RunId)
    | WriteBegin(m: Owner)
    | WriteCommit(r: RunId)
    | TxnAbort(r: RunId)
    | GraphEnd(m: Owner, outcome: Status)
    | Stop(m: Owner, reason: Reason)
    | Drained(m: Owner)
    | ManagerEnd(m: Owner)
    | ManagerEndFailed(m: Owner)
    | Release(m: Owner)
    | SessionLost(m: Owner)
    | Crash(m: Owner)

  // ---------------------------------------------------------------- database routines

  predicate LeaseLive(row: Row, now: int) {
    row.lease.Some? && now < row.lease.value
  }

  /** The predicate counted by the admission query. */
  predicate Live(row: Row, now: int) {
    (row.status.Running? || row.status.Cancelling?) && LeaseLive(row, now)
  }

  /** `agent._assert_run_write`: the guard evaluated before and after every fenced write. */
  predicate Guard(row: Row, t: Token, now: int) {
    && row.owner == Some(t.owner) && row.epoch == t.epoch
    && !row.cancel && row.status.Running?
    && now < row.deadline && LeaseLive(row, now) && !row.revoked
  }

  function EndRow(row: Row, status: Status): Row {
    row.(status := status, lease := None)
  }

  function Min(a: int, b: int): int {
    if a <= b then a else b
  }

  datatype AcquireOutcome = AlreadyTerminal | CancelPending | DeadlinePassed | AlreadyRunning
                          | RecoveryExhausted | Acquired

  /** `agent.acquire_run` with its terminal side effects. */
  function AcquireRun(row: Row, now: int, owner: Owner, lease: nat): (AcquireOutcome, Row) {
    if Terminal(row.status) then (AlreadyTerminal, row)
    else if row.cancel then
      (CancelPending, if LeaseLive(row, now) then row else EndRow(row, Cancelled))
    else if row.deadline <= now then (DeadlinePassed, EndRow(row, Failed))
    else if LeaseLive(row, now) then (AlreadyRunning, row)
    else if row.revoked then (AlreadyTerminal, EndRow(row, Failed))
    else if row.epoch > 0 && row.recoveries >= row.maxRecoveries then (RecoveryExhausted, EndRow(row, Failed))
    else (Acquired, row.(status := Running, owner := Some(owner), epoch := row.epoch + 1,
                         recoveries := row.recoveries + (if row.epoch > 0 then 1 else 0),
                         lease := Some(Min(row.deadline, now + lease))))
  }

  /** `agent.recover_runs` for one unlocked row. */
  function RecoverRun(row: Row, now: int): Row {
    if Terminal(row.status) || !(!LeaseLive(row, now) || (!row.cancel && row.deadline <= now)) then row
    else if row.cancel then EndRow(row, Cancelled)
    else if row.deadline <= now || row.revoked || (row.epoch > 0 && row.recoveries >= row.maxRecoveries)
    then EndRow(row, Failed)
    else row
  }

  /** `agent.finalize_run`: cancellation, deadline and revocation take precedence over the caller's outcome. */
  function FinalizeRun(row: Row, t: Token, outcome: Status, now: int): Row {
    if row.owner != Some(t.owner) || row.epoch != t.epoch || Terminal(row.status) then row
    else if row.cancel then EndRow(row, Cancelled)
    else if row.deadline <= now || row.revoked then EndRow(row, Failed)
    else if !row.status.Running? || !LeaseLive(row, now) then row
    else EndRow(row, outcome)
  }

  // ---------------------------------------------------------------- transitions

  function PhaseOf(s: State, m: Owner): Phase {
    if m in s.managers then s.managers[m].phase else Dead
  }

  function SetPhase(s: State, m: Owner, p: Phase): State
    requires m in s.managers
  {
    s.(managers := s.managers[m := s.managers[m].(phase := p)])
  }

  /** Write a row; a row that becomes terminal is logged once as an end. */
  function PutRow(s: State, r: RunId, row: Row): State
    requires r in s.rows
  {
    s.(rows := s.rows[r := row],
       ends := if !Terminal(s.rows[r].status) && Terminal(row.status) then s.ends + [End(r, row.status)] else s.ends)
  }

  /** Give the permit back (a lost session has nothing to give back) and leave the active slot. */
  function GiveBack(s: State, m: Owner): State
    requires m in s.managers
  {
    s.(permit := if s.permit == Some(m) then None else s.permit,
       admission := if s.admission.Some? && s.admission.value.manager == m then None else s.admission,
       managers := s.managers[m := Manager(Idle)])
  }

  predicate AnyLive(s: State) {
    exists r :: r in s.rows && Live(s.rows[r], s.now)
  }

  predicate Eligible(row: Row, now: int) {
    !Terminal(row.status) && !row.cancel && now < row.deadline && !LeaseLive(row, now)
  }

  function Next(s: State, a: Action): State {
    match a
    case Tick(dt) => s.(now := s.now + dt)
    case Boot(m) => if m in s.managers then s else s.(managers := s.managers[m := Manager(Idle)])
    case Create(r, deadline, maxRecoveries) =>
      if r in s.rows || deadline <= s.now then s
      else s.(rows := s.rows[r := Row(Status.Created, 0, None, None, deadline, false, false, 0, maxRecoveries)])
    case Cancel(r) =>
      if r !in s.rows || r in s.txns || Terminal(s.rows[r].status) || s.rows[r].cancel then s
      else PutRow(s, r, s.rows[r].(status := Cancelling, cancel := true))
    case Revoke(r) => if r !in s.rows then s else s.(rows := s.rows[r := s.rows[r].(revoked := true)])
    case Recover(r) => if r !in s.rows || r in s.txns then s else PutRow(s, r, RecoverRun(s.rows[r], s.now))
    case TakePermit(m, r) =>
      if PhaseOf(s, m) != Idle || s.permit.Some? then s
      else s.(permit := Some(m), managers := s.managers[m := Manager(Starting(r))])
    case AcquireBegin(m) => NextAcquireBegin(s, m)
    case AcquireCommit(m, lease) => NextAcquireCommit(s, m, lease)
    case StartAbort(m) => if PhaseOf(s, m).Starting? then GiveBack(s, m) else s
    case BeatBegin(m, lease) =>
      var p := PhaseOf(s, m);
      if p.Working? && p.token.run in s.rows && p.token.run !in s.txns && Guard(s.rows[p.token.run], p.token, s.now)
      then s.(txns := s.txns[p.token.run := Beat(p.token, Min(s.rows[p.token.run].deadline, s.now + lease))])
      else s
    case BeatCommit(r) =>
      if r in s.txns && s.txns[r].Beat? && r in s.rows
      then s.(rows := s.rows[r := s.rows[r].(lease := Some(s.txns[r].expires))], txns := s.txns - {r})
      else s
    case WriteBegin(m) =>
      var p := PhaseOf(s, m);
      if p.Working? && p.token.run in s.rows && p.token.run !in s.txns && Guard(s.rows[p.token.run], p.token, s.now)
      then s.(txns := s.txns[p.token.run := Write(p.token)])
      else s
    case WriteCommit(r) =>
      if r in s.txns && s.txns[r].Write? && r in s.rows
      then s.(txns := s.txns - {r},
              writes := if Guard(s.rows[r], s.txns[r].token, s.now) then s.writes + [Commit(s.txns[r].token, s.now)] else s.writes)
      else s
    case TxnAbort(r) => s.(txns := s.txns - {r})
    case GraphEnd(m, outcome) =>
      var p := PhaseOf(s, m);
      if p.Working? && (outcome.Completed? || outcome.Refused?) && p.token.run in s.rows && p.token.run !in s.txns
      then PutRow(s, p.token.run, FinalizeRun(s.rows[p.token.run], p.token, outcome, s.now))
      else s
    case Stop(m, reason) =>
      if PhaseOf(s, m).Working? then SetPhase(s, m, Draining(PhaseOf(s, m).token, reason)) else s
    case Drained(m) =>
      var p := PhaseOf(s, m);
      if p.Draining? && InFlight(s, m) == {} then SetPhase(s, m, Finalizing(p.token, p.reason)) else s
    case ManagerEnd(m) => NextManagerEnd(s, m)
    case ManagerEndFailed(m) =>
      if PhaseOf(s, m).Finalizing? then SetPhase(s, m, Releasing(PhaseOf(s, m).token)) else s
    case Release(m) => if PhaseOf(s, m).Releasing? then GiveBack(s, m) else s
    case SessionLost(m) => if s.permit == Some(m) then s.(permit := None) else s
    case Crash(m) => if m in s.managers then SetPhase(s, m, Dead) else s
  }

  /** Transactions a manager has in flight: what draining waits for. */
  function InFlight(s: State, m: Owner): set<RunId> {
    set r | r in s.txns && s.txns[r].token.owner == m
  }

  /** `_RunStore.acquire` up to the admission count; the count is skipped for a run that looks ineligible. */
  function NextAcquireBegin(s: State, m: Owner): State {
    var p := PhaseOf(s, m);
    if !p.Starting? || s.admission.Some? then s
    else if p.run !in s.rows then GiveBack(s, m)
    else if Eligible(s.rows[p.run], s.now) && AnyLive(s) then GiveBack(s, m)
    else s.(admission := Some(Admission(m, p.run)))
  }

  /** `agent.acquire_run` at a later instant, then commit; only an acquired row starts a supervisor. */
  function NextAcquireCommit(s: State, m: Owner, lease: nat): State {
    if s.admission.None? || s.admission.value.manager != m || m !in s.managers then s
    else
      var r := s.admission.value.run;
      if r !in s.rows || r in s.txns then s
      else
        var (outcome, row) := AcquireRun(s.rows[r], s.now, m, lease);
        var s1 := PutRow(s, r, row).(admission := None);
        if PhaseOf(s, m) != Starting(r) then s1
        else if outcome.Acquired? then SetPhase(s1, m, Working(Token(r, m, row.epoch)))
        else GiveBack(s1, m)
  }

  /** Reasons after which the supervisor leaves the row to its owner or to recovery. */
  predicate LeavesRow(reason: Reason) {
    reason.Shutdown? || reason.StaleExecution? || reason.LeaseExpired? || reason.RunNotFound? || reason.TerminalSeen?
  }

  function NextManagerEnd(s: State, m: Owner): State {
    var p := PhaseOf(s, m);
    if !p.Finalizing? then s
    else
      var r := p.token.run;
      if LeavesRow(p.reason) || r !in s.rows then SetPhase(s, m, Releasing(p.token))
      else if r in s.txns then s
      else SetPhase(PutRow(s, r, FinalizeRun(s.rows[r], p.token, Failed, s.now)), m, Releasing(p.token))
  }

  ghost function Exec(s: State, acts: seq<Action>): State
    decreases |acts|
  {
    if acts == [] then s else Next(Exec(s, acts[..|acts| - 1]), acts[|acts| - 1])
  }
}
