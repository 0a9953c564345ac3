/**
 The tasks of one run manager process, one `await` at a time.

 Every task of the process is a program counter at the `await` it is suspended in.  A step
 resumes one task with what that `await` yields: a value, an error, or a cancellation.  Any
 task may be cancelled at any `await`, also before its first step.  A database call that is
 cut short may or may not have taken effect on the server; `close` and `putconn` of the
 driver either do their work or raise without having done it.
 */
module Supervision {
  import opened Common

  type RunId = nat
  type TaskId = nat
  type CheckoutId = nat

  datatype Code = Shutdown | TerminalSeen | StaleExecution | LeaseExpired | RunNotFound | CancelRequested
                | RunNotRunning | TerminalConflict | DeadlineExceeded | InternalError | OtherError

  /** `_safe_code`: an exception carries one of the listed error or control codes, or becomes an internal error. */
  function SafeCode(c: Code): Code {
    if c.Shutdown? || c.TerminalSeen? then InternalError else c
  }

  /** Reasons after which the supervisor writes no outcome. */
  predicate LeavesRow(c: Code) {
    c.Shutdown? || c.StaleExecution? || c.LeaseExpired? || c.RunNotFound? || c.TerminalSeen?
  }

  /** One stay of a connection outside the pool, and the admission permit made of it once it is granted. */
  datatype Checkout = Checkout(locked: bool, open: bool, home: bool, granted: bool, releases: nat)

  datatype Answer = Accepted | AlreadyTerminal | AlreadyRunning | Raised

  datatype ChildEnd = Returned(code: Code) | Threw(code: Code) | WasCancelled

  datatype Child = Busy(checking: bool, cancelled: bool) | Over(end: ChildEnd)

  datatype StartPc =
    | AtLock
    | AtState
    | AtSession
    | AtTry(c: CheckoutId)
    | AtPutBack(c: CheckoutId)
    | AtClose(c: CheckoutId)
    | AtReturn(c: CheckoutId)
    | AtAcquire(c: CheckoutId)
    | AtRelease(c: CheckoutId, releaser: TaskId, pending: Answer)
    | Answered(answer: Answer)

  datatype SupervisePc = New | Waiting | Draining(interrupted: bool) | Finalizing
                       | Releasing(releaser: TaskId, interrupted: bool) | Ended | Abandoned

  datatype ReleasePc = Fresh | Unlocking | Closing | Putting | Gone

  datatype ClosePc = AtGate | DrainingReconciler(interrupted: bool) | Joining(interrupted: bool) | GaveUp | Closed(cancelled: bool)

  datatype Task =
    | Start(run: RunId, spc: StartPc)
    | Supervise(run: RunId, permit: CheckoutId, matching: bool, children: seq<Child>, reason: Code, vpc: SupervisePc)
    | Release(permit: CheckoutId, rpc: ReleasePc)
    | Close(waits: set<TaskId>, cpc: ClosePc)

  /** A call of `_RunStore.finalize`. */
  datatype Final = Final(supervisor: TaskId, reason: Code)

  datatype State = State(isOpen: bool, stopping: bool, lock: Option<TaskId>, active: map<RunId, TaskId>,
                         tasks: seq<Task>, permits: seq<Checkout>, finals: seq<Final>)

  const INIT := State(false, false, None, map[], [], [], [])

  datatype View = TerminalRow | LeasedRow | OpenRow

  datatype Acquisition = FoundTerminal | FoundRunning | Odd | Acquired(matching: bool)

  /** What the `await` a task is suspended in yields. */
  datatype Event =
    | Granted
    | Row(view: View)
    | Session(usable: bool)
    | Lock(taken: bool)
    | Outcome(acquisition: Acquisition)
    | Begin(inTime: bool)
    | Ready
    | Expired
    | Unlock(released: bool)
    | Failed(code: Code, database: bool, effect: bool)
    | Cancelled(effect: bool)

  datatype Action =
    | Open
    | CallStart(run: RunId)
    | CallClose
    | Resume(t: TaskId, event: Event)
    | Check(t: TaskId, starts: bool)
    | Finish(t: TaskId, child: nat, end: ChildEnd)
    | Lose(c: CheckoutId)

  predicate Broken(e: Event) {
    e.Failed? || e.Cancelled?
  }

  function SetTask(s: State, t: TaskId, task: Task): State
    requires t < |s.tasks|
  {
    s.(tasks := s.tasks[t := task])
  }

  function SetPermit(s: State, c: CheckoutId, p: Checkout): State
    requires c < |s.permits|
  {
    s.(permits := s.permits[c := p])
  }

  // ---------------------------------------------------------------- _release

  /** `_release` begins: a task of its own runs `permit.release()`. */
  function Spawn(s: State, c: CheckoutId): State
    requires c < |s.permits|
  {
    s.(tasks := s.tasks + [Release(c, Fresh)],
       permits := s.permits[c := s.permits[c].(releases := s.permits[c].releases + 1)])
  }

  /** `_AdmissionPermit.release`. */
  function ReleaseStep(s: State, t: TaskId, e: Event): State
    requires t < |s.tasks| && s.tasks[t].Release?
  {
    var c := s.tasks[t].permit;
    if c >= |s.permits| then s
    else
      var p := s.permits[c];
      match s.tasks[t].rpc
      case Fresh =>
        if e.Begin? then SetTask(s, t, Release(c, Unlocking))
        else if e.Cancelled? then SetTask(s, t, Release(c, Gone))
        else s
      case Unlocking =>
        if e.Unlock? then SetPermit(SetTask(s, t, Release(c, if e.released then Putting else Closing)), c, p.(locked := false))
        else if Broken(e) then
          SetPermit(SetTask(s, t, Release(c, if e.Failed? && e.database then Closing else Putting)), c,
                    p.(locked := p.locked && !e.effect))
        else s
      case Closing =>
        if e.Ready? then SetPermit(SetTask(s, t, Release(c, Putting)), c, p.(open := false, locked := false))
        else if Broken(e) then SetTask(s, t, Release(c, Putting))
        else s
      case Putting =>
        if e.Ready? then SetPermit(SetTask(s, t, Release(c, Gone)), c, p.(home := true))
        else if Broken(e) then SetTask(s, t, Release(c, Gone))
        else s
      case Gone => s
  }

  predicate ReleaserGone(s: State, k: TaskId) {
    k < |s.tasks| && s.tasks[k].Release? && s.tasks[k].rpc.Gone?
  }

  // ---------------------------------------------------------------- start

  /** `start` leaves the lock. */
  function Answering(s: State, t: TaskId, answer: Answer): State
    requires t < |s.tasks| && s.tasks[t].Start?
  {
    SetTask(s, t, s.tasks[t].(spc := Answered(answer))).(lock := None)
  }

  function Moving(s: State, t: TaskId, pc: StartPc): State
    requires t < |s.tasks| && s.tasks[t].Start?
  {
    SetTask(s, t, s.tasks[t].(spc := pc))
  }

  /** The `finally` of `start` for a permit that was not handed over. */
  function StartRelease(s: State, t: TaskId, c: CheckoutId, pending: Answer): State
    requires t < |s.tasks| && s.tasks[t].Start? && c < |s.permits|
  {
    Spawn(Moving(s, t, AtRelease(c, |s.tasks|, pending)), c)
  }

  /** An acquired run gets its supervisor and its entry in `_active` without an `await` in between. */
  function HandOver(s: State, t: TaskId, c: CheckoutId, matching: bool): State
    requires t < |s.tasks| && s.tasks[t].Start?
  {
    var r := s.tasks[t].run;
    Answering(s, t, Accepted).(active := s.active[r := |s.tasks|],
                               tasks := Answering(s, t, Accepted).tasks + [Supervise(r, c, matching, [], InternalError, New)])
  }

  function StartStep(s: State, t: TaskId, e: Event): State
    requires t < |s.tasks| && s.tasks[t].Start?
  {
    match s.tasks[t].spc
    case AtLock =>
      if e.Granted? && s.lock.None? then
        if !s.isOpen || s.stopping then Answering(s, t, Raised) else Moving(s, t, AtState).(lock := Some(t))
      else if e.Cancelled? then Moving(s, t, Answered(Raised))
      else s
    case AtState =>
      if e.Row? then
        match e.view
        case TerminalRow => Answering(s, t, AlreadyTerminal)
        case LeasedRow => Answering(s, t, AlreadyRunning)
        case OpenRow => if s.active != map[] then Answering(s, t, Raised) else Moving(s, t, AtSession)
      else if Broken(e) then Answering(s, t, Raised)
      else s
    case AtSession =>
      if e.Session? then
        Moving(s, t, if e.usable then AtTry(|s.permits|) else AtClose(|s.permits|))
          .(permits := s.permits + [Checkout(false, true, false, false, 0)])
      else if Broken(e) then Answering(s, t, Raised)
      else s
    case AtTry(c) =>
      if c >= |s.permits| then s
      else if e.Lock? then
        if e.taken then SetPermit(Moving(s, t, AtAcquire(c)), c, s.permits[c].(locked := true, granted := true))
        else Moving(s, t, AtPutBack(c))
      else if Broken(e) then SetPermit(Moving(s, t, AtClose(c)), c, s.permits[c].(locked := e.effect))
      else s
    case AtPutBack(c) =>
      if c >= |s.permits| then s
      else if e.Ready? then SetPermit(Answering(s, t, Raised), c, s.permits[c].(home := true))
      else if Broken(e) then Moving(s, t, AtClose(c))
      else s
    case AtClose(c) =>
      if c >= |s.permits| then s
      else if e.Ready? then SetPermit(Moving(s, t, AtReturn(c)), c, s.permits[c].(open := false, locked := false))
      else if Broken(e) then Answering(s, t, Raised)
      else s
    case AtReturn(c) =>
      if c >= |s.permits| then s
      else if e.Ready? then SetPermit(Answering(s, t, Raised), c, s.permits[c].(home := true))
      else if Broken(e) then Answering(s, t, Raised)
      else s
    case AtAcquire(c) =>
      if c >= |s.permits| then s
      else if e.Outcome? then
        match e.acquisition
        case FoundTerminal => StartRelease(s, t, c, AlreadyTerminal)
        case FoundRunning => StartRelease(s, t, c, AlreadyRunning)
        case Odd => StartRelease(s, t, c, Raised)
        case Acquired(matching) => HandOver(s, t, c, matching)
      else if Broken(e) then StartRelease(s, t, c, Raised)
      else s
    case AtRelease(c, k, pending) =>
      if e.Ready? && ReleaserGone(s, k) then Answering(s, t, pending)
      else if e.Cancelled? then Moving(s, t, AtRelease(c, k, Raised))
      else s
    case Answered(_) => s
  }

  // ---------------------------------------------------------------- _supervise

  predicate AllOver(children: seq<Child>) {
    forall k :: 0 <= k < |children| ==> children[k].Over?
  }

  function CancelBusy(c: Child): Child {
    if c.Busy? then c.(cancelled := true) else c
  }

  const CHILDREN := [Busy(false, false), Busy(false, false), Busy(false, false)]

  /** The reason read off the children when `asyncio.wait` returns: callback first, then heartbeat, then the deadline. */
  function Decide(stopping: bool, children: seq<Child>): Code
    requires |children| == 3
  {
    if stopping then Shutdown
    else if children[0].Over? then
      (if children[0].end.Threw? then SafeCode(children[0].end.code) else InternalError)
    else if children[1].Over? then
      match children[1].end
      case Returned(code) => code
      case Threw(code) => SafeCode(code)
      case WasCancelled => Shutdown
    else DeadlineExceeded
  }

  /** The inner `finally` of `_supervise`. */
  function SuperviseRelease(s: State, t: TaskId): State
    requires t < |s.tasks| && s.tasks[t].Supervise? && s.tasks[t].permit < |s.permits|
  {
    Spawn(SetTask(s, t, s.tasks[t].(vpc := Releasing(|s.tasks|, false))), s.tasks[t].permit)
  }

  /** Once the children have drained: an outcome is written unless the reason leaves the row to somebody else. */
  function AfterDrain(s: State, t: TaskId, reason: Code): State
    requires t < |s.tasks| && s.tasks[t].Supervise? && s.tasks[t].permit < |s.permits|
  {
    var s1 := SetTask(s, t, s.tasks[t].(reason := reason, vpc := Finalizing));
    if LeavesRow(reason) then SuperviseRelease(s1, t)
    else s1.(finals := s.finals + [Final(t, reason)])
  }

  /** `_drain` begins: every child that is not over is asked to stop. */
  function Drain(s: State, t: TaskId, reason: Code): State
    requires t < |s.tasks| && s.tasks[t].Supervise? && |s.tasks[t].children| == 3
  {
    var cs := s.tasks[t].children;
    SetTask(s, t, s.tasks[t].(reason := reason, vpc := Draining(false),
                              children := [CancelBusy(cs[0]), CancelBusy(cs[1]), CancelBusy(cs[2])]))
  }

  function FirstStep(s: State, t: TaskId, e: Event): State
    requires t < |s.tasks| && s.tasks[t].Supervise? && s.tasks[t].permit < |s.permits|
  {
    var v := s.tasks[t];
    if e.Cancelled? then SetTask(s, t, v.(vpc := Abandoned))
    else if e.Begin? then
      if s.stopping then AfterDrain(s, t, Shutdown)
      else if v.matching && e.inTime then SetTask(s, t, v.(children := CHILDREN, vpc := Waiting))
      else AfterDrain(s, t, if v.matching then DeadlineExceeded else InternalError)
    else if e.Failed? && !s.stopping && v.matching then AfterDrain(s, t, SafeCode(e.code))
    else s
  }

  function SuperviseStep(s: State, t: TaskId, e: Event): State
    requires t < |s.tasks| && s.tasks[t].Supervise?
  {
    var v := s.tasks[t];
    if v.permit >= |s.permits| then s
    else
      match v.vpc
      case New => FirstStep(s, t, e)
      case Waiting =>
        if |v.children| != 3 then s
        else if e.Expired? || (e.Ready? && exists k :: 0 <= k < 3 && v.children[k].Over?)
        then Drain(s, t, Decide(s.stopping, v.children))
        else if e.Cancelled? then Drain(s, t, Shutdown)
        else s
      case Draining(interrupted) =>
        if e.Cancelled? then SetTask(s, t, v.(vpc := Draining(true)))
        else if e.Ready? && AllOver(v.children) then
          if interrupted then SuperviseRelease(s, t) else AfterDrain(s, t, v.reason)
        else s
      case Finalizing => if e.Ready? || Broken(e) then SuperviseRelease(s, t) else s
      case Releasing(k, _) =>
        if e.Cancelled? then SetTask(s, t, v.(vpc := Releasing(k, true)))
        else if e.Ready? && ReleaserGone(s, k) then SetTask(s, t, v.(vpc := Ended)).(active := s.active - {v.run})
        else s
      case Ended => s
      case Abandoned => s
  }

  /** The heartbeat begins or ends a `permit.check()` on the permit's session. */
  function CheckStep(s: State, t: TaskId, starts: bool): State {
    if t < |s.tasks| && s.tasks[t].Supervise? && |s.tasks[t].children| == 3 && s.tasks[t].children[1].Busy?
       && !(starts && s.tasks[t].children[1].cancelled)
    then SetTask(s, t, s.tasks[t].(children := s.tasks[t].children[1 := s.tasks[t].children[1].(checking := starts)]))
    else s
  }

  /** A child ends, in its own time even after it was asked to stop; the third child ends by itself only on shutdown. */
  function FinishStep(s: State, t: TaskId, k: nat, end: ChildEnd): State {
    if t < |s.tasks| && s.tasks[t].Supervise? && k < |s.tasks[t].children| && s.tasks[t].children[k].Busy?
       && (k == 2 && !end.WasCancelled? ==> s.stopping)
    then SetTask(s, t, s.tasks[t].(children := s.tasks[t].children[k := Over(end)]))
    else s
  }

  // ---------------------------------------------------------------- aclose

  predicate Finished(s: State, v: TaskId) {
    v < |s.tasks| && s.tasks[v].Supervise? && (s.tasks[v].vpc.Ended? || s.tasks[v].vpc.Abandoned?)
  }

  function CloseStep(s: State, t: TaskId, e: Event): State
    requires t < |s.tasks| && s.tasks[t].Close?
  {
    var waits := s.tasks[t].waits;
    match s.tasks[t].cpc
    case AtGate =>
      if e.Granted? && s.lock.None? then
        SetTask(s, t, Close(s.active.Values, DrainingReconciler(false))).(stopping := true, isOpen := false)
      else if e.Cancelled? then SetTask(s, t, Close(waits, GaveUp))
      else s
    case DrainingReconciler(interrupted) =>
      if e.Cancelled? then SetTask(s, t, Close(waits, DrainingReconciler(true)))
      else if e.Ready? then SetTask(s, t, Close(waits, Joining(interrupted)))
      else s
    case Joining(interrupted) =>
      if e.Cancelled? then SetTask(s, t, Close(waits, Joining(true)))
      else if e.Ready? && (forall v :: v in waits ==> Finished(s, v)) then SetTask(s, t, Close(waits, Closed(interrupted)))
      else s
    case GaveUp => s
    case Closed(_) => s
  }

  function Next(s: State, a: Action): State {
    match a
    case Open => if s.lock.None? && !s.stopping then s.(isOpen := true) else s
    case CallStart(r) => s.(tasks := s.tasks + [Start(r, AtLock)])
    case CallClose => s.(tasks := s.tasks + [Close({}, AtGate)])
    case Resume(t, e) =>
      if t >= |s.tasks| then s
      else
        (match s.tasks[t]
         case Start(_, _) => StartStep(s, t, e)
         case Supervise(_, _, _, _, _, _) => SuperviseStep(s, t, e)
         case Release(_, _) => ReleaseStep(s, t, e)
         case Close(_, _) => CloseStep(s, t, e))
    case Check(t, starts) => CheckStep(s, t, starts)
    case Finish(t, k, end) => FinishStep(s, t, k, end)
    case Lose(c) => if c < |s.permits| then SetPermit(s, c, s.permits[c].(locked := false)) else s
  }

  ghost function Exec(s: State, acts: seq<Action>): State
    decreases |acts|
  {
    if acts == [] then s else Next(Exec(s, acts[..|acts| - 1]), acts[|acts| - 1])
  }
}
