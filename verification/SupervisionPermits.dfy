/**
 Which sessions come back: every checkout of a session, granted the permit or not, ends closed or in the
 pool without the admission lock, except after exactly the interruptions named here.
 */
module SupervisionPermits {
  import opened Common
  import opened Supervision
  import opened SupervisionSafety
  import opened SupervisionResults
  import opened SupervisionSessions

  /** The session is closed, or back in the pool without the admission lock. */
  predicate GivenBack(p: Checkout) {
    !p.open || (p.home && !p.locked)
  }

  /** A task at work on a checkout: it will use it, release it, close it or put it back. */
  predicate Holds(task: Task, c: CheckoutId) {
    match task
    case Start(_, pc) => HasCheckout(pc) && !pc.AtRelease? && pc.c == c
    case Supervise(_, permit, _, _, _, pc) => permit == c && (pc.New? || pc.Waiting? || pc.Draining? || pc.Finalizing?)
    case Release(permit, pc) => permit == c && !pc.Gone?
    case Close(_, _) => false
  }

  predicate InCharge(s: State, c: CheckoutId) {
    exists i :: 0 <= i < |s.tasks| && Holds(s.tasks[i], c)
  }

  /** An open session outside the pool that no task is at work on. */
  predicate Stray(s: State, c: CheckoutId) {
    c < |s.permits| && s.permits[c].open && !s.permits[c].home && !InCharge(s, c)
  }

  // ---------------------------------------------------------------- the interruptions

  /**
   The last task at work on an open session stops: a supervisor or a release cancelled before its first step, a `putconn`
   that fails, or the clean-up of an unfinished `permit()` that fails to close.
   */
  predicate Strands(s: State, a: Action, c: CheckoutId) {
    && a.Resume? && a.t < |s.tasks| && c < |s.permits| && s.permits[c].open && Holds(s.tasks[a.t], c)
    && match s.tasks[a.t]
       case Start(_, pc) => pc.AtClose? && Broken(a.event)
       case Supervise(_, _, _, _, _, pc) => pc.New? && a.event.Cancelled?
       case Release(_, pc) => (pc.Fresh? && a.event.Cancelled?) || (pc.Putting? && Broken(a.event))
       case Close(_, _) => false
  }

  /** A release is cut short before its unlock or its close has worked, and goes on to put the session back. */
  predicate SpoilsOf(s: State, a: Action, c: CheckoutId) {
    Spoils(s, a) && s.tasks[a.t].permit == c
  }

  /** Some step of the run has stranded the checkout. */
  ghost predicate Stranded(acts: seq<Action>, c: CheckoutId) {
    exists i :: 0 <= i < |acts| && Strands(Exec(INIT, acts[..i]), acts[i], c)
  }

  /** Some step has spoiled it, and the server has not dropped the session since. */
  ghost predicate Spoiled(acts: seq<Action>, c: CheckoutId) {
    exists i :: 0 <= i < |acts| && SpoilsOf(Exec(INIT, acts[..i]), acts[i], c) && forall j :: i < j < |acts| ==> acts[j] != Lose(c)
  }

  // ---------------------------------------------------------------- one task at work

  lemma HoldersAgree(s: State, c: CheckoutId, i: TaskId, j: TaskId)
    requires Inv(s) && i < |s.tasks| && j < |s.tasks| && Holds(s.tasks[i], c) && Holds(s.tasks[j], c)
    ensures i == j
  {
    hide PermitsOk, FinalsOk, AllOver, AllAsked, LeavesRow;
    assert TaskOk(s, i) && TaskOk(s, j);
  }

  lemma HeldIsOut(s: State, c: CheckoutId, i: TaskId)
    requires Inv(s) && i < |s.tasks| && Holds(s.tasks[i], c)
    ensures c < |s.permits| && !s.permits[c].home
  {
    hide PermitsOk, FinalsOk, OneReleaseEach, AllOver, AllAsked, LeavesRow;
    assert TaskOk(s, i);
  }

  // ---------------------------------------------------------------- stray sessions, step by step

  /** What a step of task `t` does to the checkout it holds, and to who holds it afterwards. */
  predicate HandlesOwn(s: State, s': State, t: TaskId, c: CheckoutId, a: Action) {
    && c < |s'.permits| && t < |s.tasks| <= |s'.tasks|
    && var out := s'.permits[c].open && !s'.permits[c].home;
       var held := Holds(s'.tasks[t], c) || (|s'.tasks| > |s.tasks| && Holds(s'.tasks[|s.tasks|], c));
       if Strands(s, a, c) then out && !held else out ==> held
  }

  lemma StartHandlesOwn(s: State, t: TaskId, e: Event, c: CheckoutId)
    requires Inv(s) && t < |s.tasks| && s.tasks[t].Start? && Holds(s.tasks[t], c)
    ensures HandlesOwn(s, StartStep(s, t, e), t, c, Resume(t, e))
  {
    assert TaskOk(s, t);
    hide Inv;
    match s.tasks[t].spc
    case AtTry(_) => TryHandlesOwn(s, t, e, c);
    case AtPutBack(_) => TryHandlesOwn(s, t, e, c);
    case AtClose(_) => CleanUpHandlesOwn(s, t, e, c);
    case AtReturn(_) => CleanUpHandlesOwn(s, t, e, c);
    case AtAcquire(_) => AcquireHandlesOwn(s, t, e, c);
  }

  lemma TryHandlesOwn(s: State, t: TaskId, e: Event, c: CheckoutId)
    requires t < |s.tasks| && s.tasks[t].Start? && StartOk(s, t) && Holds(s.tasks[t], c)
    requires s.tasks[t].spc.AtTry? || s.tasks[t].spc.AtPutBack?
    ensures HandlesOwn(s, StartStep(s, t, e), t, c, Resume(t, e))
  {
    hide StartRelease, HandOver, ReleaserGone, Serves;
  }

  lemma CleanUpHandlesOwn(s: State, t: TaskId, e: Event, c: CheckoutId)
    requires t < |s.tasks| && s.tasks[t].Start? && StartOk(s, t) && Holds(s.tasks[t], c)
    requires s.tasks[t].spc.AtClose? || s.tasks[t].spc.AtReturn?
    ensures HandlesOwn(s, StartStep(s, t, e), t, c, Resume(t, e))
  {
    hide StartRelease, HandOver, ReleaserGone, Serves;
  }

  lemma AcquireHandlesOwn(s: State, t: TaskId, e: Event, c: CheckoutId)
    requires t < |s.tasks| && s.tasks[t].Start? && StartOk(s, t) && Holds(s.tasks[t], c) && s.tasks[t].spc.AtAcquire?
    ensures HandlesOwn(s, StartStep(s, t, e), t, c, Resume(t, e))
  {
    hide ReleaserGone, Serves;
  }

  lemma AfterDrainHandlesOwn(s: State, t: TaskId, reason: Code)
    requires t < |s.tasks| && s.tasks[t].Supervise? && s.tasks[t].permit < |s.permits|
    ensures var s', c := AfterDrain(s, t, reason), s.tasks[t].permit;
            && |s.tasks| <= |s'.tasks| && c < |s'.permits|
            && (Holds(s'.tasks[t], c) || (|s'.tasks| > |s.tasks| && Holds(s'.tasks[|s.tasks|], c)))
  {
    hide LeavesRow;
  }

  lemma FirstStepHandlesOwn(s: State, t: TaskId, e: Event, c: CheckoutId)
    requires t < |s.tasks| && s.tasks[t].Supervise? && SuperviseOk(s, t) && s.tasks[t].vpc.New? && c == s.tasks[t].permit
    ensures HandlesOwn(s, SuperviseStep(s, t, e), t, c, Resume(t, e))
  {
    hide AfterDrain, AllOver, AllAsked, Serves, ReleaserGone;
    var v := s.tasks[t];
    if e.Begin? {
      AfterDrainHandlesOwn(s, t, if s.stopping then Shutdown else if v.matching then DeadlineExceeded else InternalError);
    } else if e.Failed? {
      AfterDrainHandlesOwn(s, t, SafeCode(e.code));
    }
  }

  lemma LaterStepHandlesOwn(s: State, t: TaskId, e: Event, c: CheckoutId)
    requires t < |s.tasks| && s.tasks[t].Supervise? && SuperviseOk(s, t) && Holds(s.tasks[t], c) && !s.tasks[t].vpc.New?
    ensures HandlesOwn(s, SuperviseStep(s, t, e), t, c, Resume(t, e))
  {
    hide AfterDrain, FirstStep, Decide, AllOver, AllAsked, Serves, ReleaserGone;
    AfterDrainHandlesOwn(s, t, s.tasks[t].reason);
  }

  lemma SuperviseHandlesOwn(s: State, t: TaskId, e: Event, c: CheckoutId)
    requires Inv(s) && t < |s.tasks| && s.tasks[t].Supervise? && Holds(s.tasks[t], c)
    ensures HandlesOwn(s, SuperviseStep(s, t, e), t, c, Resume(t, e))
  {
    assert TaskOk(s, t);
    hide Inv, SuperviseStep, HandlesOwn;
    if s.tasks[t].vpc.New? { FirstStepHandlesOwn(s, t, e, c); } else { LaterStepHandlesOwn(s, t, e, c); }
  }

  lemma ReleaseHandlesOwn(s: State, t: TaskId, e: Event, c: CheckoutId)
    requires Inv(s) && t < |s.tasks| && s.tasks[t].Release? && Holds(s.tasks[t], c)
    ensures HandlesOwn(s, ReleaseStep(s, t, e), t, c, Resume(t, e))
  {
    assert TaskOk(s, t);
    hide Inv;
  }

  /** A step of a task that does not hold the checkout leaves it where it is, and nobody new takes hold of it. */
  predicate LeavesOther(s: State, s': State, t: TaskId, c: CheckoutId) {
    && c < |s.permits| <= |s'.permits| && t < |s.tasks| <= |s'.tasks| <= |s.tasks| + 1
    && s'.permits[c].open == s.permits[c].open && s'.permits[c].home == s.permits[c].home
    && !Holds(s'.tasks[t], c) && (|s'.tasks| > |s.tasks| ==> !Holds(s'.tasks[|s.tasks|], c))
  }

  lemma StartLeavesOther(s: State, t: TaskId, e: Event, c: CheckoutId)
    requires Inv(s) && t < |s.tasks| && s.tasks[t].Start? && !Holds(s.tasks[t], c) && c < |s.permits|
    ensures LeavesOther(s, StartStep(s, t, e), t, c)
  {
    assert TaskOk(s, t);
    StartLeaves(s, t, e, t);
    var pc := s.tasks[t].spc;
    if pc.AtAcquire? {
      AcquireLeavesOther(s, t, e, c);
    } else if InLock(pc) {
      StartMoves(s, t, e);
      MoveLeavesOther(s, t, e, c);
    }
  }

  lemma AcquireLeavesOther(s: State, t: TaskId, e: Event, c: CheckoutId)
    requires t < |s.tasks| && s.tasks[t].Start? && s.tasks[t].spc.AtAcquire? && s.tasks[t].spc.c != c && c < |s.permits|
    ensures LeavesOther(s, StartStep(s, t, e), t, c)
  {
    hide ReleaserGone;
  }

  lemma MoveLeavesOther(s: State, t: TaskId, e: Event, c: CheckoutId)
    requires t < |s.tasks| && s.tasks[t].Start? && StartOk(s, t) && !Holds(s.tasks[t], c) && c < |s.permits|
    requires InLock(s.tasks[t].spc) && !s.tasks[t].spc.AtAcquire?
    requires StartStep(s, t, e) == s || StartMoved(s, StartStep(s, t, e), t)
    ensures LeavesOther(s, StartStep(s, t, e), t, c)
  {
    SameCheckout(s, t, e);
    hide StartStep, Serves;
  }

  /** A start stays with its checkout, or takes a fresh one. */
  predicate StaysWith(pc: StartPc, pc': StartPc, next: CheckoutId) {
    HasCheckout(pc') && !pc'.AtRelease? ==> if HasCheckout(pc) && !pc.AtRelease? then pc'.c == pc.c else pc'.c == next
  }

  lemma SameCheckout(s: State, t: TaskId, e: Event)
    requires t < |s.tasks| && s.tasks[t].Start? && !s.tasks[t].spc.AtAcquire?
    ensures t < |StartStep(s, t, e).tasks| && StartStep(s, t, e).tasks[t].Start?
    ensures StaysWith(s.tasks[t].spc, StartStep(s, t, e).tasks[t].spc, |s.permits|)
  {
    hide StartStep, StaysWith;
    match s.tasks[t].spc
    case AtTry(_) => TryKeepsCheckout(s, t, e);
    case AtPutBack(_) => TryKeepsCheckout(s, t, e);
    case AtClose(_) => CleanUpKeepsCheckout(s, t, e);
    case AtReturn(_) => CleanUpKeepsCheckout(s, t, e);
    case AtSession => SessionTakesFresh(s, t, e);
    case AtState => SessionTakesFresh(s, t, e);
    case AtLock => OutsideHasNone(s, t, e);
    case AtRelease(_, _, _) => OutsideHasNone(s, t, e);
    case Answered(_) => OutsideHasNone(s, t, e);
  }

  lemma TryKeepsCheckout(s: State, t: TaskId, e: Event)
    requires t < |s.tasks| && s.tasks[t].Start? && (s.tasks[t].spc.AtTry? || s.tasks[t].spc.AtPutBack?)
    ensures t < |StartStep(s, t, e).tasks| && StartStep(s, t, e).tasks[t].Start?
    ensures StaysWith(s.tasks[t].spc, StartStep(s, t, e).tasks[t].spc, |s.permits|)
  {
    hide StartRelease, HandOver, ReleaserGone;
  }

  lemma CleanUpKeepsCheckout(s: State, t: TaskId, e: Event)
    requires t < |s.tasks| && s.tasks[t].Start? && (s.tasks[t].spc.AtClose? || s.tasks[t].spc.AtReturn?)
    ensures t < |StartStep(s, t, e).tasks| && StartStep(s, t, e).tasks[t].Start?
    ensures StaysWith(s.tasks[t].spc, StartStep(s, t, e).tasks[t].spc, |s.permits|)
  {
    hide StartRelease, HandOver, ReleaserGone;
  }

  lemma SessionTakesFresh(s: State, t: TaskId, e: Event)
    requires t < |s.tasks| && s.tasks[t].Start? && (s.tasks[t].spc.AtState? || s.tasks[t].spc.AtSession?)
    ensures t < |StartStep(s, t, e).tasks| && StartStep(s, t, e).tasks[t].Start?
    ensures StaysWith(s.tasks[t].spc, StartStep(s, t, e).tasks[t].spc, |s.permits|)
  {
    hide StartRelease, HandOver, ReleaserGone, SetPermit;
  }

  lemma OutsideHasNone(s: State, t: TaskId, e: Event)
    requires t < |s.tasks| && s.tasks[t].Start? && (s.tasks[t].spc.AtLock? || s.tasks[t].spc.AtRelease? || s.tasks[t].spc.Answered?)
    ensures t < |StartStep(s, t, e).tasks| && StartStep(s, t, e).tasks[t].Start?
    ensures StaysWith(s.tasks[t].spc, StartStep(s, t, e).tasks[t].spc, |s.permits|)
  {
    hide StartRelease, HandOver, ReleaserGone, SetPermit;
  }

  lemma SuperviseLeavesOther(s: State, t: TaskId, e: Event, c: CheckoutId)
    requires Inv(s) && t < |s.tasks| && s.tasks[t].Supervise? && !Holds(s.tasks[t], c) && c < |s.permits|
    ensures LeavesOther(s, SuperviseStep(s, t, e), t, c)
  {
    SuperviseLeaves(s, t, e, t);
    SupervisorStaysOut(s, t, e, c);
    hide SuperviseStep, Inv;
  }

  /** A supervisor that does not hold the checkout, or has none, does not come to hold it. */
  predicate StaysOut(s: State, s': State, t: TaskId, c: CheckoutId)
    requires t < |s.tasks| && s.tasks[t].Supervise?
  {
    t < |s.tasks| <= |s'.tasks| && !Holds(s'.tasks[t], c) && (|s'.tasks| > |s.tasks| ==> s.tasks[t].permit != c)
  }

  lemma SupervisorStaysOut(s: State, t: TaskId, e: Event, c: CheckoutId)
    requires t < |s.tasks| && s.tasks[t].Supervise? && !Holds(s.tasks[t], c)
    ensures StaysOut(s, SuperviseStep(s, t, e), t, c)
  {
    if s.tasks[t].permit == c { DoneStaysOut(s, t, e, c); } else { StrangerStaysOut(s, t, e, c); }
  }

  lemma DoneStaysOut(s: State, t: TaskId, e: Event, c: CheckoutId)
    requires t < |s.tasks| && s.tasks[t].Supervise? && !Holds(s.tasks[t], c) && s.tasks[t].permit == c
    ensures StaysOut(s, SuperviseStep(s, t, e), t, c)
  {
    hide FirstStep, Drain, AfterDrain, SuperviseRelease, Decide, AllOver, ReleaserGone;
  }

  lemma StrangerStaysOut(s: State, t: TaskId, e: Event, c: CheckoutId)
    requires t < |s.tasks| && s.tasks[t].Supervise? && s.tasks[t].permit != c
    ensures StaysOut(s, SuperviseStep(s, t, e), t, c)
  {
    SuperviseLeaves(s, t, e, t);
    hide SuperviseStep;
  }

  lemma ReleaseLeavesOther(s: State, t: TaskId, e: Event, c: CheckoutId)
    requires Inv(s) && t < |s.tasks| && s.tasks[t].Release? && !Holds(s.tasks[t], c) && c < |s.permits|
    ensures LeavesOther(s, ReleaseStep(s, t, e), t, c)
  {
    assert TaskOk(s, t);
    if s.tasks[t].rpc.Gone? {
    } else {
      ReleaseMoves(s, t, e);
      hide ReleaseStep;
    }
  }

  /** A task that is not resumed holds what it held. */
  lemma HoldStays(s: State, a: Action, i: TaskId, c: CheckoutId)
    requires i < |s.tasks| && !(a.Resume? && a.t == i)
    ensures i < |Next(s, a).tasks| && (Holds(Next(s, a).tasks[i], c) <==> Holds(s.tasks[i], c))
  {
    if a.Resume? && a.t < |s.tasks| {
      hide StartStep, SuperviseStep;
      match s.tasks[a.t]
      case Start(_, _) => StartLeaves(s, a.t, a.event, i);
      case Supervise(_, _, _, _, _, _) => SuperviseLeaves(s, a.t, a.event, i);
      case Release(_, _) =>
      case Close(_, _) =>
    }
  }

  /** The step resumes a task that holds the checkout. */
  predicate ResumesHolder(s: State, a: Action, c: CheckoutId) {
    a.Resume? && a.t < |s.tasks| && Holds(s.tasks[a.t], c)
  }

  lemma HolderStep(s: State, a: Action, c: CheckoutId)
    requires Inv(s) && ResumesHolder(s, a, c)
    ensures HandlesOwn(s, Next(s, a), a.t, c, a) && |Next(s, a).tasks| <= |s.tasks| + 1
  {
    hide Inv, StartStep, SuperviseStep, ReleaseStep, HandlesOwn;
    match s.tasks[a.t]
    case Start(_, _) => StartHandlesOwn(s, a.t, a.event, c); StartLeaves(s, a.t, a.event, a.t);
    case Supervise(_, _, _, _, _, _) => SuperviseHandlesOwn(s, a.t, a.event, c); SuperviseLeaves(s, a.t, a.event, a.t);
    case Release(_, _) => ReleaseHandlesOwn(s, a.t, a.event, c); ReleaseAddsNone(s, a.t, a.event);
  }

  lemma ReleaseAddsNone(s: State, t: TaskId, e: Event)
    requires t < |s.tasks| && s.tasks[t].Release?
    ensures |ReleaseStep(s, t, e).tasks| == |s.tasks|
  {
  }

  lemma OtherResume(s: State, a: Action, c: CheckoutId)
    requires Inv(s) && a.Resume? && a.t < |s.tasks| && !Holds(s.tasks[a.t], c) && c < |s.permits|
    ensures LeavesOther(s, Next(s, a), a.t, c)
  {
    hide Inv, StartStep, SuperviseStep, ReleaseStep;
    match s.tasks[a.t]
    case Start(_, _) => StartLeavesOther(s, a.t, a.event, c);
    case Supervise(_, _, _, _, _, _) => SuperviseLeavesOther(s, a.t, a.event, c);
    case Release(_, _) => ReleaseLeavesOther(s, a.t, a.event, c);
    case Close(_, _) =>
  }

  /** Steps that resume no task: calls, the children, the environment. */
  lemma QuietStep(s: State, a: Action, c: CheckoutId)
    requires c < |s.permits| && !(a.Resume? && a.t < |s.tasks|)
    ensures var s' := Next(s, a);
            && |s.tasks| <= |s'.tasks| <= |s.tasks| + 1 && |s'.permits| == |s.permits|
            && s'.permits[c].open == s.permits[c].open && s'.permits[c].home == s.permits[c].home
            && (|s'.tasks| > |s.tasks| ==> !Holds(s'.tasks[|s.tasks|], c))
  {
  }

  /** Who is in charge of a checkout changes only when a task that holds it is resumed. */
  lemma ChargeStays(s: State, a: Action, c: CheckoutId)
    requires Inv(s) && c < |s.permits| && !ResumesHolder(s, a, c)
    ensures InCharge(Next(s, a), c) <==> InCharge(s, c)
    ensures c < |Next(s, a).permits| && Next(s, a).permits[c].open == s.permits[c].open && Next(s, a).permits[c].home == s.permits[c].home
  {
    hide Next, Inv, Holds;
    var s' := Next(s, a);
    if a.Resume? && a.t < |s.tasks| { OtherResume(s, a, c); } else { QuietStep(s, a, c); }
    if i: TaskId :| 0 <= i < |s.tasks| && Holds(s.tasks[i], c) {
      HoldStays(s, a, i, c);
      assert Holds(s'.tasks[i], c);
    }
    if i: TaskId :| 0 <= i < |s'.tasks| && Holds(s'.tasks[i], c) {
      if i < |s.tasks| && !(a.Resume? && a.t == i) { HoldStays(s, a, i, c); }
      assert Holds(s.tasks[i], c);
    }
  }

  lemma HolderStepIsExact(s: State, a: Action, c: CheckoutId)
    requires Inv(s) && ResumesHolder(s, a, c)
    ensures Stray(Next(s, a), c) <==> Strands(s, a, c)
  {
    hide Next, Inv, Holds, Strands;
    var s' := Next(s, a);
    HolderStep(s, a, c);
    if Strands(s, a, c) {
      forall i: TaskId | 0 <= i < |s'.tasks| ensures !Holds(s'.tasks[i], c) {
        if i < |s.tasks| && i != a.t {
          HoldStays(s, a, i, c);
          if Holds(s.tasks[i], c) { HoldersAgree(s, c, i, a.t); }
        }
      }
    } else if s'.permits[c].open && !s'.permits[c].home {
      assert InCharge(s', c);
    }
  }

  /** A checkout that is new is in charge of the start that took it. */
  lemma NewCheckoutIsHeld(s: State, a: Action, c: CheckoutId)
    requires |s.permits| <= c
    ensures !Stray(Next(s, a), c)
  {
    if c < |Next(s, a).permits| {
      NewCheckoutIsTaken(s, a, c);
      assert Holds(Next(s, a).tasks[a.t], c);
    }
  }

  lemma NewCheckoutIsTaken(s: State, a: Action, c: CheckoutId)
    requires |s.permits| <= c < |Next(s, a).permits|
    ensures a.Resume? && a.t < |Next(s, a).tasks| && Holds(Next(s, a).tasks[a.t], c)
  {
    if a.Resume? && a.t < |s.tasks| && s.tasks[a.t].Start? {
      StartTakesCheckout(s, a.t, a.event, c);
    } else if a.Resume? && a.t < |s.tasks| && s.tasks[a.t].Supervise? {
      SuperviseLeaves(s, a.t, a.event, a.t);
      hide SuperviseStep;
    }
  }

  lemma StartTakesCheckout(s: State, t: TaskId, e: Event, c: CheckoutId)
    requires t < |s.tasks| && s.tasks[t].Start? && |s.permits| <= c < |StartStep(s, t, e).permits|
    ensures t < |StartStep(s, t, e).tasks| && Holds(StartStep(s, t, e).tasks[t], c)
  {
    StartLeaves(s, t, e, t);
    if s.tasks[t].spc.AtSession? { SessionIsHeld(s, t, e, c); }
    hide StartStep;
  }

  lemma SessionIsHeld(s: State, t: TaskId, e: Event, c: CheckoutId)
    requires t < |s.tasks| && s.tasks[t].Start? && s.tasks[t].spc.AtSession? && |s.permits| <= c < |StartStep(s, t, e).permits|
    ensures t < |StartStep(s, t, e).tasks| && Holds(StartStep(s, t, e).tasks[t], c)
  {
    hide ReleaserGone, SetPermit, StartRelease, HandOver;
  }

  /** The exact condition on one step: a checkout strays exactly when the step strands it, and never comes back. */
  lemma StraysExactly(s: State, a: Action, c: CheckoutId)
    requires Inv(s)
    ensures Stray(Next(s, a), c) <==> Stray(s, c) || Strands(s, a, c)
  {
    if |s.permits| <= c {
      NewCheckoutIsHeld(s, a, c);
    } else if ResumesHolder(s, a, c) {
      hide Next, Inv, Holds;
      HolderStepIsExact(s, a, c);
      assert InCharge(s, c);
    } else {
      hide Next, Inv, Holds;
      ChargeStays(s, a, c);
    }
  }

  // ---------------------------------------------------------------- spoiled sessions, step by step

  /** The release of the checkout is past the point where it could still unlock or close the session. */
  predicate PastUnlock(s: State, c: CheckoutId) {
    forall k :: 0 <= k < |s.tasks| && s.tasks[k].Release? && s.tasks[k].permit == c ==> s.tasks[k].rpc.Putting? || s.tasks[k].rpc.Gone?
  }

  /** What `spoiled` says of a checkout: the lock went with it to, or towards, the pool; and it is said of every such one. */
  predicate SpoilTells(s: State, c: CheckoutId, spoiled: bool) {
    && (spoiled ==> c < |s.permits| && s.permits[c].open && s.permits[c].locked && s.permits[c].releases == 1 && PastUnlock(s, c))
    && (c < |s.permits| && s.permits[c].open && s.permits[c].locked && (s.permits[c].home || BeingPut(s, c)) ==> spoiled)
  }

  function SpoiledNext(s: State, a: Action, c: CheckoutId, spoiled: bool): bool {
    a != Lose(c) && (spoiled || SpoilsOf(s, a, c))
  }

  predicate ResumesRelease(s: State, a: Action, c: CheckoutId) {
    a.Resume? && a.t < |s.tasks| && s.tasks[a.t].Release? && s.tasks[a.t].permit == c
  }

  /** Apart from its release and the loss of its session, only a start changes a checkout, and puts back only what is clean. */
  predicate KeptOrOwn(p: Checkout, p': Checkout) {
    || p' == p.(releases := p'.releases)
    || (p.releases == 0 && (p'.home ==> !(p'.open && p'.locked)))
  }

  lemma StartKeepsOrOwns(s: State, t: TaskId, e: Event, c: CheckoutId)
    requires Inv(s) && t < |s.tasks| && s.tasks[t].Start? && c < |s.permits|
    ensures c < |StartStep(s, t, e).permits| && KeptOrOwn(s.permits[c], StartStep(s, t, e).permits[c])
  {
    assert TaskOk(s, t);
    var pc := s.tasks[t].spc;
    if pc.AtAcquire? {
      AcquireCounts(s, t, e);
      hide StartStep, Inv;
    } else if !InLock(pc) {
    } else {
      StartMoves(s, t, e);
      if HasCheckout(pc) && !pc.AtRelease? { StartPutsClean(s, t, e); }
      hide StartStep, Serves;
    }
  }

  lemma StepKeepsOrOwns(s: State, a: Action, c: CheckoutId)
    requires Inv(s) && c < |s.permits| && a != Lose(c) && !ResumesRelease(s, a, c)
    ensures c < |Next(s, a).permits| && KeptOrOwn(s.permits[c], Next(s, a).permits[c])
  {
    hide StartStep, SuperviseStep, ReleaseStep, KeptOrOwn;
    if a.Resume? && a.t < |s.tasks| {
      match s.tasks[a.t]
      case Start(_, _) => StartKeepsOrOwns(s, a.t, a.event, c);
      case Supervise(_, _, _, _, _, _) => SuperviseLeaves(s, a.t, a.event, a.t); CountIsKept(s, Next(s, a), s.tasks[a.t].permit, c);
      case Release(_, _) => OwnReleaseOnly(s, a.t, a.event, c);
      case Close(_, _) => CountIsKept(s, Next(s, a), 0, c);
    } else {
      QuietIsKept(s, a, c);
    }
  }

  lemma QuietIsKept(s: State, a: Action, c: CheckoutId)
    requires c < |s.permits| && a != Lose(c) && !(a.Resume? && a.t < |s.tasks|)
    ensures c < |Next(s, a).permits| && KeptOrOwn(s.permits[c], Next(s, a).permits[c])
  {
  }

  lemma OwnReleaseOnly(s: State, t: TaskId, e: Event, c: CheckoutId)
    requires Inv(s) && t < |s.tasks| && s.tasks[t].Release? && c < |s.permits| && s.tasks[t].permit != c
    ensures c < |ReleaseStep(s, t, e).permits| && KeptOrOwn(s.permits[c], ReleaseStep(s, t, e).permits[c])
  {
    assert TaskOk(s, t);
    ReleaseMoves(s, t, e);
    hide Inv, ReleaseStep;
    MovedIsKept(s, ReleaseStep(s, t, e), t, c);
  }

  lemma CountIsKept(s: State, s': State, d: CheckoutId, c: CheckoutId)
    requires c < |s.permits|
    requires s'.permits == s.permits || (d < |s.permits| && s'.permits == s.permits[d := s.permits[d].(releases := s.permits[d].releases + 1)])
    ensures c < |s'.permits| && KeptOrOwn(s.permits[c], s'.permits[c])
  {
  }

  lemma MovedIsKept(s: State, s': State, t: TaskId, c: CheckoutId)
    requires t < |s.tasks| && s.tasks[t].Release? && c < |s.permits| && s.tasks[t].permit != c && ReleaseMove(s, s', t, s.tasks[t].permit)
    ensures c < |s'.permits| && KeptOrOwn(s.permits[c], s'.permits[c])
  {
  }

  lemma StepKeepsReleases(s: State, a: Action, c: CheckoutId)
    requires !ResumesRelease(s, a, c)
    ensures |s.tasks| <= |Next(s, a).tasks|
    ensures forall k :: 0 <= k < |s.tasks| && s.tasks[k].Release? && s.tasks[k].permit == c ==> Next(s, a).tasks[k] == s.tasks[k]
  {
    if a.Resume? && a.t < |s.tasks| {
      hide StartStep, SuperviseStep, ReleaseStep;
      forall k | 0 <= k < |s.tasks| && k != a.t ensures k < |Next(s, a).tasks| && Next(s, a).tasks[k] == s.tasks[k] {
        OtherTaskStays(s, a, k);
      }
      TasksGrow(s, a);
    }
  }

  lemma TasksGrow(s: State, a: Action)
    ensures |s.tasks| <= |Next(s, a).tasks|
  {
    if a.Resume? && a.t < |s.tasks| {
      hide StartStep, SuperviseStep;
      match s.tasks[a.t]
      case Start(_, _) => StartLeaves(s, a.t, a.event, a.t);
      case Supervise(_, _, _, _, _, _) => SuperviseLeaves(s, a.t, a.event, a.t);
      case Release(_, _) =>
      case Close(_, _) =>
    }
  }

  lemma OtherTaskStays(s: State, a: Action, k: TaskId)
    requires a.Resume? && a.t < |s.tasks| && k < |s.tasks| && k != a.t
    ensures k < |Next(s, a).tasks| && Next(s, a).tasks[k] == s.tasks[k]
  {
    hide StartStep, SuperviseStep;
    match s.tasks[a.t]
    case Start(_, _) => StartLeaves(s, a.t, a.event, k);
    case Supervise(_, _, _, _, _, _) => SuperviseLeaves(s, a.t, a.event, k);
    case Release(_, _) =>
    case Close(_, _) =>
  }

  /** Only its own release can begin to put a checkout back. */
  lemma NothingNewIsPut(s: State, a: Action, c: CheckoutId)
    requires Inv(s) && !ResumesRelease(s, a, c) && BeingPut(Next(s, a), c)
    ensures BeingPut(s, c)
  {
    var s' := Next(s, a);
    var k: TaskId :| k < |s'.tasks| && s'.tasks[k].Release? && s'.tasks[k].rpc.Putting? && s'.tasks[k].permit == c;
    if a.Resume? && a.t < |s.tasks| {
      PutWasThere(s, a, c, k);
      assert s.tasks[k].Release?;
    } else {
      assert k < |s.tasks| && s.tasks[k] == s'.tasks[k];
    }
  }

  lemma PutWasThere(s: State, a: Action, c: CheckoutId, k: TaskId)
    requires Inv(s) && a.Resume? && a.t < |s.tasks| && !ResumesRelease(s, a, c)
    requires var s' := Next(s, a); k < |s'.tasks| && s'.tasks[k].Release? && s'.tasks[k].rpc.Putting? && s'.tasks[k].permit == c
    ensures k < |s.tasks| && s.tasks[k] == Next(s, a).tasks[k]
  {
    hide Inv, StartStep, SuperviseStep, ReleaseStep;
    match s.tasks[a.t]
    case Start(_, _) => StartPutsNothing(s, a.t, a.event);
    case Supervise(_, _, _, _, _, _) => SupervisePutsNothing(s, a.t, a.event);
    case Release(_, _) =>
      ReleaseKeepsPermit(s, a.t, a.event);
      OtherTaskStays(s, a, k);
    case Close(_, _) => OtherTaskStays(s, a, k);
  }

  lemma ReleaseKeepsPermit(s: State, t: TaskId, e: Event)
    requires Inv(s) && t < |s.tasks| && s.tasks[t].Release?
    ensures var s' := ReleaseStep(s, t, e); |s'.tasks| == |s.tasks| && s'.tasks[t].Release? && s'.tasks[t].permit == s.tasks[t].permit
  {
    assert TaskOk(s, t);
    ReleaseMoves(s, t, e);
    hide Inv, ReleaseStep;
  }

  /** Who is told spoiled has its one release past the unlock, and no other release can come. */
  lemma PastUnlockStays(s: State, a: Action, c: CheckoutId)
    requires Inv(s) && Inv(Next(s, a)) && !ResumesRelease(s, a, c) && c < |s.permits| && s.permits[c].releases == 1 && PastUnlock(s, c)
    ensures PastUnlock(Next(s, a), c)
  {
    var s' := Next(s, a);
    hide Next;
    StepKeepsReleases(s, a, c);
    assert Served(s, c);
    var j :| 0 <= j < |s.tasks| && s.tasks[j].Release? && s.tasks[j].permit == c;
    assert s'.tasks[j] == s.tasks[j];
    hide TasksOk, LockOk, ActiveOk, PermitsOk, FinalsOk;
    forall k | 0 <= k < |s'.tasks| && s'.tasks[k].Release? && s'.tasks[k].permit == c ensures k == j {}
  }

  /** A step of another task, or of the environment. */
  lemma OthersKeepSpoil(s: State, a: Action, c: CheckoutId, spoiled: bool)
    requires Inv(s) && SpoilTells(s, c, spoiled) && c < |s.permits| && a != Lose(c) && !ResumesRelease(s, a, c)
    ensures SpoilTells(Next(s, a), c, spoiled)
  {
    NextKeepsInv(s, a);
    StepKeepsOrOwns(s, a, c);
    if BeingPut(Next(s, a), c) { NothingNewIsPut(s, a, c); }
    if spoiled { PastUnlockStays(s, a, c); }
    if s.permits[c].releases == 1 { CountIsOne(s, a, c); }
    if BeingPut(Next(s, a), c) { PutIsReleased(s, c); }
    hide Next, Inv, PastUnlock, BeingPut;
  }

  lemma PutIsReleased(s: State, c: CheckoutId)
    requires Inv(s) && BeingPut(s, c)
    ensures c < |s.permits| && s.permits[c].releases == 1
  {
    var k :| 0 <= k < |s.tasks| && s.tasks[k].Release? && s.tasks[k].rpc.Putting? && s.tasks[k].permit == c;
    assert TaskOk(s, k);
  }

  /** A release that has begun stays counted, and is counted once. */
  lemma CountIsOne(s: State, a: Action, c: CheckoutId)
    requires Inv(s) && Inv(Next(s, a)) && c < |s.permits| && s.permits[c].releases == 1
    ensures c < |Next(s, a).permits| && Next(s, a).permits[c].releases == 1
  {
    var s' := Next(s, a);
    assert Served(s, c);
    var j :| 0 <= j < |s.tasks| && s.tasks[j].Release? && s.tasks[j].permit == c;
    ReleaseStays(s, a, j);
    assert TaskOk(s', j);
  }

  lemma ReleaseStays(s: State, a: Action, j: TaskId)
    requires Inv(s) && j < |s.tasks| && s.tasks[j].Release?
    ensures var s' := Next(s, a); j < |s'.tasks| && s'.tasks[j].Release? && s'.tasks[j].permit == s.tasks[j].permit
  {
    if a.Resume? && a.t < |s.tasks| && a.t != j {
      OtherTaskStays(s, a, j);
    } else if a.Resume? && a.t == j {
      assert TaskOk(s, j);
      ReleaseMoves(s, j, a.event);
      hide ReleaseStep;
    }
  }

  /** Of each checkout there is one release. */
  lemma OneReleaseOf(s: State, t: TaskId, k: TaskId)
    requires Inv(s) && t < |s.tasks| && s.tasks[t].Release? && k < |s.tasks| && s.tasks[k].Release? && s.tasks[k].permit == s.tasks[t].permit
    ensures k == t
  {
  }

  /** A step of the release itself. */
  lemma ReleaseTells(s: State, t: TaskId, e: Event, spoiled: bool)
    requires Inv(s) && t < |s.tasks| && s.tasks[t].Release? && SpoilTells(s, s.tasks[t].permit, spoiled)
    ensures var c := s.tasks[t].permit; SpoilTells(ReleaseStep(s, t, e), c, spoiled || SpoilsOf(s, Resume(t, e), c))
  {
    var c := s.tasks[t].permit;
    var s' := ReleaseStep(s, t, e);
    assert TaskOk(s, t);
    ReleaseMoves(s, t, e);
    forall k: TaskId | k < |s'.tasks| && s'.tasks[k].Release? && s'.tasks[k].permit == c ensures k == t { OneReleaseOf(s, t, k); }
    hide Inv;
    assert s'.tasks[t].Release? && s'.tasks[t].permit == c;
    assert BeingPut(s', c) <==> s'.tasks[t].rpc.Putting?;
    assert BeingPut(s, c) <==> s.tasks[t].rpc.Putting?;
    assert PastUnlock(s', c) <==> s'.tasks[t].rpc.Putting? || s'.tasks[t].rpc.Gone?;
    assert PastUnlock(s, c) <==> s.tasks[t].rpc.Putting? || s.tasks[t].rpc.Gone?;
    hide BeingPut, PastUnlock;
  }

  /** The exact condition on one step: it is told of a checkout exactly when the step cuts its release short. */
  lemma SpoilStep(s: State, a: Action, c: CheckoutId, spoiled: bool)
    requires Inv(s) && SpoilTells(s, c, spoiled)
    ensures SpoilTells(Next(s, a), c, SpoiledNext(s, a, c, spoiled))
  {
    if |s.permits| <= c {
      NewCheckoutIsUnlocked(s, a, c);
    } else if a == Lose(c) {
    } else if ResumesRelease(s, a, c) {
      hide Inv, SpoilTells, ReleaseStep, SpoilsOf;
      ReleaseTells(s, a.t, a.event, spoiled);
    } else {
      hide Inv, SpoilTells, Next;
      OthersKeepSpoil(s, a, c, spoiled);
    }
  }

  lemma NewCheckoutIsUnlocked(s: State, a: Action, c: CheckoutId)
    requires Inv(s) && |s.permits| <= c
    ensures c < |Next(s, a).permits| ==> !Next(s, a).permits[c].locked
  {
    if a.Resume? && a.t < |s.tasks| {
      hide StartStep, SuperviseStep, ReleaseStep;
      match s.tasks[a.t]
      case Start(_, pc) =>
        assert TaskOk(s, a.t);
        if pc.AtSession? { StartMoves(s, a.t, a.event); } else { StartLeaves(s, a.t, a.event, a.t); }
      case Supervise(_, _, _, _, _, _) => SuperviseLeaves(s, a.t, a.event, a.t);
      case Release(_, _) => assert TaskOk(s, a.t); ReleaseMoves(s, a.t, a.event);
      case Close(_, _) =>
    }
  }

  // ---------------------------------------------------------------- whole runs

  lemma LastStep(acts: seq<Action>)
    requires acts != []
    ensures var l := |acts| - 1; Exec(INIT, acts) == Next(Exec(INIT, acts[..l]), acts[l])
    ensures forall i :: 0 <= i < |acts| - 1 ==> acts[..|acts| - 1][..i] == acts[..i]
  {
  }

  lemma StrandedStep(acts: seq<Action>, c: CheckoutId)
    requires acts != []
    ensures var l := |acts| - 1; Stranded(acts, c) <==> Stranded(acts[..l], c) || Strands(Exec(INIT, acts[..l]), acts[l], c)
  {
    hide Strands, Exec;
    var l := |acts| - 1;
    LastStep(acts);
    var before := acts[..l];
    assert forall i :: 0 <= i < l ==> before[i] == acts[i];
    if Stranded(acts, c) {
      var i :| 0 <= i < |acts| && Strands(Exec(INIT, acts[..i]), acts[i], c);
      if i < l { assert Strands(Exec(INIT, before[..i]), before[i], c); }
    }
    if Stranded(before, c) {
      var i :| 0 <= i < |before| && Strands(Exec(INIT, before[..i]), before[i], c);
      assert Strands(Exec(INIT, acts[..i]), acts[i], c);
    }
  }

  lemma {:induction false} StraysInRuns(acts: seq<Action>, c: CheckoutId)
    ensures Stray(Exec(INIT, acts), c) <==> Stranded(acts, c)
  {
    if acts != [] {
      hide Stray, Strands, Stranded, Inv, Next, Exec;
      var l := |acts| - 1;
      StraysInRuns(acts[..l], c);
      RunKeepsInv(acts[..l]);
      StraysExactly(Exec(INIT, acts[..l]), acts[l], c);
      StrandedStep(acts, c);
      LastStep(acts);
    }
  }

  lemma ReleasesAreNotLosses(s: State, a: Action, c: CheckoutId)
    requires SpoilsOf(s, a, c)
    ensures !a.Lose?
  {
  }

  lemma SpoiledStep(acts: seq<Action>, c: CheckoutId)
    requires acts != []
    ensures var l := |acts| - 1; Spoiled(acts, c) <==> SpoiledNext(Exec(INIT, acts[..l]), acts[l], c, Spoiled(acts[..l], c))
  {
    hide Spoils, Exec;
    var l := |acts| - 1;
    LastStep(acts);
    var before := acts[..l];
    assert forall i :: 0 <= i < l ==> before[i] == acts[i];
    if Spoiled(acts, c) {
      var i :| 0 <= i < |acts| && SpoilsOf(Exec(INIT, acts[..i]), acts[i], c) && forall j :: i < j < |acts| ==> acts[j] != Lose(c);
      if i < l { assert SpoilsOf(Exec(INIT, before[..i]), before[i], c); }
    }
    if Spoiled(before, c) && acts[l] != Lose(c) {
      var i :| 0 <= i < |before| && SpoilsOf(Exec(INIT, before[..i]), before[i], c) && forall j :: i < j < |before| ==> before[j] != Lose(c);
      assert SpoilsOf(Exec(INIT, acts[..i]), acts[i], c);
    }
    if SpoilsOf(Exec(INIT, acts[..l]), acts[l], c) {
      ReleasesAreNotLosses(Exec(INIT, acts[..l]), acts[l], c);
    }
  }

  lemma {:induction false} SpoilsInRuns(acts: seq<Action>, c: CheckoutId)
    ensures SpoilTells(Exec(INIT, acts), c, Spoiled(acts, c))
  {
    if acts != [] {
      hide SpoilTells, SpoiledNext, Spoiled, Inv, Next, Exec;
      var l := |acts| - 1;
      SpoilsInRuns(acts[..l], c);
      RunKeepsInv(acts[..l]);
      SpoilStep(Exec(INIT, acts[..l]), acts[l], c, Spoiled(acts[..l], c));
      SpoiledStep(acts, c);
      LastStep(acts);
    }
  }

  lemma NobodyIsInCharge(s: State, c: CheckoutId)
    requires AllAtRest(s)
    ensures !InCharge(s, c) && !BeingPut(s, c)
  {
    forall i: TaskId | i < |s.tasks| ensures !Holds(s.tasks[i], c) { assert AtRest(s.tasks[i]); }
    forall k | 0 <= k < |s.tasks| && s.tasks[k].Release? ensures !s.tasks[k].rpc.Putting? { assert AtRest(s.tasks[k]); }
  }

  /**
   Once every task is at rest, a session that was ever checked out is closed, or in the pool without the admission lock,
   if and only if none of the named interruptions hit it: its last task stopped while the session was open, or its release was
   cut short before the unlock or the close had worked and the server has kept the session since.
   */
  lemma EverySessionIsGivenBackExactly(acts: seq<Action>, c: CheckoutId)
    requires AllAtRest(Exec(INIT, acts)) && c < |Exec(INIT, acts).permits|
    ensures GivenBack(Exec(INIT, acts).permits[c]) <==> !Stranded(acts, c) && !Spoiled(acts, c)
  {
    hide Exec, Stranded, Spoiled, AllAtRest, InCharge, BeingPut, PastUnlock;
    StraysInRuns(acts, c);
    SpoilsInRuns(acts, c);
    NobodyIsInCharge(Exec(INIT, acts), c);
  }
}
