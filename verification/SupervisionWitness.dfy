/**
 Runs of the tasks: a run that is interrupted while it drains and still gives everything back, and
 the interruptions that leave something behind.
 */
module SupervisionWitness {
  import opened Common
  import opened Supervision
  import opened SupervisionSafety
  import opened SupervisionResults
  import opened SupervisionSessions
  import opened SupervisionPermits

  const HELD := Checkout(true, true, false, true, 0)
  const STARTED := Start(7, Answered(Accepted))

  lemma Extend(acts: seq<Action>, s: State, a: Action) returns (acts': seq<Action>, s': State)
    requires Exec(INIT, acts) == s
    ensures Exec(INIT, acts') == s' && s' == Next(s, a)
  {
    hide Next;
    assert (acts + [a])[..|acts + [a]| - 1] == acts;
    acts', s' := acts + [a], Next(s, a);
  }

  /** One start in the lock, and at most its checkout. */
  predicate Alone(s: State, pc: StartPc) {
    && s.lock == Some(0) && s.active == map[] && s.isOpen && !s.stopping && s.finals == []
    && |s.tasks| == 1 && s.tasks[0] == Start(7, pc)
  }

  lemma StartInLock() returns (acts: seq<Action>, s: State)
    ensures Exec(INIT, acts) == s && Alone(s, AtState) && s.permits == []
  {
    acts, s := [], INIT;
    acts, s := Extend(acts, s, Open);
    acts, s := Extend(acts, s, CallStart(7));
    assert |s.tasks| == 1 && s.tasks[0] == Start(7, AtLock);
    acts, s := Extend(acts, s, Resume(0, Granted));
  }

  lemma SessionTaken() returns (acts: seq<Action>, s: State)
    ensures Exec(INIT, acts) == s && Alone(s, AtTry(0))
    ensures |s.permits| == 1 && s.permits[0] == Checkout(false, true, false, false, 0)
  {
    acts, s := StartInLock();
    acts, s := Extend(acts, s, Resume(0, Row(OpenRow)));
    assert Alone(s, AtSession) && s.permits == [];
    acts, s := Extend(acts, s, Resume(0, Session(true)));
  }

  /** A start that has been granted the permit and is about to acquire its run. */
  lemma PermitGranted() returns (acts: seq<Action>, s: State)
    ensures Exec(INIT, acts) == s && Alone(s, AtAcquire(0)) && |s.permits| == 1 && s.permits[0] == HELD
  {
    acts, s := SessionTaken();
    acts, s := Extend(acts, s, Resume(0, Lock(true)));
  }

  /** One run under supervision, with its permit. */
  predicate Supervised(s: State, children: seq<Child>, pc: SupervisePc, permit: Checkout) {
    && s.lock == None && s.isOpen && !s.stopping && s.finals == []
    && (7 in s.active && s.active[7] == 1 && forall r :: r in s.active ==> r == 7)
    && |s.tasks| >= 2 && s.tasks[0] == STARTED && s.tasks[1] == Supervise(7, 0, true, children, InternalError, pc)
    && |s.permits| == 1 && s.permits[0] == permit
  }

  lemma RunHandedOver() returns (acts: seq<Action>, s: State)
    ensures Exec(INIT, acts) == s && Supervised(s, [], New, HELD) && |s.tasks| == 2
  {
    acts, s := PermitGranted();
    acts, s := Extend(acts, s, Resume(0, Outcome(Acquired(true))));
  }

  /** A supervisor can be abandoned: cancelled between its creation and its first step. */
  lemma AbandonmentIsReachable()
    ensures exists acts :: IsAbandoned(Exec(INIT, acts), 1)
  {
    var acts, s := RunHandedOver();
    acts, s := Extend(acts, s, Resume(1, Cancelled(false)));
    assert IsAbandoned(s, 1);
  }

  const BUSY := Busy(false, false)
  const ASKED := Busy(false, true)
  const DONE := Over(Returned(InternalError))
  const STOPPED := Over(WasCancelled)

  lemma CallbackReturned() returns (acts: seq<Action>, s: State)
    ensures Exec(INIT, acts) == s && Supervised(s, [DONE, BUSY, BUSY], Waiting, HELD) && |s.tasks| == 2
  {
    acts, s := RunHandedOver();
    acts, s := Extend(acts, s, Resume(1, Begin(true)));
    assert Supervised(s, [BUSY, BUSY, BUSY], Waiting, HELD);
    FinishOf(s, [BUSY, BUSY, BUSY], Waiting, HELD, 0, Returned(InternalError));
    acts, s := Extend(acts, s, Finish(1, 0, Returned(InternalError)));
  }

  lemma FinishOf(s: State, children: seq<Child>, pc: SupervisePc, permit: Checkout, k: nat, end: ChildEnd)
    requires Supervised(s, children, pc, permit) && |s.tasks| == 2
    requires k < |children| && children[k].Busy? && (k == 2 ==> end.WasCancelled?)
    ensures Supervised(Next(s, Finish(1, k, end)), children[k := Over(end)], pc, permit) && |Next(s, Finish(1, k, end)).tasks| == 2
  {
  }

  lemma WaitOver() returns (acts: seq<Action>, s: State)
    ensures Exec(INIT, acts) == s && Supervised(s, [DONE, ASKED, ASKED], Draining(false), HELD) && |s.tasks| == 2
  {
    acts, s := CallbackReturned();
    assert s.tasks[1].children[0].Over?;
    acts, s := Extend(acts, s, Resume(1, Ready));
    assert s.tasks[1].children == [DONE, ASKED, ASKED];
  }

  lemma DrainInterrupted() returns (acts: seq<Action>, s: State)
    ensures Exec(INIT, acts) == s && Supervised(s, [DONE, ASKED, ASKED], Draining(true), HELD) && |s.tasks| == 2
  {
    acts, s := WaitOver();
    acts, s := Extend(acts, s, Resume(1, Cancelled(false)));
  }

  lemma ChildrenOver() returns (acts: seq<Action>, s: State)
    ensures Exec(INIT, acts) == s && Supervised(s, [DONE, STOPPED, STOPPED], Draining(true), HELD) && |s.tasks| == 2
  {
    acts, s := DrainInterrupted();
    hide Next;
    FinishOf(s, [DONE, ASKED, ASKED], Draining(true), HELD, 1, WasCancelled);
    acts, s := Extend(acts, s, Finish(1, 1, WasCancelled));
    FinishOf(s, [DONE, STOPPED, ASKED], Draining(true), HELD, 2, WasCancelled);
    acts, s := Extend(acts, s, Finish(1, 2, WasCancelled));
  }

  lemma ReleaseSpawned() returns (acts: seq<Action>, s: State)
    ensures Exec(INIT, acts) == s && Supervised(s, [DONE, STOPPED, STOPPED], Releasing(2, false), HELD.(releases := 1))
    ensures |s.tasks| == 3 && s.tasks[2] == Release(0, Fresh)
  {
    acts, s := ChildrenOver();
    assert AllOver(s.tasks[1].children);
    acts, s := Extend(acts, s, Resume(1, Ready));
  }

  lemma SessionPutBack() returns (acts: seq<Action>, s: State)
    ensures Exec(INIT, acts) == s
    ensures Supervised(s, [DONE, STOPPED, STOPPED], Releasing(2, false), Checkout(false, true, true, true, 1))
    ensures |s.tasks| == 3 && s.tasks[2] == Release(0, Gone)
  {
    acts, s := ReleaseSpawned();
    acts, s := Extend(acts, s, Resume(2, Begin(true)));
    assert s.tasks[2] == Release(0, Unlocking);
    acts, s := Extend(acts, s, Resume(2, Unlock(true)));
    assert s.tasks[2] == Release(0, Putting) && s.permits[0] == Checkout(false, true, false, true, 1);
    acts, s := Extend(acts, s, Resume(2, Ready));
  }

  lemma EntryGone() returns (acts: seq<Action>, s: State)
    ensures Exec(INIT, acts) == s && |s.tasks| == 3 && |s.permits| == 1
    ensures s.tasks[0] == STARTED && s.tasks[1].Supervise? && s.tasks[1].vpc.Ended? && s.tasks[2] == Release(0, Gone)
    ensures 7 !in s.active && (forall r :: r in s.active ==> r == 7)
    ensures s.finals == [] && s.permits[0] == Checkout(false, true, true, true, 1)
  {
    acts, s := SessionPutBack();
    acts, s := Extend(acts, s, Resume(1, Ready));
  }

  /** Interrupted while it drains, a run writes no outcome, but its permit comes back and its entry is gone. */
  lemma InterruptedRunGivesBack()
    ensures exists acts ::
              var s := Exec(INIT, acts);
              && AllAtRest(s) && s.active == map[] && s.finals == []
              && |s.permits| == 1 && s.permits[0] == Checkout(false, true, true, true, 1)
  {
    hide Exec;
    var acts, s := EntryGone();
    assert s.active == map[];
    assert AllAtRest(s);
  }

  lemma StartReleases() returns (acts: seq<Action>, s: State)
    ensures Exec(INIT, acts) == s && |s.tasks| == 2 && s.tasks[0] == Start(7, AtRelease(0, 1, Raised)) && s.tasks[1] == Release(0, Fresh)
    ensures s.active == map[]
    ensures |s.permits| == 1 && s.permits[0] == HELD.(releases := 1)
  {
    acts, s := PermitGranted();
    acts, s := Extend(acts, s, Resume(0, Failed(OtherError, true, false)));
  }

  /** A release task that is itself cancelled puts a session back that still holds the lock. */
  lemma SpoiledSessionIsReachable()
    ensures exists acts :: !PoolIsClean(Exec(INIT, acts))
  {
    var acts, s := StartReleases();
    acts, s := Extend(acts, s, Resume(1, Begin(true)));
    assert s.tasks[1] == Release(0, Unlocking);
    acts, s := Extend(acts, s, Resume(1, Cancelled(false)));
    assert s.tasks[1] == Release(0, Putting) && s.permits[0] == HELD.(releases := 1);
    acts, s := Extend(acts, s, Resume(1, Ready));
    assert s.permits[0].home && s.permits[0].open && s.permits[0].locked;
  }

  /**
   A release task that is cancelled before its first step keeps the lock and the session for good, although the release was
   begun, no supervisor was abandoned and no run is active.
   */
  lemma CancelledReleaseKeepsLock()
    ensures exists acts ::
              var s := Exec(INIT, acts);
              && AllAtRest(s) && s.active == map[] && (forall v :: !IsAbandoned(s, v))
              && |s.permits| == 1 && s.permits[0] == Checkout(true, true, false, true, 1) && !GivenBack(s.permits[0])
  {
    var acts, s := StartReleases();
    acts, s := Extend(acts, s, Resume(1, Cancelled(false)));
    assert s.tasks[1] == Release(0, Gone);
    acts, s := Extend(acts, s, Resume(0, Ready));
    hide Exec;
    assert AllAtRest(s);
  }

  /** A lock that was taken although the call for it was cancelled stays held when the close that should drop it is cancelled too. */
  lemma UnfinishedPermitKeepsLock()
    ensures exists acts ::
              var s := Exec(INIT, acts);
              && AllAtRest(s) && s.active == map[] && |s.tasks| == 1
              && |s.permits| == 1 && s.permits[0] == Checkout(true, true, false, false, 0) && !GivenBack(s.permits[0])
  {
    var acts, s := SessionTaken();
    acts, s := Extend(acts, s, Resume(0, Cancelled(true)));
    assert Alone(s, AtClose(0)) && s.permits[0] == Checkout(true, true, false, false, 0);
    acts, s := Extend(acts, s, Resume(0, Cancelled(false)));
    hide Exec;
    assert AllAtRest(s);
  }
}
