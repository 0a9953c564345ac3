/**
 What holds of every run of the process's tasks, whatever is interrupted: one active run, one
 release for each permit and none before the children are over, outcomes only after draining,
 nothing left behind by `aclose`; and the two interruptions that do leave something behind.
 */
module SupervisionResults {
  import opened Common
  import opened Supervision
  import opened SupervisionSafety

  /** `_active` never holds more than one entry. */
  lemma AtMostOneActive(acts: seq<Action>)
    ensures |Exec(INIT, acts).active| <= 1
  {
    RunKeepsInv(acts);
    var m := Exec(INIT, acts).active;
    hide Exec;
    if r :| r in m {
      assert m.Keys == {r};
      assert |m| == |m.Keys|;
    } else {
      assert |m| == |m.Keys|;
    }
  }

  // ---------------------------------------------------------------- permits

  predicate OneCarrier(s: State, c: CheckoutId) {
    exists i :: 0 <= i < |s.tasks| && Carries(s.tasks[i], c) && forall j :: 0 <= j < |s.tasks| && Carries(s.tasks[j], c) ==> j == i
  }

  ghost predicate OneReleaser(s: State, c: CheckoutId) {
    exists i :: Serves(s, i, c) && forall j :: Serves(s, j, c) ==> j == i
  }

  lemma CarriersAgree(s: State, c: CheckoutId, i: TaskId, j: TaskId)
    requires Inv(s) && i < |s.tasks| && j < |s.tasks| && Carries(s.tasks[i], c) && Carries(s.tasks[j], c)
    ensures i == j
  {
    hide PermitsOk, FinalsOk, OneReleaseEach;
    assert TaskOk(s, i) && TaskOk(s, j);
  }

  lemma CarriedIsUnreleased(s: State, c: CheckoutId, i: TaskId)
    requires Inv(s) && i < |s.tasks| && Carries(s.tasks[i], c)
    ensures c < |s.permits| && s.permits[c].releases == 0
  {
    assert TaskOk(s, i);
  }

  /**
   A granted permit is released at most once.  Until its release begins exactly one task answers for it; from then on
   exactly one release task serves it and no task answers for it any more.
   */
  lemma PermitIsReleasedOnce(acts: seq<Action>, c: CheckoutId)
    requires c < |Exec(INIT, acts).permits| && Exec(INIT, acts).permits[c].granted
    ensures var s := Exec(INIT, acts);
            || (s.permits[c].releases == 0 && OneCarrier(s, c) && !Served(s, c))
            || (s.permits[c].releases == 1 && OneReleaser(s, c) && !Carried(s, c))
  {
    RunKeepsInv(acts);
    var s := Exec(INIT, acts);
    hide Exec;
    if s.permits[c].releases == 0 {
      var i :| 0 <= i < |s.tasks| && Carries(s.tasks[i], c);
      forall j | 0 <= j < |s.tasks| && Carries(s.tasks[j], c) ensures j == i { CarriersAgree(s, c, i, j); }
      forall k | 0 <= k < |s.tasks| && s.tasks[k].Release? ensures s.tasks[k].permit != c { assert TaskOk(s, k); }
    } else {
      var k :| 0 <= k < |s.tasks| && s.tasks[k].Release? && s.tasks[k].permit == c;
      assert Serves(s, k, c);
      forall j | Serves(s, j, c) ensures j == k {}
      forall j | 0 <= j < |s.tasks| ensures !Carries(s.tasks[j], c) {
        if Carries(s.tasks[j], c) { CarriedIsUnreleased(s, c, j); }
      }
    }
  }

  predicate AtRest(task: Task) {
    match task
    case Start(_, pc) => pc.Answered?
    case Supervise(_, _, _, _, _, pc) => pc.Ended? || pc.Abandoned?
    case Release(_, pc) => pc.Gone?
    case Close(_, pc) => pc.GaveUp? || pc.Closed?
  }

  predicate AllAtRest(s: State) {
    forall i :: 0 <= i < |s.tasks| ==> AtRest(s.tasks[i])
  }

  /** A supervisor that was cancelled before its first step: no line of it ever runs, its `finally` neither. */
  predicate IsAbandoned(s: State, v: TaskId) {
    v < |s.tasks| && s.tasks[v].Supervise? && s.tasks[v].vpc.Abandoned?
  }

  predicate AbandonedWith(s: State, v: TaskId, c: CheckoutId) {
    IsAbandoned(s, v) && s.tasks[v].permit == c
  }

  /**
   Once every task is at rest, the release of a granted permit was begun unless its supervisor was abandoned, and only then
   not.  What comes of a release that was begun is the matter of `SupervisionPermits`.
   */
  lemma EveryReleaseIsBegunExactly(acts: seq<Action>, c: CheckoutId)
    requires AllAtRest(Exec(INIT, acts)) && c < |Exec(INIT, acts).permits| && Exec(INIT, acts).permits[c].granted
    ensures var s := Exec(INIT, acts);
            s.permits[c].releases == 1 <==> !exists v: TaskId :: AbandonedWith(s, v, c)
  {
    RunKeepsInv(acts);
    var s := Exec(INIT, acts);
    hide Exec;
    forall v: TaskId | AbandonedWith(s, v, c) ensures s.permits[c].releases == 0 {
      assert Carries(s.tasks[v], c);
      CarriedIsUnreleased(s, c, v);
    }
    if s.permits[c].releases == 0 {
      var i: TaskId :| 0 <= i < |s.tasks| && Carries(s.tasks[i], c);
      assert AtRest(s.tasks[i]);
      assert AbandonedWith(s, i, c);
    }
  }

  // ---------------------------------------------------------------- children

  /**
   The release of a permit begins only when every child of its supervisor is over; a heartbeat that is checking the
   permit's session finds it open, checked out and unreleased.
   */
  lemma ReleaseFollowsChildren(acts: seq<Action>, v: TaskId)
    requires v < |Exec(INIT, acts).tasks| && Exec(INIT, acts).tasks[v].Supervise?
    ensures var s := Exec(INIT, acts);
            && s.tasks[v].permit < |s.permits|
            && (Served(s, s.tasks[v].permit) ==> AllOver(s.tasks[v].children))
            && (forall k :: 0 <= k < |s.tasks[v].children| && s.tasks[v].children[k].Busy? ==>
                  var p := s.permits[s.tasks[v].permit]; p.open && !p.home && p.releases == 0)
  {
    RunKeepsInv(acts);
    var s := Exec(INIT, acts);
    hide Exec;
    assert TaskOk(s, v);
    var c := s.tasks[v].permit;
    if Served(s, c) {
      var k :| 0 <= k < |s.tasks| && s.tasks[k].Release? && s.tasks[k].permit == c;
      assert TaskOk(s, k);
    }
  }

  // ---------------------------------------------------------------- outcomes

  predicate WroteFor(s: State, v: TaskId) {
    exists n :: 0 <= n < |s.finals| && s.finals[n].supervisor == v
  }

  /** Where a supervisor may stand when it writes its outcome. */
  predicate MayWrite(s: State, v: TaskId) {
    && v < |s.tasks| && s.tasks[v].Supervise? && AllOver(s.tasks[v].children) && !WroteFor(s, v)
    && s.tasks[v].permit < |s.permits| && s.permits[s.tasks[v].permit].releases == 0
  }

  lemma OnlySupervisorsWrite(s: State, a: Action)
    ensures Next(s, a).finals == s.finals
      || (a.Resume? && a.t < |s.tasks| && s.tasks[a.t].Supervise? && (s.tasks[a.t].vpc.New? || s.tasks[a.t].vpc.Draining?)
          && exists reason :: !LeavesRow(reason) && Next(s, a).finals == s.finals + [Final(a.t, reason)])
  {
    var s' := Next(s, a);
    if a.Resume? && a.t < |s.tasks| && s.tasks[a.t].Supervise? && s'.finals != s.finals {
      SupervisorWrites(s, a.t, a.event);
    } else if a.Resume? && a.t < |s.tasks| && s.tasks[a.t].Start? {
      StartLeaves(s, a.t, a.event, 0);
      hide StartStep;
    }
  }

  lemma SupervisorWrites(s: State, t: TaskId, e: Event)
    requires t < |s.tasks| && s.tasks[t].Supervise? && SuperviseStep(s, t, e).finals != s.finals
    ensures s.tasks[t].vpc.New? || s.tasks[t].vpc.Draining?
    ensures exists reason :: !LeavesRow(reason) && SuperviseStep(s, t, e).finals == s.finals + [Final(t, reason)]
  {
    var s' := SuperviseStep(s, t, e);
    assert s'.finals == s.finals + [Final(t, s'.tasks[t].reason)] && !LeavesRow(s'.tasks[t].reason);
  }

  lemma StartedWriters(s: State, v: TaskId)
    requires Inv(s) && v < |s.tasks| && s.tasks[v].Supervise?
    requires !s.tasks[v].vpc.Finalizing? && !s.tasks[v].vpc.Releasing? && !s.tasks[v].vpc.Ended?
    ensures !WroteFor(s, v)
  {
    forall n | 0 <= n < |s.finals| ensures s.finals[n].supervisor != v { assert FinalOk(s, s.finals[n]); }
  }

  /** An outcome is written only after the supervisor's children have drained, before its permit is released, and once. */
  lemma OutcomeFollowsChildren(acts: seq<Action>, a: Action)
    ensures var s, s' := Exec(INIT, acts), Next(Exec(INIT, acts), a);
            s'.finals != s.finals ==>
              exists f: Final :: s'.finals == s.finals + [f] && !LeavesRow(f.reason) && MayWrite(s, f.supervisor)
  {
    RunKeepsInv(acts);
    var s := Exec(INIT, acts);
    hide Exec;
    var s' := Next(s, a);
    OnlySupervisorsWrite(s, a);
    if s'.finals != s.finals {
      var reason :| !LeavesRow(reason) && s'.finals == s.finals + [Final(a.t, reason)];
      assert TaskOk(s, a.t);
      StartedWriters(s, a.t);
      WritersHaveDrained(s, a.t, a.event);
      assert MayWrite(s, Final(a.t, reason).supervisor);
    }
  }

  lemma WritersHaveDrained(s: State, t: TaskId, e: Event)
    requires t < |s.tasks| && s.tasks[t].Supervise? && SuperviseStep(s, t, e).finals != s.finals
    requires s.tasks[t].vpc.New? ==> s.tasks[t].children == []
    ensures AllOver(s.tasks[t].children)
  {
  }

  /** A supervisor that will not write an outcome any more. */
  predicate Silent(s: State, v: TaskId) {
    && v < |s.tasks| && s.tasks[v].Supervise? && !WroteFor(s, v)
    && match s.tasks[v].vpc {
         case New => s.stopping
         case Waiting => s.stopping
         case Draining(interrupted) => interrupted || LeavesRow(s.tasks[v].reason)
         case Finalizing => false
         case Releasing(_, _) => true
         case Ended => true
         case Abandoned => true
       }
  }

  lemma OthersStaySilent(s: State, a: Action, v: TaskId)
    requires Silent(s, v) && !(a.Resume? && a.t == v)
    ensures Silent(Next(s, a), v)
  {
    var s' := Next(s, a);
    OnlySupervisorsWrite(s, a);
    TaskStays(s, a, v);
  }

  /** A step of another task leaves a supervisor where it stands, and shutdown is never taken back. */
  lemma TaskStays(s: State, a: Action, v: TaskId)
    requires v < |s.tasks| && s.tasks[v].Supervise? && !(a.Resume? && a.t == v)
    ensures var s' := Next(s, a);
            && v < |s'.tasks| && s'.tasks[v].Supervise? && s'.tasks[v].vpc == s.tasks[v].vpc
            && s'.tasks[v].reason == s.tasks[v].reason && (s.stopping ==> s'.stopping)
  {
    if a.Resume? && a.t < |s.tasks| {
      hide StartStep, SuperviseStep;
      match s.tasks[a.t]
      case Start(_, _) => StartLeaves(s, a.t, a.event, v);
      case Supervise(_, _, _, _, _, _) => SuperviseLeaves(s, a.t, a.event, v);
      case Release(_, _) =>
      case Close(_, _) =>
    }
  }

  lemma StepStaysSilent(s: State, v: TaskId, e: Event)
    requires Silent(s, v)
    ensures Silent(SuperviseStep(s, v, e), v)
  {
  }

  lemma {:induction false} SilentForGood(s: State, more: seq<Action>, v: TaskId)
    requires Silent(s, v)
    ensures Silent(Exec(s, more), v)
  {
    if more != [] {
      var front, a := more[..|more| - 1], more[|more| - 1];
      SilentForGood(s, front, v);
      var u := Exec(s, front);
      if a.Resume? && a.t == v {
        hide Silent, SuperviseStep;
        StepStaysSilent(u, v, a.event);
        SilentIsSupervisor(u, v);
      } else {
        hide Silent, Next;
        OthersStaySilent(u, a, v);
      }
    }
  }

  lemma SilentIsSupervisor(s: State, v: TaskId)
    requires Silent(s, v)
    ensures v < |s.tasks| && s.tasks[v].Supervise?
  {
  }

  /** A supervisor that has not stopped waiting when shutdown begins writes no outcome, however the run goes on. */
  lemma ShutdownWritesNothing(acts: seq<Action>, more: seq<Action>, v: TaskId)
    requires var s := Exec(INIT, acts);
             s.stopping && v < |s.tasks| && s.tasks[v].Supervise? && (s.tasks[v].vpc.New? || s.tasks[v].vpc.Waiting?)
    ensures !WroteFor(Exec(Exec(INIT, acts), more), v)
  {
    RunKeepsInv(acts);
    StartedWriters(Exec(INIT, acts), v);
    SilentForGood(Exec(INIT, acts), more, v);
  }

  /** Neither does one that is cancelled while it waits or drains. */
  lemma InterruptionWritesNothing(acts: seq<Action>, more: seq<Action>, v: TaskId, effect: bool)
    requires var s := Exec(INIT, acts);
             v < |s.tasks| && s.tasks[v].Supervise? && (s.tasks[v].vpc.New? || s.tasks[v].vpc.Waiting? || s.tasks[v].vpc.Draining?)
    ensures !WroteFor(Exec(Next(Exec(INIT, acts), Resume(v, Cancelled(effect))), more), v)
  {
    RunKeepsInv(acts);
    var s := Exec(INIT, acts);
    hide Exec;
    StartedWriters(s, v);
    assert TaskOk(s, v);
    assert Silent(Next(s, Resume(v, Cancelled(effect))), v);
    SilentForGood(Next(s, Resume(v, Cancelled(effect))), more, v);
  }

  // ---------------------------------------------------------------- aclose

  /** Tasks and entries of `_active` from `n` on: none is a supervisor. */
  predicate NoSupervisorFrom(s: State, n: nat) {
    forall i :: n <= i < |s.tasks| ==> !s.tasks[i].Supervise?
  }

  /** What a step needs to create a supervisor. */
  predicate HandsOver(s: State, a: Action) {
    && a.Resume? && a.t < |s.tasks| && s.tasks[a.t].Start? && s.tasks[a.t].spc.AtAcquire?
  }

  lemma OnlyAcquisitionsAdd(s: State, a: Action, n: nat)
    requires NoSupervisorFrom(s, n) && !HandsOver(s, a) && n <= |s.tasks|
    ensures NoSupervisorFrom(Next(s, a), n) && n <= |Next(s, a).tasks|
  {
    if a.Resume? && a.t < |s.tasks| {
      hide StartStep, SuperviseStep;
      match s.tasks[a.t]
      case Start(_, _) => StartAddsNone(s, a.t, a.event, n);
      case Supervise(_, _, _, _, _, _) => SuperviseAddsNone(s, a.t, a.event, n);
      case Release(_, _) =>
      case Close(_, _) =>
    }
  }

  lemma StartAddsNone(s: State, t: TaskId, e: Event, n: nat)
    requires t < |s.tasks| && s.tasks[t].Start? && !s.tasks[t].spc.AtAcquire? && NoSupervisorFrom(s, n) && n <= |s.tasks|
    ensures NoSupervisorFrom(StartStep(s, t, e), n) && n <= |StartStep(s, t, e).tasks|
  {
    hide StartStep;
    var s' := StartStep(s, t, e);
    StartLeaves(s, t, e, t);
    forall i | n <= i < |s'.tasks| ensures !s'.tasks[i].Supervise? { StartLeaves(s, t, e, i); }
  }

  lemma SuperviseAddsNone(s: State, t: TaskId, e: Event, n: nat)
    requires t < |s.tasks| && s.tasks[t].Supervise? && NoSupervisorFrom(s, n) && n <= |s.tasks|
    ensures NoSupervisorFrom(SuperviseStep(s, t, e), n) && n <= |SuperviseStep(s, t, e).tasks|
  {
    hide SuperviseStep;
    var s' := SuperviseStep(s, t, e);
    SuperviseLeaves(s, t, e, t);
    forall i | n <= i < |s'.tasks| ensures !s'.tasks[i].Supervise? { SuperviseLeaves(s, t, e, i); }
  }

  /** Once the manager is stopping, no step hands a run over. */
  lemma StoppingHandsNothingOver(s: State, a: Action)
    requires Inv(s) && s.stopping
    ensures !HandsOver(s, a) && Next(s, a).stopping
  {
    if a.Resume? && a.t < |s.tasks| { assert TaskOk(s, a.t); }
    StoppingStays(s, a);
  }

  lemma StoppingStays(s: State, a: Action)
    requires s.stopping
    ensures Next(s, a).stopping
  {
    if a.Resume? && a.t < |s.tasks| {
      hide StartStep, SuperviseStep;
      match s.tasks[a.t]
      case Start(_, _) => StartLeaves(s, a.t, a.event, a.t);
      case Supervise(_, _, _, _, _, _) => SuperviseLeaves(s, a.t, a.event, a.t);
      case Release(_, _) =>
      case Close(_, _) =>
    }
  }

  lemma {:induction false} StoppedForGood(s: State, more: seq<Action>)
    requires Inv(s) && s.stopping
    ensures Inv(Exec(s, more)) && Exec(s, more).stopping
    ensures NoSupervisorFrom(Exec(s, more), |s.tasks|) && |s.tasks| <= |Exec(s, more).tasks|
  {
    if more != [] {
      var u, a := Exec(s, more[..|more| - 1]), more[|more| - 1];
      hide Next, Inv, NoSupervisorFrom;
      StoppedForGood(s, more[..|more| - 1]);
      NextKeepsInv(u, a);
      StoppingHandsNothingOver(u, a);
      OnlyAcquisitionsAdd(u, a, |s.tasks|);
    }
  }

  predicate IsClosed(s: State, t: TaskId) {
    t < |s.tasks| && s.tasks[t].Close? && s.tasks[t].cpc.Closed?
  }

  lemma {:induction false} ClosedForGood(s: State, more: seq<Action>, t: TaskId)
    requires IsClosed(s, t)
    ensures IsClosed(Exec(s, more), t)
  {
    if more != [] {
      hide Next;
      ClosedForGood(s, more[..|more| - 1], t);
      ClosedStays(Exec(s, more[..|more| - 1]), more[|more| - 1], t);
    }
  }

  /**
   After `aclose` has returned, even by a cancellation, no later run of the tasks starts another supervisor, and
   `_active` is empty unless a supervisor was abandoned.
   */
  lemma CloseLeavesNobody(acts: seq<Action>, more: seq<Action>, t: TaskId)
    requires IsClosed(Exec(INIT, acts), t)
    ensures var s, s' := Exec(INIT, acts), Exec(Exec(INIT, acts), more);
            && NoSupervisorFrom(s', |s.tasks|)
            && forall r :: r in s'.active ==> IsAbandoned(s', s'.active[r])
  {
    RunKeepsInv(acts);
    var s, s' := Exec(INIT, acts), Exec(Exec(INIT, acts), more);
    hide Exec;
    assert TaskOk(s, t);
    StoppedForGood(s, more);
    ClosedForGood(s, more, t);
    assert TaskOk(s', t);
    forall r | r in s'.active ensures IsAbandoned(s', s'.active[r]) {
      assert Finished(s', s'.active[r]);
    }
  }

  lemma ClosedStays(s: State, a: Action, t: TaskId)
    requires IsClosed(s, t)
    ensures IsClosed(Next(s, a), t)
  {
    if a.Resume? && a.t < |s.tasks| && a.t != t {
      hide StartStep, SuperviseStep;
      match s.tasks[a.t]
      case Start(_, _) => StartLeaves(s, a.t, a.event, t);
      case Supervise(_, _, _, _, _, _) => SuperviseLeaves(s, a.t, a.event, t);
      case Release(_, _) =>
      case Close(_, _) =>
    }
  }

  // ---------------------------------------------------------------- what is left behind

  lemma AbandonedStays(s: State, a: Action, v: TaskId)
    requires IsAbandoned(s, v) && s.tasks[v].children == []
    ensures v < |Next(s, a).tasks| && Next(s, a).tasks[v] == s.tasks[v]
  {
    if a.Resume? && a.t < |s.tasks| && a.t != v {
      hide StartStep, SuperviseStep;
      match s.tasks[a.t]
      case Start(_, _) => StartLeaves(s, a.t, a.event, v);
      case Supervise(_, _, _, _, _, _) => SuperviseLeaves(s, a.t, a.event, v);
      case Release(_, _) =>
      case Close(_, _) =>
    }
  }

  /** What an abandoned supervisor keeps: its entry in `_active`, and its permit unreleased. */
  predicate KeepsAll(s: State, v: TaskId) {
    && IsAbandoned(s, v)
    && s.tasks[v].run in s.active && s.active[s.tasks[v].run] == v
    && s.tasks[v].permit < |s.permits| && s.permits[s.tasks[v].permit].releases == 0
  }

  lemma AbandonedKeepsAll(s: State, v: TaskId)
    requires Inv(s) && IsAbandoned(s, v)
    ensures KeepsAll(s, v) && s.tasks[v].children == []
  {
    assert TaskOk(s, v);
  }

  /** While it does, no start gets past the check of `_active`. */
  lemma AbandonedBlocks(s: State, a: Action, v: TaskId)
    requires Inv(s) && KeepsAll(s, v)
    ensures !HandsOver(s, a)
  {
    if a.Resume? && a.t < |s.tasks| { assert TaskOk(s, a.t); }
  }

  lemma {:induction false} AbandonedForGood(s: State, more: seq<Action>, v: TaskId)
    requires Inv(s) && IsAbandoned(s, v)
    ensures Inv(Exec(s, more)) && v < |Exec(s, more).tasks| && Exec(s, more).tasks[v] == s.tasks[v]
    ensures NoSupervisorFrom(Exec(s, more), |s.tasks|) && |s.tasks| <= |Exec(s, more).tasks|
  {
    if more != [] {
      var u, a := Exec(s, more[..|more| - 1]), more[|more| - 1];
      hide Next, Inv, NoSupervisorFrom, HandsOver;
      AbandonedForGood(s, more[..|more| - 1], v);
      NextKeepsInv(u, a);
      AbandonedKeepsAll(u, v);
      AbandonedStays(u, a, v);
      AbandonedBlocks(u, a, v);
      OnlyAcquisitionsAdd(u, a, |s.tasks|);
    }
  }

  /**
   An abandoned supervisor blocks the process for good: in every later state its run is still in `_active`, its permit
   is not released, and no other run has been taken over.
   */
  lemma AbandonedBlocksForever(acts: seq<Action>, more: seq<Action>, v: TaskId)
    requires IsAbandoned(Exec(INIT, acts), v)
    ensures var s, s' := Exec(INIT, acts), Exec(Exec(INIT, acts), more);
            KeepsAll(s', v) && s'.tasks[v] == s.tasks[v] && NoSupervisorFrom(s', |s.tasks|)
  {
    RunKeepsInv(acts);
    hide Exec, Inv, NoSupervisorFrom;
    AbandonedForGood(Exec(INIT, acts), more, v);
    AbandonedKeepsAll(Exec(Exec(INIT, acts), more), v);
  }
}
