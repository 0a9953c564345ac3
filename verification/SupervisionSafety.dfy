/**
 What every step of the process's tasks keeps: who holds the lock and the permit, which children are still
 running, and what has been released and written.
 */
module SupervisionSafety {
  import opened Common
  import opened Supervision

  predicate InLock(pc: StartPc) {
    !pc.AtLock? && !pc.Answered?
  }

  predicate Serves(s: State, k: TaskId, c: CheckoutId) {
    k < |s.tasks| && s.tasks[k].Release? && s.tasks[k].permit == c
  }

  predicate HasCheckout(pc: StartPc) {
    InLock(pc) && !pc.AtState? && !pc.AtSession?
  }

  predicate StartOk(s: State, i: TaskId)
    requires i < |s.tasks| && s.tasks[i].Start?
  {
    var pc := s.tasks[i].spc;
    && (InLock(pc) ==> s.lock == Some(i))
    && (InLock(pc) && !pc.AtState? ==> s.active == map[])
    && (HasCheckout(pc) ==>
          && pc.c < |s.permits|
          && var p := s.permits[pc.c];
          && (pc.AtTry? || pc.AtPutBack? ==> p == Checkout(false, true, false, false, 0))
          && (pc.AtClose? || pc.AtReturn? ==> !p.granted && !p.home && p.releases == 0)
          && (pc.AtReturn? ==> !p.open && !p.locked)
          && (pc.AtAcquire? ==> p.granted && p.open && !p.home && p.releases == 0)
          && (pc.AtRelease? ==> p.granted && p.releases == 1 && Serves(s, pc.releaser, pc.c)))
  }

  predicate AllAsked(children: seq<Child>) {
    forall k :: 0 <= k < |children| && children[k].Busy? ==> children[k].cancelled
  }

  predicate Unreleased(pc: SupervisePc) {
    pc.New? || pc.Waiting? || pc.Draining? || pc.Finalizing? || pc.Abandoned?
  }

  predicate SuperviseOk(s: State, i: TaskId)
    requires i < |s.tasks| && s.tasks[i].Supervise?
  {
    var v := s.tasks[i];
    && v.permit < |s.permits| && s.permits[v.permit].granted
    && (!v.vpc.Ended? ==> v.run in s.active && s.active[v.run] == i)
    && (|v.children| == 3 || v.children == [])
    && (v.vpc.New? || v.vpc.Abandoned? ==> v.children == [])
    && (v.vpc.Waiting? || v.vpc.Draining? ==> |v.children| == 3)
    && (v.vpc.Draining? ==> AllAsked(v.children))
    && (v.vpc.Finalizing? || v.vpc.Releasing? || v.vpc.Ended? ==> AllOver(v.children))
    && (v.vpc.Finalizing? ==> !LeavesRow(v.reason))
    && var p := s.permits[v.permit];
    && (Unreleased(v.vpc) ==> p.open && !p.home && p.releases == 0)
    && (v.vpc.Releasing? || v.vpc.Ended? ==> p.releases == 1)
    && (v.vpc.Releasing? ==> Serves(s, v.vpc.releaser, v.permit))
  }

  predicate ReleaseOk(s: State, k: TaskId)
    requires k < |s.tasks| && s.tasks[k].Release?
  {
    var c := s.tasks[k].permit;
    && c < |s.permits| && s.permits[c].granted && s.permits[c].releases == 1
    && (!s.tasks[k].rpc.Gone? ==> !s.permits[c].home)
    && (s.tasks[k].rpc.Fresh? || s.tasks[k].rpc.Unlocking? || s.tasks[k].rpc.Closing? ==> s.permits[c].open)
  }

  predicate CloseOk(s: State, i: TaskId)
    requires i < |s.tasks| && s.tasks[i].Close?
  {
    var pc := s.tasks[i].cpc;
    && (pc.DrainingReconciler? || pc.Joining? || pc.Closed? ==>
          s.stopping && forall r :: r in s.active ==> s.active[r] in s.tasks[i].waits)
    && (pc.Closed? ==> forall v :: v in s.tasks[i].waits ==> Finished(s, v))
  }

  predicate TaskOk(s: State, i: TaskId)
    requires i < |s.tasks|
  {
    match s.tasks[i]
    case Start(_, _) => StartOk(s, i)
    case Supervise(_, _, _, _, _, _) => SuperviseOk(s, i)
    case Release(_, _) => ReleaseOk(s, i)
    case Close(_, _) => CloseOk(s, i)
  }

  predicate TasksOk(s: State) {
    forall i :: 0 <= i < |s.tasks| ==> TaskOk(s, i)
  }

  predicate LockOk(s: State) {
    && (s.lock.Some? ==> s.lock.value < |s.tasks| && s.tasks[s.lock.value].Start? && InLock(s.tasks[s.lock.value].spc))
    && (s.stopping ==> s.lock.None? && !s.isOpen)
  }

  predicate ActiveOk(s: State) {
    && (forall r :: r in s.active ==>
          s.active[r] < |s.tasks| && s.tasks[s.active[r]].Supervise? && s.tasks[s.active[r]].run == r
          && !s.tasks[s.active[r]].vpc.Ended?)
    && (forall r, q :: r in s.active && q in s.active ==> r == q)
  }

  predicate OneReleaseEach(s: State) {
    forall j, k :: 0 <= j < k < |s.tasks| && s.tasks[j].Release? && s.tasks[k].Release? ==> s.tasks[j].permit != s.tasks[k].permit
  }

  /** A task answerable for a granted permit that nobody has begun to release. */
  predicate Carries(task: Task, c: CheckoutId) {
    || (task.Start? && task.spc == AtAcquire(c))
    || (task.Supervise? && task.permit == c && Unreleased(task.vpc))
  }

  predicate Carried(s: State, c: CheckoutId) {
    exists i :: 0 <= i < |s.tasks| && Carries(s.tasks[i], c)
  }

  predicate Served(s: State, c: CheckoutId) {
    exists k :: 0 <= k < |s.tasks| && s.tasks[k].Release? && s.tasks[k].permit == c
  }

  predicate PermitsOk(s: State) {
    forall c :: 0 <= c < |s.permits| ==>
      && s.permits[c].releases <= 1
      && (s.permits[c].granted && s.permits[c].releases == 0 ==> Carried(s, c))
      && (s.permits[c].releases == 1 ==> s.permits[c].granted && Served(s, c))
  }

  predicate FinalOk(s: State, f: Final) {
    && f.supervisor < |s.tasks| && s.tasks[f.supervisor].Supervise?
    && s.tasks[f.supervisor].reason == f.reason && !LeavesRow(f.reason)
    && var pc := s.tasks[f.supervisor].vpc; pc.Finalizing? || pc.Releasing? || pc.Ended?
  }

  predicate FinalsOk(s: State) {
    && (forall n :: 0 <= n < |s.finals| ==> FinalOk(s, s.finals[n]))
    && (forall m, n :: 0 <= m < n < |s.finals| ==> s.finals[m].supervisor != s.finals[n].supervisor)
  }

  predicate Inv(s: State) {
    TasksOk(s) && LockOk(s) && ActiveOk(s) && OneReleaseEach(s) && PermitsOk(s) && FinalsOk(s)
  }

  // ---------------------------------------------------------------- frames

  /** Only task `t` changes, and perhaps one task is added. */
  predicate OneTask(s: State, s': State, t: TaskId) {
    && t < |s.tasks| <= |s'.tasks| <= |s.tasks| + 1
    && (forall i :: 0 <= i < |s.tasks| && i != t ==> s'.tasks[i] == s.tasks[i])
  }

  /** Only checkout `c` changes, and perhaps a fresh one is added. */
  predicate OnePermit(s: State, s': State, c: CheckoutId) {
    && |s.permits| <= |s'.permits|
    && (forall d :: 0 <= d < |s.permits| && d != c ==> s'.permits[d] == s.permits[d])
    && (forall d :: |s.permits| <= d < |s'.permits| ==> s'.permits[d] == Checkout(false, true, false, false, 0))
  }

  /** Tasks and checkouts that are not touched keep their carriers and releasers. */
  lemma PermitsKept(s: State, s': State, t: TaskId, c: CheckoutId)
    requires PermitsOk(s) && OneTask(s, s', t) && OnePermit(s, s', c)
    requires forall d :: 0 <= d < |s.permits| && d != c ==> (Carries(s.tasks[t], d) ==> Carries(s'.tasks[t], d))
    requires s.tasks[t].Release? ==> s'.tasks[t].Release? && s'.tasks[t].permit == s.tasks[t].permit
    requires c < |s.permits| ==> s'.permits[c].releases <= 1
    requires c < |s.permits| && s'.permits[c].granted && s'.permits[c].releases == 0 ==> Carried(s', c)
    requires c < |s.permits| && s'.permits[c].releases == 1 ==> s'.permits[c].granted && Served(s', c)
    ensures PermitsOk(s')
  {
    forall d | 0 <= d < |s'.permits|
      ensures s'.permits[d].releases <= 1
      ensures s'.permits[d].granted && s'.permits[d].releases == 0 ==> Carried(s', d)
      ensures s'.permits[d].releases == 1 ==> s'.permits[d].granted && Served(s', d)
    {
      if d < |s.permits| && d != c {
        if s.permits[d].granted && s.permits[d].releases == 0 { CarriedKept(s, s', t, d); }
        if s.permits[d].releases == 1 { ServedKept(s, s', t, d); }
      }
    }
  }

  lemma CarriedKept(s: State, s': State, t: TaskId, d: CheckoutId)
    requires Carried(s, d) && OneTask(s, s', t) && (Carries(s.tasks[t], d) ==> Carries(s'.tasks[t], d))
    ensures Carried(s', d)
  {
    hide Carries;
    var i :| 0 <= i < |s.tasks| && Carries(s.tasks[i], d);
    assert Carries(s'.tasks[i], d);
  }

  lemma ServedKept(s: State, s': State, t: TaskId, d: CheckoutId)
    requires Served(s, d) && OneTask(s, s', t)
    requires s.tasks[t].Release? ==> s'.tasks[t].Release? && s'.tasks[t].permit == s.tasks[t].permit
    ensures Served(s', d)
  {
    var k :| 0 <= k < |s.tasks| && s.tasks[k].Release? && s.tasks[k].permit == d;
    assert s'.tasks[k].Release? && s'.tasks[k].permit == d;
  }

  lemma ReleasesKept(s: State, s': State, t: TaskId)
    requires OneReleaseEach(s) && OneTask(s, s', t)
    requires s'.tasks[t].Release? ==> s.tasks[t].Release? && s'.tasks[t].permit == s.tasks[t].permit
    requires |s'.tasks| > |s.tasks| && s'.tasks[|s.tasks|].Release? ==>
               !Served(s, s'.tasks[|s.tasks|].permit)
    ensures OneReleaseEach(s')
  {
  }

  /** A supervisor that has written an outcome keeps its reason, and supervisors only move on. */
  lemma FinalsKept(s: State, s': State, t: TaskId)
    requires FinalsOk(s) && OneTask(s, s', t) && s'.finals == s.finals
    requires s.tasks[t].Supervise? && (s.tasks[t].vpc.Finalizing? || s.tasks[t].vpc.Releasing? || s.tasks[t].vpc.Ended?) ==>
               && s'.tasks[t].Supervise? && s'.tasks[t].reason == s.tasks[t].reason
               && (s'.tasks[t].vpc.Finalizing? || s'.tasks[t].vpc.Releasing? || s'.tasks[t].vpc.Ended?)
    ensures FinalsOk(s')
  {
    forall n | 0 <= n < |s'.finals| ensures FinalOk(s', s'.finals[n]) { assert FinalOk(s, s.finals[n]); }
  }

  // ---------------------------------------------------------------- start

  /** A start that holds the lock moves on, touching at most the checkout it holds. */
  predicate StartMove(s: State, s': State, t: TaskId) {
    && t < |s.tasks| && s.tasks[t].Start? && s.lock == Some(t) && |s'.tasks| == |s.tasks|
    && OneTask(s, s', t) && s'.tasks[t].Start? && s'.tasks[t].run == s.tasks[t].run
    && s' == s.(tasks := s'.tasks, permits := s'.permits, lock := s'.lock)
    && s'.lock == (if s'.tasks[t].spc.Answered? then None else Some(t))
    && InLock(s.tasks[t].spc) && !s'.tasks[t].spc.AtLock?
  }

  predicate OwnCheckout(s: State, s': State, t: TaskId)
    requires StartMove(s, s', t)
  {
    var pc := s.tasks[t].spc;
    if HasCheckout(pc) && !pc.AtRelease? && pc.c < |s.permits| then
      OnePermit(s, s', pc.c) && |s'.permits| == |s.permits| && s'.permits[pc.c].releases == 0
    else OnePermit(s, s', |s.permits|)
  }

  lemma StartMoveKeepsTasks(s: State, s': State, t: TaskId)
    requires Inv(s) && StartMove(s, s', t) && OwnCheckout(s, s', t) && StartOk(s', t)
    ensures TasksOk(s')
  {
    hide PermitsOk, FinalsOk, OneReleaseEach, AllOver, AllAsked, LeavesRow;
    assert TaskOk(s, t);
    forall i | 0 <= i < |s'.tasks| ensures TaskOk(s', i) { assert TaskOk(s, i); }
  }

  lemma StartMoveKeepsInv(s: State, s': State, t: TaskId)
    requires Inv(s) && StartMove(s, s', t) && OwnCheckout(s, s', t) && StartOk(s', t) && PermitsOk(s')
    ensures Inv(s')
  {
    StartMoveKeepsTasks(s, s', t);
    hide TasksOk, PermitsOk;
    ReleasesKept(s, s', t);
    FinalsKept(s, s', t);
  }

  lemma StartAtLockKeepsInv(s: State, t: TaskId, e: Event)
    requires Inv(s) && t < |s.tasks| && s.tasks[t].Start? && s.tasks[t].spc.AtLock?
    ensures Inv(StartStep(s, t, e))
  {
    var s' := StartStep(s, t, e);
    assert OneTask(s, s', t) && OnePermit(s, s', |s.permits|) && s'.finals == s.finals && |s'.tasks| == |s.tasks|;
    assert s'.active == s.active && s'.permits == s.permits && s'.stopping == s.stopping && s'.isOpen == s.isOpen;
    assert s'.tasks[t].Start? && (InLock(s'.tasks[t].spc) ==> s'.tasks[t].spc.AtState? && s'.lock == Some(t));
    assert s'.lock == s.lock || (s.lock.None? && s'.lock == Some(t) && s.isOpen && !s.stopping && InLock(s'.tasks[t].spc));
    hide StartStep;
    StartAtLockKeepsTasks(s, s', t);
    assert LockOk(s');
    hide TasksOk, PermitsOk, FinalsOk, OneReleaseEach, LockOk;
    ReleasesKept(s, s', t);
    FinalsKept(s, s', t);
    PermitsKept(s, s', t, |s.permits|);
  }

  lemma StartAtLockKeepsTasks(s: State, s': State, t: TaskId)
    requires Inv(s) && OneTask(s, s', t) && s.tasks[t].Start? && !InLock(s.tasks[t].spc) && |s'.tasks| == |s.tasks|
    requires s'.active == s.active && s'.permits == s.permits && s'.stopping == s.stopping
    requires s'.tasks[t].Start? && (InLock(s'.tasks[t].spc) ==> s'.tasks[t].spc.AtState? && s'.lock == Some(t))
    requires s'.lock == s.lock || s.lock.None?
    ensures TasksOk(s')
  {
    hide PermitsOk, FinalsOk, OneReleaseEach, AllOver, AllAsked, LeavesRow;
    forall i | 0 <= i < |s'.tasks| ensures TaskOk(s', i) { assert TaskOk(s, i); }
  }

  /** What a step of `start` inside the lock is: a move that touches its own checkout only. */
  predicate StartMoved(s: State, s': State, t: TaskId) {
    StartMove(s, s', t) && OwnCheckout(s, s', t) && StartOk(s', t)
  }

  lemma StartReads(s: State, t: TaskId, e: Event)
    requires t < |s.tasks| && s.tasks[t].Start? && StartOk(s, t) && s.tasks[t].spc.AtState?
    ensures StartStep(s, t, e) == s || StartMoved(s, StartStep(s, t, e), t)
  {
    hide Serves, SetPermit, Spawn, HandOver, ReleaserGone;
  }

  lemma StartChecksOut(s: State, t: TaskId, e: Event)
    requires t < |s.tasks| && s.tasks[t].Start? && StartOk(s, t) && s.tasks[t].spc.AtSession?
    ensures StartStep(s, t, e) == s || StartMoved(s, StartStep(s, t, e), t)
  {
    hide Serves, SetPermit, Spawn, HandOver, ReleaserGone;
  }

  lemma StartTries(s: State, t: TaskId, e: Event)
    requires t < |s.tasks| && s.tasks[t].Start? && StartOk(s, t) && (s.tasks[t].spc.AtTry? || s.tasks[t].spc.AtPutBack?)
    ensures StartStep(s, t, e) == s || StartMoved(s, StartStep(s, t, e), t)
  {
    hide Serves;
  }

  lemma StartCleansUp(s: State, t: TaskId, e: Event)
    requires t < |s.tasks| && s.tasks[t].Start? && StartOk(s, t) && (s.tasks[t].spc.AtClose? || s.tasks[t].spc.AtReturn?)
    ensures StartStep(s, t, e) == s || StartMoved(s, StartStep(s, t, e), t)
  {
    hide Serves;
  }

  lemma StartAwaitsRelease(s: State, t: TaskId, e: Event)
    requires t < |s.tasks| && s.tasks[t].Start? && StartOk(s, t) && s.tasks[t].spc.AtRelease?
    ensures StartStep(s, t, e) == s || StartMoved(s, StartStep(s, t, e), t)
  {
  }

  lemma StartMoves(s: State, t: TaskId, e: Event)
    requires t < |s.tasks| && s.tasks[t].Start? && StartOk(s, t) && InLock(s.tasks[t].spc) && !s.tasks[t].spc.AtAcquire?
    ensures StartStep(s, t, e) == s || StartMoved(s, StartStep(s, t, e), t)
  {
    hide StartStep, StartMoved, StartOk;
    match s.tasks[t].spc
    case AtState => StartReads(s, t, e);
    case AtSession => StartChecksOut(s, t, e);
    case AtTry(_) => StartTries(s, t, e);
    case AtPutBack(_) => StartTries(s, t, e);
    case AtClose(_) => StartCleansUp(s, t, e);
    case AtReturn(_) => StartCleansUp(s, t, e);
    case AtRelease(_, _, _) => StartAwaitsRelease(s, t, e);
  }

  lemma StartMovesCarry(s: State, t: TaskId, e: Event, c: CheckoutId)
    requires t < |s.tasks| && s.tasks[t].Start? && StartOk(s, t)
    requires HasCheckout(s.tasks[t].spc) && !s.tasks[t].spc.AtAcquire? && !s.tasks[t].spc.AtRelease? && c == s.tasks[t].spc.c
    ensures var s' := StartStep(s, t, e);
            c < |s'.permits| && s'.permits[c].releases == 0 && (s'.permits[c].granted ==> Carried(s', c))
  {
    var s' := StartStep(s, t, e);
    if s'.permits[c].granted { assert Carries(s'.tasks[t], c); }
  }

  /** The steps of `start` between taking the lock and its last `await`. */
  lemma StartInLockKeepsInv(s: State, t: TaskId, e: Event)
    requires Inv(s) && t < |s.tasks| && s.tasks[t].Start? && InLock(s.tasks[t].spc)
    requires !s.tasks[t].spc.AtAcquire?
    ensures Inv(StartStep(s, t, e))
  {
    var s' := StartStep(s, t, e);
    assert TaskOk(s, t);
    if s' != s {
      StartMoves(s, t, e);
      var pc := s.tasks[t].spc;
      var c := if HasCheckout(pc) && !pc.AtRelease? then pc.c else |s.permits|;
      if c < |s.permits| { StartMovesCarry(s, t, e, c); }
      hide StartStep, TasksOk, FinalsOk, OneReleaseEach, LockOk, ActiveOk;
      PermitsKept(s, s', t, c);
      StartMoveKeepsInv(s, s', t);
    }
  }

  // ---------------------------------------------------------------- _release begins

  /** The carrier of an unreleased permit begins its release: a new task serves the permit, and the carrier waits for it. */
  predicate Spawns(s: State, s': State, t: TaskId, c: CheckoutId) {
    && t < |s.tasks| && c < |s.permits| && Carries(s.tasks[t], c) && OneTask(s, s', t) && s.permits[c].releases == 0
    && !s'.tasks[t].Release? && (s.tasks[t].Supervise? ==> !s.tasks[t].vpc.Abandoned?)
    && |s'.tasks| == |s.tasks| + 1 && s'.tasks[|s.tasks|] == Release(c, Fresh)
    && s' == s.(tasks := s'.tasks, permits := s.permits[c := s.permits[c].(releases := s.permits[c].releases + 1)],
                finals := s'.finals)
  }

  lemma SpawnKeepsPermits(s: State, s': State, t: TaskId, c: CheckoutId)
    requires Inv(s) && Spawns(s, s', t, c) && s.permits[c].granted
    ensures PermitsOk(s') && OneReleaseEach(s')
  {
    hide LockOk, ActiveOk, FinalsOk, StartOk, SuperviseOk, CloseOk;
    assert OnePermit(s, s', c);
    assert s'.tasks[|s.tasks|].Release? && s'.tasks[|s.tasks|].permit == c;
    assert Served(s', c);
    PermitsKept(s, s', t, c);
    forall k | 0 <= k < |s.tasks| && s.tasks[k].Release? ensures s.tasks[k].permit != c { assert TaskOk(s, k); }
    ReleasesKept(s, s', t);
  }

  lemma SpawnKeepsTasks(s: State, s': State, t: TaskId, c: CheckoutId)
    requires Inv(s) && Spawns(s, s', t, c) && TaskOk(s', t)
    ensures TasksOk(s')
  {
    hide PermitsOk, FinalsOk, OneReleaseEach, AllOver, AllAsked, LeavesRow;
    assert TaskOk(s, t);
    forall i | 0 <= i < |s'.tasks| ensures TaskOk(s', i) {
      if i < |s.tasks| { assert TaskOk(s, i); }
    }
  }

  lemma StartReleaseKeepsInv(s: State, t: TaskId, pending: Answer)
    requires Inv(s) && t < |s.tasks| && s.tasks[t].Start? && s.tasks[t].spc.AtAcquire? && s.tasks[t].spc.c < |s.permits|
    ensures Inv(StartRelease(s, t, s.tasks[t].spc.c, pending))
  {
    var c := s.tasks[t].spc.c;
    var s' := StartRelease(s, t, c, pending);
    assert TaskOk(s, t);
    assert Spawns(s, s', t, c);
    assert Serves(s', |s.tasks|, c);
    assert TaskOk(s', t);
    SpawnKeepsPermits(s, s', t, c);
    SpawnKeepsTasks(s, s', t, c);
    hide TasksOk, PermitsOk, OneReleaseEach;
    FinalsKept(s, s', t);
  }

  /** The run is in `_active` before anybody else gets the lock. */
  lemma HandOverKeepsInv(s: State, t: TaskId, matching: bool)
    requires Inv(s) && t < |s.tasks| && s.tasks[t].Start? && s.tasks[t].spc.AtAcquire? && s.tasks[t].spc.c < |s.permits|
    ensures Inv(HandOver(s, t, s.tasks[t].spc.c, matching))
  {
    var c := s.tasks[t].spc.c;
    var s' := HandOver(s, t, c, matching);
    assert TaskOk(s, t);
    assert OneTask(s, s', t) && OnePermit(s, s', c);
    assert Carries(s'.tasks[|s.tasks|], c);
    PermitsKept(s, s', t, c);
    ReleasesKept(s, s', t);
    FinalsKept(s, s', t);
    hide PermitsOk, FinalsOk, OneReleaseEach, LeavesRow;
    forall i | 0 <= i < |s'.tasks| ensures TaskOk(s', i) {
      if i < |s.tasks| { assert TaskOk(s, i); }
    }
  }

  lemma StartKeepsInv(s: State, t: TaskId, e: Event)
    requires Inv(s) && t < |s.tasks| && s.tasks[t].Start?
    ensures Inv(StartStep(s, t, e))
  {
    var pc := s.tasks[t].spc;
    if pc.AtLock? {
      StartAtLockKeepsInv(s, t, e);
    } else if pc.AtAcquire? {
      hide Inv;
      if pc.c < |s.permits| {
        if e.Outcome? && e.acquisition.Acquired? {
          HandOverKeepsInv(s, t, e.acquisition.matching);
        } else if e.Outcome? || Broken(e) {
          StartReleaseKeepsInv(s, t, if e.Outcome? && e.acquisition.FoundTerminal? then AlreadyTerminal
                                     else if e.Outcome? && e.acquisition.FoundRunning? then AlreadyRunning else Raised);
        }
      }
    } else if InLock(pc) {
      StartInLockKeepsInv(s, t, e);
    }
  }

  // ---------------------------------------------------------------- _supervise

  /** A supervisor moves on, and no permit, lock or entry changes. */
  predicate SuperviseMove(s: State, s': State, t: TaskId) {
    && t < |s.tasks| && s.tasks[t].Supervise? && |s'.tasks| == |s.tasks| && OneTask(s, s', t)
    && s'.tasks[t].Supervise? && s'.tasks[t].run == s.tasks[t].run && s'.tasks[t].permit == s.tasks[t].permit
    && s' == s.(tasks := s'.tasks, finals := s'.finals)
    && !s.tasks[t].vpc.Ended? && !s'.tasks[t].vpc.Ended?
    && (Unreleased(s.tasks[t].vpc) ==> Unreleased(s'.tasks[t].vpc))
    && (s.tasks[t].vpc.Abandoned? ==> s'.tasks[t].vpc.Abandoned?)
  }

  lemma SuperviseMoveKeepsTasks(s: State, s': State, t: TaskId)
    requires Inv(s) && SuperviseMove(s, s', t) && SuperviseOk(s', t)
    ensures TasksOk(s')
  {
    hide PermitsOk, FinalsOk, OneReleaseEach, AllOver, AllAsked, LeavesRow;
    assert TaskOk(s, t);
    forall i | 0 <= i < |s'.tasks| ensures TaskOk(s', i) { assert TaskOk(s, i); }
  }

  lemma SuperviseMoveKeepsInv(s: State, s': State, t: TaskId)
    requires Inv(s) && SuperviseMove(s, s', t) && SuperviseOk(s', t) && FinalsOk(s')
    ensures Inv(s')
  {
    SuperviseMoveKeepsTasks(s, s', t);
    hide TasksOk, PermitsOk, FinalsOk, SuperviseOk;
    assert OnePermit(s, s', |s.permits|);
    PermitsKept(s, s', t, |s.permits|);
    ReleasesKept(s, s', t);
  }

  lemma AskedStaysOver(cs: seq<Child>)
    requires |cs| == 3
    ensures AllAsked([CancelBusy(cs[0]), CancelBusy(cs[1]), CancelBusy(cs[2])])
  {
  }

  lemma DrainKeepsInv(s: State, t: TaskId, reason: Code)
    requires Inv(s) && t < |s.tasks| && s.tasks[t].Supervise? && s.tasks[t].vpc.Waiting? && |s.tasks[t].children| == 3
    ensures Inv(Drain(s, t, reason))
  {
    var s' := Drain(s, t, reason);
    assert TaskOk(s, t);
    AskedStaysOver(s.tasks[t].children);
    assert SuperviseMove(s, s', t) && SuperviseOk(s', t);
    hide TasksOk, PermitsOk, OneReleaseEach, LockOk, ActiveOk;
    FinalsKept(s, s', t);
    SuperviseMoveKeepsInv(s, s', t);
  }

  /** A move of the program counter, or of the children, that stays before the release. */
  lemma SuperviseMovesKeepInv(s: State, s': State, t: TaskId)
    requires Inv(s) && SuperviseMove(s, s', t) && SuperviseOk(s', t) && s'.finals == s.finals
    requires s'.tasks[t].vpc.Finalizing? == s.tasks[t].vpc.Finalizing? && s'.tasks[t].vpc.Releasing? == s.tasks[t].vpc.Releasing?
    requires s'.tasks[t].reason == s.tasks[t].reason
    ensures Inv(s')
  {
    hide TasksOk, PermitsOk, OneReleaseEach, LockOk, ActiveOk, SuperviseOk;
    FinalsKept(s, s', t);
    SuperviseMoveKeepsInv(s, s', t);
  }

  lemma FinalizingKeepsInv(s: State, t: TaskId, reason: Code)
    requires Inv(s) && t < |s.tasks| && s.tasks[t].Supervise? && s.tasks[t].permit < |s.permits|
    requires (s.tasks[t].vpc.New? || s.tasks[t].vpc.Draining?) && AllOver(s.tasks[t].children) && !LeavesRow(reason)
    ensures Inv(AfterDrain(s, t, reason))
  {
    var s' := AfterDrain(s, t, reason);
    assert TaskOk(s, t);
    assert SuperviseMove(s, s', t) && SuperviseOk(s', t);
    hide TasksOk, PermitsOk, OneReleaseEach, LockOk, ActiveOk, SuperviseOk, LeavesRow;
    forall n | 0 <= n < |s'.finals| ensures FinalOk(s', s'.finals[n]) {
      if n < |s.finals| { assert FinalOk(s, s.finals[n]); }
    }
    forall n | 0 <= n < |s.finals| ensures s.finals[n].supervisor != t { assert FinalOk(s, s.finals[n]); }
    SuperviseMoveKeepsInv(s, s', t);
  }

  /** The supervisor begins the release, whatever became of the outcome, once no child is running. */
  lemma SuperviseReleaseKeepsInv(s: State, s1: State, t: TaskId, reason: Code)
    requires Inv(s) && t < |s.tasks| && s.tasks[t].Supervise? && s.tasks[t].permit < |s.permits|
    requires s.tasks[t].vpc.New? || s.tasks[t].vpc.Draining? || s.tasks[t].vpc.Finalizing?
    requires AllOver(s.tasks[t].children)
    requires s1 == s || (!s.tasks[t].vpc.Finalizing? && s1 == SetTask(s, t, s.tasks[t].(reason := reason, vpc := Finalizing)))
    ensures Inv(SuperviseRelease(s1, t))
  {
    var c := s.tasks[t].permit;
    var s' := SuperviseRelease(s1, t);
    assert TaskOk(s, t);
    assert Spawns(s, s', t, c) && Serves(s', |s.tasks|, c);
    assert TaskOk(s', t);
    SpawnKeepsPermits(s, s', t, c);
    SpawnKeepsTasks(s, s', t, c);
    hide TasksOk, PermitsOk, OneReleaseEach;
    FinalsKept(s, s', t);
  }

  lemma AfterDrainKeepsInv(s: State, t: TaskId, reason: Code)
    requires Inv(s) && t < |s.tasks| && s.tasks[t].Supervise? && s.tasks[t].permit < |s.permits|
    requires (s.tasks[t].vpc.New? || s.tasks[t].vpc.Draining?) && AllOver(s.tasks[t].children)
    ensures Inv(AfterDrain(s, t, reason))
  {
    hide Inv, AllOver, Spawn;
    if LeavesRow(reason) {
      SuperviseReleaseKeepsInv(s, SetTask(s, t, s.tasks[t].(reason := reason, vpc := Finalizing)), t, reason);
    } else {
      FinalizingKeepsInv(s, t, reason);
    }
  }

  /** The entry leaves `_active` only after the release has ended. */
  lemma EndKeepsInv(s: State, t: TaskId)
    requires Inv(s) && t < |s.tasks| && s.tasks[t].Supervise? && s.tasks[t].vpc.Releasing?
    ensures Inv(SetTask(s, t, s.tasks[t].(vpc := Ended)).(active := s.active - {s.tasks[t].run}))
  {
    var s' := SetTask(s, t, s.tasks[t].(vpc := Ended)).(active := s.active - {s.tasks[t].run});
    assert TaskOk(s, t);
    assert OneTask(s, s', t) && OnePermit(s, s', |s.permits|);
    PermitsKept(s, s', t, |s.permits|);
    ReleasesKept(s, s', t);
    FinalsKept(s, s', t);
    hide PermitsOk, FinalsOk, OneReleaseEach, AllOver, AllAsked, LeavesRow;
    forall i | 0 <= i < |s'.tasks| ensures TaskOk(s', i) { assert TaskOk(s, i); }
  }

  lemma FirstStepKeepsInv(s: State, t: TaskId, e: Event)
    requires Inv(s) && t < |s.tasks| && s.tasks[t].Supervise? && s.tasks[t].vpc.New? && s.tasks[t].permit < |s.permits|
    ensures Inv(FirstStep(s, t, e))
  {
    var s' := FirstStep(s, t, e);
    var v := s.tasks[t];
    assert TaskOk(s, t);
    if e.Cancelled? || (e.Begin? && !s.stopping && v.matching && e.inTime) {
      assert SuperviseMove(s, s', t) && SuperviseOk(s', t);
      hide FirstStep, SuperviseOk, TasksOk;
      SuperviseMovesKeepInv(s, s', t);
    } else if e.Begin? {
      hide Inv, AfterDrain;
      AfterDrainKeepsInv(s, t, if s.stopping then Shutdown else if v.matching then DeadlineExceeded else InternalError);
    } else if e.Failed? && !s.stopping && v.matching {
      hide Inv, AfterDrain;
      AfterDrainKeepsInv(s, t, SafeCode(e.code));
    }
  }

  lemma SuperviseKeepsInv(s: State, t: TaskId, e: Event)
    requires Inv(s) && t < |s.tasks| && s.tasks[t].Supervise?
    ensures Inv(SuperviseStep(s, t, e))
  {
    var v := s.tasks[t];
    assert TaskOk(s, t);
    var s' := SuperviseStep(s, t, e);
    if s' != s {
      if v.vpc.Releasing? && !e.Cancelled? {
        hide Inv, ReleaserGone;
        EndKeepsInv(s, t);
      } else if v.vpc.Releasing? || (v.vpc.Draining? && e.Cancelled?) {
        assert SuperviseMove(s, s', t) && SuperviseOk(s', t);
        hide SuperviseStep, SuperviseOk, TasksOk;
        SuperviseMovesKeepInv(s, s', t);
      } else if v.vpc.New? {
        hide Inv, FirstStep;
        FirstStepKeepsInv(s, t, e);
      } else if v.vpc.Waiting? {
        hide Inv, Decide, Drain;
        DrainKeepsInv(s, t, if e.Cancelled? && !e.Expired? then Shutdown else Decide(s.stopping, v.children));
      } else if v.vpc.Finalizing? || v.vpc == Draining(true) {
        hide Inv, Spawn;
        SuperviseReleaseKeepsInv(s, s, t, v.reason);
      } else {
        hide Inv, AfterDrain;
        AfterDrainKeepsInv(s, t, v.reason);
      }
    }
  }

  /** A child that is still running starts or ends a check, or ends. */
  lemma ChildrenKeepInv(s: State, a: Action)
    requires Inv(s) && (a.Check? || a.Finish?)
    ensures Inv(Next(s, a))
  {
    var s' := Next(s, a);
    if s' != s {
      var t := a.t;
      assert TaskOk(s, t);
      assert SuperviseMove(s, s', t);
      assert AllAsked(s.tasks[t].children) ==> AllAsked(s'.tasks[t].children);
      assert AllOver(s.tasks[t].children) ==> false;
      assert SuperviseOk(s', t);
      hide SuperviseOk, TasksOk, CheckStep, FinishStep;
      SuperviseMovesKeepInv(s, s', t);
    }
  }

  // ---------------------------------------------------------------- release, aclose, environment

  /** A release moves on and changes nothing but the checkout it serves, whose release stays counted. */
  predicate ReleaseMove(s: State, s': State, t: TaskId, c: CheckoutId) {
    && t < |s.tasks| == |s'.tasks| && c < |s.permits| == |s'.permits|
    && s' == s.(tasks := s.tasks[t := s'.tasks[t]], permits := s.permits[c := s'.permits[c]])
    && s'.tasks[t].Release? && s'.tasks[t].permit == c
    && s'.permits[c].granted == s.permits[c].granted && s'.permits[c].releases == s.permits[c].releases
  }

  lemma ReleaseMoves(s: State, t: TaskId, e: Event)
    requires t < |s.tasks| && s.tasks[t].Release? && ReleaseOk(s, t)
    ensures ReleaseMove(s, ReleaseStep(s, t, e), t, s.tasks[t].permit)
    ensures ReleaseOk(ReleaseStep(s, t, e), t)
  {
    var c := s.tasks[t].permit;
    var p := s.permits[c];
    assert s.tasks[t := s.tasks[t]] == s.tasks && s.permits[c := p] == s.permits;
    match s.tasks[t].rpc
    case Fresh =>
    case Unlocking =>
    case Closing =>
    case Putting =>
    case Gone =>
  }

  lemma ReleaseKeepsInv(s: State, t: TaskId, e: Event)
    requires Inv(s) && t < |s.tasks| && s.tasks[t].Release?
    ensures Inv(ReleaseStep(s, t, e))
  {
    var s' := ReleaseStep(s, t, e);
    var c := s.tasks[t].permit;
    assert TaskOk(s, t);
    ReleaseMoves(s, t, e);
    hide ReleaseStep, ReleaseOk;
    assert OneTask(s, s', t) && OnePermit(s, s', c);
    ReleaseKeepsTasks(s, s', t, c);
    hide TasksOk, FinalsOk, OneReleaseEach;
    assert Served(s', c) by { assert s'.tasks[t].Release? && s'.tasks[t].permit == c; }
    PermitsKept(s, s', t, c);
    ReleasesKept(s, s', t);
    FinalsKept(s, s', t);
  }

  lemma ReleaseKeepsTasks(s: State, s': State, t: TaskId, c: CheckoutId)
    requires Inv(s) && t < |s.tasks| && s.tasks[t].Release? && c == s.tasks[t].permit
    requires OneTask(s, s', t) && OnePermit(s, s', c) && ReleaseMove(s, s', t, c) && ReleaseOk(s', t)
    ensures TasksOk(s')
  {
    hide PermitsOk, FinalsOk, AllOver, AllAsked, LeavesRow;
    assert TaskOk(s, t);
    forall i | 0 <= i < |s'.tasks| ensures TaskOk(s', i) { assert TaskOk(s, i); }
  }

  lemma CloseKeepsTasks(s: State, s': State, t: TaskId)
    requires Inv(s) && OneTask(s, s', t) && s.tasks[t].Close? && |s'.tasks| == |s.tasks|
    requires s' == s.(tasks := s'.tasks, stopping := s'.stopping, isOpen := s'.isOpen)
    requires (s.stopping ==> s'.stopping) && s'.tasks[t].Close? && CloseOk(s', t)
    ensures TasksOk(s')
  {
    hide PermitsOk, FinalsOk, OneReleaseEach, AllOver, AllAsked, LeavesRow;
    forall i | 0 <= i < |s'.tasks| ensures TaskOk(s', i) { assert TaskOk(s, i); }
  }

  lemma CloseKeepsInv(s: State, t: TaskId, e: Event)
    requires Inv(s) && t < |s.tasks| && s.tasks[t].Close?
    ensures Inv(CloseStep(s, t, e))
  {
    var s' := CloseStep(s, t, e);
    assert TaskOk(s, t);
    assert OneTask(s, s', t) && OnePermit(s, s', |s.permits|) && s'.tasks[t].Close?;
    assert s' == s.(tasks := s'.tasks, stopping := s'.stopping, isOpen := s'.isOpen) && |s'.tasks| == |s.tasks|;
    assert CloseOk(s', t);
    assert LockOk(s');
    hide CloseStep, CloseOk;
    CloseKeepsTasks(s, s', t);
    hide TasksOk, LockOk, PermitsOk, FinalsOk, OneReleaseEach;
    PermitsKept(s, s', t, |s.permits|);
    ReleasesKept(s, s', t);
    FinalsKept(s, s', t);
  }

  /** A call of `start` or `aclose` is a new task outside the lock. */
  lemma CallKeepsInv(s: State, task: Task)
    requires Inv(s) && (task.Start? || task.Close?)
    requires task.Start? ==> task.spc.AtLock?
    requires task.Close? ==> task.cpc.AtGate?
    ensures Inv(s.(tasks := s.tasks + [task]))
  {
    var s' := s.(tasks := s.tasks + [task]);
    forall c | 0 <= c < |s'.permits|
      ensures s.permits[c].granted && s.permits[c].releases == 0 ==> Carried(s', c)
      ensures s.permits[c].releases == 1 ==> Served(s', c)
    {
      if s.permits[c].granted && s.permits[c].releases == 0 {
        var i :| 0 <= i < |s.tasks| && Carries(s.tasks[i], c);
        assert Carries(s'.tasks[i], c);
      }
      if s.permits[c].releases == 1 {
        var k :| 0 <= k < |s.tasks| && s.tasks[k].Release? && s.tasks[k].permit == c;
        assert s'.tasks[k].Release? && s'.tasks[k].permit == c;
      }
    }
    forall n | 0 <= n < |s'.finals| ensures FinalOk(s', s'.finals[n]) { assert FinalOk(s, s.finals[n]); }
    hide PermitsOk, FinalsOk, AllOver, AllAsked, LeavesRow;
    forall i | 0 <= i < |s'.tasks| ensures TaskOk(s', i) {
      if i < |s.tasks| { assert TaskOk(s, i); }
    }
  }

  lemma OpenKeepsInv(s: State)
    requires Inv(s)
    ensures Inv(Next(s, Open))
  {
    var s' := Next(s, Open);
    assert s' == s.(isOpen := s'.isOpen);
    SameTasksKeepInv(s, s');
  }

  /** The server drops a session: the permit's lock is gone, and no task knows. */
  lemma LoseKeepsInv(s: State, c: CheckoutId)
    requires Inv(s)
    ensures Inv(Next(s, Lose(c)))
  {
    var s' := Next(s, Lose(c));
    assert s' == s.(permits := s'.permits) && |s'.permits| == |s.permits|;
    SameTasksKeepInv(s, s');
  }

  lemma SameTasksKeepInv(s: State, s': State)
    requires Inv(s) && s' == s.(isOpen := s'.isOpen, permits := s'.permits) && |s'.permits| == |s.permits|
    requires s.stopping ==> s'.isOpen == s.isOpen
    requires forall c :: 0 <= c < |s.permits| ==> s'.permits[c] == s.permits[c] || s'.permits[c] == s.permits[c].(locked := false)
    ensures Inv(s')
  {
    SameTasksKeepRest(s, s');
    hide PermitsOk, FinalsOk, OneReleaseEach, AllOver, AllAsked, LeavesRow;
    forall i | 0 <= i < |s'.tasks| ensures TaskOk(s', i) { assert TaskOk(s, i); }
  }

  lemma SameTasksKeepRest(s: State, s': State)
    requires PermitsOk(s) && FinalsOk(s)
    requires s' == s.(isOpen := s'.isOpen, permits := s'.permits) && |s'.permits| == |s.permits|
    requires forall c :: 0 <= c < |s.permits| ==> s'.permits[c] == s.permits[c] || s'.permits[c] == s.permits[c].(locked := false)
    ensures PermitsOk(s') && FinalsOk(s')
  {
    forall n | 0 <= n < |s'.finals| ensures FinalOk(s', s'.finals[n]) { assert FinalOk(s, s.finals[n]); }
    forall c ensures Carried(s', c) == Carried(s, c) && Served(s', c) == Served(s, c) {}
  }

  lemma NextKeepsInv(s: State, a: Action)
    requires Inv(s)
    ensures Inv(Next(s, a))
  {
    hide Inv, StartStep, SuperviseStep, ReleaseStep, CloseStep, CheckStep, FinishStep;
    match a
    case Open => OpenKeepsInv(s);
    case Lose(c) => LoseKeepsInv(s, c);
    case CallStart(r) => CallKeepsInv(s, Start(r, AtLock));
    case CallClose => CallKeepsInv(s, Close({}, AtGate));
    case Check(_, _) => ChildrenKeepInv(s, a);
    case Finish(_, _, _) => ChildrenKeepInv(s, a);
    case Resume(t, e) =>
      if t < |s.tasks| {
        match s.tasks[t]
        case Start(_, _) => StartKeepsInv(s, t, e);
        case Supervise(_, _, _, _, _, _) => SuperviseKeepsInv(s, t, e);
        case Release(_, _) => ReleaseKeepsInv(s, t, e);
        case Close(_, _) => CloseKeepsInv(s, t, e);
      }
  }

  /** Every continuation, with every interruption, keeps the invariant. */
  lemma {:induction false} ExecKeepsInv(s: State, acts: seq<Action>)
    requires Inv(s)
    ensures Inv(Exec(s, acts))
  {
    if acts != [] {
      hide Next, Inv;
      ExecKeepsInv(s, acts[..|acts| - 1]);
      NextKeepsInv(Exec(s, acts[..|acts| - 1]), acts[|acts| - 1]);
    }
  }

  /** So does every run from the start. */
  lemma RunKeepsInv(acts: seq<Action>)
    ensures Inv(Exec(INIT, acts))
  {
    hide Exec;
    ExecKeepsInv(INIT, acts);
  }

  // ---------------------------------------------------------------- what a step leaves alone

  /** A step of `start` leaves every other task alone and adds none but, at the acquisition, a supervisor or a release. */
  predicate StartFrame(s: State, s': State, t: TaskId, v: TaskId) {
    && t < |s.tasks| <= |s'.tasks| <= |s.tasks| + 1 && s.tasks[t].Start? && s'.tasks[t].Start?
    && s'.stopping == s.stopping && s'.finals == s.finals
    && (!s.tasks[t].spc.AtSession? ==> |s'.permits| == |s.permits|)
    && (v < |s.tasks| && v != t ==> s'.tasks[v] == s.tasks[v])
    && (|s'.tasks| > |s.tasks| ==>
          && s.tasks[t].spc.AtAcquire?
          && (s'.tasks[|s.tasks|].Supervise? || s'.tasks[|s.tasks|] == Release(s.tasks[t].spc.c, Fresh)))
  }

  lemma ReadingFrame(s: State, t: TaskId, e: Event, v: TaskId)
    requires t < |s.tasks| && s.tasks[t].Start?
    requires var pc := s.tasks[t].spc; pc.AtLock? || pc.AtState? || pc.AtSession? || pc.Answered?
    ensures StartFrame(s, StartStep(s, t, e), t, v)
  {
    hide SetPermit, StartRelease, HandOver, ReleaserGone;
  }

  lemma TryingFrame(s: State, t: TaskId, e: Event, v: TaskId)
    requires t < |s.tasks| && s.tasks[t].Start?
    requires var pc := s.tasks[t].spc; pc.AtTry? || pc.AtPutBack?
    ensures StartFrame(s, StartStep(s, t, e), t, v)
  {
    hide StartRelease, HandOver, ReleaserGone;
  }

  lemma CleaningFrame(s: State, t: TaskId, e: Event, v: TaskId)
    requires t < |s.tasks| && s.tasks[t].Start?
    requires var pc := s.tasks[t].spc; pc.AtClose? || pc.AtReturn?
    ensures StartFrame(s, StartStep(s, t, e), t, v)
  {
    hide StartRelease, HandOver, ReleaserGone;
  }

  lemma AcquiringFrame(s: State, t: TaskId, e: Event, v: TaskId)
    requires t < |s.tasks| && s.tasks[t].Start? && s.tasks[t].spc.AtAcquire?
    ensures StartFrame(s, StartStep(s, t, e), t, v)
  {
    hide SetPermit, ReleaserGone;
    var c := s.tasks[t].spc.c;
    if c < |s.permits| && e.Outcome? && e.acquisition.Acquired? {
      assert StartStep(s, t, e) == HandOver(s, t, c, e.acquisition.matching);
    } else if c < |s.permits| && (e.Outcome? || Broken(e)) {
      var pending := if e.Outcome? && e.acquisition.FoundTerminal? then AlreadyTerminal
                     else if e.Outcome? && e.acquisition.FoundRunning? then AlreadyRunning else Raised;
      assert StartStep(s, t, e) == StartRelease(s, t, c, pending);
    }
  }

  lemma AwaitingFrame(s: State, t: TaskId, e: Event, v: TaskId)
    requires t < |s.tasks| && s.tasks[t].Start? && s.tasks[t].spc.AtRelease?
    ensures StartFrame(s, StartStep(s, t, e), t, v)
  {
    hide SetPermit, ReleaserGone, StartRelease, HandOver;
  }

  lemma StartLeaves(s: State, t: TaskId, e: Event, v: TaskId)
    requires t < |s.tasks| && s.tasks[t].Start?
    ensures StartFrame(s, StartStep(s, t, e), t, v)
  {
    hide StartStep, StartFrame;
    match s.tasks[t].spc
    case AtTry(_) => TryingFrame(s, t, e, v);
    case AtPutBack(_) => TryingFrame(s, t, e, v);
    case AtClose(_) => CleaningFrame(s, t, e, v);
    case AtReturn(_) => CleaningFrame(s, t, e, v);
    case AtAcquire(_) => AcquiringFrame(s, t, e, v);
    case AtRelease(_, _, _) => AwaitingFrame(s, t, e, v);
    case _ => ReadingFrame(s, t, e, v);
  }

  /** A supervisor's step leaves every other task alone, adds none but a fresh release of its permit, and counts that. */
  predicate SuperviseFrame(s: State, s': State, t: TaskId, v: TaskId) {
    && t < |s.tasks| <= |s'.tasks| <= |s.tasks| + 1 && s.tasks[t].Supervise? && s'.tasks[t].Supervise?
    && s'.tasks[t].permit == s.tasks[t].permit && s'.stopping == s.stopping
    && (v < |s.tasks| && v != t ==> s'.tasks[v] == s.tasks[v])
    && (|s'.tasks| > |s.tasks| ==> s'.tasks[|s.tasks|] == Release(s.tasks[t].permit, Fresh))
    && var c := s.tasks[t].permit;
       || s'.permits == s.permits
       || (c < |s.permits| && s'.permits == s.permits[c := s.permits[c].(releases := s.permits[c].releases + 1)])
  }

  lemma BeginningFrame(s: State, t: TaskId, e: Event, v: TaskId)
    requires t < |s.tasks| && s.tasks[t].Supervise?
    requires var pc := s.tasks[t].vpc; pc.New?
    ensures SuperviseFrame(s, SuperviseStep(s, t, e), t, v)
  {
    hide Decide, AllOver, ReleaserGone, Drain;
  }

  lemma WaitingFrame(s: State, t: TaskId, e: Event, v: TaskId)
    requires t < |s.tasks| && s.tasks[t].Supervise?
    requires var pc := s.tasks[t].vpc; pc.Waiting? || pc.Ended? || pc.Abandoned?
    ensures SuperviseFrame(s, SuperviseStep(s, t, e), t, v)
  {
    hide Decide, AllOver, ReleaserGone, FirstStep, AfterDrain;
  }

  lemma DrainingFrame(s: State, t: TaskId, e: Event, v: TaskId)
    requires t < |s.tasks| && s.tasks[t].Supervise?
    requires var pc := s.tasks[t].vpc; pc.Draining?
    ensures SuperviseFrame(s, SuperviseStep(s, t, e), t, v)
  {
    hide Decide, AllOver, ReleaserGone, FirstStep, Drain;
  }

  lemma EndingFrame(s: State, t: TaskId, e: Event, v: TaskId)
    requires t < |s.tasks| && s.tasks[t].Supervise?
    requires var pc := s.tasks[t].vpc; pc.Finalizing? || pc.Releasing?
    ensures SuperviseFrame(s, SuperviseStep(s, t, e), t, v)
  {
    hide Decide, AllOver, ReleaserGone, FirstStep, Drain, AfterDrain;
  }

  lemma SuperviseLeaves(s: State, t: TaskId, e: Event, v: TaskId)
    requires t < |s.tasks| && s.tasks[t].Supervise?
    ensures SuperviseFrame(s, SuperviseStep(s, t, e), t, v)
  {
    hide SuperviseStep, SuperviseFrame;
    match s.tasks[t].vpc
    case New => BeginningFrame(s, t, e, v);
    case Draining(_) => DrainingFrame(s, t, e, v);
    case Finalizing => EndingFrame(s, t, e, v);
    case Releasing(_, _) => EndingFrame(s, t, e, v);
    case _ => WaitingFrame(s, t, e, v);
  }
}
