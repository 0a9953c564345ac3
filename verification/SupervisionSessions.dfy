/**
 Which database sessions may return to the pool: none that still holds the admission lock,
 unless a release is itself cut short.
 */
module SupervisionSessions {
  import opened Common
  import opened Supervision
  import opened SupervisionSafety

  // ---------------------------------------------------------------- sessions in the pool

  /** No session that waits in the pool holds the admission lock. */
  predicate PoolIsClean(s: State) {
    forall c :: 0 <= c < |s.permits| && s.permits[c].home && s.permits[c].open ==> !s.permits[c].locked
  }

  /** Nor does one that is about to be put back. */
  predicate PutsAreClean(s: State) {
    forall k :: 0 <= k < |s.tasks| && s.tasks[k].Release? && s.tasks[k].rpc.Putting? && s.tasks[k].permit < |s.permits|
      ==> !(s.permits[s.tasks[k].permit].open && s.permits[s.tasks[k].permit].locked)
  }

  /** The release task is itself interrupted, or fails outside the database, before the unlock or the close has worked. */
  predicate Spoils(s: State, a: Action) {
    && a.Resume? && a.t < |s.tasks| && s.tasks[a.t].Release? && s.tasks[a.t].permit < |s.permits|
    && s.permits[s.tasks[a.t].permit].locked && Broken(a.event)
    && (s.tasks[a.t].rpc.Closing?
        || (s.tasks[a.t].rpc.Unlocking? && !(a.event.Failed? && a.event.database) && !a.event.effect))
  }

  predicate Clean(s: State) {
    PoolIsClean(s) && PutsAreClean(s)
  }

  lemma ReleaseCleansExactly(s: State, t: TaskId, e: Event)
    requires Inv(s) && Clean(s) && t < |s.tasks| && s.tasks[t].Release?
    ensures Clean(ReleaseStep(s, t, e)) <==> !Spoils(s, Resume(t, e))
  {
    assert TaskOk(s, t);
    var s' := ReleaseStep(s, t, e);
    var c := s.tasks[t].permit;
    ReleaseMoves(s, t, e);
    assert s'.tasks[t].Release? && s'.tasks[t].permit == c;
    assert Spoils(s, Resume(t, e)) ==> s'.tasks[t].rpc.Putting? && s'.permits[c].open && s'.permits[c].locked;
    if !Spoils(s, Resume(t, e)) {
      assert s'.permits[c].home && s'.permits[c].open ==> !s'.permits[c].locked;
      assert s'.tasks[t].rpc.Putting? && s'.permits[c].open ==> !s'.permits[c].locked;
      hide ReleaseStep, TasksOk, PermitsOk, FinalsOk, LockOk, ActiveOk, Spoils, ReleaseOk;
      forall k | 0 <= k < |s'.tasks| && k != t && s'.tasks[k].Release? ensures s'.tasks[k].permit != c {}
    }
  }

  predicate NoNewPut(s: State, s': State) {
    forall k :: 0 <= k < |s'.tasks| && s'.tasks[k].Release? && s'.tasks[k].rpc.Putting? ==> k < |s.tasks| && s.tasks[k] == s'.tasks[k]
  }

  /** Steps that end no release and lock or put back no session. */
  lemma QuietKeepsClean(s: State, s': State, c: CheckoutId)
    requires Clean(s) && TasksOk(s') && OnePermit(s, s', c)
    requires c < |s.permits| ==>
      || ((s'.permits[c].home ==> !(s'.permits[c].open && s'.permits[c].locked)) && !BeingPut(s', c))
      || (s'.permits[c].home == s.permits[c].home && s'.permits[c].open == s.permits[c].open
          && (s'.permits[c].locked ==> s.permits[c].locked))
    requires NoNewPut(s, s')
    ensures Clean(s')
  {
    forall k | 0 <= k < |s'.tasks| && s'.tasks[k].Release? && s'.tasks[k].rpc.Putting? && s'.tasks[k].permit < |s'.permits|
      ensures !(s'.permits[s'.tasks[k].permit].open && s'.permits[s'.tasks[k].permit].locked)
    {
      assert TaskOk(s', k);
      assert s.tasks[k] == s'.tasks[k];
    }
  }

  predicate BeingPut(s: State, c: CheckoutId) {
    exists k :: 0 <= k < |s.tasks| && s.tasks[k].Release? && s.tasks[k].rpc.Putting? && s.tasks[k].permit == c
  }

  lemma UnreleasedIsNotPut(s: State, c: CheckoutId)
    requires TasksOk(s) && c < |s.permits| && s.permits[c].releases == 0
    ensures !BeingPut(s, c)
  {
    forall k | 0 <= k < |s.tasks| && s.tasks[k].Release? && s.tasks[k].rpc.Putting? ensures s.tasks[k].permit != c {
      assert TaskOk(s, k);
    }
  }

  /** What `start` itself puts back, it has either failed to lock or closed. */
  lemma StartPutsClean(s: State, t: TaskId, e: Event)
    requires t < |s.tasks| && s.tasks[t].Start? && StartOk(s, t)
    requires HasCheckout(s.tasks[t].spc) && !s.tasks[t].spc.AtAcquire? && !s.tasks[t].spc.AtRelease?
    ensures var s', c := StartStep(s, t, e), s.tasks[t].spc.c;
            c < |s'.permits| && (s'.permits[c].home ==> !(s'.permits[c].open && s'.permits[c].locked))
  {
  }

  lemma StartKeepsClean(s: State, t: TaskId, e: Event)
    requires Inv(s) && Clean(s) && t < |s.tasks| && s.tasks[t].Start? && !s.tasks[t].spc.AtAcquire? && InLock(s.tasks[t].spc)
    ensures Clean(StartStep(s, t, e))
  {
    var s' := StartStep(s, t, e);
    assert TaskOk(s, t);
    StartKeepsInv(s, t, e);
    StartMoves(s, t, e);
    if s' != s {
      var pc := s.tasks[t].spc;
      var c := if HasCheckout(pc) && !pc.AtRelease? then pc.c else |s.permits|;
      if c < |s.permits| { StartPutsClean(s, t, e); }
      hide StartStep, Clean, TasksOk, LockOk, ActiveOk, PermitsOk, OneReleaseEach, FinalsOk;
      assert OnePermit(s, s', c);
      if c < |s.permits| { UnreleasedIsNotPut(s', c); }
      QuietKeepsClean(s, s', c);
    }
  }

  /** Steps that change at most the release count of a checkout. */
  lemma CountKeepsClean(s: State, s': State, c: CheckoutId)
    requires Inv(s) && Clean(s) && Inv(s')
    requires s'.permits == s.permits || (c < |s.permits| && s'.permits == s.permits[c := s.permits[c].(releases := s.permits[c].releases + 1)])
    requires NoNewPut(s, s')
    ensures Clean(s')
  {
    QuietKeepsClean(s, s', c);
  }

  lemma SupervisePutsNothing(s: State, t: TaskId, e: Event)
    requires t < |s.tasks| && s.tasks[t].Supervise?
    ensures NoNewPut(s, SuperviseStep(s, t, e))
  {
    hide SuperviseStep;
    var s' := SuperviseStep(s, t, e);
    SuperviseLeaves(s, t, e, t);
    forall k | 0 <= k < |s'.tasks| && s'.tasks[k].Release? && s'.tasks[k].rpc.Putting? ensures k < |s.tasks| && s.tasks[k] == s'.tasks[k] {
      SuperviseLeaves(s, t, e, k);
    }
  }

  lemma StartPutsNothing(s: State, t: TaskId, e: Event)
    requires t < |s.tasks| && s.tasks[t].Start?
    ensures NoNewPut(s, StartStep(s, t, e))
  {
    hide StartStep;
    var s' := StartStep(s, t, e);
    StartLeaves(s, t, e, t);
    forall k | 0 <= k < |s'.tasks| && s'.tasks[k].Release? && s'.tasks[k].rpc.Putting? ensures k < |s.tasks| && s.tasks[k] == s'.tasks[k] {
      StartLeaves(s, t, e, k);
    }
  }

  lemma SuperviseKeepsClean(s: State, t: TaskId, e: Event)
    requires Inv(s) && Clean(s) && t < |s.tasks| && s.tasks[t].Supervise?
    ensures Clean(SuperviseStep(s, t, e))
  {
    SuperviseKeepsInv(s, t, e);
    SuperviseLeaves(s, t, e, t);
    SupervisePutsNothing(s, t, e);
    hide SuperviseStep, Inv, Clean, NoNewPut;
    CountKeepsClean(s, SuperviseStep(s, t, e), s.tasks[t].permit);
  }

  lemma AcquireCounts(s: State, t: TaskId, e: Event)
    requires t < |s.tasks| && s.tasks[t].Start? && s.tasks[t].spc.AtAcquire?
    ensures var s', c := StartStep(s, t, e), s.tasks[t].spc.c;
            || s'.permits == s.permits
            || (c < |s.permits| && s'.permits == s.permits[c := s.permits[c].(releases := s.permits[c].releases + 1)])
  {
  }

  lemma AcquireKeepsClean(s: State, t: TaskId, e: Event)
    requires Inv(s) && Clean(s) && t < |s.tasks| && s.tasks[t].Start? && s.tasks[t].spc.AtAcquire?
    ensures Clean(StartStep(s, t, e))
  {
    StartKeepsInv(s, t, e);
    AcquireCounts(s, t, e);
    StartPutsNothing(s, t, e);
    hide StartStep, Inv, Clean, NoNewPut;
    CountKeepsClean(s, StartStep(s, t, e), s.tasks[t].spc.c);
  }

  /** The environment, and a task outside the lock, may at most lose a session. */
  lemma RestIsQuiet(s: State, a: Action, c: CheckoutId)
    requires a.Resume? && a.t < |s.tasks| ==> s.tasks[a.t].Close? || (s.tasks[a.t].Start? && s.tasks[a.t].spc.AtLock?)
    requires c == if a.Lose? then a.c else |s.permits|
    ensures OnePermit(s, Next(s, a), c)
    ensures c < |s.permits| ==> var p, p' := s.permits[c], Next(s, a).permits[c]; p' == p.(locked := p'.locked) && (p'.locked ==> p.locked)
    ensures NoNewPut(s, Next(s, a))
  {
    hide SuperviseStep, ReleaseStep;
  }

  lemma RestKeepsClean(s: State, a: Action)
    requires Inv(s) && Clean(s)
    requires a.Resume? && a.t < |s.tasks| ==> s.tasks[a.t].Close? || (s.tasks[a.t].Start? && s.tasks[a.t].spc.AtLock?)
    ensures Clean(Next(s, a))
  {
    var c := if a.Lose? then a.c else |s.permits|;
    NextKeepsInv(s, a);
    RestIsQuiet(s, a, c);
    hide Next, Clean, NoNewPut;
    QuietKeepsClean(s, Next(s, a), c);
  }

  /** The exact condition on one step: sessions stay clean unless the step cuts a release short before it has worked. */
  lemma CleanSurvivesExactly(s: State, a: Action)
    requires Inv(s) && Clean(s)
    ensures Clean(Next(s, a)) <==> !Spoils(s, a)
  {
    if a.Resume? && a.t < |s.tasks| && s.tasks[a.t].Release? {
      hide Inv, Clean, ReleaseStep, Spoils;
      ReleaseCleansExactly(s, a.t, a.event);
    } else if a.Resume? && a.t < |s.tasks| && s.tasks[a.t].Supervise? {
      hide Inv, Clean, SuperviseStep;
      SuperviseKeepsClean(s, a.t, a.event);
    } else if a.Resume? && a.t < |s.tasks| && s.tasks[a.t].Start? && InLock(s.tasks[a.t].spc) {
      hide Inv, Clean, StartStep;
      if s.tasks[a.t].spc.AtAcquire? { AcquireKeepsClean(s, a.t, a.event); } else { StartKeepsClean(s, a.t, a.event); }
    } else if a.Resume? && a.t < |s.tasks| && s.tasks[a.t].Start? && s.tasks[a.t].spc.Answered? {
    } else {
      hide Inv, Clean, Next;
      RestKeepsClean(s, a);
    }
  }

  ghost predicate AlwaysClean(acts: seq<Action>) {
    forall k :: 0 <= k <= |acts| ==> Clean(Exec(INIT, acts[..k]))
  }

  ghost predicate NeverSpoils(acts: seq<Action>) {
    forall i :: 0 <= i < |acts| ==> !Spoils(Exec(INIT, acts[..i]), acts[i])
  }

  lemma PrefixStep(acts: seq<Action>, k: nat)
    requires k < |acts|
    ensures Exec(INIT, acts[..k + 1]) == Next(Exec(INIT, acts[..k]), acts[k])
  {
    assert acts[..k + 1][..k] == acts[..k];
  }

  lemma {:induction false} UnspoiledPrefix(acts: seq<Action>, k: nat)
    requires NeverSpoils(acts) && k <= |acts|
    ensures Clean(Exec(INIT, acts[..k]))
  {
    if k > 0 {
      hide Next, Inv, Spoils, Clean;
      UnspoiledPrefix(acts, k - 1);
      RunKeepsInv(acts[..k - 1]);
      CleanSurvivesExactly(Exec(INIT, acts[..k - 1]), acts[k - 1]);
      PrefixStep(acts, k - 1);
    }
  }

  /**
   A session that waits in the pool, or is about to be put there, never holds the admission lock, if and only if no
   release task is cut short by a cancellation or a foreign error before its unlock or close has worked.
   */
  lemma PoolStaysCleanExactly(acts: seq<Action>)
    ensures AlwaysClean(acts) <==> NeverSpoils(acts)
    ensures NeverSpoils(acts) ==> PoolIsClean(Exec(INIT, acts))
  {
    hide Next, Inv, Spoils, PoolIsClean, PutsAreClean;
    if NeverSpoils(acts) {
      forall k | 0 <= k <= |acts| ensures Clean(Exec(INIT, acts[..k])) { UnspoiledPrefix(acts, k); }
      assert acts[..|acts|] == acts;
    }
    if AlwaysClean(acts) {
      forall i | 0 <= i < |acts| ensures !Spoils(Exec(INIT, acts[..i]), acts[i]) {
        RunKeepsInv(acts[..i]);
        CleanSurvivesExactly(Exec(INIT, acts[..i]), acts[i]);
        PrefixStep(acts, i);
      }
    }
  }
}
