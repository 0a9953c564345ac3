/** Runs of a purge that exist: one that succeeds, and one in which two workers may delete the same object. */
module CleanupWitness {
  import opened Common
  import opened Cleanup
  import opened CleanupSafety
  import opened CleanupResults

  const STORED := Row(0, None, false, 0, true, 1)
  const CLAIM := Claim(7, 0, 0, 30)

  /** One object and one worker whose clock is five ahead. */
  function Setting(row: Row, phase: Phase, inflight: set<Claim>, tokens: nat, log: seq<Entry>): State {
    State(Purge, 30, 0, map[0 := Pending], map[7 := row], map[1 := Worker(5, false, phase)], inflight, tokens, log)
  }

  lemma Before(s: State, a: Action, actions: seq<Action>, t: State)
    requires Enabled(s, a) && Run(Next(s, a), actions, t)
    ensures Run(s, [a] + actions, t)
  {
    assert ([a] + actions)[1..] == actions;
  }

  const HELD := STORED.(claim := Some(CLAIM), attempt := 1)
  const FOUND := [Entry(0, Claimed(CLAIM)), Entry(0, FoundPresent(CLAIM))]
  const SENT := FOUND + [Entry(0, Authorized(CLAIM, true)), Entry(0, Deleted(CLAIM))]

  const TAKEN := [Entry(0, Claimed(CLAIM))]

  lemma ObjectIsTaken() returns (actions: seq<Action>)
    ensures Run(Setting(STORED, Idle, {}, 0, []), actions, Setting(HELD, Claiming(5, CLAIM), {}, 1, TAKEN))
  {
    var s0 := Setting(STORED, Idle, {}, 0, []);
    var s1 := Next(s0, Ask(1));
    var s2 := Next(s1, Grant(1, 7));
    assert s2 == Setting(HELD, Claiming(5, CLAIM), {}, 1, TAKEN);
    Before(s1, Grant(1, 7), [], s2);
    Before(s0, Ask(1), [Grant(1, 7)] + [], s2);
    actions := [Ask(1)] + ([Grant(1, 7)] + []);
  }

  /** From the claim taken to the object found. */
  lemma ObjectIsFound() returns (actions: seq<Action>)
    ensures Run(Setting(HELD, Claiming(5, CLAIM), {}, 1, TAKEN), actions, Setting(HELD, Working(CLAIM, 35, Seen), {}, 1, FOUND))
  {
    var s2 := Setting(HELD, Claiming(5, CLAIM), {}, 1, TAKEN);
    var s3 := Next(s2, Receive(1, 0));
    var s4 := Next(s3, SendHead(1));
    var s5 := Next(s4, ReadHead(1));
    assert s5 == Setting(HELD, Working(CLAIM, 35, Seen), {}, 1, FOUND);
    Before(s4, ReadHead(1), [], s5);
    Before(s3, SendHead(1), [ReadHead(1)] + [], s5);
    Before(s2, Receive(1, 0), [SendHead(1)] + ([ReadHead(1)] + []), s5);
    actions := [Receive(1, 0)] + ([SendHead(1)] + ([ReadHead(1)] + []));
  }

  /** From the object found to the DELETE landed. */
  lemma ObjectIsDeleted() returns (actions: seq<Action>)
    ensures Run(Setting(HELD, Working(CLAIM, 35, Seen), {}, 1, FOUND), actions,
                Setting(HELD.(present := false), Working(CLAIM, 35, Sent), {}, 1, SENT))
  {
    var s0 := Setting(HELD, Working(CLAIM, 35, Seen), {}, 1, FOUND);
    var s1 := Next(s0, Authorize(1));
    var s2 := Next(s1, SendDelete(1));
    var s3 := Next(s2, DeleteLands(CLAIM));
    assert s2.inflight == {CLAIM} && s3.inflight == {};
    assert s3 == Setting(HELD.(present := false), Working(CLAIM, 35, Sent), {}, 1, SENT);
    Before(s2, DeleteLands(CLAIM), [], s3);
    Before(s1, SendDelete(1), [DeleteLands(CLAIM)] + [], s3);
    Before(s0, Authorize(1), [SendDelete(1)] + ([DeleteLands(CLAIM)] + []), s3);
    actions := [Authorize(1)] + ([SendDelete(1)] + ([DeleteLands(CLAIM)] + []));
  }

  predicate Succeeded(t: State) {
    && t.service.Purge? && 7 in t.rows && t.rows[7].marked && PlanIs(t, 7, Completed)
    && exists i :: 0 <= i < |t.log| && IsDelete(t.log[i], CLAIM)
  }

  const GONE := SENT + [Entry(0, FoundAbsent(CLAIM, 1))]

  /** From the DELETE landed to the object seen absent. */
  lemma ObjectIsGone() returns (actions: seq<Action>)
    ensures Run(Setting(HELD.(present := false), Working(CLAIM, 35, Sent), {}, 1, SENT), actions,
                Setting(HELD.(present := false), Working(CLAIM, 35, GoneAllowed(1)), {}, 1, GONE))
  {
    var s0 := Setting(HELD.(present := false), Working(CLAIM, 35, Sent), {}, 1, SENT);
    var s1 := Next(s0, DeleteAnswered(1));
    var s2 := Next(s1, SendHead(1));
    var s3 := Next(s2, ReadHead(1));
    assert s3 == Setting(HELD.(present := false), Working(CLAIM, 35, GoneAllowed(1)), {}, 1, GONE);
    Before(s2, ReadHead(1), [], s3);
    Before(s1, SendHead(1), [ReadHead(1)], s3);
    Before(s0, DeleteAnswered(1), [SendHead(1)] + [ReadHead(1)], s3);
    actions := [DeleteAnswered(1)] + ([SendHead(1)] + [ReadHead(1)]);
  }

  /** The last mark, which completes the plan. */
  lemma ObjectIsMarked() returns (t: State)
    ensures Run(Setting(HELD.(present := false), Working(CLAIM, 35, GoneAllowed(1)), {}, 1, GONE), [Mark(1)], t)
    ensures Succeeded(t)
  {
    var s0 := Setting(HELD.(present := false), Working(CLAIM, 35, GoneAllowed(1)), {}, 1, GONE);
    t := Next(s0, Mark(1));
    assert t.log[3] == SENT[3] && IsDelete(t.log[3], CLAIM);
    Before(s0, Mark(1), [], t);
  }

  lemma {:induction false} RunsJoin(s: State, actions: seq<Action>, t: State, more: seq<Action>, u: State)
    requires Run(s, actions, t) && Run(t, more, u)
    ensures Run(s, actions + more, u)
    decreases |actions|
  {
    if actions == [] {
      assert actions + more == more;
    } else {
      RunsJoin(Next(s, actions[0]), actions[1..], t, more, u);
      assert (actions + more)[1..] == actions[1..] + more;
    }
  }

  /** The rules forbid no success: some purge sends its DELETE, marks the object and completes its plan. */
  lemma PurgeCanSucceed() returns (s: State, actions: seq<Action>, t: State)
    ensures Init(s) && Run(s, actions, t) && Succeeded(t)
  {
    hide Run, Enabled, Next, Succeeded;
    var taken := ObjectIsTaken();
    var found := ObjectIsFound();
    var deleted := ObjectIsDeleted();
    var gone := ObjectIsGone();
    t := ObjectIsMarked();
    s := Setting(STORED, Idle, {}, 0, []);
    RunsJoin(s, taken, Setting(HELD, Claiming(5, CLAIM), {}, 1, TAKEN), found,
             Setting(HELD, Working(CLAIM, 35, Seen), {}, 1, FOUND));
    RunsJoin(s, taken + found, Setting(HELD, Working(CLAIM, 35, Seen), {}, 1, FOUND), deleted,
             Setting(HELD.(present := false), Working(CLAIM, 35, Sent), {}, 1, SENT));
    RunsJoin(s, taken + found + deleted, Setting(HELD.(present := false), Working(CLAIM, 35, Sent), {}, 1, SENT), gone,
             Setting(HELD.(present := false), Working(CLAIM, 35, GoneAllowed(1)), {}, 1, GONE));
    RunsJoin(s, taken + found + deleted + gone,
             Setting(HELD.(present := false), Working(CLAIM, 35, GoneAllowed(1)), {}, 1, GONE), [Mark(1)], t);
    actions := taken + found + deleted + gone + [Mark(1)];
  }

  // ---------------------------------------------------------------- two deleters

  predicate Resting(s: State, w: nat) {
    w in s.workers && s.workers[w] == Worker(0, false, Idle)
  }

  predicate Free(s: State, o: nat) {
    o in s.rows && (s.rows[o].claim.None? || s.rows[o].claim.value.until <= s.clock)
  }

  /** A pending plan with objects 7 and 8; object 7 was claimed `k` times in vain, object 8 not at all. */
  predicate Worn(s: State, k: nat) {
    && s.service.Purge? && s.lease == 30 && s.plans == map[0 := Pending] && k <= MAX_ATTEMPTS
    && Resting(s, 1) && Resting(s, 2) && Resting(s, 3)
    && Free(s, 7) && s.rows[7] == Row(0, s.rows[7].claim, false, k, true, 1) && (k > 0 ==> s.rows[7].claim.Some?)
    && 8 in s.rows && s.rows[8] == STORED
  }

  /** A worker claims object 7, falls silent until its lease has ended, and starts anew. */
  lemma WearOnce(s: State, k: nat) returns (actions: seq<Action>, t: State)
    requires Worn(s, k) && k < MAX_ATTEMPTS
    ensures Run(s, actions, t) && Worn(t, k + 1)
  {
    var s1 := Next(s, Ask(1));
    var s2 := Next(s1, Grant(1, 7));
    var s3 := Next(s2, Tick(30));
    t := Next(s3, Restart(1, 0));
    Before(s3, Restart(1, 0), [], t);
    Before(s2, Tick(30), [Restart(1, 0)], t);
    Before(s1, Grant(1, 7), [Tick(30)] + [Restart(1, 0)], t);
    Before(s, Ask(1), [Grant(1, 7)] + ([Tick(30)] + [Restart(1, 0)]), t);
    actions := [Ask(1)] + ([Grant(1, 7)] + ([Tick(30)] + [Restart(1, 0)]));
  }

  lemma WearOut(s: State, k: nat) returns (actions: seq<Action>, t: State)
    requires Worn(s, k)
    ensures Run(s, actions, t) && Worn(t, MAX_ATTEMPTS)
    decreases MAX_ATTEMPTS - k
  {
    hide Worn;
    if k == MAX_ATTEMPTS {
      return [], s;
    }
    WornLimit(s, k);
    var once, s1 := WearOnce(s, k);
    var rest;
    rest, t := WearOut(s1, k + 1);
    RunsJoin(s, once, s1, rest, t);
    actions := once + rest;
  }

  lemma WornLimit(s: State, k: nat)
    requires Worn(s, k)
    ensures k <= MAX_ATTEMPTS
  {
  }

  /** A worker that may send its DELETE for object 8. */
  predicate Poised(s: State, w: nat) {
    w in s.workers && MaySend(s, w) && s.workers[w].phase.claim.obj == 8
  }

  /** Object 8 may be claimed. */
  predicate Offered(s: State) {
    s.service.Purge? && s.lease == 30 && s.plans == map[0 := Pending] && 8 in s.rows && s.rows[8] == STORED
  }

  /** What the way of one worker to its DELETE leaves as it was. */
  predicate Beside(s: State, t: State, w: nat) {
    && t.service == s.service && t.lease == s.lease && t.plans == s.plans && t.clock == s.clock && 8 in t.rows
    && t.rows == s.rows[8 := t.rows[8]] && w in t.workers && t.workers == s.workers[w := t.workers[w]]
    && t.rows[8] == STORED.(claim := t.rows[8].claim, attempt := t.rows[8].attempt)
  }

  lemma ToHead(s: State, w: nat) returns (actions: seq<Action>, t: State)
    requires Offered(s) && Resting(s, w)
    ensures Run(s, actions, t) && Beside(s, t, w)
    ensures t.rows[8].claim.Some? && t.rows[8].claim.value.until == s.clock + 30 && t.rows[8].claim.value.obj == 8
    ensures t.workers[w] == Worker(0, false, Working(t.rows[8].claim.value, s.clock + 30, Looking(false)))
  {
    var s1 := Next(s, Ask(w));
    var s2 := Next(s1, Grant(w, 8));
    var s3 := Next(s2, Receive(w, s.clock));
    t := Next(s3, SendHead(w));
    Before(s3, SendHead(w), [], t);
    Before(s2, Receive(w, s.clock), [SendHead(w)], t);
    Before(s1, Grant(w, 8), [Receive(w, s.clock)] + [SendHead(w)], t);
    Before(s, Ask(w), [Grant(w, 8)] + ([Receive(w, s.clock)] + [SendHead(w)]), t);
    actions := [Ask(w)] + ([Grant(w, 8)] + ([Receive(w, s.clock)] + [SendHead(w)]));
  }

  lemma ToDelete(s: State, w: nat) returns (actions: seq<Action>, t: State)
    requires Offered(s) && Resting(s, w)
    ensures Run(s, actions, t) && Beside(s, t, w) && Poised(t, w)
  {
    var first, s4 := ToHead(s, w);
    var s5 := Next(s4, ReadHead(w));
    t := Next(s5, Authorize(w));
    Before(s5, Authorize(w), [], t);
    Before(s4, ReadHead(w), [Authorize(w)], t);
    RunsJoin(s, first, s4, [ReadHead(w)] + [Authorize(w)], t);
    actions := first + ([ReadHead(w)] + [Authorize(w)]);
  }

  lemma PlanFails(s: State)
    requires s.service.Purge? && s.plans == map[0 := Pending] && 7 in s.rows && RanOut(s, 7, 0)
    ensures Enabled(s, FailPlan(0)) && Next(s, FailPlan(0)) == s.(plans := map[0 := Broken])
  {
  }

  /** The plan fails over object 7 and is accepted again, beside the worker at work on object 8. */
  lemma AcceptBeside(s: State) returns (actions: seq<Action>, t: State)
    requires s.service.Purge? && s.lease == 30 && s.plans == map[0 := Pending] && Poised(s, 2) && Resting(s, 3)
    requires 7 in s.rows && 8 in s.rows && RanOut(s, 7, 0) && s.rows[8] == STORED.(claim := s.rows[8].claim, attempt := s.rows[8].attempt)
    ensures Run(s, actions, t) && Offered(t) && Poised(t, 2) && Resting(t, 3)
  {
    hide MaySend, RanOut;
    PlanFails(s);
    var s1 := Next(s, FailPlan(0));
    t := Next(s1, Accept(0));
    SenderWorks(s, 2);
    SenderGoesOn(s, s1, 2);
    SenderGoesOn(s1, t, 2);
    Before(s1, Accept(0), [], t);
    Before(s, FailPlan(0), [Accept(0)], t);
    actions := [FailPlan(0)] + [Accept(0)];
  }

  lemma StillPoised(s: State, t: State, v: nat, w: nat)
    requires Poised(s, v) && v != w && Beside(s, t, w)
    ensures Poised(t, v)
  {
  }

  function Fresh(): State {
    State(Purge, 30, 0, map[0 := Pending], map[7 := STORED, 8 := STORED],
          map[1 := Worker(0, false, Idle), 2 := Worker(0, false, Idle), 3 := Worker(0, false, Idle)], {}, 0, [])
  }

  lemma FreshIsWorn()
    ensures Init(Fresh()) && Worn(Fresh(), 0)
  {
  }

  /** Object 7 is worn out, and worker 2 stands before its DELETE of object 8. */
  lemma ToWorn() returns (actions: seq<Action>, t: State)
    ensures Run(Fresh(), actions, t) && Poised(t, 2) && Resting(t, 3) && RanOut(t, 7, 0)
    ensures t.service.Purge? && t.lease == 30 && t.plans == map[0 := Pending] && 7 in t.rows && 8 in t.rows
    ensures t.rows[8] == STORED.(claim := t.rows[8].claim, attempt := t.rows[8].attempt)
  {
    hide Run, Fresh, Poised, Enabled;
    FreshIsWorn();
    var wear, s1 := WearOut(Fresh(), 0);
    var second;
    second, t := ToDelete(s1, 2);
    RunsJoin(Fresh(), wear, s1, second, t);
    actions := wear + second;
  }

  /** A failed plan accepted again too early: two workers may send a DELETE for one object at one time. */
  lemma TwoDeletersAreReachable() returns (s: State, actions: seq<Action>, t: State)
    ensures Init(s) && Run(s, actions, t) && Poised(t, 2) && Poised(t, 3)
  {
    hide Run, Fresh, Poised, Offered, Resting, RanOut, Init, Worn;
    FreshIsWorn();
    s := Fresh();
    var worn, s1 := ToWorn();
    var again, s2 := AcceptBeside(s1);
    var third;
    third, t := ToDelete(s2, 3);
    StillPoised(s2, t, 2, 3);
    RunsJoin(s, worn, s1, again, s2);
    RunsJoin(s, worn + again, s2, third, t);
    actions := worn + again + third;
  }
}
