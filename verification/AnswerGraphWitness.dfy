/** Runs of the answer graph that exist: the longest one, and two refusals that the database turns down. */
module AnswerGraphWitness {
  import opened Common
  import opened RunStore
  import opened RunStoreSafety
  import opened ModelStep
  import opened AnswerGraph
  import opened AnswerGraphSafety
  import opened AnswerGraphResults
  import P = Policy
  import Numeric = NumericScan
  import Texts

  const PACK := Pack(0, map["e" := "x"])
  const CHOICE := Choice(0, PACK, true)

  function PlainWorld(): World {
    World(p => Some([]), (d, p) => [], 1)
  }

  lemma Extend(w: World, events: seq<Event>, c: Conf, e: Event) returns (events': seq<Event>, c': Conf)
    requires Exec(w, events) == c
    ensures Exec(w, events') == c' == Apply(w, c, e)
  {
    hide Apply;
    events', c' := events + [e], Apply(w, c, e);
    assert events'[..|events'| - 1] == events;
  }

  /** One reply that is let through and saved. */
  lemma Bring(w: World, events: seq<Event>, c: Conf, v: Value) returns (events': seq<Event>, c': Conf)
    requires Exec(w, events) == c && CallOf(c, 0).Ok? && Paid(c) && Deliverable(c, CallOf(c, 0).value.role, v)
    requires FirstOf(CallOf(c, 0).value) !in c.store.artifacts && |c.store.artifacts| < 20
    ensures Exec(w, events') == c' == On(c, Saved(c.store, FirstOf(CallOf(c, 0).value), Completed(v)))
    ensures var call := CallOf(c, 0).value;
            Decided(c'.store, call.role, call.phase, call.identity) == Some(Done(FirstOf(call), v))
  {
    hide Inv, SaveFailure, Deliverable, CallOf, Paid;
    ExecKeepsInv(w, events);
    AskedIsSavable(w, c, 0, false, Reply.Answered(v));
    if SaveFailure(c.store, FirstOf(CallOf(c, 0).value), Completed(v)) == Some(CapacityExceeded) {
      CapIsReached(c.store, FirstOf(CallOf(c, 0).value), Completed(v));
    }
    events', c' := Extend(w, events, c, Ask(0, false, Reply.Answered(v)));
  }

  /** What is known of a run on its way: the node, the steps, and how many artifacts there are at most. */
  predicate Way(w: World, events: seq<Event>, c: Conf, node: Node, steps: nat, size: nat) {
    Exec(w, events) == c && c.node == node && c.steps == steps && |c.store.artifacts| <= size < 20 && c.st.outcome.None?
  }

  predicate Packed(c: Conf) {
    c.store.pack == Some(PACK) && c.st.packId == Some(0)
  }

  predicate NoDraftYet(s: Store) {
    forall id :: id in s.artifacts ==> IsStep(id, Router) || id.key.RetrievalFrozen?
  }

  lemma ToRetriever(w: World) returns (events: seq<Event>, c: Conf)
    requires w.versions > 0
    ensures Way(w, events, c, Retriever, 2, 1) && c.store.pack.None? && NoDraftYet(c.store) && ReadsRoute(c) && Undrafted(c.st)
  {
    events, c := [], INITIAL;
    events, c := Extend(w, events, c, Finish(CHOICE));
    events, c := Bring(w, events, c, Route(false));
    events, c := Extend(w, events, c, Finish(CHOICE));
  }

  lemma ToDrafter(w: World) returns (events: seq<Event>, c: Conf)
    requires w.versions > 0
    ensures Way(w, events, c, DrafterNode, 4, 2) && Packed(c) && NoDraftYet(c.store) && Undrafted(c.st) && c.store.repair.None?
  {
    events, c := ToRetriever(w);
    Freeze(w, events, c);
    events, c := Extend(w, events, c, Finish(CHOICE));
    events, c := Extend(w, events, c, Finish(CHOICE));
  }

  lemma Freeze(w: World, events: seq<Event>, c: Conf)
    requires w.versions > 0 && Way(w, events, c, Retriever, 2, 1) && c.store.pack.None? && NoDraftYet(c.store) && ReadsRoute(c)
    ensures RunRetriever(w, c, PACK).Ok?
    ensures var d := RunRetriever(w, c, PACK).value;
            && d.node == BuildContext && d.steps == 3 && d.store.pack == Some(PACK) && d.st.packId == Some(0) && NoDraftYet(d.store)
            && |d.store.artifacts| <= 2 && d.st.outcome.None? && d.store.repair.None?
            && d.st.repairAttempts == c.st.repairAttempts && d.st.draftId == c.st.draftId && d.st.criticId == c.st.criticId
  {
    hide StoreOk, ArtifactsSound, RepairSound, Prechecked, ReadsRoute;
    ExecKeepsInv(w, events);
    RetrieverSaves(w, c, PACK);
    assert PACK.units != map[] by { assert "e" in PACK.units; }
  }

  /** A draft on its way to the precheck, with nothing in the store that could be in the way. */
  predicate Drafted(c: Conf, d: P.Draft, attempts: int) {
    && Packed(c) && ReadsDraft(c) && DraftOf(c) == d && c.st.repairAttempts == attempts
    && IsStep(c.st.draftId.value, if attempts == 0 then Drafter else Repairer)
    && (forall id :: id in c.store.artifacts && IsStep(id, Critic) ==> attempts == 1 && id.key.phase.Initial?)
    && (attempts == 0 ==> c.store.repair.None? && forall id :: id in c.store.artifacts ==> !IsStep(id, Repairer))
  }

  /** The drafter with its answer in the store. */
  lemma ToDraftSaved(w: World, d: P.Draft) returns (events: seq<Event>, c: Conf)
    requires w.versions > 0 && P.DraftSchema(d) && d.disposition.Answer?
    ensures Way(w, events, c, DrafterNode, 4, 3) && Packed(c) && c.store.repair.None? && Undrafted(c.st) && CallOf(c, 0).Ok?
    ensures var call := CallOf(c, 0).value;
            && call.role == Drafter && c.store.artifacts == c.store.artifacts[FirstOf(call) := Completed(RunStore.Drafted(d))]
            && Decided(c.store, call.role, call.phase, call.identity) == Some(Done(FirstOf(call), RunStore.Drafted(d)))
    ensures forall id :: id in c.store.artifacts ==> !IsStep(id, Critic) && !IsStep(id, Repairer)
  {
    hide P.DraftSchema, Sound, Extends, SaveFailure, RepairProof, Prechecked, Decided;
    events, c := ToDrafter(w);
    events, c := Bring(w, events, c, RunStore.Drafted(d));
  }

  lemma ToPrechecks(w: World, d: P.Draft) returns (events: seq<Event>, c: Conf)
    requires w.versions > 0 && P.DraftSchema(d) && d.disposition.Answer?
    ensures Way(w, events, c, Prechecks, 5, 3) && Drafted(c, d, 0)
  {
    hide P.DraftSchema, Sound, Extends, SaveFailure, RepairProof, Prechecked, Decided;
    events, c := ToDraftSaved(w, d);
    events, c := Extend(w, events, c, Finish(CHOICE));
  }

  /** A draft that passes goes on to the critic. */
  lemma Pass(w: World, events: seq<Event>, c: Conf, d: P.Draft, attempts: int, steps: nat, size: nat)
    returns (events': seq<Event>, c': Conf)
    requires Way(w, events, c, Prechecks, steps, size) && size < 19 && Drafted(c, d, attempts) && Passes(w, d, PACK)
    ensures Way(w, events', c', CriticNode, steps + 1, size + 1) && Drafted(c', d, attempts) && ReadsPrecheck(c')
    ensures c'.store.repair == c.store.repair && c'.st.nextAction == Some(To(CriticNode))
  {
    hide P.PrecheckFailure, Sound, Prechecked, SaveFailure, Extends;
    ExecKeepsInv(w, events);
    PrecheckIsSaved(w, c);
    if SaveFailure(c.store, PrecheckId(c), PrecheckContent(true)) == Some(CapacityExceeded) {
      CapIsReached(c.store, PrecheckId(c), PrecheckContent(true));
    }
    events', c' := Extend(w, events, c, Finish(CHOICE));
    ReadsGrow(c, c'.store);
  }

  /** A critic that answers `m`. */
  lemma Judge(w: World, events: seq<Event>, c: Conf, attempts: int, m: P.Match, steps: nat, size: nat)
    returns (events': seq<Event>, c': Conf)
    requires Way(w, events, c, CriticNode, steps, size) && size < 19 && Drafted(c, P.LONE_DRAFT, attempts) && ReadsPrecheck(c)
    requires (attempts == 0 || attempts == 1) && c.st.nextAction == Some(To(CriticNode))
    ensures Way(w, events', c', PolicyNode, steps + 1, size + 1) && CriticOfDraft(c') && CriticOf(c') == P.LoneCritic(m)
    ensures Packed(c') && DraftOf(c') == P.LONE_DRAFT && c'.st.repairAttempts == attempts && c'.store.repair == c.store.repair
    ensures (forall id :: id in c'.store.artifacts && IsStep(id, Critic) ==> attempts == 1 || id.key.phase.Initial?)
    ensures IsStep(c'.st.draftId.value, if attempts == 0 then Drafter else Repairer)
    ensures attempts == 0 ==> forall id :: id in c'.store.artifacts ==> !IsStep(id, Repairer)
  {
    hide P.ValidCritic, P.CriticSchema, P.LoneCritic, ReadsPrecheck, Sound, Extends, SaveFailure, RepairProof, Prechecked;
    P.LoneCriticIsBound(m);
    assert PACK.units.Keys == {"e"};
    events', c' := Bring(w, events, c, Judged(P.LoneCritic(m)));
    ReadsStay(c, c'.store);
    events', c' := Extend(w, events', c', Finish(CHOICE));
  }

  lemma ReadsStay(c: Conf, t: Store)
    requires exists id, v :: id !in c.store.artifacts && t == Saved(c.store, id, v)
    ensures ReadsPrecheck(c) ==> ReadsPrecheck(On(c, t))
    ensures ReadsDraft(c) ==> ReadsDraft(On(c, t)) && DraftOf(On(c, t)) == DraftOf(c)
  {
  }

  lemma LonePolicy(w: World, c: Conf, attempts: int, m: P.Match)
    requires w == PlainWorld() && CriticOfDraft(c) && DraftOf(c) == P.LONE_DRAFT && CriticOf(c) == P.LoneCritic(m) && Packed(c)
    requires c.st.repairAttempts == attempts && (m.Yes? || (m.Partial? && attempts == 0)) && (attempts == 0 || attempts == 1)
    requires Passes(w, P.LONE_DRAFT, PACK)
    ensures P.CriticStoragePolicy(CriticOf(c)) == if m.Yes? then P.Render else P.Action.Repair
    ensures Decide(w, c).Ok? && Decide(w, c).value.action == P.CriticStoragePolicy(CriticOf(c))
  {
    hide P.PrecheckFailure, P.HasWrong, P.HasUnsafe, P.HasPartial, P.ValidCritic, P.CriticSchema;
    P.LoneCriticIsBound(m);
    assert PACK.units.Keys == {"e"};
    BoundIsValid(m);
  }

  lemma BoundIsValid(m: P.Match)
    requires P.ValidCritic(P.LoneCritic(m), P.LONE_DRAFT, {"e"})
    ensures P.CriticBound(P.LoneCritic(m), P.LONE_DRAFT, {"e"}) && P.ReasonsAgree(P.LoneCritic(m))
  {
  }

  lemma NoNumbers(s: string)
    requires |s| == 1 && !Numeric.IsDigitAt(s, 0) && !Numeric.IsSign(s[0])
    ensures Numeric.Matches(s, 0) == []
  {
    assert Numeric.RunEnd(s, 0) == 0;
    assert Numeric.Matches(s, 1) == [];
  }

  lemma LoneDraftPasses()
    ensures Passes(PlainWorld(), P.LONE_DRAFT, PACK)
  {
    P.LoneDraftIsValid();
    NoNumbers("t");
    assert PACK.units.Keys == {"e"};
    assert P.NumbersCited(P.LONE_DRAFT.claims[0], PACK.units);
  }

  lemma ToRepair() returns (events: seq<Event>, c: Conf)
    ensures Way(PlainWorld(), events, c, RepairNode, 8, 5) && CriticOfDraft(c) && DraftOf(c) == P.LONE_DRAFT && Packed(c)
    ensures forall id :: id in c.store.artifacts ==> (IsStep(id, Critic) ==> id.key.phase.Initial?) && !IsStep(id, Repairer)
  {
    hide Passes, P.Aggregate, P.CriticStoragePolicy, P.LoneCritic, Sound, Extends, SaveFailure, RepairProof, Prechecked;
    var w := PlainWorld();
    P.LoneDraftIsValid();
    LoneDraftPasses();
    events, c := ToPrechecks(w, P.LONE_DRAFT);
    events, c := Pass(w, events, c, P.LONE_DRAFT, 0, 5, 3);
    events, c := Judge(w, events, c, 0, P.Partial, 6, 4);
    LonePolicy(w, c, 0, P.Partial);
    events, c := Extend(w, events, c, Finish(CHOICE));
  }

  /** The repair node before its model step, with the repair bought. */
  predicate ReadyToRepair(c: Conf) {
    && c.node.RepairNode? && CallOf(c, 0).Ok? && Paid(c) && CallOf(c, 0).value.role == Repairer && Packed(c)
    && FirstOf(CallOf(c, 0).value) !in c.store.artifacts
    && forall id :: id in c.store.artifacts && IsStep(id, Critic) ==> id.key.phase.Initial?
  }

  lemma BoughtIsPaid(w: World, c: Conf)
    requires Inv(w, c) && c.node.RepairNode? && c.store == BoughtRepair(c).value && BoughtRepair(c).Ok?
    ensures Paid(c) && CallOf(c, 0).Ok? && CallOf(c, 0).value.role == Repairer
  {
    hide Sound, Prechecked, AtNode, BudgetOk, Extends;
    RepairIsGranted(w, c);
  }

  lemma ToPaidRepair() returns (events: seq<Event>, c: Conf)
    ensures Way(PlainWorld(), events, c, RepairNode, 8, 5) && ReadyToRepair(c)
  {
    hide Inv, CallOf, BoughtRepair, Extends, Sound, CriticOfDraft;
    var w := PlainWorld();
    events, c := ToRepair();
    var before := c;
    ExecKeepsInv(w, events);
    RepairIsGranted(w, before);
    events, c := Extend(w, events, c, BuyRepair);
    ExecKeepsInv(w, events);
    BuyingTwice(w, before);
    BoughtIsPaid(w, c);
    CallsRepairer(c);
  }

  lemma BuyingTwice(w: World, c: Conf)
    requires Inv(w, c) && c.node.RepairNode? && BoughtRepair(c).Ok? && Inv(w, On(c, BoughtRepair(c).value))
    ensures var d := On(c, BoughtRepair(c).value);
            BoughtRepair(d) == Ok(d.store) && d.store.artifacts == c.store.artifacts && d.store.pack == c.store.pack
  {
    hide Sound, Prechecked, AtNode, BudgetOk, Extends, RepairProof;
    RepairIsGranted(w, c);
    RepairIsGranted(w, On(c, BoughtRepair(c).value));
  }

  lemma CallsRepairer(c: Conf)
    requires c.node.RepairNode? && CallOf(c, 0).Ok?
    ensures IsStep(FirstOf(CallOf(c, 0).value), Repairer)
  {
  }

  /** The repair node with its answer in the store goes on to the precheck of the second draft. */
  lemma Repair(w: World, c: Conf, d: P.Draft)
    requires Inv(w, c) && w.groups(PACK).Some? && c.node.RepairNode? && CallOf(c, 0).Ok? && Paid(c) && Packed(c)
    requires c.store.artifacts[FirstOf(CallOf(c, 0).value) := Completed(RunStore.Drafted(d))] == c.store.artifacts
    requires FirstOf(CallOf(c, 0).value) in c.store.artifacts
    requires forall id :: id in c.store.artifacts && IsStep(id, Critic) ==> id.key.phase.Initial?
    ensures RunRepair(w, c).Ok?
    ensures var r := RunRepair(w, c).value;
            r.node == Prechecks && r.steps == c.steps + 1 && r.store == c.store && Drafted(r, d, 1) && r.st.outcome == c.st.outcome
  {
    hide Sound, Prechecked, BudgetOk, Decide, Passes, RepairProof, RepairGranted;
  }

  lemma ToSecondDraft() returns (events: seq<Event>, c: Conf)
    ensures Way(PlainWorld(), events, c, Prechecks, 9, 6) && Drafted(c, P.LONE_DRAFT, 1)
  {
    hide Inv, CallOf, BoughtRepair, P.DraftSchema, Drafted, RunRepair, Decided;
    var w := PlainWorld();
    events, c := ToPaidRepair();
    var call := CallOf(c, 0).value;
    var before := c;
    ExecKeepsInv(w, events);
    P.LoneDraftIsValid();
    events, c := Bring(w, events, c, RunStore.Drafted(P.LONE_DRAFT));
    ExecKeepsInv(w, events);
    StillPaid(w, before, c);
    Repair(w, c, P.LONE_DRAFT);
    events, c := Extend(w, events, c, Finish(CHOICE));
  }

  lemma StillPaid(w: World, c: Conf, d: Conf)
    requires Inv(w, c) && Inv(w, d) && c.node.RepairNode? && CallOf(c, 0).Ok? && Paid(c)
    requires d == On(c, d.store) && d.store.pack == c.store.pack && d.store.repair == c.store.repair && Extends(c.store, d.store)
    ensures Paid(d) && CallOf(d, 0) == CallOf(c, 0)
  {
    hide Sound, Prechecked, BudgetOk, Decide, Passes, RepairProof;
    RepairIsGranted(w, c);
    RepairIsGranted(w, d);
  }

  lemma ToRendering() returns (events: seq<Event>, c: Conf)
    ensures Way(PlainWorld(), events, c, Renderer, 12, 8) && Passes(PlainWorld(), P.LONE_DRAFT, PACK) && CriticOfDraft(c)
    ensures Packed(c) && DraftOf(c) == P.LONE_DRAFT && CriticOf(c) == P.LoneCritic(P.Yes) && c.st.repairAttempts == 1
  {
    hide Passes, P.Aggregate, P.CriticStoragePolicy, P.LoneCritic, Sound, Extends, SaveFailure, RepairProof, Prechecked;
    var w := PlainWorld();
    LoneDraftPasses();
    events, c := ToSecondDraft();
    events, c := Pass(w, events, c, P.LONE_DRAFT, 1, 9, 6);
    events, c := Judge(w, events, c, 1, P.Yes, 10, 7);
    LonePolicy(w, c, 1, P.Yes);
    events, c := Extend(w, events, c, Finish(CHOICE));
  }

  /** The bound on the nodes of a run is attained by a run that completes. */
  lemma LongestRunCompletes()
    ensures exists events :: Exec(PlainWorld(), events).st.outcome == Some(Outcome.Answered)
                             && Exec(PlainWorld(), events).steps == 13 && Exec(PlainWorld(), events).st.repairAttempts == 1
  {
    hide Passes, P.Aggregate, P.CriticStoragePolicy, P.LoneCritic, Sound, Extends, SaveFailure, RepairProof, Prechecked;
    var w := PlainWorld();
    var events, c := ToRendering();
    LonePolicy(w, c, 1, P.Yes);
    events, c := Extend(w, events, c, Finish(CHOICE));
  }

  // ---------------------------------------------------------------- refusals that are turned down

  /** The number five, cited from an excerpt without it. */
  const FIVE := P.Draft(P.Answer, [P.Claim("c", "5", ["e"])])

  lemma FiveIsWellFormed()
    ensures P.DraftSchema(FIVE) && P.Bound(FIVE, PACK.units.Keys) && P.NoRepeats(FIVE)
  {
    hide P.PrecheckFailure;
    assert !Texts.IsSpace("5"[0]) && !Texts.IsSpace("c"[0]) && !Texts.IsSpace("e"[0]);
    assert P.Ids(["e"]) == PACK.units.Keys;
  }

  lemma FiveIsNotThere()
    ensures !P.NumbersCited(FIVE.claims[0], PACK.units)
  {
    NoNumbers("x");
    var m := (0, 1);
    assert Numeric.RunEnd("5", 1) == 1 && Numeric.RunEnd("5", 0) == 1;
    assert Numeric.MatchEnd("5", 0) == Some(1);
    assert m in Numeric.Matches("5", 0);
    assert !P.NumberCited(FIVE.claims[0], 0, PACK.units);
  }

  lemma FiveIsUncited()
    ensures P.DraftSchema(FIVE) && P.Bound(FIVE, PACK.units.Keys) && P.NoRepeats(FIVE)
    ensures PrecheckOn(PlainWorld(), FIVE, PACK) == Some(P.VerificationFailed)
  {
    hide P.ContextCited, P.InContext, P.DraftSchema, P.Bound, P.NoRepeats, P.NumbersCited;
    FiveIsWellFormed();
    FiveIsNotThere();
  }

  lemma ToRefusedFive() returns (events: seq<Event>, c: Conf)
    ensures Way(PlainWorld(), events, c, FailureNode, 6, 4) && Packed(c) && ReadsDraft(c) && DraftOf(c) == FIVE
    ensures c.st.decisionId == Some(PrecheckId(c))
  {
    hide P.PrecheckFailure, P.DraftSchema, Sound, Prechecked, SaveFailure, Extends, P.Bound, P.NoRepeats;
    var w := PlainWorld();
    FiveIsUncited();
    events, c := ToPrechecks(w, FIVE);
    var before := c;
    ExecKeepsInv(w, events);
    PrecheckIsSaved(w, c);
    if SaveFailure(c.store, PrecheckId(c), PrecheckContent(false)) == Some(CapacityExceeded) {
      CapIsReached(c.store, PrecheckId(c), PrecheckContent(false));
    }
    events, c := Extend(w, events, c, Finish(CHOICE));
    ReadsGrow(before, c.store);
  }

  /** A number no cited excerpt contains: the program refuses the draft, and the database turns that refusal down. */
  lemma UncitedNumberIsTurnedDown()
    ensures exists events :: Exec(PlainWorld(), events).st.outcome == Some(Refused(VerificationFailure))
                             && !Accepted(PlainWorld(), Exec(PlainWorld(), events))
  {
    hide P.PrecheckFailure, P.DraftSchema, P.Bound, P.NoRepeats, Accepts;
    var w := PlainWorld();
    FiveIsUncited();
    var events, c := ToRefusedFive();
    events, c := Extend(w, events, c, Finish(CHOICE));
    RefusalsAreJustified(w, events);
    assert UnseenByDatabase(c.store, c.st.decisionId.value);
  }

  // ---------------------------------------------------------------- a router without its retry

  const BROKEN := ModelError(OutputSchemaInvalid, Contract)

  /** One saved reply of the router that breaks the contract. */
  lemma Break(w: World, events: seq<Event>, c: Conf, input: nat) returns (events': seq<Event>, c': Conf)
    requires Exec(w, events) == c && c.node.RouterNode? && |c.store.artifacts| < 20
    requires StepId(Router, Initial, Identity(input, None, []), 0) !in c.store.artifacts
    ensures Exec(w, events') == c'
    ensures c' == On(c, Saved(c.store, StepId(Router, Initial, Identity(input, None, []), 0), Failed(OutputSchemaInvalid, Contract, 0)))
  {
    hide Inv, SaveFailure;
    ExecKeepsInv(w, events);
    AskedIsSavable(w, c, input, false, BROKEN);
    var id, content := StepId(Router, Initial, Identity(input, None, []), 0), Failed(OutputSchemaInvalid, Contract, 0);
    if SaveFailure(c.store, id, content) == Some(CapacityExceeded) { CapIsReached(c.store, id, content); }
    events', c' := Extend(w, events, c, Ask(input, false, BROKEN));
  }

  function RouterAttempt(input: nat): ArtifactId {
    StepId(Router, Initial, Identity(input, None, []), 0)
  }

  lemma ToBrokenRouter() returns (events: seq<Event>, c: Conf)
    ensures Exec(PlainWorld(), events) == c && c.node.RouterNode? && RetryLost(c.store, RouterAttempt(1))
    ensures c.store.artifacts[RouterAttempt(1)] == Failed(OutputSchemaInvalid, Contract, 0)
  {
    hide SaveFailure;
    var w := PlainWorld();
    events, c := [], INITIAL;
    events, c := Extend(w, events, c, Finish(CHOICE));
    events, c := Break(w, events, c, 0);
    events, c := Extend(w, events, c, Buy(0));
    events, c := Break(w, events, c, 1);
  }

  /**
   A router breaks the contract and its retry is bought; the process dies, and the next one prepares another input.  When the
   router breaks the contract again there is no retry, and the database turns the refusal down.
   */
  lemma LostRetryIsTurnedDown()
    ensures exists events :: Exec(PlainWorld(), events).st.outcome == Some(Refused(VerificationFailure))
                             && !Accepted(PlainWorld(), Exec(PlainWorld(), events))
  {
    hide Accepts;
    var w := PlainWorld();
    var events, c := ToBrokenRouter();
    events, c := Extend(w, events, c, Finish(CHOICE.(input := 1)));
    events, c := Extend(w, events, c, Finish(CHOICE));
    RefusalsAreJustified(w, events);
  }
}
