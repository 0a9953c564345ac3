/** What every checkpoint of every execution of the answer graph satisfies, and what the database makes of its outcome. */
module AnswerGraphSafety {
  import opened Common
  import opened RunStore
  import opened RunStoreSafety
  import opened ModelStep
  import opened AnswerGraph
  import P = Policy

  // ---------------------------------------------------------------- refusals the database turns down

  /** The program found the draft unfit, but sources and texts alone show the database nothing wrong with it. */
  predicate UnseenByDatabase(s: Store, d: ArtifactId) {
    && s.pack.Some? && d.key.PrecheckOf? && |d.identity.parents| == 1 && HasDraft(s, d.identity.parents[0])
    && DraftBound(DraftAt(s, d.identity.parents[0]), s.pack.value) && DraftAt(s, d.identity.parents[0]).disposition.Answer?
  }

  /** The two kinds of decision that the database does not take for a proof. */
  predicate FalseAlarm(s: Store, d: ArtifactId) {
    UnseenByDatabase(s, d) || (IsStep(d, Router) && RetryLost(s, d))
  }

  /** A decided refusal: stored artifacts, and accepted unless it is a false alarm. */
  predicate RefusalReady(w: World, c: Conf) {
    && ProofStored(c.store, ProofOf(c.st)) && c.st.decisionId.Some?
    && (AcceptsFailure(c.store, ProofOf(c.st), c.st.decisionId.value) <==> !FalseAlarm(c.store, c.st.decisionId.value))
    && (c.st.decisionId.value.key.PrecheckOf? ==> PrecheckRefused(w, c))
  }

  /** The refusing precheck stands on the current draft, which indeed does not pass. */
  predicate PrecheckRefused(w: World, c: Conf) {
    && ReadsDraft(c) && c.st.decisionId == Some(PrecheckId(c)) && !Passes(w, DraftOf(c), c.store.pack.value)
    && (PrecheckOn(w, DraftOf(c), c.store.pack.value).Some? ==>
          PrecheckOn(w, DraftOf(c), c.store.pack.value).value == P.VerificationFailed)
  }

  // ---------------------------------------------------------------- invariant

  /** The current draft is the drafter's answer before the repair, and the repair's draft after it. */
  predicate DraftReady(c: Conf) {
    && ReadsDraft(c) && IsStep(c.st.draftId.value, if c.st.repairAttempts == 0 then Drafter else Repairer)
    && (c.st.repairAttempts == 0 ==> DraftOf(c).disposition.Answer?)
  }

  predicate DraftPassed(w: World, c: Conf) {
    DraftReady(c) && Passes(w, DraftOf(c), c.store.pack.value)
  }

  predicate Undrafted(st: GraphState) {
    st.repairAttempts == 0 && st.draftId.None? && st.criticId.None?
  }

  /** The policy decided on the current critic. */
  predicate Chosen(w: World, c: Conf, action: P.Action) {
    DraftPassed(w, c) && CriticOfDraft(c) && Decide(w, c).Ok? && Decide(w, c).value.action == action
  }

  predicate AtNode(w: World, c: Conf) {
    match c.node
    case Load => c.st == START && c.store == EMPTY
    case RouterNode => c.st == START.(nextAction := Some(To(RouterNode))) && w.versions > 0
    case Retriever =>
      && Undrafted(c.st) && (w.versions > 0 ==> ReadsRoute(c))
      && (w.versions == 0 && c.store.pack.Some? ==> c.store.pack.value.units == map[])
    case BuildContext => Undrafted(c.st) && PackIs(c) && c.store.pack.value.units != map[] && w.versions > 0
    case DrafterNode => Undrafted(c.st) && PackIs(c) && w.versions > 0
    case Prechecks => DraftReady(c) && w.versions > 0 && c.st.criticId.None?
    case CriticNode => DraftPassed(w, c) && ReadsPrecheck(c) && w.versions > 0 && c.st.nextAction == Some(To(CriticNode))
    case PolicyNode => DraftPassed(w, c) && CriticOfDraft(c) && w.versions > 0
    case RepairNode =>
      && Chosen(w, c, P.Action.Repair) && c.st.repairAttempts == 0 && w.versions > 0 && c.st.nextAction == Some(To(RepairNode))
      && c.st.decisionId.Some? && RepairProof(c.store, c.st.decisionId.value) == c.st.criticId
    case Renderer => Chosen(w, c, P.Render) && c.st.decisionId == c.st.criticId && w.versions > 0
    case DefaultIntent => Accepts(c.store, w.versions, Refused(OutOfScope), ProofOf(c.st))
    case NoContext => Accepts(c.store, w.versions, Refused(NoRelevantContext), ProofOf(c.st))
    case FailureNode => RefusalReady(w, c)
    case Finished => c.st.outcome.Some? && OutcomeReady(w, c, c.st.outcome.value)
  }

  predicate OutcomeReady(w: World, c: Conf, outcome: Outcome) {
    match outcome
    case Answered => Chosen(w, c, P.Render) && c.st.decisionId == c.st.criticId && Accepts(c.store, w.versions, outcome, ProofOf(c.st))
    case Refused(VerificationFailure) => RefusalReady(w, c)
    case Refused(_) => Accepts(c.store, w.versions, outcome, ProofOf(c.st))
  }

  /** The repair is bought by the repair node, for its decision, and spent exactly from then on. */
  predicate BudgetOk(c: Conf) {
    && (c.st.repairAttempts == 0 || c.st.repairAttempts == 1)
    && (c.st.repairAttempts == 1 ==> c.store.repair.Some?)
    && (c.store.repair.Some? ==>
          || c.st.repairAttempts == 1
          || (c.node.RepairNode? && c.st.decisionId == Some(c.store.repair.value.decision))
          || c.node.FailureNode?
          || (c.node.Finished? && c.st.outcome == Some(Refused(VerificationFailure))))
  }

  /** Every precheck in the store says what the precheck of its draft says. */
  predicate Prechecked(w: World, s: Store) {
    forall id :: id in s.artifacts && id.key.PrecheckOf? ==> PrecheckTells(w, s, id)
  }

  predicate PrecheckTells(w: World, s: Store, id: ArtifactId)
    requires id in s.artifacts
  {
    && s.pack.Some? && |id.identity.parents| == 1 && HasDraft(s, id.identity.parents[0])
    && s.artifacts[id] == PrecheckContent(Passes(w, DraftAt(s, id.identity.parents[0]), s.pack.value))
  }

  /** Steps still possible from a checkpoint; a second pass through the checks has only shorter paths left. */
  function Remaining(c: Conf): nat {
    var first := c.st.repairAttempts == 0;
    match c.node
    case Load => 13
    case RouterNode => 12
    case Retriever => 11
    case BuildContext => 10
    case DrafterNode => 9
    case Prechecks => if first then 8 else 4
    case CriticNode => if first then 7 else 3
    case PolicyNode => if first then 6 else 2
    case RepairNode => 5
    case Renderer => 1
    case DefaultIntent => 1
    case NoContext => 1
    case FailureNode => 1
    case Finished => 0
  }

  predicate Inv(w: World, c: Conf) {
    && Sound(c.store) && Prechecked(w, c.store) && AtNode(w, c) && BudgetOk(c) && c.steps + Remaining(c) <= 13
    && (c.st.packId.Some? ==> PackIs(c))
    && (c.st.outcome.Some? ==> c.node.Finished?)
  }

  // ---------------------------------------------------------------- the store grows under a node

  /** Another store in the same checkpoint. */
  function On(c: Conf, t: Store): Conf {
    c.(store := t)
  }

  /** A model step, the retriever, the precheck or the policy may leave something in the store. */
  predicate Leaves(node: Node) {
    node.RouterNode? || node.Retriever? || node.DrafterNode? || node.Prechecks? || node.CriticNode? || node.PolicyNode? || node.RepairNode?
  }

  lemma ReadsGrow(c: Conf, t: Store)
    requires Extends(c.store, t)
    ensures c.store.pack.Some? ==> t.pack == c.store.pack
    ensures PackIs(c) ==> PackIs(On(c, t))
    ensures ReadsDraft(c) ==> ReadsDraft(On(c, t)) && DraftOf(On(c, t)) == DraftOf(c)
    ensures ReadsCritic(c) ==> ReadsCritic(On(c, t)) && CriticOf(On(c, t)) == CriticOf(c)
    ensures ReadsPrecheck(c) ==> ReadsPrecheck(On(c, t))
    ensures ReadsRoute(c) ==> ReadsRoute(On(c, t))
  {
  }

  lemma GrowthKeepsNode(w: World, c: Conf, t: Store)
    requires AtNode(w, c) && Leaves(c.node) && Extends(c.store, t)
    requires c.node.Retriever? && c.store.pack.None? && t.pack.Some? && w.versions == 0 ==> t.pack.value.units == map[]
    ensures AtNode(w, On(c, t))
  {
    hide Passes, P.Aggregate, RepairProof, Extends;
    ReadsGrow(c, t);
    if c.node.RepairNode? {
      RepairProofGrows(c.store, t, c.st.decisionId.value);
    }
  }

  lemma PrecheckedGrows(w: World, s: Store, t: Store)
    requires Prechecked(w, s) && Extends(s, t)
    requires forall id :: id in t.artifacts && id !in s.artifacts && id.key.PrecheckOf? ==> PrecheckTells(w, t, id)
    ensures Prechecked(w, t)
  {
    hide Passes;
    forall id | id in t.artifacts && id.key.PrecheckOf? ensures PrecheckTells(w, t, id) {
      if id in s.artifacts { assert PrecheckTells(w, s, id); }
    }
  }

  lemma ExtendsItself(s: Store)
    ensures Extends(s, s)
  {
  }

  /** A node that leaves something behind stays where it is, with everything it knew. */
  lemma GrowthKeepsInv(w: World, c: Conf, t: Store)
    requires Inv(w, c) && Leaves(c.node) && Extends(c.store, t) && Sound(t)
    requires t.repair == c.store.repair
             || (c.node.RepairNode? && t.repair.Some? && c.st.decisionId == Some(t.repair.value.decision))
    requires c.node.Retriever? && c.store.pack.None? && t.pack.Some? && w.versions == 0 ==> t.pack.value.units == map[]
    requires forall id :: id in t.artifacts && id !in c.store.artifacts && id.key.PrecheckOf? ==> PrecheckTells(w, t, id)
    ensures Inv(w, On(c, t))
  {
    hide AtNode, Sound, PrecheckTells, Extends;
    GrowthKeepsNode(w, c, t);
    PrecheckedGrows(w, c.store, t);
    ReadsGrow(c, t);
  }

  // ---------------------------------------------------------------- model steps

  /** The critic of a drafter's draft is a first critic. */
  lemma CriticPhase(s: Store, id: ArtifactId)
    requires Sound(s) && id in s.artifacts && IsStep(id, Critic)
    requires |id.identity.parents| == 1 && IsStep(id.identity.parents[0], Drafter)
    ensures id.key.phase.Initial?
  {
    assert SoundAt(s, id, s.artifacts[id]);
  }

  lemma CallIsShaped(w: World, c: Conf, input: nat)
    requires Inv(w, c) && CallOf(c, input).Ok? && Paid(c)
    ensures var call := CallOf(c, input).value;
            IdentityKnown(c.store, call.identity) && Shaped(c.store, FirstOf(call)) && Shaped(c.store, SecondOf(call))
  {
    hide Passes, Decide, Prechecked, RepairProof, StoreOk, ArtifactsSound, RepairSound;
    if c.node.RepairNode? {
      CriticPhase(c.store, c.st.criticId.value);
    }
  }

  lemma DeliveredIsValued(w: World, c: Conf, input: nat, reply: Reply, id: ArtifactId)
    requires Inv(w, c) && CallOf(c, input).Ok?
    requires id == FirstOf(CallOf(c, input).value) || id == SecondOf(CallOf(c, input).value)
    ensures var content := ContentOf(Delivered(c, CallOf(c, input).value.role, reply), id.key.attempt);
            content.Some? ==> Valued(c.store, id, content.value)
  {
    hide Passes, Sound, Prechecked, AtNode, BudgetOk;
  }

  lemma AskedStaysSound(w: World, c: Conf, input: nat, second: bool, reply: Reply)
    requires Inv(w, c) && CallOf(c, input).Ok? && Paid(c)
    ensures var t := AskedBy(c, CallOf(c, input).value, second, reply);
            Sound(t) && Extends(c.store, t) && t.repair == c.store.repair && t.pack == c.store.pack
    ensures var t := AskedBy(c, CallOf(c, input).value, second, reply);
            forall id :: id in t.artifacts && id !in c.store.artifacts ==> id.key.Step?
  {
    hide AtNode, BudgetOk, Prechecked, ArtifactsSound, RepairSound, StoreOk, Delivered, SaveFailure, Shaped, Valued, Extends;
    var call := CallOf(c, input).value;
    var a0, a1, delivered := FirstOf(call), SecondOf(call), Delivered(c, call.role, reply);
    var id, t := if second then a1 else a0, AskedBy(c, call, second, reply);
    CallIsShaped(w, c, input);
    DeliveredIsValued(w, c, input, reply, id);
    if second { AfterSecondKeepsStore(c.store, a0, a1, delivered); } else { AfterFirstKeepsStore(c.store, a0, delivered); }
    if t != c.store {
      SavedKeepsSound(c.store, id, ContentOf(delivered, id.key.attempt).value);
    }
  }

  /**
   Whatever the model replies, the database does not refuse to save it, except for the cap on artifacts and for a failure
   that is no failure of the model: parents, pack, payload and retry are in order.
   */
  lemma AskedIsSavable(w: World, c: Conf, input: nat, second: bool, reply: Reply)
    requires Inv(w, c) && CallOf(c, input).Ok? && Paid(c)
    requires second ==> MayRetry(c.store, FirstOf(CallOf(c, input).value))
    ensures var call := CallOf(c, input).value;
            var id := if second then SecondOf(call) else FirstOf(call);
            var content := ContentOf(Delivered(c, call.role, reply), id.key.attempt);
            id !in c.store.artifacts && content.Some? ==>
              var error := SaveFailure(c.store, id, content.value);
              error.None? || error == Some(CapacityExceeded)
              || (error == Some(InvalidFailure) && content.value.Failed? && content.value.code == InvalidRequest)
  {
    hide Passes, Decide, Prechecked, RepairProof, ArtifactsSound, RepairSound, P.ValidCritic, CriticBound, StoreOk;
    var call := CallOf(c, input).value;
    var id := if second then SecondOf(call) else FirstOf(call);
    var content := ContentOf(Delivered(c, call.role, reply), id.key.attempt);
    CallIsShaped(w, c, input);
    if id !in c.store.artifacts && content.Some? {
      ValueIsValid(w, c, input, second, reply);
      NoRetryError(c, call, second);
      NoKindError(w, c, input, id, content.value, reply);
    }
  }

  lemma ValueIsValid(w: World, c: Conf, input: nat, second: bool, reply: Reply)
    requires Inv(w, c) && CallOf(c, input).Ok?
    ensures var call := CallOf(c, input).value;
            var id := if second then SecondOf(call) else FirstOf(call);
            var content := ContentOf(Delivered(c, call.role, reply), id.key.attempt);
            content.Some? && content.value.Completed? ==> ValidValue(c.store, id, content.value.value)
  {
    hide AtNode, Sound, Prechecked, BudgetOk;
  }

  lemma NoRetryError(c: Conf, call: ModelCall, second: bool)
    requires Sound(c.store) && (second ==> MayRetry(c.store, FirstOf(call)) && SecondOf(call) !in c.store.artifacts)
    ensures RetryError(c.store, if second then SecondOf(call) else FirstOf(call)).None?
  {
    hide ArtifactsSound, RepairSound;
    if second {
      forall x | x in c.store.artifacts && IsStep(x, call.role)
        ensures IsSecond(x) ==> c.store.schema[call.role] == StepId(call.role, x.key.phase, x.identity, 0)
      {
      }
    }
  }

  lemma NoKindError(w: World, c: Conf, input: nat, id: ArtifactId, content: Content, reply: Reply)
    requires Inv(w, c) && CallOf(c, input).Ok? && Paid(c)
    requires id == FirstOf(CallOf(c, input).value) || id == SecondOf(CallOf(c, input).value)
    requires Shaped(c.store, id) && IdentityKnown(c.store, id.identity)
    requires ContentOf(Delivered(c, CallOf(c, input).value.role, reply), id.key.attempt) == Some(content)
    ensures IsStep(id, Router) || c.store.pack.Some?
    ensures KindError(c.store, id, content).None?
  {
    hide Passes, Decide, Prechecked, RepairProof, Sound, P.ValidCritic, CriticBound;
    if c.node.CriticNode? && content.Completed? {
      DeliveredIsValued(w, c, input, reply, id);
      PassedIsBound(w, c);
      ValidCriticIsBound(content.value.critic, DraftOf(c), c.store.pack.value);
    }
  }

  lemma PassedIsBound(w: World, c: Conf)
    requires DraftPassed(w, c)
    ensures DraftPublishable(DraftOf(c), c.store.pack.value) && w.groups(c.store.pack.value).Some?
  {
    PassingIsBound(DraftOf(c), c.store.pack.value, w.groups(c.store.pack.value));
  }

  lemma AskKeepsInv(w: World, c: Conf, input: nat, second: bool, reply: Reply)
    requires Inv(w, c)
    ensures Inv(w, Apply(w, c, Ask(input, second, reply))) && Extends(c.store, Apply(w, c, Ask(input, second, reply)).store)
  {
    hide Inv, AskedBy, Paid, Sound, PrecheckTells, Extends;
    ExtendsItself(c.store);
    if CallOf(c, input).Ok? && Paid(c) {
      AskedStaysSound(w, c, input, second, reply);
      GrowthKeepsInv(w, c, AskedBy(c, CallOf(c, input).value, second, reply));
    }
  }

  lemma BuyKeepsInv(w: World, c: Conf, input: nat)
    requires Inv(w, c)
    ensures Inv(w, Apply(w, c, Buy(input))) && Extends(c.store, Apply(w, c, Buy(input)).store)
  {
    hide AtNode, BudgetOk, Prechecked, StoreOk, ArtifactsSound, RepairSound, Paid, PrecheckTells, Extends;
    ExtendsItself(c.store);
    if CallOf(c, input).Ok? && Paid(c) {
      RetryKeepsSound(c.store, FirstOf(CallOf(c, input).value));
      GrowthKeepsInv(w, c, AfterRetry(c.store, FirstOf(CallOf(c, input).value)));
    }
  }

  predicate RepairBuyable(c: Conf) {
    && c.node.RepairNode? && BoughtRepair(c).Ok? && CallOf(c, 0).Ok? && c.st.criticId.Some?
    && Sound(BoughtRepair(c).value) && Extends(c.store, BoughtRepair(c).value)
    && BoughtRepair(c).value.repair == Some(Purchase(c.st.decisionId.value, c.st.criticId.value))
  }

  /** The repair of the repair node is granted, before and after it was bought. */
  lemma RepairIsGranted(w: World, c: Conf)
    requires Inv(w, c) && c.node.RepairNode?
    ensures RepairBuyable(c)
  {
    hide P.PrecheckFailure, Decide, Prechecked, ArtifactsSound, StoreOk, RepairProof, Extends;
    CriticPhase(c.store, c.st.criticId.value);
    RepairKeepsSound(c.store, c.st.decisionId.value);
  }

  lemma BuyRepairKeepsInv(w: World, c: Conf)
    requires Inv(w, c)
    ensures Inv(w, Apply(w, c, BuyRepair)) && Extends(c.store, Apply(w, c, BuyRepair).store)
  {
    hide Inv, Sound, PrecheckTells, Extends;
    ExtendsItself(c.store);
    if c.node.RepairNode? && CallOf(c, 0).Ok? {
      RepairIsGranted(w, c);
      GrowthKeepsInv(w, c, BoughtRepair(c).value);
    }
  }

  // ---------------------------------------------------------------- local artifacts

  /** Nothing but the cap on artifacts can keep a local artifact from being saved. */
  predicate LocalFits(s: Store, id: ArtifactId, c: Content) {
    && !id.key.Step? && id.identity.pack.Some? && IdentityKnown(s, id.identity)
    && (id in s.artifacts ==> s.artifacts[id] == c)
    && (c.Failed? ==> ValidFailure(c)) && (c.Completed? ==> ValidValue(s, id, c.value))
    && s.pack.Some? && KindError(s, id, c).None?
  }

  lemma LocalIsSaved(s: Store, id: ArtifactId, c: Content)
    requires Sound(s) && LocalFits(s, id, c) && SoundAt(s, id, c)
    ensures SaveLocal(s, id, c) != Err(Mismatch)
    ensures SaveLocal(s, id, c).Ok? ==>
              var t := SaveLocal(s, id, c).value;
              Sound(t) && Extends(s, t) && t == Saved(s, id, c)
  {
    hide SoundAt, ArtifactsSound, RepairSound, Extends, StoreOk, KindError, ValidValue;
    if SaveLocal(s, id, c).Ok? {
      LocalKeepsSteps(s, id, c);
      SavedKeepsSound(s, id, c);
    }
  }

  lemma RetrievalIsSaved(s: Store)
    requires Sound(s) && s.pack.Some?
    ensures var p := s.pack.value; var r := SaveLocal(s, RetrievalId(p), Completed(Retrieved(p.units == map[])));
            r != Err(Mismatch)
            && (r.Ok? ==> Sound(r.value) && Extends(s, r.value)
                          && r.value == Saved(s, RetrievalId(p), Completed(Retrieved(p.units == map[]))))
  {
    hide StoreOk, RepairSound;
    var p := s.pack.value;
    var id, content := RetrievalId(p), Completed(Retrieved(p.units == map[]));
    if id in s.artifacts { assert SoundAt(s, id, s.artifacts[id]); }
    LocalIsSaved(s, id, content);
  }

  lemma PrecheckIsSaved(w: World, c: Conf)
    requires Inv(w, c) && c.node.Prechecks?
    ensures SavePrecheck(w, c) != Err(Mismatch)
    ensures SavePrecheck(w, c).Ok? ==>
              var t, content := SavePrecheck(w, c).value, PrecheckContent(Passes(w, DraftOf(c), c.store.pack.value));
              Sound(t) && Extends(c.store, t) && t == Saved(c.store, PrecheckId(c), content) && PrecheckTells(w, t, PrecheckId(c))
  {
    hide StoreOk, ArtifactsSound, RepairSound, DraftBound, Extends, P.PrecheckFailure;
    var d, p := DraftOf(c), c.store.pack.value;
    var id, content := PrecheckId(c), PrecheckContent(Passes(w, d, p));
    if id in c.store.artifacts { assert PrecheckTells(w, c.store, id); }
    if Passes(w, d, p) { PassingIsBound(d, p, w.groups(p)); }
    assert LocalFits(c.store, id, content);
    LocalIsSaved(c.store, id, content);
  }

  /** The policy node comes to a decision. */
  predicate Deciding(w: World, c: Conf) {
    c.node.PolicyNode? && CriticOfDraft(c) && Decide(w, c).Ok? && Inv(w, c)
  }

  /** The decision is not the critic's own policy. */
  predicate Beyond(w: World, c: Conf) {
    CriticOfDraft(c) && Decide(w, c).Ok? && Decide(w, c).value.action != P.CriticStoragePolicy(CriticOf(c))
  }

  function RulingOf(w: World, c: Conf): ArtifactId
    requires CriticOfDraft(c) && Decide(w, c).Ok?
  {
    RulingId(c, Decide(w, c).value, P.CriticStoragePolicy(CriticOf(c)))
  }

  lemma RulingIsSaved(w: World, c: Conf)
    requires Deciding(w, c) && Beyond(w, c)
    ensures var id := RulingOf(w, c);
            var r := SaveLocal(c.store, id, Completed(Ruled));
            r != Err(Mismatch)
            && (r.Ok? ==> Sound(r.value) && Extends(c.store, r.value) && r.value == Saved(c.store, id, Completed(Ruled)))
  {
    hide StoreOk, RepairSound, Extends, P.PrecheckFailure, P.Aggregate, P.CriticStoragePolicy, Prechecked;
    var d, p, raw := DraftOf(c), c.store.pack.value, P.CriticStoragePolicy(CriticOf(c));
    BeyondIsShaped(d, CriticOf(c), p.units.Keys, PrecheckOn(w, d, p), w.missing(d, p), c.st.repairAttempts);
    var id := RulingOf(w, c);
    if id in c.store.artifacts { assert SoundAt(c.store, id, c.store.artifacts[id]); }
    LocalIsSaved(c.store, id, Completed(Ruled));
  }

  lemma LeaveLocalKeepsInv(w: World, c: Conf)
    requires Inv(w, c)
    ensures Inv(w, Apply(w, c, LeaveLocal)) && Extends(c.store, Apply(w, c, LeaveLocal).store)
  {
    hide Inv, Extends, RunPolicy, SavePrecheck, SaveLocal;
    ExtendsItself(c.store);
    match c.node
    case Retriever => LeaveRetrieval(w, c);
    case Prechecks => LeavePrecheck(w, c);
    case PolicyNode => LeaveRuling(w, c);
    case _ =>
  }

  lemma LeaveRetrieval(w: World, c: Conf)
    requires Inv(w, c) && c.node.Retriever?
    ensures Inv(w, On(c, LocalLeft(w, c))) && Extends(c.store, LocalLeft(w, c))
  {
    hide AtNode, BudgetOk, Prechecked, Extends, PrecheckTells, StoreOk, ArtifactsSound, RepairSound, SaveLocal;
    ExtendsItself(c.store);
    if c.store.pack.Some? {
      RetrievalIsSaved(c.store);
    }
    if LocalLeft(w, c) != c.store {
      GrowthKeepsInv(w, c, LocalLeft(w, c));
    }
  }

  lemma LeavePrecheck(w: World, c: Conf)
    requires Inv(w, c) && c.node.Prechecks?
    ensures Inv(w, On(c, LocalLeft(w, c))) && Extends(c.store, LocalLeft(w, c))
  {
    hide Inv, Extends, PrecheckTells, Sound, SavePrecheck;
    ExtendsItself(c.store);
    PrecheckIsSaved(w, c);
    if SavePrecheck(w, c).Ok? {
      GrowthKeepsInv(w, c, LocalLeft(w, c));
    }
  }

  lemma LeaveRuling(w: World, c: Conf)
    requires Inv(w, c) && c.node.PolicyNode?
    ensures Inv(w, On(c, LocalLeft(w, c))) && Extends(c.store, LocalLeft(w, c))
  {
    hide Inv, Extends, PrecheckTells, Sound, SaveLocal, Decide, P.CriticStoragePolicy;
    ExtendsItself(c.store);
    PolicyReads(w, c);
    if RunPolicy(w, c).Ok? && RunPolicy(w, c).value.store != c.store {
      RulingIsSaved(w, c);
      GrowthKeepsInv(w, c, LocalLeft(w, c));
    }
  }

  lemma LeavePackKeepsInv(w: World, c: Conf, p: Pack)
    requires Inv(w, c)
    ensures Inv(w, Apply(w, c, LeavePack(p))) && Extends(c.store, Apply(w, c, LeavePack(p)).store)
  {
    hide Inv, Extends, PrecheckTells, Sound;
    ExtendsItself(c.store);
    if c.node.Retriever? && c.store.pack.None? && (w.versions > 0 ==> ReadsRoute(c)) {
      InvIsSound(w, c);
      PackKeepsSound(c.store, Found(w, p));
      GrowthKeepsInv(w, c, c.store.(pack := Some(Found(w, p))));
    }
  }

  lemma InvIsSound(w: World, c: Conf)
    requires Inv(w, c)
    ensures Sound(c.store)
  {
  }

  // ---------------------------------------------------------------- one node at a time

  predicate NodeKeeps(w: World, c: Conf, ch: Choice) {
    && RunNode(w, c, ch) != Err(Mismatch)
    && (RunNode(w, c, ch).Ok? ==> Inv(w, RunNode(w, c, ch).value) && Extends(c.store, RunNode(w, c, ch).value.store))
  }

  /** A rejected model step leaves a decided refusal. */
  lemma RejectedIsReady(w: World, c: Conf, role: Role, phase: Phase, identity: Identity, id: ArtifactId)
    requires Sound(c.store) && IdentityKnown(c.store, identity)
    requires Decided(c.store, role, phase, identity).Some? && Decided(c.store, role, phase, identity).value.Rejected?
    requires Decided(c.store, role, phase, identity).value.id == id
    ensures RefusalReady(w, c.(st := OutputRefusal(c.st, id), node := FailureNode, steps := c.steps + 1))
  {
    hide StoreOk, ArtifactsSound, RepairSound, AcceptsModelFailure, RetryLost;
    ModelFailureIsAccepted(c.store, id, role, phase, identity);
  }

  lemma DoneIsSound(s: Store, role: Role, phase: Phase, identity: Identity)
    requires Sound(s) && Decided(s, role, phase, identity).Some? && Decided(s, role, phase, identity).value.Done?
    ensures var r := Decided(s, role, phase, identity).value;
            && HasCompleted(s, r.id) && IsStep(r.id, role) && r.id.key.phase == phase && r.id.identity == identity
            && s.artifacts[r.id] == Completed(r.value) && SoundAt(s, r.id, Completed(r.value))
  {
    hide StoreOk, RepairSound, SoundAt;
    assert SoundAt(s, Decided(s, role, phase, identity).value.id, s.artifacts[Decided(s, role, phase, identity).value.id]);
  }

  lemma LoadKeeps(w: World, c: Conf, ch: Choice)
    requires Inv(w, c) && c.node.Load?
    ensures NodeKeeps(w, c, ch)
  {
    hide Sound, Prechecked;
  }

  lemma RouterKeeps(w: World, c: Conf, ch: Choice)
    requires Inv(w, c) && c.node.RouterNode?
    ensures NodeKeeps(w, c, ch)
  {
    hide StoreOk, ArtifactsSound, RepairSound, Prechecked, RefusalReady, Decided;
    var identity := Identity(ch.input, None, []);
    match Decided(c.store, Router, Initial, identity)
    case Some(Done(id, v)) => DoneIsSound(c.store, Router, Initial, identity);
    case Some(Rejected(id, _, _)) => RejectedIsReady(w, c, Router, Initial, identity, id);
    case _ =>
  }

  /** The retriever keeps a stored pack, stores what it found otherwise, and freezes it. */
  lemma RetrieverSaves(w: World, c: Conf, found: Pack)
    requires Inv(w, c) && c.node.Retriever?
    ensures RunRetriever(w, c, found) != Err(Mismatch)
    ensures RunRetriever(w, c, found).Ok? ==>
              var t := RunRetriever(w, c, found).value.store;
              && Sound(t) && Extends(c.store, t) && Prechecked(w, t) && t.repair == c.store.repair && t.pack.Some?
              && t.pack == Some(if c.store.pack.Some? then c.store.pack.value else Found(w, found))
              && t.artifacts == c.store.artifacts[RetrievalId(t.pack.value) := Completed(Retrieved(t.pack.value.units == map[]))]
  {
    hide StoreOk, ArtifactsSound, RepairSound, PrecheckTells, SaveLocal, Extends, ReadsRoute, RetrievalId;
    var s := if c.store.pack.Some? then c.store else c.store.(pack := Some(Found(w, found)));
    ExtendsItself(c.store);
    if c.store.pack.None? { PackKeepsSound(c.store, Found(w, found)); }
    RetrievalIsSaved(s);
    if RunRetriever(w, c, found).Ok? {
      var t := RunRetriever(w, c, found).value.store;
      ExtendsOn(c.store, s, t);
      NewIsRetrieval(s, t);
      PrecheckedGrows(w, c.store, t);
    }
  }

  lemma ExtendsOn(s: Store, t: Store, u: Store)
    requires Extends(s, t) && Extends(t, u)
    ensures Extends(s, u)
  {
  }

  lemma NewIsRetrieval(s: Store, t: Store)
    requires s.pack.Some? && t == Saved(s, RetrievalId(s.pack.value), Completed(Retrieved(s.pack.value.units == map[])))
    ensures forall id :: id in t.artifacts && id !in s.artifacts ==> id.key.RetrievalFrozen?
  {
  }

  lemma RetrieverKeeps(w: World, c: Conf, ch: Choice)
    requires Inv(w, c) && c.node.Retriever?
    ensures NodeKeeps(w, c, ch)
  {
    hide Sound, Prechecked, SaveLocal, Extends, ReadsRoute;
    RetrieverSaves(w, c, ch.pack);
  }

  lemma BuildContextKeeps(w: World, c: Conf, ch: Choice)
    requires Inv(w, c) && c.node.BuildContext?
    ensures NodeKeeps(w, c, ch)
  {
    hide StoreOk, ArtifactsSound, RepairSound, Prechecked;
  }

  lemma DrafterKeeps(w: World, c: Conf, ch: Choice)
    requires Inv(w, c) && c.node.DrafterNode?
    ensures NodeKeeps(w, c, ch)
  {
    hide StoreOk, ArtifactsSound, RepairSound, Prechecked, RefusalReady, Decided, P.DraftSchema;
    var identity := Identity(0, c.st.packId, []);
    match Decided(c.store, Drafter, Initial, identity)
    case Some(Done(id, v)) => DoneIsSound(c.store, Drafter, Initial, identity);
    case Some(Rejected(id, _, _)) => RejectedIsReady(w, c, Drafter, Initial, identity, id);
    case _ =>
  }

  /** A refused precheck is a proof for the database exactly where it can see what is wrong. */
  lemma PrecheckIsReady(w: World, c: Conf, t: Store)
    requires Inv(w, c) && c.node.Prechecks? && SavePrecheck(w, c) == Ok(t) && !Passes(w, DraftOf(c), c.store.pack.value)
    ensures var st := c.st.(precheckId := Some(PrecheckId(c)), decisionId := Some(PrecheckId(c)), nextAction := Some(To(FailureNode)));
            RefusalReady(w, c.(st := st, store := t, node := FailureNode, steps := c.steps + 1))
  {
    hide StoreOk, RepairSound, Prechecked, P.PrecheckFailure, DraftBound, SaveFailure;
    PrecheckIsSaved(w, c);
    var id := c.st.draftId.value;
    assert SoundAt(c.store, id, c.store.artifacts[id]);
  }

  lemma PrechecksKeep(w: World, c: Conf, ch: Choice)
    requires Inv(w, c) && c.node.Prechecks?
    ensures NodeKeeps(w, c, ch)
  {
    hide StoreOk, ArtifactsSound, RepairSound, P.PrecheckFailure, SavePrecheck, PrecheckTells, RefusalReady, Extends;
    PrecheckIsSaved(w, c);
    if SavePrecheck(w, c).Ok? {
      var t := SavePrecheck(w, c).value;
      ReadsGrow(c, t);
      PrecheckedGrows(w, c.store, t);
      if !Passes(w, DraftOf(c), c.store.pack.value) { PrecheckIsReady(w, c, t); }
    }
  }

  lemma CriticKeeps(w: World, c: Conf, ch: Choice)
    requires Inv(w, c) && c.node.CriticNode?
    ensures NodeKeeps(w, c, ch)
  {
    hide StoreOk, ArtifactsSound, RepairSound, P.PrecheckFailure, Prechecked, RefusalReady, Decided, JudgesDraft;
    var call := CallOf(c, 0).value;
    match Decided(c.store, call.role, call.phase, call.identity)
    case Some(Done(id, v)) => DoneIsSound(c.store, call.role, call.phase, call.identity);
    case Some(Rejected(id, _, _)) => RejectedIsReady(w, c, call.role, call.phase, call.identity, id);
    case _ =>
  }

  lemma DecisionRefines(w: World, c: Conf)
    requires CriticOfDraft(c) && Decide(w, c).Ok?
    ensures var action, raw := Decide(w, c).value.action, P.CriticStoragePolicy(CriticOf(c));
            && (action.Render? ==> raw.Render?)
            && (action.Repair? ==> c.st.repairAttempts == 0 && !raw.Refuse?)
            && (action.Refuse? && raw != action ==> c.st.repairAttempts != 0)
  {
    hide P.Aggregate, P.CriticStoragePolicy, P.PrecheckFailure;
    var d, p := DraftOf(c), c.store.pack.value;
    P.AggregateRefinesStoragePolicy(d, CriticOf(c), p.units.Keys, PrecheckOn(w, d, p), w.missing(d, p), c.st.repairAttempts);
  }

  /** The policy follows the critic, and the critic itself is the decision. */
  lemma PolicyFollows(w: World, c: Conf)
    requires Deciding(w, c) && !Beyond(w, c)
    ensures RunPolicy(w, c).Ok? && Inv(w, RunPolicy(w, c).value)
  {
    hide P.Aggregate, P.CriticStoragePolicy, Passes, StoreOk, ArtifactsSound, RepairSound, Prechecked;
    DecisionRefines(w, c);
  }

  /** The ruling over draft and critic that the policy stores when it goes beyond the critic. */
  predicate RulingStored(w: World, c: Conf, t: Store) {
    && CriticOfDraft(c) && Decide(w, c).Ok?
    && var id := RulingOf(w, c);
       Sound(t) && Extends(c.store, t) && t == Saved(c.store, id, Completed(Ruled)) && SoundAt(t, id, Completed(Ruled))
  }

  lemma RulingIsStored(w: World, c: Conf)
    requires Deciding(w, c) && Beyond(w, c)
    ensures var r := SaveLocal(c.store, RulingOf(w, c), Completed(Ruled));
            r != Err(Mismatch) && (r.Ok? ==> RulingStored(w, c, r.value))
  {
    hide Inv, Decide, P.CriticStoragePolicy, StoreOk, RepairSound, Extends, SaveLocal, SoundAt, RulingOf;
    RulingIsSaved(w, c);
    var id := RulingOf(w, c);
    var r := SaveLocal(c.store, id, Completed(Ruled));
    if r.Ok? {
      assert id in r.value.artifacts && r.value.artifacts[id] == Completed(Ruled);
      assert SoundAt(r.value, id, r.value.artifacts[id]);
    }
  }

  /** A stored ruling that refuses proves the refusal. */
  lemma RulingIsAccepted(w: World, c: Conf, t: Store)
    requires Deciding(w, c) && Beyond(w, c) && RulingStored(w, c, t) && Decide(w, c).value.action.Refuse?
    ensures var st := c.st.(nextAction := Some(To(FailureNode)), decisionId := Some(RulingOf(w, c)));
            RefusalReady(w, c.(st := st, store := t, node := FailureNode, steps := c.steps + 1))
  {
    hide P.Aggregate, P.CriticStoragePolicy, Passes, Prechecked, StoreOk, ArtifactsSound, RepairSound, RulingShape, Extends;
    ReadsGrow(c, t);
    DecisionRefines(w, c);
  }

  /** A stored ruling to repair can buy the repair. */
  lemma RulingBuys(w: World, c: Conf, t: Store)
    requires Deciding(w, c) && RulingStored(w, c, t) && Decide(w, c).value.action.Repair?
    ensures RepairProof(t, RulingOf(w, c)) == c.st.criticId
  {
    hide P.Aggregate, P.CriticStoragePolicy, Passes, Prechecked, StoreOk, ArtifactsSound, RepairSound, RulingShape, Extends;
  }

  /** The policy goes beyond the critic, with an artifact of its own over draft and critic. */
  lemma PolicyGoesBeyond(w: World, c: Conf)
    requires Deciding(w, c) && Beyond(w, c)
    ensures RunPolicy(w, c) != Err(Mismatch)
    ensures RunPolicy(w, c).Ok? ==> Inv(w, RunPolicy(w, c).value)
  {
    hide P.Aggregate, P.CriticStoragePolicy, Passes, StoreOk, ArtifactsSound, RepairSound, PrecheckTells, RefusalReady;
    hide SoundAt, SaveLocal, Extends, RepairProof;
    DecisionRefines(w, c);
    RulingIsStored(w, c);
    var r := SaveLocal(c.store, RulingOf(w, c), Completed(Ruled));
    if r.Ok? {
      ReadsGrow(c, r.value);
      PrecheckedGrows(w, c.store, r.value);
      if Decide(w, c).value.action.Refuse? {
        RulingIsAccepted(w, c, r.value);
      } else if Decide(w, c).value.action.Repair? {
        RulingBuys(w, c, r.value);
      }
    }
  }

  lemma PolicyKeeps(w: World, c: Conf, ch: Choice)
    requires Inv(w, c) && c.node.PolicyNode?
    ensures NodeKeeps(w, c, ch)
  {
    hide Inv, P.CriticStoragePolicy, Decide;
    PolicyReads(w, c);
    if Decide(w, c).Ok? {
      if Beyond(w, c) { PolicyGoesBeyond(w, c); } else { PolicyFollows(w, c); }
    }
  }

  lemma PolicyReads(w: World, c: Conf)
    requires Inv(w, c) && c.node.PolicyNode?
    ensures CriticOfDraft(c)
  {
    hide Sound, Prechecked, DraftPassed, CriticOfDraft;
  }

  lemma RepairKeeps(w: World, c: Conf, ch: Choice)
    requires Inv(w, c) && c.node.RepairNode?
    ensures NodeKeeps(w, c, ch)
  {
    hide P.PrecheckFailure, StoreOk, ArtifactsSound, RepairSound, PrecheckTells, RefusalReady, Decided, Decide, Extends, RepairProof;
    RepairIsGranted(w, c);
    PassedIsBound(w, c);
    var bought, call := BoughtRepair(c).value, CallOf(c, 0).value;
    PrecheckedGrows(w, c.store, bought);
    ReadsGrow(c, bought);
    match Decided(bought, call.role, call.phase, call.identity)
    case Some(Done(id, v)) => DoneIsSound(bought, call.role, call.phase, call.identity);
    case Some(Rejected(id, _, _)) => RejectedIsReady(w, On(c, bought), call.role, call.phase, call.identity, id);
    case _ =>
  }

  /** The database publishes the answer of a draft that passed and a critic that lets it render. */
  lemma AnswerIsAccepted(w: World, c: Conf)
    requires Inv(w, c) && c.node.Renderer?
    ensures Accepts(c.store, w.versions, Outcome.Answered, ProofOf(c.st))
  {
    hide Passes, P.Aggregate, P.CriticStoragePolicy, Sound, Prechecked, CriticBound;
    DecisionRefines(w, c);
    CurrentCriticIsBound(w, c);
  }

  lemma CurrentCriticIsBound(w: World, c: Conf)
    requires Sound(c.store) && DraftPassed(w, c) && CriticOfDraft(c)
    ensures CriticBound(CriticOf(c), DraftOf(c), c.store.pack.value)
    ensures P.ValidCritic(CriticOf(c), DraftOf(c), c.store.pack.value.units.Keys)
  {
    hide Passes, StoreOk, RepairSound, CriticBound, P.ValidCritic, DraftPublishable;
    PassedIsBound(w, c);
    var id := c.st.criticId.value;
    assert SoundAt(c.store, id, c.store.artifacts[id]);
    ValidCriticIsBound(CriticOf(c), DraftOf(c), c.store.pack.value);
  }

  lemma RendererKeeps(w: World, c: Conf, ch: Choice)
    requires Inv(w, c) && c.node.Renderer?
    ensures NodeKeeps(w, c, ch)
  {
    hide Passes, P.Aggregate, Sound, Prechecked, Accepts, PrecheckOn;
    AnswerIsAccepted(w, c);
  }

  lemma LastNodesKeep(w: World, c: Conf, ch: Choice)
    requires Inv(w, c) && (c.node.DefaultIntent? || c.node.NoContext? || c.node.FailureNode? || c.node.Finished?)
    ensures NodeKeeps(w, c, ch)
  {
    hide Sound, Prechecked, Accepts, AcceptsFailure, FalseAlarm, Passes, PrecheckOn, ProofStored;
  }

  lemma EveryNodeKeeps(w: World, c: Conf, ch: Choice)
    requires Inv(w, c)
    ensures NodeKeeps(w, c, ch)
  {
    hide Inv, NodeKeeps;
    match c.node
    case Load => LoadKeeps(w, c, ch);
    case RouterNode => RouterKeeps(w, c, ch);
    case Retriever => RetrieverKeeps(w, c, ch);
    case BuildContext => BuildContextKeeps(w, c, ch);
    case DrafterNode => DrafterKeeps(w, c, ch);
    case Prechecks => PrechecksKeep(w, c, ch);
    case CriticNode => CriticKeeps(w, c, ch);
    case PolicyNode => PolicyKeeps(w, c, ch);
    case RepairNode => RepairKeeps(w, c, ch);
    case Renderer => RendererKeeps(w, c, ch);
    case _ => LastNodesKeep(w, c, ch);
  }

  // ---------------------------------------------------------------- every execution

  lemma EventKeepsInv(w: World, c: Conf, e: Event)
    requires Inv(w, c)
    ensures Inv(w, Apply(w, c, e)) && Extends(c.store, Apply(w, c, e).store)
  {
    hide Inv, RunNode, Extends;
    ExtendsItself(c.store);
    match e
    case Finish(ch) => EveryNodeKeeps(w, c, ch);
    case Ask(input, second, reply) => AskKeepsInv(w, c, input, second, reply);
    case Buy(input) => BuyKeepsInv(w, c, input);
    case BuyRepair => BuyRepairKeepsInv(w, c);
    case LeavePack(p) => LeavePackKeepsInv(w, c, p);
    case LeaveLocal => LeaveLocalKeepsInv(w, c);
  }

  lemma InitialIsSound(w: World)
    ensures Inv(w, INITIAL)
  {
  }

  lemma {:induction false} ExecKeepsInv(w: World, events: seq<Event>)
    ensures Inv(w, Exec(w, events))
  {
    hide Inv, Apply;
    if events == [] {
      InitialIsSound(w);
    } else {
      ExecKeepsInv(w, events[..|events| - 1]);
      EventKeepsInv(w, Exec(w, events[..|events| - 1]), events[|events| - 1]);
    }
  }
}
