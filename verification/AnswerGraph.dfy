/**
 The answer graph with durable checkpoints.  A configuration is the last checkpoint together with the store of the run; a
 node either runs to its checkpoint, or is interrupted after any of its durable effects and runs again.
 */
module AnswerGraph {
  import opened Common
  import opened RunStore
  import opened ModelStep
  import P = Policy

  /** What is fixed for one run: the table context of a pack, the gaps of a draft, the versions of the snapshot. */
  datatype World = World(groups: Pack -> Option<seq<P.CitationGroup>>, missing: (P.Draft, Pack) -> seq<P.Message>, versions: nat)

  datatype Node = Load | RouterNode | Retriever | BuildContext | DrafterNode | Prechecks | CriticNode | PolicyNode | RepairNode
                | Renderer | DefaultIntent | NoContext | FailureNode | Finished

  /** Values of `next_action`; the node names, and the two answers of the retriever. */
  datatype Label = To(node: Node) | Ready | Empty

  datatype GraphState = GraphState(outOfScope: bool, routeId: Option<ArtifactId>, packId: Option<nat>,
                                   draftId: Option<ArtifactId>, criticId: Option<ArtifactId>, precheckId: Option<ArtifactId>,
                                   decisionId: Option<ArtifactId>, repairAttempts: int,
                                   nextAction: Option<Label>, outcome: Option<Outcome>)

  const START := GraphState(false, None, None, None, None, None, None, 0, None, None)

  datatype Conf = Conf(node: Node, st: GraphState, store: Store, steps: nat)

  const INITIAL := Conf(Load, START, EMPTY, 0)

  /** A failed check of kinds, parents, packs or budgets, here or in the database; or an error a node may raise. */
  datatype Failure = Mismatch | Raised

  /** What one execution of a node finds: the router's input, the retrieved pack, and whether that fits the prompt. */
  datatype Choice = Choice(input: nat, pack: Pack, withinBudget: bool)

  // ---------------------------------------------------------------- checked reads

  /** `packed`: the stored pack is the one of the checkpoint. */
  predicate PackIs(c: Conf) {
    c.store.pack.Some? && c.st.packId == Some(c.store.pack.value.id)
  }

  predicate ReadsDraft(c: Conf) {
    PackIs(c) && c.st.draftId.Some? && HasDraft(c.store, c.st.draftId.value) && c.st.draftId.value.identity.pack == c.st.packId
  }

  predicate ReadsCritic(c: Conf) {
    PackIs(c) && c.st.criticId.Some? && HasCritic(c.store, c.st.criticId.value) && c.st.criticId.value.identity.pack == c.st.packId
  }

  function DraftOf(c: Conf): P.Draft
    requires ReadsDraft(c)
  {
    DraftAt(c.store, c.st.draftId.value)
  }

  function CriticOf(c: Conf): P.Critic
    requires ReadsCritic(c)
  {
    CriticAt(c.store, c.st.criticId.value)
  }

  /** The critic's only parent is the current draft. */
  predicate CriticOfDraft(c: Conf) {
    ReadsDraft(c) && ReadsCritic(c) && c.st.criticId.value.identity.parents == [c.st.draftId.value]
  }

  /** The precheck passed and stands on the current draft. */
  predicate ReadsPrecheck(c: Conf) {
    && c.st.precheckId.Some? && c.st.draftId.Some? && c.st.precheckId.value.key.PrecheckOf? && HasCompleted(c.store, c.st.precheckId.value)
    && c.st.precheckId.value.identity.pack == c.st.packId && c.st.precheckId.value.identity.parents == [c.st.draftId.value]
  }

  function PrecheckOn(w: World, d: P.Draft, p: Pack): Option<P.Code> {
    P.PrecheckFailure(d, p.units, w.groups(p))
  }

  predicate Passes(w: World, d: P.Draft, p: Pack) {
    PrecheckOn(w, d, p).None? && d.disposition.Answer? && d.claims != []
  }

  function Decide(w: World, c: Conf): Result<P.Decision, P.Code>
    requires CriticOfDraft(c)
  {
    var d, p := DraftOf(c), c.store.pack.value;
    P.Aggregate(d, CriticOf(c), p.units.Keys, PrecheckOn(w, d, p), w.missing(d, p), c.st.repairAttempts)
  }

  // ---------------------------------------------------------------- model steps

  datatype ModelCall = ModelCall(role: Role, phase: Phase, identity: Identity)

  function FirstOf(call: ModelCall): ArtifactId {
    StepId(call.role, call.phase, call.identity, 0)
  }

  function SecondOf(call: ModelCall): ArtifactId {
    StepId(call.role, call.phase, call.identity, 1)
  }

  /** `consume_repair` for the decision of the checkpoint. */
  function BoughtRepair(c: Conf): Result<Store, Failure> {
    if c.st.decisionId.None? || !RepairGranted(c.store, c.st.decisionId.value) then Err(Mismatch)
    else Ok(WithRepair(c.store, c.st.decisionId.value))
  }

  /**
   What a model node does before its model step: its reads, and the model step they lead to.  Inputs of all roles but the
   router's are determined by pack and parents.
   */
  function CallOf(c: Conf, input: nat): Result<ModelCall, Failure> {
    match c.node
    case RouterNode => Ok(ModelCall(Router, Initial, Identity(input, None, [])))
    case DrafterNode =>
      if PackIs(c) then Ok(ModelCall(Drafter, Initial, Identity(0, c.st.packId, []))) else Err(Mismatch)
    case CriticNode =>
      if ReadsDraft(c) && ReadsPrecheck(c)
      then Ok(ModelCall(Critic, if c.st.repairAttempts != 0 then Repaired else Initial, Identity(0, c.st.packId, [c.st.draftId.value])))
      else Err(Mismatch)
    case RepairNode =>
      if ReadsDraft(c) && IsStep(c.st.draftId.value, Drafter) && ReadsCritic(c) && BoughtRepair(c).Ok?
      then Ok(ModelCall(Repairer, Initial, Identity(0, c.st.packId, [c.st.criticId.value])))
      else Err(Mismatch)
    case _ => Err(Failure.Raised)
  }

  /** What the gateway lets through: schema-valid values, and critics that are bound to the draft they judge. */
  predicate Deliverable(c: Conf, role: Role, v: Value) {
    match role
    case Router => v.Route?
    case Drafter => v.Drafted? && P.DraftSchema(v.draft)
    case Repairer => v.Drafted? && P.DraftSchema(v.draft)
    case Critic => v.Judged? && P.CriticSchema(v.critic) && ReadsDraft(c) && P.ValidCritic(v.critic, DraftOf(c), c.store.pack.value.units.Keys)
  }

  /** A malformed answer breaks the output contract. */
  function Delivered(c: Conf, role: Role, reply: Reply): Reply {
    if (reply.Answered? || reply.FabricatedCitation?) && !Deliverable(c, role, reply.value)
    then ModelError(OutputSchemaInvalid, Contract) else reply
  }

  // ---------------------------------------------------------------- nodes

  function Goto(c: Conf, node: Node): Conf {
    c.(node := node, steps := c.steps + 1)
  }

  /** The fragment every model node returns when its output was rejected. */
  function OutputRefusal(st: GraphState, id: ArtifactId): GraphState {
    st.(nextAction := Some(To(FailureNode)), draftId := None, criticId := None, decisionId := Some(id))
  }

  function NextNode(st: GraphState): Node {
    match st.nextAction
    case Some(To(node)) => node
    case _ => Finished
  }

  function RunLoad(w: World, c: Conf): Conf {
    var st := c.st.(nextAction := Some(To(if w.versions == 0 then Retriever else RouterNode)));
    Goto(c.(st := st), NextNode(st))
  }

  /** The local artifacts are saved directly; only the cap on artifacts is an error the database may answer with. */
  function SaveLocal(s: Store, id: ArtifactId, content: Content): Result<Store, Failure> {
    match SaveFailure(s, id, content)
    case None => Ok(Saved(s, id, content))
    case Some(CapacityExceeded) => Err(Failure.Raised)
    case Some(_) => Err(Mismatch)
  }

  function RunRouter(c: Conf, input: nat): Result<Conf, Failure> {
    var call := ModelCall(Router, Initial, Identity(input, None, []));
    match Decided(c.store, call.role, call.phase, call.identity)
    case Some(Done(id, v)) =>
      if !v.Route? then Err(Mismatch)
      else
        var st := c.st.(outOfScope := v.outOfScope, routeId := Some(id), decisionId := Some(id));
        Ok(Goto(c.(st := st), if st.nextAction == Some(To(FailureNode)) then FailureNode
                              else if st.outOfScope then DefaultIntent else Retriever))
    case Some(Rejected(id, _, _)) => Ok(Goto(c.(st := OutputRefusal(c.st, id)), FailureNode))
    case _ => Err(Failure.Raised)
  }

  /** Without eligible versions nothing is retrieved: the evidence pack is the empty one. */
  function Found(w: World, p: Pack): Pack {
    if w.versions == 0 then p.(units := map[]) else p
  }

  function RetrievalId(p: Pack): ArtifactId {
    ArtifactId(RetrievalFrozen, Identity(0, Some(p.id), []))
  }

  /** The route artifact is read only when something has to be retrieved. */
  predicate ReadsRoute(c: Conf) {
    c.st.routeId.Some? && IsStep(c.st.routeId.value, Router) && HasCompleted(c.store, c.st.routeId.value)
    && c.store.artifacts[c.st.routeId.value].value.Route?
  }

  /** A stored evidence pack is never replaced. */
  function RunRetriever(w: World, c: Conf, found: Pack): Result<Conf, Failure> {
    if c.store.pack.None? && w.versions > 0 && !ReadsRoute(c) then Err(Mismatch)
    else
      var store := if c.store.pack.Some? then c.store else c.store.(pack := Some(Found(w, found)));
      var pack := store.pack.value;
      var empty := pack.units == map[];
      match SaveLocal(store, RetrievalId(pack), Completed(Retrieved(empty)))
      case Err(e) => Err(e)
      case Ok(saved) =>
        var st := c.st.(packId := Some(pack.id), decisionId := Some(RetrievalId(pack)), nextAction := Some(if empty then Empty else Ready));
        Ok(Goto(c.(st := st, store := saved), if empty then NoContext else BuildContext))
  }

  function RunBuildContext(c: Conf, withinBudget: bool): Result<Conf, Failure> {
    if !PackIs(c) then Err(Mismatch)
    else if c.store.pack.value.units == map[] || !withinBudget then Err(Failure.Raised)
    else Ok(Goto(c, DrafterNode))
  }

  function RunDrafter(c: Conf): Result<Conf, Failure>
    requires c.node.DrafterNode?
  {
    match CallOf(c, 0)
    case Err(e) => Err(e)
    case Ok(call) =>
      match Decided(c.store, call.role, call.phase, call.identity)
      case Some(Done(id, v)) =>
        if !v.Drafted? then Err(Mismatch)
        else
          var st := c.st.(draftId := Some(id), decisionId := Some(id),
                          nextAction := Some(To(if v.draft.disposition.InsufficientEvidence? then NoContext else Prechecks)));
          Ok(Goto(c.(st := st), NextNode(st)))
      case Some(Rejected(id, _, _)) => Ok(Goto(c.(st := OutputRefusal(c.st, id)), FailureNode))
      case _ => Err(Failure.Raised)
  }

  function PrecheckId(c: Conf): ArtifactId
    requires c.st.draftId.Some?
  {
    ArtifactId(PrecheckOf, Identity(0, c.st.packId, [c.st.draftId.value]))
  }

  function PrecheckContent(passed: bool): Content {
    if passed then Completed(Checked) else Failed(RunStore.VerificationFailed, CitationBinding, 0)
  }

  /** The local artifact of a precheck; errors other than a refused draft are raised. */
  function SavePrecheck(w: World, c: Conf): Result<Store, Failure> {
    if !ReadsDraft(c) then Err(Mismatch)
    else
      var d, p := DraftOf(c), c.store.pack.value;
      if PrecheckOn(w, d, p).Some? && PrecheckOn(w, d, p).value != P.VerificationFailed then Err(Failure.Raised)
      else SaveLocal(c.store, PrecheckId(c), PrecheckContent(Passes(w, d, p)))
  }

  function RunPrechecks(w: World, c: Conf): Result<Conf, Failure> {
    match SavePrecheck(w, c)
    case Err(e) => Err(e)
    case Ok(saved) =>
      var st := c.st.(precheckId := Some(PrecheckId(c)), decisionId := Some(PrecheckId(c)),
                      nextAction := Some(To(if Passes(w, DraftOf(c), c.store.pack.value) then CriticNode else FailureNode)));
      Ok(Goto(c.(st := st, store := saved), NextNode(st)))
  }

  function RunCritic(c: Conf): Result<Conf, Failure>
    requires c.node.CriticNode?
  {
    match CallOf(c, 0)
    case Err(e) => Err(e)
    case Ok(call) =>
      match Decided(c.store, call.role, call.phase, call.identity)
      case Some(Done(id, _)) =>
        var st := c.st.(criticId := Some(id), decisionId := Some(id));
        Ok(Goto(c.(st := st), if st.nextAction == Some(To(FailureNode)) then FailureNode else PolicyNode))
      case Some(Rejected(id, _, _)) => Ok(Goto(c.(st := OutputRefusal(c.st, id)), FailureNode))
      case _ => Err(Failure.Raised)
  }

  function Target(a: P.Action): Node {
    match a case Render => Renderer case Repair => RepairNode case Refuse => FailureNode
  }

  function RulingId(c: Conf, d: P.Decision, raw: P.Action): ArtifactId
    requires c.st.draftId.Some? && c.st.criticId.Some?
  {
    ArtifactId(Ruling(d, raw), Identity(0, c.st.packId, [c.st.draftId.value, c.st.criticId.value]))
  }

  /** The decision is the critic itself, unless the deterministic policy went beyond the critic's raw policy. */
  function RunPolicy(w: World, c: Conf): Result<Conf, Failure> {
    if !CriticOfDraft(c) then Err(Mismatch)
    else match Decide(w, c)
      case Err(_) => Err(Failure.Raised)
      case Ok(decision) =>
        var raw := P.CriticStoragePolicy(CriticOf(c));
        var st := c.st.(nextAction := Some(To(Target(decision.action))));
        if decision.action == raw then Ok(Goto(c.(st := st.(decisionId := c.st.criticId)), NextNode(st)))
        else match SaveLocal(c.store, RulingId(c, decision, raw), Completed(Ruled))
          case Err(e) => Err(e)
          case Ok(saved) => Ok(Goto(c.(st := st.(decisionId := Some(RulingId(c, decision, raw))), store := saved), NextNode(st)))
  }

  /** The gaps that the repair is told about can be computed only from a readable pack. */
  function RunRepair(w: World, c: Conf): Result<Conf, Failure>
    requires c.node.RepairNode?
  {
    match CallOf(c, 0)
    case Err(e) => Err(e)
    case Ok(call) =>
      if w.groups(c.store.pack.value).None? then Err(Failure.Raised)
      else
        var bought := BoughtRepair(c).value;
        match Decided(bought, call.role, call.phase, call.identity)
        case Some(Done(id, _)) =>
          var st := c.st.(draftId := Some(id), criticId := None, precheckId := None, repairAttempts := 1, decisionId := Some(id));
          Ok(Goto(c.(st := st, store := bought), if st.nextAction == Some(To(FailureNode)) then FailureNode else Prechecks))
        case Some(Rejected(id, _, _)) => Ok(Goto(c.(st := OutputRefusal(c.st, id), store := bought), FailureNode))
        case _ => Err(Failure.Raised)
  }

  /** `answer`: the checks of the renderer, repeated by the finalizer. */
  predicate Answerable(w: World, c: Conf) {
    CriticOfDraft(c) && Decide(w, c).Ok? && Decide(w, c).value.action.Render?
  }

  function RunRenderer(w: World, c: Conf): Result<Conf, Failure> {
    if !Answerable(w, c) then Err(Mismatch)
    else Ok(Goto(c.(st := c.st.(outcome := Some(Outcome.Answered))), Finished))
  }

  function RunRefusal(c: Conf, code: RefusalCode): Conf {
    Goto(c.(st := c.st.(outcome := Some(Refused(code)))), Finished)
  }

  function RunNode(w: World, c: Conf, ch: Choice): Result<Conf, Failure> {
    match c.node
    case Load => Ok(RunLoad(w, c))
    case RouterNode => RunRouter(c, ch.input)
    case Retriever => RunRetriever(w, c, ch.pack)
    case BuildContext => RunBuildContext(c, ch.withinBudget)
    case DrafterNode => RunDrafter(c)
    case Prechecks => RunPrechecks(w, c)
    case CriticNode => RunCritic(c)
    case PolicyNode => RunPolicy(w, c)
    case RepairNode => RunRepair(w, c)
    case Renderer => RunRenderer(w, c)
    case DefaultIntent => Ok(RunRefusal(c, OutOfScope))
    case NoContext => Ok(RunRefusal(c, NoRelevantContext))
    case FailureNode => Ok(RunRefusal(c, VerificationFailure))
    case Finished => Err(Failure.Raised)
  }

  // ---------------------------------------------------------------- executions

  /**
   What happens to a run: a node reaches its checkpoint, or one durable effect of the current node and no more - an attempt of
   its model step is saved, its schema retry or the repair is bought, its pack or its local artifact is stored.
   */
  datatype Event = Finish(choice: Choice)
                 | Ask(input: nat, second: bool, reply: Reply)
                 | Buy(input: nat)
                 | BuyRepair
                 | LeavePack(pack: Pack)
                 | LeaveLocal

  /** The repair is asked for only after it was bought. */
  predicate Paid(c: Conf) {
    c.node.RepairNode? ==> BoughtRepair(c) == Ok(c.store)
  }

  function AskedBy(c: Conf, call: ModelCall, second: bool, reply: Reply): Store {
    var delivered := Delivered(c, call.role, reply);
    if second then AfterSecond(c.store, FirstOf(call), SecondOf(call), delivered)
    else AfterFirst(c.store, FirstOf(call), delivered)
  }

  /** The local artifact of a node without its checkpoint. */
  function LocalLeft(w: World, c: Conf): Store {
    match c.node
    case Retriever =>
      if c.store.pack.None? then c.store
      else
        var p := c.store.pack.value;
        var saved := SaveLocal(c.store, RetrievalId(p), Completed(Retrieved(p.units == map[])));
        if saved.Ok? then saved.value else c.store
    case Prechecks => if SavePrecheck(w, c).Ok? then SavePrecheck(w, c).value else c.store
    case PolicyNode => if RunPolicy(w, c).Ok? then RunPolicy(w, c).value.store else c.store
    case _ => c.store
  }

  function Apply(w: World, c: Conf, e: Event): Conf {
    match e
    case Finish(ch) => if RunNode(w, c, ch).Ok? then RunNode(w, c, ch).value else c
    case Ask(input, second, reply) =>
      if CallOf(c, input).Ok? && Paid(c) then c.(store := AskedBy(c, CallOf(c, input).value, second, reply)) else c
    case Buy(input) =>
      if CallOf(c, input).Ok? && Paid(c) then c.(store := AfterRetry(c.store, FirstOf(CallOf(c, input).value))) else c
    case BuyRepair =>
      if c.node.RepairNode? && CallOf(c, 0).Ok? then c.(store := BoughtRepair(c).value) else c
    case LeavePack(p) =>
      if c.node.Retriever? && c.store.pack.None? && (w.versions > 0 ==> ReadsRoute(c))
      then c.(store := c.store.(pack := Some(Found(w, p)))) else c
    case LeaveLocal => c.(store := LocalLeft(w, c))
  }

  function Exec(w: World, events: seq<Event>): Conf {
    if events == [] then INITIAL else Apply(w, Exec(w, events[..|events| - 1]), events[|events| - 1])
  }

  // ---------------------------------------------------------------- publication

  function ProofOf(st: GraphState): Proof {
    Proof(st.draftId, st.criticId, st.decisionId)
  }

  /** The database accepts the outcome a finished run is finalized with. */
  predicate Accepted(w: World, c: Conf)
    requires c.st.outcome.Some?
  {
    Accepts(c.store, w.versions, c.st.outcome.value, ProofOf(c.st))
  }
}
