/**
 The durable store of one run and the database routines that write it: step artifacts, schema retries and the one
 repair are inserted once, under checks of parents, evidence pack, payload and budget; and the rules by which the database
 accepts an outcome.
 */
module RunStore {
  import opened Common
  import P = Policy

  datatype Role = Router | Drafter | Critic | Repairer

  datatype Phase = Initial | Repaired

  /** Logical step keys: "role.phase.schemaN" of a model step, and the keys of the three local artifacts. */
  datatype Key = Step(role: Role, phase: Phase, attempt: nat)
               | RetrievalFrozen
               | PrecheckOf
               | Ruling(decision: P.Decision, raw: P.Action)

  /** What identifies a step beside its key: the input it was prepared from, the evidence pack and the parent artifacts. */
  datatype Identity = Identity(input: nat, pack: Option<nat>, parents: seq<ArtifactId>)

  /** `uuid5(run, key and identity digest)`: injective, so the identifier is modelled as its arguments. */
  datatype ArtifactId = ArtifactId(key: Key, identity: Identity)

  datatype Code = OutputSchemaInvalid | VerificationFailed | Operational(n: nat) | InvalidRequest

  datatype FailureKind = Contract | Truncated | ProviderRefusal | CitationBinding

  datatype Value = Route(outOfScope: bool)
                 | Drafted(draft: P.Draft)
                 | Judged(critic: P.Critic)
                 | Retrieved(empty: bool)
                 | Checked
                 | Ruled

  datatype Content = Completed(value: Value)
                   | Failed(code: Code, kind: FailureKind, attempt: nat)

  datatype Pack = Pack(id: nat, units: P.Units)

  /** The repair budget remembers the decision and the critic that bought the repair. */
  datatype Purchase = Purchase(decision: ArtifactId, critic: ArtifactId)

  type Artifacts = map<ArtifactId, Content>
  type Budgets = map<Role, ArtifactId>

  datatype Store = Store(pack: Option<Pack>, artifacts: Artifacts, schema: Budgets, repair: Option<Purchase>)

  const EMPTY := Store(None, map[], map[], None)
  const MAX_ARTIFACTS := 100

  predicate IsStep(id: ArtifactId, role: Role) {
    id.key.Step? && id.key.role == role
  }

  predicate IsDraft(id: ArtifactId) {
    IsStep(id, Drafter) || IsStep(id, Repairer)
  }

  predicate IsSecond(id: ArtifactId) {
    id.key.Step? && id.key.attempt == 1
  }

  function StepId(role: Role, phase: Phase, identity: Identity, attempt: nat): ArtifactId {
    ArtifactId(Step(role, phase, attempt), identity)
  }

  // ---------------------------------------------------------------- reading

  predicate HasCompleted(s: Store, id: ArtifactId) {
    id in s.artifacts && s.artifacts[id].Completed?
  }

  predicate HasDraft(s: Store, id: ArtifactId) {
    IsDraft(id) && HasCompleted(s, id) && s.artifacts[id].value.Drafted?
  }

  predicate HasCritic(s: Store, id: ArtifactId) {
    IsStep(id, Critic) && HasCompleted(s, id) && s.artifacts[id].value.Judged?
  }

  function DraftAt(s: Store, id: ArtifactId): P.Draft
    requires HasDraft(s, id)
  {
    s.artifacts[id].value.draft
  }

  function CriticAt(s: Store, id: ArtifactId): P.Critic
    requires HasCritic(s, id)
  {
    s.artifacts[id].value.critic
  }

  // ---------------------------------------------------------------- what the database knows of drafts and critics

  /** `agent._draft_bound`: sources of the evidence pack only, and no two claims with one text and one set of sources. */
  predicate DraftBound(d: P.Draft, pack: Pack) {
    P.Bound(d, pack.units.Keys) && P.NoRepeats(d)
  }

  predicate DraftPublishable(d: P.Draft, pack: Pack) {
    d.disposition.Answer? && d.claims != [] && DraftBound(d, pack)
  }

  predicate CitedByClaim(d: P.Draft, claim: string, e: P.EvidenceId) {
    exists i :: 0 <= i < |d.claims| && d.claims[i].id == claim && e in d.claims[i].evidence
  }

  /** The sources of one verdict: units of the evidence pack and, unless the claim is rejected, cited by the claim. */
  predicate VerdictBound(v: P.ClaimVerdict, d: P.Draft, pack: Pack) {
    forall e :: e in v.evidence ==>
      e in pack.units && (v.verdict.Supported? || v.verdict.PartiallySupported? ==> CitedByClaim(d, v.claim, e))
  }

  predicate AllVerdictsBound(c: P.Critic, d: P.Draft, pack: Pack) {
    forall i :: 0 <= i < |c.verdicts| ==> VerdictBound(c.verdicts[i], d, pack)
  }

  /** `agent._critic_bound`. */
  predicate CriticBound(c: P.Critic, d: P.Draft, pack: Pack) {
    DraftPublishable(d, pack) && P.VerdictClaims(c) == P.ClaimIds(d) && AllVerdictsBound(c, d, pack)
  }

  /** `agent._critic`. */
  predicate CriticShape(c: P.Critic) {
    P.CriticSchema(c) && P.ReasonsAgree(c)
  }

  /** `agent._policy_decision`: the combinations of action, reason and raw policy that may be stored. */
  predicate RulingShape(d: P.Decision, raw: P.Action) {
    match d.action
    case Render => d.outcome.Confirmed? && d.reason.ReasonSupportedAnswer? && raw.Render?
    case Repair =>
      d.outcome.PartiallyConfirmed? && (d.reason.IncompleteAnswer? || d.reason.IncompleteTableVariant?)
      && (raw.Repair? || (raw.Render? && d.reason.IncompleteTableVariant?))
    case Refuse =>
      || raw.Refuse? || (raw.Repair? && (d.reason.RepairExhausted? || d.reason.IncompleteTableVariant?))
      || (raw.Render? && d.reason.IncompleteTableVariant?)
  }

  /** These two reasons for a refusal need the repair behind them. */
  predicate NeedsRepair(d: P.Decision) {
    d.action.Refuse? && (d.reason.RepairExhausted? || d.reason.IncompleteTableVariant?)
  }

  // ---------------------------------------------------------------- agent.save_step_artifact

  datatype SaveError = IdentityMismatch | IdempotencyConflict | CapacityExceeded | PackMismatch | InvalidFailure | InvalidValue
                     | RetryNotReserved | RetryIdentityMismatch | RetryExhausted
                     | ParentMismatch | CriticUnbound | RepairNotReserved | DraftUnpublishable | RulingMismatch

  /** `agent._check_step_identity`: the evidence pack is the run's, and every parent is stored. */
  predicate IdentityKnown(s: Store, i: Identity) {
    && (i.pack.Some? ==> s.pack.Some? && s.pack.value.id == i.pack.value)
    && forall p :: p in i.parents ==> p in s.artifacts
  }

  /** The payload fits the kind of the artifact. */
  predicate ValidValue(s: Store, id: ArtifactId, v: Value) {
    match id.key
    case Step(Router, _, _) => v.Route?
    case Step(Drafter, _, _) => v.Drafted? && P.DraftSchema(v.draft)
    case Step(Repairer, _, _) => v.Drafted? && P.DraftSchema(v.draft)
    case Step(Critic, _, _) => v.Judged? && CriticShape(v.critic)
    case RetrievalFrozen => s.pack.Some? && v == Retrieved(s.pack.value.units == map[])
    case PrecheckOf => v.Checked?
    case Ruling(d, raw) => v.Ruled? && RulingShape(d, raw)
  }

  /** A stored failure has a code the database knows, for a model step the attempt of its key. */
  predicate ValidFailure(c: Content) {
    c.Failed? && c.code != InvalidRequest && c.attempt <= 1
  }

  /** The second attempt of a role needs the role's retry, bought for the same identity, and is stored at most once. */
  function RetryError(s: Store, id: ArtifactId): Option<SaveError> {
    if !IsSecond(id) then None
    else if id.key.role !in s.schema then Some(RetryNotReserved)
    else if s.schema[id.key.role].identity != id.identity then Some(RetryIdentityMismatch)
    else if exists x :: x in s.artifacts && IsStep(x, id.key.role) && IsSecond(x) then Some(RetryExhausted)
    else None
  }

  /** The one parent of a critic, a precheck or a repair: completed, of the right kind, over the same pack. */
  predicate ParentFits(s: Store, id: ArtifactId) {
    && |id.identity.parents| == 1 && HasCompleted(s, id.identity.parents[0])
    && id.identity.parents[0].identity.pack == id.identity.pack
    && (if IsStep(id, Repairer) then HasCritic(s, id.identity.parents[0]) else HasDraft(s, id.identity.parents[0]))
  }

  function ParentError(s: Store, id: ArtifactId, c: Content): Option<SaveError>
    requires s.pack.Some?
  {
    if !ParentFits(s, id) then Some(ParentMismatch)
    else
      var parent := id.identity.parents[0];
      if IsStep(id, Critic) && c.Completed? && c.value.Judged? && !CriticBound(c.value.critic, DraftAt(s, parent), s.pack.value)
      then Some(CriticUnbound)
      else if IsStep(id, Repairer) && (s.repair.None? || s.repair.value.critic != parent) then Some(RepairNotReserved)
      else if id.key.PrecheckOf? && c.Completed? && !DraftPublishable(DraftAt(s, parent), s.pack.value) then Some(DraftUnpublishable)
      else None
  }

  /** The parents of a ruling are a draft and the critic of that draft, and it quotes that critic's raw policy. */
  predicate RulingFits(s: Store, id: ArtifactId)
    requires id.key.Ruling?
  {
    && |id.identity.parents| == 2 && HasDraft(s, id.identity.parents[0]) && HasCritic(s, id.identity.parents[1])
    && id.identity.parents[0].identity.pack == id.identity.pack && id.identity.parents[1].identity.pack == id.identity.pack
    && id.identity.parents[1].identity.parents == [id.identity.parents[0]]
    && id.key.raw == P.CriticStoragePolicy(CriticAt(s, id.identity.parents[1]))
    && (NeedsRepair(id.key.decision) ==> s.repair.Some?)
  }

  function KindError(s: Store, id: ArtifactId, c: Content): Option<SaveError>
    requires IsStep(id, Router) || s.pack.Some?
  {
    match id.key
    case Step(Router, _, _) => None
    case Step(Drafter, _, _) => None
    case RetrievalFrozen => None
    case Ruling(_, _) => if RulingFits(s, id) then None else Some(RulingMismatch)
    case _ => ParentError(s, id, c)
  }

  /** Why the database refuses to save, if it does: the checks of the routine in their order. */
  function SaveFailure(s: Store, id: ArtifactId, c: Content): Option<SaveError> {
    if !IdentityKnown(s, id.identity) then Some(IdentityMismatch)
    else if id in s.artifacts then (if s.artifacts[id] == c then None else Some(IdempotencyConflict))
    else if |s.artifacts| >= MAX_ARTIFACTS then Some(CapacityExceeded)
    else if !IsStep(id, Router) && id.identity.pack.None? then Some(PackMismatch)
    else if c.Failed? && !ValidFailure(c) then Some(InvalidFailure)
    else if c.Completed? && !ValidValue(s, id, c.value) then Some(InvalidValue)
    else if RetryError(s, id).Some? then RetryError(s, id)
    else KindError(s, id, c)
  }

  function Saved(s: Store, id: ArtifactId, c: Content): Store {
    s.(artifacts := s.artifacts[id := c])
  }

  // ---------------------------------------------------------------- budgets

  /** Only a first attempt that broke the output contract may buy the role's single retry. */
  predicate Retryable(c: Content) {
    c.Failed? && c.code == OutputSchemaInvalid && (c.kind.Contract? || c.kind.Truncated?) && c.attempt == 0
  }

  /** `agent.consume_schema_retry` grants: the role's retry is unspent and the failure earns it, or it was spent on it. */
  predicate RetryGranted(s: Store, role: Role, failed: ArtifactId) {
    if role in s.schema then s.schema[role] == failed
    else failed in s.artifacts && IsStep(failed, role) && Retryable(s.artifacts[failed])
  }

  function WithRetry(s: Store, role: Role, failed: ArtifactId): Store {
    s.(schema := s.schema[role := failed])
  }

  /** The critic a decision to repair stands on, if the database finds the decision proven. */
  function RepairProof(s: Store, decision: ArtifactId): Option<ArtifactId> {
    if !HasCompleted(s, decision) then None
    else if IsStep(decision, Critic) then
      if HasCritic(s, decision) && P.CriticStoragePolicy(CriticAt(s, decision)).Repair? then Some(decision) else None
    else if decision.key.Ruling? && decision.key.decision.action.Repair? && RulingShape(decision.key.decision, decision.key.raw)
            && |decision.identity.parents| == 2 && HasCritic(s, decision.identity.parents[1])
            && decision.identity.parents[1].identity.parents == [decision.identity.parents[0]]
            && decision.identity.parents[1].identity.pack == decision.identity.pack
            && decision.key.raw == P.CriticStoragePolicy(CriticAt(s, decision.identity.parents[1]))
    then Some(decision.identity.parents[1])
    else None
  }

  /** The draft under that critic is an answer with claims. */
  predicate RepairsAnswer(s: Store, critic: ArtifactId) {
    && critic.identity.parents != [] && HasDraft(s, critic.identity.parents[0])
    && DraftAt(s, critic.identity.parents[0]).disposition.Answer? && DraftAt(s, critic.identity.parents[0]).claims != []
  }

  /** `agent.consume_repair` grants: one repair per run, idempotent for the decision that bought it. */
  predicate RepairGranted(s: Store, decision: ArtifactId) {
    && RepairProof(s, decision).Some?
    && (if s.repair.Some? then s.repair.value == Purchase(decision, RepairProof(s, decision).value)
        else RepairsAnswer(s, RepairProof(s, decision).value))
  }

  function WithRepair(s: Store, decision: ArtifactId): Store
    requires RepairGranted(s, decision)
  {
    s.(repair := Some(Purchase(decision, RepairProof(s, decision).value)))
  }

  // ---------------------------------------------------------------- agent.finalize_run

  datatype RefusalCode = OutOfScope | NoRelevantContext | VerificationFailure

  datatype Outcome = Answered | Refused(code: RefusalCode)

  /** The artifacts a run is finalized with. */
  datatype Proof = Proof(draft: Option<ArtifactId>, critic: Option<ArtifactId>, decision: Option<ArtifactId>)

  predicate ProofStored(s: Store, p: Proof) {
    && (p.draft.Some? ==> p.draft.value in s.artifacts)
    && (p.critic.Some? ==> p.critic.value in s.artifacts)
    && (p.decision.Some? ==> p.decision.value in s.artifacts)
  }

  /** An answer is published only from the run's pack, its current draft and the one critic of that draft. */
  predicate AcceptsAnswer(s: Store, versions: nat, p: Proof) {
    && s.pack.Some? && p.draft.Some? && p.critic.Some? && versions > 0
    && HasDraft(s, p.draft.value) && IsStep(p.draft.value, if s.repair.Some? then Repairer else Drafter)
    && HasCritic(s, p.critic.value) && p.critic.value.identity.parents == [p.draft.value]
    && p.draft.value.identity.pack == Some(s.pack.value.id) && p.critic.value.identity.pack == Some(s.pack.value.id)
    && CriticBound(CriticAt(s, p.critic.value), DraftAt(s, p.draft.value), s.pack.value)
    && P.CriticStoragePolicy(CriticAt(s, p.critic.value)).Render?
    && (p.decision.Some? ==> p.decision == p.critic)
  }

  predicate AcceptsOutOfScope(s: Store, d: ArtifactId)
    requires d in s.artifacts
  {
    IsStep(d, Router) && s.artifacts[d] == Completed(Route(true))
  }

  predicate AcceptsNoContext(s: Store, d: ArtifactId)
    requires d in s.artifacts
  {
    && s.pack.Some? && d.identity.pack == Some(s.pack.value.id)
    && (|| (d.key.RetrievalFrozen? && s.artifacts[d] == Completed(Retrieved(true)) && s.pack.value.units == map[])
        || (IsStep(d, Drafter) && HasDraft(s, d) && DraftAt(s, d).disposition.InsufficientEvidence?))
  }

  /** A failed precheck counts unless the database finds the draft bound; an empty repair is excepted. */
  predicate AcceptsPrecheck(s: Store, d: ArtifactId)
    requires d in s.artifacts
  {
    && s.pack.Some? && d.identity.parents != [] && HasDraft(s, d.identity.parents[0])
    && var draft := DraftAt(s, d.identity.parents[0]);
       DraftBound(draft, s.pack.value)
       ==> IsStep(d.identity.parents[0], Repairer) && draft.disposition.InsufficientEvidence? && draft.claims == []
  }

  predicate Refusal(kind: FailureKind) {
    kind.Contract? || kind.Truncated? || kind.ProviderRefusal?
  }

  predicate SameStepCompleted(s: Store, d: ArtifactId)
    requires d.key.Step?
  {
    exists x :: x in s.artifacts && IsStep(x, d.key.role) && x.identity == d.identity && s.artifacts[x].Completed?
  }

  /** The second attempt failed, and the retry was bought by the failed first attempt of the very same identity. */
  predicate FailedTwice(s: Store, d: ArtifactId)
    requires d.key.Step?
  {
    && d.key.attempt == 1 && d.key.role in s.schema && s.schema[d.key.role] in s.artifacts
    && IsStep(s.schema[d.key.role], d.key.role) && Retryable(s.artifacts[s.schema[d.key.role]])
    && s.schema[d.key.role].identity == d.identity
  }

  /**
   The critic of the repaired draft failed once, because the critics' only retry was spent before: on the critic that
   bought the repair this draft came from.
   */
  predicate FailedAfterRepair(s: Store, d: ArtifactId) {
    && IsStep(d, Critic) && d.key.attempt == 0 && Critic in s.schema && s.schema[Critic] in s.artifacts && s.repair.Some?
    && IsStep(s.schema[Critic], Critic) && Retryable(s.artifacts[s.schema[Critic]])
    && var retried := s.repair.value.critic;
       && HasCritic(s, retried) && IsSecond(retried) && retried.identity == s.schema[Critic].identity
       && |d.identity.parents| == 1 && IsStep(d.identity.parents[0], Repairer) && HasDraft(s, d.identity.parents[0])
       && d.identity.parents[0].identity.parents == [retried] && retried.identity.pack == d.identity.pack
  }

  /** A failed model step justifies a refusal only without draft and critic, and only when no attempt was left. */
  predicate AcceptsModelFailure(s: Store, p: Proof, d: ArtifactId)
    requires d in s.artifacts && d.key.Step? && s.artifacts[d].Failed?
  {
    && IdentityKnown(s, d.identity) && p.draft.None? && p.critic.None?
    && s.artifacts[d].code == OutputSchemaInvalid && Refusal(s.artifacts[d].kind) && !SameStepCompleted(s, d)
    && (|| (s.artifacts[d].kind.ProviderRefusal? && s.artifacts[d].attempt == 0 && d.key.attempt == 0)
        || (s.artifacts[d].attempt == 1 && FailedTwice(s, d))
        || (s.artifacts[d].attempt == 0 && FailedAfterRepair(s, d)))
  }

  predicate AcceptsRuling(s: Store, p: Proof, d: ArtifactId)
    requires d in s.artifacts && d.key.Ruling?
  {
    && s.pack.Some? && p.draft.Some? && p.critic.Some? && RulingShape(d.key.decision, d.key.raw) && d.key.decision.action.Refuse?
    && HasDraft(s, p.draft.value) && HasCritic(s, p.critic.value)
    && d.identity.parents == [p.draft.value, p.critic.value] && p.critic.value.identity.parents == [p.draft.value]
    && d.identity.pack == Some(s.pack.value.id) && p.critic.value.identity.pack == d.identity.pack
    && p.draft.value.identity.pack == d.identity.pack
    && d.key.raw == P.CriticStoragePolicy(CriticAt(s, p.critic.value))
    && (d.key.decision.reason.RepairExhausted? || d.key.decision.reason.IncompleteTableVariant? ==> s.repair.Some?)
  }

  predicate AcceptsFailure(s: Store, p: Proof, d: ArtifactId)
    requires d in s.artifacts
  {
    match d.key
    case Step(role, _, _) =>
      if s.artifacts[d].Failed? then AcceptsModelFailure(s, p, d)
      else role.Critic? && HasCritic(s, d) && !P.CriticStoragePolicy(CriticAt(s, d)).Render?
    case PrecheckOf =>
      s.artifacts[d].Failed? && s.artifacts[d].code == VerificationFailed && AcceptsPrecheck(s, d)
    case Ruling(_, _) => s.artifacts[d].Completed? && AcceptsRuling(s, p, d)
    case RetrievalFrozen => false
  }

  /** Whether the database accepts an outcome with the artifacts that shall prove it. */
  predicate Accepts(s: Store, versions: nat, outcome: Outcome, p: Proof) {
    && ProofStored(s, p)
    && match outcome
       case Answered => AcceptsAnswer(s, versions, p)
       case Refused(code) =>
         && p.decision.Some?
         && match code
            case OutOfScope => AcceptsOutOfScope(s, p.decision.value)
            case NoRelevantContext => AcceptsNoContext(s, p.decision.value)
            case VerificationFailure => AcceptsFailure(s, p, p.decision.value)
  }
}
