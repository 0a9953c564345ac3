/** What the checks of the database routines make of the store of a run, whoever writes it. */
module RunStoreSafety {
  import opened Common
  import opened RunStore
  import opened ModelStep
  import P = Policy

  predicate OfPack(s: Store, id: ArtifactId) {
    s.pack.Some? && id.identity == Identity(0, Some(s.pack.value.id), id.identity.parents)
  }

  /** The one parent of an artifact is a draft of a given origin. */
  predicate UnderDraft(s: Store, id: ArtifactId, role: Role) {
    |id.identity.parents| == 1 && HasDraft(s, id.identity.parents[0]) && IsStep(id.identity.parents[0], role)
  }

  predicate UnderCritic(s: Store, id: ArtifactId) {
    && |id.identity.parents| == 1 && HasCritic(s, id.identity.parents[0]) && id.identity.parents[0].key.phase.Initial?
    && s.repair.Some? && s.repair.value.critic == id.identity.parents[0]
  }

  /** Where an artifact stands: which artifacts it may follow, and in which phase. */
  predicate Shaped(s: Store, id: ArtifactId) {
    match id.key
    case Step(Router, phase, _) => phase.Initial? && id.identity.pack.None? && id.identity.parents == []
    case Step(Drafter, phase, _) => phase.Initial? && OfPack(s, id) && id.identity.parents == []
    case Step(Critic, phase, _) => OfPack(s, id) && UnderDraft(s, id, if phase.Initial? then Drafter else Repairer)
    case Step(Repairer, phase, _) => phase.Initial? && OfPack(s, id) && UnderCritic(s, id)
    case RetrievalFrozen => OfPack(s, id) && id.identity.parents == []
    case PrecheckOf => OfPack(s, id) && |id.identity.parents| == 1 && HasDraft(s, id.identity.parents[0])
    case Ruling(d, raw) => OfPack(s, id) && RulingFits(s, id) && RulingShape(d, raw)
  }

  /** A critic that was let through for the draft it judges. */
  predicate JudgesDraft(s: Store, id: ArtifactId, k: P.Critic) {
    && s.pack.Some? && |id.identity.parents| == 1 && HasDraft(s, id.identity.parents[0])
    && P.CriticSchema(k) && P.ValidCritic(k, DraftAt(s, id.identity.parents[0]), s.pack.value.units.Keys)
  }

  /** What an artifact holds. */
  predicate Valued(s: Store, id: ArtifactId, c: Content) {
    match id.key
    case Step(Router, _, _) => c.Completed? ==> c.value.Route?
    case Step(Drafter, _, _) => c.Completed? ==> c.value.Drafted? && P.DraftSchema(c.value.draft)
    case Step(Repairer, _, _) => c.Completed? ==> c.value.Drafted? && P.DraftSchema(c.value.draft)
    case Step(Critic, _, _) => c.Completed? ==> c.value.Judged? && JudgesDraft(s, id, c.value.critic)
    case RetrievalFrozen => s.pack.Some? && c == Completed(Retrieved(s.pack.value.units == map[]))
    case PrecheckOf => true
    case Ruling(_, _) => c == Completed(Ruled)
  }

  predicate SoundAt(s: Store, id: ArtifactId, c: Content) {
    Shaped(s, id) && Valued(s, id, c)
  }

  predicate ArtifactsSound(s: Store) {
    forall id :: id in s.artifacts ==> SoundAt(s, id, s.artifacts[id])
  }

  predicate RepairSound(s: Store) {
    s.repair.Some? ==>
      && HasCritic(s, s.repair.value.critic) && s.repair.value.critic.key.phase.Initial?
      && RepairProof(s, s.repair.value.decision) == Some(s.repair.value.critic)
  }

  predicate Sound(s: Store) {
    StoreOk(s) && ArtifactsSound(s) && RepairSound(s)
  }

  // ---------------------------------------------------------------- growth

  lemma SoundAtGrows(s: Store, t: Store, id: ArtifactId, c: Content)
    requires Extends(s, t) && SoundAt(s, id, c)
    ensures SoundAt(t, id, c)
  {
  }

  lemma RepairProofGrows(s: Store, t: Store, d: ArtifactId)
    requires Extends(s, t) && RepairProof(s, d).Some?
    ensures RepairProof(t, d) == RepairProof(s, d)
  {
  }

  /** A store grows soundly when each new artifact is sound in the grown store. */
  lemma GrowsSoundly(s: Store, t: Store)
    requires Sound(s) && Extends(s, t) && StoreOk(t) && t.repair == s.repair
    requires forall id :: id in t.artifacts && id !in s.artifacts ==> SoundAt(t, id, t.artifacts[id])
    ensures Sound(t)
  {
    hide SoundAt, StoreOk, RepairProof;
    forall id | id in t.artifacts ensures SoundAt(t, id, t.artifacts[id]) {
      if id in s.artifacts {
        assert SoundAt(s, id, s.artifacts[id]);
        SoundAtGrows(s, t, id, s.artifacts[id]);
      }
    }
    if s.repair.Some? {
      RepairProofGrows(s, t, s.repair.value.decision);
    }
  }

  /** The cap is an error only at the cap. */
  lemma CapIsReached(s: Store, id: ArtifactId, c: Content)
    requires SaveFailure(s, id, c) == Some(CapacityExceeded)
    ensures |s.artifacts| >= MAX_ARTIFACTS
  {
  }

  lemma SavedExtends(s: Store, id: ArtifactId, c: Content)
    requires SaveFailure(s, id, c).None?
    ensures Extends(s, Saved(s, id, c))
  {
  }

  /** A local artifact that the database saves leaves the model steps as they are. */
  lemma LocalKeepsSteps(s: Store, id: ArtifactId, c: Content)
    requires StoreOk(s) && !id.key.Step? && SaveFailure(s, id, c).None?
    ensures StoreOk(Saved(s, id, c))
  {
    hide SaveFailure;
    SavedExtends(s, id, c);
  }

  lemma SavedKeepsSound(s: Store, id: ArtifactId, c: Content)
    requires Sound(s) && SaveFailure(s, id, c).None? && StoreOk(Saved(s, id, c)) && SoundAt(s, id, c)
    ensures Sound(Saved(s, id, c)) && Extends(s, Saved(s, id, c))
  {
    hide SaveFailure, StoreOk, SoundAt;
    SavedExtends(s, id, c);
    SoundAtGrows(s, Saved(s, id, c), id, c);
    GrowsSoundly(s, Saved(s, id, c));
  }

  lemma RetryKeepsSound(s: Store, a0: ArtifactId)
    requires Sound(s) && a0.key.Step? && a0.key.attempt == 0
    ensures Sound(AfterRetry(s, a0)) && Extends(s, AfterRetry(s, a0))
  {
    hide StoreOk, SoundAt;
    AfterRetryKeepsStore(s, a0);
    GrowsSoundly(s, AfterRetry(s, a0));
  }

  lemma PackKeepsSound(s: Store, p: Pack)
    requires Sound(s) && s.pack.None?
    ensures Sound(s.(pack := Some(p))) && Extends(s, s.(pack := Some(p)))
  {
    hide SoundAt;
    GrowsSoundly(s, s.(pack := Some(p)));
  }

  lemma RepairKeepsSound(s: Store, d: ArtifactId)
    requires Sound(s) && RepairGranted(s, d) && RepairProof(s, d).value.key.Step? && RepairProof(s, d).value.key.phase.Initial?
    ensures Sound(WithRepair(s, d)) && Extends(s, WithRepair(s, d))
  {
    var t := WithRepair(s, d);
    forall id | id in t.artifacts ensures SoundAt(t, id, t.artifacts[id]) {
      SoundAtGrows(s, t, id, s.artifacts[id]);
    }
    RepairProofGrows(s, t, d);
  }

  // ---------------------------------------------------------------- one artifact of a kind

  /** Of two attempts of one step, at most one is completed. */
  lemma OneOfStep(s: Store, x: ArtifactId, y: ArtifactId)
    requires StoreOk(s) && HasCompleted(s, x) && HasCompleted(s, y)
    requires x.key.Step? && y.key.Step? && x.key.role == y.key.role && x.key.phase == y.key.phase && x.identity == y.identity
    ensures x == y
  {
    assert IsSecond(x) ==> s.schema[x.key.role] == StepId(x.key.role, x.key.phase, x.identity, 0);
    assert IsSecond(y) ==> s.schema[y.key.role] == StepId(y.key.role, y.key.phase, y.identity, 0);
  }

  lemma OneDraft(s: Store, x: ArtifactId, y: ArtifactId)
    requires Sound(s) && x in s.artifacts && y in s.artifacts && IsStep(x, Drafter) && IsStep(y, Drafter)
    ensures x.identity == y.identity && x.key.phase == y.key.phase
    ensures HasCompleted(s, x) && HasCompleted(s, y) ==> x == y
  {
    assert SoundAt(s, x, s.artifacts[x]) && SoundAt(s, y, s.artifacts[y]);
    if HasCompleted(s, x) && HasCompleted(s, y) { OneOfStep(s, x, y); }
  }

  lemma OneFirstCritic(s: Store, x: ArtifactId, y: ArtifactId)
    requires Sound(s) && x in s.artifacts && y in s.artifacts && IsStep(x, Critic) && IsStep(y, Critic)
    requires x.key.phase.Initial? && y.key.phase.Initial?
    ensures x.identity == y.identity
    ensures HasCompleted(s, x) && HasCompleted(s, y) ==> x == y
  {
    assert SoundAt(s, x, s.artifacts[x]) && SoundAt(s, y, s.artifacts[y]);
    OneDraft(s, x.identity.parents[0], y.identity.parents[0]);
    if HasCompleted(s, x) && HasCompleted(s, y) { OneOfStep(s, x, y); }
  }

  lemma OneRepair(s: Store, x: ArtifactId, y: ArtifactId)
    requires Sound(s) && x in s.artifacts && y in s.artifacts && IsStep(x, Repairer) && IsStep(y, Repairer)
    ensures x.identity == y.identity && x.key.phase == y.key.phase
    ensures HasCompleted(s, x) && HasCompleted(s, y) ==> x == y
  {
    assert SoundAt(s, x, s.artifacts[x]) && SoundAt(s, y, s.artifacts[y]);
    if HasCompleted(s, x) && HasCompleted(s, y) { OneOfStep(s, x, y); }
  }

  lemma OneSecondCritic(s: Store, x: ArtifactId, y: ArtifactId)
    requires Sound(s) && x in s.artifacts && y in s.artifacts && IsStep(x, Critic) && IsStep(y, Critic)
    requires x.key.phase.Repaired? && y.key.phase.Repaired?
    ensures x.identity == y.identity
  {
    assert SoundAt(s, x, s.artifacts[x]) && SoundAt(s, y, s.artifacts[y]);
    OneRepair(s, x.identity.parents[0], y.identity.parents[0]);
  }

  /** Equal identities of one role belong to one phase. */
  lemma IdentityHasPhase(s: Store, x: ArtifactId, y: ArtifactId)
    requires Sound(s) && x in s.artifacts && y in s.artifacts && x.key.Step? && y.key.Step?
    requires x.key.role == y.key.role && x.identity == y.identity
    ensures x.key.phase == y.key.phase
  {
    assert SoundAt(s, x, s.artifacts[x]) && SoundAt(s, y, s.artifacts[y]);
  }

  /** A step of any role but the router's runs once in a phase: all its artifacts have one identity. */
  lemma OneIdentity(s: Store, x: ArtifactId, y: ArtifactId)
    requires Sound(s) && x in s.artifacts && y in s.artifacts && x.key.Step? && y.key.Step?
    requires x.key.role == y.key.role && !x.key.role.Router? && x.key.phase == y.key.phase
    ensures x.identity == y.identity
  {
    match x.key.role
    case Drafter => OneDraft(s, x, y);
    case Repairer => OneRepair(s, x, y);
    case Critic => if x.key.phase.Initial? { OneFirstCritic(s, x, y); } else { OneSecondCritic(s, x, y); }
  }

  // ---------------------------------------------------------------- the gateway's checks are the database's

  lemma VerdictIsBound(k: P.Critic, d: P.Draft, pack: Pack, i: nat)
    requires i < |k.verdicts| && P.ValidCritic(k, d, pack.units.Keys)
    ensures VerdictBound(k.verdicts[i], d, pack)
  {
    var v := k.verdicts[i];
    assert v.claim in P.VerdictClaims(k);
    assert v.claim in P.ClaimIds(d);
    var j :| 0 <= j < |d.claims| && d.claims[j].id == v.claim;
    forall e | e in v.evidence ensures e in pack.units && CitedByClaim(d, v.claim, e) {
      assert e in P.Ids(v.evidence);
      assert e in P.Ids(d.claims[j].evidence);
    }
  }

  /** A critic the gateway let through for a publishable draft is bound for the database. */
  lemma ValidCriticIsBound(k: P.Critic, d: P.Draft, pack: Pack)
    requires P.ValidCritic(k, d, pack.units.Keys) && DraftPublishable(d, pack)
    ensures CriticBound(k, d, pack)
  {
    forall i | 0 <= i < |k.verdicts| ensures VerdictBound(k.verdicts[i], d, pack) {
      VerdictIsBound(k, d, pack, i);
    }
  }

  /** A draft that passes the precheck is bound for the database. */
  lemma PassingIsBound(d: P.Draft, pack: Pack, groups: Option<seq<P.CitationGroup>>)
    requires P.PrecheckFailure(d, pack.units, groups).None?
    ensures DraftBound(d, pack)
  {
  }

  /** Where the policy goes beyond the critic, its decision has one of the shapes the database knows. */
  lemma BeyondIsShaped(d: P.Draft, k: P.Critic, units: set<P.EvidenceId>, precheck: Option<P.Code>, missing: seq<P.Message>, attempts: int)
    requires P.Aggregate(d, k, units, precheck, missing, attempts).Ok?
    requires P.Aggregate(d, k, units, precheck, missing, attempts).value.action != P.CriticStoragePolicy(k)
    ensures var decision := P.Aggregate(d, k, units, precheck, missing, attempts).value;
            && RulingShape(decision, P.CriticStoragePolicy(k))
            && (decision.action.Refuse? ==> NeedsRepair(decision) && attempts == 1)
            && (decision.action.Repair? ==> attempts == 0)
  {
    P.AggregateRefinesStoragePolicy(d, k, units, precheck, missing, attempts);
  }

  // ---------------------------------------------------------------- a failed model step

  /** What a rejected step left: which attempt failed, and with what budget. */
  predicate RejectedWith(s: Store, d: ArtifactId, role: Role, phase: Phase, identity: Identity) {
    && (d == StepId(role, phase, identity, 0) || d == StepId(role, phase, identity, 1))
    && Decided(s, role, phase, identity).Some? && Decided(s, role, phase, identity).value.Rejected?
    && Decided(s, role, phase, identity).value.id == d
  }

  /** A router's first attempt that earned a retry it did not get: the router's retry went to another input. */
  predicate RetryLost(s: Store, d: ArtifactId) {
    && d in s.artifacts && d.key.Step? && d.key.attempt == 0 && WantsRetry(s, d)
    && d.key.role in s.schema && s.schema[d.key.role] != d
  }

  lemma RejectionIsFailure(s: Store, d: ArtifactId, role: Role, phase: Phase, identity: Identity)
    requires StoreOk(s) && RejectedWith(s, d, role, phase, identity)
    ensures d in s.artifacts && s.artifacts[d].Failed? && s.artifacts[d].attempt == d.key.attempt
    ensures s.artifacts[d].code == OutputSchemaInvalid && Refusal(s.artifacts[d].kind)
    ensures d.key.attempt == 1 ==> FailedTwice(s, d)
    ensures d.key.attempt == 0 ==> s.artifacts[d].kind.ProviderRefusal? || RetryLost(s, d)
  {
  }

  lemma NoneCompleted(s: Store, d: ArtifactId, role: Role, phase: Phase, identity: Identity)
    requires Sound(s) && RejectedWith(s, d, role, phase, identity)
    ensures !SameStepCompleted(s, d)
  {
    RejectionIsFailure(s, d, role, phase, identity);
    forall x | x in s.artifacts && IsStep(x, role) && x.identity == identity ensures s.artifacts[x].Failed? {
      IdentityHasPhase(s, x, d);
      var a0, a1 := StepId(role, phase, identity, 0), StepId(role, phase, identity, 1);
      assert x == a0 || x == a1;
      if IsSecond(x) { assert s.schema[role] == a0; }
    }
  }

  /** Only the router and the critic of a repaired draft can lose their retry to another step. */
  lemma LostRetry(s: Store, d: ArtifactId)
    requires Sound(s) && RetryLost(s, d)
    ensures d.key.role.Router? || (d.key.role.Critic? && d.key.phase.Repaired? && s.schema[Critic].key.phase.Initial?)
  {
    var first := s.schema[d.key.role];
    assert SoundAt(s, d, s.artifacts[d]) && SoundAt(s, first, s.artifacts[first]);
    if !d.key.role.Router? && first.key.phase == d.key.phase {
      OneIdentity(s, d, first);
    } else if d.key.role.Critic? && first.key.phase.Repaired? {
      FirstCriticWasRetried(s, d, first);
    }
  }

  /** Once a repaired draft is judged, a failed first attempt of the first critic was the one that was retried. */
  lemma FirstCriticWasRetried(s: Store, d: ArtifactId, later: ArtifactId)
    requires Sound(s) && d in s.artifacts && IsStep(d, Critic) && d.key.phase.Initial? && d.key.attempt == 0 && s.artifacts[d].Failed?
    requires later in s.artifacts && IsStep(later, Critic) && later.key.phase.Repaired?
    ensures Critic in s.schema && s.schema[Critic] == d
  {
    assert SoundAt(s, later, s.artifacts[later]);
    var repaired := later.identity.parents[0];
    assert SoundAt(s, repaired, s.artifacts[repaired]);
    var retried := s.repair.value.critic;
    OneFirstCritic(s, d, retried);
    assert IsSecond(retried);
  }

  /** A critic that lost its retry to the first critic comes from the repair that the first critic's retry bought. */
  lemma LostCriticRetry(s: Store, d: ArtifactId)
    requires Sound(s) && RetryLost(s, d) && d.key.role.Critic?
    ensures FailedAfterRepair(s, d)
  {
    LostRetry(s, d);
    var first := s.schema[Critic];
    assert SoundAt(s, d, s.artifacts[d]);
    var repaired := d.identity.parents[0];
    assert SoundAt(s, repaired, s.artifacts[repaired]);
    var retried := s.repair.value.critic;
    assert SoundAt(s, retried, s.artifacts[retried]);
    OneFirstCritic(s, first, retried);
    assert first != retried;
    assert IsSecond(retried);
  }

  /**
   A rejected model step proves a refusal to the database, except where the router lost its retry: then nothing was
   retried for this input, and the refusal is turned down.
   */
  lemma ModelFailureIsAccepted(s: Store, d: ArtifactId, role: Role, phase: Phase, identity: Identity)
    requires Sound(s) && RejectedWith(s, d, role, phase, identity) && IdentityKnown(s, identity)
    ensures d in s.artifacts && s.artifacts[d].Failed?
    ensures AcceptsModelFailure(s, Proof(None, None, Some(d)), d) <==> !(role.Router? && RetryLost(s, d))
  {
    RejectionIsFailure(s, d, role, phase, identity);
    NoneCompleted(s, d, role, phase, identity);
    if RetryLost(s, d) {
      LostRetry(s, d);
      if role.Critic? { LostCriticRetry(s, d); }
    }
  }
}
