/**
 One durable model step: an artifact is saved before the step is reported, at most one schema retry is bought per role,
 and a step that was interrupted is replayed from the store.
 */
module ModelStep {
  import opened Common
  import opened RunStore

  /** What the model call produced. A schema-valid draft with an invented citation is kept as a draft. */
  datatype Reply = Answered(value: Value)
                 | FabricatedCitation(value: Value)
                 | ProvenanceMismatch
                 | ModelError(code: Code, kind: FailureKind)
                 | CallCrashed

  datatype StepResult =
    | Done(id: ArtifactId, value: Value)
    | Rejected(id: ArtifactId, attempt: nat, kind: FailureKind)
    | Raised(id: ArtifactId, code: Code, attempt: nat, kind: FailureKind)
    | Interrupted

  function OutputRejected(id: ArtifactId, failed: Content): StepResult
    requires failed.Failed?
  {
    if failed.code != OutputSchemaInvalid || !Refusal(failed.kind)
    then Raised(id, failed.code, failed.attempt, failed.kind)
    else Rejected(id, failed.attempt, failed.kind)
  }

  predicate StepsOk(s: Store) {
    forall id :: id in s.artifacts && id.key.Step? ==>
      id.key.attempt <= 1 && (s.artifacts[id].Failed? ==> s.artifacts[id].attempt == id.key.attempt)
  }

  predicate BudgetsOk(s: Store) {
    forall r :: r in s.schema ==>
      s.schema[r] in s.artifacts && IsStep(s.schema[r], r) && s.schema[r].key.attempt == 0 && Retryable(s.artifacts[s.schema[r]])
  }

  predicate SecondsOk(s: Store) {
    forall id :: id in s.artifacts && IsSecond(id) ==>
      id.key.role in s.schema && s.schema[id.key.role] == StepId(id.key.role, id.key.phase, id.identity, 0)
  }

  predicate StoreOk(s: Store) {
    StepsOk(s) && BudgetsOk(s) && SecondsOk(s)
  }

  /** Nothing stored is ever changed or removed. */
  predicate Extends(s: Store, t: Store) {
    && (s.pack.Some? ==> t.pack == s.pack)
    && (s.repair.Some? ==> t.repair == s.repair)
    && (forall id :: id in s.artifacts ==> id in t.artifacts && t.artifacts[id] == s.artifacts[id])
    && (forall r :: r in s.schema ==> r in t.schema && t.schema[r] == s.schema[r])
  }

  /** The outcome of a step that the store alone already determines, if it does. */
  function Decided(s: Store, role: Role, phase: Phase, identity: Identity): Option<StepResult> {
    var a0 := StepId(role, phase, identity, 0);
    var a1 := StepId(role, phase, identity, 1);
    if a0 !in s.artifacts then None
    else if s.artifacts[a0].Completed? then Some(Done(a0, s.artifacts[a0].value))
    else if !Retryable(s.artifacts[a0]) then Some(OutputRejected(a0, s.artifacts[a0]))
    else if role !in s.schema then None
    else if s.schema[role] != a0 then Some(OutputRejected(a0, s.artifacts[a0]))
    else if a1 !in s.artifacts then None
    else if s.artifacts[a1].Completed? then Some(Done(a1, s.artifacts[a1].value))
    else Some(OutputRejected(a1, s.artifacts[a1]))
  }

  /** A decision survives everything any later execution may add to the store. */
  lemma DecisionIsFinal(s: Store, t: Store, role: Role, phase: Phase, identity: Identity)
    requires Extends(s, t) && Decided(s, role, phase, identity).Some?
    ensures Decided(t, role, phase, identity) == Decided(s, role, phase, identity)
  {
    var a0 := StepId(role, phase, identity, 0);
    assert t.artifacts[a0] == s.artifacts[a0];
  }

  // ---------------------------------------------------------------- stage events

  /** The attempt number recorded with the events of one schema attempt in one epoch. */
  function EventAttempt(epoch: nat, attempt: nat): nat
    requires 1 <= epoch && attempt <= 1
  {
    2 * (epoch - 1) + attempt + 1
  }

  /**
   Event attempts order exactly like (epoch, schema attempt), so no two of them collide; with the largest recovery
   allowance the database accepts (10) they stay within its limit of 32.
   */
  lemma EventAttemptsAreLexicographic(epoch: nat, attempt: nat, epoch': nat, attempt': nat)
    requires 1 <= epoch && 1 <= epoch' && attempt <= 1 && attempt' <= 1
    ensures EventAttempt(epoch, attempt) < EventAttempt(epoch', attempt')
            <==> epoch < epoch' || (epoch == epoch' && attempt < attempt')
    ensures EventAttempt(epoch, attempt) == EventAttempt(epoch', attempt') <==> epoch == epoch' && attempt == attempt'
    ensures epoch <= 1 + 10 ==> 1 <= EventAttempt(epoch, attempt) <= 32
  {
    if epoch < epoch' {
      assert 2 * (epoch - 1) + 2 <= 2 * (epoch' - 1);
    } else if epoch' < epoch {
      assert 2 * (epoch' - 1) + 2 <= 2 * (epoch - 1);
    }
  }

  // ---------------------------------------------------------------- what a step may leave in the store

  /** What a reply leaves in the store: an answer, a failed attempt, or nothing when the call itself went wrong. */
  function ContentOf(reply: Reply, attempt: nat): Option<Content> {
    match reply
    case Answered(value) => Some(Completed(value))
    case FabricatedCitation(value) => Some(Completed(value))
    case ModelError(code, kind) => Some(Failed(code, kind, attempt))
    case ProvenanceMismatch => None
    case CallCrashed => None
  }

  /** A reply that can be saved is saved; any other leaves the store as it is. */
  function Asked(s: Store, id: ArtifactId, reply: Reply): Store
    requires id.key.Step?
  {
    var content := ContentOf(reply, id.key.attempt);
    if content.Some? && SaveFailure(s, id, content.value).None? then Saved(s, id, content.value) else s
  }

  predicate WantsRetry(s: Store, a0: ArtifactId) {
    a0 in s.artifacts && Retryable(s.artifacts[a0])
  }

  predicate MayRetry(s: Store, a0: ArtifactId)
    requires a0.key.Step?
  {
    WantsRetry(s, a0) && a0.key.role in s.schema && s.schema[a0.key.role] == a0
  }

  function AfterFirst(s: Store, a0: ArtifactId, reply: Reply): Store
    requires a0.key.Step?
  {
    if a0 in s.artifacts then s else Asked(s, a0, reply)
  }

  function AfterRetry(s: Store, a0: ArtifactId): Store
    requires a0.key.Step?
  {
    if WantsRetry(s, a0) && RetryGranted(s, a0.key.role, a0) then WithRetry(s, a0.key.role, a0) else s
  }

  function AfterSecond(s: Store, a0: ArtifactId, a1: ArtifactId, reply: Reply): Store
    requires a0.key.Step? && a1.key.Step?
  {
    if MayRetry(s, a0) && a1 !in s.artifacts then Asked(s, a1, reply) else s
  }

  /** The store after the first attempt, after the retry was bought, and after the second attempt. */
  function Stage(s: Store, role: Role, phase: Phase, identity: Identity, replies: seq<Reply>, n: nat): Store
    requires |replies| == 2
  {
    var a0, a1 := StepId(role, phase, identity, 0), StepId(role, phase, identity, 1);
    if n == 0 then s
    else if n == 1 then AfterFirst(s, a0, replies[0])
    else if n == 2 then AfterRetry(AfterFirst(s, a0, replies[0]), a0)
    else AfterSecond(AfterRetry(AfterFirst(s, a0, replies[0]), a0), a0, a1, replies[1])
  }

  /** Every reply the step asks for can be saved. */
  predicate Savable(s: Store, role: Role, phase: Phase, identity: Identity, replies: seq<Reply>)
    requires |replies| == 2
  {
    var a0, a1 := StepId(role, phase, identity, 0), StepId(role, phase, identity, 1);
    && a0 in Stage(s, role, phase, identity, replies, 1).artifacts
    && (MayRetry(Stage(s, role, phase, identity, replies, 2), a0) ==> a1 in Stage(s, role, phase, identity, replies, 3).artifacts)
  }

  lemma AskedKeepsStore(s: Store, id: ArtifactId, reply: Reply)
    requires StoreOk(s) && id.key.Step? && id.key.attempt <= 1
    requires id.key.attempt == 1 ==> MayRetry(s, StepId(id.key.role, id.key.phase, id.identity, 0))
    ensures StoreOk(Asked(s, id, reply)) && Extends(s, Asked(s, id, reply))
    ensures Asked(s, id, reply) != s ==> Asked(s, id, reply) == Saved(s, id, ContentOf(reply, id.key.attempt).value)
  {
    hide KindError, ValidValue;
  }

  lemma AfterFirstKeepsStore(s: Store, a0: ArtifactId, reply: Reply)
    requires StoreOk(s) && a0.key.Step? && a0.key.attempt == 0
    ensures StoreOk(AfterFirst(s, a0, reply)) && Extends(s, AfterFirst(s, a0, reply))
  {
    AskedKeepsStore(s, a0, reply);
  }

  lemma AfterRetryKeepsStore(s: Store, a0: ArtifactId)
    requires StoreOk(s) && a0.key.Step? && a0.key.attempt == 0
    ensures StoreOk(AfterRetry(s, a0)) && Extends(s, AfterRetry(s, a0))
  {
  }

  lemma AfterSecondKeepsStore(s: Store, a0: ArtifactId, a1: ArtifactId, reply: Reply)
    requires StoreOk(s) && a0.key.Step? && a0.key.attempt == 0
    requires a1 == StepId(a0.key.role, a0.key.phase, a0.identity, 1)
    ensures StoreOk(AfterSecond(s, a0, a1, reply)) && Extends(s, AfterSecond(s, a0, a1, reply))
  {
    if MayRetry(s, a0) {
      AskedKeepsStore(s, a1, reply);
    }
  }

  // ---------------------------------------------------------------- execution

  /** Awaits of the longest step: two attempts, each stored, with the retry between them. */
  const PATIENCE := 13

  /**
   The durable store of one run together with the executor of its current epoch.  `Model` may stop at any await: its
   `patience` counts the awaits that still return, which covers crashes, cancellation, deadlines and lost leases.
   */
  class StageExecutor {
    var store: Store
    var calls: seq<ArtifactId>

    constructor (initial: Store)
      ensures store == initial && calls == []
    {
      store, calls := initial, [];
    }

    predicate Valid()
      reads this
    {
      StoreOk(store)
    }

    /** `agent.save_step_artifact` through the executor's connection. */
    method Save(id: ArtifactId, content: Content) returns (error: Option<SaveError>)
      modifies this`store
      ensures error == SaveFailure(old(store), id, content)
      ensures store == if error.None? then Saved(old(store), id, content) else old(store)
      ensures Extends(old(store), store)
      ensures error.None? ==> id in store.artifacts && store.artifacts[id] == content
      ensures error.None? && id !in old(store).artifacts ==> |old(store).artifacts| < MAX_ARTIFACTS
      ensures id in old(store).artifacts ==> store == old(store) && (error.None? ==> old(store).artifacts[id] == content)
    {
      error := SaveFailure(store, id, content);
      if error.None? { store := Saved(store, id, content); }
    }

    /** `agent.consume_schema_retry`: the role's single retry, idempotent for the artifact that bought it. */
    method ConsumeRetry(a0: ArtifactId) returns (granted: bool)
      requires Valid() && a0.key.Step? && a0.key.attempt == 0 && WantsRetry(store, a0)
      modifies this`store
      ensures store == AfterRetry(old(store), a0) && Valid()
      ensures granted <==> MayRetry(store, a0)
      ensures WantsRetry(store, a0) && a0.key.role in store.schema
      ensures a0.key.role in old(store).schema ==> store == old(store)
    {
      AfterRetryKeepsStore(store, a0);
      if a0.key.role in store.schema {
        granted := store.schema[a0.key.role] == a0;
        if granted { assert WithRetry(store, a0.key.role, a0) == store; }
        return;
      }
      store := WithRetry(store, a0.key.role, a0);
      return true;
    }

    /**
     Ask the model once and store what came back, if it can be stored.  Nothing is returned exactly when a failed
     artifact was stored; an error of the database is an interruption.
     */
    method Infer(id: ArtifactId, reply: Reply, patience: nat) returns (result: Option<StepResult>, left: nat)
      requires id.key.Step? && id !in store.artifacts
      modifies this`store, this`calls
      ensures store == old(store) || store == Asked(old(store), id, reply)
      ensures calls == old(calls) || calls == old(calls) + [id]
      ensures patience >= 4 ==> left >= patience - 4
                                && (result == Some(Interrupted) <==> id !in Asked(old(store), id, reply).artifacts)
                                && store == Asked(old(store), id, reply)
      ensures result.None? ==> id in store.artifacts && store.artifacts[id].Failed?
      ensures result.Some? ==> result.value.Interrupted?
                               || (id in store.artifacts && store.artifacts[id].Completed?
                                   && result.value == Done(id, store.artifacts[id].value))
    {
      hide SaveFailure;
      left := patience;
      if left == 0 { return Some(Interrupted), left; }  // stage.started
      left := left - 1;
      calls := calls + [id];
      if left == 0 || reply.CallCrashed? || reply.ProvenanceMismatch? { return Some(Interrupted), left; }
      left := left - 1;
      var content := if reply.ModelError? then Failed(reply.code, reply.kind, id.key.attempt) else Completed(reply.value);
      var error := Save(id, content);
      if error.Some? || left == 0 { return Some(Interrupted), left; }  // the row may be stored and the answer lost
      left := left - 1;
      if content.Completed? {
        if left == 0 { return Some(Interrupted), left; }  // stage.completed
        return Some(Done(id, content.value)), left;
      }
      return None, left;
    }

    /** One schema attempt: replayed when its artifact is stored, asked otherwise; nothing is returned when it failed. */
    method Attempt(id: ArtifactId, reply: Reply, patience: nat) returns (answer: Option<StepResult>, left: nat)
      requires id.key.Step?
      modifies this`store, this`calls
      ensures id in old(store).artifacts ==> store == old(store) && calls == old(calls)
      ensures id !in old(store).artifacts ==> store == old(store) || store == Asked(old(store), id, reply)
      ensures calls == old(calls) || calls == old(calls) + [id]
      ensures answer.None? ==> id in store.artifacts && store.artifacts[id].Failed?
      ensures answer.Some? ==> answer.value.Interrupted?
                               || (id in store.artifacts && store.artifacts[id].Completed?
                                   && answer.value == Done(id, store.artifacts[id].value))
      ensures patience >= 5 && (id in old(store).artifacts || id in Asked(old(store), id, reply).artifacts) ==>
                left >= patience - 5 && answer != Some(Interrupted)
    {
      hide Asked;
      left := patience;
      if left == 0 { return Some(Interrupted), left; }  // guard and find
      left := left - 1;
      if id in store.artifacts {
        if store.artifacts[id].Failed? { return None, left; }
        if left < 2 { return Some(Interrupted), left; }  // the two replayed stage events
        return Some(Done(id, store.artifacts[id].value)), left;
      }
      answer, left := Infer(id, reply, left);
    }

    /** One step: two schema attempts at most, each replayed from the store when it is already there. */
    method Model(role: Role, phase: Phase, identity: Identity, replies: seq<Reply>, patience: nat)
      returns (result: StepResult)
      requires Valid() && |replies| == 2
      modifies this
      ensures Valid() && Extends(old(store), store)
      ensures exists n: nat :: n <= 3 && store == Stage(old(store), role, phase, identity, replies, n)
      ensures patience >= PATIENCE && Savable(old(store), role, phase, identity, replies) ==> !result.Interrupted?
      ensures old(Decided(store, role, phase, identity)).Some? ==>
                && store == old(store) && calls == old(calls)
                && (result.Interrupted? || Some(result) == old(Decided(store, role, phase, identity)))
      ensures !result.Interrupted? ==> Decided(store, role, phase, identity) == Some(result)
      ensures old(calls) <= calls && |calls| <= |old(calls)| + 2
      ensures forall i :: |old(calls)| <= i < |calls| ==> calls[i] !in old(store).artifacts
    {
      hide Asked, StoreOk, Decided, Extends, Retryable;
      ghost var s := store;
      ghost var a0, a1 := StepId(role, phase, identity, 0), StepId(role, phase, identity, 1);
      AllStagesKeep(s, role, phase, identity, replies);
      if Decided(s, role, phase, identity).Some? { DecidedStays(s, role, phase, identity, replies); }
      var left: nat := patience;
      var attempt := 0;
      while true
        invariant attempt == 0 || attempt == 1
        invariant attempt == 0 ==> store == s && calls == old(calls)
        invariant attempt == 1 ==> store == Stage(s, role, phase, identity, replies, 2) && MayRetry(store, a0)
        invariant calls == old(calls) || (a0 !in s.artifacts && calls == old(calls) + [a0])
        invariant patience >= PATIENCE && a0 in Stage(s, role, phase, identity, replies, 1).artifacts ==>
                    left >= if attempt == 0 then PATIENCE else 5
        decreases 2 - attempt
      {
        var id := StepId(role, phase, identity, attempt);
        var answer;
        answer, left := Attempt(id, replies[attempt], left);
        assert store == Stage(s, role, phase, identity, replies, 2 * attempt)
               || store == Stage(s, role, phase, identity, replies, 2 * attempt + 1);
        EndsDecide(Stage(s, role, phase, identity, replies, 2 * attempt), store, role, phase, identity, attempt);
        if answer.Some? { return answer.value; }
        var failed := store.artifacts[id];
        if attempt == 1 || !Retryable(failed) { return OutputRejected(id, failed); }
        assert store == Stage(s, role, phase, identity, replies, 1);
        var granted := ConsumeRetry(id);
        assert store == Stage(s, role, phase, identity, replies, 2);
        if left == 0 { return Interrupted; }
        if !granted {
          SpentElsewhere(store, role, phase, identity);
          return OutputRejected(id, failed);
        }
        if left < 3 { return Interrupted; }  // stage.started, stage.retry_scheduled
        left := left - 3;
        attempt := 1;
      }
    }
  }

  /** The outcomes at the end of a round are decided: an answer, or a failure with no attempt behind it. */
  lemma EndsDecide(before: Store, s: Store, role: Role, phase: Phase, identity: Identity, attempt: nat)
    requires attempt <= 1 && (attempt == 1 ==> MayRetry(before, StepId(role, phase, identity, 0)) && Extends(before, s))
    ensures var id := StepId(role, phase, identity, attempt);
            && (HasCompleted(s, id) ==> Decided(s, role, phase, identity) == Some(Done(id, s.artifacts[id].value)))
            && (id in s.artifacts && s.artifacts[id].Failed? && (attempt == 1 || !Retryable(s.artifacts[id])) ==>
                  Decided(s, role, phase, identity) == Some(OutputRejected(id, s.artifacts[id])))
  {
  }

  lemma SpentElsewhere(s: Store, role: Role, phase: Phase, identity: Identity)
    requires WantsRetry(s, StepId(role, phase, identity, 0)) && role in s.schema && s.schema[role] != StepId(role, phase, identity, 0)
    ensures var a0 := StepId(role, phase, identity, 0);
            Decided(s, role, phase, identity) == Some(OutputRejected(a0, s.artifacts[a0]))
  {
  }

  lemma AllStagesKeep(s: Store, role: Role, phase: Phase, identity: Identity, replies: seq<Reply>)
    requires StoreOk(s) && |replies| == 2
    ensures forall n: nat :: n <= 3 ==>
              StoreOk(Stage(s, role, phase, identity, replies, n)) && Extends(s, Stage(s, role, phase, identity, replies, n))
    ensures forall id :: id in s.artifacts ==> id in Stage(s, role, phase, identity, replies, 2).artifacts
    ensures Extends(Stage(s, role, phase, identity, replies, 2), Stage(s, role, phase, identity, replies, 2))
    ensures Extends(Stage(s, role, phase, identity, replies, 2), Stage(s, role, phase, identity, replies, 3))
  {
    hide Asked, StoreOk;
    var a0, a1 := StepId(role, phase, identity, 0), StepId(role, phase, identity, 1);
    AfterFirstKeepsStore(s, a0, replies[0]);
    var s1 := AfterFirst(s, a0, replies[0]);
    AfterRetryKeepsStore(s1, a0);
    var s2 := AfterRetry(s1, a0);
    AfterSecondKeepsStore(s2, a0, a1, replies[1]);
  }

  /** A decided step has nothing more to leave in the store. */
  lemma DecidedStays(s: Store, role: Role, phase: Phase, identity: Identity, replies: seq<Reply>)
    requires |replies| == 2 && Decided(s, role, phase, identity).Some?
    ensures forall n: nat :: n <= 3 ==> Stage(s, role, phase, identity, replies, n) == s
    ensures StepId(role, phase, identity, 0) in s.artifacts
    ensures MayRetry(s, StepId(role, phase, identity, 0)) ==> StepId(role, phase, identity, 1) in s.artifacts
  {
    hide Asked;
    var a0 := StepId(role, phase, identity, 0);
    assert AfterFirst(s, a0, replies[0]) == s;
    assert AfterRetry(s, a0) == s;
  }

  // ---------------------------------------------------------------- whole runs

  datatype Request = Request(role: Role, phase: Phase, identity: Identity, replies: seq<Reply>, patience: nat)

  predicate SameStep(a: Request, b: Request) {
    a.role == b.role && a.phase == b.phase && a.identity == b.identity
  }

  /** Every outcome reported so far is the one the store determines. */
  predicate AllReported(s: Store, requests: seq<Request>, results: seq<StepResult>) {
    && |results| <= |requests|
    && forall i :: 0 <= i < |results| ==> Reported(s, requests[i], results[i])
  }

  predicate Reported(s: Store, q: Request, result: StepResult) {
    !result.Interrupted? ==> Decided(s, q.role, q.phase, q.identity) == Some(result)
  }

  lemma ReportedLater(s: Store, t: Store, requests: seq<Request>, results: seq<StepResult>)
    requires AllReported(s, requests, results) && Extends(s, t)
    ensures AllReported(t, requests, results)
  {
    hide Decided;
    forall i | 0 <= i < |results| ensures Reported(t, requests[i], results[i]) {
      assert Reported(s, requests[i], results[i]);
      if !results[i].Interrupted? {
        DecisionIsFinal(s, t, requests[i].role, requests[i].phase, requests[i].identity);
      }
    }
  }

  /** An execution of a step with a reported outcome repeats it without a call, or is interrupted. */
  predicate Repeats(earlier: Request, outcome: StepResult, later: Request, result: StepResult, asked: nat) {
    SameStep(earlier, later) && !outcome.Interrupted? ==> asked == 0 && (result.Interrupted? || result == outcome)
  }

  /** One execution of a step, seen from outside: what it reports and how often it asked the model. */
  method Execute(executor: StageExecutor, q: Request) returns (result: StepResult, asked: nat)
    requires executor.Valid() && |q.replies| == 2
    modifies executor
    ensures executor.Valid() && Extends(old(executor.store), executor.store)
    ensures Reported(executor.store, q, result)
    ensures var known := Decided(old(executor.store), q.role, q.phase, q.identity);
            known.Some? ==> asked == 0 && (result.Interrupted? || result == known.value)
  {
    hide Decided;
    var before := |executor.calls|;
    result := executor.Model(q.role, q.phase, q.identity, q.replies, q.patience);
    asked := |executor.calls| - before;
  }

  /**
   Any sequence of executions of any steps, each interrupted anywhere, over one store: once one execution of a step
   reported an outcome, every later execution of that step reports the same outcome or is interrupted, and asks the
   model nothing.
   */
  method Replay(requests: seq<Request>, initial: Store) returns (results: seq<StepResult>, asked: seq<nat>, executor: StageExecutor)
    requires StoreOk(initial) && forall i :: 0 <= i < |requests| ==> |requests[i].replies| == 2
    ensures fresh(executor) && executor.Valid()
    ensures |results| == |asked| == |requests|
    ensures forall i, j :: 0 <= i < j < |requests| ==> Repeats(requests[i], results[i], requests[j], results[j], asked[j])
    ensures AllReported(executor.store, requests, results)
  {
    hide Decided;
    executor := new StageExecutor(initial);
    results, asked := [], [];
    for n := 0 to |requests|
      invariant fresh(executor) && executor.Valid()
      invariant |results| == |asked| == n
      invariant AllReported(executor.store, requests, results)
      invariant forall i, j :: 0 <= i < j < n ==> Repeats(requests[i], results[i], requests[j], results[j], asked[j])
    {
      var q := requests[n];
      ghost var before := executor.store;
      var result, calls := Execute(executor, q);
      forall i | 0 <= i < n ensures Repeats(requests[i], results[i], q, result, calls) {
        assert Reported(before, requests[i], results[i]);
      }
      ReportedLater(before, executor.store, requests, results);
      results := results + [result];
      asked := asked + [calls];
    }
  }
}
