/** What holds of every execution of the answer graph, with interruptions after any durable effect. */
module AnswerGraphResults {
  import opened Common
  import opened RunStore
  import opened RunStoreSafety
  import opened ModelStep
  import opened AnswerGraph
  import opened AnswerGraphSafety
  import P = Policy

  // ---------------------------------------------------------------- progress

  predicate GetsCloser(w: World, c: Conf, ch: Choice) {
    RunNode(w, c, ch).Ok? ==> Remaining(RunNode(w, c, ch).value) < Remaining(c)
  }

  lemma EarlyNodesGetCloser(w: World, c: Conf, ch: Choice)
    requires Inv(w, c)
    requires c.node.Load? || c.node.RouterNode? || c.node.Retriever? || c.node.BuildContext? || c.node.DrafterNode?
    ensures GetsCloser(w, c, ch)
  {
    hide Sound, Prechecked, SaveLocal, Decided;
  }

  lemma CheckingNodesGetCloser(w: World, c: Conf, ch: Choice)
    requires Inv(w, c) && (c.node.Prechecks? || c.node.CriticNode?)
    ensures GetsCloser(w, c, ch)
  {
    hide Sound, Prechecked, SavePrecheck, Decided, Passes;
  }

  lemma PolicyGetsCloser(w: World, c: Conf, ch: Choice)
    requires Inv(w, c) && c.node.PolicyNode?
    ensures GetsCloser(w, c, ch)
  {
    hide Sound, Prechecked, SaveLocal, Passes, P.CriticStoragePolicy, P.Aggregate;
    if Decide(w, c).Ok? { DecisionRefines(w, c); }
  }

  lemma LateNodesGetCloser(w: World, c: Conf, ch: Choice)
    requires Inv(w, c)
    requires c.node.Renderer? || c.node.DefaultIntent? || c.node.NoContext? || c.node.FailureNode? || c.node.Finished?
    ensures GetsCloser(w, c, ch)
  {
    hide Sound, Prechecked, Decided, Passes, Decide, BoughtRepair;
  }

  lemma RepairGetsCloser(w: World, c: Conf, ch: Choice)
    requires Inv(w, c) && c.node.RepairNode?
    ensures GetsCloser(w, c, ch)
  {
    hide Sound, Prechecked, Decided, Passes, Decide, BoughtRepair;
  }

  lemma EveryNodeGetsCloser(w: World, c: Conf, ch: Choice)
    requires Inv(w, c)
    ensures GetsCloser(w, c, ch)
  {
    hide Inv, GetsCloser;
    match c.node
    case Prechecks => CheckingNodesGetCloser(w, c, ch);
    case CriticNode => CheckingNodesGetCloser(w, c, ch);
    case PolicyNode => PolicyGetsCloser(w, c, ch);
    case RepairNode => RepairGetsCloser(w, c, ch);
    case Load => EarlyNodesGetCloser(w, c, ch);
    case RouterNode => EarlyNodesGetCloser(w, c, ch);
    case Retriever => EarlyNodesGetCloser(w, c, ch);
    case BuildContext => EarlyNodesGetCloser(w, c, ch);
    case DrafterNode => EarlyNodesGetCloser(w, c, ch);
    case _ => LateNodesGetCloser(w, c, ch);
  }

  /** How often the repair node reached its checkpoint. */
  function RepairRuns(w: World, events: seq<Event>): nat {
    if events == [] then 0
    else
      var front, last := events[..|events| - 1], events[|events| - 1];
      var c := Exec(w, front);
      RepairRuns(w, front) + if last.Finish? && c.node.RepairNode? && RunNode(w, c, last.choice).Ok? then 1 else 0
  }

  lemma {:induction false} RepairsAreBehind(w: World, events: seq<Event>)
    ensures RepairRuns(w, events) <= if Remaining(Exec(w, events)) >= 5 then 0 else 1
  {
    hide Inv, RunNode;
    if events != [] {
      var front, last := events[..|events| - 1], events[|events| - 1];
      var c := Exec(w, front);
      RepairsAreBehind(w, front);
      ExecKeepsInv(w, front);
      if last.Finish? { EveryNodeGetsCloser(w, c, last.choice); } else { LeftoversStay(w, c, last); }
    }
  }

  /** Durable effects short of a checkpoint leave the checkpoint where it is. */
  lemma LeftoversStay(w: World, c: Conf, e: Event)
    requires !e.Finish?
    ensures Apply(w, c, e).node == c.node && Apply(w, c, e).st == c.st
  {
  }

  /** A run repairs at most once and passes at most thirteen nodes, well within the recursion limit of 32. */
  lemma BoundedRun(w: World, events: seq<Event>)
    ensures RepairRuns(w, events) <= 1
    ensures Exec(w, events).steps <= 13 < 32
  {
    RepairsAreBehind(w, events);
    ExecKeepsInv(w, events);
  }

  // ---------------------------------------------------------------- checks

  /**
   In no execution does a node fail a check of kinds, parents, packs, prechecks or budgets, or is a local artifact or the
   repair refused by the database for any other reason than the cap on artifacts.
   */
  lemma ChecksNeverFail(w: World, events: seq<Event>, ch: Choice)
    ensures RunNode(w, Exec(w, events), ch) != Err(Mismatch)
  {
    ExecKeepsInv(w, events);
    EveryNodeKeeps(w, Exec(w, events), ch);
  }

  /** Nor does the database refuse to save what a model step brings back, the cap and errors of the request excepted. */
  lemma RepliesAreSaved(w: World, events: seq<Event>, input: nat, second: bool, reply: Reply)
    requires var c := Exec(w, events); CallOf(c, input).Ok? && Paid(c) && (second ==> MayRetry(c.store, FirstOf(CallOf(c, input).value)))
    ensures var c := Exec(w, events);
            var call := CallOf(c, input).value;
            var id := if second then SecondOf(call) else FirstOf(call);
            var content := ContentOf(Delivered(c, call.role, reply), id.key.attempt);
            id !in c.store.artifacts && content.Some? ==>
              var error := SaveFailure(c.store, id, content.value);
              error.None? || error == Some(CapacityExceeded)
              || (error == Some(InvalidFailure) && content.value.Failed? && content.value.code == InvalidRequest)
  {
    hide Inv;
    ExecKeepsInv(w, events);
    AskedIsSavable(w, Exec(w, events), input, second, reply);
  }

  // ---------------------------------------------------------------- labels

  /** What the model step of a node came to, by the store. */
  function ResultOf(c: Conf, input: nat): Option<StepResult>
    requires CallOf(c, input).Ok?
  {
    var call := CallOf(c, input).value;
    Decided(if c.node.RepairNode? then BoughtRepair(c).value else c.store, call.role, call.phase, call.identity)
  }

  /** The failure label read after Router, Critic or Repair was written by that very execution, never left over. */
  lemma FailureLabelIsFresh(w: World, events: seq<Event>, ch: Choice)
    requires var c := Exec(w, events); c.node.RouterNode? || c.node.CriticNode? || c.node.RepairNode?
    requires RunNode(w, Exec(w, events), ch).Ok?
    ensures var c := Exec(w, events);
            CallOf(c, ch.input).Ok?
            && (RunNode(w, c, ch).value.node.FailureNode? <==> ResultOf(c, ch.input).Some? && ResultOf(c, ch.input).value.Rejected?)
  {
    hide Sound, Prechecked, Decided, Passes, Decide, BoughtRepair;
    ExecKeepsInv(w, events);
  }

  // ---------------------------------------------------------------- the repair

  lemma EnrichKeepsVerdicts(k: P.Critic, missing: seq<P.Message>)
    ensures var e := P.Enrich(k, missing);
            && P.HasWrong(e) == P.HasWrong(k) && P.HasUnsafe(e) == P.HasUnsafe(k) && P.HasPartial(e) == P.HasPartial(k)
            && e.globalIssues == k.globalIssues && P.VerdictClaims(e) == P.VerdictClaims(k)
    ensures forall d, units :: P.ValidCritic(k, d, units) ==> P.ValidCritic(P.Enrich(k, missing), d, units)
  {
    assert P.Enrich(k, missing).verdicts == k.verdicts;
  }

  /**
   No critic that refuses ever reaches the repair, so none whose question match is "no"; the enriched critic that the
   repair is asked with always has the policy "repair", and the gateway never turns the request down.
   */
  lemma RepairIsMild(w: World, events: seq<Event>)
    requires Exec(w, events).node.RepairNode?
    ensures var c := Exec(w, events);
            && CriticOfDraft(c) && !P.CriticStoragePolicy(CriticOf(c)).Refuse? && !CriticOf(c).questionMatch.No?
            && var enriched := P.Enrich(CriticOf(c), w.missing(DraftOf(c), c.store.pack.value));
               && P.CriticStoragePolicy(enriched).Repair?
               && P.ValidRepair(enriched, DraftOf(c), c.store.pack.value.units.Keys)
  {
    var c := Exec(w, events);
    ExecKeepsInv(w, events);
    RepairNodeIsMild(w, c);
  }

  lemma RepairNodeIsMild(w: World, c: Conf)
    requires Inv(w, c) && c.node.RepairNode?
    ensures && CriticOfDraft(c) && !P.CriticStoragePolicy(CriticOf(c)).Refuse? && !CriticOf(c).questionMatch.No?
            && var enriched := P.Enrich(CriticOf(c), w.missing(DraftOf(c), c.store.pack.value));
               && P.CriticStoragePolicy(enriched).Repair?
               && P.ValidRepair(enriched, DraftOf(c), c.store.pack.value.units.Keys)
  {
    hide P.PrecheckFailure, P.Aggregate, P.ValidCritic, StoreOk, ArtifactsSound, RepairSound, Prechecked, CriticBound, RepairProof;
    hide P.HasWrong, P.HasUnsafe, P.HasPartial, P.Merge;
    var d, k, p := DraftOf(c), CriticOf(c), c.store.pack.value;
    DecisionRefines(w, c);
    CurrentCriticIsBound(w, c);
    EnrichKeepsVerdicts(k, w.missing(d, p));
    P.AggregateVersusEnriched(d, k, p.units.Keys, PrecheckOn(w, d, p), w.missing(d, p));
  }

  // ---------------------------------------------------------------- outcomes

  /**
   Publication soundness.  When a run completes, its draft is bound to the run's one pack and passes the precheck, the
   critic has that draft as its only parent and a raw policy that renders, no variant part is missing, the decision is the
   critic, the finalizer's repeated policy decides to render again - and the database accepts the answer.
   */
  lemma PublicationIsSound(w: World, events: seq<Event>)
    requires Exec(w, events).st.outcome == Some(Outcome.Answered)
    ensures var c := Exec(w, events);
            && DraftPassed(w, c) && w.missing(DraftOf(c), c.store.pack.value) == []
            && CriticOfDraft(c) && P.CriticStoragePolicy(CriticOf(c)).Render? && c.st.decisionId == c.st.criticId
            && Decide(w, c) == Ok(P.Decision(P.Confirmed, P.Render, P.ReasonSupportedAnswer))
            && Accepted(w, c)
  {
    hide P.PrecheckFailure, Sound, Prechecked, Accepts, P.CriticStoragePolicy;
    ExecKeepsInv(w, events);
    var c := Exec(w, events);
    var d, p := DraftOf(c), c.store.pack.value;
    P.AggregateRefinesStoragePolicy(d, CriticOf(c), p.units.Keys, PrecheckOn(w, d, p), w.missing(d, p), c.st.repairAttempts);
  }

  /**
   Every refusal is accepted by the database, with two exceptions: a draft refused for its numbers or its table context
   alone, and a router whose retry was spent on another input.  Those two are turned down always.
   */
  lemma RefusalsAreJustified(w: World, events: seq<Event>)
    requires Exec(w, events).st.outcome.Some? && Exec(w, events).st.outcome.value.Refused?
    ensures var c := Exec(w, events);
            c.st.decisionId.Some?
            && (Accepted(w, c) <==> !(c.st.outcome.value.code.VerificationFailure? && FalseAlarm(c.store, c.st.decisionId.value)))
  {
    hide Sound, Prechecked, FalseAlarm;
    ExecKeepsInv(w, events);
  }

  /**
   When the database turns down a refused draft, the draft is an answer that cites known sources and repeats nothing,
   and it fails exactly the checks the database cannot repeat: some number is not in a cited excerpt, or a table number
   lacks its context.  And every such draft is turned down.
   */
  lemma UnseenIsNumeric(w: World, events: seq<Event>)
    requires Exec(w, events).st.outcome == Some(Refused(VerificationFailure))
    requires var c := Exec(w, events); c.st.decisionId.Some? && c.st.decisionId.value.key.PrecheckOf?
    ensures var c := Exec(w, events);
            && ReadsDraft(c)
            && var d, p := DraftOf(c), c.store.pack.value;
               !Accepted(w, c) <==>
                 && d.disposition.Answer? && DraftBound(d, p)
                 && (!(forall i :: 0 <= i < |d.claims| ==> P.NumbersCited(d.claims[i], p.units))
                     || (w.groups(p).Some? && !P.InContext(d, p.units, w.groups(p).value)))
  {
    hide Sound, Prechecked, P.NumbersCited, P.InContext, P.DraftSchema, P.Bound, P.NoRepeats;
    ExecKeepsInv(w, events);
    RefusedDraft(w, Exec(w, events));
  }

  lemma RefusedDraft(w: World, c: Conf)
    requires Inv(w, c) && ReadsDraft(c) && PrecheckRefused(w, c)
    ensures var d, p := DraftOf(c), c.store.pack.value;
            P.DraftSchema(d) && (d.disposition.Answer? && DraftBound(d, p) ==> 
              && PrecheckOn(w, d, p) == Some(P.VerificationFailed)
              && (!(forall i :: 0 <= i < |d.claims| ==> P.NumbersCited(d.claims[i], p.units))
                  || (w.groups(p).Some? && !P.InContext(d, p.units, w.groups(p).value))))
  {
    hide StoreOk, RepairSound, Prechecked, AtNode, P.NumbersCited, P.InContext, P.Bound, P.NoRepeats, BudgetOk;
    var id := c.st.draftId.value;
    assert SoundAt(c.store, id, c.store.artifacts[id]);
  }

  // ---------------------------------------------------------------- what stays

  lemma {:induction false} DurableParts(w: World, events: seq<Event>, more: seq<Event>)
    ensures Extends(Exec(w, events).store, Exec(w, events + more).store)
    ensures Exec(w, events).node.Finished? ==> Exec(w, events + more) == Exec(w, events)
  {
    hide Inv, Apply, Extends;
    if more == [] {
      assert events + more == events;
      ExtendsItself(Exec(w, events).store);
    } else {
      var front := more[..|more| - 1];
      assert (events + more)[..|events + more| - 1] == events + front;
      var c := Exec(w, events + front);
      DurableParts(w, events, front);
      ExecKeepsInv(w, events + front);
      EventKeepsInv(w, c, more[|more| - 1]);
      ExtendsOn(Exec(w, events).store, c.store, Apply(w, c, more[|more| - 1]).store);
      FinishedStays(w, c, more[|more| - 1]);
    }
  }

  lemma FinishedStays(w: World, c: Conf, e: Event)
    ensures c.node.Finished? ==> Apply(w, c, e) == c
  {
  }

  /** The evidence pack, the budgets, every artifact and the outcome stay what they were once they exist. */
  lemma WriteOnce(w: World, events: seq<Event>, more: seq<Event>)
    ensures var c, d := Exec(w, events), Exec(w, events + more);
            && Extends(c.store, d.store)
            && (c.st.outcome.Some? ==> d.st.outcome == c.st.outcome)
  {
    hide Extends, Sound, Prechecked, AtNode, BudgetOk;
    DurableParts(w, events, more);
    ExecKeepsInv(w, events);
  }
}
