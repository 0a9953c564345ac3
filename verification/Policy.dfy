/** The deterministic publication policy: draft prechecks, critic policies and table-variant gaps. */
module Policy {
  import opened Common
  import opened Ordered
  import opened Texts
  import Numeric = NumericScan

  type EvidenceId = string

  /** The units of an evidence pack: an excerpt for each identifier. */
  type Units = map<EvidenceId, string>

  // ---------------------------------------------------------------- model-facing values

  datatype Verdict = Supported | PartiallySupported | Unsupported | Contradicted
  datatype Issue = NoIssue | MissingCondition | IncompleteSupport | OtherIssue
  datatype ReasonCode = ReasonSupported | ReasonMissingCondition | ReasonIncompleteSupport | ReasonOther
  datatype Match = Yes | Partial | No

  datatype ClaimVerdict = ClaimVerdict(claim: string, verdict: Verdict, reason: ReasonCode, issue: Issue, evidence: seq<EvidenceId>)

  datatype Critic = Critic(verdicts: seq<ClaimVerdict>, questionMatch: Match, missingParts: seq<Message>, globalIssues: seq<string>)

  datatype Claim = Claim(id: string, text: string, evidence: seq<EvidenceId>)

  datatype Disposition = Answer | InsufficientEvidence

  datatype Draft = Draft(disposition: Disposition, claims: seq<Claim>)

  /** A missing answer part: free text of the critic, or a table row with the citations it still needs. */
  datatype Message = Text(text: string) | Row(row: int, ids: seq<EvidenceId>)

  datatype Code = OutputSchemaInvalid | VerificationFailed | GenerationInvalid | EvidencePackMismatch

  datatype Action = Render | Repair | Refuse

  datatype Outcome = Confirmed | PartiallyConfirmed | Hallucinated

  datatype DecisionReason = ReasonSupportedAnswer | UnsupportedClaim | QuestionMismatch | GlobalIssue | UnsafePartial
                          | IncompleteAnswer | RepairExhausted | IncompleteTableVariant

  datatype Decision = Decision(outcome: Outcome, action: Action, reason: DecisionReason)

  function Ids(s: seq<EvidenceId>): set<EvidenceId> {
    set e | e in s
  }

  predicate Bound(d: Draft, units: set<EvidenceId>) {
    forall i :: 0 <= i < |d.claims| ==> Ids(d.claims[i].evidence) <= units
  }

  // ---------------------------------------------------------------- critic policies

  predicate Unsafe(v: ClaimVerdict) {
    v.verdict.PartiallySupported?
    && (!(v.issue.MissingCondition? || v.issue.IncompleteSupport?)
        || !(v.reason.ReasonMissingCondition? || v.reason.ReasonIncompleteSupport?))
  }

  predicate Wrong(v: ClaimVerdict) {
    v.verdict.Unsupported? || v.verdict.Contradicted?
  }

  predicate HasPartial(c: Critic) {
    exists i :: 0 <= i < |c.verdicts| && c.verdicts[i].verdict.PartiallySupported?
  }

  predicate HasWrong(c: Critic) {
    exists i :: 0 <= i < |c.verdicts| && Wrong(c.verdicts[i])
  }

  predicate HasUnsafe(c: Critic) {
    exists i :: 0 <= i < |c.verdicts| && Unsafe(c.verdicts[i])
  }

  /** The raw policy stored with a critic artifact (`agent._policy` in the database). */
  function CriticStoragePolicy(c: Critic): Action {
    if HasWrong(c) || c.questionMatch.No? || c.globalIssues != [] || HasUnsafe(c) then Refuse
    else if c.questionMatch.Partial? || c.missingParts != [] || HasPartial(c) then Repair
    else Render
  }

  /** Append the parts that are not there yet, in order. */
  function Merge(parts: seq<Message>, more: seq<Message>): (merged: seq<Message>)
    ensures |parts| <= |merged| && merged[..|parts|] == parts
    ensures forall m :: m in merged <==> m in parts || m in more
    ensures more != [] ==> merged != []
    decreases |more|
  {
    if more == [] then parts
    else Merge(if more[0] in parts then parts else parts + [more[0]], more[1..])
  }

  function Enrich(c: Critic, missing: seq<Message>): Critic {
    if missing == [] then c
    else c.(questionMatch := Partial, missingParts := Merge(c.missingParts, missing))
  }

  // ---------------------------------------------------------------- aggregate

  /** The schema rules of one critic verdict. */
  predicate VerdictSchema(v: ClaimVerdict) {
    && (v.verdict.Supported? || v.verdict.PartiallySupported? ==> v.evidence != [])
    && (v.verdict.Supported? <==> v.issue.NoIssue?)
  }

  predicate CriticSchema(c: Critic) {
    && (forall i, j :: 0 <= i < j < |c.verdicts| ==> c.verdicts[i].claim != c.verdicts[j].claim)
    && (forall i :: 0 <= i < |c.verdicts| ==> VerdictSchema(c.verdicts[i]))
  }

  function VerdictClaims(c: Critic): set<string> {
    set i | 0 <= i < |c.verdicts| :: c.verdicts[i].claim
  }

  function ClaimIds(d: Draft): set<string> {
    set i | 0 <= i < |d.claims| :: d.claims[i].id
  }

  predicate VerdictsIn(c: Critic, units: set<EvidenceId>) {
    forall i :: 0 <= i < |c.verdicts| ==> Ids(c.verdicts[i].evidence) <= units
  }

  predicate CriticBound(c: Critic, d: Draft, units: set<EvidenceId>) {
    Bound(d, units) && VerdictClaims(c) == ClaimIds(d) && VerdictsIn(c, units)
  }

  /** Every verdict uses only what its own claim cites. */
  predicate VerdictsCite(c: Critic, d: Draft) {
    forall i, j :: 0 <= i < |c.verdicts| && 0 <= j < |d.claims| && d.claims[j].id == c.verdicts[i].claim ==>
      Ids(c.verdicts[i].evidence) <= Ids(d.claims[j].evidence)
  }

  /** `validate_critic`: what the gateway demands of a critic before it counts as an answer of the model. */
  predicate ValidCritic(c: Critic, d: Draft, units: set<EvidenceId>) {
    CriticBound(c, d, units) && VerdictsCite(c, d) && ReasonsAgree(c)
  }

  /** `validate_repair`: what the gateway demands before it asks for a repair. */
  predicate ValidRepair(c: Critic, d: Draft, units: set<EvidenceId>) {
    && ValidCritic(c, d, units) && d.claims != [] && !c.questionMatch.No? && c.globalIssues == []
    && !HasWrong(c) && !HasUnsafe(c) && (HasPartial(c) || c.questionMatch.Partial? || c.missingParts != [])
  }

  predicate ReasonsAgree(c: Critic) {
    forall i :: 0 <= i < |c.verdicts| ==> (c.verdicts[i].verdict.Supported? <==> c.verdicts[i].reason.ReasonSupported?)
  }

  /**
   `aggregate`.  `precheck` is the outcome of the draft precheck and `missing` the deterministic table-variant gaps
   of the draft for the question.
   */
  function Aggregate(d: Draft, c: Critic, units: set<EvidenceId>, precheck: Option<Code>, missing: seq<Message>,
                     repairAttempts: int): Result<Decision, Code>
  {
    if repairAttempts != 0 && repairAttempts != 1 then Err(GenerationInvalid)
    else if precheck.Some? then Err(precheck.value)
    else if !d.disposition.Answer? || d.claims == [] then Err(VerificationFailed)
    else if !CriticSchema(c) || !CriticBound(c, d, units) || !ReasonsAgree(c) then Err(OutputSchemaInvalid)
    else if HasWrong(c) then Ok(Decision(Hallucinated, Refuse, UnsupportedClaim))
    else if c.questionMatch.No? then Ok(Decision(Hallucinated, Refuse, QuestionMismatch))
    else if c.globalIssues != [] then Ok(Decision(Hallucinated, Refuse, GlobalIssue))
    else if HasUnsafe(c) then Ok(Decision(Hallucinated, Refuse, UnsafePartial))
    else if HasPartial(c) || c.questionMatch.Partial? || c.missingParts != [] || missing != [] then
      if repairAttempts != 0 then
        Ok(Decision(PartiallyConfirmed, Refuse, if missing != [] then IncompleteTableVariant else RepairExhausted))
      else
        Ok(Decision(PartiallyConfirmed, Repair, if missing != [] then IncompleteTableVariant else IncompleteAnswer))
    else Ok(Decision(Confirmed, Render, ReasonSupportedAnswer))
  }

  function Rank(a: Action): nat {
    match a case Render => 0 case Repair => 1 case Refuse => 2
  }

  function Max(a: Action, b: Action): Action {
    if Rank(a) <= Rank(b) then b else a
  }

  /** After the one repair there is nothing left to repair. */
  function Spent(a: Action, repairAttempts: int): Action {
    if a.Repair? && repairAttempts != 0 then Refuse else a
  }

  /**
   The decision refines the raw policy: it is the raw policy raised by the variant gaps, with a second repair turned
   into a refusal.  It is never milder than the raw policy, and it renders only what the raw policy renders.
   */
  lemma AggregateRefinesStoragePolicy(d: Draft, c: Critic, units: set<EvidenceId>, precheck: Option<Code>,
                                      missing: seq<Message>, repairAttempts: int)
    requires Aggregate(d, c, units, precheck, missing, repairAttempts).Ok?
    ensures var action := Aggregate(d, c, units, precheck, missing, repairAttempts).value.action;
            && action == Spent(Max(CriticStoragePolicy(c), if missing != [] then Repair else Render), repairAttempts)
            && Rank(action) >= Rank(CriticStoragePolicy(c))
            && (action.Render? <==> CriticStoragePolicy(c).Render? && missing == [])
            && (action.Repair? ==> repairAttempts == 0 && !CriticStoragePolicy(c).Refuse?)
  {
  }

  /** Some refusal cause other than a question the draft does not address. */
  predicate RefusedAnyway(c: Critic) {
    HasWrong(c) || c.globalIssues != [] || HasUnsafe(c)
  }

  /**
   Before any repair the decision equals the raw policy of the enriched critic, except exactly when the critic found
   the question unaddressed, nothing else refuses the draft, and there are variant gaps: enrichment then downgrades "no" to "partial".
   */
  lemma AggregateVersusEnriched(d: Draft, c: Critic, units: set<EvidenceId>, precheck: Option<Code>, missing: seq<Message>)
    requires Aggregate(d, c, units, precheck, missing, 0).Ok?
    ensures Aggregate(d, c, units, precheck, missing, 0).value.action == CriticStoragePolicy(Enrich(c, missing))
            <==> !(c.questionMatch.No? && missing != [] && !RefusedAnyway(c))
    ensures c.questionMatch.No? && missing != [] && !RefusedAnyway(c) ==>
              Aggregate(d, c, units, precheck, missing, 0).value.action.Refuse? && CriticStoragePolicy(Enrich(c, missing)).Repair?
  {
    var e := Enrich(c, missing);
    assert e.verdicts == c.verdicts;
    assert HasWrong(e) == HasWrong(c) && HasUnsafe(e) == HasUnsafe(c) && HasPartial(e) == HasPartial(c);
  }

  /** A draft of one claim and a critic that fully supports it. */
  const LONE_DRAFT := Draft(Answer, [Claim("c", "t", ["e"])])

  function LoneCritic(m: Match): Critic {
    Critic([ClaimVerdict("c", Supported, ReasonSupported, NoIssue, ["e"])], m, [], [])
  }

  lemma LoneCriticIsBound(m: Match)
    ensures CriticSchema(LoneCritic(m)) && ValidCritic(LoneCritic(m), LONE_DRAFT, {"e"})
    ensures !HasWrong(LoneCritic(m)) && !HasUnsafe(LoneCritic(m)) && !HasPartial(LoneCritic(m))
  {
    var d, c := LONE_DRAFT, LoneCritic(m);
    assert c.verdicts[0].claim == "c" && d.claims[0].id == "c";
    assert VerdictClaims(c) == {"c"} == ClaimIds(d);
  }

  // ---------------------------------------------------------------- draft precheck

  datatype CitationGroup = CitationGroup(triggers: seq<EvidenceId>, required: seq<EvidenceId>)

  /** What makes two claims the same claim: the exact text and the set of sources, in any order. */
  function ClaimKey(c: Claim): (string, set<EvidenceId>) {
    (c.text, Ids(c.evidence))
  }

  predicate Repeats(a: Claim, b: Claim) {
    ClaimKey(a) == ClaimKey(b)
  }

  predicate NoRepeats(d: Draft) {
    forall i, j :: 0 <= i < j < |d.claims| ==> !Repeats(d.claims[i], d.claims[j])
  }

  /** An excerpt spells the same number as some number of the claim. */
  predicate Shares(c: Claim, excerpt: string) {
    exists m :: m in Numeric.Matches(c.text, 0) && Numeric.Spelled(Numeric.Read(c.text, m.0), excerpt)
  }

  /** Every number in the text of the claim is spelled, by canonical form, in one of its cited excerpts. */
  predicate NumbersCited(c: Claim, units: Units) {
    forall m :: m in Numeric.Matches(c.text, 0) ==> NumberCited(c, m.0, units)
  }

  predicate NumberCited(c: Claim, at: nat, units: Units)
    requires at <= |c.text| && Numeric.MatchEnd(c.text, at).Some?
  {
    exists e :: e in c.evidence && e in units && Numeric.Spelled(Numeric.Read(c.text, at), units[e])
  }

  /** A claim that uses a number of a table cell cites the row context of that cell. */
  predicate ContextCited(c: Claim, g: CitationGroup, units: Units) {
    (exists e :: e in c.evidence && e in g.triggers && e in units && Shares(c, units[e])) ==> Ids(g.required) <= Ids(c.evidence)
  }

  /** What is checked before the table context: sources exist, no claim is repeated, numbers are cited. */
  predicate Grounded(d: Draft, units: Units) {
    && Bound(d, units.Keys) && NoRepeats(d)
    && forall i :: 0 <= i < |d.claims| ==> NumbersCited(d.claims[i], units)
  }

  predicate ClaimInContext(c: Claim, units: Units, groups: seq<CitationGroup>) {
    forall g :: 0 <= g < |groups| ==> ContextCited(c, groups[g], units)
  }

  predicate InContext(d: Draft, units: Units, groups: seq<CitationGroup>) {
    forall i :: 0 <= i < |d.claims| ==> ClaimInContext(d.claims[i], units, groups)
  }

  // ---------------------------------------------------------------- numbers as sets of canonical forms

  /** The comparison of the code: the canonical forms of the claim are among those of its excerpts. */
  lemma NumbersAreCited(c: Claim, units: Units, cited: set<string>)
    requires forall e :: e in c.evidence ==> e in units
    requires forall n :: n in cited <==> exists e :: e in c.evidence && n in Numeric.Numbers(units[e])
    ensures Numeric.Numbers(c.text) <= cited <==> NumbersCited(c, units)
  {
    forall m | m in Numeric.Matches(c.text, 0)
      ensures NumberCited(c, m.0, units) <==> Numeric.FormAt(c.text, m) in cited
    {
      forall e | e in c.evidence
        ensures Numeric.Spelled(Numeric.Read(c.text, m.0), units[e]) <==> Numeric.FormAt(c.text, m) in Numeric.Numbers(units[e])
      {
        Numeric.NumbersCompareLiterals(c.text, m, units[e]);
      }
    }
    Numeric.FormsAreNumbers(c.text);
  }

  lemma SharingIsMeeting(c: Claim, excerpt: string)
    ensures Numeric.Numbers(c.text) * Numeric.Numbers(excerpt) != {} <==> Shares(c, excerpt)
  {
    forall m | m in Numeric.Matches(c.text, 0)
      ensures Numeric.Spelled(Numeric.Read(c.text, m.0), excerpt) <==> Numeric.FormAt(c.text, m) in Numeric.Numbers(excerpt)
    {
      Numeric.NumbersCompareLiterals(c.text, m, excerpt);
    }
    Numeric.FormsAreNumbers(c.text);
    if Numeric.Numbers(c.text) * Numeric.Numbers(excerpt) != {} {
      var n :| n in Numeric.Numbers(c.text) * Numeric.Numbers(excerpt);
      assert n in Numeric.Numbers(c.text) && n in Numeric.Numbers(excerpt);
    }
    if Shares(c, excerpt) {
      var m :| m in Numeric.Matches(c.text, 0) && Numeric.Spelled(Numeric.Read(c.text, m.0), excerpt);
      assert Numeric.FormAt(c.text, m) in Numeric.Numbers(c.text) * Numeric.Numbers(excerpt);
    }
  }

  /** The repeated-claim check keeps one claim identifier per text and cited set. */
  method ValidateNoRepeatedClaimText(d: Draft) returns (ok: bool)
    requires Distinct(seq(|d.claims|, i requires 0 <= i < |d.claims| => d.claims[i].id))
    ensures ok <==> NoRepeats(d)
  {
    hide ClaimKey;
    var ids := seq(|d.claims|, i requires 0 <= i < |d.claims| => d.claims[i].id);
    var seen: map<(string, set<EvidenceId>), string> := map[];
    for i := 0 to |d.claims|
      invariant forall k :: k in seen ==> exists j :: 0 <= j < i && k == ClaimKey(d.claims[j])
      invariant forall j :: 0 <= j < i ==> ClaimKey(d.claims[j]) in seen && seen[ClaimKey(d.claims[j])] == d.claims[j].id
      invariant forall j, k :: 0 <= j < k < i ==> !Repeats(d.claims[j], d.claims[k])
    {
      var claim := d.claims[i];
      var key := ClaimKey(claim);
      if key in seen && seen[key] != claim.id {
        var j :| 0 <= j < i && key == ClaimKey(d.claims[j]);
        assert Repeats(d.claims[j], d.claims[i]);
        return false;
      }
      forall j | 0 <= j < i ensures !Repeats(d.claims[j], claim) {
        assert ids[j] != ids[i];
      }
      seen := seen[key := claim.id];
    }
    return true;
  }

  /** The numbers of every unit, as both checks look them up. */
  function SourceNumbers(units: Units): map<EvidenceId, set<string>> {
    map e | e in units :: Numeric.Numbers(units[e])
  }

  /** The union of the numbers of all cited excerpts. */
  method CitedNumbers(evidence: seq<EvidenceId>, source: map<EvidenceId, set<string>>) returns (cited: set<string>)
    requires forall e :: e in evidence ==> e in source
    ensures forall n :: n in cited <==> exists e :: e in evidence && n in source[e]
  {
    cited := {};
    for k := 0 to |evidence|
      invariant forall n :: n in cited <==> exists j :: 0 <= j < k && n in source[evidence[j]]
    {
      cited := cited + source[evidence[k]];
    }
  }

  method CitesNumbers(c: Claim, units: Units) returns (ok: bool)
    requires Ids(c.evidence) <= units.Keys
    ensures ok <==> NumbersCited(c, units)
  {
    var source := SourceNumbers(units);
    assert forall e :: e in c.evidence ==> e in Ids(c.evidence) && e in units.Keys;
    var cited := CitedNumbers(c.evidence, source);
    NumbersAreCited(c, units, cited);
    return Numeric.Numbers(c.text) <= cited;
  }

  /** Whether every number of every claim is cited; the binding was checked before. */
  method ValidateNumericLiterals(d: Draft, units: Units) returns (ok: bool)
    requires Bound(d, units.Keys)
    ensures ok <==> forall i :: 0 <= i < |d.claims| ==> NumbersCited(d.claims[i], units)
  {
    for i := 0 to |d.claims|
      invariant forall j :: 0 <= j < i ==> NumbersCited(d.claims[j], units)
    {
      ok := CitesNumbers(d.claims[i], units);
      if !ok { return; }
    }
    return true;
  }

  /** The test of one claim against one group, on sets of canonical forms. */
  predicate KeepsContext(evidence: set<EvidenceId>, g: CitationGroup, numbers: set<string>, source: map<EvidenceId, set<string>>) {
    (exists e :: e in evidence && e in g.triggers && e in source && numbers * source[e] != {}) ==> Ids(g.required) <= evidence
  }

  lemma KeepingIsCiting(c: Claim, g: CitationGroup, units: Units)
    ensures KeepsContext(Ids(c.evidence), g, Numeric.Numbers(c.text), SourceNumbers(units)) <==> ContextCited(c, g, units)
  {
    forall e | e in units
      ensures Numeric.Numbers(c.text) * SourceNumbers(units)[e] != {} <==> Shares(c, units[e])
    {
      SharingIsMeeting(c, units[e]);
    }
  }

  method KeepsAllContexts(evidence: set<EvidenceId>, groups: seq<CitationGroup>, numbers: set<string>,
                          source: map<EvidenceId, set<string>>) returns (ok: bool)
    ensures ok <==> forall g :: 0 <= g < |groups| ==> KeepsContext(evidence, groups[g], numbers, source)
  {
    for g := 0 to |groups|
      invariant forall h :: 0 <= h < g ==> KeepsContext(evidence, groups[h], numbers, source)
    {
      if !KeepsContext(evidence, groups[g], numbers, source) { return false; }
    }
    return true;
  }

  method CitesContexts(c: Claim, units: Units, groups: seq<CitationGroup>) returns (ok: bool)
    ensures ok <==> ClaimInContext(c, units, groups)
  {
    ok := KeepsAllContexts(Ids(c.evidence), groups, Numeric.Numbers(c.text), SourceNumbers(units));
    forall g | 0 <= g < |groups|
      ensures KeepsContext(Ids(c.evidence), groups[g], Numeric.Numbers(c.text), SourceNumbers(units)) <==> ContextCited(c, groups[g], units)
    {
      KeepingIsCiting(c, groups[g], units);
    }
  }

  /** Whether every claim cites the context of the table cells it uses; a pack without a readable projection has none. */
  method ValidateTableContext(d: Draft, units: Units, groups: Option<seq<CitationGroup>>) returns (failure: Option<Code>)
    ensures failure.None? <==> groups.Some? && InContext(d, units, groups.value)
    ensures failure == Some(EvidencePackMismatch) <==> groups.None?
    ensures failure.Some? && groups.Some? ==> failure == Some(VerificationFailed)
  {
    hide ClaimInContext;
    if groups.None? { return Some(EvidencePackMismatch); }
    for i := 0 to |d.claims|
      invariant forall j :: 0 <= j < i ==> ClaimInContext(d.claims[j], units, groups.value)
    {
      var kept := CitesContexts(d.claims[i], units, groups.value);
      if !kept { return Some(VerificationFailed); }
    }
    return None;
  }

  const MAX_CLAIMS := 12
  const MAX_CLAIM_TEXT := 1800
  const MAX_CLAIM_EVIDENCE := 10

  /** The schema rules of one claim. */
  predicate ClaimSchema(c: Claim) {
    && IsShortId(c.id) && NonBlank(c.text) && |c.text| <= MAX_CLAIM_TEXT
    && 1 <= |c.evidence| <= MAX_CLAIM_EVIDENCE && Distinct(c.evidence)
    && forall k :: 0 <= k < |c.evidence| ==> IsShortId(c.evidence[k])
  }

  /** The schema rules of a draft. */
  predicate DraftSchema(d: Draft) {
    && (d.disposition.Answer? <==> d.claims != [])
    && |d.claims| <= MAX_CLAIMS
    && Distinct(seq(|d.claims|, i requires 0 <= i < |d.claims| => d.claims[i].id))
    && forall i :: 0 <= i < |d.claims| ==> ClaimSchema(d.claims[i])
  }

  /** The outcome of `precheck_draft`: the checks in their order, on a pack whose table context may be unreadable. */
  function PrecheckFailure(d: Draft, units: Units, groups: Option<seq<CitationGroup>>): Option<Code> {
    if !DraftSchema(d) then Some(OutputSchemaInvalid)
    else if !Grounded(d, units) then Some(VerificationFailed)
    else if groups.None? then Some(EvidencePackMismatch)
    else if InContext(d, units, groups.value) then None
    else Some(VerificationFailed)
  }

  /**
   `precheck_draft`: a malformed draft is a schema failure; of the well-formed drafts exactly those pass that cite only
   sources of the evidence pack, repeat no claim, take every number from a cited excerpt and cite the context of table cells.
   */
  method PrecheckDraft(d: Draft, units: Units, groups: Option<seq<CitationGroup>>) returns (failure: Option<Code>)
    ensures failure.None? <==> DraftSchema(d) && Grounded(d, units) && groups.Some? && InContext(d, units, groups.value)
    ensures failure == Some(OutputSchemaInvalid) <==> !DraftSchema(d)
    ensures failure == Some(EvidencePackMismatch) <==> DraftSchema(d) && Grounded(d, units) && groups.None?
    ensures failure == PrecheckFailure(d, units, groups)
  {
    if !DraftSchema(d) { return Some(OutputSchemaInvalid); }
    if !Bound(d, units.Keys) { return Some(VerificationFailed); }
    var distinct := ValidateNoRepeatedClaimText(d);
    if !distinct { return Some(VerificationFailed); }
    var numeric := ValidateNumericLiterals(d, units);
    if !numeric { return Some(VerificationFailed); }
    failure := ValidateTableContext(d, units, groups);
  }

  /** Nothing numeric in a passing draft is invented: every digit of a claim belongs to a number some cited excerpt spells. */
  lemma PassingDraftInventsNoNumber(d: Draft, units: Units, groups: Option<seq<CitationGroup>>, i: nat, k: nat)
    requires PrecheckFailure(d, units, groups).None?
    requires i < |d.claims| && k < |d.claims[i].text| && Numeric.IsDigitAt(d.claims[i].text, k)
    ensures exists m :: m in Numeric.Matches(d.claims[i].text, 0) && m.0 <= k < m.1 && NumberCited(d.claims[i], m.0, units)
  {
    Numeric.EveryDigitIsMatched(d.claims[i].text, 0, k);
    assert NumbersCited(d.claims[i], units);
  }

  lemma LoneDraftIsValid()
    ensures DraftSchema(LONE_DRAFT) && Bound(LONE_DRAFT, {"e"}) && NoRepeats(LONE_DRAFT)
  {
    assert !IsSpace("t"[0]) && !IsSpace("c"[0]) && !IsSpace("e"[0]);
    assert Ids(["e"]) == {"e"};
  }
}
