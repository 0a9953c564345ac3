/**
 Rendering of a confirmed draft, once by the agent and once by the database that publishes it; what the stored answer's
 validators and the browser demand of the result.
 */
module Rendering {
  import opened Common
  import opened Ordered
  import opened Policy
  import opened Texts
  import opened Citations

  datatype PublicClaim = PublicClaim(id: string, text: string, citations: seq<nat>)

  datatype FinalAnswer = FinalAnswer(
    text: string,
    claims: seq<PublicClaim>,
    citations: seq<Citation>,
    claimCount: nat,
    supportedCount: nat,
    repairUsed: bool)

  /** An answer over an empty snapshot fails in the validator of the answer, as no typed refusal. */
  datatype Failure = Rejected(code: Code) | SourceUnavailable | EmptySnapshot

  const MAX_TEXT := 30000

  // ---------------------------------------------------------------- what an answer shows

  function UsedTo(claims: seq<Claim>, n: nat): seq<EvidenceId>
    requires n <= |claims|
  {
    if n == 0 then [] else UsedTo(claims, n - 1) + claims[n - 1].evidence
  }

  /** All evidence identifiers of the claims, in reading order. */
  function Used(claims: seq<Claim>): seq<EvidenceId> {
    UsedTo(claims, |claims|)
  }

  lemma {:induction false} UsedByClaims(claims: seq<Claim>, n: nat, e: EvidenceId)
    requires n <= |claims|
    ensures e in UsedTo(claims, n) <==> exists i :: 0 <= i < n && e in claims[i].evidence
  {
    if n > 0 {
      UsedByClaims(claims, n - 1, e);
    }
  }

  predicate Known(e: EvidenceId, pack: Pack, labels: Labels) {
    e in pack && pack[e].version in labels
  }

  predicate AllKnown(used: seq<EvidenceId>, pack: Pack, labels: Labels) {
    forall i :: 0 <= i < |used| ==> Known(used[i], pack, labels)
  }

  predicate SourcesKnown(claims: seq<Claim>, pack: Pack, labels: Labels) {
    forall i :: 0 <= i < |claims| ==> AllKnown(claims[i].evidence, pack, labels)
  }

  function CiteKnown(number: nat, e: EvidenceId, pack: Pack, labels: Labels): Citation
    requires Known(e, pack, labels)
  {
    Cite(number, e, pack[e], labels[pack[e].version])
  }

  /** The list cites the identifiers in order, numbered from one. */
  predicate CitesInOrder(citations: seq<Citation>, order: seq<EvidenceId>, pack: Pack, labels: Labels) {
    |citations| == |order|
    && forall n :: 0 <= n < |order| ==> Known(order[n], pack, labels) && citations[n] == CiteKnown(n + 1, order[n], pack, labels)
  }

  /** `c` is the number of `e` in the order of citations. */
  predicate StandsFor(c: nat, e: EvidenceId, order: seq<EvidenceId>) {
    1 <= c <= |order| && order[c - 1] == e
  }

  predicate AllStandFor(ids: seq<nat>, evidence: seq<EvidenceId>, order: seq<EvidenceId>) {
    |ids| <= |evidence| && forall k :: 0 <= k < |ids| ==> StandsFor(ids[k], evidence[k], order)
  }

  /** A public claim keeps identifier and text, and shows for each cited identifier, in place, that one's number. */
  predicate ClaimShown(c: Claim, p: PublicClaim, order: seq<EvidenceId>) {
    && p.id == c.id && p.text == c.text
    && |p.citations| == |c.evidence| && AllStandFor(p.citations, c.evidence, order)
  }

  predicate ClaimsShown(claims: seq<Claim>, shown: seq<PublicClaim>, order: seq<EvidenceId>) {
    |shown| <= |claims| && forall i :: 0 <= i < |shown| ==> ClaimShown(claims[i], shown[i], order)
  }

  function JoinTo(ids: seq<nat>, n: nat): string
    requires n <= |ids|
  {
    if n == 0 then "" else JoinTo(ids, n - 1) + (if n == 1 then "[" else " [") + Label(ids[n - 1]) + "]"
  }

  function Paragraph(c: PublicClaim): string {
    c.text + (" " + JoinTo(c.citations, |c.citations|))
  }

  /** The paragraphs of the first claims, parted by empty lines. */
  function ClaimsText(claims: seq<PublicClaim>, n: nat): string
    requires n <= |claims|
  {
    if n == 0 then ""
    else if n == 1 then Paragraph(claims[0])
    else ClaimsText(claims, n - 1) + "\n\n" + Paragraph(claims[n - 1])
  }

  /** All paragraphs and, behind them, the closing sentence. */
  function AnswerText(claims: seq<PublicClaim>, note: string): string {
    if claims == [] then note else ClaimsText(claims, |claims|) + "\n\n" + note
  }

  /** The answer a draft is rendered to. */
  predicate Rendered(d: Draft, a: FinalAnswer, pack: Pack, labels: Labels, note: string, repairUsed: bool) {
    && CitesInOrder(a.citations, FirstUses(Used(d.claims)), pack, labels)
    && |a.claims| == |d.claims| == a.claimCount == a.supportedCount
    && ClaimsShown(d.claims, a.claims, FirstUses(Used(d.claims)))
    && a.text == AnswerText(a.claims, note)
    && a.repairUsed == repairUsed
  }

  // ---------------------------------------------------------------- one answer only

  lemma NumbersAgree(ids: seq<nat>, jds: seq<nat>, evidence: seq<EvidenceId>, order: seq<EvidenceId>)
    requires Distinct(order) && |ids| == |jds| == |evidence|
    requires AllStandFor(ids, evidence, order) && AllStandFor(jds, evidence, order)
    ensures ids == jds
  {
    forall k | 0 <= k < |ids| ensures ids[k] == jds[k] {
      assert StandsFor(ids[k], evidence[k], order) && StandsFor(jds[k], evidence[k], order);
    }
  }

  /** What a draft renders to is determined: two renderings of it are the same answer. */
  lemma RenderedIsUnique(d: Draft, a: FinalAnswer, b: FinalAnswer, pack: Pack, labels: Labels, note: string, repairUsed: bool)
    requires Rendered(d, a, pack, labels, note, repairUsed) && Rendered(d, b, pack, labels, note, repairUsed)
    ensures a == b
  {
    var order := FirstUses(Used(d.claims));
    FirstUsesAreTheUsed(Used(d.claims));
    forall i | 0 <= i < |a.claims| ensures a.claims[i] == b.claims[i] {
      assert ClaimShown(d.claims[i], a.claims[i], order) && ClaimShown(d.claims[i], b.claims[i], order);
      NumbersAgree(a.claims[i].citations, b.claims[i].citations, d.claims[i].evidence, order);
    }
    assert a.claims == b.claims;
    assert a.citations == b.citations;
  }

  // ---------------------------------------------------------------- numbering on the way

  lemma StandOn(ids: seq<nat>, evidence: seq<EvidenceId>, order: seq<EvidenceId>, more: seq<EvidenceId>)
    requires AllStandFor(ids, evidence, order) && order <= more
    ensures AllStandFor(ids, evidence, more)
  {
    forall k | 0 <= k < |ids| ensures StandsFor(ids[k], evidence[k], more) {
      assert StandsFor(ids[k], evidence[k], order);
    }
  }

  lemma ShownOn(claims: seq<Claim>, shown: seq<PublicClaim>, order: seq<EvidenceId>, more: seq<EvidenceId>)
    requires ClaimsShown(claims, shown, order) && order <= more
    ensures ClaimsShown(claims, shown, more)
  {
    forall i | 0 <= i < |shown| ensures ClaimShown(claims[i], shown[i], more) {
      assert ClaimShown(claims[i], shown[i], order);
      StandOn(shown[i].citations, claims[i].evidence, order, more);
    }
  }

  /** The dictionary finds the number of every cited identifier, less one. */
  ghost predicate Indexed(index: map<EvidenceId, nat>, order: seq<EvidenceId>) {
    && (forall e :: e in index <==> e in order)
    && (forall e :: e in index ==> index[e] < |order| && order[index[e]] == e)
  }

  lemma IndexMore(index: map<EvidenceId, nat>, order: seq<EvidenceId>, e: EvidenceId)
    requires Indexed(index, order) && e !in index
    ensures Indexed(index[e := |order|], order + [e]) && InsertOne(order, e) == order + [e]
  {
  }

  lemma CiteMore(citations: seq<Citation>, order: seq<EvidenceId>, e: EvidenceId, pack: Pack, labels: Labels)
    requires CitesInOrder(citations, order, pack, labels) && Known(e, pack, labels)
    ensures CitesInOrder(citations + [CiteKnown(|order| + 1, e, pack, labels)], order + [e], pack, labels)
  {
  }

  lemma StandMore(ids: seq<nat>, evidence: seq<EvidenceId>, order: seq<EvidenceId>, id: nat)
    requires AllStandFor(ids, evidence, order) && |ids| < |evidence| && StandsFor(id, evidence[|ids|], order)
    ensures AllStandFor(ids + [id], evidence, order)
  {
  }

  lemma OrderStep(claims: seq<Claim>, n: nat)
    requires n < |claims|
    ensures InsertTo(FirstUses(UsedTo(claims, n)), claims[n].evidence, |claims[n].evidence|) == FirstUses(UsedTo(claims, n + 1))
  {
    InsertToJoins([], UsedTo(claims, n), claims[n].evidence, |claims[n].evidence|);
  }

  /** One more claim: earlier numbers stay, and its paragraph is appended. */
  lemma ClaimStep(claims: seq<Claim>, shown: seq<PublicClaim>, p: PublicClaim, before: seq<EvidenceId>, order: seq<EvidenceId>)
    requires |shown| < |claims| && ClaimsShown(claims, shown, before) && ClaimShown(claims[|shown|], p, order)
    requires order == InsertTo(before, claims[|shown|].evidence, |claims[|shown|].evidence|)
    requires before == FirstUses(UsedTo(claims, |shown|))
    ensures ClaimsShown(claims, shown + [p], order)
    ensures order == FirstUses(UsedTo(claims, |shown| + 1))
  {
    OrderStep(claims, |shown|);
    InsertToGrows(before, claims[|shown|].evidence, 0, |claims[|shown|].evidence|);
    ShownOn(claims, shown, before, order);
  }

  // ---------------------------------------------------------------- rendering by the agent

  /** The citation dictionary on the way: identifiers in insertion order, their places, and their citations. */
  datatype Book = Book(order: seq<EvidenceId>, index: map<EvidenceId, nat>, citations: seq<Citation>)

  ghost predicate Kept(b: Book, pack: Pack, labels: Labels) {
    Indexed(b.index, b.order) && CitesInOrder(b.citations, b.order, pack, labels)
  }

  lemma CitedIsKnown(b: Book, e: EvidenceId, pack: Pack, labels: Labels)
    requires Kept(b, pack, labels) && e in b.index
    ensures Known(e, pack, labels) && StandsFor(b.index[e] + 1, e, b.order) && InsertOne(b.order, e) == b.order
  {
    assert Known(b.order[b.index[e]], pack, labels);
  }

  /** The number of an identifier; one that is not cited yet is entered with the next number. */
  method NumberOf(e: EvidenceId, pack: Pack, labels: Labels, start: Book) returns (ok: bool, number: nat, b: Book)
    requires Kept(start, pack, labels)
    ensures ok <==> Known(e, pack, labels)
    ensures ok ==> Kept(b, pack, labels) && b.order == InsertOne(start.order, e) && StandsFor(number, e, b.order)
  {
    ok, number, b := true, 0, start;
    if e !in b.index {
      if !Known(e, pack, labels) { return false, 0, b; }
      IndexMore(b.index, b.order, e);
      CiteMore(b.citations, b.order, e, pack, labels);
      b := Book(b.order + [e], b.index[e := |b.citations|], b.citations + [CiteKnown(|b.citations| + 1, e, pack, labels)]);
    } else {
      CitedIsKnown(b, e, pack, labels);
    }
    number := b.index[e] + 1;
  }

  lemma StandStep(ids: seq<nat>, evidence: seq<EvidenceId>, order: seq<EvidenceId>, id: nat)
    requires |ids| < |evidence| && AllStandFor(ids, evidence, order)
    requires StandsFor(id, evidence[|ids|], InsertOne(order, evidence[|ids|]))
    ensures AllStandFor(ids + [id], evidence, InsertOne(order, evidence[|ids|]))
  {
    StandOn(ids, evidence, order, InsertOne(order, evidence[|ids|]));
    StandMore(ids, evidence, InsertOne(order, evidence[|ids|]), id);
  }

  /** The inner loop: the citations of one claim. */
  method RenderClaim(claim: Claim, pack: Pack, labels: Labels, start: Book) returns (ok: bool, ids: seq<nat>, b: Book)
    requires Kept(start, pack, labels)
    ensures ok <==> AllKnown(claim.evidence, pack, labels)
    ensures ok ==> b.order == InsertTo(start.order, claim.evidence, |claim.evidence|) && Kept(b, pack, labels)
    ensures ok ==> |ids| == |claim.evidence| && AllStandFor(ids, claim.evidence, b.order)
  {
    hide Kept, Known, StandsFor, InsertOne;
    ids, b := [], start;
    for k := 0 to |claim.evidence|
      invariant b.order == InsertTo(start.order, claim.evidence, k) && Kept(b, pack, labels)
      invariant forall j :: 0 <= j < k ==> Known(claim.evidence[j], pack, labels)
      invariant |ids| == k && AllStandFor(ids, claim.evidence, b.order)
    {
      ghost var order := b.order;
      var number;
      ok, number, b := NumberOf(claim.evidence[k], pack, labels, b);
      if !ok { return; }
      StandStep(ids, claim.evidence, order, number);
      ids := ids + [number];
    }
    ok := true;
  }

  /** The paragraphs as the agent collects them before it joins them. */
  predicate AreParagraphs(parts: seq<string>, claims: seq<PublicClaim>) {
    |parts| == |claims| && forall i :: 0 <= i < |parts| ==> parts[i] == Paragraph(claims[i])
  }

  /** `"\n\n".join` of the first parts. */
  function Join(parts: seq<string>, n: nat): string
    requires n <= |parts|
  {
    if n == 0 then "" else if n == 1 then parts[0] else Join(parts, n - 1) + "\n\n" + parts[n - 1]
  }

  lemma {:induction false} JoinedParagraphs(parts: seq<string>, claims: seq<PublicClaim>, note: string, n: nat)
    requires AreParagraphs(parts, claims) && n <= |parts|
    ensures Join(parts + [note], n) == ClaimsText(claims, n)
  {
    hide Paragraph;
    if n > 1 {
      JoinedParagraphs(parts, claims, note, n - 1);
    }
  }

  lemma JoinedAnswer(parts: seq<string>, claims: seq<PublicClaim>, note: string)
    requires AreParagraphs(parts, claims)
    ensures Join(parts + [note], |parts| + 1) == AnswerText(claims, note)
  {
    hide Paragraph;
    JoinedParagraphs(parts, claims, note, |parts|);
  }

  lemma StartBook(pack: Pack, labels: Labels)
    ensures Kept(Book([], map[], []), pack, labels) && FirstUses<EvidenceId>([]) == []
  {
  }

  lemma ShownOne(c: Claim, ids: seq<nat>, order: seq<EvidenceId>)
    requires |ids| == |c.evidence| && AllStandFor(ids, c.evidence, order)
    ensures ClaimShown(c, PublicClaim(c.id, c.text, ids), order)
  {
  }

  /** The outer loop over the claims of a draft. */
  method RenderClaims(claims: seq<Claim>, pack: Pack, labels: Labels)
    returns (ok: bool, shown: seq<PublicClaim>, citations: seq<Citation>, paragraphs: seq<string>)
    ensures ok <==> SourcesKnown(claims, pack, labels)
    ensures ok ==> CitesInOrder(citations, FirstUses(Used(claims)), pack, labels)
    ensures ok ==> |shown| == |claims| && ClaimsShown(claims, shown, FirstUses(Used(claims)))
    ensures ok ==> AreParagraphs(paragraphs, shown)
  {
    hide Indexed, CitesInOrder, AllKnown, ClaimShown, Paragraph, InsertTo;
    ok, shown, citations, paragraphs := true, [], [], [];
    StartBook(pack, labels);
    var b := Book([], map[], []);
    for i := 0 to |claims|
      invariant ok && b.order == FirstUses(UsedTo(claims, i)) && Kept(b, pack, labels)
      invariant |shown| == i && ClaimsShown(claims, shown, b.order) && AreParagraphs(paragraphs, shown)
      invariant forall j :: 0 <= j < i ==> AllKnown(claims[j].evidence, pack, labels)
    {
      var ids;
      ghost var before := b.order;
      ok, ids, b := RenderClaim(claims[i], pack, labels, b);
      if !ok { return; }
      var public := PublicClaim(claims[i].id, claims[i].text, ids);
      ShownOne(claims[i], ids, b.order);
      ClaimStep(claims, shown, public, before, b.order);
      shown := shown + [public];
      paragraphs := paragraphs + [Paragraph(public)];
    }
    citations := b.citations;
  }

  // ---------------------------------------------------------------- the validators of the answer

  /** The validators of the stored answer. */
  predicate ValidAnswer(a: FinalAnswer) {
    && NonBlank(a.text) && |a.text| <= MAX_TEXT && 1 <= |a.claims| <= MAX_CLAIMS && 1 <= |a.citations| <= MAX_UNITS
    && Distinct(seq(|a.claims|, i requires 0 <= i < |a.claims| => a.claims[i].id))
    && Distinct(seq(|a.citations|, n requires 0 <= n < |a.citations| => Label(a.citations[n].number)))
    && Distinct(seq(|a.citations|, n requires 0 <= n < |a.citations| => a.citations[n].evidence))
    && (forall i :: 0 <= i < |a.claims| ==> ValidClaim(a.claims[i]))
    && (forall n :: 0 <= n < |a.citations| ==> ValidCitation(a.citations[n]))
    && (forall i :: 0 <= i < |a.claims| ==> AllListed(a, a.claims[i]))
    && (forall n :: 0 <= n < |a.citations| ==> IsCited(a, a.citations[n].number))
    && a.claimCount == a.supportedCount == |a.claims|
  }

  predicate ValidClaim(c: PublicClaim) {
    && IsShortId(c.id) && NonBlank(c.text) && |c.text| <= MAX_CLAIM_TEXT && 1 <= |c.citations| <= MAX_CLAIM_EVIDENCE
    && Distinct(seq(|c.citations|, k requires 0 <= k < |c.citations| => Label(c.citations[k])))
  }

  predicate AllListed(a: FinalAnswer, c: PublicClaim) {
    forall n :: n in c.citations ==> IsListed(a, n)
  }

  predicate IsCited(a: FinalAnswer, number: nat) {
    exists i :: 0 <= i < |a.claims| && number in a.claims[i].citations
  }

  predicate IsListed(a: FinalAnswer, number: nat) {
    exists n :: 0 <= n < |a.citations| && a.citations[n].number == number
  }

  // ---------------------------------------------------------------- the browser's parser

  predicate ClientAcceptsCitation(c: Citation) {
    && Legible(c.evidence) && 1 <= |c.pages| <= MAX_BROWSER_LIST && (forall p :: p in c.pages ==> p >= 1)
    && |c.printed| <= MAX_BROWSER_LIST && |c.path| <= MAX_PATH
  }

  predicate ClientAcceptsClaim(a: FinalAnswer, c: PublicClaim) {
    Legible(c.id) && Legible(c.text) && 1 <= |c.citations| <= 100 && AllListed(a, c)
  }

  /** The browser's parser: it drops an answer that fails any of this. */
  predicate ClientAccepts(a: FinalAnswer) {
    && Legible(a.text) && |a.claims| <= 100 && |a.citations| <= 500
    && a.supportedCount <= a.claimCount == |a.claims|
    && (forall i :: 0 <= i < |a.claims| ==> ClientAcceptsClaim(a, a.claims[i]))
    && (forall n :: 0 <= n < |a.citations| ==> ClientAcceptsCitation(a.citations[n]))
  }

  /** No list of pages or printed labels is longer than the browser takes, and no text is blank for it. */
  predicate Displayable(a: FinalAnswer) {
    && Legible(a.text)
    && (forall i :: 0 <= i < |a.claims| ==> Legible(a.claims[i].id) && Legible(a.claims[i].text))
    && (forall n :: 0 <= n < |a.citations| ==> FitsBrowser(a.citations[n]))
  }

  predicate FitsBrowser(c: Citation) {
    Legible(c.evidence) && |c.pages| <= MAX_BROWSER_LIST && |c.printed| <= MAX_BROWSER_LIST
  }

  /**
   The browser shows a valid answer exactly when it is displayable: counts and citations always suit it, but citations
   may list up to 500 pages and printed labels where it takes 100, and a byte order mark alone is a text for the services
   and blank for it.
   */
  lemma ClientAcceptsDisplayable(a: FinalAnswer)
    requires ValidAnswer(a)
    ensures ClientAccepts(a) <==> Displayable(a)
  {
    assert forall i :: 0 <= i < |a.claims| ==> ValidClaim(a.claims[i]) && AllListed(a, a.claims[i]);
    forall n | 0 <= n < |a.citations|
      ensures ClientAcceptsCitation(a.citations[n]) <==> FitsBrowser(a.citations[n])
    {
      assert ValidCitation(a.citations[n]);
    }
    forall i | 0 <= i < |a.claims|
      ensures ClientAcceptsClaim(a, a.claims[i]) <==> Legible(a.claims[i].id) && Legible(a.claims[i].text)
    {
    }
  }

  // ---------------------------------------------------------------- the rendered answer is valid

  predicate NumbersBelow(ids: seq<nat>, limit: nat) {
    forall k :: 0 <= k < |ids| ==> ids[k] < limit
  }

  lemma {:induction false} JoinIsShort(ids: seq<nat>, n: nat)
    requires n <= |ids| && NumbersBelow(ids, 1000)
    ensures |JoinTo(ids, n)| <= 7 * n
  {
    if n > 0 {
      JoinIsShort(ids, n - 1);
    }
  }

  lemma ParagraphIsShort(p: PublicClaim)
    requires ValidClaim(p) && NumbersBelow(p.citations, 1000)
    ensures |Paragraph(p)| <= 1871
  {
    JoinIsShort(p.citations, |p.citations|);
  }

  lemma {:induction false} ClaimsTextIsShort(claims: seq<PublicClaim>, n: nat)
    requires n <= |claims| && forall i :: 0 <= i < n ==> ValidClaim(claims[i]) && NumbersBelow(claims[i].citations, 1000)
    ensures |ClaimsText(claims, n)| <= 1873 * n
  {
    hide Paragraph, ValidClaim, NumbersBelow;
    if n > 0 {
      ParagraphIsShort(claims[n - 1]);
      ClaimsTextIsShort(claims, n - 1);
    }
  }

  /** Twelve claims of the longest admissible text, ten citations each, stay below the limit. */
  lemma TextFits(a: FinalAnswer, note: string)
    requires 1 <= |a.claims| <= MAX_CLAIMS && |note| <= 200 && a.text == AnswerText(a.claims, note)
    requires forall i :: 0 <= i < |a.claims| ==> ValidClaim(a.claims[i]) && NumbersBelow(a.claims[i].citations, 1000)
    ensures |a.text| <= MAX_TEXT
  {
    hide ValidClaim, NumbersBelow, ClaimsText;
    ClaimsTextIsShort(a.claims, |a.claims|);
  }

  lemma {:induction false} ClaimsTextShows(claims: seq<PublicClaim>, n: nat)
    requires 0 < n <= |claims|
    ensures NonBlank(Paragraph(claims[0])) ==> NonBlank(ClaimsText(claims, n))
    ensures Legible(Paragraph(claims[0])) ==> Legible(ClaimsText(claims, n))
  {
    hide Paragraph, NonBlank, Legible;
    if n > 1 {
      ClaimsTextShows(claims, n - 1);
      PartsShow(ClaimsText(claims, n - 1), "\n\n");
      PartsShow(ClaimsText(claims, n - 1) + "\n\n", Paragraph(claims[n - 1]));
    }
  }

  /** The text of the answer shows what its first claim shows. */
  lemma TextShows(a: FinalAnswer, note: string)
    requires a.claims != [] && a.text == AnswerText(a.claims, note)
    ensures NonBlank(a.claims[0].text) ==> NonBlank(a.text)
    ensures Legible(a.claims[0].text) ==> Legible(a.text)
  {
    hide NonBlank, Legible, ClaimsText, JoinTo;
    var c := a.claims[0];
    PartsShow(c.text, " " + JoinTo(c.citations, |c.citations|));
    ClaimsTextShows(a.claims, |a.claims|);
    PartsShow(ClaimsText(a.claims, |a.claims|), "\n\n");
    PartsShow(ClaimsText(a.claims, |a.claims|) + "\n\n", note);
  }

  lemma OrderIsSmall(d: Draft, units: set<EvidenceId>)
    requires Bound(d, units) && |units| <= MAX_UNITS
    ensures |FirstUses(Used(d.claims))| <= MAX_UNITS
    ensures Distinct(FirstUses(Used(d.claims)))
  {
    FirstUsesAreTheUsed(Used(d.claims));
    forall e | e in Used(d.claims) ensures e in units {
      UsedByClaims(d.claims, |d.claims|, e);
      var i :| 0 <= i < |d.claims| && e in d.claims[i].evidence;
      assert Ids(d.claims[i].evidence) <= units && e in Ids(d.claims[i].evidence);
    }
    DistinctIsSmall(FirstUses(Used(d.claims)), units);
  }

  /** One claim: its shown numbers are listed and print differently. */
  lemma ShownClaimIsValid(c: Claim, p: PublicClaim, order: seq<EvidenceId>)
    requires ClaimSchema(c) && ClaimShown(c, p, order) && |order| < 1000
    ensures ValidClaim(p) && forall k :: 0 <= k < |p.citations| ==> 1 <= p.citations[k] <= |order|
  {
    assert forall k :: 0 <= k < |p.citations| ==> StandsFor(p.citations[k], c.evidence[k], order);
    forall k, j | 0 <= k < j < |p.citations| ensures Label(p.citations[k]) != Label(p.citations[j]) {
      assert c.evidence[k] != c.evidence[j];
      if Label(p.citations[k]) == Label(p.citations[j]) {
        LabelIsInjective(p.citations[k], p.citations[j]);
      }
    }
  }

  /** Every listed citation is used by some claim. */
  lemma ListedIsCited(d: Draft, a: FinalAnswer, pack: Pack, labels: Labels, note: string, n: nat)
    requires Rendered(d, a, pack, labels, note, a.repairUsed) && n < |a.citations|
    ensures IsCited(a, a.citations[n].number)
  {
    var order := FirstUses(Used(d.claims));
    FirstUsesAreTheUsed(Used(d.claims));
    assert order[n] in order;
    UsedByClaims(d.claims, |d.claims|, order[n]);
    var i :| 0 <= i < |d.claims| && order[n] in d.claims[i].evidence;
    var k :| 0 <= k < |d.claims[i].evidence| && d.claims[i].evidence[k] == order[n];
    assert ClaimShown(d.claims[i], a.claims[i], order);
    assert StandsFor(a.claims[i].citations[k], order[n], order);
    assert a.claims[i].citations[k] == n + 1;
  }

  lemma ShownIsListed(a: FinalAnswer, p: PublicClaim, order: seq<EvidenceId>, pack: Pack, labels: Labels)
    requires CitesInOrder(a.citations, order, pack, labels)
    requires forall k :: 0 <= k < |p.citations| ==> 1 <= p.citations[k] <= |order|
    ensures AllListed(a, p)
  {
    forall c | c in p.citations ensures IsListed(a, c) {
      assert a.citations[c - 1] == CiteKnown(c, order[c - 1], pack, labels);
    }
  }

  lemma RenderedClaimsAreValid(d: Draft, a: FinalAnswer, pack: Pack, labels: Labels, note: string)
    requires DraftSchema(d) && Rendered(d, a, pack, labels, note, a.repairUsed) && |a.citations| <= MAX_UNITS
    ensures forall i :: 0 <= i < |a.claims| ==>
              ValidClaim(a.claims[i]) && AllListed(a, a.claims[i]) && NumbersBelow(a.claims[i].citations, 1000)
  {
    var order := FirstUses(Used(d.claims));
    forall i | 0 <= i < |a.claims|
      ensures ValidClaim(a.claims[i]) && AllListed(a, a.claims[i]) && NumbersBelow(a.claims[i].citations, 1000)
    {
      assert ClaimShown(d.claims[i], a.claims[i], order) && ClaimSchema(d.claims[i]);
      ShownClaimIsValid(d.claims[i], a.claims[i], order);
      ShownIsListed(a, a.claims[i], order, pack, labels);
    }
  }

  lemma ListedDiffer(d: Draft, a: FinalAnswer, pack: Pack, labels: Labels, note: string)
    requires Rendered(d, a, pack, labels, note, a.repairUsed) && |a.citations| <= MAX_UNITS
    ensures Distinct(seq(|a.citations|, n requires 0 <= n < |a.citations| => Label(a.citations[n].number)))
    ensures Distinct(seq(|a.citations|, n requires 0 <= n < |a.citations| => a.citations[n].evidence))
  {
    hide Label, Known, ClaimsShown;
    FirstUsesAreTheUsed(Used(d.claims));
    forall m, n | 0 <= m < n < |a.citations| ensures Label(a.citations[m].number) != Label(a.citations[n].number) {
      if Label(m + 1) == Label(n + 1) {
        LabelIsInjective(m + 1, n + 1);
      }
    }
  }

  lemma ClaimIdsDiffer(d: Draft, a: FinalAnswer, pack: Pack, labels: Labels, note: string)
    requires DraftSchema(d) && Rendered(d, a, pack, labels, note, a.repairUsed)
    ensures Distinct(seq(|a.claims|, i requires 0 <= i < |a.claims| => a.claims[i].id))
  {
    var ids := seq(|d.claims|, i requires 0 <= i < |d.claims| => d.claims[i].id);
    assert forall i :: 0 <= i < |a.claims| ==> ClaimShown(d.claims[i], a.claims[i], FirstUses(Used(d.claims)));
    assert seq(|a.claims|, i requires 0 <= i < |a.claims| => a.claims[i].id) == ids;
  }

  predicate ValidLabels(labels: Labels) {
    forall v :: v in labels ==> ValidVersionLabel(labels[v])
  }

  lemma CitationsAreValid(d: Draft, a: FinalAnswer, pack: Pack, labels: Labels, note: string)
    requires Rendered(d, a, pack, labels, note, a.repairUsed) && ValidPack(pack) && ValidLabels(labels)
    ensures forall n :: 0 <= n < |a.citations| ==> ValidCitation(a.citations[n])
  {
    var order := FirstUses(Used(d.claims));
    forall n | 0 <= n < |a.citations| ensures ValidCitation(a.citations[n]) {
      assert Known(order[n], pack, labels);
      CiteIsValid(n + 1, order[n], pack[order[n]], labels[pack[order[n]].version]);
    }
  }

  lemma SomethingIsListed(a: FinalAnswer)
    requires a.claims != [] && ValidClaim(a.claims[0]) && AllListed(a, a.claims[0])
    ensures a.citations != []
  {
    assert IsListed(a, a.claims[0].citations[0]);
  }

  /** Whatever a schema-valid draft over an admissible pack renders to passes every validator of the stored answer. */
  lemma RenderedIsValid(d: Draft, a: FinalAnswer, pack: Pack, labels: Labels, note: string)
    requires DraftSchema(d) && d.claims != [] && Bound(d, pack.Keys) && ValidPack(pack) && ValidLabels(labels) && |note| <= 200
    requires Rendered(d, a, pack, labels, note, a.repairUsed)
    ensures ValidAnswer(a)
  {
    hide ValidClaim, ValidCitation, AnswerText, NumbersBelow;
    OrderIsSmall(d, pack.Keys);
    RenderedClaimsAreValid(d, a, pack, labels, note);
    CitationsAreValid(d, a, pack, labels, note);
    TextFits(a, note);
    forall n | 0 <= n < |a.citations| ensures IsCited(a, a.citations[n].number) {
      ListedIsCited(d, a, pack, labels, note, n);
    }
    ListedDiffer(d, a, pack, labels, note);
    ClaimIdsDiffer(d, a, pack, labels, note);
    SomethingIsListed(a);
    FirstTextIsNonBlank(a);
    TextShows(a, note);
  }

  lemma FirstTextIsNonBlank(a: FinalAnswer)
    requires a.claims != [] && ValidClaim(a.claims[0])
    ensures NonBlank(a.claims[0].text)
  {
  }

  // ---------------------------------------------------------------- rendering by the database

  /** The numbers of a claim as the database appends them to its paragraph. */
  function SpacedTo(ids: seq<nat>, n: nat): string
    requires n <= |ids|
  {
    if n == 0 then "" else SpacedTo(ids, n - 1) + (" [" + PaddedLabel(ids[n - 1]) + "]")
  }

  lemma {:induction false} SpacedIsJoined(ids: seq<nat>, n: nat)
    requires 0 < n <= |ids| && forall k :: 0 <= k < |ids| ==> ids[k] < 1000
    ensures SpacedTo(ids, n) == " " + JoinTo(ids, n)
  {
    LabelsAgree(ids[n - 1]);
    if n == 1 {
      assert SpacedTo(ids, 1) == "" + (" [" + Label(ids[0]) + "]") == " " + ("" + "[" + Label(ids[0]) + "]");
    } else {
      SpacedIsJoined(ids, n - 1);
      assert (" " + JoinTo(ids, n - 1)) + (" [" + Label(ids[n - 1]) + "]") == " " + (JoinTo(ids, n - 1) + " [" + Label(ids[n - 1]) + "]");
    }
  }

  /** The number `seen` has for an identifier; one it has not is cited with the next number, from the stored unit. */
  method SeenNumber(e: EvidenceId, pack: Pack, labels: Labels, start: Book) returns (number: nat, b: Book)
    requires Kept(start, pack, labels) && Known(e, pack, labels) && ValidPack(pack)
    ensures Kept(b, pack, labels) && b.order == InsertOne(start.order, e) && StandsFor(number, e, b.order)
  {
    hide StoredCite, Cite, ValidTitle, ValidPath;
    b := start;
    if e in b.index {
      CitedIsKnown(b, e, pack, labels);
    } else {
      assert ValidUnit(pack[e]);
      var citation := StoredCite(|b.citations| + 1, e, pack[e], labels[pack[e].version]);
      CitesAgree(|b.citations| + 1, e, pack[e], labels[pack[e].version]);
      IndexMore(b.index, b.order, e);
      CiteMore(b.citations, b.order, e, pack, labels);
      b := Book(b.order + [e], b.index[e := |b.citations|], b.citations + [citation]);
    }
    number := b.index[e] + 1;
  }

  /** The inner loop of `agent._public_answer`: it looks a number up in the citations seen so far, or cites the unit. */
  method PublishClaim(claim: Claim, pack: Pack, labels: Labels, start: Book) returns (public: PublicClaim, paragraph: string, b: Book)
    requires Kept(start, pack, labels) && AllKnown(claim.evidence, pack, labels) && ValidPack(pack)
    ensures b.order == InsertTo(start.order, claim.evidence, |claim.evidence|) && Kept(b, pack, labels)
    ensures ClaimShown(claim, public, b.order)
    ensures paragraph == claim.text + SpacedTo(public.citations, |public.citations|)
  {
    hide Kept, Known, StandsFor, InsertOne, PaddedLabel, ValidPack;
    var ids: seq<nat>, spaced := [], "";
    b := start;
    for k := 0 to |claim.evidence|
      invariant b.order == InsertTo(start.order, claim.evidence, k) && Kept(b, pack, labels)
      invariant |ids| == k && AllStandFor(ids, claim.evidence, b.order)
      invariant spaced == SpacedTo(ids, k)
    {
      ghost var order := b.order;
      var number;
      number, b := SeenNumber(claim.evidence[k], pack, labels, b);
      StandStep(ids, claim.evidence, order, number);
      SpacedOn(ids, number);
      spaced := spaced + (" [" + PaddedLabel(number) + "]");
      ids := ids + [number];
    }
    public, paragraph := PublicClaim(claim.id, claim.text, ids), claim.text + spaced;
  }

  lemma {:induction false} SpacedToPrefix(ids: seq<nat>, more: seq<nat>, n: nat)
    requires n <= |ids|
    ensures SpacedTo(ids + more, n) == SpacedTo(ids, n)
  {
    if n > 0 {
      SpacedToPrefix(ids, more, n - 1);
    }
  }

  lemma SpacedOn(ids: seq<nat>, number: nat)
    ensures SpacedTo(ids + [number], |ids| + 1) == SpacedTo(ids, |ids|) + (" [" + PaddedLabel(number) + "]")
  {
    SpacedToPrefix(ids, [number], |ids|);
  }

  /** The paragraph of a shown claim is the same in both services. */
  lemma ParagraphsAgree(claim: Claim, public: PublicClaim, order: seq<EvidenceId>)
    requires ClaimShown(claim, public, order) && claim.evidence != [] && |order| < 1000
    ensures claim.text + SpacedTo(public.citations, |public.citations|) == Paragraph(public)
  {
    assert forall k :: 0 <= k < |public.citations| ==> StandsFor(public.citations[k], claim.evidence[k], order);
    SpacedIsJoined(public.citations, |public.citations|);
  }

  lemma {:induction false} ClaimsTextOn(claims: seq<PublicClaim>, p: PublicClaim, n: nat)
    requires n <= |claims|
    ensures ClaimsText(claims + [p], n) == ClaimsText(claims, n)
    ensures n > 0 ==> ClaimsText(claims, n) != ""
  {
    if n > 1 {
      ClaimsTextOn(claims, p, n - 1);
    }
  }

  /** One more paragraph; the text is empty only before the first one. */
  lemma ClaimsTextStep(claims: seq<PublicClaim>, p: PublicClaim)
    ensures ClaimsText(claims, |claims|) == "" <==> claims == []
    ensures ClaimsText(claims + [p], |claims| + 1) ==
            ClaimsText(claims, |claims|) + (if ClaimsText(claims, |claims|) == "" then "" else "\n\n") + Paragraph(p)
  {
    hide Paragraph;
    ClaimsTextOn(claims, p, |claims|);
    if claims == [] {
      assert "" + "" + Paragraph(p) == Paragraph(p);
    }
  }

  lemma ShownNumbersAreSmall(claims: seq<Claim>, n: nat, pack: Pack)
    requires n <= |claims| && |pack| <= MAX_UNITS
    requires forall i :: 0 <= i < n ==> Ids(claims[i].evidence) <= pack.Keys
    ensures |FirstUses(UsedTo(claims, n))| <= MAX_UNITS
  {
    FirstUsesAreTheUsed(UsedTo(claims, n));
    forall e | e in UsedTo(claims, n) ensures e in pack.Keys {
      UsedByClaims(claims, n, e);
      var i :| 0 <= i < n && e in claims[i].evidence;
      assert e in Ids(claims[i].evidence);
    }
    DistinctIsSmall(FirstUses(UsedTo(claims, n)), pack.Keys);
  }

  lemma CitesSomething(c: Claim)
    requires ClaimSchema(c)
    ensures c.evidence != []
  {
  }

  /** One more claim published: its paragraph continues the text. */
  lemma PublishStep(d: Draft, shown: seq<PublicClaim>, p: PublicClaim, before: seq<EvidenceId>, order: seq<EvidenceId>,
                    pack: Pack, text: string, paragraph: string)
    requires DraftSchema(d) && Bound(d, pack.Keys) && |pack| <= MAX_UNITS && |shown| < |d.claims|
    requires ClaimsShown(d.claims, shown, before) && before == FirstUses(UsedTo(d.claims, |shown|))
    requires ClaimShown(d.claims[|shown|], p, order)
    requires order == InsertTo(before, d.claims[|shown|].evidence, |d.claims[|shown|].evidence|)
    requires text == ClaimsText(shown, |shown|)
    requires paragraph == d.claims[|shown|].text + SpacedTo(p.citations, |p.citations|)
    ensures ClaimsShown(d.claims, shown + [p], order) && order == FirstUses(UsedTo(d.claims, |shown| + 1))
    ensures text + (if text == "" then "" else "\n\n") + paragraph == ClaimsText(shown + [p], |shown| + 1)
  {
    hide ClaimSchema, ClaimShown, Paragraph, InsertTo, SpacedTo, ClaimsShown, FirstUses, UsedTo, ClaimsText;
    ClaimStep(d.claims, shown, p, before, order);
    ShownNumbersAreSmall(d.claims, |shown| + 1, pack);
    assert ClaimSchema(d.claims[|shown|]);
    CitesSomething(d.claims[|shown|]);
    ParagraphsAgree(d.claims[|shown|], p, order);
    ClaimsTextStep(shown, p);
  }

  /** The outer loop of `agent._public_answer`, which rebuilds the answer from the stored draft and the stored pack. */
  method PublicAnswer(d: Draft, pack: Pack, labels: Labels, note: string, repairUsed: bool) returns (a: FinalAnswer)
    requires DraftSchema(d) && d.claims != [] && Bound(d, pack.Keys) && ValidPack(pack) && SourcesKnown(d.claims, pack, labels)
    ensures Rendered(d, a, pack, labels, note, repairUsed)
  {
    hide DraftSchema, Bound, ClaimShown, ClaimsShown, AllKnown, Paragraph, ClaimsText, Indexed, CitesInOrder, InsertTo, SpacedTo;
    hide FirstUses, UsedTo;
    var shown: seq<PublicClaim>, text := [], "";
    StartBook(pack, labels);
    NothingShown(d.claims);
    var b := Book([], map[], []);
    for i := 0 to |d.claims|
      invariant b.order == FirstUses(UsedTo(d.claims, i)) && Kept(b, pack, labels)
      invariant |shown| == i && ClaimsShown(d.claims, shown, b.order)
      invariant text == ClaimsText(shown, i)
    {
      ghost var before := b.order;
      var public, paragraph;
      public, paragraph, b := PublishClaim(d.claims[i], pack, labels, b);
      PublishStep(d, shown, public, before, b.order, pack, text, paragraph);
      text := text + (if text == "" then "" else "\n\n") + paragraph;
      shown := shown + [public];
    }
    a := FinalAnswer(text + "\n\n" + note, shown, b.citations, |shown|, |shown|, repairUsed);
  }

  lemma NothingShown(claims: seq<Claim>)
    ensures UsedTo(claims, 0) == [] && ClaimsShown(claims, [], []) && ClaimsText([], 0) == ""
  {
  }

  // ---------------------------------------------------------------- the answer of a confirmed draft

  /** The draft passes the precheck, and the policy, run again, still renders it. */
  predicate Confirmed(d: Draft, c: Critic, pack: Pack, groups: Option<seq<CitationGroup>>, missing: seq<Message>,
                            repairAttempts: int)
  {
    && PrecheckFailure(d, Excerpts(pack), groups).None?
    && Aggregate(d, c, pack.Keys, None, missing, repairAttempts).Ok?
    && Aggregate(d, c, pack.Keys, None, missing, repairAttempts).value.action.Render?
  }

  /**
   `render_answer`.  It renders exactly the confirmed drafts over the evidence pack's own, non-empty snapshot whose sources all have a
   known version; the result is numbered by first use, passes the validators of the stored answer, and is shown by the
   browser exactly when it is displayable.
   */
  method RenderAnswer(d: Draft, c: Critic, pack: Pack, labels: Labels, groups: Option<seq<CitationGroup>>, missing: seq<Message>,
                      repairAttempts: int, snapshotMatches: bool, versionCount: nat, note: string)
    returns (r: Result<FinalAnswer, Failure>)
    requires ValidPack(pack) && ValidLabels(labels) && |note| <= 200
    ensures r.Ok? <==> Confirmed(d, c, pack, groups, missing, repairAttempts) && snapshotMatches
                       && SourcesKnown(d.claims, pack, labels) && versionCount > 0
    ensures r == Err(SourceUnavailable) <==> Confirmed(d, c, pack, groups, missing, repairAttempts) && snapshotMatches
                                             && !SourcesKnown(d.claims, pack, labels)
    ensures r.Ok? ==> Rendered(d, r.value, pack, labels, note, repairAttempts != 0)
    ensures r.Ok? ==> ValidAnswer(r.value) && (ClientAccepts(r.value) <==> Displayable(r.value))
  {
    hide Rendered, ValidAnswer, Displayable, ClientAccepts;
    var precheck := PrecheckDraft(d, Excerpts(pack), groups);
    var decision := Aggregate(d, c, pack.Keys, precheck, missing, repairAttempts);
    if decision.Err? { return Err(Rejected(decision.error)); }
    if !decision.value.action.Render? || !snapshotMatches { return Err(Rejected(VerificationFailed)); }
    r := Assemble(d, pack, labels, versionCount, repairAttempts != 0, note);
  }

  /** The part of `render_answer` behind the policy, up to the validators of the answer it constructs. */
  method Assemble(d: Draft, pack: Pack, labels: Labels, versionCount: nat, repairUsed: bool, note: string)
    returns (r: Result<FinalAnswer, Failure>)
    requires ValidPack(pack) && ValidLabels(labels) && |note| <= 200 && DraftSchema(d) && d.claims != [] && Bound(d, pack.Keys)
    ensures r.Ok? <==> SourcesKnown(d.claims, pack, labels) && versionCount > 0
    ensures r == Err(SourceUnavailable) <==> !SourcesKnown(d.claims, pack, labels)
    ensures r.Err? ==> r.error.SourceUnavailable? || r.error.EmptySnapshot?
    ensures r.Ok? ==> Rendered(d, r.value, pack, labels, note, repairUsed)
    ensures r.Ok? ==> ValidAnswer(r.value) && (ClientAccepts(r.value) <==> Displayable(r.value))
  {
    hide ValidAnswer, Displayable, ClientAccepts, SourcesKnown, Join, AnswerText, AreParagraphs;
    var ok, shown, citations, paragraphs := RenderClaims(d.claims, pack, labels);
    if !ok { return Err(SourceUnavailable); }
    if versionCount == 0 { return Err(EmptySnapshot); }
    JoinedAnswer(paragraphs, shown, note);
    var a := FinalAnswer(Join(paragraphs + [note], |paragraphs| + 1), shown, citations, |shown|, |shown|, repairUsed);
    RenderedIsValid(d, a, pack, labels, note);
    ClientAcceptsDisplayable(a);
    return Ok(a);
  }

  /**
   The agent renders, then the database renders again from what is stored and compares: over the same pack, labels and
   repair flag the comparison never fails, so no confirmed answer is lost to a mismatch between the two programs.
   */
  method Publish(d: Draft, pack: Pack, labels: Labels, repairUsed: bool, versionCount: nat, note: string)
    returns (r: Result<FinalAnswer, Failure>, matches: bool)
    requires ValidPack(pack) && ValidLabels(labels) && |note| <= 200 && DraftSchema(d) && d.claims != [] && Bound(d, pack.Keys)
    ensures r.Ok? <==> SourcesKnown(d.claims, pack, labels) && versionCount > 0
    ensures r.Ok? ==> matches
  {
    hide SourcesKnown, Rendered, ValidAnswer, Displayable, ClientAccepts;
    matches := false;
    r := Assemble(d, pack, labels, versionCount, repairUsed, note);
    if r.Ok? {
      var stored := PublicAnswer(d, pack, labels, note, repairUsed);
      RenderedIsUnique(d, r.value, stored, pack, labels, note, repairUsed);
      matches := r.value == stored;
    }
  }

  // ---------------------------------------------------------------- an answer the browser drops

  function LongUnit(): Unit {
    Unit(0, "t", [], seq(101, (i: nat) => Span(i + 1, None)), "x")
  }

  lemma LongUnitIsValid()
    ensures ValidUnit(LongUnit()) && |Pages(LongUnit())| == 101
  {
    hide PagesTo;
    assert !IsSpace("t"[0]);
    ConsecutivePages(LongUnit().spans, |LongUnit().spans|);
  }

  lemma LoneDraftIsUsed()
    ensures DraftSchema(LONE_DRAFT) && Used(LONE_DRAFT.claims) == ["e"] && FirstUses(["e"]) == ["e"] && IsShortId("e")
  {
    LoneDraftIsValid();
    assert !IsSpace("e"[0]);
    assert UsedTo(LONE_DRAFT.claims, 0) == [];
    assert InsertTo([], ["e"], 0) == [];
  }

  /** The answer of one claim that cites one unit. */
  function LoneAnswer(u: Unit): FinalAnswer {
    var claims := [PublicClaim("c", "t", [1])];
    FinalAnswer(AnswerText(claims, "n"), claims, [Cite(1, "e", u, None)], 1, 1, false)
  }

  lemma LoneAnswerIsRendered(u: Unit, pack: Pack, labels: Labels)
    requires pack == map["e" := u] && labels == map[u.version := None]
    ensures Rendered(LONE_DRAFT, LoneAnswer(u), pack, labels, "n", false)
  {
    hide AnswerText, Cite, FirstUses, Used, UsedTo, DraftSchema, IsShortId;
    LoneDraftIsUsed();
    assert Known("e", pack, labels);
    assert StandsFor(1, "e", ["e"]);
    assert ClaimShown(LONE_DRAFT.claims[0], LoneAnswer(u).claims[0], ["e"]);
  }

  lemma LoneAnswerIsValid(u: Unit, pack: Pack, labels: Labels)
    requires ValidUnit(u) && pack == map["e" := u] && labels == map[u.version := None]
    ensures DraftSchema(LONE_DRAFT) && Bound(LONE_DRAFT, pack.Keys) && ValidPack(pack) && ValidLabels(labels)
    ensures ValidAnswer(LoneAnswer(u))
  {
    hide Rendered, ValidAnswer, AnswerText, Cite;
    LoneDraftIsUsed();
    LoneAnswerIsRendered(u, pack, labels);
    assert Ids(["e"]) <= pack.Keys;
    RenderedIsValid(LONE_DRAFT, LoneAnswer(u), pack, labels, "n");
  }

  /** Not every valid answer is shown: one citation over 101 pages is rendered, passes every validator and is dropped. */
  lemma LongListsAreDropped()
    ensures exists d: Draft, a: FinalAnswer, pack: Pack, labels: Labels, note: string ::
              && DraftSchema(d) && Bound(d, pack.Keys) && ValidPack(pack) && ValidLabels(labels)
              && Rendered(d, a, pack, labels, note, false) && ValidAnswer(a) && !ClientAccepts(a)
  {
    hide Rendered, ValidAnswer, DraftSchema, Bound, ValidPack, ValidLabels, ClientAccepts, LongUnit, AnswerText, Pages;
    var u := LongUnit();
    var pack: Pack, labels: Labels := map["e" := u], map[u.version := None];
    LongUnitIsValid();
    LoneAnswerIsValid(u, pack, labels);
    LoneAnswerIsRendered(u, pack, labels);
    assert !FitsBrowser(LoneAnswer(u).citations[0]);
    ClientAcceptsDisplayable(LoneAnswer(u));
  }
}
