/** The deterministic gaps of an answer about table variants: rows it must cover but does not fully cite. */
module VariantGaps {
  import opened Policy

  datatype RowOption = RowOption(row: int, subjects: seq<EvidenceId>, values: seq<EvidenceId>, complete: seq<EvidenceId>)

  datatype VariantGroup = VariantGroup(base: int, indices: seq<int>)

  /** What the text heuristics say about the row subjects of a group and about the question. */
  datatype TextView = TextView(words: nat -> set<string>, quoted: nat -> bool, question: set<string>)

  // ---------------------------------------------------------------- specification

  predicate InRange(indices: seq<nat>, count: nat) {
    forall k :: 0 <= k < |indices| ==> indices[k] < count
  }

  function Usable(indices: seq<int>, count: nat): (r: seq<nat>)
    ensures forall i :: i in r <==> i in indices && 0 <= i < count
    ensures InRange(r, count)
  {
    if indices == [] then []
    else
      var rest := Usable(indices[..|indices| - 1], count);
      var last := indices[|indices| - 1];
      if 0 <= last < count then rest + [last] else rest
  }

  function WordsOf(indices: seq<nat>, except: nat, words: nat -> set<string>): (r: set<string>)
    ensures forall w :: w in r <==> exists i :: i in indices && i != except && w in words(i)
  {
    set i, w | i in indices && i != except && w in words(i) :: w
  }

  /** The question names a row by quoting its subject, or by all the words that only this row has. */
  predicate Names(view: TextView, base: int, indices: seq<nat>, i: nat) {
    || view.quoted(i)
    || (i != base
        && var distinctive := view.words(i) - WordsOf(indices, i, view.words);
           distinctive != {} && distinctive <= view.question)
  }

  function Selected(view: TextView, base: int, indices: seq<nat>, upTo: nat): (r: seq<nat>)
    requires upTo <= |indices|
    ensures forall i :: i in r <==> i in indices[..upTo] && Names(view, base, indices, i)
    ensures forall count :: InRange(indices, count) ==> InRange(r, count)
  {
    if upTo == 0 then []
    else
      var rest := Selected(view, base, indices, upTo - 1);
      assert indices[..upTo] == indices[..upTo - 1] + [indices[upTo - 1]];
      if Names(view, base, indices, indices[upTo - 1]) then rest + [indices[upTo - 1]] else rest
  }

  /** The rows an answer has to cover: those the question names, or the whole group when it names none. */
  function Required(view: TextView, g: VariantGroup, indices: seq<nat>): (r: seq<nat>)
    ensures forall i :: i in r ==> i in indices
    ensures forall count :: InRange(indices, count) ==> InRange(r, count)
    ensures indices != [] ==> r != []
  {
    var selected := Selected(view, g.base, indices, |indices|);
    if selected == [] then indices else selected
  }

  predicate Touched(options: seq<RowOption>, indices: seq<nat>, cited: set<EvidenceId>)
    requires InRange(indices, |options|)
  {
    exists i, e :: i in indices && e in options[i].values && e in cited
  }

  predicate Incomplete(o: RowOption, cited: set<EvidenceId>) {
    exists e :: e in o.complete && e !in cited
  }

  function NotCited(ids: seq<EvidenceId>, cited: set<EvidenceId>): (r: seq<EvidenceId>)
    ensures forall e :: e in r <==> e in ids && e !in cited
  {
    if ids == [] then []
    else if ids[0] in cited then NotCited(ids[1..], cited)
    else [ids[0]] + NotCited(ids[1..], cited)
  }

  /** The citations a message asks for: the row's own cells first, its context when those are all cited. */
  function Lacking(o: RowOption, cited: set<EvidenceId>): seq<EvidenceId> {
    var own := NotCited(o.subjects + o.values, cited);
    if own != [] then own else NotCited(o.complete, cited)
  }

  function GroupMessages(options: seq<RowOption>, required: seq<nat>, cited: set<EvidenceId>): (r: seq<Message>)
    requires InRange(required, |options|)
  {
    if required == [] then []
    else
      var last := required[|required| - 1];
      var rest := GroupMessages(options, required[..|required| - 1], cited);
      if Incomplete(options[last], cited) then rest + [Row(options[last].row, Lacking(options[last], cited))] else rest
  }

  function MessagesOf(options: seq<RowOption>, g: VariantGroup, cited: set<EvidenceId>, view: TextView): seq<Message> {
    var indices := Usable(g.indices, |options|);
    if |indices| < 2 || !Touched(options, indices, cited) then []
    else GroupMessages(options, Required(view, g, indices), cited)
  }

  /** Every message, before the cut to twelve. */
  function AllMessages(options: seq<RowOption>, groups: seq<VariantGroup>, cited: set<EvidenceId>, view: VariantGroup -> TextView): seq<Message> {
    if groups == [] then []
    else
      var last := groups[|groups| - 1];
      AllMessages(options, groups[..|groups| - 1], cited, view) + MessagesOf(options, last, cited, view(last))
  }

  // ---------------------------------------------------------------- what the messages mean

  /** A required row of a touched group whose complete citations are not all cited. */
  predicate Gap(options: seq<RowOption>, g: VariantGroup, i: nat, cited: set<EvidenceId>, view: TextView) {
    var indices := Usable(g.indices, |options|);
    && |indices| >= 2 && Touched(options, indices, cited)
    && i in Required(view, g, indices) && Incomplete(options[i], cited)
  }

  lemma {:induction false} GroupMessagesMean(options: seq<RowOption>, required: seq<nat>, cited: set<EvidenceId>, m: Message)
    requires InRange(required, |options|)
    ensures m in GroupMessages(options, required, cited)
            <==> exists i :: i in required && Incomplete(options[i], cited) && m == Row(options[i].row, Lacking(options[i], cited))
  {
    if required != [] {
      var front, last := required[..|required| - 1], required[|required| - 1];
      assert required == front + [last];
      GroupMessagesMean(options, front, cited, m);
    }
  }

  /** A message asks for something, and only for citations of its row that are really missing. */
  lemma LackingIsReal(o: RowOption, cited: set<EvidenceId>)
    requires Incomplete(o, cited)
    ensures Lacking(o, cited) != []
    ensures forall e :: e in Lacking(o, cited) ==> e !in cited && (e in o.subjects || e in o.values || e in o.complete)
  {
    var e :| e in o.complete && e !in cited;
    assert e in NotCited(o.complete, cited);
  }

  predicate SaysGap(options: seq<RowOption>, g: VariantGroup, i: nat, cited: set<EvidenceId>, view: TextView, m: Message) {
    Gap(options, g, i, cited, view) && m == Row(options[i].row, Lacking(options[i], cited))
  }

  lemma MessagesOfMean(options: seq<RowOption>, g: VariantGroup, cited: set<EvidenceId>, view: TextView, m: Message)
    ensures m in MessagesOf(options, g, cited, view) <==> exists i: nat :: SaysGap(options, g, i, cited, view, m)
  {
    var indices := Usable(g.indices, |options|);
    var required := Required(view, g, indices);
    GroupMessagesMean(options, required, cited, m);
    if m in MessagesOf(options, g, cited, view) {
      var i :| i in required && Incomplete(options[i], cited) && m == Row(options[i].row, Lacking(options[i], cited));
      assert SaysGap(options, g, i, cited, view, m);
    }
  }

  /** The messages are exactly the gaps: each gap yields its message, and there is no other message. */
  lemma {:induction false} MessagesAreGaps(options: seq<RowOption>, groups: seq<VariantGroup>, cited: set<EvidenceId>,
                                           view: VariantGroup -> TextView, m: Message)
    ensures m in AllMessages(options, groups, cited, view)
            <==> exists g, i: nat :: g in groups && SaysGap(options, g, i, cited, view(g), m)
  {
    if groups != [] {
      var front, last := groups[..|groups| - 1], groups[|groups| - 1];
      assert groups == front + [last];
      MessagesAreGaps(options, front, cited, view, m);
      MessagesOfMean(options, last, cited, view(last), m);
    }
  }

  /** Parts are missing exactly when some touched group has a required row whose complete citations are not all cited. */
  lemma MissingIffGap(options: seq<RowOption>, groups: seq<VariantGroup>, cited: set<EvidenceId>, view: VariantGroup -> TextView)
    ensures AllMessages(options, groups, cited, view) != [] <==> exists g, i: nat :: g in groups && Gap(options, g, i, cited, view(g))
  {
    var all := AllMessages(options, groups, cited, view);
    if all != [] {
      MessagesAreGaps(options, groups, cited, view, all[0]);
      assert all[0] in all;
    }
    if g, i: nat :| g in groups && Gap(options, g, i, cited, view(g)) {
      var m := Row(options[i].row, Lacking(options[i], cited));
      assert SaysGap(options, g, i, cited, view(g), m);
      MessagesAreGaps(options, groups, cited, view, m);
    }
  }

  /** Citing every complete row of a touched group leaves no gap in it, whatever the question names. */
  lemma CompleteCitationsCloseGroup(options: seq<RowOption>, g: VariantGroup, cited: set<EvidenceId>, view: TextView)
    requires forall i, e :: i in Usable(g.indices, |options|) && e in options[i].complete ==> e in cited
    ensures forall i :: !Gap(options, g, i, cited, view)
  {
  }

  // ---------------------------------------------------------------- implementation

  method QuestionSelectedVariantIndices(view: TextView, base: int, indices: seq<nat>) returns (selected: seq<nat>)
    ensures selected == Selected(view, base, indices, |indices|)
  {
    selected := [];
    for k := 0 to |indices|
      invariant selected == Selected(view, base, indices, k)
    {
      var i := indices[k];
      if view.quoted(i) {
        selected := selected + [i];
        continue;
      }
      if i == base { continue; }
      var distinctive := view.words(i) - WordsOf(indices, i, view.words);
      if distinctive != {} && distinctive <= view.question { selected := selected + [i]; }
    }
  }

  method AppendRowMessages(options: seq<RowOption>, required: seq<nat>, cited: set<EvidenceId>, messages: seq<Message>)
    returns (extended: seq<Message>)
    requires InRange(required, |options|)
    ensures extended == messages + GroupMessages(options, required, cited)
  {
    extended := messages;
    for j := 0 to |required|
      invariant extended == messages + GroupMessages(options, required[..j], cited)
    {
      assert required[..j + 1][..j] == required[..j];
      var option := options[required[j]];
      if !Incomplete(option, cited) { continue; }
      var missing := NotCited(option.subjects + option.values, cited);
      if missing == [] { missing := NotCited(option.complete, cited); }
      LackingIsReal(option, cited);
      if missing != [] { extended := extended + [Row(option.row, missing)]; }
    }
    assert required[..|required|] == required;
  }

  method TableVariantMissingParts(options: seq<RowOption>, groups: seq<VariantGroup>, cited: set<EvidenceId>,
                                  view: VariantGroup -> TextView) returns (messages: seq<Message>)
    ensures var all := AllMessages(options, groups, cited, view);
            messages == if |all| <= 12 then all else all[..12]
    ensures messages != [] <==> exists g, i: nat :: g in groups && Gap(options, g, i, cited, view(g))
  {
    messages := [];
    for k := 0 to |groups|
      invariant messages == AllMessages(options, groups[..k], cited, view)
    {
      var group := groups[k];
      assert groups[..k + 1][..k] == groups[..k];
      var indices := Usable(group.indices, |options|);
      if |indices| < 2 || !Touched(options, indices, cited) { continue; }
      var required := QuestionSelectedVariantIndices(view(group), group.base, indices);
      if required == [] { required := indices; }
      messages := AppendRowMessages(options, required, cited, messages);
    }
    assert groups[..|groups|] == groups;
    MissingIffGap(options, groups, cited, view);
    if |messages| > 12 { messages := messages[..12]; }
  }
}
