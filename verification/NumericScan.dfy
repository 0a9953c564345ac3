/** The numeric literals of a text: the pattern with its look-around, and the left-to-right scan for all matches. */
module NumericScan {
  import opened Common
  import opened NumericLiterals

  /** `(?!\d)`: no digit stands at this place. */
  predicate Ends(text: string, j: nat) {
    j < |text| ==> !IsDigit(text[j])
  }

  /** `(?<!\d)`: no digit stands before this place. */
  predicate Starts(text: string, i: nat) {
    0 < i <= |text| ==> !IsDigit(text[i - 1])
  }

  /** Where the digits that begin here end. */
  function RunEnd(text: string, i: nat): (j: nat)
    requires i <= |text|
    ensures i <= j <= |text| && AllDigits(text[i..j]) && Ends(text, j)
    decreases |text| - i
  {
    if i < |text| && IsDigit(text[i]) then RunEnd(text, i + 1) else i
  }

  /** A gap and three digits; a fourth digit would make the pattern give the group back. */
  predicate GroupAt(text: string, j: nat) {
    j + 4 <= |text| && IsGap(text[j]) && AllDigits(text[j + 1..j + 4]) && Ends(text, j + 4)
  }

  function GroupsEnd(text: string, j: nat): (end: nat)
    requires j <= |text|
    ensures j <= end <= |text| && (Ends(text, j) ==> Ends(text, end))
    decreases |text| - j
  {
    if GroupAt(text, j) then GroupsEnd(text, j + 4) else j
  }

  function FractionEnd(text: string, j: nat): (end: nat)
    requires j <= |text|
    ensures j <= end <= |text| && (Ends(text, j) ==> Ends(text, end))
  {
    if j < |text| && IsPoint(text[j]) && RunEnd(text, j + 1) > j + 1 then RunEnd(text, j + 1) else j
  }

  predicate IsSign(c: char) {
    c == '+' || c == '-'
  }

  /** Behind the sign, if there is one. */
  function Unsigned(text: string, i: nat): nat {
    if i < |text| && IsSign(text[i]) then i + 1 else i
  }

  /** The end of the match that begins at a place, if one does: `_NUMERIC_LITERAL.match` there. */
  function MatchEnd(text: string, i: nat): (end: Option<nat>)
    requires i <= |text|
    ensures end.Some? ==> i < end.value <= |text| && Ends(text, end.value)
  {
    var p := Unsigned(text, i);
    if !Starts(text, i) || RunEnd(text, p) == p then None
    else
      var d := RunEnd(text, p);
      Some(FractionEnd(text, if d - p <= 3 then GroupsEnd(text, d) else d))
  }

  /** `_NUMERIC_LITERAL.finditer` from a place on: the leftmost match, then the matches behind it. */
  function Matches(text: string, i: nat): (found: seq<(nat, nat)>)
    requires i <= |text|
    ensures forall k :: 0 <= k < |found| ==>
              i <= found[k].0 <= |text| && MatchEnd(text, found[k].0) == Some(found[k].1)
    ensures forall k :: 0 <= k < |found| - 1 ==> found[k].1 <= found[k + 1].0
    decreases |text| - i
  {
    if i == |text| then []
    else match MatchEnd(text, i)
      case None => Matches(text, i + 1)
      case Some(end) => [(i, end)] + Matches(text, end)
  }

  predicate Within(text: string, m: (nat, nat)) {
    m.0 <= m.1 <= |text|
  }

  /** The canonical form of a piece of the text. */
  function FormAt(text: string, m: (nat, nat)): string
    requires Within(text, m)
  {
    Canonical(text[m.0..m.1])
  }

  /** `_numeric_literals`: the canonical forms of all matches. */
  function Numbers(text: string): set<string> {
    set m | m in Matches(text, 0) && Within(text, m) :: FormAt(text, m)
  }

  predicate IsDigitAt(text: string, k: nat) {
    k < |text| && IsDigit(text[k])
  }

  // ---------------------------------------------------------------- a match is a literal

  function GroupsAt(text: string, j: nat): (groups: seq<(char, string)>)
    requires j <= |text|
    ensures ValidGroups(groups)
    decreases |text| - j
  {
    if GroupAt(text, j) then [(text[j], text[j + 1..j + 4])] + GroupsAt(text, j + 4) else []
  }

  function FractionAt(text: string, j: nat): (f: Option<Fraction>)
    requires j <= |text|
    ensures ValidFraction(f) && FractionText(f) == text[j..FractionEnd(text, j)]
  {
    if FractionEnd(text, j) == j then None else Some(Fraction(text[j], text[j + 1..FractionEnd(text, j)]))
  }

  /** The literal a match spells. */
  function Read(text: string, i: nat): Literal
    requires i <= |text| && MatchEnd(text, i).Some?
  {
    var p := Unsigned(text, i);
    var d := RunEnd(text, p);
    var sign := if p == i then NoSign else if text[i] == '-' then Minus else Plus;
    if d - p <= 3 then Literal(sign, text[p..d], GroupsAt(text, d), FractionAt(text, GroupsEnd(text, d)))
    else Literal(sign, text[p..d], [], FractionAt(text, d))
  }

  lemma Joined(text: string, p: nat, d: nat, end: nat)
    requires p <= d <= end <= |text|
    ensures text[p..d] + text[d..end] == text[p..end]
  {
  }

  lemma GroupSpells(text: string, j: nat, end: nat)
    requires j + 4 <= end <= |text|
    ensures [text[j]] + (text[j + 1..j + 4] + text[j + 4..end]) == text[j..end]
  {
    Joined(text, j + 1, j + 4, end);
    assert [text[j]] == text[j..j + 1];
    Joined(text, j, j + 1, end);
  }

  lemma RestOfGroup(gap: char, d: string, groups: seq<(char, string)>, f: Option<Fraction>)
    ensures Rest([(gap, d)] + groups, f) == [gap] + (d + Rest(groups, f))
  {
    assert ([(gap, d)] + groups)[1..] == groups;
  }

  lemma {:induction false} GroupsSpell(text: string, j: nat)
    requires j <= |text|
    ensures Rest(GroupsAt(text, j), FractionAt(text, GroupsEnd(text, j))) == text[j..FractionEnd(text, GroupsEnd(text, j))]
    decreases |text| - j
  {
    if GroupAt(text, j) {
      GroupsSpell(text, j + 4);
      GroupSpells(text, j, FractionEnd(text, GroupsEnd(text, j)));
      RestOfGroup(text[j], text[j + 1..j + 4], GroupsAt(text, j + 4), FractionAt(text, GroupsEnd(text, j)));
    }
  }

  lemma SignSpells(text: string, i: nat, p: nat, end: nat)
    requires i <= p <= end <= |text| && p <= i + 1 && (p == i + 1 ==> IsSign(text[i]))
    ensures SignText(if p == i then NoSign else if text[i] == '-' then Minus else Plus) + text[p..end] == text[i..end]
  {
  }

  lemma BodySpells(text: string, i: nat)
    requires i <= |text| && MatchEnd(text, i).Some?
    ensures Unsigned(text, i) <= MatchEnd(text, i).value
    ensures Body(Read(text, i)) == text[Unsigned(text, i)..MatchEnd(text, i).value]
  {
    var p := Unsigned(text, i);
    var d := RunEnd(text, p);
    if d - p <= 3 {
      GroupsSpell(text, d);
    }
    Joined(text, p, d, MatchEnd(text, i).value);
  }

  /** Every match spells a literal of the grammar. */
  lemma MatchIsLiteral(text: string, i: nat)
    requires i <= |text| && MatchEnd(text, i).Some?
    ensures Valid(Read(text, i)) && Text(Read(text, i)) == text[i..MatchEnd(text, i).value]
  {
    BodySpells(text, i);
    SignSpells(text, i, Unsigned(text, i), MatchEnd(text, i).value);
  }

  // ---------------------------------------------------------------- a match is the longest literal

  /** A literal of the grammar stands here, with no digit before or behind it. */
  predicate LiteralAt(text: string, i: nat, l: Literal) {
    Valid(l) && i + |Text(l)| <= |text| && text[i..i + |Text(l)|] == Text(l) && Starts(text, i) && Ends(text, i + |Text(l)|)
  }

  predicate StandsAt(text: string, i: nat, s: string) {
    i + |s| <= |text| && text[i..i + |s|] == s
  }

  lemma Halves(text: string, i: nat, s: string, t: string)
    requires StandsAt(text, i, s + t)
    ensures StandsAt(text, i, s) && StandsAt(text, i + |s|, t)
  {
    assert text[i..i + |s|] == (s + t)[..|s|] == s;
    assert text[i + |s|..i + |s| + |t|] == (s + t)[|s|..] == t;
  }

  lemma First(text: string, i: nat, s: string)
    requires StandsAt(text, i, s) && s != ""
    ensures text[i] == s[0]
  {
    assert text[i..i + |s|][0] == s[0];
  }

  /** A run of digits that is followed by no digit ends where the digits end. */
  lemma {:induction false} DigitsFill(text: string, i: nat, d: string)
    requires StandsAt(text, i, d) && AllDigits(d) && Ends(text, i + |d|)
    ensures RunEnd(text, i) == i + |d|
    decreases |d|
  {
    if d != "" {
      First(text, i, d);
      assert text[i + 1..i + |d|] == text[i..i + |d|][1..];
      DigitsFill(text, i + 1, d[1..]);
    }
  }

  lemma FractionFills(text: string, j: nat, f: Option<Fraction>)
    requires ValidFraction(f) && StandsAt(text, j, FractionText(f)) && Ends(text, j + |FractionText(f)|)
    ensures j + |FractionText(f)| <= FractionEnd(text, j)
  {
    if f.Some? {
      Halves(text, j, [f.value.point], f.value.digits);
      First(text, j, FractionText(f));
      DigitsFill(text, j + 1, f.value.digits);
    }
  }

  lemma RestEndsDigits(groups: seq<(char, string)>, f: Option<Fraction>)
    requires ValidGroups(groups) && ValidFraction(f) && Rest(groups, f) != ""
    ensures !IsDigit(Rest(groups, f)[0])
  {
    GapsAreApart();
  }

  lemma GroupStands(text: string, j: nat, gap: char, d: string, rest: string)
    requires IsGap(gap) && |d| == 3 && AllDigits(d) && StandsAt(text, j, [gap] + (d + rest))
    requires if rest == "" then Ends(text, j + 4) else !IsDigit(rest[0])
    ensures GroupAt(text, j) && StandsAt(text, j + 4, rest)
  {
    Halves(text, j, [gap], d + rest);
    Halves(text, j + 1, d, rest);
    First(text, j, [gap]);
    assert text[j + 1..j + 4] == d;
    if rest != "" {
      First(text, j + 4, rest);
    }
  }

  /** Whatever groups and fraction stand here, the scan of groups and fraction goes at least as far. */
  lemma {:induction false} RestFits(text: string, j: nat, groups: seq<(char, string)>, f: Option<Fraction>)
    requires ValidGroups(groups) && ValidFraction(f)
    requires StandsAt(text, j, Rest(groups, f)) && Ends(text, j + |Rest(groups, f)|)
    ensures j + |Rest(groups, f)| <= FractionEnd(text, GroupsEnd(text, j))
    decreases |groups|
  {
    if groups == [] {
      FractionFills(text, j, f);
      PointIsNoGroup(text, j);
    } else {
      var rest := Rest(groups[1..], f);
      if rest != "" {
        RestEndsDigits(groups[1..], f);
      }
      GroupStands(text, j, groups[0].0, groups[0].1, rest);
      RestFits(text, j + 4, groups[1..], f);
    }
  }

  /** Where a fraction begins no group does. */
  lemma PointIsNoGroup(text: string, j: nat)
    requires j <= |text|
    ensures FractionEnd(text, j) <= FractionEnd(text, GroupsEnd(text, j))
  {
    GapsAreApart();
  }

  lemma SignOf(text: string, i: nat, l: Literal)
    requires LiteralAt(text, i, l)
    ensures Unsigned(text, i) == i + |SignText(l.sign)| && StandsAt(text, Unsigned(text, i), Body(l))
  {
    BodyStartsWithDigit(l);
    Halves(text, i, SignText(l.sign), Body(l));
    First(text, i, Text(l));
  }

  lemma LeadFills(text: string, p: nat, l: Literal)
    requires Valid(l) && StandsAt(text, p, Body(l)) && Ends(text, p + |Body(l)|)
    ensures RunEnd(text, p) == p + |l.lead| && StandsAt(text, p + |l.lead|, Rest(l.groups, l.fraction))
  {
    var rest := Rest(l.groups, l.fraction);
    Halves(text, p, l.lead, rest);
    if rest != "" {
      First(text, p + |l.lead|, rest);
      RestEndsDigits(l.groups, l.fraction);
    }
    DigitsFill(text, p, l.lead);
  }

  /** A literal standing here, between places without digits, makes a match that reaches at least as far. */
  lemma MatchIsLongest(text: string, i: nat, l: Literal)
    requires i <= |text| && LiteralAt(text, i, l)
    ensures MatchEnd(text, i).Some? && i + |Text(l)| <= MatchEnd(text, i).value
  {
    var p := Unsigned(text, i);
    SignOf(text, i, l);
    LeadFills(text, p, l);
    var d := RunEnd(text, p);
    if l.groups == [] {
      FractionFills(text, d, l.fraction);
      PointIsNoGroup(text, d);
    } else {
      RestFits(text, d, l.groups, l.fraction);
    }
  }

  /** A place begins a match exactly when some literal stands there, and then the match is the longest one. */
  lemma MatchIsExact(text: string, i: nat)
    requires i <= |text|
    ensures MatchEnd(text, i).Some? <==> exists l :: LiteralAt(text, i, l)
    ensures MatchEnd(text, i).Some? ==>
              && LiteralAt(text, i, Read(text, i)) && |Text(Read(text, i))| == MatchEnd(text, i).value - i
              && forall l :: LiteralAt(text, i, l) ==> |Text(l)| <= |Text(Read(text, i))|
  {
    if MatchEnd(text, i).Some? {
      MatchIsLiteral(text, i);
      assert LiteralAt(text, i, Read(text, i));
    }
    forall l | LiteralAt(text, i, l)
      ensures MatchEnd(text, i).Some? && i + |Text(l)| <= MatchEnd(text, i).value
    {
      MatchIsLongest(text, i, l);
    }
  }

  // ---------------------------------------------------------------- no digit escapes

  predicate Covered(found: seq<(nat, nat)>, k: nat) {
    exists m :: m in found && m.0 <= k < m.1
  }

  lemma DigitIsMatched(text: string, i: nat, k: nat)
    requires i <= k < |text| && IsDigit(text[k]) && Starts(text, i)
    requires forall n :: i <= n < k ==> IsDigit(text[n])
    ensures MatchEnd(text, i).Some? && k < MatchEnd(text, i).value
  {
    RunReaches(text, i, k);
  }

  lemma {:induction false} RunReaches(text: string, i: nat, k: nat)
    requires i <= k < |text| && forall n :: i <= n <= k ==> IsDigit(text[n])
    ensures k < RunEnd(text, i)
    decreases k - i
  {
    if i < k {
      RunReaches(text, i + 1, k);
    }
  }

  /** No number spans this place. */
  predicate Parted(text: string, i: nat) {
    Starts(text, i) || Ends(text, i)
  }

  /** Every digit of the text is part of a match: no number of a claim escapes the comparison. */
  lemma {:induction false} EveryDigitIsMatched(text: string, i: nat, k: nat)
    requires i <= k < |text| && IsDigit(text[k]) && Parted(text, i)
    ensures Covered(Matches(text, i), k)
    decreases |text| - i
  {
    match MatchEnd(text, i)
    case None =>
      if IsDigit(text[i]) {
        DigitIsMatched(text, i, i);
        assert false;
      }
      EveryDigitIsMatched(text, i + 1, k);
    case Some(end) =>
      if k < end {
        assert (i, end) in Matches(text, i);
      } else {
        EveryDigitIsMatched(text, end, k);
        CoverGrows(Matches(text, end), (i, end), k);
      }
  }

  lemma CoverGrows(found: seq<(nat, nat)>, m: (nat, nat), k: nat)
    requires Covered(found, k)
    ensures Covered([m] + found, k)
  {
    var n :| n in found && n.0 <= k < n.1;
    assert n in [m] + found;
  }

  // ---------------------------------------------------------------- what comparing numbers compares

  /** The number of one text is spelled, as far as canonical forms tell, by a match of another. */
  predicate Spelled(l: Literal, text: string) {
    exists m :: m in Matches(text, 0) && SameNumber(l, Read(text, m.0))
  }

  lemma MatchComparesNumbers(l: Literal, text: string, n: (nat, nat))
    requires Valid(l) && n in Matches(text, 0)
    ensures Within(text, n) && (FormAt(text, n) == Canonical(Text(l)) <==> SameNumber(l, Read(text, n.0)))
  {
    MatchIsLiteral(text, n.0);
    CanonicalComparesNumbers(l, Read(text, n.0));
  }

  /** A number is among the numbers of a text exactly when that text spells the same number. */
  lemma NumberIsSpelled(l: Literal, text: string)
    requires Valid(l)
    ensures Canonical(Text(l)) in Numbers(text) <==> Spelled(l, text)
  {
    if Canonical(Text(l)) in Numbers(text) {
      var n :| n in Matches(text, 0) && Within(text, n) && FormAt(text, n) == Canonical(Text(l));
      MatchComparesNumbers(l, text, n);
    }
    if Spelled(l, text) {
      var n :| n in Matches(text, 0) && SameNumber(l, Read(text, n.0));
      MatchComparesNumbers(l, text, n);
      assert FormAt(text, n) in Numbers(text);
    }
  }

  /** What a claim is checked for: each of its matches is a number, found in exactly the texts that spell it. */
  lemma NumbersCompareLiterals(claim: string, m: (nat, nat), text: string)
    requires m in Matches(claim, 0)
    ensures Within(claim, m) && Valid(Read(claim, m.0)) && Text(Read(claim, m.0)) == claim[m.0..m.1]
    ensures FormAt(claim, m) in Numbers(claim)
    ensures FormAt(claim, m) in Numbers(text) <==> Spelled(Read(claim, m.0), text)
  {
    MatchIsLiteral(claim, m.0);
    NumberIsSpelled(Read(claim, m.0), text);
  }

  /** The numbers of a text are the forms of its matches, no more and no fewer. */
  lemma FormsAreNumbers(text: string)
    ensures forall m :: m in Matches(text, 0) ==> Within(text, m) && FormAt(text, m) in Numbers(text)
    ensures forall n :: n in Numbers(text) ==> exists m :: m in Matches(text, 0) && Within(text, m) && FormAt(text, m) == n
  {
    assert forall m :: m in Matches(text, 0) ==> Within(text, m);
  }
}
