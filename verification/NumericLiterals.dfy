/** Canonical forms of the numeric literals that claims and excerpts are compared by. */
module NumericLiterals {
  import opened Common

  predicate IsDigit(c: char) {
    '0' <= c <= '9'
  }

  /** The spaces and apostrophes that may part groups of three digits. */
  predicate IsGap(c: char) {
    c in [' ', '\U{00A0}', '\U{202F}', '\U{2009}', '\'', '\U{2019}']
  }

  predicate IsPoint(c: char) {
    c == ',' || c == '.'
  }

  predicate AllDigits(s: string) {
    forall i :: 0 <= i < |s| ==> IsDigit(s[i])
  }

  // ---------------------------------------------------------------- canonicalisation, on text

  /** `[,.]\d+` to the end. */
  predicate IsFraction(s: string) {
    |s| >= 2 && IsPoint(s[0]) && AllDigits(s[1..])
  }

  /** `(gap\d{3})+(?:[,.]\d+)?` to the end. */
  predicate AreGroups(s: string) {
    && |s| >= 4 && IsGap(s[0]) && AllDigits(s[1..4])
    && (s[4..] == "" || IsFraction(s[4..]) || AreGroups(s[4..]))
  }

  /** Digits parted into groups of three, with at least one gap. */
  predicate IsThousands(s: string) {
    exists k :: 1 <= k <= 3 && k <= |s| && AllDigits(s[..k]) && AreGroups(s[k..])
  }

  function StripSigns(s: string): string {
    if s != "" && (s[0] == '+' || s[0] == '-') then StripSigns(s[1..]) else s
  }

  /** Drop every gap that stands between two digits. */
  function CloseGaps(afterDigit: bool, s: string): string
    decreases |s|
  {
    if s == "" then ""
    else if IsGap(s[0]) && afterDigit && |s| > 1 && IsDigit(s[1]) then CloseGaps(false, s[1..])
    else [s[0]] + CloseGaps(IsDigit(s[0]), s[1..])
  }

  function CountOf(s: string, c: char): nat {
    if s == "" then 0 else CountOf(s[1..], c) + if s[0] == c then 1 else 0
  }

  /** `str.split` by one character: always at least one part. */
  function Split(s: string, c: char): (parts: seq<string>)
    ensures |parts| >= 1
  {
    if s == "" then [""]
    else
      var rest := Split(s[1..], c);
      if s[0] == c then [""] + rest else [[s[0]] + rest[0]] + rest[1..]
  }

  function Concat(parts: seq<string>): string {
    if parts == [] then "" else parts[0] + Concat(parts[1..])
  }

  /** One kind of point only: a decimal point unless three digits follow, which could as well be thousands. */
  function SinglePoint(value: string, point: char): string {
    var parts := Split(value, point);
    if |parts| == 2 && |parts[1]| != 3 then parts[0] + "." + parts[1]
    else if |parts| > 2 && (forall i :: 1 <= i < |parts| ==> |parts[i]| == 3) then Concat(parts)
    else value
  }

  function Compact(value: string): string {
    if IsThousands(StripSigns(value)) then CloseGaps(false, value) else value
  }

  function Pointed(body: string): string {
    var commas, dots := CountOf(body, ','), CountOf(body, '.');
    if commas > 0 && dots == 0 then SinglePoint(body, ',')
    else if dots > 0 && commas == 0 then SinglePoint(body, '.')
    else body
  }

  function Signed(compact: string): string {
    if compact != "" && compact[0] == '-' then "-" + Pointed(compact[1..])
    else if compact != "" && compact[0] == '+' then Pointed(compact[1..])
    else Pointed(compact)
  }

  /** `_canonical_numeric_literal`. */
  function Canonical(value: string): string {
    Signed(Compact(value))
  }

  // ---------------------------------------------------------------- the literals the pattern matches

  datatype Sign = NoSign | Plus | Minus

  datatype Fraction = Fraction(point: char, digits: string)

  /** Plain digits, or up to three digits and groups of three, each behind a gap; then perhaps a fraction. */
  datatype Literal = Literal(sign: Sign, lead: string, groups: seq<(char, string)>, fraction: Option<Fraction>)

  predicate ValidGroups(groups: seq<(char, string)>) {
    forall i :: 0 <= i < |groups| ==> IsGap(groups[i].0) && |groups[i].1| == 3 && AllDigits(groups[i].1)
  }

  predicate ValidFraction(f: Option<Fraction>) {
    f.Some? ==> IsPoint(f.value.point) && f.value.digits != "" && AllDigits(f.value.digits)
  }

  predicate Valid(l: Literal) {
    && l.lead != "" && AllDigits(l.lead) && (l.groups != [] ==> |l.lead| <= 3)
    && ValidGroups(l.groups) && ValidFraction(l.fraction)
  }

  function SignText(s: Sign): string {
    match s case NoSign => "" case Plus => "+" case Minus => "-"
  }

  function FractionText(f: Option<Fraction>): string {
    if f.None? then "" else [f.value.point] + f.value.digits
  }

  function Rest(groups: seq<(char, string)>, f: Option<Fraction>): string {
    if groups == [] then FractionText(f) else [groups[0].0] + (groups[0].1 + Rest(groups[1..], f))
  }

  function GroupDigits(groups: seq<(char, string)>): string {
    if groups == [] then "" else groups[0].1 + GroupDigits(groups[1..])
  }

  function Body(l: Literal): string {
    l.lead + Rest(l.groups, l.fraction)
  }

  function Text(l: Literal): string {
    SignText(l.sign) + Body(l)
  }

  /** All digits before the fraction. */
  function Whole(l: Literal): string {
    l.lead + GroupDigits(l.groups)
  }

  /** A fraction of exactly three digits keeps its own point, any other gets a decimal point. */
  function PointText(f: Option<Fraction>): string {
    if f.None? then "" else if |f.value.digits| == 3 then [f.value.point] + f.value.digits else "." + f.value.digits
  }

  /** The canonical form in the literal's own terms. */
  function Normal(l: Literal): string {
    (if l.sign.Minus? then "-" else "") + (Whole(l) + PointText(l.fraction))
  }

  // ---------------------------------------------------------------- text operations on literals

  lemma {:induction false} GroupDigitsAreDigits(groups: seq<(char, string)>)
    requires ValidGroups(groups)
    ensures AllDigits(GroupDigits(groups))
  {
    if groups != [] {
      GroupDigitsAreDigits(groups[1..]);
    }
  }

  lemma GroupIsMatched(gap: char, d: string, rest: string)
    requires IsGap(gap) && |d| == 3 && AllDigits(d) && (rest == "" || IsFraction(rest) || AreGroups(rest))
    ensures AreGroups([gap] + (d + rest))
  {
    var s := [gap] + (d + rest);
    assert s[1..4] == d && s[4..] == rest;
  }

  lemma FractionIsMatched(f: Option<Fraction>)
    requires ValidFraction(f)
    ensures FractionText(f) == "" || IsFraction(FractionText(f))
  {
    if f.Some? {
      assert FractionText(f)[1..] == f.value.digits;
    }
  }

  lemma {:induction false} GroupsAreMatched(groups: seq<(char, string)>, f: Option<Fraction>)
    requires groups != [] && ValidGroups(groups) && ValidFraction(f)
    ensures AreGroups(Rest(groups, f))
  {
    if |groups| > 1 {
      GroupsAreMatched(groups[1..], f);
    } else {
      FractionIsMatched(f);
    }
    GroupIsMatched(groups[0].0, groups[0].1, Rest(groups[1..], f));
  }

  lemma {:induction false} CloseAfterDigits(afterDigit: bool, d: string, rest: string)
    requires d != "" && AllDigits(d)
    ensures CloseGaps(afterDigit, d + rest) == d + CloseGaps(true, rest)
    decreases |d|
  {
    GapsAreApart();
    assert (d + rest)[1..] == d[1..] + rest;
    if |d| == 1 {
      assert d[1..] + rest == rest && d == [d[0]];
    } else {
      CloseAfterDigits(true, d[1..], rest);
      assert d == [d[0]] + d[1..];
    }
  }

  lemma CloseGroup(gap: char, d: string, rest: string)
    requires IsGap(gap) && d != "" && AllDigits(d)
    ensures CloseGaps(true, [gap] + (d + rest)) == d + CloseGaps(true, rest)
  {
    var s := [gap] + (d + rest);
    assert s[1..] == d + rest && s[1] == d[0];
    CloseAfterDigits(false, d, rest);
  }

  lemma CloseFraction(f: Option<Fraction>)
    requires ValidFraction(f)
    ensures CloseGaps(true, FractionText(f)) == FractionText(f)
  {
    GapsAreApart();
    if f.Some? {
      CloseAfterDigits(false, f.value.digits, "");
      assert FractionText(f)[1..] == f.value.digits == f.value.digits + "";
    }
  }

  lemma {:induction false} CloseRest(groups: seq<(char, string)>, f: Option<Fraction>)
    requires ValidGroups(groups) && ValidFraction(f)
    ensures CloseGaps(true, Rest(groups, f)) == GroupDigits(groups) + FractionText(f)
  {
    if groups == [] {
      CloseFraction(f);
    } else {
      CloseRest(groups[1..], f);
      CloseGroup(groups[0].0, groups[0].1, Rest(groups[1..], f));
      Regroup(groups[0].1, GroupDigits(groups[1..]), FractionText(f));
    }
  }

  lemma Regroup(s: string, t: string, u: string)
    ensures s + (t + u) == (s + t) + u
  {
  }

  lemma GapsAreApart()
    ensures forall c: char :: IsGap(c) ==> !IsDigit(c) && !IsPoint(c) && c != '+' && c != '-'
  {
  }

  lemma NoGapNoThousands(s: string)
    requires forall i :: 0 <= i < |s| ==> !IsGap(s[i])
    ensures !IsThousands(s)
  {
    assert forall k :: 0 <= k < |s| ==> s[k..][0] == s[k];
  }

  /** Plain digits, with or without a fraction, are not grouped. */
  lemma PlainIsNotThousands(d: string, f: Option<Fraction>)
    requires AllDigits(d) && ValidFraction(f)
    ensures !IsThousands(d + FractionText(f))
  {
    GapsAreApart();
    NoGapNoThousands(d + FractionText(f));
  }

  lemma GroupedIsThousands(d: string, rest: string)
    requires 1 <= |d| <= 3 && AllDigits(d) && AreGroups(rest)
    ensures IsThousands(d + rest)
  {
    var s := d + rest;
    assert s[..|d|] == d && s[|d|..] == rest;
  }

  lemma SignsAreStripped(sign: Sign, body: string)
    requires body != "" && IsDigit(body[0])
    ensures StripSigns(SignText(sign) + body) == body
    ensures CloseGaps(false, SignText(sign) + body) == SignText(sign) + CloseGaps(false, body)
    ensures Signed(SignText(sign) + body) == (if sign.Minus? then "-" else "") + Pointed(body)
  {
    GapsAreApart();
    var s := SignText(sign) + body;
    if sign.NoSign? {
      assert s == body && "" + CloseGaps(false, body) == CloseGaps(false, body) && "" + Pointed(body) == Pointed(body);
    } else {
      assert s[1..] == body && SignText(sign) == [s[0]];
      assert "" + Pointed(body) == Pointed(body);
    }
  }

  lemma BodyStartsWithDigit(l: Literal)
    requires Valid(l)
    ensures Body(l) != "" && Body(l)[0] == l.lead[0] && IsDigit(l.lead[0])
  {
  }

  /** Gaps are closed, and nothing else changes. */
  lemma CompactText(l: Literal)
    requires Valid(l)
    ensures Compact(Text(l)) == SignText(l.sign) + (Whole(l) + FractionText(l.fraction))
  {
    BodyStartsWithDigit(l);
    SignsAreStripped(l.sign, Body(l));
    if l.groups == [] {
      PlainIsNotThousands(l.lead, l.fraction);
      assert Whole(l) == l.lead;
    } else {
      GroupsAreMatched(l.groups, l.fraction);
      GroupedIsThousands(l.lead, Rest(l.groups, l.fraction));
      CloseAfterDigits(false, l.lead, Rest(l.groups, l.fraction));
      CloseRest(l.groups, l.fraction);
      Regroup(l.lead, GroupDigits(l.groups), FractionText(l.fraction));
    }
  }

  lemma {:induction false} CountAdds(s: string, t: string, c: char)
    ensures CountOf(s + t, c) == CountOf(s, c) + CountOf(t, c)
  {
    if s == "" {
      assert s + t == t;
    } else {
      assert (s + t)[1..] == s[1..] + t;
      CountAdds(s[1..], t, c);
    }
  }

  lemma {:induction false} NoPointInDigits(d: string, c: char)
    requires AllDigits(d) && !IsDigit(c)
    ensures CountOf(d, c) == 0 && Split(d, c) == [d]
  {
    if d != "" {
      NoPointInDigits(d[1..], c);
      assert d == [d[0]] + d[1..];
    }
  }

  lemma {:induction false} SplitAtPoint(d: string, e: string, c: char)
    requires AllDigits(d) && AllDigits(e) && !IsDigit(c)
    ensures Split(d + [c] + e, c) == [d, e]
  {
    if d == "" {
      NoPointInDigits(e, c);
      assert d + [c] + e == [c] + e && ([c] + e)[1..] == e;
    } else {
      SplitAtPoint(d[1..], e, c);
      assert (d + [c] + e)[1..] == d[1..] + [c] + e && d == [d[0]] + d[1..];
    }
  }

  lemma CountInBody(d: string, f: Option<Fraction>, c: char)
    requires AllDigits(d) && ValidFraction(f) && IsPoint(c)
    ensures CountOf(d + FractionText(f), c) == if f.Some? && f.value.point == c then 1 else 0
  {
    CountAdds(d, FractionText(f), c);
    NoPointInDigits(d, c);
    if f.Some? {
      NoPointInDigits(f.value.digits, c);
      assert FractionText(f)[1..] == f.value.digits;
    }
  }

  lemma PointOfBody(d: string, f: Option<Fraction>)
    requires AllDigits(d) && ValidFraction(f) && f.Some?
    ensures SinglePoint(d + FractionText(f), f.value.point) == d + PointText(f)
  {
    SplitAtPoint(d, f.value.digits, f.value.point);
    assert d + FractionText(f) == d + [f.value.point] + f.value.digits;
    assert d + "." + f.value.digits == d + ("." + f.value.digits);
  }

  lemma PointedBody(d: string, f: Option<Fraction>)
    requires AllDigits(d) && ValidFraction(f)
    ensures Pointed(d + FractionText(f)) == d + PointText(f)
  {
    CountInBody(d, f, ',');
    CountInBody(d, f, '.');
    if f.Some? {
      PointOfBody(d, f);
    }
  }

  // ---------------------------------------------------------------- results

  lemma WholeIsDigits(l: Literal)
    requires Valid(l)
    ensures AllDigits(Whole(l)) && Whole(l) != "" && Whole(l)[0] == l.lead[0] && IsDigit(l.lead[0])
  {
    GroupDigitsAreDigits(l.groups);
  }

  /** On every literal the text transformation computes the normal form. */
  lemma CanonicalIsNormal(l: Literal)
    requires Valid(l)
    ensures Canonical(Text(l)) == Normal(l)
  {
    CompactText(l);
    WholeIsDigits(l);
    PointedBody(Whole(l), l.fraction);
    FirstOfConcat(Whole(l), FractionText(l.fraction));
    SignsAreStripped(l.sign, Whole(l) + FractionText(l.fraction));
  }

  lemma FirstOfConcat(s: string, t: string)
    requires s != ""
    ensures s + t != "" && (s + t)[0] == s[0] && (s + t)[1..] == s[1..] + t
  {
  }

  /** The literal a normal form spells. */
  function Reduced(l: Literal): Literal {
    Literal(if l.sign.Minus? then Minus else NoSign, Whole(l), [],
            if l.fraction.None? then None
            else Some(Fraction(if |l.fraction.value.digits| == 3 then l.fraction.value.point else '.', l.fraction.value.digits)))
  }

  lemma ReducedSpellsNormal(l: Literal)
    requires Valid(l)
    ensures Valid(Reduced(l)) && Text(Reduced(l)) == Normal(l) && Normal(Reduced(l)) == Normal(l)
  {
    WholeIsDigits(l);
    assert Whole(l) + "" == Whole(l);
  }

  /** A canonical form is a literal again, and its own canonical form. */
  lemma CanonicalIsIdempotent(l: Literal)
    requires Valid(l)
    ensures Valid(Reduced(l)) && Canonical(Text(l)) == Text(Reduced(l))
    ensures Canonical(Canonical(Text(l))) == Canonical(Text(l))
  {
    ReducedSpellsNormal(l);
    CanonicalIsNormal(l);
    CanonicalIsNormal(Reduced(l));
  }

  function DigitsOf(s: string): string {
    if s == "" then "" else (if IsDigit(s[0]) then [s[0]] else "") + DigitsOf(s[1..])
  }

  lemma {:induction false} DigitsAdd(s: string, t: string)
    ensures DigitsOf(s + t) == DigitsOf(s) + DigitsOf(t)
  {
    if s == "" {
      assert s + t == t;
    } else {
      FirstOfConcat(s, t);
      DigitsAdd(s[1..], t);
      Regroup(if IsDigit(s[0]) then [s[0]] else "", DigitsOf(s[1..]), DigitsOf(t));
    }
  }

  lemma {:induction false} DigitsOfDigits(d: string)
    requires AllDigits(d)
    ensures DigitsOf(d) == d
  {
    if d != "" {
      DigitsOfDigits(d[1..]);
      assert d == [d[0]] + d[1..];
    }
  }

  function FractionDigits(f: Option<Fraction>): string {
    if f.Some? then f.value.digits else ""
  }

  lemma DigitsBehind(c: char, s: string)
    ensures DigitsOf([c] + s) == (if IsDigit(c) then [c] else "") + DigitsOf(s)
  {
    assert ([c] + s)[1..] == s;
  }

  lemma {:induction false} DigitsOfRest(groups: seq<(char, string)>, f: Option<Fraction>)
    requires ValidGroups(groups) && ValidFraction(f)
    ensures DigitsOf(Rest(groups, f)) == GroupDigits(groups) + FractionDigits(f)
  {
    GapsAreApart();
    if groups == [] {
      if f.Some? {
        DigitsBehind(f.value.point, f.value.digits);
        DigitsOfDigits(f.value.digits);
      }
    } else {
      var d, rest := groups[0].1, Rest(groups[1..], f);
      DigitsOfRest(groups[1..], f);
      DigitsBehind(groups[0].0, d + rest);
      DigitsAdd(d, rest);
      DigitsOfDigits(d);
      Regroup(d, GroupDigits(groups[1..]), FractionDigits(f));
    }
  }

  lemma DigitsOfText(l: Literal)
    requires Valid(l)
    ensures DigitsOf(Text(l)) == Whole(l) + FractionDigits(l.fraction)
  {
    DigitsOfRest(l.groups, l.fraction);
    DigitsAdd(l.lead, Rest(l.groups, l.fraction));
    DigitsOfDigits(l.lead);
    Regroup(l.lead, GroupDigits(l.groups), FractionDigits(l.fraction));
    DigitsOfSign(l.sign, Body(l));
  }

  lemma DigitsOfSign(sign: Sign, body: string)
    ensures DigitsOf(SignText(sign) + body) == DigitsOf(body)
  {
    if sign.NoSign? {
      assert SignText(sign) + body == body;
    } else {
      DigitsBehind(SignText(sign)[0], body);
      assert "" + DigitsOf(body) == DigitsOf(body);
    }
  }

  lemma MinusStandsFirst(sign: Sign, body: string)
    requires body != "" && IsDigit(body[0])
    ensures SignText(sign) + body != "" && ((SignText(sign) + body)[0] == '-' <==> sign.Minus?)
  {
  }

  /** Canonicalisation keeps the sequence of digits and a minus sign, and adds none. */
  lemma CanonicalKeepsDigitsAndMinus(l: Literal)
    requires Valid(l)
    ensures DigitsOf(Canonical(Text(l))) == DigitsOf(Text(l))
    ensures Canonical(Text(l)) != "" && Text(l) != "" && (Canonical(Text(l))[0] == '-' <==> Text(l)[0] == '-')
  {
    CanonicalIsIdempotent(l);
    ReducedSpellsNormal(l);
    DigitsOfText(l);
    DigitsOfText(Reduced(l));
    assert Whole(l) + "" == Whole(l);
    BodyStartsWithDigit(l);
    BodyStartsWithDigit(Reduced(l));
    MinusStandsFirst(l.sign, Body(l));
    MinusStandsFirst(Reduced(l).sign, Body(Reduced(l)));
  }

  lemma DigitsReach(d: string, s: string, e: string, t: string)
    requires AllDigits(e) && d + s == e + t && (s != "" ==> !IsDigit(s[0]))
    ensures |e| <= |d|
  {
    assert |d| < |d + s| ==> (d + s)[|d|] == s[0];
  }

  /** Digits end where the first other character stands. */
  lemma DigitsEnd(d: string, s: string, e: string, t: string)
    requires AllDigits(d) && AllDigits(e) && d + s == e + t
    requires (s != "" ==> !IsDigit(s[0])) && (t != "" ==> !IsDigit(t[0]))
    ensures d == e && s == t
  {
    DigitsReach(d, s, e, t);
    DigitsReach(e, t, d, s);
    assert d == (d + s)[..|d|] && e == (e + t)[..|e|] && s == (d + s)[|d|..] && t == (e + t)[|e|..];
  }

  /** What a comparison by canonical form sees: the minus sign, all digits, and where they are parted. */
  predicate SameNumber(l: Literal, m: Literal) {
    && (l.sign.Minus? <==> m.sign.Minus?) && Whole(l) == Whole(m)
    && (l.fraction.None? <==> m.fraction.None?)
    && (l.fraction.Some? && m.fraction.Some? ==>
          && l.fraction.value.digits == m.fraction.value.digits
          && (|l.fraction.value.digits| == 3 ==> l.fraction.value.point == m.fraction.value.point))
  }

  /**
   Two literals have one canonical form if and only if they agree in minus sign, whole digits and fraction digits, and
   also in the point itself where exactly three digits follow it: so equal forms never join different values, and where
   the point could part thousands it is never reinterpreted.
   */
  lemma CanonicalComparesNumbers(l: Literal, m: Literal)
    requires Valid(l) && Valid(m)
    ensures Canonical(Text(l)) == Canonical(Text(m)) <==> SameNumber(l, m)
  {
    CanonicalIsNormal(l);
    CanonicalIsNormal(m);
    if Normal(l) == Normal(m) {
      NormalIsInjective(l, m);
    }
  }

  lemma SignEnds(minus: bool, b: string, minus': bool, c: string)
    requires b != "" && c != "" && IsDigit(b[0]) && IsDigit(c[0])
    requires (if minus then "-" else "") + b == (if minus' then "-" else "") + c
    ensures minus == minus' && b == c
  {
    var s, t := (if minus then "-" else "") + b, (if minus' then "-" else "") + c;
    assert minus <==> s[0] == '-';
    assert minus' <==> t[0] == '-';
    assert b == if minus then s[1..] else s;
    assert c == if minus' then t[1..] else t;
  }

  lemma PointEnds(f: Option<Fraction>, g: Option<Fraction>)
    requires ValidFraction(f) && ValidFraction(g) && PointText(f) == PointText(g)
    ensures f.Some? <==> g.Some?
    ensures f.Some? ==> f.value.digits == g.value.digits && (|f.value.digits| == 3 ==> f.value.point == g.value.point)
  {
    if f.Some? && g.Some? {
      assert PointText(f)[1..] == f.value.digits && PointText(g)[1..] == g.value.digits;
    }
  }

  lemma NormalIsInjective(l: Literal, m: Literal)
    requires Valid(l) && Valid(m) && Normal(l) == Normal(m)
    ensures SameNumber(l, m)
  {
    WholeIsDigits(l);
    WholeIsDigits(m);
    FirstOfConcat(Whole(l), PointText(l.fraction));
    FirstOfConcat(Whole(m), PointText(m.fraction));
    SignEnds(l.sign.Minus?, Whole(l) + PointText(l.fraction), m.sign.Minus?, Whole(m) + PointText(m.fraction));
    DigitsEnd(Whole(l), PointText(l.fraction), Whole(m), PointText(m.fraction));
    PointEnds(l.fraction, m.fraction);
  }
}
