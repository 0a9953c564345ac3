/** Opaque position cursors: base64url of a JSON list, without padding, bound to the scope they were issued for. */
module Cursors {
  import opened Common

  type Byte = n: nat | n < 256

  // ---------------------------------------------------------------- base64, RFC 4648

  /** The symbols of the 64 values, and the values of the symbols. */
  datatype Alphabet = Alphabet(symbol: nat -> char, value: char -> Option<nat>)

  ghost predicate Proper(a: Alphabet) {
    && (forall n :: 0 <= n < 64 ==> a.value(a.symbol(n)) == Some(n) && a.symbol(n) != '=')
    && a.value('=') == None
  }

  /** The first, second, third and fourth six bits of three bytes. */
  function Bits1(x: Byte): nat { x / 4 }
  function Bits2(x: Byte, y: Byte): nat { x % 4 * 16 + y / 16 }
  function Bits3(y: Byte, z: Byte): nat { y % 16 * 4 + z / 64 }
  function Bits4(z: Byte): nat { z % 64 }

  /** Groups of three bytes become four symbols; one or two bytes left over become two or three, padded to four. */
  function Encode(a: Alphabet, b: seq<Byte>): string
    decreases |b|
  {
    if b == [] then ""
    else if |b| == 1 then Pair(a, b[0]) + "=="
    else if |b| == 2 then Triple(a, b[0], b[1]) + "="
    else Quad(a, b[0], b[1], b[2]) + Encode(a, b[3..])
  }

  function Pair(a: Alphabet, x: Byte): string {
    [a.symbol(Bits1(x)), a.symbol(Bits2(x, 0))]
  }

  function Triple(a: Alphabet, x: Byte, y: Byte): string {
    [a.symbol(Bits1(x)), a.symbol(Bits2(x, y)), a.symbol(Bits3(y, 0))]
  }

  function Quad(a: Alphabet, x: Byte, y: Byte, z: Byte): string {
    [a.symbol(Bits1(x)), a.symbol(Bits2(x, y)), a.symbol(Bits3(y, z)), a.symbol(Bits4(z))]
  }

  function Byte1(m: nat, n: nat): nat { m * 4 + n / 16 }
  function Byte2(m: nat, n: nat): nat { m % 16 * 16 + n / 4 }
  function Byte3(m: nat, n: nat): nat { m % 4 * 64 + n }

  lemma BitsAreSmall(x: Byte, y: Byte, z: Byte)
    ensures Bits1(x) < 64 && Bits2(x, y) < 64 && Bits3(y, z) < 64 && Bits4(z) < 64
  {
  }

  lemma Byte1OfBits(x: Byte, y: Byte)
    ensures Byte1(Bits1(x), Bits2(x, y)) == x
  {
    assert (x % 4 * 16 + y / 16) / 16 == x % 4;
  }

  lemma Byte2OfBits(x: Byte, y: Byte, z: Byte)
    ensures Byte2(Bits2(x, y), Bits3(y, z)) == y
  {
    assert (x % 4 * 16 + y / 16) % 16 == y / 16;
    assert (y % 16 * 4 + z / 64) / 4 == y % 16;
  }

  lemma Byte3OfBits(y: Byte, z: Byte)
    ensures Byte3(Bits3(y, z), Bits4(z)) == z
  {
    assert (y % 16 * 4 + z / 64) % 4 == z / 64;
  }

  predicate IsValue(v: Option<nat>) {
    v.Some? && v.value < 64
  }

  /** A quad of symbols, the last two of which may be padding. */
  function DecodeQuad(a: Alphabet, p: char, q: char, r: char, s: char): Option<seq<nat>> {
    var k, l, m, n := a.value(p), a.value(q), a.value(r), a.value(s);
    if !IsValue(k) || !IsValue(l) then None
    else if r == '=' && s == '=' then Some([Byte1(k.value, l.value)])
    else if !IsValue(m) then None
    else if s == '=' then Some([Byte1(k.value, l.value), Byte2(l.value, m.value)])
    else if !IsValue(n) then None
    else Some([Byte1(k.value, l.value), Byte2(l.value, m.value), Byte3(m.value, n.value)])
  }

  /** Strict decoding: whole quads, and padding in the last one only. */
  function Decode(a: Alphabet, t: string): Option<seq<nat>>
    decreases |t|
  {
    if t == "" then Some([])
    else if |t| < 4 then None
    else
      var head := DecodeQuad(a, t[0], t[1], t[2], t[3]);
      if head.None? || (|t| > 4 && |head.value| < 3) then None
      else
        var tail := Decode(a, t[4..]);
        if tail.None? then None else Some(head.value + tail.value)
  }

  lemma QuadDecodes(a: Alphabet, x: Byte, y: Byte, z: Byte)
    requires Proper(a)
    ensures DecodeQuad(a, a.symbol(Bits1(x)), a.symbol(Bits2(x, y)), a.symbol(Bits3(y, z)), a.symbol(Bits4(z))) == Some([x, y, z])
    ensures DecodeQuad(a, a.symbol(Bits1(x)), a.symbol(Bits2(x, y)), a.symbol(Bits3(y, z)), '=') == Some([x, y])
    ensures DecodeQuad(a, a.symbol(Bits1(x)), a.symbol(Bits2(x, y)), '=', '=') == Some([x])
  {
    BitsAreSmall(x, y, z);
    Byte1OfBits(x, y);
    Byte2OfBits(x, y, z);
    Byte3OfBits(y, z);
  }

  lemma DecodeLast(a: Alphabet, t: string, b: seq<nat>)
    requires |t| == 4 && DecodeQuad(a, t[0], t[1], t[2], t[3]) == Some(b)
    ensures Decode(a, t) == Some(b)
  {
    assert t[4..] == "" && b + [] == b;
  }

  lemma DecodeOne(a: Alphabet, x: Byte)
    requires Proper(a)
    ensures Decode(a, Pair(a, x) + "==") == Some([x])
  {
    QuadDecodes(a, x, 0, 0);
    DecodeLast(a, Pair(a, x) + "==", [x]);
  }

  lemma DecodeTwo(a: Alphabet, x: Byte, y: Byte)
    requires Proper(a)
    ensures Decode(a, Triple(a, x, y) + "=") == Some([x, y])
  {
    QuadDecodes(a, x, y, 0);
    DecodeLast(a, Triple(a, x, y) + "=", [x, y]);
  }

  lemma DecodeThree(a: Alphabet, x: Byte, y: Byte, z: Byte, rest: string, b: seq<nat>)
    requires Proper(a) && Decode(a, rest) == Some(b)
    ensures Decode(a, Quad(a, x, y, z) + rest) == Some([x, y, z] + b)
  {
    var t := Quad(a, x, y, z) + rest;
    QuadDecodes(a, x, y, z);
    assert t[4..] == rest;
  }

  lemma {:induction false} DecodeInvertsEncode(a: Alphabet, b: seq<Byte>)
    requires Proper(a)
    ensures Decode(a, Encode(a, b)) == Some(b)
    decreases |b|
  {
    if |b| == 1 {
      DecodeOne(a, b[0]);
      assert b == [b[0]];
    } else if |b| == 2 {
      DecodeTwo(a, b[0], b[1]);
      assert b == [b[0], b[1]];
    } else if |b| > 2 {
      DecodeInvertsEncode(a, b[3..]);
      DecodeThree(a, b[0], b[1], b[2], Encode(a, b[3..]), b[3..]);
      assert b == [b[0], b[1], b[2]] + b[3..];
    }
  }

  // ---------------------------------------------------------------- padding

  /** `rstrip("=")`. */
  function Strip(t: string): string {
    if t != "" && t[|t| - 1] == '=' then Strip(t[..|t| - 1]) else t
  }

  function Padding(n: nat): string {
    if n == 0 then "" else Padding(n - 1) + "="
  }

  /** Append `-len % 4` padding characters. */
  function Restore(t: string): string {
    t + Padding((-|t|) % 4)
  }

  lemma {:induction false} StripPadding(q: string, n: nat)
    requires q != "" && q[|q| - 1] != '='
    ensures Strip(q + Padding(n)) == q
  {
    if n == 0 {
      assert q + Padding(0) == q;
    } else {
      assert (q + Padding(n))[..|q + Padding(n)| - 1] == q + Padding(n - 1);
      StripPadding(q, n - 1);
    }
  }

  /** The symbols of an encoding, without its padding. */
  function Symbols(a: Alphabet, b: seq<Byte>): string
    decreases |b|
  {
    if b == [] then ""
    else if |b| == 1 then Pair(a, b[0])
    else if |b| == 2 then Triple(a, b[0], b[1])
    else Quad(a, b[0], b[1], b[2]) + Symbols(a, b[3..])
  }

  /** How many padding characters complete the last quad of `n` bytes, and how many symbols there are before them. */
  function Missing(n: nat): nat {
    if n == 0 then 0 else if n == 1 then 2 else if n == 2 then 1 else Missing(n - 3)
  }

  function Count(n: nat): nat {
    if n == 0 then 0 else if n == 1 then 2 else if n == 2 then 3 else 4 + Count(n - 3)
  }

  lemma ShortIsPaddedSymbols(a: Alphabet, b: seq<Byte>)
    requires |b| <= 2
    ensures Encode(a, b) == Symbols(a, b) + Padding(Missing(|b|))
    ensures |Symbols(a, b)| == Count(|b|)
  {
    hide Quad;
    assert Padding(1) == Padding(0) + "=" == "=";
    assert Padding(2) == Padding(1) + "=" == "==";
  }

  lemma QuadFirst(a: Alphabet, b: seq<Byte>)
    requires |b| > 2
    ensures Encode(a, b) == Quad(a, b[0], b[1], b[2]) + Encode(a, b[3..])
    ensures Symbols(a, b) == Quad(a, b[0], b[1], b[2]) + Symbols(a, b[3..])
    ensures Missing(|b|) == Missing(|b[3..]|) && Count(|b|) == 4 + Count(|b[3..]|)
  {
    hide Pair, Triple, Quad;
  }

  lemma {:induction false} EncodeIsPaddedSymbols(a: Alphabet, b: seq<Byte>)
    ensures Encode(a, b) == Symbols(a, b) + Padding(Missing(|b|))
    ensures |Symbols(a, b)| == Count(|b|)
    decreases |b|
  {
    if |b| <= 2 {
      ShortIsPaddedSymbols(a, b);
    } else {
      EncodeIsPaddedSymbols(a, b[3..]);
      QuadFirst(a, b);
      hide Encode, Symbols, Missing, Count, Padding;
    }
  }

  lemma OneQuadMore(n: nat)
    requires n > 2
    ensures Missing(n) == Missing(n - 3) && Count(n) == 4 + Count(n - 3)
    ensures (Count(n) + Missing(n)) % 4 == (Count(n - 3) + Missing(n - 3)) % 4
  {
    var k := Count(n - 3) + Missing(n - 3);
    assert Count(n) + Missing(n) == k + 4;
  }

  lemma {:induction false} CountOfBytes(n: nat)
    ensures 4 * n <= 3 * Count(n) <= 4 * n + 2
    ensures Missing(n) <= 2 && (Count(n) + Missing(n)) % 4 == 0
  {
    if n > 2 {
      CountOfBytes(n - 3);
      OneQuadMore(n);
      hide Count, Missing;
    }
  }

  lemma CompleteQuad(n: int, m: int)
    requires 0 <= m < 4 && (n + m) % 4 == 0
    ensures (-n) % 4 == m
  {
    var k := (n + m) / 4;
    assert -n == 4 * (-k) + m;
  }

  lemma {:induction false} SymbolsHaveValues(a: Alphabet, b: seq<Byte>, i: nat)
    requires Proper(a) && i < |Symbols(a, b)|
    ensures IsValue(a.value(Symbols(a, b)[i])) && Symbols(a, b)[i] != '='
    decreases |b|
  {
    if |b| == 1 {
      BitsAreSmall(b[0], 0, 0);
    } else if |b| == 2 {
      BitsAreSmall(b[0], b[1], 0);
    } else {
      BitsAreSmall(b[0], b[1], b[2]);
      if i >= 4 {
        SymbolsHaveValues(a, b[3..], i - 4);
      }
    }
  }

  /** Stripping the padding and restoring it from the length alone loses nothing. */
  lemma RestoreInvertsStrip(a: Alphabet, b: seq<Byte>)
    requires Proper(a)
    ensures Strip(Encode(a, b)) == Symbols(a, b) && Restore(Symbols(a, b)) == Encode(a, b)
  {
    EncodeIsPaddedSymbols(a, b);
    CountOfBytes(|b|);
    CompleteQuad(Count(|b|), Missing(|b|));
    if b == [] {
      assert Encode(a, b) == "";
    } else {
      hide Encode, Symbols, Missing, Count;
      SymbolsHaveValues(a, b, |Symbols(a, b)| - 1);
      StripPadding(Symbols(a, b), Missing(|b|));
    }
  }

  // ---------------------------------------------------------------- the URL-safe alphabet, RFC 4648 section 5

  function Symbol(n: nat): char {
    if n < 26 then ('A' as int + n) as char
    else if n < 52 then ('a' as int + (n - 26)) as char
    else if n < 62 then ('0' as int + (n - 52)) as char
    else if n == 62 then '-'
    else '_'
  }

  function ValueOf(c: char): Option<nat> {
    if 'A' <= c <= 'Z' then Some(c as int - 'A' as int)
    else if 'a' <= c <= 'z' then Some(c as int - 'a' as int + 26)
    else if '0' <= c <= '9' then Some(c as int - '0' as int + 52)
    else if c == '-' then Some(62)
    else if c == '_' then Some(63)
    else None
  }

  const URL_SAFE := Alphabet((n: nat) => Symbol(n), (c: char) => ValueOf(c))

  lemma UrlSafeIsProper()
    ensures Proper(URL_SAFE)
  {
    forall n | 0 <= n < 64 ensures URL_SAFE.value(URL_SAFE.symbol(n)) == Some(n) && URL_SAFE.symbol(n) != '=' {
      assert ValueOf(Symbol(n)) == Some(n);
    }
  }

  // ---------------------------------------------------------------- positions

  /** The values a cursor's JSON text may hold. */
  datatype Json = Number(number: int) | Text(text: string) | Null | Items(items: seq<Json>) | Other

  /** JSON writing and reading, and the text form of identifiers. */
  datatype Codec<!Id> = Codec(dump: Json -> seq<Byte>, load: seq<nat> -> Option<Json>, show: Id -> string, parse: string -> Option<Id>)

  const MAX_ORDINAL := 2_147_483_647
  const MAX_CURSOR := 500

  function PositionJson<Id>(codec: Codec<Id>, scope: string, ordinal: int, identity: Option<Id>): Json {
    Items([Number(1), Text(scope), Number(ordinal), if identity.Some? then Text(codec.show(identity.value)) else Null])
  }

  function EncodePosition<Id>(codec: Codec<Id>, scope: string, ordinal: int, identity: Option<Id>): string {
    Strip(Encode(URL_SAFE, codec.dump(PositionJson(codec, scope, ordinal, identity))))
  }

  /** What `[A-Za-z0-9_-]+` matches. */
  predicate IsBase64Url(t: string) {
    t != "" && forall i :: 0 <= i < |t| ==> IsValue(URL_SAFE.value(t[i]))
  }

  /** `decode_position`: any failure is the same rejection of the cursor. */
  function DecodePosition<Id>(codec: Codec<Id>, value: string, scope: string, withIdentity: bool): Option<(int, Option<Id>)> {
    if |value| > MAX_CURSOR || !IsBase64Url(value) then None
    else
      var bytes := Decode(URL_SAFE, Restore(value));
      if bytes.None? then None
      else
        var data := codec.load(bytes.value);
        if data.None? || !data.value.Items? || |data.value.items| != 4 then None
        else DecodeItems(codec, data.value.items, scope, withIdentity)
  }

  function DecodeItems<Id>(codec: Codec<Id>, d: seq<Json>, scope: string, withIdentity: bool): Option<(int, Option<Id>)>
    requires |d| == 4
  {
    match (d[0], d[1], d[2], d[3])
    case (Number(version), Text(issued), Number(ordinal), identity) =>
      if version != 1 || issued != scope || !(0 <= ordinal <= MAX_ORDINAL) then None
      else if withIdentity then
        if !identity.Text? || codec.parse(identity.text).None? then None
        else Some((ordinal, Some(codec.parse(identity.text).value)))
      else if identity.Null? then Some((ordinal, None))
      else None
    case _ => None
  }

  /** Reading inverts writing, for this position. */
  predicate Faithful<Id(==)>(codec: Codec<Id>, scope: string, ordinal: int, identity: Option<Id>) {
    var v := PositionJson(codec, scope, ordinal, identity);
    && codec.load(codec.dump(v)) == Some(v)
    && (identity.Some? ==> codec.parse(codec.show(identity.value)) == identity)
  }

  /**
   A cursor is read back if and only if it is presented under the scope it was issued for, with an ordinal in range and
   an identity exactly when one is expected; then it yields the same ordinal and identity.  The scope is a digest and the
   identity an identifier, so the text stays far below the admitted length.
   */
  lemma CursorRoundTrip<Id>(codec: Codec<Id>, scope: string, ordinal: int, identity: Option<Id>,
                                  presented: string, withIdentity: bool)
    requires Faithful(codec, scope, ordinal, identity)
    requires 1 <= |codec.dump(PositionJson(codec, scope, ordinal, identity))| <= 375
    ensures DecodePosition(codec, EncodePosition(codec, scope, ordinal, identity), presented, withIdentity) ==
              if presented == scope && 0 <= ordinal <= MAX_ORDINAL && withIdentity == identity.Some?
              then Some((ordinal, identity)) else None
  {
    var v := PositionJson(codec, scope, ordinal, identity);
    var b := codec.dump(v);
    UrlSafeIsProper();
    RestoreInvertsStrip(URL_SAFE, b);
    EncodeIsPaddedSymbols(URL_SAFE, b);
    CountOfBytes(|b|);
    DecodeInvertsEncode(URL_SAFE, b);
    forall i | 0 <= i < |Symbols(URL_SAFE, b)| ensures IsValue(URL_SAFE.value(Symbols(URL_SAFE, b)[i])) {
      SymbolsHaveValues(URL_SAFE, b, i);
    }
  }
}
