/** When a text counts as blank: for the services, and for the browser. */
module Texts {

  /** What `str.strip` removes. */
  predicate IsSpace(c: char) {
    || '\t' <= c <= '\r' || '\U{001C}' <= c <= ' ' || c == '\U{0085}' || c == '\U{00A0}' || c == '\U{1680}'
    || '\U{2000}' <= c <= '\U{200A}' || c == '\U{2028}' || c == '\U{2029}' || c == '\U{202F}' || c == '\U{205F}' || c == '\U{3000}'
  }

  /** What `trim` removes in the browser: the byte order mark too, but neither separators nor the next-line character. */
  predicate IsTrimmed(c: char) {
    (IsSpace(c) && !('\U{001C}' <= c <= '\U{001F}') && c != '\U{0085}') || c == '\U{FEFF}'
  }

  predicate NonBlank(s: string) {
    exists i :: 0 <= i < |s| && !IsSpace(s[i])
  }

  /** Not blank for the browser. */
  predicate Legible(s: string) {
    exists i :: 0 <= i < |s| && !IsTrimmed(s[i])
  }

  const MAX_SHORT_ID := 64

  predicate IsShortId(s: string) {
    NonBlank(s) && |s| <= MAX_SHORT_ID
  }

  /** A text with more before or behind it is no blanker. */
  lemma PartsShow(a: string, b: string)
    ensures NonBlank(a) || NonBlank(b) ==> NonBlank(a + b)
    ensures Legible(a) || Legible(b) ==> Legible(a + b)
  {
    forall i | 0 <= i < |a| ensures (a + b)[i] == a[i] {}
    forall i | 0 <= i < |b| ensures (a + b)[|a| + i] == b[i] {}
    if NonBlank(b) {
      var i :| 0 <= i < |b| && !IsSpace(b[i]);
      assert !IsSpace((a + b)[|a| + i]);
    }
    if Legible(b) {
      var i :| 0 <= i < |b| && !IsTrimmed(b[i]);
      assert !IsTrimmed((a + b)[|a| + i]);
    }
  }
}
