/** Strings the way Python and SQLite treat them: compared by code point, prefix first. */
module Texts {

  predicate StrLt(a: string, b: string) {
    b != [] && (a == [] || a[0] < b[0] || (a[0] == b[0] && StrLt(a[1..], b[1..])))
  }

  predicate StrLe(a: string, b: string) {
    a == b || StrLt(a, b)
  }

  lemma {:induction false} StrLtTotal(a: string, b: string)
    ensures StrLt(a, b) || a == b || StrLt(b, a)
    ensures !(StrLt(a, b) && StrLt(b, a))
    ensures StrLt(a, b) ==> a != b
  {
    if a != [] && b != [] && a[0] == b[0] {
      StrLtTotal(a[1..], b[1..]);
      assert a == [a[0]] + a[1..] && b == [b[0]] + b[1..];
    }
  }

  lemma {:induction false} StrLtTransitive(a: string, b: string, c: string)
    requires StrLt(a, b) && StrLt(b, c)
    ensures StrLt(a, c)
  {
    if a != [] && a[0] == b[0] && b[0] == c[0] {
      StrLtTransitive(a[1..], b[1..], c[1..]);
    }
  }

  lemma StrLeTransitive(a: string, b: string, c: string)
    requires StrLe(a, b) && StrLe(b, c)
    ensures StrLe(a, c)
  {
    if a != b && b != c {
      StrLtTransitive(a, b, c);
    }
  }

  lemma StringsAreOrdered()
    ensures forall a, b :: StrLt(a, b) ==> !StrLt(b, a)
    ensures forall a, b :: StrLt(a, b) || a == b || StrLt(b, a)
    ensures forall a, b :: StrLt(a, b) ==> a != b
    ensures forall a, b, c :: StrLt(a, b) && StrLt(b, c) ==> StrLt(a, c)
  {
    forall a, b
      ensures StrLt(a, b) ==> !StrLt(b, a)
      ensures StrLt(a, b) || a == b || StrLt(b, a)
      ensures StrLt(a, b) ==> a != b
    {
      StrLtTotal(a, b);
    }
    forall a, b, c | StrLt(a, b) && StrLt(b, c) ensures StrLt(a, c) {
      StrLtTransitive(a, b, c);
    }
  }

  /** Equal-length heads decide first; the tails break a tie. */
  lemma {:induction false} StrLtConcat(a: string, b: string, a': string, b': string)
    requires |a| == |b|
    ensures StrLt(a + a', b + b') <==> StrLt(a, b) || (a == b && StrLt(a', b'))
  {
    if a == [] {
      assert a + a' == a' && b + b' == b';
    } else {
      assert (a + a')[1..] == a[1..] + a' && (b + b')[1..] == b[1..] + b';
      StrLtConcat(a[1..], b[1..], a', b');
      assert a == [a[0]] + a[1..] && b == [b[0]] + b[1..];
    }
  }

  /** `str.isspace` of one character. */
  predicate IsSpace(c: char) {
    || '\t' <= c <= '\r' || '\U{001C}' <= c <= ' ' || '\U{2000}' <= c <= '\U{200A}'
    || c in {'\U{0085}', '\U{00A0}', '\U{1680}', '\U{2028}', '\U{2029}', '\U{202F}', '\U{205F}', '\U{3000}'}
  }

  function StripLeft(s: string): string {
    if s != "" && IsSpace(s[0]) then StripLeft(s[1..]) else s
  }

  function StripRight(s: string): string {
    if s != "" && IsSpace(s[|s| - 1]) then StripRight(s[..|s| - 1]) else s
  }

  /** `str.strip`. */
  function Strip(s: string): string {
    StripRight(StripLeft(s))
  }

  /** `" ".join(parts)`. */
  function JoinWords(parts: seq<string>): string {
    if parts == [] then ""
    else if |parts| == 1 then parts[0]
    else JoinWords(parts[..|parts| - 1]) + " " + parts[|parts| - 1]
  }
}
