/** The Python string operations the tracker relies on: `str.strip()`, `str.lower()`
    and `str.upper()` on ASCII identifiers, and the ordering of `<` and `<=` on `str`. */
module PyText {

  /** The characters `str.strip()` removes: those for which `str.isspace()` holds. */
  predicate IsPySpace(c: char) {
    c == '\t' || c == '\n' || c == '\U{B}' || c == '\U{C}' || c == '\r'
    || ('\U{1C}' <= c <= '\U{1F}') || c == ' ' || c == '\U{85}' || c == '\U{A0}'
    || c == '\U{1680}' || ('\U{2000}' <= c <= '\U{200A}') || c == '\U{2028}'
    || c == '\U{2029}' || c == '\U{202F}' || c == '\U{205F}' || c == '\U{3000}'
  }

  /** Drops the leading white space. */
  function StripStart(s: string): string {
    if s != [] && IsPySpace(s[0]) then StripStart(s[1..]) else s
  }

  /** Drops the trailing white space. */
  function StripEnd(s: string): string {
    if s != [] && IsPySpace(s[|s| - 1]) then StripEnd(s[..|s| - 1]) else s
  }

  /** `s.strip()`. */
  function Strip(s: string): string {
    StripEnd(StripStart(s))
  }

  lemma {:induction false} StripStartFacts(s: string)
    ensures var r := StripStart(s);
      |r| <= |s| && r == s[|s| - |r|..] && (r != [] ==> !IsPySpace(r[0]))
      && forall i :: 0 <= i < |s| - |r| ==> IsPySpace(s[i])
  {
    if s != [] && IsPySpace(s[0]) {
      StripStartFacts(s[1..]);
      assert s[1..][|s| - 1 - |StripStart(s[1..])|..] == s[|s| - |StripStart(s)|..];
    }
  }

  lemma {:induction false} StripEndFacts(s: string)
    ensures var r := StripEnd(s);
      |r| <= |s| && r == s[..|r|] && (r != [] ==> !IsPySpace(r[|r| - 1]))
      && forall i :: |r| <= i < |s| ==> IsPySpace(s[i])
  {
    if s != [] && IsPySpace(s[|s| - 1]) {
      var p := s[..|s| - 1];
      StripEndFacts(p);
      assert p[..|StripEnd(p)|] == s[..|StripEnd(p)|];
    }
  }

  /** `strip()` returns a piece of its argument that neither starts nor ends with white
      space, and it is empty exactly when the argument is all white space. */
  lemma StripFacts(s: string)
    ensures var r := Strip(s); var k := |s| - |StripStart(s)|;
      && 0 <= k && k + |r| <= |s| && r == s[k..k + |r|]
      && (r != [] ==> !IsPySpace(r[0]) && !IsPySpace(r[|r| - 1]))
      && (r == [] <==> forall i :: 0 <= i < |s| ==> IsPySpace(s[i]))
  {
    var t := StripStart(s);
    var r := StripEnd(t);
    StripStartFacts(s);
    StripEndFacts(t);
    var k := |s| - |t|;
    assert r == s[k..k + |r|];
    if r != [] {
      assert r[0] == t[0];
    }
    if r == [] && t != [] {
      assert false;
    }
  }

  /** `str.lower()` on one character, for the ASCII letters ICAO addresses use. */
  function LowerChar(c: char): char {
    if 'A' <= c <= 'Z' then (c as int + 32) as char else c
  }

  /** `str.upper()` on one character, for ASCII letters. */
  function UpperChar(c: char): char {
    if 'a' <= c <= 'z' then (c as int - 32) as char else c
  }

  function Lower(s: string): (r: string)
    ensures |r| == |s|
  {
    seq(|s|, i requires 0 <= i < |s| => LowerChar(s[i]))
  }

  function Upper(s: string): (r: string)
    ensures |r| == |s|
  {
    seq(|s|, i requires 0 <= i < |s| => UpperChar(s[i]))
  }

  /** Lower-casing twice is lower-casing once, so a lower-cased address compares equal to
      the lower-cased form of itself. */
  lemma LowerIdempotent(s: string)
    ensures Lower(Lower(s)) == Lower(s)
  {
    forall i | 0 <= i < |s|
      ensures Lower(Lower(s))[i] == Lower(s)[i]
    {
      assert !('A' <= Lower(s)[i] <= 'Z');
    }
  }

  /** `a < b` on Python strings: code points compared left to right, a proper prefix first. */
  predicate LexLess(a: string, b: string) {
    if a == [] then b != []
    else if b == [] then false
    else if a[0] != b[0] then a[0] < b[0]
    else LexLess(a[1..], b[1..])
  }

  /** `a <= b` on Python strings. */
  predicate LexLe(a: string, b: string) {
    a == b || LexLess(a, b)
  }

  /** `<=` on strings is a total order: any two strings compare one way or the other. */
  lemma {:induction false} LexTotal(a: string, b: string)
    ensures LexLe(a, b) || LexLe(b, a)
    ensures LexLe(a, b) && LexLe(b, a) ==> a == b
  {
    if a != [] && b != [] && a[0] == b[0] {
      LexTotal(a[1..], b[1..]);
      assert a == [a[0]] + a[1..] && b == [b[0]] + b[1..];
    }
  }

  /** `<` is strict: no string is below itself and no two strings are each below the
      other. */
  lemma {:induction false} LexLessStrict(a: string, b: string)
    ensures LexLess(a, b) ==> a != b && !LexLess(b, a)
  {
    if a != [] && b != [] && a[0] == b[0] {
      LexLessStrict(a[1..], b[1..]);
    }
  }

  /** `a <= b` is `not (b < a)`, as for any total order. */
  lemma LexLeIffNotLess(a: string, b: string)
    ensures LexLe(a, b) <==> !LexLess(b, a)
  {
    LexTotal(a, b);
    LexLessStrict(a, b);
    LexLessStrict(b, a);
  }

  /** Two strings of the same length that agree before position `j` and differ there
      compare as their characters at `j` do. */
  lemma {:induction false} LexLessAt(a: string, b: string, j: nat)
    requires |a| == |b| && j < |a| && a[..j] == b[..j] && a[j] != b[j]
    ensures LexLess(a, b) <==> a[j] < b[j]
  {
    if j > 0 {
      assert a[0] == a[..j][0];
      assert a[1..][..j - 1] == a[..j][1..];
      assert b[1..][..j - 1] == b[..j][1..];
      LexLessAt(a[1..], b[1..], j - 1);
    }
  }
}
