/** The JavaScript string operations the tracker bridge relies on:
    `String.prototype.trim`, `split` on one character, `replace` of the first
    occurrence, `parseFloat`, and the text a number takes in a template literal. */
module JsText {
  import opened Wrappers

  /** The characters `trim` and `parseFloat` skip: ECMAScript WhiteSpace and LineTerminator. */
  predicate IsJsSpace(c: char) {
    c == '\t' || c == '\n' || c == '\U{B}' || c == '\U{C}' || c == '\r' || c == ' '
    || c == '\U{A0}' || c == '\U{1680}' || ('\U{2000}' <= c <= '\U{200A}')
    || c == '\U{2028}' || c == '\U{2029}' || c == '\U{202F}' || c == '\U{205F}'
    || c == '\U{3000}' || c == '\U{FEFF}'
  }

  /** True when every character of `s` is white space (so `s.trim()` is falsy). */
  predicate AllSpace(s: string) {
    forall i :: 0 <= i < |s| ==> IsJsSpace(s[i])
  }

  /** `s.trimStart()`: drops the leading white space. */
  function TrimStart(s: string): string {
    if s != [] && IsJsSpace(s[0]) then TrimStart(s[1..]) else s
  }

  /** `s.trimEnd()`: drops the trailing white space. */
  function TrimEnd(s: string): string {
    if s != [] && IsJsSpace(s[|s| - 1]) then TrimEnd(s[..|s| - 1]) else s
  }

  /** `s.trim()`. */
  function Trim(s: string): string {
    TrimEnd(TrimStart(s))
  }

  /** `trimStart` removes the longest all-white-space prefix and nothing else. */
  lemma {:induction false} TrimStartFacts(s: string)
    ensures var r := TrimStart(s);
      && |r| <= |s| && r == s[|s| - |r|..]
      && AllSpace(s[..|s| - |r|])
      && (r != [] ==> !IsJsSpace(r[0]))
  {
    if s != [] && IsJsSpace(s[0]) {
      TrimStartFacts(s[1..]);
      var r := TrimStart(s[1..]);
      assert s[1..][|s| - 1 - |r|..] == s[|s| - |r|..];
      assert s[..|s| - |r|] == [s[0]] + s[1..][..|s| - 1 - |r|];
      AllSpaceConcat([s[0]], s[1..][..|s| - 1 - |r|]);
    }
  }

  /** `trimEnd` removes the longest all-white-space suffix and nothing else. */
  lemma {:induction false} TrimEndFacts(s: string)
    ensures var r := TrimEnd(s);
      && |r| <= |s| && r == s[..|r|]
      && AllSpace(s[|r|..])
      && (r != [] ==> !IsJsSpace(r[|r| - 1]))
  {
    if s != [] && IsJsSpace(s[|s| - 1]) {
      var p := s[..|s| - 1];
      TrimEndFacts(p);
      var r := TrimEnd(p);
      assert p[..|r|] == s[..|r|];
      assert s[|r|..] == p[|r|..] + [s[|s| - 1]];
      AllSpaceConcat(p[|r|..], [s[|s| - 1]]);
    }
  }

  /** `s.trim()` is the empty string exactly when `s` is all white space. */
  lemma TrimEmptyIffAllSpace(s: string)
    ensures Trim(s) == "" <==> AllSpace(s)
  {
    var t := TrimStart(s);
    TrimStartFacts(s);
    TrimEndFacts(t);
    var k := |s| - |t|;
    assert s == s[..k] + t;
    assert t != [] ==> t[0] == s[k];
    assert t[0..] == t;
    AllSpaceConcat(s[..k], t);
  }

  lemma AllSpaceConcat(a: string, b: string)
    ensures AllSpace(a + b) <==> AllSpace(a) && AllSpace(b)
  {
    assert forall i :: 0 <= i < |a| ==> (a + b)[i] == a[i];
    assert forall i :: 0 <= i < |b| ==> (a + b)[|a| + i] == b[i];
  }

  /** `s.trim()` is a contiguous slice of `s`: what follows the leading white space,
      cut before the trailing white space. */
  lemma TrimIsSlice(s: string)
    ensures var k := |s| - |TrimStart(s)|; 0 <= k && k + |Trim(s)| <= |s| && Trim(s) == s[k..k + |Trim(s)|]
  {
    var t := TrimStart(s);
    var r := TrimEnd(t);
    TrimStartShape(s);
    TrimEndShape(t);
    var k := |s| - |t|;
    assert s[k..][..|r|] == s[k..k + |r|];
  }

  lemma TrimStartShape(s: string)
    ensures |TrimStart(s)| <= |s| && TrimStart(s) == s[|s| - |TrimStart(s)|..]
  {
    TrimStartFacts(s);
  }

  lemma TrimEndShape(s: string)
    ensures |TrimEnd(s)| <= |s| && TrimEnd(s) == s[..|TrimEnd(s)|]
  {
    TrimEndFacts(s);
  }

  /** A non-empty `s.trim()` starts and ends with a non-space character. */
  lemma TrimEndsNonSpace(s: string)
    ensures Trim(s) != "" ==> !IsJsSpace(Trim(s)[0]) && !IsJsSpace(Trim(s)[|Trim(s)| - 1])
  {
    var t := TrimStart(s);
    var r := TrimEnd(t);
    TrimStartFacts(s);
    TrimEndFacts(t);
    if r != "" {
      assert r[0] == t[0];
    }
  }

  /** Prefixing a line with non-space text changes only its trailing white space:
      `("⚠ " + l).trim()` keeps the leading white space of `l`. */
  lemma {:induction false} TrimAfterTag(tag: string, l: string)
    requires tag != [] && !IsJsSpace(tag[0])
    requires !AllSpace(l)
    ensures Trim(tag + l) == tag + TrimEnd(l)
  {
    assert TrimStart(tag + l) == tag + l;
    TrimEndAppend(tag, l);
  }

  lemma {:induction false} TrimEndAppend(a: string, b: string)
    requires !AllSpace(b)
    ensures TrimEnd(a + b) == a + TrimEnd(b)
    decreases |b|
  {
    assert b != [];
    var ab := a + b;
    assert ab[..|ab| - 1] == a + b[..|b| - 1];
    if IsJsSpace(b[|b| - 1]) {
      assert !AllSpace(b[..|b| - 1]) by {
        if AllSpace(b[..|b| - 1]) {
          forall i | 0 <= i < |b| ensures IsJsSpace(b[i]) {
            if i < |b| - 1 { assert b[i] == b[..|b| - 1][i]; }
          }
        }
      }
      TrimEndAppend(a, b[..|b| - 1]);
    }
  }

  // ---------------------------------------------------------------------------
  // split

  /** `s.split(sep)` for a one-character separator: the pieces between separators. */
  function Split(s: string, sep: char): (parts: seq<string>)
    ensures |parts| >= 1
    ensures forall i :: 0 <= i < |parts| ==> sep !in parts[i]
  {
    if s == [] then [""]
    else
      var rest := Split(s[1..], sep);
      if s[0] == sep then [""] + rest
      else [[s[0]] + rest[0]] + rest[1..]
  }

  /** `parts.join(sep)`. */
  function Join(parts: seq<string>, sep: char): string
    requires |parts| >= 1
  {
    if |parts| == 1 then parts[0] else parts[0] + [sep] + Join(parts[1..], sep)
  }

  /** Splitting loses nothing: joining the pieces gives back the text. */
  lemma {:induction false} JoinSplit(s: string, sep: char)
    ensures Join(Split(s, sep), sep) == s
  {
    if s != [] {
      var rest := Split(s[1..], sep);
      JoinSplit(s[1..], sep);
      if s[0] == sep {
        assert ([""] + rest)[1..] == rest;
      } else if |rest| > 1 {
        var parts := [[s[0]] + rest[0]] + rest[1..];
        assert parts[1..] == rest[1..];
        assert Join(rest, sep) == rest[0] + [sep] + Join(rest[1..], sep);
        assert [s[0]] + s[1..] == s;
      } else {
        assert [s[0]] + s[1..] == s;
      }
    }
  }

  /** Pieces that hold no separator come back unchanged from a join and a split. */
  lemma {:induction false} SplitJoin(parts: seq<string>, sep: char)
    requires |parts| >= 1
    requires forall i :: 0 <= i < |parts| ==> sep !in parts[i]
    ensures Split(Join(parts, sep), sep) == parts
    decreases |parts|, |parts[0]|
  {
    if |parts| == 1 {
      SplitNoSep(parts[0], sep);
    } else if parts[0] == [] {
      SplitJoin(parts[1..], sep);
      SplitCons(sep, Join(parts[1..], sep), sep);
      assert [sep] + Join(parts[1..], sep) == Join(parts, sep);
      assert [""] + parts[1..] == parts;
    } else {
      var p0 := parts[0];
      var shorter := [p0[1..]] + parts[1..];
      assert shorter[1..] == parts[1..];
      assert sep !in p0[1..];
      SplitJoin(shorter, sep);
      JoinHead(parts, sep);
      SplitCons(p0[0], Join(shorter, sep), sep);
      assert [p0[0]] + p0[1..] == p0;
      assert [[p0[0]] + p0[1..]] + parts[1..] == parts;
    }
  }

  /** How `Split` treats the first character. */
  lemma SplitCons(c: char, rest: string, sep: char)
    ensures c == sep ==> Split([c] + rest, sep) == [""] + Split(rest, sep)
    ensures c != sep ==> Split([c] + rest, sep) == [[c] + Split(rest, sep)[0]] + Split(rest, sep)[1..]
  {
    assert ([c] + rest)[1..] == rest;
  }

  /** Joining pieces whose first is non-empty starts with that piece's first character. */
  lemma JoinHead(parts: seq<string>, sep: char)
    requires |parts| >= 1 && parts[0] != []
    ensures Join(parts, sep) == [parts[0][0]] + Join([parts[0][1..]] + parts[1..], sep)
  {
    var p0 := parts[0];
    var shorter := [p0[1..]] + parts[1..];
    assert shorter[1..] == parts[1..];
    assert [p0[0]] + p0[1..] == p0;
  }

  lemma {:induction false} SplitNoSep(s: string, sep: char)
    requires sep !in s
    ensures Split(s, sep) == [s]
  {
    if s != [] {
      assert sep !in s[1..];
      SplitNoSep(s[1..], sep);
      assert [s[0]] + s[1..] == s;
    }
  }

  // ---------------------------------------------------------------------------
  // replace

  /** True when `pat` occurs in `s` starting at index `i`. */
  predicate OccursAt(s: string, pat: string, i: int) {
    0 <= i && i + |pat| <= |s| && s[i..i + |pat|] == pat
  }

  /** The first index at which `pat` occurs in `s`, if any. */
  function FirstIndex(s: string, pat: string): Option<nat> {
    if |s| < |pat| then None
    else if s[..|pat|] == pat then Some(0)
    else
      match FirstIndex(s[1..], pat)
      case None => None
      case Some(k) => Some(k + 1)
  }

  /** `FirstIndex` finds an occurrence, and none before it; None means `pat` does not
      occur at all. */
  lemma {:induction false} FirstIndexSpec(s: string, pat: string)
    ensures var r := FirstIndex(s, pat);
      && (r.Some? ==> OccursAt(s, pat, r.value) && forall j :: 0 <= j < r.value ==> !OccursAt(s, pat, j))
      && (r.None? ==> forall j :: !OccursAt(s, pat, j))
  {
    if |s| >= |pat| && s[..|pat|] != pat {
      FirstIndexSpec(s[1..], pat);
      forall j | 0 < j && OccursAt(s, pat, j)
        ensures OccursAt(s[1..], pat, j - 1)
      {
        assert s[1..][j - 1..j - 1 + |pat|] == s[j..j + |pat|];
      }
      match FirstIndex(s[1..], pat)
      case None =>
      case Some(k) =>
        assert s[1..][k..k + |pat|] == s[k + 1..k + 1 + |pat|];
    }
  }

  /** `s.replace(pat, '')`: removes the first occurrence of `pat`, if any. */
  function RemoveFirst(s: string, pat: string): (r: string)
    ensures FirstIndex(s, pat).None? ==> r == s
    ensures FirstIndex(s, pat).Some? ==>
      var i := FirstIndex(s, pat).value; i <= |r| && s == r[..i] + pat + r[i..]
  {
    FirstIndexSpec(s, pat);
    match FirstIndex(s, pat)
    case None => s
    case Some(i) =>
      var r := s[..i] + s[i + |pat|..];
      assert r[..i] == s[..i] && r[i..] == s[i + |pat|..];
      assert s == s[..i] + s[i..i + |pat|] + s[i + |pat|..];
      r
  }

  // ---------------------------------------------------------------------------
  // parseFloat

  predicate IsDigit(c: char) {
    '0' <= c <= '9'
  }

  predicate AllDigits(s: string) {
    forall i :: 0 <= i < |s| ==> IsDigit(s[i])
  }

  function DigitValue(c: char): nat
    requires IsDigit(c)
  {
    (c as int) - ('0' as int)
  }

  function DigitChar(d: nat): char
    requires d < 10
  {
    (('0' as int) + d) as char
  }

  /** Length of the longest all-digit prefix of `s`. */
  function DigitRun(s: string): (n: nat)
    ensures n <= |s| && AllDigits(s[..n])
    ensures n < |s| ==> !IsDigit(s[n])
  {
    if s == [] || !IsDigit(s[0]) then 0
    else
      var n := 1 + DigitRun(s[1..]);
      assert forall i :: 1 <= i < n ==> s[i] == s[1..][i - 1];
      n
  }

  /** The number a string of decimal digits denotes. */
  function DigitsValue(d: string): nat
    requires AllDigits(d)
  {
    if d == [] then 0 else DigitsValue(d[..|d| - 1]) * 10 + DigitValue(d[|d| - 1])
  }

  function Pow10(n: nat): (r: nat)
    ensures r >= 1
  {
    if n == 0 then 1 else 10 * Pow10(n - 1)
  }

  /** True when `x` starts with an exponent part: `e` or `E`, an optional sign and at
      least one digit. */
  predicate HasExponent(x: string) {
    x != [] && (x[0] == 'e' || x[0] == 'E') && DigitRun(ExponentDigits(x)) > 0
  }

  /** What follows the `e` and its optional sign. */
  function ExponentDigits(x: string): string
    requires x != []
  {
    var y := x[1..];
    if y != [] && (y[0] == '+' || y[0] == '-') then y[1..] else y
  }

  /** `m` scaled by the exponent part at the start of `x`, if there is one. */
  function Scaled(m: real, x: string): real {
    if HasExponent(x) then
      var z := ExponentDigits(x);
      var p := Pow10(DigitsValue(z[..DigitRun(z)])) as real;
      if x[1] == '-' then m / p else m * p
    else m
  }

  /** The value of the digits `d` written after a decimal point. */
  function FractionValue(d: string): real
    requires AllDigits(d)
  {
    if d == [] then 0.0 else DigitsValue(d) as real / Pow10(|d|) as real
  }

  /** The longest prefix of `u` that reads as an unsigned decimal literal
      (`digits [. digits] [exponent]` or `. digits [exponent]`); None stands for NaN. */
  function ParseUnsigned(u: string): Option<real> {
    var a := DigitRun(u);
    var hasDot := a < |u| && u[a] == '.';
    var frac := if hasDot then u[a + 1..] else "";
    var b := DigitRun(frac);
    if a == 0 && b == 0 then None
    else
      var m := if hasDot then a + 1 + b else a;
      var mantissa := DigitsValue(u[..a]) as real + FractionValue(frac[..b]);
      Some(Scaled(mantissa, u[m..]))
  }

  /** `parseFloat(s)`: skips leading white space, reads an optional sign and the longest
      decimal literal after it, and ignores the rest. None stands for NaN. */
  function ParseFloat(s: string): Option<real> {
    var t := TrimStart(s);
    if t != [] && (t[0] == '+' || t[0] == '-') then
      match ParseUnsigned(t[1..])
      case None => None
      case Some(v) => Some(if t[0] == '-' then -v else v)
    else ParseUnsigned(t)
  }

  // ---------------------------------------------------------------------------
  // numbers as text

  /** The decimal digits of a natural number, without leading zeros. */
  function NatText(n: nat): (r: string)
    ensures r != [] && AllDigits(r)
  {
    if n < 10 then [DigitChar(n)] else NatText(n / 10) + [DigitChar(n % 10)]
  }

  /** An integer as JavaScript and Python write it. */
  function IntText(i: int): string {
    if i < 0 then "-" + NatText(-i) else NatText(i)
  }

  /** Digits after the decimal point of a fraction in [0, 1), at most `fuel` of them. */
  function FractionDigits(f: real, fuel: nat): (r: string)
    requires 0.0 <= f < 1.0
    ensures AllDigits(r)
    decreases fuel
  {
    if fuel == 0 || f == 0.0 then ""
    else
      var t := f * 10.0;
      var d := t.Floor;
      [DigitChar(d)] + FractionDigits(t - d as real, fuel - 1)
  }

  /** A number interpolated into a template literal: integral values without a
      decimal point, others with up to 20 fraction digits. */
  function NumberText(x: real): string {
    if x == x.Floor as real then IntText(x.Floor)
    else
      var m := if x < 0.0 then -x else x;
      (if x < 0.0 then "-" else "") + NatText(m.Floor) + "." + FractionDigits(m - m.Floor as real, 20)
  }

  /** Reading back the digits of a natural number gives the number. */
  lemma {:induction false} NatTextValue(n: nat)
    ensures DigitsValue(NatText(n)) == n
  {
    if n >= 10 {
      NatTextValue(n / 10);
      var t := NatText(n);
      assert t[..|t| - 1] == NatText(n / 10);
    }
  }

  /** `parseFloat` reads back the text of a natural number, whatever non-numeric
      text follows it. */
  lemma ParseNatText(n: nat, rest: string)
    requires rest == [] || !(IsDigit(rest[0]) || rest[0] == '.' || rest[0] == 'e' || rest[0] == 'E')
    ensures ParseFloat(NatText(n) + rest) == Some(n as real)
  {
    var d := NatText(n);
    var u := d + rest;
    assert u[0] == d[0] && IsDigit(u[0]);
    assert TrimStart(u) == u;
    NatTextValue(n);
    ParseDigits(d, rest);
  }

  lemma ParseDigits(d: string, rest: string)
    requires d != [] && AllDigits(d)
    requires rest == [] || !(IsDigit(rest[0]) || rest[0] == '.' || rest[0] == 'e' || rest[0] == 'E')
    ensures ParseUnsigned(d + rest) == Some(DigitsValue(d) as real)
  {
    var u := d + rest;
    DigitRunOf(d, rest);
    assert u[..|d|] == d && u[|d|..] == rest;
    assert !(|d| < |u| && u[|d|] == '.') by {
      if |d| < |u| { assert u[|d|] == rest[0]; }
    }
    assert !HasExponent(rest);
    ParseInteger(u);
  }

  /** A literal of integer digits with neither a point nor an exponent after them reads
      as the number those digits denote. */
  lemma ParseInteger(u: string)
    requires DigitRun(u) > 0
    requires !(DigitRun(u) < |u| && u[DigitRun(u)] == '.')
    requires !HasExponent(u[DigitRun(u)..])
    ensures ParseUnsigned(u) == Some(DigitsValue(u[..DigitRun(u)]) as real)
  {
    var frac: string := "";
    assert DigitRun(frac) == 0 && frac[..0] == "";
  }

  lemma {:induction false} DigitRunOf(d: string, rest: string)
    requires AllDigits(d)
    requires rest == [] || !IsDigit(rest[0])
    ensures DigitRun(d + rest) == |d|
  {
    if d != [] {
      assert (d + rest)[1..] == d[1..] + rest;
      DigitRunOf(d[1..], rest);
    }
  }

  /** An alert tag written `<n>nm` reads as the number n once its `nm` is removed,
      as `parseFloat(tag.replace('nm', ''))` does. */
  lemma AlertTagValue(n: nat)
    ensures ParseFloat(RemoveFirst(NatText(n) + "nm", "nm")) == Some(n as real)
  {
    var d := NatText(n);
    UnitAfterDigits(d);
    var s := d + "nm";
    assert RemoveFirst(s, "nm") == d + "" by {
      assert s[..|d|] == d && s[|d| + 2..] == "";
    }
    ParseNatText(n, "");
  }

  /** In digits followed by `nm`, the first `nm` is the one after the digits. */
  lemma UnitAfterDigits(d: string)
    requires AllDigits(d)
    ensures FirstIndex(d + "nm", "nm") == Some(|d|)
  {
    var s := d + "nm";
    assert s[|d|..|d| + 2] == "nm";
    assert OccursAt(s, "nm", |d|);
    forall j | 0 <= j < |d| ensures !OccursAt(s, "nm", j) {
      assert s[j] == d[j] && IsDigit(d[j]);
      assert j + 2 <= |s| ==> s[j..j + 2][0] == s[j];
    }
    FirstIndexSpec(s, "nm");
    match FirstIndex(s, "nm")
    case None =>
    case Some(k) =>
      assert !(k < |d|);
      assert !(k > |d|);
  }
}
