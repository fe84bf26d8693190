/**
 Text as the programs see it: a sequence of characters, cut into lines at LF
 and trimmed of white space at both ends.

 The two languages of the repository differ in what they trim: Go's strings.TrimSpace
 removes Unicode white space, JavaScript's trim() removes the byte-order mark as well
 but not the next-line character.

 Lines are cut at LF only; a CR before it belongs to the line and is removed by trimming.
 */
module Text {

  /** White space of Go's unicode.IsSpace, which strings.TrimSpace removes. */
  predicate IsGoSpace(c: char) {
    || c == '\t' || c == '\n' || c == '\U{0B}' || c == '\U{0C}' || c == '\r' || c == ' '
    || c == '\U{85}' || c == '\U{A0}' || c == '\U{1680}' || '\U{2000}' <= c <= '\U{200A}'
    || c == '\U{2028}' || c == '\U{2029}' || c == '\U{202F}' || c == '\U{205F}' || c == '\U{3000}'
  }

  /** White space of JavaScript's String.prototype.trim. */
  predicate IsJsSpace(c: char) {
    c == '\U{FEFF}' || (IsGoSpace(c) && c != '\U{85}')
  }

  datatype Language = Go | Js

  predicate IsSpace(c: char, lang: Language) {
    if lang == Go then IsGoSpace(c) else IsJsSpace(c)
  }

  function TrimLeft(s: string, lang: Language): string {
    if s != "" && IsSpace(s[0], lang) then TrimLeft(s[1..], lang) else s
  }

  function TrimRight(s: string, lang: Language): string {
    if s != "" && IsSpace(s[|s| - 1], lang) then TrimRight(s[..|s| - 1], lang) else s
  }

  /** White space removed at both ends: strings.TrimSpace, or trim(). */
  function Trim(s: string, lang: Language): string {
    TrimRight(TrimLeft(s, lang), lang)
  }

  /** Trimming leaves alone a text whose two ends are not white space. */
  lemma TrimIdentity(s: string, lang: Language)
    requires s == "" || (!IsSpace(s[0], lang) && !IsSpace(s[|s| - 1], lang))
    ensures Trim(s, lang) == s
  {
    assert TrimLeft(s, lang) == s;
  }

  predicate Blank(s: string, lang: Language) { forall k :: 0 <= k < |s| ==> IsSpace(s[k], lang) }

  /** Neither end is white space. */
  predicate TightIn(s: string, lang: Language) { s == "" || (!IsSpace(s[0], lang) && !IsSpace(s[|s| - 1], lang)) }

  lemma {:induction false} TrimLeftBlank(a: string, s: string, lang: Language)
    requires Blank(a, lang)
    ensures TrimLeft(a + s, lang) == TrimLeft(s, lang)
  {
    if a == "" {
      assert a + s == s;
    } else {
      assert (a + s)[1..] == a[1..] + s;
      TrimLeftBlank(a[1..], s, lang);
    }
  }

  lemma {:induction false} TrimRightBlank(s: string, b: string, lang: Language)
    requires Blank(b, lang)
    ensures TrimRight(s + b, lang) == TrimRight(s, lang)
    decreases |b|
  {
    if b == "" {
      assert s + b == s;
    } else {
      assert (s + b)[..|s + b| - 1] == s + b[..|b| - 1];
      TrimRightBlank(s, b[..|b| - 1], lang);
    }
  }

  /** Trimming takes off exactly the white space around a text. */
  lemma TrimPadded(a: string, s: string, b: string, lang: Language)
    requires Blank(a, lang) && Blank(b, lang) && TightIn(s, lang)
    ensures Trim(a + s + b, lang) == s
  {
    assert a + s + b == a + (s + b);
    TrimLeftBlank(a, s + b, lang);
    if s == "" {
      assert s + b == b + "";
      TrimLeftBlank(b, "", lang);
    } else {
      assert TrimLeft(s + b, lang) == s + b;
      TrimRightBlank(s, b, lang);
    }
  }

  /** The first position of c in s, or |s| when there is none. */
  function IndexOf(s: string, c: char): (i: nat)
    ensures i <= |s|
    ensures i < |s| ==> s[i] == c
  {
    if s == "" || s[0] == c then 0 else 1 + IndexOf(s[1..], c)
  }

  lemma {:induction false} IndexOfIsFirst(s: string, c: char)
    ensures c !in s[..IndexOf(s, c)]
    ensures c in s <==> IndexOf(s, c) < |s|
  {
    if s != "" && s[0] != c {
      IndexOfIsFirst(s[1..], c);
      assert s == [s[0]] + s[1..];
      assert s[..IndexOf(s, c)] == [s[0]] + s[1..][..IndexOf(s[1..], c)];
    }
  }

  lemma {:induction false} IndexOfAppend(a: string, c: char, b: string)
    requires c !in a
    ensures IndexOf(a + [c] + b, c) == |a|
  {
    if a != "" {
      assert (a + [c] + b)[1..] == a[1..] + [c] + b;
      IndexOfAppend(a[1..], c, b);
    }
  }

  /** strings.Split(s, "\n"): always at least one line, none holding LF. */
  function Split(s: string): (lines: seq<string>)
    ensures |lines| >= 1
    decreases |s|
  {
    var i := IndexOf(s, '\n');
    if i == |s| then [s] else [s[..i]] + Split(s[i + 1..])
  }

  /** strings.Join(lines, "\n") */
  function Join(lines: seq<string>): string {
    if lines == [] then ""
    else if |lines| == 1 then lines[0]
    else lines[0] + "\n" + Join(lines[1..])
  }

  lemma {:induction false} SplitHasNoNewline(s: string)
    ensures forall l :: l in Split(s) ==> '\n' !in l
    decreases |s|
  {
    var i := IndexOf(s, '\n');
    IndexOfIsFirst(s, '\n');
    if i < |s| { SplitHasNoNewline(s[i + 1..]); }
  }

  lemma SplitFirst(a: string, b: string)
    requires '\n' !in a
    ensures Split(a + "\n" + b) == [a] + Split(b)
  {
    var s := a + ['\n'] + b;
    IndexOfAppend(a, '\n', b);
    assert s[..|a|] == a && s[|a| + 1..] == b;
  }

  lemma SplitWhole(a: string)
    requires '\n' !in a
    ensures Split(a) == [a]
  {
    IndexOfIsFirst(a, '\n');
  }

  /** A text holding an LF, cut at its first one. */
  lemma CutAtFirst(s: string) returns (a: string, b: string)
    requires '\n' in s
    ensures '\n' !in a && s == a + "\n" + b && |b| < |s|
    ensures a == s[..IndexOf(s, '\n')] && b == s[IndexOf(s, '\n') + 1..]
  {
    IndexOfIsFirst(s, '\n');
    a, b := s[..IndexOf(s, '\n')], s[IndexOf(s, '\n') + 1..];
  }

  /** Splitting at an LF that is known to be there. */
  lemma {:induction false} SplitAppend(a: string, b: string)
    ensures Split(a + "\n" + b) == Split(a) + Split(b)
    decreases |a|
  {
    if '\n' in a {
      var a0, a1 := CutAtFirst(a);
      SplitAppend(a1, b);
      assert a + "\n" + b == a0 + "\n" + (a1 + "\n" + b);
      SplitFirst(a0, a1 + "\n" + b);
      SplitFirst(a0, a1);
    } else {
      SplitFirst(a, b);
      SplitWhole(a);
    }
  }

  lemma {:induction false} JoinSplit(s: string)
    ensures Join(Split(s)) == s
    decreases |s|
  {
    if '\n' in s {
      var a, b := CutAtFirst(s);
      JoinSplit(b);
      SplitFirst(a, b);
      assert ([a] + Split(b))[1..] == Split(b);
    } else {
      SplitWhole(s);
    }
  }

  lemma {:induction false} JoinAppend(a: seq<string>, b: seq<string>)
    requires a != [] && b != []
    ensures Join(a + b) == Join(a) + "\n" + Join(b)
  {
    if |a| == 1 {
      assert (a + b)[1..] == b;
    } else {
      assert (a + b)[1..] == a[1..] + b;
      JoinAppend(a[1..], b);
    }
  }

  lemma {:induction false} SplitJoin(lines: seq<string>)
    requires lines != [] && forall l :: l in lines ==> '\n' !in l
    ensures Split(Join(lines)) == lines
  {
    if |lines| > 1 {
      SplitJoin(lines[1..]);
      SplitFirst(lines[0], Join(lines[1..]));
    } else {
      SplitWhole(lines[0]);
    }
  }
}
