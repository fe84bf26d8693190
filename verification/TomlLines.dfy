/**
 The line structure of a configuration text.

 A text is its lines joined by LF. Its core is the lines that are not empty, its content
 the trimmed lines that are not blank. Cutting, joining, collapsing runs of LF and trimming
 are related to these, so that what an editor does to a text can be stated as what it does
 to a list of lines.

 Sections are delimited by header lines; which lines are headers, and which of them begins a
 section of interest, is left open here.
 */
module TomlLines {
  import opened Collections
  import opened Wrappers
  import opened Text

  // ---- lines and text ----

  /** Lines, each followed by LF. */
  function Terminated(lines: seq<string>): (t: string) {
    if lines == [] then "" else lines[0] + "\n" + Terminated(lines[1..])
  }

  /** Text that a further line can follow. */
  predicate Ended(t: string) { t == "" || t[|t| - 1] == '\n' }

  predicate LineFree(lines: seq<string>) { forall l :: l in lines ==> '\n' !in l }

  lemma {:induction false} TerminatedAppend(a: seq<string>, b: seq<string>)
    ensures Terminated(a + b) == Terminated(a) + Terminated(b)
  {
    if a == [] {
      assert a + b == b;
    } else {
      assert (a + b)[1..] == a[1..] + b;
      TerminatedAppend(a[1..], b);
    }
  }

  lemma TerminatedCons(l: string, rest: seq<string>)
    ensures Terminated([l] + rest) == l + "\n" + Terminated(rest)
    ensures Terminated([l]) == l + "\n"
  {
    assert ([l] + rest)[1..] == rest && [l][1..] == [];
  }

  lemma {:induction false} TerminatedEnded(a: seq<string>)
    ensures Ended(Terminated(a))
    ensures a != [] ==> Terminated(a) != ""
  {
    if a != [] { TerminatedEnded(a[1..]); }
  }

  lemma {:induction false} JoinCut(a: seq<string>, b: seq<string>)
    requires b != []
    ensures Join(a + b) == Terminated(a) + Join(b)
  {
    if a == [] {
      assert a + b == b;
    } else {
      assert (a + b)[1..] == a[1..] + b;
      JoinCut(a[1..], b);
    }
  }

  lemma TerminatedFirst(a: seq<string>, t: string) returns (rest: string)
    requires a != []
    ensures rest == Terminated(a[1..]) + t
    ensures Terminated(a) + t == a[0] + "\n" + rest
  {
    rest := Terminated(a[1..]) + t;
  }

  lemma SplitAnother(l: string, rest: string, lines: seq<string>)
    requires '\n' !in l && Split(rest) == lines
    ensures Split(l + "\n" + rest) == [l] + lines
  {
    SplitFirst(l, rest);
  }

  lemma {:induction false} SplitTerminated(a: seq<string>, t: string)
    requires LineFree(a)
    ensures Split(Terminated(a) + t) == a + Split(t)
  {
    if a == [] {
      assert Terminated(a) + t == t;
    } else {
      var l, more := a[0], a[1..];
      assert a == [l] + more && l in a;
      SplitTerminated(more, t);
      var rest := TerminatedFirst(a, t);
      SplitAnother(l, rest, more + Split(t));
      Regrouped([l], more, Split(t));
    }
  }

  // ---- content ----

  /** The lines of a text that are not empty. */
  function NonEmpty(lines: seq<string>): seq<string> {
    if lines == [] then [] else (if lines[0] == "" then [] else [lines[0]]) + NonEmpty(lines[1..])
  }

  function Core(t: string): seq<string> { NonEmpty(Split(t)) }

  /** The lines that are not blank, without indentation and trailing white space. */
  function Signature(lines: seq<string>): seq<string> {
    if lines == [] then []
    else (if Trim(lines[0], Go) == "" then [] else [Trim(lines[0], Go)]) + Signature(lines[1..])
  }

  /** What a text says, up to blank lines and indentation. */
  function Content(t: string): seq<string> { Signature(Split(t)) }

  lemma NonEmptyCons(l: string, rest: seq<string>)
    ensures NonEmpty([l] + rest) == (if l == "" then [] else [l]) + NonEmpty(rest)
    ensures NonEmpty([l]) == if l == "" then [] else [l]
  {
    assert ([l] + rest)[1..] == rest && [l][1..] == [];
  }

  lemma {:induction false} NonEmptyAppend(a: seq<string>, b: seq<string>)
    ensures NonEmpty(a + b) == NonEmpty(a) + NonEmpty(b)
  {
    if a == [] {
      assert a + b == b;
    } else {
      assert (a + b)[1..] == a[1..] + b;
      NonEmptyAppend(a[1..], b);
    }
  }

  lemma {:induction false} SignatureAppend(a: seq<string>, b: seq<string>)
    ensures Signature(a + b) == Signature(a) + Signature(b)
  {
    if a == [] {
      assert a + b == b;
    } else {
      assert (a + b)[1..] == a[1..] + b;
      SignatureAppend(a[1..], b);
    }
  }

  lemma {:induction false} NonEmptyHasTheLines(lines: seq<string>)
    ensures forall l :: l in NonEmpty(lines) <==> l in lines && l != ""
  {
    if lines != [] { NonEmptyHasTheLines(lines[1..]); }
  }

  lemma {:induction false} NonEmptyAgain(lines: seq<string>)
    requires "" !in lines
    ensures NonEmpty(lines) == lines
  {
    if lines != [] { NonEmptyAgain(lines[1..]); }
  }

  lemma {:induction false} SignatureOfCore(lines: seq<string>)
    ensures Signature(NonEmpty(lines)) == Signature(lines)
  {
    if lines != [] {
      SignatureOfCore(lines[1..]);
      if lines[0] != "" {
        assert NonEmpty(lines)[1..] == NonEmpty(lines[1..]);
      } else {
        assert Trim("", Go) == "";
        assert NonEmpty(lines) == NonEmpty(lines[1..]);
      }
    }
  }

  lemma CoreIsLineFree(t: string)
    ensures LineFree(Core(t)) && "" !in Core(t)
  {
    SplitHasNoNewline(t);
    NonEmptyHasTheLines(Split(t));
  }

  lemma CoreOfTerminated(a: seq<string>, t: string)
    requires LineFree(a)
    ensures Core(Terminated(a) + t) == NonEmpty(a) + Core(t)
  {
    SplitTerminated(a, t);
    NonEmptyAppend(a, Split(t));
  }

  lemma CoreAppend(a: string, b: string)
    requires Ended(a)
    ensures Core(a + b) == Core(a) + Core(b)
  {
    if a == "" {
      assert a + b == b;
      assert Split("") == [""];
    } else {
      var c := a[..|a| - 1];
      assert a + b == c + "\n" + b && a == c + "\n" + "";
      SplitAppend(c, b);
      SplitAppend(c, "");
      NonEmptyAppend(Split(c), Split(b));
      NonEmptyAppend(Split(c), [""]);
    }
  }

  lemma CoreOfAnotherLine(a: string)
    ensures Core(a + "\n") == Core(a)
  {
    assert a + "\n" == a + "\n" + "";
    SplitAppend(a, "");
    NonEmptyAppend(Split(a), [""]);
  }

  // ---- a section among the lines ----

  datatype Parts = Parts(before: seq<string>, header: string, body: seq<string>, after: seq<string>)

  function Whole(p: Parts): seq<string> { p.before + [p.header] + p.body + p.after }

  predicate NoneIn(lines: seq<string>, f: string -> bool) { forall l :: l in lines ==> !f(l) }

  /** How many lines come before the first header. */
  function UpTo(lines: seq<string>, header: string -> bool): (n: nat)
    ensures n <= |lines|
  {
    if lines == [] || header(lines[0]) then 0 else 1 + UpTo(lines[1..], header)
  }

  /** The lines cut at the first line of a kind and the first header after it. */
  function PartsBy(lines: seq<string>, f: string -> bool, header: string -> bool): Option<Parts> {
    if lines == [] then None
    else if f(lines[0]) then
      var n := UpTo(lines[1..], header);
      Some(Parts([], lines[0], lines[1..][..n], lines[1..][n..]))
    else
      match PartsBy(lines[1..], f, header)
      case None => None
      case Some(p) => Some(p.(before := [lines[0]] + p.before))
  }

  predicate CutBy(p: Parts, f: string -> bool, header: string -> bool) {
    NoneIn(p.before, f) && f(p.header) && NoneIn(p.body, header) && (p.after == [] || header(p.after[0]))
  }

  lemma {:induction false} UpToIs(body: seq<string>, after: seq<string>, header: string -> bool)
    requires NoneIn(body, header) && (after == [] || header(after[0]))
    ensures UpTo(body + after, header) == |body|
  {
    if body == [] {
      assert body + after == after;
    } else {
      assert (body + after)[1..] == body[1..] + after;
      UpToIs(body[1..], after, header);
    }
  }

  lemma {:induction false} UpToCuts(lines: seq<string>, header: string -> bool)
    ensures var n := UpTo(lines, header); NoneIn(lines[..n], header) && (lines[n..] == [] || header(lines[n..][0]))
  {
    if lines != [] && !header(lines[0]) {
      UpToCuts(lines[1..], header);
      var n := UpTo(lines, header);
      assert lines[..n] == [lines[0]] + lines[1..][..n - 1] && lines[n..] == lines[1..][n - 1..];
    }
  }

  lemma {:induction false} PartsByIs(p: Parts, f: string -> bool, header: string -> bool)
    requires CutBy(p, f, header)
    ensures PartsBy(Whole(p), f, header) == Some(p)
    decreases |p.before|
  {
    if p.before == [] {
      assert Whole(p)[1..] == p.body + p.after && Whole(p)[0] == p.header;
      UpToIs(p.body, p.after, header);
      assert (p.body + p.after)[..|p.body|] == p.body && (p.body + p.after)[|p.body|..] == p.after;
    } else {
      var q := p.(before := p.before[1..]);
      assert Whole(p)[1..] == Whole(q) && Whole(p)[0] == p.before[0];
      PartsByIs(q, f, header);
      assert p.before[0] in p.before && [p.before[0]] + q.before == p.before;
    }
  }

  lemma {:induction false} PartsByCuts(lines: seq<string>, f: string -> bool, header: string -> bool)
    ensures PartsBy(lines, f, header).None? ==> NoneIn(lines, f)
    ensures var r := PartsBy(lines, f, header); r.Some? ==> CutBy(r.value, f, header) && Whole(r.value) == lines
  {
    if lines != [] {
      if f(lines[0]) {
        UpToCuts(lines[1..], header);
      } else {
        PartsByCuts(lines[1..], f, header);
        assert lines == [lines[0]] + lines[1..];
      }
    }
  }

  // ---- replacing every line ----

  function FlatMap(lines: seq<string>, f: string -> seq<string>): seq<string> {
    if lines == [] then [] else f(lines[0]) + FlatMap(lines[1..], f)
  }

  /** What the first line that has something to offer gives. */
  function FirstOf(lines: seq<string>, g: string -> Option<string>): Option<string> {
    if lines == [] then None else if g(lines[0]).Some? then g(lines[0]) else FirstOf(lines[1..], g)
  }

  lemma MapCons(l: string, rest: seq<string>, f: string -> seq<string>, g: string -> Option<string>)
    ensures FlatMap([l] + rest, f) == f(l) + FlatMap(rest, f) && FlatMap([l], f) == f(l)
    ensures FirstOf([l] + rest, g) == if g(l).Some? then g(l) else FirstOf(rest, g)
    ensures FirstOf([l], g) == g(l)
  {
    assert ([l] + rest)[1..] == rest && [l][1..] == [];
  }

  /** Lines on which the functions do nothing are passed over. */
  lemma {:induction false} MapIdle(lines: seq<string>, more: seq<string>, f: string -> seq<string>)
    requires forall l :: l in lines ==> f(l) == NonEmpty([l])
    ensures FlatMap(lines + more, f) == NonEmpty(lines) + FlatMap(more, f)
  {
    if lines == [] {
      assert lines + more == more;
    } else {
      var l, rest := lines[0], lines[1..];
      assert lines == [l] + rest && lines + more == [l] + (rest + more);
      MapIdle(rest, more, f);
      MapCons(l, rest + more, f, x => None);
      NonEmptyCons(l, rest);
    }
  }

  lemma {:induction false} FirstIdle(lines: seq<string>, more: seq<string>, g: string -> Option<string>)
    requires forall l :: l in lines ==> g(l).None?
    ensures FirstOf(lines + more, g) == FirstOf(more, g)
  {
    if lines == [] {
      assert lines + more == more;
    } else {
      assert (lines + more)[1..] == lines[1..] + more;
      FirstIdle(lines[1..], more, g);
    }
  }

  lemma {:induction false} MapNonEmpty(lines: seq<string>, f: string -> seq<string>, g: string -> Option<string>)
    requires f("") == [] && g("").None?
    ensures FlatMap(NonEmpty(lines), f) == FlatMap(lines, f)
    ensures FirstOf(NonEmpty(lines), g) == FirstOf(lines, g)
  {
    if lines != [] {
      var l, rest := lines[0], lines[1..];
      MapNonEmpty(rest, f, g);
      MapCons(l, rest, f, g);
      MapCons(l, NonEmpty(rest), f, g);
      NonEmptyCons(l, rest);
      assert lines == [l] + rest;
      if l == "" { assert NonEmpty(lines) == NonEmpty(rest); }
    }
  }

  // ---- overwriting one line ----

  predicate SomeIs(lines: seq<string>, f: string -> bool) { exists l :: l in lines && f(l) }

  /** The first line of a kind replaced by another. */
  function Overwritten(lines: seq<string>, f: string -> bool, line: string): seq<string> {
    if lines == [] then []
    else if f(lines[0]) then [line] + lines[1..]
    else [lines[0]] + Overwritten(lines[1..], f, line)
  }

  lemma OverwrittenCons(l: string, rest: seq<string>, f: string -> bool, line: string)
    ensures Overwritten([l] + rest, f, line) == if f(l) then [line] + rest else [l] + Overwritten(rest, f, line)
  {
    assert ([l] + rest)[1..] == rest;
  }

  lemma {:induction false} OverwrittenNonEmpty(lines: seq<string>, f: string -> bool, line: string)
    requires line != "" && !f("")
    ensures Overwritten(NonEmpty(lines), f, line) == NonEmpty(Overwritten(lines, f, line))
  {
    if lines != [] {
      var l, rest := lines[0], lines[1..];
      assert lines == [l] + rest;
      OverwrittenNonEmpty(rest, f, line);
      NonEmptyCons(l, rest);
      OverwrittenCons(l, rest, f, line);
      if f(l) {
        NonEmptyCons(line, rest);
      } else {
        NonEmptyCons(l, Overwritten(rest, f, line));
      }
      if l != "" {
        OverwrittenCons(l, NonEmpty(rest), f, line);
      } else {
        assert NonEmpty(lines) == NonEmpty(rest);
      }
    }
  }

  lemma {:induction false} OverwrittenAppend(a: seq<string>, b: seq<string>, f: string -> bool, line: string)
    ensures Overwritten(a + b, f, line) == if SomeIs(a, f) then Overwritten(a, f, line) + b else a + Overwritten(b, f, line)
  {
    if a == [] {
      assert a + b == b;
    } else {
      var l, rest := a[0], a[1..];
      assert a == [l] + rest;
      OverwrittenAppend(rest, b, f, line);
      OverwrittenCons(l, rest, f, line);
      OverwrittenCons(l, rest + b, f, line);
      SomeIsCons(l, rest, f);
      Regrouped([l], rest, b);
      Regrouped([line], rest, b);
      Regrouped([l], Overwritten(rest, f, line), b);
      Regrouped([l], rest, Overwritten(b, f, line));
    }
  }

  lemma SomeIsCons(l: string, rest: seq<string>, f: string -> bool)
    ensures SomeIs([l] + rest, f) <==> f(l) || SomeIs(rest, f)
  {
    var lines := [l] + rest;
    if SomeIs(rest, f) {
      var k :| k in rest && f(k);
      assert k in lines;
    } else if f(l) {
      assert l in lines;
    }
  }

  lemma {:induction false} OverwrittenLines(lines: seq<string>, f: string -> bool, line: string)
    ensures |Overwritten(lines, f, line)| == |lines|
    ensures forall l :: l in Overwritten(lines, f, line) ==> l in lines || l == line
  {
    if lines != [] { OverwrittenLines(lines[1..], f, line); }
  }

  lemma {:induction false} OverwrittenAt(lines: seq<string>, i: nat, f: string -> bool, line: string)
    requires i < |lines| && f(lines[i]) && forall k :: 0 <= k < i ==> !f(lines[k])
    ensures Overwritten(lines, f, line) == lines[i := line]
  {
    if i > 0 { OverwrittenAt(lines[1..], i - 1, f, line); }
  }

  lemma NonEmptyHasSome(lines: seq<string>, f: string -> bool)
    requires !f("")
    ensures SomeIs(NonEmpty(lines), f) <==> SomeIs(lines, f)
  {
    NonEmptyHasTheLines(lines);
    if SomeIs(lines, f) {
      var l :| l in lines && f(l);
      assert l in NonEmpty(lines);
    }
  }

  // ---- trimming does not change the content ----

  lemma {:induction false} TrimLeftAppend(l: string, c: char)
    requires IsGoSpace(c)
    ensures TrimLeft(l + [c], Go) == if TrimLeft(l, Go) == "" then "" else TrimLeft(l, Go) + [c]
  {
    if l == "" {
      assert (l + [c])[1..] == "";
    } else {
      assert (l + [c])[1..] == l[1..] + [c];
      if IsGoSpace(l[0]) { TrimLeftAppend(l[1..], c); }
    }
  }

  lemma TrimOfMore(l: string, c: char)
    requires IsGoSpace(c)
    ensures Trim(l + [c], Go) == Trim(l, Go)
    ensures Trim([c] + l, Go) == Trim(l, Go)
  {
    TrimLeftAppend(l, c);
    var u := TrimLeft(l, Go);
    assert u != "" ==> (u + [c])[..|u + [c]| - 1] == u;
    assert ([c] + l)[1..] == l;
  }

  lemma {:induction false} TrimLeftLeavesAnEnd(s: string)
    ensures TrimLeft(s, Go) == "" || !IsGoSpace(TrimLeft(s, Go)[0])
    ensures exists k :: 0 <= k <= |s| && TrimLeft(s, Go) == s[k..]
  {
    if s != "" && IsGoSpace(s[0]) {
      TrimLeftLeavesAnEnd(s[1..]);
      var k :| 0 <= k <= |s[1..]| && TrimLeft(s[1..], Go) == s[1..][k..];
      assert s[1..][k..] == s[k + 1..];
    } else {
      assert s == s[0..];
    }
  }

  lemma {:induction false} TrimRightLeavesAStart(s: string)
    requires s == "" || !IsGoSpace(s[0])
    ensures var r := TrimRight(s, Go); r == "" || (!IsGoSpace(r[0]) && !IsGoSpace(r[|r| - 1]))
  {
    if s != "" && IsGoSpace(s[|s| - 1]) { TrimRightLeavesAStart(s[..|s| - 1]); }
  }

  lemma TrimTwice(s: string)
    ensures Trim(Trim(s, Go), Go) == Trim(s, Go)
  {
    TrimLeftLeavesAnEnd(s);
    TrimRightLeavesAStart(TrimLeft(s, Go));
    TrimIdentity(Trim(s, Go), Go);
  }

  lemma SignatureOfLine(l: string)
    ensures Signature([l]) == if Trim(l, Go) == "" then [] else [Trim(l, Go)]
  {
    assert [l][1..] == [];
  }

  lemma ContentOfLeadingSpace(c: char, t: string)
    requires IsGoSpace(c)
    ensures Content([c] + t) == Content(t)
  {
    if c == '\n' {
      assert [c] + t == "" + "\n" + t;
      SplitFirst("", t);
      SignatureAppend([""], Split(t));
    } else if '\n' in t {
      var a, b := CutAtFirst(t);
      assert [c] + t == ([c] + a) + "\n" + b;
      SplitFirst([c] + a, b);
      SplitFirst(a, b);
      assert ([[c] + a] + Split(b))[1..] == Split(b) && ([a] + Split(b))[1..] == Split(b);
      TrimOfMore(a, c);
    } else {
      SplitWhole([c] + t);
      SplitWhole(t);
      TrimOfMore(t, c);
      SignatureOfLine(t);
      SignatureOfLine([c] + t);
    }
  }

  lemma ContentOfTrailingSpace(t: string, c: char)
    requires IsGoSpace(c)
    ensures Content(t + [c]) == Content(t)
    decreases |t|
  {
    if c == '\n' {
      assert t + [c] == t + "\n" + "";
      SplitAppend(t, "");
      SignatureAppend(Split(t), [""]);
    } else if '\n' in t {
      var a, b := CutAtFirst(t);
      assert t + [c] == a + "\n" + (b + [c]);
      SplitFirst(a, b + [c]);
      SplitFirst(a, b);
      ContentOfTrailingSpace(b, c);
      assert ([a] + Split(b + [c]))[1..] == Split(b + [c]) && ([a] + Split(b))[1..] == Split(b);
    } else {
      SplitWhole(t + [c]);
      SplitWhole(t);
      TrimOfMore(t, c);
      SignatureOfLine(t);
      SignatureOfLine(t + [c]);
    }
  }

  lemma {:induction false} ContentOfTrimLeft(t: string)
    ensures Content(TrimLeft(t, Go)) == Content(t)
  {
    if t != "" && IsGoSpace(t[0]) {
      ContentOfTrimLeft(t[1..]);
      ContentOfLeadingSpace(t[0], t[1..]);
      assert [t[0]] + t[1..] == t;
    }
  }

  lemma {:induction false} ContentOfTrimRight(t: string)
    ensures Content(TrimRight(t, Go)) == Content(t)
  {
    if t != "" && IsGoSpace(t[|t| - 1]) {
      var u := t[..|t| - 1];
      ContentOfTrimRight(u);
      ContentOfTrailingSpace(u, t[|t| - 1]);
      assert u + [t[|t| - 1]] == t;
    }
  }

  lemma ContentOfTrim(t: string)
    ensures Content(Trim(t, Go)) == Content(t)
  {
    ContentOfTrimLeft(t);
    ContentOfTrimRight(TrimLeft(t, Go));
  }

  // ---- collapsing blank lines ----

  function Newlines(t: string): (n: nat)
    ensures n <= |t|
    ensures forall k :: 0 <= k < n ==> t[k] == '\n'
  {
    if t != "" && t[0] == '\n' then 1 + Newlines(t[1..]) else 0
  }

  /** Every run of three or more LFs becomes two. */
  function Collapse(t: string): string
    decreases |t|
  {
    var i := IndexOf(t, '\n');
    if i == |t| then t
    else
      var n := Newlines(t[i..]);
      t[..i] + Shorter(t[i..i + n]) + Collapse(t[i + n..])
  }

  function Shorter(run: string): string { if |run| >= 3 then "\n\n" else run }

  lemma {:induction false} CoreAfterNewlines(t: string, n: nat)
    requires n <= |t| && forall k :: 0 <= k < n ==> t[k] == '\n'
    ensures Core(t) == Core(t[n..])
  {
    if n > 0 {
      assert t == "" + "\n" + t[1..];
      SplitFirst("", t[1..]);
      NonEmptyAppend([""], Split(t[1..]));
      CoreAfterNewlines(t[1..], n - 1);
      assert t[1..][n - 1..] == t[n..];
    } else {
      assert t[0..] == t;
    }
  }

  lemma CoreAfterRuns(a: string, run: string, fewer: string, b: string, c: string)
    requires run != "" && fewer != "" && Core(b) == Core(c)
    requires (forall k :: 0 <= k < |run| ==> run[k] == '\n') && (forall k :: 0 <= k < |fewer| ==> fewer[k] == '\n')
    ensures Core(a + run + b) == Core(a + fewer + c)
  {
    assert a + run + b == a + (run + b) && (run + b)[|run|..] == b;
    assert a + fewer + c == a + (fewer + c) && (fewer + c)[|fewer|..] == c;
    CoreAfterLine(a, run + b, |run|);
    CoreAfterLine(a, fewer + c, |fewer|);
  }

  lemma CollapseStep(t: string) returns (a: string, run: string, b: string)
    requires IndexOf(t, '\n') < |t|
    ensures t == a + run + b && |b| < |t| && run != "" && forall k :: 0 <= k < |run| ==> run[k] == '\n'
    ensures Collapse(t) == a + Shorter(run) + Collapse(b)
  {
    var i := IndexOf(t, '\n');
    var n := Newlines(t[i..]);
    a, run, b := t[..i], t[i..i + n], t[i + n..];
    forall k | 0 <= k < n ensures run[k] == '\n' { assert t[i..][k] == '\n'; }
  }

  /** Collapsing touches only empty lines. */
  lemma {:induction false} CoreOfCollapse(t: string)
    ensures Core(Collapse(t)) == Core(t)
    decreases |t|
  {
    if IndexOf(t, '\n') < |t| {
      var a, run, b := CollapseStep(t);
      CoreOfCollapse(b);
      CoreAfterRuns(a, run, Shorter(run), b, Collapse(b));
    }
  }

  lemma CoreAfterLine(a: string, t: string, n: nat)
    requires 1 <= n <= |t| && forall k :: 0 <= k < n ==> t[k] == '\n'
    ensures Core(a + t) == Core(a) + Core(t[n..])
  {
    assert a + t == a + "\n" + t[1..];
    SplitAppend(a, t[1..]);
    NonEmptyAppend(Split(a), Split(t[1..]));
    CoreAfterNewlines(t[1..], n - 1);
    assert t[1..][n - 1..] == t[n..];
  }
}
