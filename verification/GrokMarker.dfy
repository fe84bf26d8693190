/**
 The comment line in which the editor remembers the user's default model, and the
 pattern by which it is found and struck out (internal/clitools/grok.go).

 The pattern is anchored at the beginning of a line, takes a quoted value - which may run
 over several lines - and then any blanks, one CR and one LF. Where every marked line closes
 its own quote, striking out the matches is a matter of single lines.
 */
module GrokMarker {
  import opened Wrappers
  import opened Text
  import opened TomlLines
  import opened GrokSections

  const MARK := "# tproxy-prev-default = \""
  const LEGACY_MARK := "# 9router-prev-default = \""

  function MarkLength(t: string): nat {
    if StartsWith(t, MARK) then |MARK| else if StartsWith(t, LEGACY_MARK) then |LEGACY_MARK| else 0
  }

  function Blanks(t: string): (n: nat)
    ensures n <= |t|
    ensures forall k :: 0 <= k < n ==> t[k] == ' ' || t[k] == '\t'
    ensures n < |t| ==> t[n] != ' ' && t[n] != '\t'
  {
    if t != "" && (t[0] == ' ' || t[0] == '\t') then 1 + Blanks(t[1..]) else 0
  }

  /** How much of a text `[ \t]*\r?\n?` takes. */
  function Tail(t: string): (n: nat)
    ensures n <= |t|
  {
    var b := Blanks(t);
    var r := if b < |t| && t[b] == '\r' then b + 1 else b;
    if r < |t| && t[r] == '\n' then r + 1 else r
  }

  datatype Match = Match(value: string, length: nat)

  /** The pattern at the start of a line; its value may run over several lines. */
  function MatchAt(t: string): (r: Option<Match>)
    ensures r.Some? ==> 0 < r.value.length <= |t|
  {
    if Marked(t) then MatchAfter(t, MarkLength(t)) else None
  }

  /** The pattern whose first n characters have matched. */
  function MatchAfter(t: string, n: nat): (r: Option<Match>)
    requires n <= |t|
    ensures r.Some? ==> n < r.value.length <= |t|
  {
    match MatchValue(t[n..])
    case None => None
    case Some(m) => Some(m.(length := n + m.length))
  }

  /** The part of the pattern after the opening quote. */
  function MatchValue(t: string): (r: Option<Match>)
    ensures r.Some? ==> 0 < r.value.length <= |t|
  {
    var q := IndexOf(t, '"');
    if q == |t| then None else Some(Match(t[..q], q + 1 + Tail(t[q + 1..])))
  }

  /** The value of the first match in a text that begins a line. */
  function FirstMarker(t: string): Option<string>
    decreases |t|
  {
    match MatchAt(t)
    case Some(m) => Some(m.value)
    case None =>
      var i := IndexOf(t, '\n');
      if i == |t| then None else FirstMarker(t[i + 1..])
  }

  /** A text that begins a line, with every match removed. */
  function StripMarkers(t: string): string
    decreases |t|, 1
  {
    StripFrom(t, Skipped(t))
  }

  /** The first characters of the text struck out, and whatever matches on its later lines. */
  function StripFrom(t: string, skip: nat): string
    requires skip <= |t|
    decreases |t|, 0
  {
    if skip > 0 && t[skip - 1] == '\n' then StripMarkers(t[skip..])
    else
      var i := skip + IndexOf(t[skip..], '\n');
      if i == |t| then t[skip..] else t[skip..i + 1] + StripMarkers(t[i + 1..])
  }

  function Skipped(t: string): (n: nat)
    ensures n <= |t|
  {
    match MatchAt(t) case Some(m) => m.length case None => 0
  }

  // ---- line by line ----

  predicate Marked(line: string) { MarkLength(line) > 0 }

  /** A marked line whose value is closed on the line itself. */
  predicate Closed(line: string) { Marked(line) ==> MatchAt(line).Some? }

  /** What a line keeps when its match is struck out. */
  function Remnant(line: string): string {
    match MatchAt(line)
    case Some(m) => line[m.length..]
    case None => line
  }

  lemma MarkLengthOfLine(l: string, rest: string)
    requires '\n' !in l
    ensures MarkLength(l + "\n" + rest) == MarkLength(l)
  {
    StartsWithOnLine(l, rest, MARK);
    StartsWithOnLine(l, rest, LEGACY_MARK);
  }

  lemma StartsWithOnLine(l: string, rest: string, p: string)
    requires '\n' !in l && '\n' !in p
    ensures StartsWith(l + "\n" + rest, p) <==> StartsWith(l, p)
  {
    var t := l + "\n" + rest;
    if |p| <= |l| {
      assert t[..|p|] == l[..|p|];
    } else if |p| <= |t| {
      assert t[..|p|][|l|] == '\n' != p[|l|];
    }
  }

  lemma TailOfLine(u: string, rest: string)
    requires '\n' !in u
    ensures Tail(u + "\n" + rest) == if Tail(u) == |u| then |u| + 1 else Tail(u)
  {
    BlanksOfLine(u, rest);
    var t := u + "\n" + rest;
    assert forall k :: 0 <= k < |u| ==> t[k] == u[k];
    assert t[|u|] == '\n';
  }

  lemma {:induction false} BlanksOfLine(u: string, rest: string)
    requires '\n' !in u
    ensures Blanks(u + "\n" + rest) == Blanks(u)
  {
    var t := u + "\n" + rest;
    if u != "" {
      assert t[1..] == u[1..] + "\n" + rest;
      BlanksOfLine(u[1..], rest);
    } else {
      assert t[0] == '\n';
    }
  }

  lemma {:induction false} IndexOfWithin(u: string, c: char, more: string)
    requires c in u
    ensures IndexOf(u + more, c) == IndexOf(u, c) < |u|
  {
    IndexOfIsFirst(u, c);
    if u[0] != c {
      assert (u + more)[1..] == u[1..] + more;
      IndexOfWithin(u[1..], c, more);
    }
  }

  function WithLf(l: string, m: Match): Match { if m.length == |l| then m.(length := |l| + 1) else m }

  lemma MatchValueOfLine(u: string, rest: string)
    requires '\n' !in u && MatchValue(u).Some?
    ensures MatchValue(u + "\n" + rest) == Some(WithLf(u, MatchValue(u).value))
  {
    var t := u + "\n" + rest;
    IndexOfIsFirst(u, '"');
    IndexOfWithin(u, '"', "\n" + rest);
    assert t == u + ("\n" + rest);
    var q := IndexOf(u, '"');
    AfterQuote(u, q, rest);
    TailOfLine(u[q + 1..], rest);
  }

  lemma AfterQuote(u: string, q: nat, rest: string)
    requires q < |u|
    ensures var t := u + "\n" + rest; t[..q] == u[..q] && t[q + 1..] == u[q + 1..] + "\n" + rest
  {
  }

  /** A match on a line takes the line's LF with it exactly when it takes all of the line. */
  lemma MatchOfLine(l: string, rest: string)
    requires '\n' !in l && Closed(l)
    ensures MatchAt(l).None? ==> MatchAt(l + "\n" + rest).None?
    ensures MatchAt(l).Some? ==> MatchAt(l + "\n" + rest) == Some(WithLf(l, MatchAt(l).value))
  {
    MarkLengthOfLine(l, rest);
    if Marked(l) { MatchAfterOfLine(l, MarkLength(l), rest); }
  }

  lemma MatchAfterOfLine(l: string, n: nat, rest: string)
    requires '\n' !in l && n <= |l| && MatchAfter(l, n).Some?
    ensures MatchAfter(l + "\n" + rest, n) == Some(WithLf(l, MatchAfter(l, n).value))
  {
    CutOnLine(l, n, rest);
    MatchValueOfLine(l[n..], rest);
  }

  lemma CutOnLine(l: string, n: nat, rest: string)
    requires n <= |l|
    ensures (l + "\n" + rest)[n..] == l[n..] + "\n" + rest && (forall c :: c in l[n..] ==> c in l)
  {
  }

  function StrippedLine(l: string): string {
    if MatchAt(l).Some? && Remnant(l) == "" then "" else Remnant(l) + "\n"
  }

  lemma RemnantHasNoLf(l: string)
    requires '\n' !in l
    ensures '\n' !in Remnant(l)
  {
  }

  lemma StripLine(l: string, rest: string)
    requires '\n' !in l && Closed(l)
    ensures StripMarkers(l + "\n" + rest) == StrippedLine(l) + StripMarkers(rest)
  {
    SkippedOfLine(l, rest);
    if MatchAt(l).Some? && Remnant(l) == "" {
      StripTakes(l, rest);
    } else {
      StripLeaves(l, rest, Remnant(l));
    }
  }

  lemma SkippedOfLine(l: string, rest: string)
    requires '\n' !in l && Closed(l)
    ensures Skipped(l + "\n" + rest) == if MatchAt(l).Some? && Remnant(l) == "" then |l| + 1 else |l| - |Remnant(l)|
  {
    MatchOfLine(l, rest);
  }

  lemma StripTakes(l: string, rest: string)
    ensures StripFrom(l + "\n" + rest, |l| + 1) == StripMarkers(rest)
  {
    var t := l + "\n" + rest;
    assert t[|l| + 1..] == rest && t[|l|] == '\n';
  }

  lemma StripLeaves(l: string, rest: string, r: string)
    requires '\n' !in l && |r| <= |l| && r == l[|l| - |r|..]
    ensures StripFrom(l + "\n" + rest, |l| - |r|) == r + "\n" + StripMarkers(rest)
  {
    var t := l + "\n" + rest;
    var skip := |l| - |r|;
    assert t[skip..] == r + ['\n'] + rest;
    assert '\n' !in r;
    IndexOfAppend(r, '\n', rest);
    assert t[skip..|l| + 1] == r + "\n" && t[|l| + 1..] == rest;
    if skip > 0 { assert t[skip - 1] == l[skip - 1] && l[skip - 1] in l; }
  }

  lemma StripLast(l: string)
    requires '\n' !in l
    ensures StripMarkers(l) == Remnant(l)
  {
    RemnantHasNoLf(l);
    IndexOfIsFirst(Remnant(l), '\n');
  }

  // ---- in terms of a text's lines ----

  function RemnantLines(l: string): seq<string> { if Remnant(l) == "" then [] else [Remnant(l)] }

  function ValueOn(l: string): Option<string> { if MatchAt(l).Some? then Some(MatchAt(l).value.value) else None }

  function Stripped(lines: seq<string>): seq<string> { FlatMap(lines, RemnantLines) }

  function FirstValue(lines: seq<string>): Option<string> { FirstOf(lines, ValueOn) }

  predicate AllClosed(lines: seq<string>) { forall l :: l in lines ==> Closed(l) }
  predicate NoneMarked(lines: seq<string>) { forall l :: l in lines ==> !Marked(l) }

  lemma {:induction false} CoreOfStrip(t: string)
    requires AllClosed(Split(t))
    ensures Core(StripMarkers(t)) == Stripped(Split(t))
    ensures FirstMarker(t) == FirstValue(Split(t))
    decreases |t|
  {
    if '\n' in t {
      var l, rest := CutAtFirst(t);
      SplitFirst(l, rest);
      assert l in Split(t);
      assert AllClosed(Split(rest)) by { forall k | k in Split(rest) ensures Closed(k) { assert k in Split(t); } }
      CoreOfStrip(rest);
      MapCons(l, Split(rest), RemnantLines, ValueOn);
      StripLine(l, rest);
      FirstOfLine(l, rest);
      CoreOfStrippedLine(l, StripMarkers(rest));
    } else {
      SplitWhole(t);
      StripLast(t);
      MapCons(t, [], RemnantLines, ValueOn);
      RemnantHasNoLf(t);
      SplitWhole(Remnant(t));
      NonEmptyCons(Remnant(t), []);
      IndexOfIsFirst(t, '\n');
    }
  }

  lemma CoreOfStrippedLine(l: string, u: string)
    requires '\n' !in l
    ensures Core(StrippedLine(l) + u) == RemnantLines(l) + Core(u)
  {
    RemnantHasNoLf(l);
    if MatchAt(l).Some? && Remnant(l) == "" {
      assert "" + u == u;
    } else {
      SplitFirst(Remnant(l), u);
      NonEmptyCons(Remnant(l), Split(u));
      assert Remnant(l) + "\n" + u == StrippedLine(l) + u;
    }
  }

  lemma FirstOfLine(l: string, rest: string)
    requires '\n' !in l && Closed(l)
    ensures FirstMarker(l + "\n" + rest) == if ValueOn(l).Some? then ValueOn(l) else FirstMarker(rest)
  {
    var t := l + ['\n'] + rest;
    MatchOfLine(l, rest);
    IndexOfAppend(l, '\n', rest);
    assert t[|l| + 1..] == rest;
  }

  lemma UnmarkedLine(l: string)
    requires !Marked(l)
    ensures RemnantLines(l) == NonEmpty([l]) && ValueOn(l).None?
  {
    NonEmptyCons(l, []);
  }

  /** Empty lines have no match. */
  lemma StrippedNonEmpty(lines: seq<string>)
    ensures Stripped(NonEmpty(lines)) == Stripped(lines)
    ensures FirstValue(NonEmpty(lines)) == FirstValue(lines)
  {
    UnmarkedLine("");
    NonEmptyCons("", []);
    MapNonEmpty(lines, RemnantLines, ValueOn);
  }

  lemma StrippedUnmarked(lines: seq<string>, more: seq<string>)
    requires NoneMarked(lines)
    ensures Stripped(lines + more) == NonEmpty(lines) + Stripped(more)
    ensures FirstValue(lines + more) == FirstValue(more)
  {
    forall l | l in lines ensures RemnantLines(l) == NonEmpty([l]) && ValueOn(l).None? { UnmarkedLine(l); }
    MapIdle(lines, more, RemnantLines);
    FirstIdle(lines, more, ValueOn);
  }

  // ---- the line that is written ----

  function MarkerLine(value: string): string { MARK + value + "\"" }

  /** The written line always matches; what is read is the value up to its first quote. */
  lemma MarkerLineMatches(value: string)
    ensures MarkLength(MarkerLine(value)) == |MARK| && MatchAt(MarkerLine(value)).Some?
    ensures MatchAt(MarkerLine(value)).value.value == value[..IndexOf(value, '"')]
    ensures '"' !in value ==> MatchAt(MarkerLine(value)).value.value == value && Remnant(MarkerLine(value)) == ""
  {
    MarkerLineIsMarked(value);
    QuotedValue(value);
  }

  lemma MarkerLineIsMarked(value: string)
    ensures MarkLength(MarkerLine(value)) == |MARK| && MarkerLine(value)[|MARK|..] == value + "\""
  {
    assert MarkerLine(value) == MARK + (value + "\"");
  }

  lemma QuotedValue(value: string)
    ensures var m := MatchValue(value + "\"");
            m.Some? && m.value.value == value[..IndexOf(value, '"')] && ('"' !in value ==> m.value == Match(value, |value| + 1))
  {
    var u := value + ['"'];
    IndexOfIsFirst(value, '"');
    if '"' in value {
      IndexOfWithin(value, '"', ['"']);
    } else {
      assert u == u + "";
      IndexOfAppend(value, '"', "");
      assert u[..|value|] == value && u[|value| + 1..] == "";
    }
    assert u[..IndexOf(value, '"')] == value[..IndexOf(value, '"')];
  }
}
