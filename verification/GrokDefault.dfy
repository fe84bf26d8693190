/**
 The default model in Grok's configuration: set in place or added, and what that does to
 every other line (internal/clitools/grok.go).

 Setting the default overwrites the first assignment in the first [models] section, adds one
 at its top, or puts a new section in front of the text.
 */
module GrokDefault {
  import opened Collections
  import opened Wrappers
  import opened Text
  import opened TomlLines
  import opened GrokSections

  /** A line that setting the default overwrites; its quote need not be closed. */
  predicate Assigns(line: string) { StartsWith(Trim(line, Go), Opening("default")) }

  function DefaultLine(value: string): string { QuotedLine("default", value) }

  /** The lines of a [models] section with the default set: overwritten, or else added at the top. */
  function SetBody(lines: seq<string>, value: string): seq<string> {
    if SomeIs(lines, Assigns) then Overwritten(lines, Assigns, DefaultLine(value)) else [DefaultLine(value)] + lines
  }

  function NewBody(t: string, s: Span, value: string): string
    requires s.bodyStart <= s.end <= |t|
  {
    var body := Join(SetBody(Split(t[s.bodyStart..s.end]), value));
    if s.end < |t| && (s.end == 0 || t[s.end - 1] != '\n') && body != "" then body + "\n" else body
  }

  /** Fails where the program's slice is out of range: the header ends the text without LF. */
  function SetModelsDefault(t: string, value: string): Option<string> {
    match Find(t, Models)
    case None => Some(MODELS + "\n" + DefaultLine(value) + "\n\n" + t)
    case Some(s) =>
      if s.bodyStart > s.end then None
      else Some(t[..s.bodyStart] + NewBody(t, s, value) + t[s.end..])
  }

  /** The scan through the section's lines. */
  method SetInBody(body: seq<string>, value: string) returns (lines: seq<string>)
    ensures lines == SetBody(body, value)
  {
    lines := body;
    for i := 0 to |lines|
      invariant lines == body && forall k :: 0 <= k < i ==> !Assigns(body[k])
    {
      if Assigns(lines[i]) {
        OverwrittenAt(body, i, Assigns, DefaultLine(value));
        assert body[i] in body;
        return lines[i := DefaultLine(value)];
      }
    }
    return [DefaultLine(value)] + lines;
  }

  method SetModelsDefaultInPlace(toml: string, value: string) returns (r: Option<string>)
    ensures r == SetModelsDefault(toml, value)
  {
    var start, end, bodyStart, ok := FindSection(toml, Models);
    if !ok {
      var block := MODELS + "\n" + DefaultLine(value) + "\n\n";
      if toml == "" {
        assert block + toml == block;
        return Some(block);
      }
      return Some(block + toml);
    }
    if bodyStart > end {
      return None;
    }
    var lines := SetInBody(Split(toml[bodyStart..end]), value);
    var newBody := Join(lines);
    if end < |toml| && (end == 0 || toml[end - 1] != '\n') && newBody != "" {
      newBody := newBody + "\n";
    }
    return Some(toml[..bodyStart] + newBody + toml[end..]);
  }

  // ---- what it does to the content ----

  lemma DefaultLineIs(value: string)
    ensures Trim(DefaultLine(value), Go) == DefaultLine(value) != ""
    ensures Assigns(DefaultLine(value)) && !IsHeader(DefaultLine(value))
    ensures !Is(Models, DefaultLine(value)) && !Is(ProxyModel, DefaultLine(value))
    ensures Offers(DefaultLine(value), "default") && ValueIn(DefaultLine(value), "default") == Value(value)
    ensures '\n' !in value ==> '\n' !in DefaultLine(value)
  {
    QuotedLineIs("default", value);
    assert DefaultLine(value)[0] == 'd';
  }

  /** A quoted line reads back as what it was built from. */
  lemma QuotedLineIs(key: string, value: string)
    requires key != "" && !IsGoSpace(key[0])
    ensures Trim(QuotedLine(key, value), Go) == QuotedLine(key, value)
    ensures StartsWith(QuotedLine(key, value), Opening(key))
    ensures Offers(QuotedLine(key, value), key) && ValueIn(QuotedLine(key, value), key) == Value(value)
    ensures QuotedLine(key, value)[0] == key[0]
    ensures '\n' !in key && '\n' !in value ==> '\n' !in QuotedLine(key, value)
  {
    var l := QuotedLine(key, value);
    assert l[0] == key[0] && l[|l| - 1] == '"';
    TrimIdentity(l, Go);
    assert l[..|Opening(key)|] == Opening(key);
    assert l[|Opening(key)|..|l| - 1] == value;
  }

  lemma SetBodyNonEmpty(lines: seq<string>, value: string)
    ensures SetBody(NonEmpty(lines), value) == NonEmpty(SetBody(lines, value))
  {
    DefaultLineIs(value);
    assert !Assigns("");
    NonEmptyHasSome(lines, Assigns);
    OverwrittenNonEmpty(lines, Assigns, DefaultLine(value));
    NonEmptyCons(DefaultLine(value), lines);
  }

  lemma SetBodyLines(lines: seq<string>, value: string)
    requires LineFree(lines) && '\n' !in value
    ensures LineFree(SetBody(lines, value))
    ensures SetBody(lines, value) != []
    ensures SetBody(lines + [""], value) == SetBody(lines, value) + [""]
  {
    DefaultLineIs(value);
    assert !Assigns("");
    OverwrittenLines(lines, Assigns, DefaultLine(value));
    OverwrittenAppend(lines, [""], Assigns, DefaultLine(value));
    assert SomeIs(lines + [""], Assigns) <==> SomeIs(lines, Assigns);
  }

  /** The lines of a text with the default set. */
  function WithDefault(lines: seq<string>, value: string): seq<string> {
    match PartsOf(lines, Models)
    case None => [MODELS, DefaultLine(value)] + lines
    case Some(p) => p.before + [p.header] + SetBody(p.body, value) + p.after
  }

  /** The body of a section as lines: text that goes on ends each of them with LF. */
  lemma BodyLines(body: seq<string>, last: bool)
    requires LineFree(body) && (last ==> body != [])
    ensures Split(Block(body, last)) == if last then body else body + [""]
  {
    if last {
      SplitJoin(body);
    } else {
      SplitTerminated(body, "");
      assert Terminated(body) + "" == Terminated(body) && Split("") == [""];
    }
  }

  lemma NewBodyIs(t: string, s: Span, body: seq<string>, last: bool, value: string)
    requires s.bodyStart <= s.end <= |t| && t[s.bodyStart..s.end] == Block(body, last)
    requires LineFree(body) && '\n' !in value
    requires if last then body != [] && s.end == |t| else 0 < s.end && t[s.end - 1] == '\n'
    ensures NewBody(t, s, value) == Block(SetBody(body, value), last)
  {
    BodyLines(body, last);
    SetBodyLines(body, value);
    if !last {
      var b := SetBody(body, value);
      JoinCut(b, [""]);
      assert Terminated(b) + "" == Terminated(b);
    }
  }

  lemma EndedBefore(t: string, p: Parts)
    requires t == Join(Whole(p)) && p.after != []
    ensures var s := SpanOf(t, p); 0 < s.end <= |t| && t[s.end - 1] == '\n'
  {
    EndsInLf(p.before + [p.header] + p.body, p.after);
  }

  lemma EndsInLf(lines: seq<string>, after: seq<string>)
    requires lines != [] && after != []
    ensures var t, n := Join(lines + after), |Terminated(lines)|; 0 < n <= |t| && t[n - 1] == '\n'
  {
    JoinCut(lines, after);
    TerminatedEnded(lines);
  }

  /** Setting the default changes or adds that one line, and nothing else. */
  lemma CoreOfSetDefault(t: string, value: string)
    requires '\n' !in value && SetModelsDefault(t, value).Some?
    ensures Core(SetModelsDefault(t, value).value) == WithDefault(Core(t), value)
  {
    PartsOfNonEmpty(Split(t), Models);
    match PartsOf(Split(t), Models)
    case None =>
      NewBlock(t, value);
    case Some(p) =>
      EmptyLineIsNoHeader(Models);
      PartsOfCuts(Split(t), Models);
      CoreOfBlock(t, Models, p);
      SetBodyLines(p.body, value);
      SetText(t, p, value);
      CoreOfReplaced(p, SetBody(p.body, value));
      SetBodyNonEmpty(p.body, value);
  }

  /** The text with the default set, put together from its parts. */
  lemma SetText(t: string, p: Parts, value: string)
    requires PartsOf(Split(t), Models) == Some(p) && '\n' !in value && SetModelsDefault(t, value).Some?
    ensures SetModelsDefault(t, value).value
            == Terminated(p.before + [p.header]) + Block(SetBody(p.body, value), p.after == []) + Block(p.after, true)
  {
    TextIsWhole(t, Models, p);
    TextAround(t, p);
    CoreOfBlock(t, Models, p);
    SetTextOf(t, p, value);
  }

  lemma SetTextOf(t: string, p: Parts, value: string)
    requires t == Join(Whole(p)) && (p.body != [] || p.after != []) && LineFree(p.body) && '\n' !in value
    ensures var s := SpanOf(t, p);
            && s.bodyStart <= s.end <= |t|
            && t[..s.bodyStart] + NewBody(t, s, value) + t[s.end..]
               == Terminated(p.before + [p.header]) + Block(SetBody(p.body, value), p.after == []) + Block(p.after, true)
  {
    BodyText(t, p);
    if p.after != [] { EndedBefore(t, p); }
    NewBodyIs(t, SpanOf(t, p), p.body, p.after == [], value);
  }

  lemma CoreOfReplaced(p: Parts, body: seq<string>)
    requires LineFree(p.before) && '\n' !in p.header && p.header != "" && LineFree(p.after) && LineFree(body) && body != []
    ensures Core(Terminated(p.before + [p.header]) + Block(body, p.after == []) + Block(p.after, true))
            == NonEmpty(p.before) + [p.header] + NonEmpty(body) + NonEmpty(p.after)
  {
    var top := p.before + [p.header];
    NonEmptyAppend(p.before, [p.header]);
    NonEmptyCons(p.header, []);
    CoreOfBlocks(body, p.after);
    var rest := Block(body, p.after == []) + Block(p.after, true);
    CoreOfTerminated(top, rest);
    Regrouped(Terminated(top), Block(body, p.after == []), Block(p.after, true));
    Regrouped(NonEmpty(p.before) + [p.header], NonEmpty(body), NonEmpty(p.after));
  }

  lemma CoreOfBlocks(body: seq<string>, after: seq<string>)
    requires LineFree(body) && LineFree(after) && body != []
    ensures Core(Block(body, after == []) + Block(after, true)) == NonEmpty(body) + NonEmpty(after)
  {
    if after == [] {
      CoreOfLines(body, true);
      assert Block(body, true) + "" == Block(body, true);
    } else {
      CoreOfLines(after, true);
      CoreOfTerminated(body, Block(after, true));
    }
  }

  lemma NewBlock(t: string, value: string)
    requires '\n' !in value
    ensures Core(MODELS + "\n" + DefaultLine(value) + "\n\n" + t) == [MODELS, DefaultLine(value)] + Core(t)
  {
    DefaultLineIs(value);
    NewLines(DefaultLine(value), t);
  }

  lemma NewLines(l: string, t: string)
    requires '\n' !in l && l != ""
    ensures Core(MODELS + "\n" + l + "\n\n" + t) == [MODELS, l] + Core(t)
  {
    var rest := "\n" + t;
    CoreAfterNewlines(rest, 1);
    CoreOfFirst(l, rest);
    CoreOfFirst(MODELS, l + "\n" + rest);
    assert MODELS + "\n" + l + "\n\n" + t == MODELS + "\n" + (l + "\n" + rest);
    assert [MODELS] + ([l] + Core(t)) == [MODELS, l] + Core(t);
  }

  lemma CoreOfFirst(l: string, rest: string)
    requires '\n' !in l && l != ""
    ensures Core(l + "\n" + rest) == [l] + Core(rest)
  {
    SplitFirst(l, rest);
    NonEmptyCons(l, Split(rest));
  }

  // ---- the default that is read afterwards ----

  lemma {:induction false} FieldAfterOverwriting(lines: seq<string>, value: string)
    requires SomeIs(lines, Assigns)
    ensures FieldOf(Overwritten(lines, Assigns, DefaultLine(value)), "default") == Value(value)
  {
    DefaultLineIs(value);
    if !Assigns(lines[0]) {
      var l :| l in lines && Assigns(l);
      assert l in lines[1..];
      FieldAfterOverwriting(lines[1..], value);
      assert Overwritten(lines, Assigns, DefaultLine(value))[1..] == Overwritten(lines[1..], Assigns, DefaultLine(value));
    }
  }

  /** Whatever the text was, the default read from it afterwards is the one that was set. */
  lemma DefaultIsSet(lines: seq<string>, value: string)
    ensures DefaultOf(WithDefault(lines, value)) == Value(value)
  {
    PartsOfCuts(lines, Models);
    DefaultLineIs(value);
    match PartsOf(lines, Models)
    case None =>
      BlockInFront(lines, value);
    case Some(p) =>
      if SomeIs(p.body, Assigns) { FieldAfterOverwriting(p.body, value); }
      SetPartsAre(p, value);
  }

  lemma SetPartsAre(p: Parts, value: string)
    requires FirstSection(p, Models)
    ensures PartsOf(p.before + [p.header] + SetBody(p.body, value) + p.after, Models) == Some(p.(body := SetBody(p.body, value)))
  {
    DefaultLineIs(value);
    OverwrittenLines(p.body, Assigns, DefaultLine(value));
    var q := p.(body := SetBody(p.body, value));
    assert Whole(q) == p.before + [p.header] + SetBody(p.body, value) + p.after;
    PartsOfIs(q, Models);
  }

  /** The section that a new block begins: its own line, and whatever comes before the first header. */
  lemma BlockParts(lines: seq<string>, value: string) returns (body: seq<string>, after: seq<string>)
    ensures body + after == lines
    ensures PartsOf([MODELS, DefaultLine(value)] + lines, Models) == Some(Parts([], MODELS, [DefaultLine(value)] + body, after))
  {
    DefaultLineIs(value);
    body, after := BlockPartsOf(lines, DefaultLine(value));
  }

  lemma BlockPartsOf(lines: seq<string>, l: string) returns (body: seq<string>, after: seq<string>)
    requires !IsHeader(l)
    ensures body + after == lines
    ensures PartsOf([MODELS, l] + lines, Models) == Some(Parts([], MODELS, [l] + body, after))
  {
    ModelsIsModels();
    body, after := CutAtHeader(lines);
    var p := Parts([], MODELS, [l] + body, after);
    assert Whole(p) == [MODELS, l] + (body + after);
    PartsOfIs(p, Models);
  }

  lemma CutAtHeader(lines: seq<string>) returns (body: seq<string>, after: seq<string>)
    ensures body + after == lines && NoHeader(body) && (after == [] || IsHeader(after[0]))
  {
    var n := UpTo(lines, IsHeader);
    UpToCuts(lines, IsHeader);
    body, after := lines[..n], lines[n..];
  }

  lemma ModelsIsModels()
    ensures Is(Models, MODELS)
  {
    TrimIdentity(MODELS, Go);
  }

  lemma BlockInFront(lines: seq<string>, value: string)
    ensures DefaultOf([MODELS, DefaultLine(value)] + lines) == Value(value)
  {
    DefaultLineIs(value);
    var body, after := BlockParts(lines, value);
  }
}
