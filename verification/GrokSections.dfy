/**
 Sections of Grok's configuration text: found by offsets, replaced, removed, and their
 quoted values read and written (internal/clitools/grok.go).

 The editor works on byte offsets of whole lines. Here a section is the lines before, its
 header, its body and the lines after it; the offsets are shown to cut the text into just
 these, and every operation is related to them.
 */
module GrokSections {
  import opened Wrappers
  import opened Text
  import opened TomlLines

  const PROXY := "tproxy"
  const LEGACY := "9router"
  const MODELS := "[models]"

  predicate StartsWith(s: string, p: string) { |p| <= |s| && s[..|p|] == p }
  predicate EndsWith(s: string, c: char) { s != "" && s[|s| - 1] == c }

  function ModelHeader(key: string): string { "[model." + key + "]" }

  // ---- header lines ----

  /** A line that ends the section before it. */
  predicate IsHeader(line: string) {
    var l := Trim(line, Go);
    StartsWith(l, "[") && EndsWith(l, ']')
  }

  datatype Kind = ProxyModel | Models

  predicate Is(kind: Kind, line: string) {
    var l := Trim(line, Go);
    match kind
    case ProxyModel => StartsWith(l, ModelHeader(PROXY)) || StartsWith(l, ModelHeader(LEGACY))
    case Models => l == MODELS
  }

  predicate NoneIs(kind: Kind, lines: seq<string>) { forall l :: l in lines ==> !Is(kind, l) }
  predicate NoHeader(lines: seq<string>) { forall l :: l in lines ==> !IsHeader(l) }

  lemma EmptyLineIsNoHeader(kind: Kind)
    ensures !Is(kind, "") && !IsHeader("")
  {
  }

  // ---- a section among the lines ----

  function IsOf(kind: Kind): string -> bool { (l: string) => Is(kind, l) }

  /** The lines cut at the first section of a kind. */
  function PartsOf(lines: seq<string>, kind: Kind): Option<Parts> { PartsBy(lines, IsOf(kind), IsHeader) }

  /** What it means to be the first section of a kind. */
  ghost predicate FirstSection(p: Parts, kind: Kind) {
    && NoneIs(kind, p.before)
    && Is(kind, p.header)
    && NoHeader(p.body)
    && (p.after == [] || IsHeader(p.after[0]))
  }

  lemma PartsOfIs(p: Parts, kind: Kind)
    requires FirstSection(p, kind)
    ensures PartsOf(Whole(p), kind) == Some(p)
  {
    PartsByIs(p, IsOf(kind), IsHeader);
  }

  lemma PartsOfCuts(lines: seq<string>, kind: Kind)
    ensures PartsOf(lines, kind).None? ==> NoneIs(kind, lines)
    ensures PartsOf(lines, kind).Some? ==> FirstSection(PartsOf(lines, kind).value, kind) && Whole(PartsOf(lines, kind).value) == lines
  {
    PartsByCuts(lines, IsOf(kind), IsHeader);
  }

  lemma NoPartsIs(lines: seq<string>, kind: Kind)
    requires NoneIs(kind, lines)
    ensures PartsOf(lines, kind).None?
  {
    PartsOfCuts(lines, kind);
  }

  function NonEmptyParts(p: Parts): Parts { Parts(NonEmpty(p.before), p.header, NonEmpty(p.body), NonEmpty(p.after)) }

  /** Empty lines have no say in where a section is. */
  lemma PartsOfNonEmpty(lines: seq<string>, kind: Kind)
    ensures PartsOf(NonEmpty(lines), kind) ==
            match PartsOf(lines, kind) case None => None case Some(p) => Some(NonEmptyParts(p))
  {
    PartsOfCuts(lines, kind);
    match PartsOf(lines, kind)
    case None =>
      NonEmptyHasTheLines(lines);
      NoPartsIs(NonEmpty(lines), kind);
    case Some(p) =>
      NonEmptyOfWhole(p, kind);
      NonEmptyHasTheLines(p.before);
      NonEmptyHasTheLines(p.body);
      if p.after != [] { EmptyLineIsNoHeader(kind); }
      PartsOfIs(NonEmptyParts(p), kind);
  }

  lemma NonEmptyOfWhole(p: Parts, kind: Kind)
    requires Is(kind, p.header)
    ensures NonEmpty(Whole(p)) == Whole(NonEmptyParts(p))
  {
    EmptyLineIsNoHeader(kind);
    assert [p.header][1..] == [];
    NonEmptyAppend(p.before, [p.header]);
    NonEmptyAppend(p.before + [p.header], p.body);
    NonEmptyAppend(p.before + [p.header] + p.body, p.after);
  }

  // ---- the same section as offsets into the text ----

  datatype Span = Span(start: nat, bodyStart: nat, end: nat)

  function Find(t: string, kind: Kind): (r: Option<Span>)
    ensures r.Some? ==> r.value.start <= r.value.end <= |t| && r.value.start < r.value.bodyStart <= |t| + 1
  {
    match PartsOf(Split(t), kind)
    case None => None
    case Some(p) =>
      TextIsWhole(t, kind, p);
      TextAround(t, p);
      Some(SpanOf(t, p))
  }

  function SpanOf(t: string, p: Parts): Span {
    var start := |Terminated(p.before)|;
    Span(start, start + |p.header| + 1, if p.after == [] then |t| else |Terminated(p.before + [p.header] + p.body)|)
  }

  function Block(lines: seq<string>, last: bool): string { if last then Join(lines) else Terminated(lines) }

  lemma TextIsWhole(t: string, kind: Kind, p: Parts)
    requires PartsOf(Split(t), kind) == Some(p)
    ensures t == Join(Whole(p))
  {
    JoinSplit(t);
    PartsOfCuts(Split(t), kind);
  }

  /** What is before, in and after a section, as text. */
  lemma TextAround(t: string, p: Parts)
    requires t == Join(Whole(p))
    ensures var s := SpanOf(t, p);
            && s.start <= s.end <= |t|
            && t[..s.start] == Terminated(p.before)
            && t[s.start..s.end] == Block([p.header] + p.body, p.after == [])
            && t[s.end..] == Block(p.after, true)
            && s.bodyStart <= |t| + 1
            && (s.bodyStart > |t| <==> p.body == [] && p.after == [])
  {
    TextOf(p);
    HeaderLine(p);
    var a, b, c := Terminated(p.before), Block([p.header] + p.body, p.after == []), Block(p.after, true);
    CutInThree(t, a, b, c);
    if p.after != [] {
      assert p.before + [p.header] + p.body == p.before + ([p.header] + p.body);
      TerminatedAppend(p.before, [p.header] + p.body);
    }
  }

  lemma CutInThree(t: string, a: string, b: string, c: string)
    requires t == a + b + c
    ensures t[..|a|] == a && t[|a|..|a + b|] == b && t[|a + b|..] == c
  {
  }

  lemma TextOf(p: Parts)
    ensures Join(Whole(p)) == Terminated(p.before) + Block([p.header] + p.body, p.after == []) + Block(p.after, true)
  {
    var section := [p.header] + p.body;
    assert Whole(p) == p.before + (section + p.after);
    JoinCut(p.before, section + p.after);
    if p.after == [] {
      assert section + p.after == section;
    } else {
      JoinCut(section, p.after);
    }
  }

  lemma HeaderLine(p: Parts)
    ensures var b := Block([p.header] + p.body, p.after == []);
            if p.body == [] && p.after == [] then |b| == |p.header| else |b| >= |p.header| + 1
  {
    assert ([p.header] + p.body)[1..] == p.body;
  }

  lemma BodyText(t: string, p: Parts)
    requires t == Join(Whole(p)) && (p.body != [] || p.after != [])
    ensures var s := SpanOf(t, p);
            && s.bodyStart <= s.end <= |t|
            && t[..s.bodyStart] == Terminated(p.before + [p.header])
            && t[s.bodyStart..s.end] == Block(p.body, p.after == [])
            && t[s.end..] == Block(p.after, true)
  {
    TextAround(t, p);
    var s := SpanOf(t, p);
    var h, body := p.header + "\n", Block(p.body, p.after == []);
    HeaderAndBody(p);
    TerminatedAppend(p.before, [p.header]);
    TerminatedCons(p.header, []);
    CutAfterHeader(t, s, h, body);
  }

  lemma HeaderAndBody(p: Parts)
    requires p.body != [] || p.after != []
    ensures Block([p.header] + p.body, p.after == []) == p.header + "\n" + Block(p.body, p.after == [])
  {
    assert ([p.header] + p.body)[1..] == p.body;
  }

  lemma CutAfterHeader(t: string, s: Span, h: string, body: string)
    requires s.start <= s.end <= |t| && t[s.start..s.end] == h + body && s.bodyStart == s.start + |h|
    ensures s.bodyStart <= s.end && t[..s.bodyStart] == t[..s.start] + h && t[s.bodyStart..s.end] == body
  {
    var u := t[s.start..s.end];
    assert u[..|h|] == h && u[|h|..] == body;
    assert t[s.bodyStart..s.end] == u[|h|..];
    assert t[..s.bodyStart] == t[..s.start] + u[..|h|];
  }

  /** The first header after line i, and its offset. */
  method NextHeader(lines: seq<string>, i: nat, bodyStart: nat) returns (j: nat, sectionEnd: nat)
    requires i < |lines| && bodyStart == |Terminated(lines[..i + 1])|
    ensures i < j <= |lines| && NoHeader(lines[i + 1..j]) && (j < |lines| ==> IsHeader(lines[j]))
    ensures sectionEnd == |Terminated(lines[..j])|
  {
    j, sectionEnd := i + 1, bodyStart;
    while j < |lines| && !IsHeader(lines[j])
      invariant i + 1 <= j <= |lines|
      invariant NoHeader(lines[i + 1..j])
      invariant sectionEnd == |Terminated(lines[..j])|
    {
      OneMore(lines, j);
      assert lines[i + 1..j + 1] == lines[i + 1..j] + [lines[j]];
      sectionEnd := sectionEnd + |lines[j]| + 1;
      j := j + 1;
    }
  }

  /** The scan for a section, line by line. */
  method FindSection(toml: string, kind: Kind) returns (start: nat, end: nat, bodyStart: nat, ok: bool)
    ensures ok <==> Find(toml, kind).Some?
    ensures ok ==> Find(toml, kind) == Some(Span(start, bodyStart, end))
  {
    var lines := Split(toml);
    var offset, i := 0, 0;
    while i < |lines|
      invariant 0 <= i <= |lines|
      invariant NoneIs(kind, lines[..i])
      invariant offset == |Terminated(lines[..i])|
    {
      OneMore(lines, i);
      if Is(kind, lines[i]) {
        start, bodyStart := offset, offset + |lines[i]| + 1;
        var j, sectionEnd := NextHeader(lines, i, bodyStart);
        FoundAt(toml, kind, i, j);
        return start, if j < |lines| then sectionEnd else |toml|, bodyStart, true;
      }
      offset := offset + |lines[i]| + 1;
      i := i + 1;
    }
    assert lines[..i] == lines;
    NoPartsIs(lines, kind);
    return 0, 0, 0, false;
  }

  lemma OneMore(lines: seq<string>, i: nat)
    requires i < |lines|
    ensures lines[..i + 1] == lines[..i] + [lines[i]]
    ensures |Terminated(lines[..i + 1])| == |Terminated(lines[..i])| + |lines[i]| + 1
  {
    assert lines[..i + 1] == lines[..i] + [lines[i]];
    TerminatedAppend(lines[..i], [lines[i]]);
    assert Terminated([lines[i]]) == lines[i] + "\n";
  }

  lemma FoundAt(t: string, kind: Kind, i: nat, j: nat)
    requires var lines := Split(t);
             && i < j <= |lines|
             && NoneIs(kind, lines[..i]) && Is(kind, lines[i]) && NoHeader(lines[i + 1..j])
             && (j < |lines| ==> IsHeader(lines[j]))
    ensures var lines := Split(t);
            var start := |Terminated(lines[..i])|;
            Find(t, kind) == Some(Span(start, start + |lines[i]| + 1, if j == |lines| then |t| else |Terminated(lines[..j])|))
  {
    var lines := Split(t);
    var p := PartsAt(lines, kind, i, j);
    assert PartsOf(lines, kind) == Some(p);
    assert SpanOf(t, p).end == if j == |lines| then |t| else |Terminated(lines[..j])|;
  }

  lemma PartsAt(lines: seq<string>, kind: Kind, i: nat, j: nat) returns (p: Parts)
    requires i < j <= |lines|
    requires NoneIs(kind, lines[..i]) && Is(kind, lines[i]) && NoHeader(lines[i + 1..j]) && (j < |lines| ==> IsHeader(lines[j]))
    ensures p == Parts(lines[..i], lines[i], lines[i + 1..j], lines[j..]) && PartsOf(lines, kind) == Some(p)
    ensures p.before + [p.header] + p.body == lines[..j]
  {
    p := Parts(lines[..i], lines[i], lines[i + 1..j], lines[j..]);
    assert Whole(p) == lines;
    PartsOfIs(p, kind);
  }

  // ---- quoted values ----

  /** A value slice may be out of range: the line `key = "` both begins and ends with the one quote. */
  datatype Found = Absent | Value(text: string) | OutOfRange

  function Opening(key: string): string { key + " = \"" }
  function QuotedLine(key: string, value: string): string { Opening(key) + value + "\"" }

  predicate Offers(line: string, key: string) { StartsWith(Trim(line, Go), Opening(key)) && EndsWith(Trim(line, Go), '"') }

  function ValueIn(line: string, key: string): Found {
    var l, n := Trim(line, Go), |Opening(key)|;
    if n < |l| then Value(l[n..|l| - 1]) else OutOfRange
  }

  /** The value of a key: from the first line that offers one. */
  function FieldOf(lines: seq<string>, key: string): Found {
    if lines == [] then Absent
    else if Offers(lines[0], key) then ValueIn(lines[0], key)
    else FieldOf(lines[1..], key)
  }

  lemma {:induction false} FieldOfSignature(lines: seq<string>, key: string)
    ensures FieldOf(Signature(lines), key) == FieldOf(lines, key)
  {
    if lines != [] {
      var l := Trim(lines[0], Go);
      FieldOfSignature(lines[1..], key);
      if l == "" {
        assert Signature(lines) == Signature(lines[1..]);
      } else {
        TrimTwice(lines[0]);
        assert Signature(lines)[0] == l && Signature(lines)[1..] == Signature(lines[1..]);
      }
    }
  }

  lemma FieldOfNonEmpty(lines: seq<string>, key: string)
    ensures FieldOf(NonEmpty(lines), key) == FieldOf(lines, key)
  {
    FieldOfSignature(lines, key);
    FieldOfSignature(NonEmpty(lines), key);
    SignatureOfCore(lines);
  }

  lemma {:induction false} FieldOfFirst(a: seq<string>, b: seq<string>, key: string)
    ensures FieldOf(a + b, key) == if FieldOf(a, key).Absent? then FieldOf(b, key) else FieldOf(a, key)
  {
    if a == [] {
      assert a + b == b;
    } else {
      assert (a + b)[1..] == a[1..] + b;
      FieldOfFirst(a[1..], b, key);
    }
  }

  /** The default model among the lines of a text. */
  function DefaultOf(lines: seq<string>): Found {
    match PartsOf(lines, Models)
    case None => Absent
    case Some(p) => FieldOf(p.body, "default")
  }

  predicate HeaderUnclosed(t: string) {
    PartsOf(Split(t), Models).Some? && PartsOf(Split(t), Models).value.body == [] && PartsOf(Split(t), Models).value.after == []
  }

  method ScanFor(lines: seq<string>, key: string) returns (r: Found)
    ensures r == FieldOf(lines, key)
  {
    var i := 0;
    while i < |lines|
      invariant 0 <= i <= |lines|
      invariant FieldOf(lines, key) == FieldOf(lines[i..], key)
    {
      var trimmed := Trim(lines[i], Go);
      if StartsWith(trimmed, Opening(key)) && EndsWith(trimmed, '"') {
        return if |Opening(key)| <= |trimmed| - 1 then Value(trimmed[|Opening(key)|..|trimmed| - 1]) else OutOfRange;
      }
      assert lines[i..][1..] == lines[i + 1..];
      i := i + 1;
    }
    return Absent;
  }

  /** grokParseModelsDefault: a header that ends the text without LF is out of range as well. */
  method ParseModelsDefault(toml: string) returns (r: Found)
    ensures r == if HeaderUnclosed(toml) then OutOfRange else DefaultOf(Core(toml))
  {
    PartsOfNonEmpty(Split(toml), Models);
    var _, end, bodyStart, ok := FindSection(toml, Models);
    if !ok {
      return Absent;
    }
    ghost var p := PartsOf(Split(toml), Models).value;
    TextIsWhole(toml, Models, p);
    TextAround(toml, p);
    if bodyStart > end {
      return OutOfRange;
    }
    BodyText(toml, p);
    var body := Trim(toml[bodyStart..end], Go);
    r := ScanFor(Split(body), "default");
    ContentOfTrim(toml[bodyStart..end]);
    FieldOfSignature(Split(body), "default");
    FieldOfSignature(Split(toml[bodyStart..end]), "default");
    FieldOfNonEmpty(Split(toml[bodyStart..end]), "default");
    FieldOfNonEmpty(p.body, "default");
    CoreOfBlock(toml, Models, p);
  }

  lemma CoreOfBlock(t: string, kind: Kind, p: Parts)
    requires PartsOf(Split(t), kind) == Some(p)
    ensures LineFree(p.before) && LineFree(p.body) && LineFree(p.after) && '\n' !in p.header
    ensures p.body != [] || p.after != [] ==> Core(Block(p.body, p.after == [])) == NonEmpty(p.body)
    ensures Core(Block(p.after, true)) == NonEmpty(p.after)
  {
    PartsOfCuts(Split(t), kind);
    SplitHasNoNewline(t);
    forall l | l in Whole(p) ensures '\n' !in l { }
    forall l | l in p.before ensures '\n' !in l { assert l in Whole(p); }
    forall l | l in p.body ensures '\n' !in l { assert l in Whole(p); }
    forall l | l in p.after ensures '\n' !in l { assert l in Whole(p); }
    assert p.header in Whole(p);
    if p.body != [] || p.after != [] { CoreOfLines(p.body, p.after == []); }
    if p.after != [] { CoreOfLines(p.after, true); } else { assert Split("") == [""]; }
  }

  lemma CoreOfLines(lines: seq<string>, last: bool)
    requires LineFree(lines) && (last ==> lines != [])
    ensures Core(Block(lines, last)) == NonEmpty(lines)
  {
    if last {
      SplitJoin(lines);
    } else {
      CoreOfTerminated(lines, "");
      assert Terminated(lines) + "" == Terminated(lines);
      assert Split("") == [""];
    }
  }

  // ---- writing sections ----

  datatype Field = Field(key: string, value: string)

  /** What a built section says; a blank key is left out. */
  function SectionFields(model: string, baseURL: string, apiKey: string): seq<Field> {
    [Field("model", model), Field("base_url", baseURL), Field("name", "TProxy"),
     Field("description", "Routed via TProxy gateway"), Field("api_backend", "chat_completions")]
    + if Trim(apiKey, Go) != "" then [Field("api_key", apiKey)] else []
  }

  function QuotedLines(fields: seq<Field>): seq<string> {
    if fields == [] then [] else [QuotedLine(fields[0].key, fields[0].value)] + QuotedLines(fields[1..])
  }

  function SectionLines(model: string, baseURL: string, apiKey: string): seq<string> {
    [ModelHeader(PROXY)] + QuotedLines(SectionFields(model, baseURL, apiKey))
  }

  function BuildModelSection(model: string, baseURL: string, apiKey: string): string {
    Join(SectionLines(model, baseURL, apiKey)) + "\n"
  }

  function WithNewline(t: string): string { if t != "" && t[|t| - 1] != '\n' then t + "\n" else t }

  function UpsertModelSection(t: string, section: string): string {
    match Find(t, ProxyModel)
    case Some(s) => t[..s.start] + section + t[s.end..]
    case None => (if t != "" then WithNewline(t) + "\n" else t) + section
  }

  function RemoveModelSection(t: string): string {
    match Find(t, ProxyModel)
    case Some(s) => Collapse(t[..s.start] + t[s.end..])
    case None => t
  }

  // ---- what they do to the content ----

  function Upserted(lines: seq<string>, section: seq<string>): seq<string> {
    match PartsOf(lines, ProxyModel)
    case None => lines + section
    case Some(p) => p.before + section + p.after
  }

  function Removed(lines: seq<string>): seq<string> {
    match PartsOf(lines, ProxyModel)
    case None => lines
    case Some(p) => p.before + p.after
  }

  lemma CoreAround(t: string, kind: Kind)
    requires Find(t, kind).Some?
    ensures var s, p := Find(t, kind).value, PartsOf(Core(t), kind);
            && p.Some?
            && Core(t[..s.start]) == p.value.before && Core(t[s.end..]) == p.value.after
            && Ended(t[..s.start])
  {
    var p := PartsOf(Split(t), kind).value;
    PartsOfNonEmpty(Split(t), kind);
    TextIsWhole(t, kind, p);
    TextAround(t, p);
    CoreOfBlock(t, kind, p);
    TerminatedEnded(p.before);
    CoreOfLines(p.before, false);
  }

  lemma CoreOfWithNewline(t: string)
    ensures Core(WithNewline(t)) == Core(t) && Ended(WithNewline(t))
  {
    CoreOfAnotherLine(t);
  }

  lemma CoreOfUpsert(t: string, section: string)
    requires Ended(section)
    ensures Core(UpsertModelSection(t, section)) == Upserted(Core(t), Core(section))
  {
    PartsOfNonEmpty(Split(t), ProxyModel);
    match Find(t, ProxyModel)
    case Some(s) =>
      CoreAround(t, ProxyModel);
      CoreAppend(t[..s.start] + section, t[s.end..]);
      CoreAppend(t[..s.start], section);
    case None =>
      CoreOfWithNewline(t);
      CoreOfAnotherLine(WithNewline(t));
      CoreAppend(if t != "" then WithNewline(t) + "\n" else t, section);
  }

  lemma CoreOfRemove(t: string)
    ensures Core(RemoveModelSection(t)) == Removed(Core(t))
  {
    PartsOfNonEmpty(Split(t), ProxyModel);
    match Find(t, ProxyModel)
    case Some(s) =>
      CoreAround(t, ProxyModel);
      CoreAppend(t[..s.start], t[s.end..]);
      CoreOfCollapse(t[..s.start] + t[s.end..]);
    case None =>
  }

  // ---- upserting a built section ----

  /** A section text as the editor builds them: a header line first, then lines that are no headers. */
  ghost predicate Section(section: string) {
    && Ended(section) && section != ""
    && var lines := Split(section[..|section| - 1]);
       Is(ProxyModel, lines[0]) && NoHeader(lines[1..])
  }

  lemma SectionIsTerminated(section: string) returns (lines: seq<string>)
    requires Section(section)
    ensures lines != [] && LineFree(lines) && section == Terminated(lines) && Is(ProxyModel, lines[0]) && NoHeader(lines[1..])
  {
    var s := section[..|section| - 1];
    lines := Split(s);
    SplitHasNoNewline(s);
    JoinSplit(s);
    TerminatedIsJoin(lines);
  }

  lemma TerminatedIsJoin(lines: seq<string>)
    requires lines != []
    ensures Terminated(lines) == Join(lines) + "\n"
  {
    JoinCut(lines, [""]);
    JoinAppend(lines, [""]);
    assert Terminated(lines) + "" == Terminated(lines) && Join(lines) + "\n" + "" == Join(lines) + "\n";
  }

  /** What an upserted text looks like, and where its section is found. */
  lemma UpsertPuts(t: string, section: string) returns (before: string, after: string)
    requires Section(section)
    ensures UpsertModelSection(t, section) == before + section + after
    ensures Find(t, ProxyModel).Some? ==> var s := Find(t, ProxyModel).value; before == t[..s.start] && after == t[s.end..]
    ensures Find(t, ProxyModel).None? ==> before == (if t == "" then "" else WithNewline(t) + "\n") && after == ""
    ensures var f := Find(before + section + after, ProxyModel);
            f.Some? && f.value.start == |before| && f.value.end == |before + section|
  {
    var lines := SectionIsTerminated(section);
    PartsOfCuts(Split(t), ProxyModel);
    match PartsOf(Split(t), ProxyModel)
    case Some(p) =>
      var s := Find(t, ProxyModel).value;
      before, after := t[..s.start], t[s.end..];
      TextIsWhole(t, ProxyModel, p);
      TextAround(t, p);
      CoreOfBlock(t, ProxyModel, p);
      SectionAt(p.before, lines, p.after);
    case None =>
      before, after := if t == "" then "" else WithNewline(t) + "\n", "";
      var prior := LinesBefore(t);
      SectionAt(prior, lines, []);
  }

  lemma LinesBefore(t: string) returns (lines: seq<string>)
    requires NoneIs(ProxyModel, Split(t))
    ensures LineFree(lines) && NoneIs(ProxyModel, lines)
    ensures Terminated(lines) == if t == "" then "" else WithNewline(t) + "\n"
  {
    var ls := Split(t);
    SplitHasNoNewline(t);
    JoinSplit(t);
    EmptyLineIsNoHeader(ProxyModel);
    if t == "" {
      lines := [];
    } else {
      TerminatedIsJoin(ls);
      if t[|t| - 1] == '\n' {
        lines := ls;
      } else {
        lines := ls + [""];
        TerminatedAppend(ls, [""]);
        assert Terminated([""]) == "\n";
      }
    }
  }

  lemma SectionAt(before: seq<string>, section: seq<string>, after: seq<string>)
    requires LineFree(before) && LineFree(section) && LineFree(after)
    requires section != [] && NoneIs(ProxyModel, before) && Is(ProxyModel, section[0]) && NoHeader(section[1..])
    requires after == [] || IsHeader(after[0])
    ensures var f := Find(Terminated(before) + Terminated(section) + Block(after, true), ProxyModel);
            f.Some? && f.value.start == |Terminated(before)| && f.value.end == |Terminated(before) + Terminated(section)|
  {
    var t := Terminated(before) + Terminated(section) + Block(after, true);
    var p := SectionParts(before, section, after);
    LinesAround(before, section, after);
    FindIs(t, ProxyModel, p);
    TerminatedAppend(before, section);
    SectionEnds(t, p, before, section);
  }

  lemma SectionParts(before: seq<string>, section: seq<string>, after: seq<string>) returns (p: Parts)
    requires section != [] && NoneIs(ProxyModel, before) && Is(ProxyModel, section[0]) && NoHeader(section[1..])
    requires after == [] || IsHeader(after[0])
    ensures FirstSection(p, ProxyModel) && p.before == before && p.after == after
    ensures Whole(p) == before + section + (if after == [] then [""] else after)
    ensures after != [] ==> before + [p.header] + p.body == before + section
  {
    p := Parts(before, section[0], section[1..] + (if after == [] then [""] else []), after);
    EmptyLineIsNoHeader(ProxyModel);
    assert section == [section[0]] + section[1..];
  }

  lemma FindIs(t: string, kind: Kind, p: Parts)
    requires Split(t) == Whole(p) && FirstSection(p, kind)
    ensures Find(t, kind) == Some(SpanOf(t, p))
  {
    PartsOfIs(p, kind);
  }

  lemma SectionEnds(t: string, p: Parts, before: seq<string>, section: seq<string>)
    requires p.after != [] ==> before + [p.header] + p.body == before + section
    requires p.before == before && (p.after == [] ==> |t| == |Terminated(before + section)|)
    ensures SpanOf(t, p).start == |Terminated(before)| && SpanOf(t, p).end == |Terminated(before + section)|
  {
  }

  lemma LinesAround(before: seq<string>, section: seq<string>, after: seq<string>)
    requires LineFree(before) && LineFree(section) && LineFree(after)
    ensures Split(Terminated(before) + Terminated(section) + Block(after, true)) == before + section + (if after == [] then [""] else after)
  {
    TerminatedAppend(before, section);
    SplitTerminated(before + section, Block(after, true));
    if after != [] { SplitJoin(after); } else { assert Split("") == [""]; }
  }

  /** The later upsert wins, exactly as if the earlier had not been. */
  lemma SecondUpsertWins(t: string, first: string, second: string)
    requires Section(first)
    ensures UpsertModelSection(UpsertModelSection(t, first), second) == UpsertModelSection(t, second)
  {
    var before, after := UpsertPuts(t, first);
    var u := before + first + after;
    assert u[..|before|] == before && u[|before + first|..] == after;
  }
}
