/**
 Applying the proxy to Grok's configuration and taking it back (internal/clitools/grok.go).

 Applying remembers the user's default model in a marker line, writes the proxy's section and
 makes the proxy the default; a reset removes the section, strikes out the marker and puts the
 remembered default back. Here are the operations, and what they need to know of the lines
 around them.
 */
module GrokConfig {
  import opened Wrappers
  import opened Text
  import opened TomlLines
  import opened GrokSections
  import opened GrokDefault
  import opened GrokMarker

  const BUILTIN := "grok-build"

  function DefaultRead(t: string): Found { if HeaderUnclosed(t) then OutOfRange else DefaultOf(Core(t)) }

  predicate Ours(d: string) { d == PROXY || d == LEGACY }

  /** grokRememberPrevDefault; None where a slice is out of range. */
  function RememberPrevDefault(t: string): Option<string> {
    if FirstMarker(t).Some? then Some(t)
    else match DefaultRead(t)
         case OutOfRange => None
         case Absent => Some(t)
         case Value(d) => if d == "" || Ours(d) then Some(t) else Some(WithMarker(t, MarkerLine(d) + "\n"))
  }

  function WithMarker(t: string, marker: string): string {
    match Find(t, ProxyModel)
    case Some(s) => t[..s.start] + marker + t[s.start..s.end] + t[s.end..]
    case None => WithNewline(t) + marker
  }

  function RestoreTo(t: string): string {
    match FirstMarker(t)
    case Some(v) => if Trim(v, Go) != "" then v else BUILTIN
    case None => BUILTIN
  }

  /** grokClearModelsDefaultIfOurs; None where a slice is out of range. */
  function ClearModelsDefaultIfOurs(t: string): Option<string> {
    var next := StripMarkers(t);
    match DefaultRead(next)
    case OutOfRange => None
    case Absent => Some(next)
    case Value(d) => if Ours(d) then SetModelsDefault(next, RestoreTo(t)) else Some(next)
  }

  datatype Request = Request(model: string, baseURL: string, apiKey: string)

  function SectionOf(r: Request): string { BuildModelSection(r.model, r.baseURL, r.apiKey) }
  function LinesOf(r: Request): seq<string> { SectionLines(r.model, r.baseURL, r.apiKey) }

  /** grokApply's new text; None when nothing is written. */
  function Applied(t: string, r: Request): Option<string> {
    if r.model == "" || r.baseURL == "" || r.apiKey == "" then None
    else match RememberPrevDefault(t)
         case None => None
         case Some(u) => SetModelsDefault(UpsertModelSection(u, SectionOf(r)), PROXY)
  }

  /** One application after another. */
  function AppliedAll(t: string, rs: seq<Request>): Option<string> {
    if rs == [] then Some(t)
    else match AppliedAll(t, rs[..|rs| - 1])
         case None => None
         case Some(u) => Applied(u, rs[|rs| - 1])
  }

  /** grokReset's new text; an empty one stands for the removed file. */
  function Reset(t: string): Option<string> {
    match ClearModelsDefaultIfOurs(RemoveModelSection(t))
    case None => None
    case Some(u) => Some(var v := Trim(u, Go); if v == "" then "" else WithNewline(v))
  }

  predicate Proper(r: Request) {
    && r.model != "" && r.baseURL != "" && r.apiKey != ""
    && '\n' !in r.model && '\n' !in r.baseURL && '\n' !in r.apiKey
  }

  // ---- the default among lines that are added to ----

  predicate HasDefault(lines: seq<string>) {
    PartsOf(lines, Models).Some? && SomeIs(PartsOf(lines, Models).value.body, Assigns)
  }

  lemma PartsAppend(lines: seq<string>, more: seq<string>) returns (extra: seq<string>, rest: seq<string>)
    requires PartsOf(lines, Models).Some?
    ensures var p := PartsOf(lines, Models).value;
            && lines == Whole(p) && FirstSection(p, Models)
            && extra + rest == (if p.after == [] then more else [])
            && PartsOf(lines + more, Models) == Some(p.(body := p.body + extra, after := if p.after == [] then rest else p.after + more))
  {
    var p := PartsOf(lines, Models).value;
    PartsOfCuts(lines, Models);
    if p.after == [] {
      var n := UpTo(more, IsHeader);
      UpToCuts(more, IsHeader);
      extra, rest := more[..n], more[n..];
      var q := p.(body := p.body + extra, after := rest);
      assert Whole(q) == lines + more;
      PartsOfIs(q, Models);
    } else {
      extra, rest := [], [];
      var q := p.(after := p.after + more);
      assert p.body + [] == p.body;
      assert Whole(q) == lines + more;
      PartsOfIs(q, Models);
    }
  }

  /** Lines added at the end change neither the default nor how it is set. */
  lemma DefaultAppend(lines: seq<string>, more: seq<string>, value: string)
    requires HasDefault(lines)
    ensures WithDefault(lines + more, value) == WithDefault(lines, value) + more
    ensures HasDefault(lines + more)
  {
    var p := PartsOf(lines, Models).value;
    var extra, rest := PartsAppend(lines, more);
    SetBodyAppend(p.body, extra, value);
    var top, b := p.before + [p.header], SetBody(p.body, value);
    Regroup(top, b, extra, rest, p.after, more);
  }

  lemma Regroup(top: seq<string>, b: seq<string>, extra: seq<string>, rest: seq<string>, after: seq<string>, more: seq<string>)
    requires extra + rest == if after == [] then more else []
    ensures top + (b + extra) + (if after == [] then rest else after + more) == top + b + after + more
  {
    if after == [] {
      assert top + (b + extra) + rest == top + b + (extra + rest);
    } else {
      assert extra == [];
      assert top + b + (after + more) == top + b + after + more;
    }
  }

  lemma SetBodyAppend(a: seq<string>, b: seq<string>, value: string)
    requires SomeIs(a, Assigns)
    ensures SomeIs(a + b, Assigns) && SetBody(a + b, value) == SetBody(a, value) + b
  {
    SomeIsAppend(a, b);
    OverwrittenAppend(a, b, Assigns, DefaultLine(value));
  }

  lemma SomeIsAppend(a: seq<string>, b: seq<string>)
    requires SomeIs(a, Assigns)
    ensures SomeIs(a + b, Assigns)
  {
    var l :| l in a && Assigns(l);
    assert l in a + b;
  }

  lemma ReadAppend(lines: seq<string>, more: seq<string>)
    requires !DefaultOf(lines).Absent?
    ensures DefaultOf(lines + more) == DefaultOf(lines)
  {
    var p := PartsOf(lines, Models).value;
    var extra, rest := PartsAppend(lines, more);
    FieldOfFirst(p.body, extra, "default");
  }

  lemma {:induction false} OfferedIsAssigned(lines: seq<string>)
    requires !FieldOf(lines, "default").Absent?
    ensures SomeIs(lines, Assigns)
  {
    if Offers(lines[0], "default") {
      assert Assigns(lines[0]);
    } else {
      OfferedIsAssigned(lines[1..]);
      var l :| l in lines[1..] && Assigns(l);
      assert l in lines;
    }
  }

  lemma ReadIsSet(lines: seq<string>)
    requires !DefaultOf(lines).Absent?
    ensures HasDefault(lines)
  {
    OfferedIsAssigned(PartsOf(lines, Models).value.body);
  }

  lemma SetHasDefault(lines: seq<string>, value: string)
    ensures HasDefault(WithDefault(lines, value)) && DefaultOf(WithDefault(lines, value)) == Value(value)
  {
    DefaultIsSet(lines, value);
    ReadIsSet(WithDefault(lines, value));
  }

  /** The later setting wins, exactly as if the earlier had not been. */
  lemma DefaultTwice(lines: seq<string>, first: string, second: string)
    ensures WithDefault(WithDefault(lines, first), second) == WithDefault(lines, second)
  {
    PartsOfCuts(lines, Models);
    DefaultLineIs(first);
    match PartsOf(lines, Models)
    case None => BlockTwice(lines, first, second);
    case Some(p) =>
      SetPartsAre(p, first);
      SetBodyTwice(p.body, first, second);
  }

  lemma SetBodyTwice(body: seq<string>, first: string, second: string)
    ensures SetBody(SetBody(body, first), second) == SetBody(body, second)
  {
    DefaultLineIs(first);
    if SomeIs(body, Assigns) {
      OverwrittenTwice(body, Assigns, DefaultLine(first), DefaultLine(second));
    } else {
      SetFirstLine(body, first, second);
    }
  }

  lemma BlockTwice(lines: seq<string>, first: string, second: string)
    ensures WithDefault([MODELS, DefaultLine(first)] + lines, second) == [MODELS, DefaultLine(second)] + lines
  {
    var body, after := BlockParts(lines, first);
    SetFirstLine(body, first, second);
    BlockAround(DefaultLine(second), body, after);
  }

  lemma SetFirstLine(body: seq<string>, first: string, second: string)
    ensures SetBody([DefaultLine(first)] + body, second) == [DefaultLine(second)] + body
  {
    DefaultLineIs(first);
    OverwrittenCons(DefaultLine(first), body, Assigns, DefaultLine(second));
    SomeIsCons(DefaultLine(first), body, Assigns);
  }

  lemma BlockAround(l: string, body: seq<string>, after: seq<string>)
    ensures [] + [MODELS] + ([l] + body) + after == [MODELS, l] + (body + after)
  {
  }

  lemma {:induction false} OverwrittenTwice(lines: seq<string>, f: string -> bool, first: string, second: string)
    requires SomeIs(lines, f) && f(first)
    ensures SomeIs(Overwritten(lines, f, first), f)
    ensures Overwritten(Overwritten(lines, f, first), f, second) == Overwritten(lines, f, second)
  {
    var l, rest := lines[0], lines[1..];
    assert lines == [l] + rest;
    OverwrittenCons(l, rest, f, first);
    OverwrittenCons(l, rest, f, second);
    if f(l) {
      OverwrittenCons(first, rest, f, second);
      assert first in [first] + rest;
    } else {
      OverwrittenTwice(rest, f, first, second);
      var o := Overwritten(rest, f, first);
      OverwrittenCons(l, o, f, second);
      var k :| k in o && f(k);
      assert k in [l] + o;
    }
  }

  /** Something follows the [models] header, if there is one. */
  predicate HeaderFollowed(lines: seq<string>) {
    match PartsOf(lines, Models) case None => true case Some(p) => p.body != [] || p.after != []
  }

  /** A text with something after its [models] header has the header ended by LF. */
  lemma NothingOutOfRange(t: string, value: string)
    requires HeaderFollowed(Core(t))
    ensures !HeaderUnclosed(t) && SetModelsDefault(t, value).Some?
  {
    PartsOfNonEmpty(Split(t), Models);
    match PartsOf(Split(t), Models)
    case None =>
    case Some(p) =>
      assert p.body != [] || p.after != [];
      TextIsWhole(t, Models, p);
      TextAround(t, p);
      BodyText(t, p);
  }

  lemma DefaultIsFollowed(lines: seq<string>)
    requires HasDefault(lines)
    ensures HeaderFollowed(lines)
  {
  }

  /** A section added at the end, whether there is a default above it or not. */
  lemma DefaultAboveSection(lines: seq<string>, section: seq<string>, value: string)
    requires section != [] && IsHeader(section[0]) && NoneIs(Models, section)
    ensures WithDefault(lines + section, value) == WithDefault(lines, value) + section
    ensures HeaderFollowed(lines + section)
  {
    PartsOfCuts(lines, Models);
    match PartsOf(lines, Models)
    case None =>
      NoPartsIs(lines + section, Models);
      assert [MODELS, DefaultLine(value)] + (lines + section) == [MODELS, DefaultLine(value)] + lines + section;
    case Some(p) =>
      var q := p.(after := p.after + section);
      assert Whole(q) == lines + section;
      PartsOfIs(q, Models);
      assert p.before + [p.header] + SetBody(p.body, value) + (p.after + section)
             == p.before + [p.header] + SetBody(p.body, value) + p.after + section;
  }

  // ---- the shape of a configured text ----

  /** The line that remembers a default, if it is worth remembering. */
  function Memory(d: string): seq<string> { if d == "" || Ours(d) then [] else [MarkerLine(d)] }

  /** A user's lines: no proxy section, no marker, and d as default or none at all, for which d is empty. */
  ghost predicate UserText(lines: seq<string>, d: string) {
    && NoneIs(ProxyModel, lines) && NoneMarked(lines) && LineFree(lines) && "" !in lines
    && (DefaultOf(lines) == Value(d) || (DefaultOf(lines).Absent? && d == ""))
  }

  /** A user's text that can be read without a slice out of range. */
  ghost predicate UserFile(t: string, d: string) { UserText(Core(t), d) && !HeaderUnclosed(t) }

  function Own(lines: seq<string>): seq<string> { WithDefault(lines, PROXY) }

  /** What applying leaves: the user's lines with the proxy as default, the memory, the section. */
  ghost predicate Configured(t: string, lines: seq<string>, d: string, r: Request) {
    Core(t) == Own(lines) + Memory(d) + LinesOf(r)
  }

  lemma MarkerLineIs(d: string)
    requires '\n' !in d
    ensures var m := MarkerLine(d);
            && !Is(ProxyModel, m) && '\n' !in m && m != "" && Marked(m) && Closed(m)
  {
    MarkerLineMatches(d);
    var m := MarkerLine(d);
    assert m[0] == '#' && m[|m| - 1] == '"';
    TrimIdentity(m, Go);
  }

  lemma DefaultLineUnmarked(value: string)
    ensures !Marked(DefaultLine(value))
  {
    assert DefaultLine(value)[0] == 'd';
  }

  /** Setting a default keeps the other lines, so no section, marker or line break comes in. */
  lemma WithDefaultLines(lines: seq<string>, value: string)
    ensures forall l :: l in WithDefault(lines, value) ==> l in lines || l == DefaultLine(value) || l == MODELS
  {
    PartsOfCuts(lines, Models);
    match PartsOf(lines, Models)
    case None =>
    case Some(p) =>
      OverwrittenLines(p.body, Assigns, DefaultLine(value));
      forall l | l in WithDefault(lines, value) ensures l in lines || l == DefaultLine(value) {
        assert l in p.before || l == p.header || l in SetBody(p.body, value) || l in p.after;
      }
  }

  lemma ModelsLineIs()
    ensures !Is(ProxyModel, MODELS) && !Marked(MODELS) && '\n' !in MODELS && MODELS != ""
  {
    TrimIdentity(MODELS, Go);
    assert MODELS[0] == '[' && MODELS[6] == 's';
  }

  lemma OwnLines(lines: seq<string>, d: string, value: string)
    requires UserText(lines, d) && '\n' !in value
    ensures var own := WithDefault(lines, value);
            NoneIs(ProxyModel, own) && NoneMarked(own) && LineFree(own) && "" !in own && HasDefault(own) && DefaultOf(own) == Value(value)
  {
    ModelsLineIs();
    WithDefaultLines(lines, value);
    DefaultLineIs(value);
    DefaultLineUnmarked(value);
    SetHasDefault(lines, value);
  }

  /** The default of a text is the text of one of its lines. */
  lemma {:induction false} ReadIsLineFree(lines: seq<string>, key: string)
    requires LineFree(lines) && FieldOf(lines, key).Value?
    ensures '\n' !in FieldOf(lines, key).text
  {
    if Offers(lines[0], key) {
      TrimKeeps(lines[0]);
      var l := Trim(lines[0], Go);
      var v := FieldOf(lines, key).text;
      assert v == l[|Opening(key)|..|l| - 1] && lines[0] in lines;
      assert forall c :: c in v ==> c in l;
    } else {
      ReadIsLineFree(lines[1..], key);
    }
  }

  lemma TrimKeeps(s: string)
    ensures forall c :: c in Trim(s, Go) ==> c in s
  {
    TrimLeftLeavesAnEnd(s);
    TrimRightKeeps(TrimLeft(s, Go));
  }

  lemma {:induction false} TrimRightKeeps(s: string)
    ensures forall c :: c in TrimRight(s, Go) ==> c in s
  {
    if s != "" && IsGoSpace(s[|s| - 1]) { TrimRightKeeps(s[..|s| - 1]); }
  }

  lemma DefaultIsLineFree(lines: seq<string>, d: string)
    requires UserText(lines, d)
    ensures '\n' !in d
  {
    if DefaultOf(lines).Value? {
      PartsOfCuts(lines, Models);
      var p := PartsOf(lines, Models).value;
      forall l | l in p.body ensures '\n' !in l { assert l in Whole(p); }
      ReadIsLineFree(p.body, "default");
    }
  }
}
