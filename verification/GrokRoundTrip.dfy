/** Applying the proxy any number of times and resetting: when the default comes back, and what is kept (internal/clitools/grok.go). */
module GrokRoundTrip {
  import opened Collections
  import opened Wrappers
  import opened Text
  import opened TomlLines
  import opened GrokSections
  import opened GrokDefault
  import opened GrokModelSection
  import opened GrokMarker
  import opened GrokConfig

  // ---- applying ----

  lemma MemoryIs(d: string)
    requires '\n' !in d
    ensures LineFree(Memory(d)) && "" !in Memory(d) && NoneIs(ProxyModel, Memory(d)) && AllClosed(Memory(d))
    ensures FirstValue(Memory(d)) == if d == "" || Ours(d) then None else Some(d[..IndexOf(d, '"')])
  {
    MarkerLineIs(d);
    MarkerLineMatches(d);
    MapCons(MarkerLine(d), [], RemnantLines, ValueOn);
  }

  lemma UnmarkedIsClosed(lines: seq<string>)
    requires NoneMarked(lines)
    ensures AllClosed(lines)
  {
  }

  /** Which marker is seen in a text whose only marked line is the memory. */
  lemma MarkerSeen(t: string, before: seq<string>, d: string)
    requires Core(t) == before + Memory(d) && NoneMarked(before) && '\n' !in d
    ensures FirstMarker(t) == if d == "" || Ours(d) then None else Some(d[..IndexOf(d, '"')])
    ensures Core(StripMarkers(t)) == NonEmpty(before) + Stripped(Memory(d))
  {
    MemoryIs(d);
    UnmarkedIsClosed(before);
    ClosedLines(t);
    CoreOfStrip(t);
    StrippedNonEmpty(Split(t));
    StrippedUnmarked(before, Memory(d));
  }

  lemma ClosedLines(t: string)
    requires AllClosed(Core(t))
    ensures AllClosed(Split(t))
  {
    NonEmptyHasTheLines(Split(t));
    forall l | l in Split(t) ensures Closed(l) {
      if l != "" { assert l in Core(t); }
    }
  }

  /** Remembering the default of a text that has no section yet. */
  lemma RememberFirst(t: string, d: string)
    requires UserFile(t, d)
    ensures RememberPrevDefault(t).Some?
    ensures Core(RememberPrevDefault(t).value) == Core(t) + Memory(d)
  {
    var lines := Core(t);
    DefaultIsLineFree(lines, d);
    PartsOfNonEmpty(Split(t), ProxyModel);
    NoPartsIs(lines, ProxyModel);
    NoMarkerSeen(t);
    assert DefaultRead(t) == DefaultOf(lines);
    if d == "" || Ours(d) {
      assert lines + [] == lines;
    } else {
      var m := MarkerLine(d);
      MarkerLineIs(d);
      CoreOfWithNewline(t);
      CoreAppend(WithNewline(t), m + "\n");
      CoreOfAnotherLine(m);
      SplitWhole(m);
      NonEmptyCons(m, []);
    }
  }

  lemma NoMarkerSeen(t: string)
    requires NoneMarked(Core(t))
    ensures FirstMarker(t).None?
  {
    UnmarkedIsClosed(Core(t));
    ClosedLines(t);
    CoreOfStrip(t);
    StrippedNonEmpty(Split(t));
    StrippedUnmarked(Core(t), []);
    assert Core(t) + [] == Core(t);
  }

  /** Lines at the end do not stand in the way of the default above them. */
  lemma SetBelow(t: string, lines: seq<string>, more: seq<string>, value: string)
    requires Core(t) == lines + more && HasDefault(lines) && '\n' !in value
    ensures SetModelsDefault(t, value).Some?
    ensures Core(SetModelsDefault(t, value).value) == WithDefault(lines, value) + more
  {
    DefaultAppend(lines, more, value);
    DefaultIsFollowed(lines + more);
    NothingOutOfRange(t, value);
    CoreOfSetDefault(t, value);
  }

  lemma ReadBelow(t: string, lines: seq<string>, more: seq<string>, d: string)
    requires Core(t) == lines + more && DefaultOf(lines) == Value(d)
    ensures DefaultRead(t) == Value(d)
  {
    ReadAppend(lines, more);
    ReadIsSet(Core(t));
    DefaultIsFollowed(Core(t));
    NothingOutOfRange(t, d);
  }

  /** Writing the section after lines that have none, and making the proxy the default. */
  lemma WriteSection(u: string, lines: seq<string>, memory: seq<string>, section: string)
    requires Ended(section) && HasDefault(lines)
    requires Upserted(Core(u), Core(section)) == lines + memory + Core(section)
    ensures var t := SetModelsDefault(UpsertModelSection(u, section), PROXY);
            t.Some? && Core(t.value) == WithDefault(lines, PROXY) + memory + Core(section)
  {
    CoreOfUpsert(u, section);
    Regrouped(lines, memory, Core(section));
    SetBelow(UpsertModelSection(u, section), lines, memory + Core(section), PROXY);
    Regrouped(WithDefault(lines, PROXY), memory, Core(section));
  }

  /** The same where no default was remembered, and perhaps none is there. */
  lemma WriteFirstSection(u: string, lines: seq<string>, section: string)
    requires Ended(section) && Core(section) != [] && IsHeader(Core(section)[0]) && NoneIs(Models, Core(section))
    requires Upserted(Core(u), Core(section)) == lines + Core(section)
    ensures var t := SetModelsDefault(UpsertModelSection(u, section), PROXY);
            t.Some? && Core(t.value) == WithDefault(lines, PROXY) + Core(section)
  {
    CoreOfUpsert(u, section);
    var t := UpsertModelSection(u, section);
    DefaultAboveSection(lines, Core(section), PROXY);
    NothingOutOfRange(t, PROXY);
    CoreOfSetDefault(t, PROXY);
  }

  lemma SectionHasNoModels(r: Request)
    requires Proper(r)
    ensures IsHeader(LinesOf(r)[0]) && NoneIs(Models, LinesOf(r))
  {
    BuiltSection(r.model, r.baseURL, r.apiKey);
    HeaderIs();
    forall l | l in LinesOf(r)[1..] ensures !Is(Models, l) { ModelsIsHeader(l); }
    assert LinesOf(r) == [LinesOf(r)[0]] + LinesOf(r)[1..];
  }

  lemma ModelsIsHeader(l: string)
    ensures Is(Models, l) ==> IsHeader(l)
  {
  }

  lemma NoSectionIn(lines: seq<string>, d: string, memory: seq<string>, section: seq<string>)
    requires NoneIs(ProxyModel, lines) && NoneIs(ProxyModel, memory)
    ensures Upserted(lines + memory, section) == lines + memory + section
  {
    NoPartsIs(lines + memory, ProxyModel);
  }

  lemma ApplyFirst(t: string, d: string, r: Request)
    requires UserFile(t, d) && Proper(r)
    ensures Applied(t, r).Some? && Configured(Applied(t, r).value, Core(t), d, r)
  {
    var lines := Core(t);
    DefaultIsLineFree(lines, d);
    RememberFirst(t, d);
    MemoryIs(d);
    NoSectionIn(lines, d, Memory(d), LinesOf(r));
    BuiltSection(r.model, r.baseURL, r.apiKey);
    if DefaultOf(lines).Value? {
      ReadIsSet(lines);
      WriteSection(RememberPrevDefault(t).value, lines, Memory(d), SectionOf(r));
    } else {
      SectionHasNoModels(r);
      assert lines + [] == lines && Own(lines) + [] == Own(lines);
      WriteFirstSection(RememberPrevDefault(t).value, lines, SectionOf(r));
    }
  }

  lemma SectionFound(lines: seq<string>, r: Request)
    requires Proper(r) && NoneIs(ProxyModel, lines)
    ensures PartsOf(lines + LinesOf(r), ProxyModel) == Some(Parts(lines, LinesOf(r)[0], LinesOf(r)[1..], []))
  {
    BuiltSection(r.model, r.baseURL, r.apiKey);
    FoundAtTheEnd(lines, LinesOf(r));
  }

  lemma FoundAtTheEnd(lines: seq<string>, section: seq<string>)
    requires NoneIs(ProxyModel, lines) && section != [] && Is(ProxyModel, section[0]) && NoHeader(section[1..])
    ensures PartsOf(lines + section, ProxyModel) == Some(Parts(lines, section[0], section[1..], []))
  {
    var p := Parts(lines, section[0], section[1..], []);
    assert Whole(p) == lines + section;
    PartsOfIs(p, ProxyModel);
  }

  /** Remembering again changes nothing: either a marker is there, or the default is ours. */
  lemma RememberAgain(t: string)
    requires DefaultRead(t) == Value(PROXY)
    ensures RememberPrevDefault(t) == Some(t)
  {
  }

  lemma ReadConfigured(u: string, lines: seq<string>, d: string, section: seq<string>)
    requires Core(u) == Own(lines) + Memory(d) + section
    ensures DefaultRead(u) == Value(PROXY)
  {
    SetHasDefault(lines, PROXY);
    Regrouped(Own(lines), Memory(d), section);
    ReadBelow(u, Own(lines), Memory(d) + section, PROXY);
  }

  /** Replacing the section at the end of lines whose default is ours already. */
  lemma ReplaceSection(t: string, lines: seq<string>, memory: seq<string>, was: seq<string>, section: string)
    requires Core(t) == Own(lines) + memory + was && was != [] && Ended(section)
    requires PartsOf(Core(t), ProxyModel) == Some(Parts(Own(lines) + memory, was[0], was[1..], []))
    ensures var u := SetModelsDefault(UpsertModelSection(t, section), PROXY);
            u.Some? && Core(u.value) == Own(lines) + memory + Core(section)
  {
    SetHasDefault(lines, PROXY);
    assert Own(lines) + memory + Core(section) + [] == Own(lines) + memory + Core(section);
    WriteSection(t, Own(lines), memory, section);
    DefaultTwice(lines, PROXY, PROXY);
  }

  lemma ApplyAgain(t: string, lines: seq<string>, d: string, r: Request, r2: Request)
    requires UserText(lines, d) && Proper(r) && Proper(r2) && Configured(t, lines, d, r)
    ensures Applied(t, r2).Some? && Configured(Applied(t, r2).value, lines, d, r2)
  {
    DefaultIsLineFree(lines, d);
    ReadConfigured(t, lines, d, LinesOf(r));
    RememberAgain(t);
    OwnLines(lines, d, PROXY);
    MemoryIs(d);
    SectionFound(Own(lines) + Memory(d), r);
    BuiltSection(r2.model, r2.baseURL, r2.apiKey);
    ReplaceSection(t, lines, Memory(d), LinesOf(r), SectionOf(r2));
  }

  /** However often the proxy was applied, the text has the one shape, with the last section. */
  lemma {:induction false} ApplyAll(t: string, d: string, rs: seq<Request>)
    requires UserFile(t, d) && rs != [] && forall r :: r in rs ==> Proper(r)
    ensures AppliedAll(t, rs).Some? && Configured(AppliedAll(t, rs).value, Core(t), d, rs[|rs| - 1])
  {
    var init, r := rs[..|rs| - 1], rs[|rs| - 1];
    assert r in rs;
    if init == [] {
      assert AppliedAll(t, init) == Some(t);
      ApplyFirst(t, d, r);
    } else {
      assert init[|init| - 1] in rs;
      ApplyAll(t, d, init);
      ApplyAgain(AppliedAll(t, init).value, Core(t), d, init[|init| - 1], r);
    }
  }

  // ---- resetting ----

  /** What may be left of the marker: whatever follows the value's first quote. */
  function Leftover(d: string): seq<string> { Stripped(Memory(d)) }

  lemma RemoveConfigured(t: string, lines: seq<string>, d: string, r: Request)
    requires UserText(lines, d) && Proper(r) && Configured(t, lines, d, r)
    ensures Core(RemoveModelSection(t)) == Own(lines) + Memory(d)
  {
    DefaultIsLineFree(lines, d);
    OwnLines(lines, d, PROXY);
    MemoryIs(d);
    SectionFound(Own(lines) + Memory(d), r);
    CoreOfRemove(t);
  }

  function Restored(d: string): string {
    var v := d[..IndexOf(d, '"')];
    if d == "" || Ours(d) || Trim(v, Go) == "" then BUILTIN else v
  }

  lemma StruckOut(u: string, lines: seq<string>, d: string)
    requires UserText(lines, d) && Core(u) == Own(lines) + Memory(d)
    ensures RestoreTo(u) == Restored(d) && '\n' !in Restored(d)
    ensures Core(StripMarkers(u)) == Own(lines) + Leftover(d)
  {
    DefaultIsLineFree(lines, d);
    OwnLines(lines, d, PROXY);
    MarkerSeen(u, Own(lines), d);
    NonEmptyAgain(Own(lines));
  }

  lemma ClearConfigured(u: string, lines: seq<string>, d: string)
    requires UserText(lines, d) && Core(u) == Own(lines) + Memory(d)
    ensures ClearModelsDefaultIfOurs(u).Some?
    ensures Core(ClearModelsDefaultIfOurs(u).value) == WithDefault(lines, Restored(d)) + Leftover(d)
  {
    StruckOut(u, lines, d);
    SetHasDefault(lines, PROXY);
    var next := StripMarkers(u);
    ReadBelow(next, Own(lines), Leftover(d), PROXY);
    SetBelow(next, Own(lines), Leftover(d), Restored(d));
    DefaultTwice(lines, PROXY, Restored(d));
  }

  lemma DefaultOfSignature(a: seq<string>, b: seq<string>)
    requires Signature(a) == Signature(b)
    ensures DefaultOf(a) == DefaultOf(b)
  {
    DefaultOfTrimmed(a);
    DefaultOfTrimmed(b);
  }

  lemma {:induction false} DefaultOfTrimmed(lines: seq<string>)
    ensures DefaultOf(Signature(lines)) == DefaultOf(lines)
  {
    PartsOfCuts(lines, Models);
    match PartsOf(lines, Models)
    case None =>
      NoneInSignature(lines);
      NoPartsIs(Signature(lines), Models);
    case Some(p) =>
      SignatureOfWhole(p);
      NoneInSignature(p.before);
      NoneInSignature(p.body);
      var q := Parts(Signature(p.before), Trim(p.header, Go), Signature(p.body), Signature(p.after));
      TrimTwice(p.header);
      if p.after != [] { TrimTwice(p.after[0]); }
      PartsOfIs(q, Models);
      FieldOfSignature(p.body, "default");
  }

  lemma {:induction false} NoneInSignature(lines: seq<string>)
    ensures NoneIs(Models, lines) ==> NoneIs(Models, Signature(lines))
    ensures NoHeader(lines) ==> NoHeader(Signature(lines))
  {
    if lines != [] {
      NoneInSignature(lines[1..]);
      TrimTwice(lines[0]);
      assert lines[0] in lines;
    }
  }

  lemma SignatureOfWhole(p: Parts)
    requires Is(Models, p.header)
    ensures Signature(Whole(p)) == Signature(p.before) + [Trim(p.header, Go)] + Signature(p.body) + Signature(p.after)
  {
    SignatureOfLine(p.header);
    SignatureAppend(p.before, [p.header]);
    SignatureAppend(p.before + [p.header], p.body);
    SignatureAppend(p.before + [p.header] + p.body, p.after);
  }

  /** The final trim and line break change no line's content. */
  lemma ContentOfFinal(u: string)
    ensures var v := Trim(u, Go); Content(if v == "" then "" else WithNewline(v)) == Content(u)
  {
    var v := Trim(u, Go);
    ContentOfTrim(u);
    if v != "" {
      SignatureOfCore(Split(v));
      SignatureOfCore(Split(WithNewline(v)));
      CoreOfWithNewline(v);
    }
  }

  lemma ReadFromContent(t: string, lines: seq<string>, value: string)
    requires Content(t) == Signature(lines) && DefaultOf(lines) == Value(value)
    ensures DefaultRead(t) == Value(value)
  {
    SignatureOfCore(Split(t));
    DefaultOfSignature(Core(t), lines);
    ReadIsSet(Core(t));
    DefaultIsFollowed(Core(t));
    NothingOutOfRange(t, value);
  }

  // ---- the main results ----

  lemma ResetConfigured(u: string, lines: seq<string>, d: string, r: Request)
    requires UserText(lines, d) && Proper(r) && Configured(u, lines, d, r)
    ensures Reset(u).Some?
    ensures Content(Reset(u).value) == Signature(WithDefault(lines, Restored(d)) + Leftover(d))
  {
    RemoveConfigured(u, lines, d, r);
    var v := RemoveModelSection(u);
    ClearConfigured(v, lines, d);
    var w := ClearModelsDefaultIfOurs(v).value;
    ContentOfFinal(w);
    SignatureOfCore(Split(w));
  }

  lemma ReadRestored(t: string, lines: seq<string>, more: seq<string>, value: string)
    requires Content(t) == Signature(WithDefault(lines, value) + more)
    ensures DefaultRead(t) == Value(value)
  {
    SetHasDefault(lines, value);
    ReadAppend(WithDefault(lines, value), more);
    ReadFromContent(t, WithDefault(lines, value) + more, value);
  }

  /**
   After any positive number of applications the default read is the proxy, and the reset
   that follows puts `Restored(d)` in its place.
   */
  lemma ApplyThenReset(t: string, d: string, rs: seq<Request>)
    requires UserFile(t, d) && rs != [] && forall r :: r in rs ==> Proper(r)
    ensures AppliedAll(t, rs).Some? && DefaultRead(AppliedAll(t, rs).value) == Value(PROXY)
    ensures var u := AppliedAll(t, rs).value;
            && Reset(u).Some?
            && DefaultRead(Reset(u).value) == Value(Restored(d))
            && Content(Reset(u).value) == Signature(WithDefault(Core(t), Restored(d)) + Leftover(d))
  {
    var r := rs[|rs| - 1];
    assert r in rs;
    ApplyAll(t, d, rs);
    var u := AppliedAll(t, rs).value;
    ReadConfigured(u, Core(t), d, LinesOf(r));
    ResetConfigured(u, Core(t), d, r);
    ReadRestored(Reset(u).value, Core(t), Leftover(d), Restored(d));
  }

  predicate Restorable(d: string) { Trim(d, Go) != "" && '"' !in d && !Ours(d) }

  lemma RestoredIff(d: string)
    ensures Restored(d) == d <==> Restorable(d)
  {
    IndexOfIsFirst(d, '"');
    if '"' !in d { assert d[..|d|] == d; }
    TrimIdentity(BUILTIN, Go);
  }

  /** A text without proxy section or marker whose default, if any, is read without a slice out of range. */
  ghost predicate Untouched(t: string) {
    NoneIs(ProxyModel, Core(t)) && NoneMarked(Core(t)) && !DefaultRead(t).OutOfRange?
  }

  /**
   The default that is read comes back exactly when there is one, it is not blank, holds no quote and is not
   one of the proxy's own. Where there was none, grok-build is left in its place, with the user's other lines.
   */
  lemma DefaultComesBackIff(t: string, rs: seq<Request>)
    requires Untouched(t) && rs != [] && forall r :: r in rs ==> Proper(r)
    ensures AppliedAll(t, rs).Some? && Reset(AppliedAll(t, rs).value).Some?
    ensures var back := Reset(AppliedAll(t, rs).value).value;
            && (DefaultRead(back) == DefaultRead(t) <==> DefaultRead(t).Value? && Restorable(DefaultRead(t).text))
            && (DefaultRead(t).Absent? ==> DefaultRead(back) == Value(BUILTIN)
                                           && Content(back) == Signature(WithDefault(Core(t), BUILTIN)))
  {
    var d := if DefaultRead(t).Value? then DefaultRead(t).text else "";
    CoreIsLineFree(t);
    ApplyThenReset(t, d, rs);
    RestoredIff(d);
    if d == "" {
      assert Leftover(d) == [];
      assert WithDefault(Core(t), BUILTIN) + [] == WithDefault(Core(t), BUILTIN);
    }
  }

  /** The first assignment of the default is the well-formed one that is read. */
  predicate WellFormed(lines: seq<string>, d: string) {
    match PartsOf(lines, Models)
    case None => false
    case Some(p) => AssignsFirst(p.body, d)
  }

  predicate AssignsFirst(body: seq<string>, d: string) {
    body != [] && if Assigns(body[0]) then Trim(body[0], Go) == DefaultLine(d) else AssignsFirst(body[1..], d)
  }

  lemma {:induction false} OverwritingTheSame(body: seq<string>, d: string)
    requires AssignsFirst(body, d)
    ensures SomeIs(body, Assigns) && FieldOf(body, "default") == Value(d)
    ensures Signature(Overwritten(body, Assigns, DefaultLine(d))) == Signature(body)
  {
    var l, rest := body[0], body[1..];
    assert body == [l] + rest && l in body;
    OverwrittenCons(l, rest, Assigns, DefaultLine(d));
    DefaultLineIs(d);
    SignatureAppend([l], rest);
    SignatureOfLine(l);
    if Assigns(l) {
      SignatureAppend([DefaultLine(d)], rest);
      SignatureOfLine(DefaultLine(d));
      DefaultLineIsOffered(l, d);
    } else {
      OverwritingTheSame(rest, d);
      SignatureAppend([l], Overwritten(rest, Assigns, DefaultLine(d)));
      var k :| k in rest && Assigns(k);
      assert k in body;
    }
  }

  lemma DefaultLineIsOffered(l: string, d: string)
    requires Trim(l, Go) == DefaultLine(d)
    ensures Offers(l, "default") && ValueIn(l, "default") == Value(d)
  {
    QuotedLineIs("default", d);
  }

  lemma SettingTheSame(lines: seq<string>, d: string)
    requires WellFormed(lines, d)
    ensures Signature(WithDefault(lines, d)) == Signature(lines) && DefaultOf(lines) == Value(d)
  {
    PartsOfCuts(lines, Models);
    var p := PartsOf(lines, Models).value;
    OverwritingTheSame(p.body, d);
    SignatureOfWhole(p);
    SetPartsAre(p, d);
    SignatureOfWhole(p.(body := SetBody(p.body, d)));
  }

  /**
   Apply, any number of times, and reset is the identity up to blank lines and indentation, for a
   user's text with one well-formed default that can be restored.
   */
  lemma NothingIsLost(t: string, d: string, rs: seq<Request>)
    requires NoneIs(ProxyModel, Core(t)) && NoneMarked(Core(t)) && WellFormed(Core(t), d) && Restorable(d)
    requires rs != [] && forall r :: r in rs ==> Proper(r)
    ensures AppliedAll(t, rs).Some? && Reset(AppliedAll(t, rs).value).Some?
    ensures Content(Reset(AppliedAll(t, rs).value).value) == Content(t)
  {
    CoreIsLineFree(t);
    SettingTheSame(Core(t), d);
    ReadIsSet(Core(t));
    DefaultIsFollowed(Core(t));
    NothingOutOfRange(t, d);
    ApplyThenReset(t, d, rs);
    RestoredIff(d);
    MarkerLineMatches(d);
    MapCons(MarkerLine(d), [], RemnantLines, ValueOn);
    assert Leftover(d) == [];
    assert WithDefault(Core(t), d) + [] == WithDefault(Core(t), d);
    SignatureOfCore(Split(t));
  }
}
