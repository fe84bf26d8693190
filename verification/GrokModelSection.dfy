/**
 Reading back the proxy's model section: what is parsed after a section was
 written is what it was written from (internal/clitools/grok.go).
 */
module GrokModelSection {
  import opened Wrappers
  import opened Text
  import opened TomlLines
  import opened GrokSections
  import opened GrokDefault

  /** A field of the first proxy section: its lines after the header. */
  function ModelField(t: string, key: string): Found {
    match Find(t, ProxyModel)
    case None => Absent
    case Some(s) => BodyField(t[s.start..s.end], key)
  }

  function BodyField(section: string, key: string): Found {
    var h := IndexOf(section, '\n');
    if h == |section| then Absent else FieldOf(Split(section[h + 1..]), key)
  }

  const FIELDS := ["model", "base_url", "name", "api_key", "api_backend", "description"]

  datatype Parsed = NoSection | Fields(values: map<string, string>) | BadSlice

  method ParseModelSection(toml: string) returns (r: Parsed)
    ensures r.NoSection? <==> Find(toml, ProxyModel).None?
    ensures r.BadSlice? <==> exists key :: key in FIELDS && ModelField(toml, key).OutOfRange?
    ensures r.Fields? ==> forall key :: key in FIELDS ==>
              ModelField(toml, key) == if key in r.values then Value(r.values[key]) else Absent
    ensures r.Fields? ==> r.values.Keys <= set key | key in FIELDS
  {
    var start, end, _, ok := FindSection(toml, ProxyModel);
    if !ok {
      return NoSection;
    }
    FieldsDiffer();
    r := ScanFields(toml[start..end], FIELDS);
  }

  method ScanFields(section: string, keys: seq<string>) returns (r: Parsed)
    requires forall i, j :: 0 <= i < j < |keys| ==> keys[i] != keys[j]
    ensures !r.NoSection?
    ensures r.BadSlice? <==> exists key :: key in keys && BodyField(section, key).OutOfRange?
    ensures r.Fields? ==> forall key :: key in keys ==>
              BodyField(section, key) == if key in r.values then Value(r.values[key]) else Absent
    ensures r.Fields? ==> r.values.Keys <= set key | key in keys
  {
    var headerEnd := IndexOf(section, '\n');
    if headerEnd == |section| {
      return Fields(map[]);
    }
    var lines := Split(section[headerEnd + 1..]);
    var values: map<string, string> := map[];
    for k := 0 to |keys|
      invariant values.Keys <= set key | key in keys[..k]
      invariant forall i :: 0 <= i < k ==>
                  FieldOf(lines, keys[i]) == if keys[i] in values then Value(values[keys[i]]) else Absent
    {
      var found := ScanFor(lines, keys[k]);
      if found.OutOfRange? {
        assert keys[k] in keys;
        return BadSlice;
      }
      if found.Value? {
        values := values[keys[k] := found.text];
      }
      assert keys[..k + 1] == keys[..k] + [keys[k]];
    }
    assert keys[..|keys|] == keys;
    return Fields(values);
  }

  lemma FieldsDiffer()
    ensures forall i, j :: 0 <= i < j < |FIELDS| ==> FIELDS[i] != FIELDS[j]
  {
  }

  /** Whether the proxy is configured: its section names a base URL that is not blank. */
  predicate HasProxyConfig(t: string) {
    ModelField(t, "base_url").Value? && Trim(ModelField(t, "base_url").text, Go) != ""
  }

  // ---- quoted lines ----

  /** The value a list of fields gives to a key: the first one. */
  function Lookup(fields: seq<Field>, key: string): Found {
    if fields == [] then Absent else if fields[0].key == key then Value(fields[0].value) else Lookup(fields[1..], key)
  }

  predicate PlainKey(key: string) { key != "" && !IsGoSpace(key[0]) && ' ' !in key && '\n' !in key && key[0] != '[' }

  lemma OffersOnlyItsKey(other: string, value: string, key: string)
    requires PlainKey(other) && PlainKey(key) && other != key
    ensures !Offers(QuotedLine(other, value), key)
  {
    QuotedLineIs(other, value);
    var l, o := QuotedLine(other, value), Opening(key);
    assert o[|key|] == ' ' && l[|other|] == ' ';
    if |o| <= |l| && |key| == |other| {
      assert l[..|o|][..|key|] == other && o[..|key|] == key;
    }
  }

  lemma {:induction false} FieldOfQuotedLines(fields: seq<Field>, key: string)
    requires PlainKey(key) && forall f :: f in fields ==> PlainKey(f.key)
    ensures FieldOf(QuotedLines(fields), key) == Lookup(fields, key)
  {
    if fields != [] {
      var f := fields[0];
      FieldOfQuotedLines(fields[1..], key);
      QuotedLineIs(f.key, f.value);
      if f.key != key { OffersOnlyItsKey(f.key, f.value, key); }
      assert QuotedLines(fields)[1..] == QuotedLines(fields[1..]);
    }
  }

  predicate OneLine(f: Field) { PlainKey(f.key) && '\n' !in f.value }

  lemma {:induction false} QuotedLinesAre(fields: seq<Field>)
    requires forall f :: f in fields ==> OneLine(f)
    ensures LineFree(QuotedLines(fields)) && NoHeader(QuotedLines(fields)) && "" !in QuotedLines(fields)
    ensures forall l :: l in QuotedLines(fields) ==> exists f :: f in fields && l == QuotedLine(f.key, f.value)
  {
    if fields != [] {
      QuotedLinesAre(fields[1..]);
      assert OneLine(fields[0]);
      QuotedLineIs(fields[0].key, fields[0].value);
    }
  }

  lemma SectionFieldsAre(model: string, baseURL: string, apiKey: string)
    requires '\n' !in model && '\n' !in baseURL && '\n' !in apiKey
    ensures forall f :: f in SectionFields(model, baseURL, apiKey) ==> OneLine(f)
  {
  }

  /** A built section is a proper one: its header, then its fields, each on a line. */
  lemma BuiltSection(model: string, baseURL: string, apiKey: string)
    requires '\n' !in model && '\n' !in baseURL && '\n' !in apiKey
    ensures var section, lines := BuildModelSection(model, baseURL, apiKey), SectionLines(model, baseURL, apiKey);
            Section(section) && section == Terminated(lines) && LineFree(lines) && Core(section) == lines
            && Is(ProxyModel, lines[0]) && NoHeader(lines[1..])
  {
    var section, lines := BuildModelSection(model, baseURL, apiKey), SectionLines(model, baseURL, apiKey);
    SectionFieldsAre(model, baseURL, apiKey);
    QuotedLinesAre(SectionFields(model, baseURL, apiKey));
    HeaderIs();
    assert lines[1..] == QuotedLines(SectionFields(model, baseURL, apiKey));
    SplitJoin(lines);
    TerminatedIsJoin(lines);
    assert section[..|section| - 1] == Join(lines);
    CoreOfLines(lines, false);
    NonEmptyAgain(lines);
  }

  lemma HeaderIs()
    ensures Is(ProxyModel, ModelHeader(PROXY)) && IsHeader(ModelHeader(PROXY)) && '\n' !in ModelHeader(PROXY) && ModelHeader(PROXY) != ""
    ensures !Is(Models, ModelHeader(PROXY))
  {
    TrimIdentity(ModelHeader(PROXY), Go);
  }

  // ---- round trip ----

  /**
   After a section was upserted into any text, every field reads as it was built:
   the key is absent exactly when it is blank.
   */
  lemma ParseAfterUpsert(t: string, model: string, baseURL: string, apiKey: string, key: string)
    requires '\n' !in model && '\n' !in baseURL && '\n' !in apiKey && PlainKey(key)
    ensures ModelField(UpsertModelSection(t, BuildModelSection(model, baseURL, apiKey)), key)
            == Lookup(SectionFields(model, baseURL, apiKey), key)
  {
    var section, fields := BuildModelSection(model, baseURL, apiKey), SectionFields(model, baseURL, apiKey);
    BuiltSection(model, baseURL, apiKey);
    var before, after := UpsertPuts(t, section);
    assert (before + section + after)[|before|..|before + section|] == section;
    SectionFieldsAre(model, baseURL, apiKey);
    FieldOfSection(fields, key);
  }

  lemma FieldOfSection(fields: seq<Field>, key: string)
    requires PlainKey(key) && forall f :: f in fields ==> OneLine(f)
    ensures BodyField(Terminated([ModelHeader(PROXY)] + QuotedLines(fields)), key) == Lookup(fields, key)
  {
    var h, lines := ModelHeader(PROXY), QuotedLines(fields);
    HeaderIs();
    QuotedLinesAre(fields);
    TerminatedCons(h, lines);
    AfterHeader(h, Terminated(lines), key);
    FieldOfTerminated(lines, key);
    FieldOfQuotedLines(fields, key);
  }

  lemma AfterHeader(h: string, rest: string, key: string)
    requires '\n' !in h
    ensures BodyField(h + "\n" + rest, key) == FieldOf(Split(rest), key)
  {
    IndexOfAppend(h, '\n', rest);
    var u := h + ['\n'] + rest;
    assert u[|h| + 1..] == rest;
  }

  lemma FieldOfTerminated(lines: seq<string>, key: string)
    requires LineFree(lines)
    ensures FieldOf(Split(Terminated(lines)), key) == FieldOf(lines, key)
  {
    SplitTerminated(lines, "");
    assert Terminated(lines) + "" == Terminated(lines) && Split("") == [""];
    FieldOfFirst(lines, [""], key);
    assert [""][1..] == [];
  }

  /** The three values a caller asks for. */
  lemma ValuesComeBack(t: string, model: string, baseURL: string, apiKey: string)
    requires '\n' !in model && '\n' !in baseURL && '\n' !in apiKey
    ensures var u := UpsertModelSection(t, BuildModelSection(model, baseURL, apiKey));
            && ModelField(u, "model") == Value(model)
            && ModelField(u, "base_url") == Value(baseURL)
            && ModelField(u, "api_key") == (if Trim(apiKey, Go) != "" then Value(apiKey) else Absent)
            && (HasProxyConfig(u) <==> Trim(baseURL, Go) != "")
  {
    ParseAfterUpsert(t, model, baseURL, apiKey, "model");
    ParseAfterUpsert(t, model, baseURL, apiKey, "base_url");
    ParseAfterUpsert(t, model, baseURL, apiKey, "api_key");
    BuiltValues(model, baseURL, apiKey);
  }

  lemma BuiltValues(model: string, baseURL: string, apiKey: string)
    ensures var fields := SectionFields(model, baseURL, apiKey);
            && Lookup(fields, "model") == Value(model)
            && Lookup(fields, "base_url") == Value(baseURL)
            && Lookup(fields, "api_key") == if Trim(apiKey, Go) != "" then Value(apiKey) else Absent
  {
    var fields := SectionFields(model, baseURL, apiKey);
    LookupSkips(fields, 5, "api_key");
    LookupSkips(fields, 1, "base_url");
    assert fields[1].key == "base_url" && fields[1..][0] == Field("base_url", baseURL);
  }

  lemma {:induction false} LookupSkips(fields: seq<Field>, n: nat, key: string)
    requires n <= |fields| && forall i :: 0 <= i < n ==> fields[i].key != key
    ensures Lookup(fields, key) == Lookup(fields[n..], key)
  {
    if n > 0 {
      LookupSkips(fields[1..], n - 1, key);
      assert fields[1..][n - 1..] == fields[n..];
    } else {
      assert fields[0..] == fields;
    }
  }

  lemma {:induction false} QuotedLineAt(fields: seq<Field>, k: nat)
    requires k < |fields|
    ensures |QuotedLines(fields)| == |fields| && QuotedLines(fields)[k] == fields[k].key + " = \"" + fields[k].value + "\""
    decreases |fields|
  {
    if |fields| == 1 {
      assert fields[1..] == [];
    } else {
      QuotedLineAt(fields[1..], if k > 0 then k - 1 else 0);
    }
  }

  lemma ModelHeaderWritten()
    ensures ModelHeader(PROXY) == "[model.tproxy]"
  {
    assert ModelHeader(PROXY) == "[model." + "tproxy" + "]";
  }

  lemma FieldsWritten(model: string, baseURL: string, apiKey: string, k: nat)
    requires k < |SectionFields(model, baseURL, apiKey)|
    ensures var l, f := SectionLines(model, baseURL, apiKey), SectionFields(model, baseURL, apiKey);
            |l| == |f| + 1 && l[k + 1] == f[k].key + " = \"" + f[k].value + "\""
  {
    QuotedLineAt(SectionFields(model, baseURL, apiKey), k);
  }

  /** The lines of a section as they are written, the key only if it is not blank. */
  lemma WrittenLines(model: string, baseURL: string, apiKey: string, l: seq<string>)
    requires l == SectionLines(model, baseURL, apiKey)
    ensures |l| == (if Trim(apiKey, Go) != "" then 7 else 6) && l[0] == "[model.tproxy]"
    ensures l[1] == "model" + " = \"" + model + "\"" && l[2] == "base_url" + " = \"" + baseURL + "\""
    ensures l[3] == "name" + " = \"" + "TProxy" + "\"" && l[4] == "description" + " = \"" + "Routed via TProxy gateway" + "\""
    ensures l[5] == "api_backend" + " = \"" + "chat_completions" + "\""
    ensures |l| == 7 ==> l[6] == "api_key" + " = \"" + apiKey + "\""
  {
    ModelHeaderWritten();
    FieldsWritten(model, baseURL, apiKey, 0);
    FieldsWritten(model, baseURL, apiKey, 1);
    FieldsWritten(model, baseURL, apiKey, 2);
    FieldsWritten(model, baseURL, apiKey, 3);
    FieldsWritten(model, baseURL, apiKey, 4);
    if |l| == 7 { FieldsWritten(model, baseURL, apiKey, 5); }
  }
}
