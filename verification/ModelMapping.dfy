/**
 Rewriting model names along a mapping table: the bounded chain that requests follow, and
 the dashboard's preview of it (internal/bridge/model_mapping.go).
 */
module ModelMapping {
  import opened Collections
  import opened Wrappers
  import opened Text
  import opened Chains

  type Mappings = map<string, string>

  // ---- names ----

  function LowerChar(c: char): char { if 'A' <= c <= 'Z' then c + ' ' else c }

  function Lower(s: string): (r: string)
    ensures |r| == |s| && forall k :: 0 <= k < |s| ==> r[k] == LowerChar(s[k])
  {
    seq(|s|, k requires 0 <= k < |s| => LowerChar(s[k]))
  }

  /** A name is compared trimmed, without a bracketed suffix, in lower case. */
  function NormalizeModel(model: string): string {
    var t := Trim(model, Go);
    var i := IndexOf(t, '[');
    Lower(if 0 < i < |t| then Trim(t[..i], Go) else t)
  }

  lemma LowerTwice(s: string)
    ensures Lower(Lower(s)) == Lower(s)
  {
  }

  predicate Tight(s: string) { s == "" || (!IsGoSpace(s[0]) && !IsGoSpace(s[|s| - 1])) }

  lemma {:induction false} TrimRightIsTight(s: string)
    requires s == "" || !IsGoSpace(s[0])
    ensures Tight(TrimRight(s, Go))
    ensures TrimRight(s, Go) <= s && (s != "" ==> TrimRight(s, Go) != "")
  {
    if s != "" && IsGoSpace(s[|s| - 1]) { TrimRightIsTight(s[..|s| - 1]); }
  }

  lemma {:induction false} TrimLeftStarts(s: string)
    ensures var t := TrimLeft(s, Go); t == "" || !IsGoSpace(t[0])
  {
    if s != "" && IsGoSpace(s[0]) { TrimLeftStarts(s[1..]); }
  }

  lemma TrimIsTight(s: string)
    ensures Tight(Trim(s, Go)) && Trim(Trim(s, Go), Go) == Trim(s, Go)
  {
    TrimLeftStarts(s);
    TrimRightIsTight(TrimLeft(s, Go));
    TrimIdentity(Trim(s, Go), Go);
  }

  lemma TrimOfStart(t: string, i: nat)
    requires Tight(t) && 0 < i <= |t|
    ensures var u := Trim(t[..i], Go); u != "" && u <= t[..i] && Tight(u)
  {
    assert TrimLeft(t[..i], Go) == t[..i];
    TrimRightIsTight(t[..i]);
  }

  lemma LowerKeeps(s: string)
    ensures Tight(s) ==> Tight(Lower(s))
    ensures '[' in Lower(s) ==> '[' in s
    ensures IndexOf(Lower(s), '[') == IndexOf(s, '[')
  {
    if '[' in Lower(s) {
      var k :| 0 <= k < |s| && Lower(s)[k] == '[';
      assert s[k] == '[';
    }
    LowerIndex(s);
  }

  lemma {:induction false} LowerIndex(s: string)
    ensures IndexOf(Lower(s), '[') == IndexOf(s, '[')
  {
    if s != "" {
      assert Lower(s)[1..] == Lower(s[1..]);
      LowerIndex(s[1..]);
    }
  }

  /** Normalising again changes nothing, and only a blank name becomes empty. */
  lemma NormalizeTwice(model: string)
    ensures NormalizeModel(NormalizeModel(model)) == NormalizeModel(model)
    ensures NormalizeModel(model) == "" <==> Trim(model, Go) == ""
  {
    var t := Trim(model, Go);
    TrimIsTight(model);
    var i := IndexOf(t, '[');
    IndexOfIsFirst(t, '[');
    var u := if 0 < i < |t| then Trim(t[..i], Go) else t;
    if 0 < i < |t| { TrimOfStart(t, i); }
    LowerKeeps(u);
    TrimIdentity(Lower(u), Go);
    IndexOfIsFirst(u, '[');
    LowerTwice(u);
    if 0 < i < |t| {
      assert '[' !in u by { assert forall c :: c in u ==> c in t[..i]; }
    }
  }

  /** A name without a bracket is trimmed and put into lower case; what a bracket encloses after a name is cut off first. */
  lemma NormalizedName(a: string, name: string, b: string, more: string)
    requires Blank(a, Go) && Blank(b, Go) && TightIn(name, Go) && name != "" && '[' !in name
    ensures NormalizeModel(a + name + b) == Lower(name)
    ensures NormalizeModel(a + name + b + "[" + more) == Lower(name)
  {
    NormalizedPlain(a, name, b);
    NormalizedBracket(a, name, b, more);
    Regrouped(a, name, b);
    Regrouped(a + name + b, "[", more);
  }

  lemma NormalizedPlain(a: string, name: string, b: string)
    requires Blank(a, Go) && Blank(b, Go) && TightIn(name, Go) && name != "" && '[' !in name
    ensures NormalizeModel(a + name + b) == Lower(name)
  {
    TrimPadded(a, name, b, Go);
    IndexOfIsFirst(name, '[');
  }

  lemma NormalizedBracket(a: string, name: string, b: string, more: string)
    requires Blank(a, Go) && Blank(b, Go) && TightIn(name, Go) && name != "" && '[' !in name
    ensures NormalizeModel(a + (name + b) + ("[" + more)) == Lower(name)
  {
    var rest := TrimBracketed(a, name + b, "[" + more);
    assert '[' !in name + b by { assert forall c :: c in b ==> c != '['; }
    assert "" + name + b == name + b;
    TrimPadded("", name, b, Go);
    CutAtBracket(a + (name + b) + ("[" + more), name + b, rest);
  }

  lemma CutAtBracket(model: string, head: string, rest: string)
    requires Trim(model, Go) == head + rest && head != "" && '[' !in head && rest != "" && rest[0] == '['
    ensures NormalizeModel(model) == Lower(Trim(head, Go))
  {
    BracketCut(head, rest);
  }

  lemma TrimBracketed(a: string, head: string, tail: string) returns (rest: string)
    requires Blank(a, Go) && head != "" && !IsGoSpace(head[0]) && tail != "" && tail[0] == '['
    ensures Trim(a + head + tail, Go) == head + rest && rest != "" && rest[0] == '['
  {
    assert a + head + tail == a + (head + tail);
    TrimLeftBlank(a, head + tail, Go);
    assert TrimLeft(head + tail, Go) == head + tail;
    rest := TrimRightUpTo(head, tail);
  }

  lemma BracketCut(head: string, rest: string)
    requires '[' !in head && rest != "" && rest[0] == '['
    ensures IndexOf(head + rest, '[') == |head| && (head + rest)[..|head|] == head
  {
    assert head + rest == head + ['['] + rest[1..];
    IndexOfAppend(head, '[', rest[1..]);
  }

  /** Trimming at the right stops before it reaches what is not white space. */
  lemma {:induction false} TrimRightUpTo(head: string, tail: string) returns (rest: string)
    requires tail != "" && !IsGoSpace(tail[0])
    ensures TrimRight(head + tail, Go) == head + rest && rest != "" && rest[0] == tail[0]
    decreases |tail|
  {
    if IsGoSpace(tail[|tail| - 1]) {
      assert (head + tail)[..|head + tail| - 1] == head + tail[..|tail| - 1];
      rest := TrimRightUpTo(head, tail[..|tail| - 1]);
    } else {
      rest := tail;
    }
  }

  lemma LowerExample()
    ensures Lower("GPT-4") == "gpt-4"
  {
    var r := Lower("GPT-4");
    assert r[0] == 'g' && r[1] == 'p' && r[2] == 't' && r[3] == '-' && r[4] == '4';
  }

  // ---- the table ----

  /** What sanitizing leaves: normalised names to trimmed targets, no blanks, no name to itself. */
  predicate Clean(m: Mappings) {
    forall k :: k in m ==> k != "" && NormalizeModel(k) == k && m[k] != "" && Trim(m[k], Go) == m[k] && k != NormalizeModel(m[k])
  }

  predicate Kept(source: string, target: string) {
    NormalizeModel(source) != "" && Trim(target, Go) != "" && NormalizeModel(source) != NormalizeModel(Trim(target, Go))
  }

  ghost predicate FromRaw(raw: Mappings, k: string, v: string) {
    exists s :: s in raw && Kept(s, raw[s]) && NormalizeModel(s) == k && Trim(raw[s], Go) == v
  }

  /** Names that fall together are resolved in an order of the map's own. */
  ghost predicate Sanitized(raw: Mappings, m: Mappings) {
    && (forall k :: k in m ==> FromRaw(raw, k, m[k]))
    && (forall s :: s in raw && Kept(s, raw[s]) ==> NormalizeModel(s) in m)
  }

  lemma SanitizedIsClean(raw: Mappings, m: Mappings)
    requires Sanitized(raw, m)
    ensures Clean(m)
  {
    forall k | k in m
      ensures k != "" && NormalizeModel(k) == k && m[k] != "" && Trim(m[k], Go) == m[k] && k != NormalizeModel(m[k])
    {
      var s :| s in raw && Kept(s, raw[s]) && NormalizeModel(s) == k && Trim(raw[s], Go) == m[k];
      NormalizeTwice(s);
      TrimIsTight(raw[s]);
    }
  }

  method NormalizeModelMappings(raw: Mappings) returns (m: Mappings)
    ensures Sanitized(raw, m) && Clean(m)
  {
    m := map[];
    var todo := raw.Keys;
    while todo != {}
      invariant todo <= raw.Keys
      invariant forall k :: k in m ==> FromRaw(raw, k, m[k])
      invariant forall s :: s in raw && s !in todo && Kept(s, raw[s]) ==> NormalizeModel(s) in m
    {
      var s :| s in todo;
      todo := todo - {s};
      var src, dst := NormalizeModel(s), Trim(raw[s], Go);
      if !(src == "" || dst == "" || src == NormalizeModel(dst)) {
        assert FromRaw(raw, src, dst);
        m := m[src := dst];
      }
    }
    SanitizedIsClean(raw, m);
  }

  // ---- hops ----

  function Hop(m: Mappings, name: string): Option<string> {
    var key := NormalizeModel(name);
    if key != "" && key in m && Trim(m[key], Go) != "" then Some(Trim(m[key], Go)) else None
  }

  /** The table as a walk from name to name. */
  function Table(m: Mappings): Walk { Walk((name: string) => Hop(m, name), NormalizeModel) }

  class ModelMappingResolver {
    var mappings: Mappings

    constructor ()
      ensures mappings == map[]
    {
      mappings := map[];
    }

    method SetMappings(raw: Mappings)
      modifies this
      ensures Sanitized(raw, mappings) && Clean(mappings)
    {
      mappings := NormalizeModelMappings(raw);
    }

    method Resolve(requested: string) returns (r: string)
      ensures r == ResolveOnce(Table(mappings), requested)
    {
      var normalized := NormalizeModel(requested);
      if normalized != "" && normalized in mappings {
        var target := Trim(mappings[normalized], Go);
        if target != "" {
          return target;
        }
      }
      return requested;
    }

    /** Where a name leads, if the table has a target for it. */
    method NextName(m: Mappings, current: string) returns (next: Option<string>)
      ensures next == Table(m).hop(current)
    {
      var key := NormalizeModel(current);
      if key == "" || key !in m || Trim(m[key], Go) == "" {
        return None;
      }
      return Some(Trim(m[key], Go));
    }

    /** The same, unless the request has been there before. */
    method NextNewName(m: Mappings, current: string, seen: set<string>) returns (next: Option<string>, nextKey: string)
      ensures next == if Table(m).hop(current).Some? && Table(m).key(Table(m).hop(current).value) !in seen
                      then Table(m).hop(current) else None
      ensures next.Some? ==> nextKey == Table(m).key(next.value)
    {
      nextKey := "";
      next := NextName(m, current);
      if next.None? {
        return;
      }
      nextKey := NormalizeModel(next.value);
      TargetHasKey(m, current);
      if nextKey in seen || nextKey == "" {
        next := None;
      }
    }

    method ResolveChain(requested: string) returns (current: string)
      ensures current == Requested(mappings, requested)
    {
      current := requested;
      if NormalizeModel(requested) == "" {
        return;
      }
      ghost var w := Table(mappings);
      WalkStarts(w, requested);
      var seen := {NormalizeModel(requested)};
      var i := 0;
      while i < MAX_DEPTH
        invariant WalkedTo(w, requested, i, current, seen)
      {
        var next, nextKey := NextNewName(mappings, current, seen);
        if next.None? {
          break;
        }
        WalkGoesOn(w, requested, i, current, seen);
        seen := seen + {nextKey};
        current := next.value;
        i := i + 1;
      }
      WalkEnds(w, requested, i, current, seen);
    }

    /** The dashboard's preview: single hops until nothing changes, at most eight, with every step listed. */
    method Preview(requested: string) returns (resolved: string, steps: seq<string>)
      ensures resolved == Previewed(mappings, requested)
      ensures StepsOf(Table(mappings), requested, steps) && |steps| <= MAX_DEPTH + 1 && steps[|steps| - 1] == resolved
    {
      ghost var w := Table(mappings);
      resolved, steps := requested, [requested];
      FirstStep(w, requested);
      while |steps| <= MAX_DEPTH
        invariant StepsOf(w, requested, steps) && steps[|steps| - 1] == resolved && |steps| <= MAX_DEPTH + 1
      {
        var next := Resolve(resolved);
        StepOn(w, requested, steps, next);
        if next == resolved {
          return;
        }
        resolved := next;
        steps := steps + [resolved];
      }
    }
  }

  /** A target is never blank. */
  lemma TargetHasKey(m: Mappings, name: string)
    ensures Hop(m, name).Some? ==> NormalizeModel(Hop(m, name).value) != ""
  {
    if Hop(m, name).Some? {
      TrimIsTight(m[NormalizeModel(name)]);
      NormalizeTwice(Hop(m, name).value);
    }
  }

  // ---- requests against the preview ----

  lemma TableIs(m: Mappings)
    ensures ByKey(Table(m))
    ensures Clean(m) ==> NoLoop(Table(m))
  {
    if Clean(m) {
      forall a | Hop(m, a).Some? ensures NormalizeModel(a) != NormalizeModel(Hop(m, a).value) {
        assert NormalizeModel(a) in m;
      }
    }
  }

  /** What a request resolves to, and what the dashboard says it does. */
  function Requested(m: Mappings, name: string): string { Chain(Table(m), name) }
  function Previewed(m: Mappings, name: string): string { Iterate(Table(m), name, MAX_DEPTH) }

  /**
   With a sanitized table, requests and preview agree on a path that does not come back, and on one
   that comes back after n hops to a name i hops earlier exactly when i + 1 divides 8 - n.
   */
  lemma PreviewAgreesIff(m: Mappings, name: string)
    requires Clean(m)
    ensures Requested(m, name) == Previewed(m, name) <==> AgreesOn(Table(m), name)
  {
    TableIs(m);
    AgreeIff(Table(m), name);
  }

  /** A resolved name resolves to itself exactly when its path ended within eight hops. */
  lemma ResolvedAgainIff(m: Mappings, name: string)
    requires Clean(m)
    ensures Requested(m, Requested(m, name)) == Requested(m, name) <==> Hop(m, Requested(m, name)).None?
  {
    TableIs(m);
    FollowedTwiceIff(Table(m), name);
  }

  const SWAP: Mappings := map["a" := "b", "b" := "a"]

  /** Two names mapped to each other: requests go one hop, the preview comes back to where it began. */
  lemma SwappedNamesDisagree()
    ensures Clean(SWAP) && Requested(SWAP, "a") == "b" && Previewed(SWAP, "a") == "a"
  {
    SwapIsClean();
    TableIs(SWAP);
    SwapDisagrees(Table(SWAP), "a", "b");
  }

  lemma SwapIsClean()
    ensures Clean(SWAP) && Hop(SWAP, "a") == Some("b") && Hop(SWAP, "b") == Some("a")
    ensures NormalizeModel("a") == "a" && NormalizeModel("b") == "b"
  {
    SingleLetters();
    assert forall k :: k in SWAP <==> k == "a" || k == "b";
    assert SWAP["a"] == "b" && SWAP["b"] == "a";
  }

  lemma SingleLetters()
    ensures NormalizeModel("a") == "a" && NormalizeModel("b") == "b" && Trim("a", Go) == "a" && Trim("b", Go) == "b"
  {
    TrimIdentity("a", Go);
    TrimIdentity("b", Go);
    assert IndexOf("a", '[') == 1 && IndexOf("b", '[') == 1;
  }
}
