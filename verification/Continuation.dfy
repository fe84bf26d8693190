/**
 Continuing a Responses conversation: history merge, inherited settings, refusals (internal/api/responses_session.go).
 */
module Continuation {
  import opened Text
  import opened Wrappers

  const MAX_BYTES := 2 * 1024 * 1024

  /** A JSON field as stringValue sees it: absent or null, a text, or something that prints as `raw`. */
  datatype Json = Null | Text(text: string) | Other(raw: string)

  function StringValue(v: Json): string {
    match v
    case Null => ""
    case Text(t) => t
    case Other(raw) => raw
  }

  datatype ToolCall = FunctionCall(id: string, name: string, arguments: string) | Given(raw: string)

  /** One element of an input list. Fields are after stringValue; `extra` is everything else in the object. */
  datatype Item =
    | Scalar(raw: string)
    | Object(kind: string, role: string, callId: string, name: string, arguments: string, output: string,
             content: string, toolCallId: string, toolCalls: seq<ToolCall>, extra: string)

  function UserText(s: string): Item {
    Object("", "user", "", "", "", "", s, "", [], "")
  }

  datatype InputValue = TextInput(text: string) | ListInput(items: seq<Item>) | NoInput

  function ResponsesInput(v: InputValue): seq<Item> {
    match v
    case TextInput(t) => [UserText(t)]
    case ListInput(items) => items
    case NoInput => []
  }

  /** A request payload; `fields` are its keys other than input, previous_response_id and reset. */
  datatype Payload = Payload(previous: Json, reset: bool, fields: map<string, Json>, input: InputValue)

  /** What is stored per response, and what is sent upstream. */
  datatype Prepared = Prepared(fields: map<string, Json>, input: seq<Item>)
  datatype History = History(payload: Prepared, output: seq<Item>)

  datatype Refusal = UnknownPrevious | ContextTooLarge | ModelRequired | OrphanOutput(id: string)

  const INHERITED: seq<string> := ["model", "instructions", "tools", "tool_choice", "reasoning", "text",
                                   "max_output_tokens", "temperature", "parallel_tool_calls"]

  // ---- joining history and new input ----

  predicate IsCompaction(item: Item) { item.Object? && item.kind == "compaction" }

  /** The new input stands alone: it is a compaction, or it restarts from the stored input. */
  predicate Replaces(priorInput: seq<Item>, input: seq<Item>) {
    || (exists i :: 0 <= i < |input| && IsCompaction(input[i]))
    || (priorInput != [] && priorInput <= input)
  }

  /** The last n of the history are the first n of the input. */
  predicate Overlaps(history: seq<Item>, input: seq<Item>, n: nat) {
    n <= |history| && n <= |input| && history[|history| - n..] == input[..n]
  }

  /** The largest overlap that is at most n. */
  function OverlapFrom(history: seq<Item>, input: seq<Item>, n: nat): (k: nat)
    ensures k <= n
    ensures n <= |history| && n <= |input| ==> Overlaps(history, input, k)
    ensures forall m :: k < m <= n ==> !Overlaps(history, input, m)
  {
    if n == 0 || Overlaps(history, input, n) then n else OverlapFrom(history, input, n - 1)
  }

  function Overlap(history: seq<Item>, input: seq<Item>): (k: nat)
    ensures Overlaps(history, input, k)
    ensures forall m :: k < m ==> !Overlaps(history, input, m)
  {
    OverlapFrom(history, input, if |history| < |input| then |history| else |input|)
  }

  function Joined(history: seq<Item>, input: seq<Item>): seq<Item> {
    history + input[Overlap(history, input)..]
  }

  function Merge(priorInput: seq<Item>, priorOutput: seq<Item>, input: seq<Item>): seq<Item> {
    if Replaces(priorInput, input) then input else Joined(priorInput + priorOutput, input)
  }

  predicate EndsWith(s: seq<Item>, t: seq<Item>) { |t| <= |s| && s[|s| - |t|..] == t }

  /** Keeps all of the history in front and all of the new input at the end. */
  predicate Covers(r: seq<Item>, history: seq<Item>, input: seq<Item>) {
    history <= r && EndsWith(r, input)
  }

  /** The joined input is the one shortest list that begins with the history and ends with the new input. */
  lemma JoinedIsShortest(history: seq<Item>, input: seq<Item>)
    ensures Covers(Joined(history, input), history, input)
    ensures forall r :: Covers(r, history, input) ==>
              |Joined(history, input)| <= |r| && (|r| == |Joined(history, input)| ==> r == Joined(history, input))
  {
    var k := Overlap(history, input);
    var j := Joined(history, input);
    assert j[|j| - |input|..] == input by {
      assert j[|j| - |input|..] == history[|history| - k..] + input[k..];
      assert input == input[..k] + input[k..];
    }
    forall r | Covers(r, history, input) ensures |j| <= |r| && (|r| == |j| ==> r == j) {
      CoverOverlaps(r, history, input);
      if |r| == |j| { CoverIsDetermined(r, j, history, input); }
    }
  }

  /** A cover shorter than both parts laid end to end shares that many elements between them. */
  lemma CoverOverlaps(r: seq<Item>, history: seq<Item>, input: seq<Item>)
    requires Covers(r, history, input)
    ensures |r| <= |history| + |input| ==> Overlaps(history, input, |history| + |input| - |r|)
  {
    if |r| <= |history| + |input| {
      var n := |history| + |input| - |r|;
      assert r[|r| - |input|..][..n] == r[..|history|][|history| - n..];
    }
  }

  lemma CoverIsDetermined(r: seq<Item>, s: seq<Item>, history: seq<Item>, input: seq<Item>)
    requires Covers(r, history, input) && Covers(s, history, input) && |r| == |s| <= |history| + |input|
    ensures r == s
  {
    forall i | 0 <= i < |r| ensures r[i] == s[i] {
      if i < |history| {
        assert r[i] == history[i] == s[i];
      } else {
        var d := i - (|r| - |input|);
        assert r[|r| - |input|..][d] == s[|s| - |input|..][d];
      }
    }
  }

  /**
   New input with a compaction in it, or that restarts from the stored input, is sent as it is. Any other is sent
   behind the history, in the shortest list that begins with the one and ends with the other.
   */
  lemma MergeKeeps(priorInput: seq<Item>, priorOutput: seq<Item>, input: seq<Item>)
    ensures (exists i :: 0 <= i < |input| && input[i].Object? && input[i].kind == "compaction") || (priorInput != [] && priorInput <= input)
            ==> Merge(priorInput, priorOutput, input) == input
    ensures (forall i :: 0 <= i < |input| ==> input[i].Object? ==> input[i].kind != "compaction")
            && (priorInput == [] || !(priorInput <= input))
            ==> ShortestCover(Merge(priorInput, priorOutput, input), priorInput + priorOutput, input)
  {
    JoinedIsShortest(priorInput + priorOutput, input);
    if i :| 0 <= i < |input| && input[i].Object? && input[i].kind == "compaction" { assert IsCompaction(input[i]); }
  }

  ghost predicate ShortestCover(r: seq<Item>, history: seq<Item>, input: seq<Item>) {
    Covers(r, history, input) && forall s :: Covers(s, history, input) ==> |r| < |s| || s == r
  }

  /** A client that resends the whole conversation is never given it twice. */
  lemma FullResendIsIdentity(priorInput: seq<Item>, priorOutput: seq<Item>, more: seq<Item>)
    ensures Merge(priorInput, priorOutput, priorInput + priorOutput + more) == priorInput + priorOutput + more
  {
    var h := priorInput + priorOutput;
    var input := h + more;
    if priorInput != [] {
      assert priorInput <= input;
    } else {
      assert Overlaps(h, input, |h|);
      assert Overlap(h, input) == |h|;
    }
  }

  /** The new input neither replaces the history nor begins with the end of it. */
  predicate IsFresh(priorInput: seq<Item>, priorOutput: seq<Item>, input: seq<Item>) {
    var h := priorInput + priorOutput;
    !Replaces(priorInput, input) && forall n :: 1 <= n <= |h| ==> !Overlaps(h, input, n)
  }

  /** Exactly when the prepared input is the history followed by the whole new input. */
  lemma MergeAppendsIff(priorInput: seq<Item>, priorOutput: seq<Item>, input: seq<Item>)
    ensures Merge(priorInput, priorOutput, input) == priorInput + priorOutput + input
            <==> priorInput + priorOutput == [] || IsFresh(priorInput, priorOutput, input)
  {
    var h := priorInput + priorOutput;
    var k := Overlap(h, input);
    if h == [] {
      assert input[0..] == input && h + input == input;
    } else if Replaces(priorInput, input) {
      assert |h + input| > |input|;
    } else if k == 0 {
      assert input[0..] == input;
    } else {
      assert |Joined(h, input)| < |h + input|;
    }
  }

  // ---- whole conversations ----

  /** One turn of a conversation: what the client sent and what the model answered. */
  datatype Turn = Turn(input: seq<Item>, output: seq<Item>)

  /** Everything said before turn i's answer. */
  function Transcript(turns: seq<Turn>, i: nat): seq<Item>
    requires i < |turns|
  {
    if i == 0 then turns[0].input else Transcript(turns, i - 1) + turns[i - 1].output + turns[i].input
  }

  /** Turn i's prepared input when each turn continues the one before. */
  function Chained(turns: seq<Turn>, i: nat): seq<Item>
    requires i < |turns|
  {
    if i == 0 then turns[0].input else Merge(Chained(turns, i - 1), turns[i - 1].output, turns[i].input)
  }

  /** Turn i begins something new with respect to the conversation so far. */
  predicate FreshTurn(turns: seq<Turn>, i: nat)
    requires 0 < i < |turns|
  {
    var said := Transcript(turns, i - 1);
    said + turns[i - 1].output == [] || IsFresh(said, turns[i - 1].output, turns[i].input)
  }

  predicate SentTranscript(turns: seq<Turn>, i: nat)
    requires i < |turns|
  {
    Chained(turns, i) == Transcript(turns, i)
  }

  /** Every turn up to n is sent the plain transcript exactly when every later turn is fresh. */
  lemma {:induction false} ConversationIsTranscriptIff(turns: seq<Turn>, n: nat)
    requires n < |turns|
    ensures (forall i :: 0 <= i <= n ==> SentTranscript(turns, i)) <==> (forall i :: 1 <= i <= n ==> FreshTurn(turns, i))
  {
    if n == 0 {
      assert SentTranscript(turns, 0);
    } else {
      ConversationIsTranscriptIff(turns, n - 1);
      MergeAppendsIff(Transcript(turns, n - 1), turns[n - 1].output, turns[n].input);
      assert SentTranscript(turns, n - 1) ==> (SentTranscript(turns, n) <==> FreshTurn(turns, n));
    }
  }

  /** The turns as a client sends them that repeats the whole conversation every time. */
  function Resent(turns: seq<Turn>): seq<Turn> {
    seq(|turns|, i requires 0 <= i < |turns| => Turn(Transcript(turns, i), turns[i].output))
  }

  /** Such a client gets the plain transcript on every turn, with no condition on what was said. */
  lemma {:induction false} ResendingGivesTranscript(turns: seq<Turn>, n: nat)
    requires n < |turns|
    ensures Chained(Resent(turns), n) == Transcript(turns, n)
  {
    if n > 0 {
      var sent := Resent(turns);
      assert sent[n - 1].output == turns[n - 1].output && sent[n].input == Transcript(turns, n);
      ResendingGivesTranscript(turns, n - 1);
      FullResendIsIdentity(Transcript(turns, n - 1), turns[n - 1].output, turns[n].input);
    }
  }

  // ---- inherited settings ----

  /** The request's own value, or the stored one for the keys that are inherited. */
  function Inherit(fields: map<string, Json>, prior: map<string, Json>): map<string, Json> {
    (map k | k in prior && k in INHERITED :: prior[k]) + fields
  }

  // ---- tool-call pairing ----

  predicate IsCall(item: Item) { item.Object? && item.kind == "function_call" }
  predicate IsOutput(item: Item) { item.Object? && item.kind == "function_call_output" }

  /** Item i is no orphan: an output names an earlier call. */
  predicate PairedAt(items: seq<Item>, i: nat)
    requires i < |items|
  {
    IsOutput(items[i]) ==>
      items[i].callId != "" && exists c :: 0 <= c < i && IsCall(items[c]) && items[c].callId == items[i].callId
  }

  predicate Paired(items: seq<Item>) { forall i :: 0 <= i < |items| ==> PairedAt(items, i) }

  // ---- prepare ----

  function Previous(req: Payload): string { Trim(StringValue(req.previous), Go) }

  predicate Continues(req: Payload) { Previous(req) != "" && !req.reset }

  /** Which stored response the request refers to, if any. */
  function Target(req: Payload, lastId: string): Option<string> {
    if req.reset then None
    else if Previous(req) != "" then Some(Previous(req))
    else if lastId != "" then Some(lastId)
    else None
  }

  /** The request as it would be sent upstream, given the stored response it refers to. */
  function Assemble(req: Payload, found: Option<History>): Prepared
    requires Continues(req) ==> found.Some?
  {
    var fields := if found.Some? then Inherit(req.fields, found.value.payload.fields) else req.fields;
    var input := ResponsesInput(req.input);
    Prepared(fields, if Continues(req) then Merge(found.value.payload.input, found.value.output, input) else input)
  }

  function ModelOf(p: Prepared): string {
    if "model" in p.fields then Trim(StringValue(p.fields["model"]), Go) else ""
  }

  /** r is prepare's answer; `encoded` is the size of the assembled request as JSON. */
  ghost predicate IsAnswer(r: Result<Prepared, Refusal>, req: Payload, found: Option<History>, encoded: nat) {
    if Continues(req) && found.None? then r == Err(UnknownPrevious)
    else
      var p := Assemble(req, found);
      if encoded > MAX_BYTES then r == Err(ContextTooLarge)
      else if ModelOf(p) == "" then r == Err(ModelRequired)
      else if Paired(p.input) then r == Ok(p)
      else exists i :: 0 <= i < |p.input| && FirstOrphan(p.input, i) && r == Err(OrphanOutput(p.input[i].callId))
  }

  predicate FirstOrphan(items: seq<Item>, i: nat)
    requires i < |items|
  {
    !PairedAt(items, i) && items[i].Object? && forall j :: 0 <= j < i ==> PairedAt(items, j)
  }

  /** What an accepted continuation promises about its settings and its tool calls. */
  lemma AcceptedRequest(p: Prepared, req: Payload, found: Option<History>, encoded: nat, key: string)
    requires IsAnswer(Ok(p), req, found, encoded)
    ensures key in req.fields ==> key in p.fields && p.fields[key] == req.fields[key]
    ensures key !in req.fields && key in p.fields ==>
              key in INHERITED && found.Some? && key in found.value.payload.fields && p.fields[key] == found.value.payload.fields[key]
    ensures key !in req.fields && key in INHERITED && found.Some? && key in found.value.payload.fields ==> key in p.fields
    ensures ModelOf(p) != "" && Paired(p.input)
    ensures "model" in req.fields || (found.Some? && "model" in found.value.payload.fields)
    ensures !Continues(req) ==> p.input == ResponsesInput(req.input)
    ensures Continues(req) ==> found.Some?
  {
  }

  /** The input of an accepted request that names an earlier response: told from the two lists alone. */
  ghost predicate ContinuesAs(r: seq<Item>, input: seq<Item>, prior: History) {
    && ((exists i :: 0 <= i < |input| && input[i].Object? && input[i].kind == "compaction") ==> r == input)
    && (prior.payload.input != [] && prior.payload.input <= input ==> r == input)
    && ((forall i :: 0 <= i < |input| && input[i].Object? ==> input[i].kind != "compaction")
        && (prior.payload.input == [] || !(prior.payload.input <= input))
        ==> ShortestCover(r, prior.payload.input + prior.output, input))
  }

  /** A list is taken as it is, a text as one user message, anything else as nothing. */
  lemma InputOf(v: InputValue)
    ensures v.ListInput? ==> ResponsesInput(v) == v.items
    ensures v.TextInput? ==> |ResponsesInput(v)| == 1 && ResponsesInput(v)[0].Object?
                             && ResponsesInput(v)[0].role == "user" && ResponsesInput(v)[0].content == v.text
    ensures v.NoInput? ==> ResponsesInput(v) == []
  {
  }

  /** Item i is a tool's output for which nothing before it is a call. */
  predicate Unasked(items: seq<Item>, i: nat)
    requires i < |items|
  {
    && items[i].Object? && items[i].kind == "function_call_output"
    && (items[i].callId == ""
        || forall c :: 0 <= c < i && items[c].Object? && items[c].kind == "function_call" ==> items[c].callId != items[i].callId)
  }

  predicate HasModel(fields: map<string, Json>) { "model" in fields && Trim(StringValue(fields["model"]), Go) != "" }

  /** Why a request is refused, and that it is accepted otherwise. */
  lemma RefusalHasItsCause(r: Result<Prepared, Refusal>, req: Payload, found: Option<History>, encoded: nat)
    requires IsAnswer(r, req, found, encoded) && (Continues(req) ==> found.Some?)
    ensures r == Err(ContextTooLarge) <==> encoded > 2 * 1024 * 1024
    ensures r.Err? && r.error.ModelRequired? ==>
              !HasModel(req.fields) && ("model" in req.fields || found.None? || !HasModel(found.value.payload.fields))
    ensures r.Ok? ==> HasModel(req.fields) || ("model" !in req.fields && found.Some? && HasModel(found.value.payload.fields))
    ensures var items := Assemble(req, found).input;
            && (r.Ok? ==> forall i :: 0 <= i < |items| ==> !Unasked(items, i))
            && (r.Err? && r.error.OrphanOutput? ==>
                  exists i :: 0 <= i < |items| && Unasked(items, i) && items[i].callId == r.error.id
                              && forall j :: 0 <= j < i ==> !Unasked(items, j))
  {
    var items := Assemble(req, found).input;
    forall i | 0 <= i < |items| ensures PairedAt(items, i) <==> !Unasked(items, i) { UnaskedIff(items, i); }
  }

  lemma UnaskedIff(items: seq<Item>, i: nat)
    requires i < |items|
    ensures PairedAt(items, i) <==> !Unasked(items, i)
  {
    if PairedAt(items, i) && IsOutput(items[i]) {
      var c :| 0 <= c < i && IsCall(items[c]) && items[c].callId == items[i].callId;
    } else if IsOutput(items[i]) && items[i].callId != "" {
      assert forall c :: 0 <= c < i && items[c].Object? && items[c].kind == "function_call" ==> IsCall(items[c]);
    }
  }

  /** What an accepted request is sent with: its own input, or that input joined to the response it names. */
  lemma AcceptedInput(p: Prepared, req: Payload, found: Option<History>, encoded: nat)
    requires IsAnswer(Ok(p), req, found, encoded)
    ensures req.reset || Trim(StringValue(req.previous), Go) == "" ==> p.input == ResponsesInput(req.input)
    ensures !req.reset && Trim(StringValue(req.previous), Go) != "" ==>
              found.Some? && ContinuesAs(p.input, ResponsesInput(req.input), found.value)
  {
    if Continues(req) { MergeKeeps(found.value.payload.input, found.value.output, ResponsesInput(req.input)); }
  }
}
