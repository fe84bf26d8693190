/**
 The writer that turns canonical provider events into Responses events
 (internal/api/responses_stream.go).
 */
module StreamWriter {
  import opened StreamProtocol
  import opened Text
  import opened Wrappers

  datatype ToolDelta = ToolDelta(index: int, id: string, name: string, arguments: string)

  datatype CanonicalEvent =
    | MessageStart
    | TextDelta(text: string)
    | ReasoningDelta(itemId: string, encrypted: string, reasoning: string)
    | ToolCallDelta(call: Option<ToolDelta>)
    | Image(media: string)
    | Audio(media: string)
    | Usage(usage: Option<string>)
    | MessageEnd
    | Failure(message: string)
    | Unknown

  // ---- the writer's fields, in groups, and everything it has emitted ----

  datatype Msg = Msg(text: string, added: bool, part: bool, done: bool)
  datatype Rs = Rs(id: string, text: string, encrypted: string, added: bool, done: bool)
  datatype Tools = Tools(args: map<int, string>, names: map<int, string>, callIds: map<int, string>, done: set<int>)
  datatype Out = Out(number: int, started: bool, completed: bool, trace: seq<Event>)

  datatype State = State(responseId: string, out: Out, msg: Msg, rs: Rs, tools: Tools, usage: Option<string>)

  function Fresh(responseId: string): State {
    State(responseId, Out(0, false, false, []), Msg("", false, false, false), Rs("", "", "", false, false),
          Tools(map[], map[], map[], {}), None)
  }

  function At(m: map<int, string>, i: int): string { if i in m then m[i] else "" }

  // ---- what each operation does ----

  function Emit(o: Out, b: Body): Out {
    o.(number := o.number + 1, trace := o.trace + [Event(o.number + 1, b)])
  }

  function EnsureStarted(o: Out): Out {
    if o.started then o else Emit(Emit(o, Created), InProgress).(started := true)
  }

  function MessageId(responseId: string): string { "msg_" + responseId + "_0" }

  function OnMessage(responseId: string, stage: Stage, text: string): Body {
    OnItem(Message, stage, 0, MessageId(responseId), text, "")
  }

  /** The message item and its one content part, each added once. */
  function OpenMessage(o: Out, m: Msg, responseId: string): Out {
    var o1 := if m.added then o else Emit(o, OnMessage(responseId, Added, ""));
    if m.part then o1 else Emit(o1, OnMessage(responseId, PartAdded, ""))
  }

  function EmitText(s: State, text: string): State {
    if text == "" then s else WriteText(CloseReasoning(s), text)
  }

  function WriteText(s: State, text: string): State {
    var o := Emit(OpenMessage(EnsureStarted(s.out), s.msg, s.responseId), OnMessage(s.responseId, Delta, text));
    s.(out := o, msg := Msg(s.msg.text + text, true, true, s.msg.done))
  }

  function OnReasoning(rs: Rs, stage: Stage, text: string): Body {
    OnItem(Reasoning, stage, 0, rs.id, text, if stage == Done then rs.encrypted else "")
  }

  function StartReasoning(s: State): State {
    if s.rs.added then s
    else
      var rs := s.rs.(id := if s.rs.id == "" then "rs_" + s.responseId + "_0" else s.rs.id, added := true);
      s.(rs := rs, out := Emit(Emit(EnsureStarted(s.out), OnReasoning(rs, Added, "")), OnReasoning(rs, PartAdded, "")))
  }

  function ApplyMeta(rs: Rs, itemId: string, encrypted: string): Rs {
    rs.(id := if Trim(itemId, Go) != "" then Trim(itemId, Go) else rs.id,
        encrypted := if Trim(encrypted, Go) != "" then Trim(encrypted, Go) else rs.encrypted)
  }

  function EmitReasoning(s: State, text: string): State {
    var s1 := StartReasoning(s);
    if text == "" then s1
    else s1.(out := Emit(s1.out, OnReasoning(s1.rs, Delta, text)), rs := s1.rs.(text := s1.rs.text + text))
  }

  function CloseReasoning(s: State): State {
    if !s.rs.added || s.rs.done then s
    else
      var o := Emit(s.out, OnReasoning(s.rs, TextDone, s.rs.text));
      s.(out := Emit(Emit(o, OnReasoning(s.rs, PartDone, s.rs.text)), OnReasoning(s.rs, Done, s.rs.text)),
         rs := s.rs.(done := true))
  }

  function CloseMessage(s: State): State {
    if !s.msg.added || s.msg.done then s
    else
      var o := Emit(s.out, OnMessage(s.responseId, TextDone, s.msg.text));
      s.(out := Emit(Emit(o, OnMessage(s.responseId, PartDone, s.msg.text)), OnMessage(s.responseId, Done, s.msg.text)),
         msg := s.msg.(done := true))
  }

  function OnTool(tools: Tools, i: int, stage: Stage, text: string): Body {
    OnItem(Tool(i), stage, i, "fc_" + At(tools.callIds, i), text, if stage in {Added, Done} then At(tools.names, i) else "")
  }

  function Rename(tools: Tools, i: int, name: string): Tools {
    if name != "" then tools.(names := tools.names[i := name]) else tools
  }

  function AddTool(s: State, i: int, id: string): State {
    if id == "" || At(s.tools.callIds, i) != "" then s
    else
      var tools := s.tools.(callIds := s.tools.callIds[i := id]);
      s.(tools := tools, out := Emit(EnsureStarted(s.out), OnTool(tools, i, Added, "")))
  }

  /** Argument text that arrives before the call has an id is dropped. */
  function AppendArguments(s: State, i: int, text: string): State {
    if text == "" || At(s.tools.callIds, i) == "" then s
    else s.(out := Emit(s.out, OnTool(s.tools, i, Delta, text)),
            tools := s.tools.(args := s.tools.args[i := At(s.tools.args, i) + text]))
  }

  function ToolIndex(c: ToolDelta): int { if c.index < 0 then 0 else c.index }

  function EmitTool(s: State, call: Option<ToolDelta>): State {
    if call.None? then s
    else
      var c, i := call.value, ToolIndex(call.value);
      var s1 := CloseReasoning(CloseMessage(s));
      AppendArguments(AddTool(s1.(tools := Rename(s1.tools, i, c.name)), i, c.id), i, c.arguments)
  }

  function ArgumentsOf(tools: Tools, i: int): string {
    if At(tools.args, i) == "" then "{}" else At(tools.args, i)
  }

  function CloseTool(s: State, i: int): State {
    if At(s.tools.callIds, i) == "" || i in s.tools.done then s
    else
      var text := ArgumentsOf(s.tools, i);
      s.(out := Emit(Emit(s.out, OnTool(s.tools, i, TextDone, text)), OnTool(s.tools, i, Done, text)),
         tools := s.tools.(done := s.tools.done + {i}))
  }

  /** Tool calls are closed in an order the writer does not control. */
  function CloseTools(s: State, order: seq<int>): State {
    if order == [] then s else CloseTool(CloseTools(s, order[..|order| - 1]), order[|order| - 1])
  }

  function SendCompleted(s: State): State {
    if s.out.completed then s else s.(out := Emit(s.out, Completed(s.usage)).(completed := true))
  }

  function End(s: State, order: seq<int>): State {
    SendCompleted(CloseTools(CloseReasoning(CloseMessage(s)), order))
  }

  /** One canonical event; `order` is the order of closing tool calls, should it end the message. */
  function Handle(s: State, e: CanonicalEvent, order: seq<int>): State {
    match e
    case MessageStart => s.(out := EnsureStarted(s.out))
    case TextDelta(text) => EmitText(s, text)
    case ReasoningDelta(id, encrypted, text) => EmitReasoning(s.(rs := ApplyMeta(s.rs, id, encrypted)), text)
    case ToolCallDelta(call) => EmitTool(s, call)
    case Image(media) => s.(out := Emit(EnsureStarted(s.out), ImageDelta(media)))
    case Audio(media) => s.(out := Emit(EnsureStarted(s.out), AudioDelta(media)))
    case Usage(usage) => if usage.Some? then s.(usage := usage) else s
    case MessageEnd => End(s, order)
    case Failure(message) => s.(out := Emit(s.out, Error(message)))
    case Unknown => s
  }

  /** Any run at all, including events after the end. */
  function Run(responseId: string, events: seq<CanonicalEvent>, orders: seq<seq<int>>): State
    requires |orders| == |events|
  {
    if events == [] then Fresh(responseId)
    else
      var n := |events| - 1;
      Handle(Run(responseId, events[..n], orders[..n]), events[n], orders[n])
  }

  // ---- the fields say what the trace says ----

  ghost predicate MessageInSync(m: Msg, t: seq<Event>) {
    && m.added == m.part == Has(t, Message, Added) == Has(t, Message, PartAdded)
    && m.done == Has(t, Message, TextDone) == Has(t, Message, PartDone) == Has(t, Message, Done)
    && m.text == Deltas(t, Message)
    && (m.done ==> m.added)
  }

  ghost predicate ReasoningInSync(rs: Rs, t: seq<Event>) {
    && rs.added == Has(t, Reasoning, Added) == Has(t, Reasoning, PartAdded)
    && rs.done == Has(t, Reasoning, TextDone) == Has(t, Reasoning, PartDone) == Has(t, Reasoning, Done)
    && rs.text == Deltas(t, Reasoning)
    && (rs.done ==> rs.added)
  }

  ghost predicate ToolInSync(tools: Tools, i: int, t: seq<Event>) {
    && (At(tools.callIds, i) != "") == Has(t, Tool(i), Added)
    && (i in tools.done) == Has(t, Tool(i), TextDone) == Has(t, Tool(i), Done)
    && At(tools.args, i) == Deltas(t, Tool(i))
    && (i in tools.done ==> At(tools.callIds, i) != "")
  }

  ghost predicate ToolsInSync(tools: Tools, t: seq<Event>) { forall i :: ToolInSync(tools, i, t) }

  ghost predicate OutInv(o: Out) {
    && o.number == |o.trace| && LegalTrace(o.trace) && Numbered(o.trace)
    && o.started == HasCreated(o.trace) && o.completed == HasCompleted(o.trace)
  }

  ghost predicate Inv(s: State) {
    && OutInv(s.out)
    && MessageInSync(s.msg, s.out.trace) && ReasoningInSync(s.rs, s.out.trace) && ToolsInSync(s.tools, s.out.trace)
    && (s.msg.added || s.rs.added ==> s.out.started)
    && (forall i :: At(s.tools.callIds, i) != "" ==> s.out.started)
  }

  // ---- one event more ----

  /** The two traces say the same about an item. */
  ghost predicate SameFor(t: seq<Event>, u: seq<Event>, x: ItemRef) {
    (forall stage :: Has(t, x, stage) == Has(u, x, stage)) && Deltas(t, x) == Deltas(u, x)
  }

  ghost predicate SameOutside(t: seq<Event>, u: seq<Event>, x: ItemRef) {
    forall y :: y != x ==> SameFor(t, u, y)
  }

  /** u is t with the event (x, stage, text) seen as well. */
  ghost predicate Gained(t: seq<Event>, u: seq<Event>, x: ItemRef, stage: Stage, text: string) {
    && (forall g :: Has(u, x, g) == (Has(t, x, g) || g == stage))
    && Deltas(u, x) == Deltas(t, x) + (if stage == Delta then text else "")
    && SameOutside(t, u, x)
  }

  lemma EmittedItem(o: Out, b: Body)
    requires OutInv(o) && b.OnItem? && Legal(o.trace, b)
    ensures OutInv(Emit(o, b))
    ensures Gained(o.trace, Emit(o, b).trace, b.item, b.stage, b.text)
  {
    var t := Emit(o, b).trace;
    assert t[..|t| - 1] == o.trace;
  }

  lemma EmittedOther(o: Out, b: Body)
    requires OutInv(o) && !b.OnItem? && !b.Created? && !b.Completed?
    ensures OutInv(Emit(o, b))
    ensures forall x :: SameFor(o.trace, Emit(o, b).trace, x)
  {
    var t := Emit(o, b).trace;
    assert t[..|t| - 1] == o.trace;
  }

  lemma Started(o: Out)
    requires OutInv(o)
    ensures OutInv(EnsureStarted(o)) && EnsureStarted(o).started && EnsureStarted(o).completed == o.completed
    ensures forall x :: SameFor(o.trace, EnsureStarted(o).trace, x)
  {
    if !o.started {
      var o1 := Emit(o, Created);
      assert o1.trace[..|o1.trace| - 1] == o.trace;
      assert OutInv(o1.(started := true));
      EmittedOther(o1.(started := true), InProgress);
      forall x ensures SameFor(o.trace, EnsureStarted(o).trace, x) {
        assert SameFor(o.trace, o1.trace, x);
        assert SameFor(o1.trace, EnsureStarted(o).trace, x);
      }
    }
  }

  lemma CompletedOut(o: Out, usage: Option<string>)
    requires OutInv(o) && !o.completed
    ensures OutInv(Emit(o, Completed(usage)).(completed := true))
    ensures forall x :: SameFor(o.trace, Emit(o, Completed(usage)).trace, x)
  {
    var t := Emit(o, Completed(usage)).trace;
    assert t[..|t| - 1] == o.trace;
  }

  // ---- every operation keeps the invariant ----

  lemma ToolsUntouched(tools: Tools, t: seq<Event>, u: seq<Event>)
    requires ToolsInSync(tools, t) && forall i :: SameFor(t, u, Tool(i))
    ensures ToolsInSync(tools, u)
  {
    forall i ensures ToolInSync(tools, i, u) {
      assert ToolInSync(tools, i, t) && SameFor(t, u, Tool(i));
    }
  }

  /** Events about no item keep everything in step. */
  lemma ItemsUntouched(s: State, o: Out)
    requires Inv(s) && OutInv(o) && (s.out.started ==> o.started)
    requires forall x :: SameFor(s.out.trace, o.trace, x)
    ensures Inv(s.(out := o))
  {
    assert SameFor(s.out.trace, o.trace, Message) && SameFor(s.out.trace, o.trace, Reasoning);
    ToolsUntouched(s.tools, s.out.trace, o.trace);
  }

  lemma StartedInv(s: State)
    requires Inv(s)
    ensures Inv(s.(out := EnsureStarted(s.out)))
  {
    Started(s.out);
    ItemsUntouched(s, EnsureStarted(s.out));
  }

  lemma MediaInv(s: State, b: Body)
    requires Inv(s) && (b.ImageDelta? || b.AudioDelta? || b.Error?)
    ensures Inv(s.(out := Emit(s.out, b)))
  {
    EmittedOther(s.out, b);
    ItemsUntouched(s, Emit(s.out, b));
  }

  lemma CompletedInv(s: State)
    requires Inv(s)
    ensures Inv(SendCompleted(s)) && SendCompleted(s).out.completed
  {
    if !s.out.completed {
      CompletedOut(s.out, s.usage);
      ItemsUntouched(s, SendCompleted(s).out);
    }
  }

  /** Three closing events in a row. */
  lemma ClosingEvents(o: Out, b1: Body, b2: Body, b3: Body)
    requires OutInv(o) && b1.OnItem? && b1.stage == TextDone
    requires b2.OnItem? && b3.OnItem?
    requires b2 == b1.(stage := PartDone, name := b2.name) && b3 == b1.(stage := Done, name := b3.name)
    requires b1.outputIndex == OutputIndex(b1.item)
    requires HasCreated(o.trace) && Has(o.trace, b1.item, Added) && b1.text == Final(b1.item, Deltas(o.trace, b1.item))
    requires !Has(o.trace, b1.item, TextDone) && !Has(o.trace, b1.item, PartDone) && !Has(o.trace, b1.item, Done)
    ensures var r := Emit(Emit(Emit(o, b1), b2), b3);
            && OutInv(r) && r.started == o.started && r.completed == o.completed
            && Deltas(r.trace, b1.item) == Deltas(o.trace, b1.item)
            && (forall g :: Has(r.trace, b1.item, g) == (Has(o.trace, b1.item, g) || g in {TextDone, PartDone, Done}))
            && SameOutside(o.trace, r.trace, b1.item)
  {
    var o1 := Emit(o, b1);
    EmittedItem(o, b1);
    var o2 := Emit(o1, b2);
    EmittedItem(o1, b2);
    var o3 := Emit(o2, b3);
    EmittedItem(o2, b3);
    forall y | y != b1.item ensures SameFor(o.trace, o3.trace, y) {
      assert SameFor(o.trace, o1.trace, y) && SameFor(o1.trace, o2.trace, y) && SameFor(o2.trace, o3.trace, y);
    }
  }

  lemma CloseReasoningInv(s: State)
    requires Inv(s)
    ensures Inv(CloseReasoning(s)) && (s.rs.added ==> CloseReasoning(s).rs.done)
  {
    if s.rs.added && !s.rs.done {
      var text, r := s.rs.text, CloseReasoning(s);
      ClosingEvents(s.out, OnReasoning(s.rs, TextDone, text), OnReasoning(s.rs, PartDone, text), OnReasoning(s.rs, Done, text));
      assert SameFor(s.out.trace, r.out.trace, Message);
      ToolsUntouched(s.tools, s.out.trace, r.out.trace);
    }
  }

  lemma CloseMessageInv(s: State)
    requires Inv(s)
    ensures Inv(CloseMessage(s)) && (s.msg.added ==> CloseMessage(s).msg.done)
  {
    if s.msg.added && !s.msg.done {
      var text, id, r := s.msg.text, s.responseId, CloseMessage(s);
      ClosingEvents(s.out, OnMessage(id, TextDone, text), OnMessage(id, PartDone, text), OnMessage(id, Done, text));
      assert SameFor(s.out.trace, r.out.trace, Reasoning);
      ToolsUntouched(s.tools, s.out.trace, r.out.trace);
    }
  }

  /** The two events that open an item with one part. */
  lemma OpeningEvents(o: Out, b1: Body, b2: Body)
    requires OutInv(o) && b1.OnItem? && b1.stage == Added && b2 == b1.(stage := PartAdded) && b1.outputIndex == OutputIndex(b1.item)
    requires HasCreated(o.trace) && !Has(o.trace, b1.item, Added) && !Has(o.trace, b1.item, PartAdded)
    ensures var r := Emit(Emit(o, b1), b2);
            && OutInv(r) && r.started == o.started
            && Deltas(r.trace, b1.item) == Deltas(o.trace, b1.item)
            && (forall g :: Has(r.trace, b1.item, g) == (Has(o.trace, b1.item, g) || g in {Added, PartAdded}))
            && SameOutside(o.trace, r.trace, b1.item)
  {
    var o1 := Emit(o, b1);
    EmittedItem(o, b1);
    EmittedItem(o1, b2);
    forall y | y != b1.item ensures SameFor(o.trace, Emit(o1, b2).trace, y) {
      assert SameFor(o.trace, o1.trace, y) && SameFor(o1.trace, Emit(o1, b2).trace, y);
    }
  }

  lemma OpenMessageInv(s: State)
    requires Inv(s) && s.out.started
    ensures var o := OpenMessage(s.out, s.msg, s.responseId);
            Inv(s.(out := o, msg := s.msg.(added := true, part := true)))
  {
    if !s.msg.added {
      var b1, b2 := OnMessage(s.responseId, Added, ""), OnMessage(s.responseId, PartAdded, "");
      OpeningEvents(s.out, b1, b2);
      var o := OpenMessage(s.out, s.msg, s.responseId);
      assert SameFor(s.out.trace, o.trace, Reasoning);
      ToolsUntouched(s.tools, s.out.trace, o.trace);
    }
  }

  lemma TextDeltaInv(s: State, text: string)
    requires Inv(s) && s.msg.added
    ensures Inv(s.(out := Emit(s.out, OnMessage(s.responseId, Delta, text)), msg := s.msg.(text := s.msg.text + text)))
  {
    var b := OnMessage(s.responseId, Delta, text);
    EmittedItem(s.out, b);
    assert SameFor(s.out.trace, Emit(s.out, b).trace, Reasoning);
    ToolsUntouched(s.tools, s.out.trace, Emit(s.out, b).trace);
  }

  lemma TextInv(s: State, text: string)
    requires Inv(s)
    ensures Inv(EmitText(s, text))
  {
    if text != "" {
      CloseReasoningInv(s);
      var s1 := CloseReasoning(s);
      Started(s1.out);
      ItemsUntouched(s1, EnsureStarted(s1.out));
      var s2 := s1.(out := EnsureStarted(s1.out));
      OpenMessageInv(s2);
      var s3 := s2.(out := OpenMessage(s2.out, s2.msg, s2.responseId), msg := s2.msg.(added := true, part := true));
      TextDeltaInv(s3, text);
      assert EmitText(s, text) == s3.(out := Emit(s3.out, OnMessage(s3.responseId, Delta, text)), msg := s3.msg.(text := s3.msg.text + text));
    }
  }

  /** The reasoning item's id and encrypted content, tool names and usage play no part. */
  lemma Renamed(s: State, r: State)
    requires Inv(s) && r.out == s.out && r.msg == s.msg
    requires r.rs == s.rs.(id := r.rs.id, encrypted := r.rs.encrypted) && r.tools == s.tools.(names := r.tools.names)
    ensures Inv(r)
  {
    forall i ensures ToolInSync(r.tools, i, r.out.trace) { assert ToolInSync(s.tools, i, s.out.trace); }
  }

  lemma StartReasoningInv(s: State)
    requires Inv(s)
    ensures Inv(StartReasoning(s)) && StartReasoning(s).rs.added
  {
    if !s.rs.added {
      var r := StartReasoning(s);
      Started(s.out);
      ItemsUntouched(s, EnsureStarted(s.out));
      var s1 := s.(out := EnsureStarted(s.out));
      OpeningEvents(s1.out, OnReasoning(r.rs, Added, ""), OnReasoning(r.rs, PartAdded, ""));
      assert SameFor(s1.out.trace, r.out.trace, Message);
      ToolsUntouched(s1.tools, s1.out.trace, r.out.trace);
    }
  }

  lemma ReasoningInv(s: State, text: string)
    requires Inv(s)
    ensures Inv(EmitReasoning(s, text))
  {
    StartReasoningInv(s);
    var s1 := StartReasoning(s);
    if text != "" {
      var b, r := OnReasoning(s1.rs, Delta, text), EmitReasoning(s, text);
      EmittedItem(s1.out, b);
      assert SameFor(s1.out.trace, r.out.trace, Message);
      ToolsUntouched(s1.tools, s1.out.trace, r.out.trace);
    }
  }

  /** Events about one tool. */
  lemma OneTool(s: State, r: State, i: int)
    requires Inv(s) && OutInv(r.out) && r.out.started && r.msg == s.msg && r.rs == s.rs
    requires ToolInSync(r.tools, i, r.out.trace) && SameOutside(s.out.trace, r.out.trace, Tool(i))
    requires forall j :: j != i ==> At(r.tools.callIds, j) == At(s.tools.callIds, j) && At(r.tools.args, j) == At(s.tools.args, j)
                                    && (j in r.tools.done <==> j in s.tools.done)
    ensures Inv(r)
  {
    assert SameFor(s.out.trace, r.out.trace, Message) && SameFor(s.out.trace, r.out.trace, Reasoning);
    forall j ensures ToolInSync(r.tools, j, r.out.trace) {
      if j != i { assert ToolInSync(s.tools, j, s.out.trace) && SameFor(s.out.trace, r.out.trace, Tool(j)); }
    }
  }

  lemma AddToolInv(s: State, i: int, id: string)
    requires Inv(s)
    ensures Inv(AddTool(s, i, id))
  {
    if id != "" && At(s.tools.callIds, i) == "" {
      var r := AddTool(s, i, id);
      Started(s.out);
      ItemsUntouched(s, EnsureStarted(s.out));
      var s1 := s.(out := EnsureStarted(s.out));
      assert ToolInSync(s1.tools, i, s1.out.trace);
      EmittedItem(s1.out, OnTool(r.tools, i, Added, ""));
      OneTool(s1, r, i);
    }
  }

  lemma AppendArgumentsInv(s: State, i: int, text: string)
    requires Inv(s)
    ensures Inv(AppendArguments(s, i, text))
  {
    if text != "" && At(s.tools.callIds, i) != "" {
      assert ToolInSync(s.tools, i, s.out.trace);
      EmittedItem(s.out, OnTool(s.tools, i, Delta, text));
      OneTool(s, AppendArguments(s, i, text), i);
    }
  }

  lemma ToolInv(s: State, call: Option<ToolDelta>)
    requires Inv(s)
    ensures Inv(EmitTool(s, call))
  {
    if call.Some? {
      var c, i := call.value, ToolIndex(call.value);
      CloseMessageInv(s);
      CloseReasoningInv(CloseMessage(s));
      var s1 := CloseReasoning(CloseMessage(s));
      var s2 := s1.(tools := Rename(s1.tools, i, c.name));
      Renamed(s1, s2);
      AddToolInv(s2, i, c.id);
      AppendArgumentsInv(AddTool(s2, i, c.id), i, c.arguments);
    }
  }

  lemma CloseToolInv(s: State, i: int)
    requires Inv(s)
    ensures Inv(CloseTool(s, i))
    ensures CloseTool(s, i).tools == s.tools.(done := if At(s.tools.callIds, i) == "" then s.tools.done else s.tools.done + {i})
  {
    assert ToolInSync(s.tools, i, s.out.trace);
    if At(s.tools.callIds, i) == "" {
    } else if i in s.tools.done {
      assert s.tools.done + {i} == s.tools.done;
    } else {
      var text, r := ArgumentsOf(s.tools, i), CloseTool(s, i);
      var b1, b2 := OnTool(s.tools, i, TextDone, text), OnTool(s.tools, i, Done, text);
      var o1 := Emit(s.out, b1);
      EmittedItem(s.out, b1);
      EmittedItem(o1, b2);
      forall y | y != Tool(i) ensures SameFor(s.out.trace, r.out.trace, y) {
        assert SameFor(s.out.trace, o1.trace, y) && SameFor(o1.trace, r.out.trace, y);
      }
      OneTool(s, r, i);
    }
  }

  lemma {:induction false} CloseToolsInv(s: State, order: seq<int>)
    requires Inv(s)
    ensures Inv(CloseTools(s, order))
    ensures CloseTools(s, order).tools.callIds == s.tools.callIds
    ensures CloseTools(s, order).msg == s.msg && CloseTools(s, order).rs == s.rs
    ensures forall i :: i in order && At(s.tools.callIds, i) != "" ==> i in CloseTools(s, order).tools.done
  {
    if order != [] {
      CloseToolsInv(s, order[..|order| - 1]);
      CloseToolInv(CloseTools(s, order[..|order| - 1]), order[|order| - 1]);
    }
  }

  /** The closing order names every tool call that has an id. */
  ghost predicate ClosesAll(tools: Tools, order: seq<int>) {
    forall i :: At(tools.callIds, i) != "" ==> i in order
  }

  /** Every item that was added is done. */
  ghost predicate AllClosed(t: seq<Event>) {
    forall x :: Has(t, x, Added) ==> Has(t, x, Done)
  }

  /** The flags that End raises mean that nothing is left open. */
  lemma FlagsCloseAll(s: State)
    requires Inv(s) && (s.msg.added ==> s.msg.done) && (s.rs.added ==> s.rs.done)
    requires forall i :: At(s.tools.callIds, i) != "" ==> i in s.tools.done
    ensures AllClosed(s.out.trace)
  {
    forall x | Has(s.out.trace, x, Added) ensures Has(s.out.trace, x, Done) {
      if x.Tool? { assert ToolInSync(s.tools, x.index, s.out.trace); }
    }
  }

  lemma EndInv(s: State, order: seq<int>)
    requires Inv(s)
    ensures Inv(End(s, order))
    ensures ClosesAll(s.tools, order) ==> AllClosed(End(s, order).out.trace)
    ensures HasCompleted(End(s, order).out.trace)
  {
    CloseMessageInv(s);
    CloseReasoningInv(CloseMessage(s));
    var s2 := CloseReasoning(CloseMessage(s));
    CloseToolsInv(s2, order);
    CompletedInv(CloseTools(s2, order));
    if ClosesAll(s.tools, order) { FlagsCloseAll(End(s, order)); }
  }

  lemma HandleInv(s: State, e: CanonicalEvent, order: seq<int>)
    requires Inv(s)
    ensures Inv(Handle(s, e, order))
  {
    match e
    case MessageStart => StartedInv(s);
    case TextDelta(text) => TextInv(s, text);
    case ReasoningDelta(id, encrypted, text) =>
      var s1 := s.(rs := ApplyMeta(s.rs, id, encrypted));
      Renamed(s, s1);
      ReasoningInv(s1, text);
    case ToolCallDelta(call) => ToolInv(s, call);
    case Image(media) => StartedInv(s); MediaInv(s.(out := EnsureStarted(s.out)), ImageDelta(media));
    case Audio(media) => StartedInv(s); MediaInv(s.(out := EnsureStarted(s.out)), AudioDelta(media));
    case Usage(usage) => if usage.Some? { Renamed(s, s.(usage := usage)); }
    case MessageEnd => EndInv(s, order);
    case Failure(message) => MediaInv(s, Error(message));
    case Unknown =>
  }

  /** Whatever the provider sends, in whatever order, the client sees a legal, gaplessly numbered stream. */
  lemma {:induction false} EveryRunIsLegal(responseId: string, events: seq<CanonicalEvent>, orders: seq<seq<int>>)
    requires |orders| == |events|
    ensures Inv(Run(responseId, events, orders))
    ensures LegalTrace(Run(responseId, events, orders).out.trace) && Numbered(Run(responseId, events, orders).out.trace)
    decreases |events|
  {
    if events != [] {
      var n := |events| - 1;
      EveryRunIsLegal(responseId, events[..n], orders[..n]);
      HandleInv(Run(responseId, events[..n], orders[..n]), events[n], orders[n]);
    }
  }

  /** When the message ends, every item that was opened has been closed and the response is completed. */
  lemma EndClosesEverything(responseId: string, events: seq<CanonicalEvent>, orders: seq<seq<int>>, order: seq<int>)
    requires |orders| == |events|
    requires ClosesAll(Run(responseId, events, orders).tools, order)
    ensures var t := Run(responseId, events + [MessageEnd], orders + [order]).out.trace;
            AllClosed(t) && HasCompleted(t)
  {
    var n := |events|;
    assert (events + [MessageEnd])[..n] == events && (orders + [order])[..n] == orders;
    EveryRunIsLegal(responseId, events, orders);
    EndInv(Run(responseId, events, orders), order);
  }
}
