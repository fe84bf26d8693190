/**
 Under which ids the items of a Responses stream appear, and which names
 their events carry (internal/api/responses_stream.go).
 */
module StreamIds {
  import opened StreamOutcomes
  import opened StreamProtocol
  import opened StreamWriter
  import opened Text
  import opened Wrappers

  /** The id under which an item's events are emitted in a state. */
  function IdIn(s: State, x: ItemRef): string {
    match x
    case Message => MessageId(s.responseId)
    case Reasoning => s.rs.id
    case Tool(i) => "fc_" + At(s.tools.callIds, i)
  }

  /** What an item's events carry besides in a state: a call's name, or reasoning in encrypted form. */
  function NameIn(s: State, x: ItemRef, stage: Stage): string {
    match x
    case Message => ""
    case Reasoning => if stage.Done? then s.rs.encrypted else ""
    case Tool(i) => if stage.Added? || stage.Done? then At(s.tools.names, i) else ""
  }

  predicate GoesBy(e: Event, s: State) {
    e.body.OnItem? ==> e.body.itemId == IdIn(s, e.body.item) && e.body.name == NameIn(s, e.body.item, e.body.stage)
  }

  /** u adds to t, and what it adds goes by the ids and names of s. */
  predicate AddsUnder(t: seq<Event>, u: seq<Event>, s: State) {
    t <= u && forall j :: |t| <= j < |u| ==> GoesBy(u[j], s)
  }

  lemma AddsTwice(t: seq<Event>, u: seq<Event>, w: seq<Event>, s: State)
    requires AddsUnder(t, u, s) && AddsUnder(u, w, s)
    ensures AddsUnder(t, w, s)
  {
    forall j | |t| <= j < |w| ensures GoesBy(w[j], s) {
      if j < |u| { assert u[j] == w[j]; }
    }
  }

  // ---- what each operation adds ----

  /** The same ids and names are in force. */
  predicate SameIds(s: State, r: State) {
    s.responseId == r.responseId && s.rs.id == r.rs.id && s.rs.encrypted == r.rs.encrypted
    && s.tools.callIds == r.tools.callIds && s.tools.names == r.tools.names
  }

  lemma ClosingUnder(s: State)
    ensures AddsUnder(s.out.trace, CloseReasoning(s).out.trace, s) && SameIds(s, CloseReasoning(s))
    ensures AddsUnder(s.out.trace, CloseMessage(s).out.trace, s) && SameIds(s, CloseMessage(s))
  {
  }

  lemma {:induction false} CloseToolsUnder(s: State, order: seq<int>)
    ensures AddsUnder(s.out.trace, CloseTools(s, order).out.trace, s) && SameIds(s, CloseTools(s, order))
  {
    if order != [] {
      var t := CloseTools(s, order[..|order| - 1]);
      CloseToolsUnder(s, order[..|order| - 1]);
      CloseToolUnder(t, order[|order| - 1]);
      AddsTwice(s.out.trace, t.out.trace, CloseTools(s, order).out.trace, s);
    }
  }

  lemma CloseToolUnder(s: State, i: int)
    ensures AddsUnder(s.out.trace, CloseTool(s, i).out.trace, s) && SameIds(s, CloseTool(s, i))
  {
  }

  lemma EndUnder(s: State, order: seq<int>)
    ensures AddsUnder(s.out.trace, End(s, order).out.trace, s) && SameIds(s, End(s, order))
  {
    var s1 := CloseMessage(s);
    var s2 := CloseReasoning(s1);
    var s3 := CloseTools(s2, order);
    ClosingUnder(s);
    ClosingUnder(s1);
    CloseToolsUnder(s2, order);
    AddsTwice(s.out.trace, s1.out.trace, s2.out.trace, s);
    AddsTwice(s.out.trace, s2.out.trace, s3.out.trace, s);
    AddsTwice(s.out.trace, s3.out.trace, SendCompleted(s3).out.trace, s);
  }

  lemma TextUnder(s: State, text: string)
    ensures AddsUnder(s.out.trace, EmitText(s, text).out.trace, s) && SameIds(s, EmitText(s, text))
  {
    if text != "" {
      var s1 := CloseReasoning(s);
      ClosingUnder(s);
      var o := OpenMessage(EnsureStarted(s1.out), s1.msg, s1.responseId);
      assert AddsUnder(s1.out.trace, o.trace, s);
      AddsTwice(s.out.trace, s1.out.trace, o.trace, s);
      AddsTwice(s.out.trace, o.trace, EmitText(s, text).out.trace, s);
    }
  }

  lemma ReasoningUnder(s: State, text: string)
    ensures var t := EmitReasoning(s, text);
            AddsUnder(s.out.trace, t.out.trace, t) && t.responseId == s.responseId && t.tools == s.tools
  {
    var s1, t := StartReasoning(s), EmitReasoning(s, text);
    assert AddsUnder(s.out.trace, s1.out.trace, t);
    AddsTwice(s.out.trace, s1.out.trace, t.out.trace, t);
  }

  lemma NotOnTools(s: State)
    ensures forall j :: |s.out.trace| <= j < |CloseMessage(s).out.trace| && CloseMessage(s).out.trace[j].body.OnItem? ==>
              !CloseMessage(s).out.trace[j].body.item.Tool?
    ensures forall j :: |s.out.trace| <= j < |CloseReasoning(s).out.trace| && CloseReasoning(s).out.trace[j].body.OnItem? ==>
              !CloseReasoning(s).out.trace[j].body.item.Tool?
  {
  }

  /** Closing both text items, whatever ids the tools have. */
  lemma BothClosedUnder(s: State, r: State)
    requires r.responseId == s.responseId && r.rs.id == s.rs.id && r.rs.encrypted == s.rs.encrypted
    ensures AddsUnder(s.out.trace, CloseReasoning(CloseMessage(s)).out.trace, r)
  {
    var s1 := CloseMessage(s);
    var s2 := CloseReasoning(s1);
    ClosingUnder(s);
    ClosingUnder(s1);
    NotOnTools(s);
    NotOnTools(s1);
    assert AddsUnder(s.out.trace, s1.out.trace, r) && AddsUnder(s1.out.trace, s2.out.trace, r);
    AddsTwice(s.out.trace, s1.out.trace, s2.out.trace, r);
  }

  lemma OpenedUnder(s: State, i: int, id: string, text: string)
    ensures var t := AppendArguments(AddTool(s, i, id), i, text);
            AddsUnder(s.out.trace, t.out.trace, t) && KeepsIds(s, t) && t.rs == s.rs
  {
    var s1 := AddTool(s, i, id);
    var t := AppendArguments(s1, i, text);
    assert AddsUnder(s.out.trace, s1.out.trace, t) && AddsUnder(s1.out.trace, t.out.trace, t);
    AddsTwice(s.out.trace, s1.out.trace, t.out.trace, t);
  }

  lemma ToolUnder(s: State, call: ToolDelta)
    ensures var t := EmitTool(s, Some(call)); AddsUnder(s.out.trace, t.out.trace, t) && KeepsIds(s, t) && t.rs.id == s.rs.id
  {
    var i := ToolIndex(call);
    var s2 := CloseReasoning(CloseMessage(s));
    var s3, t := s2.(tools := Rename(s2.tools, i, call.name)), EmitTool(s, Some(call));
    ClosingUnder(s);
    ClosingUnder(CloseMessage(s));
    OpenedUnder(s3, i, call.id, call.arguments);
    BothClosedUnder(s, t);
    AddsTwice(s.out.trace, s2.out.trace, t.out.trace, t);
  }

  /** Ids that stay once they are in use. */
  ghost predicate KeepsIds(s: State, t: State) {
    t.responseId == s.responseId && forall i :: At(s.tools.callIds, i) != "" ==> At(t.tools.callIds, i) == At(s.tools.callIds, i)
  }

  /** Events about no item go by any ids. */
  lemma OtherUnder(o: Out, b: Body, s: State)
    requires !b.OnItem?
    ensures AddsUnder(o.trace, Emit(o, b).trace, s) && AddsUnder(o.trace, EnsureStarted(o).trace, s)
    ensures AddsUnder(o.trace, Emit(EnsureStarted(o), b).trace, s)
  {
  }

  /** Whatever an event adds goes by the ids in force after it. */
  lemma HandleUnder(s: State, e: CanonicalEvent, order: seq<int>)
    ensures var t := Handle(s, e, order); AddsUnder(s.out.trace, t.out.trace, t) && KeepsIds(s, t)
  {
    match e
    case TextDelta(text) => TextUnder(s, text);
    case ReasoningDelta(id, encrypted, text) => ReasoningUnder(s.(rs := ApplyMeta(s.rs, id, encrypted)), text);
    case ToolCallDelta(call) => if call.Some? { ToolUnder(s, call.value); }
    case MessageEnd => EndUnder(s, order);
    case MessageStart => OtherUnder(s.out, Created, Handle(s, e, order));
    case Image(media) => OtherUnder(s.out, ImageDelta(media), Handle(s, e, order));
    case Audio(media) => OtherUnder(s.out, AudioDelta(media), Handle(s, e, order));
    case Failure(message) => OtherUnder(s.out, Error(message), Handle(s, e, order));
    case _ =>
  }

  // ---- messages and tool calls ----

  /** Events on anything but reasoning go by the ids in force now. */
  ghost predicate UnderIds(s: State) {
    forall j :: 0 <= j < |s.out.trace| && s.out.trace[j].body.OnItem? && !s.out.trace[j].body.item.Reasoning? ==>
      s.out.trace[j].body.itemId == IdIn(s, s.out.trace[j].body.item)
  }

  lemma UnderIdsStep(s: State, t: State)
    requires Inv(s) && UnderIds(s) && AddsUnder(s.out.trace, t.out.trace, t) && KeepsIds(s, t)
    ensures UnderIds(t)
  {
    forall j | 0 <= j < |t.out.trace| && t.out.trace[j].body.OnItem? && !t.out.trace[j].body.item.Reasoning?
      ensures t.out.trace[j].body.itemId == IdIn(t, t.out.trace[j].body.item)
    {
      var x := t.out.trace[j].body.item;
      if j < |s.out.trace| {
        assert s.out.trace[j] == t.out.trace[j];
        if x.Tool? { ToolHasId(s, j); }
      }
    }
  }

  lemma ToolHasId(s: State, j: nat)
    requires Inv(s) && j < |s.out.trace| && s.out.trace[j].body.OnItem? && s.out.trace[j].body.item.Tool?
    ensures At(s.tools.callIds, s.out.trace[j].body.item.index) != ""
  {
    var x := s.out.trace[j].body.item;
    if s.out.trace[j].body.stage != Added { ItemEventsInOrder(s.out.trace, j); }
    HasIff(s.out.trace, x, Added);
    assert Is(s.out.trace[j], x, s.out.trace[j].body.stage);
    assert ToolInSync(s.tools, x.index, s.out.trace);
  }

  lemma {:induction false} RunUnderIds(responseId: string, events: seq<CanonicalEvent>, orders: seq<seq<int>>)
    requires |orders| == |events|
    ensures UnderIds(Run(responseId, events, orders))
  {
    if events != [] {
      var n := |events| - 1;
      RunUnderIds(responseId, events[..n], orders[..n]);
      EveryRunIsLegal(responseId, events[..n], orders[..n]);
      HandleUnder(Run(responseId, events[..n], orders[..n]), events[n], orders[n]);
      UnderIdsStep(Run(responseId, events[..n], orders[..n]), Run(responseId, events, orders));
    }
  }

  /** The event that announced the item carries the same id. */
  predicate AsAnnounced(t: seq<Event>, j: nat)
    requires j < |t| && t[j].body.OnItem?
  {
    exists i :: 0 <= i <= j && Is(t[i], t[j].body.item, Added) && t[i].body.itemId == t[j].body.itemId
  }

  /** In every run, every event of a message or tool call carries the id it was announced with. */
  lemma AnnouncedIds(responseId: string, events: seq<CanonicalEvent>, orders: seq<seq<int>>, j: nat)
    requires |orders| == |events|
    requires var t := Run(responseId, events, orders).out.trace; j < |t| && t[j].body.OnItem? && !t[j].body.item.Reasoning?
    ensures AsAnnounced(Run(responseId, events, orders).out.trace, j)
  {
    var t := Run(responseId, events, orders).out.trace;
    RunUnderIds(responseId, events, orders);
    EveryRunIsLegal(responseId, events, orders);
    var x := t[j].body.item;
    if t[j].body.stage == Added {
      assert Is(t[j], x, Added);
    } else {
      ItemEventsInOrder(t, j);
      var i :| 0 <= i < j && Is(t[i], x, Added);
    }
  }

  // ---- reasoning ----

  /** The id of the reasoning item after these events: the last one given, or one made up at the first event. */
  function ReasoningId(responseId: string, events: seq<CanonicalEvent>): string {
    if events == [] then ""
    else
      var e, before := events[|events| - 1], ReasoningId(responseId, events[..|events| - 1]);
      if !e.ReasoningDelta? then before
      else if Trim(e.itemId, Go) != "" then Trim(e.itemId, Go)
      else if before == "" then "rs_" + responseId + "_0"
      else before
  }

  /** The event closes whatever reasoning there is. */
  predicate ClosesReasoning(e: CanonicalEvent) { Says(e) || Calls(e) || e.MessageEnd? }

  /** Reasoning has been closed. */
  predicate ReasoningClosed(events: seq<CanonicalEvent>) {
    events != [] &&
    var init := events[..|events| - 1];
    ReasoningClosed(init) || (SomeReasons(init) && ClosesReasoning(events[|events| - 1]))
  }

  /** The last of these events is answered with events on the reasoning item. */
  predicate WritesReasoning(events: seq<CanonicalEvent>) {
    events != [] &&
    var init, e := events[..|events| - 1], events[|events| - 1];
    || (e.ReasoningDelta? && (e.reasoning != "" || !SomeReasons(init)))
    || (ClosesReasoning(e) && SomeReasons(init) && !ReasoningClosed(init))
  }

  ghost predicate ReasoningStep(s: State, t: State, e: CanonicalEvent) {
    && t.rs.id == (if !e.ReasoningDelta? then s.rs.id
                   else if Trim(e.itemId, Go) != "" then Trim(e.itemId, Go)
                   else if s.rs.id == "" then "rs_" + s.responseId + "_0" else s.rs.id)
    && (t.rs.done <==> s.rs.done || (s.rs.added && ClosesReasoning(e)))
    && t.responseId == s.responseId
  }

  lemma HandleReasoning(s: State, e: CanonicalEvent, order: seq<int>)
    requires s.rs.added ==> s.rs.id != ""
    ensures ReasoningStep(s, Handle(s, e, order), e)
  {
    match e
    case MessageEnd => CloseToolsFlags(CloseReasoning(CloseMessage(s)), order);
    case _ =>
  }

  lemma {:induction false} RunReasoning(responseId: string, events: seq<CanonicalEvent>, orders: seq<seq<int>>)
    requires |orders| == |events|
    ensures var s := Run(responseId, events, orders);
            s.rs.id == ReasoningId(responseId, events) && (s.rs.done <==> ReasoningClosed(events)) && s.responseId == responseId
            && (s.rs.added <==> SomeReasons(events)) && (s.rs.added ==> s.rs.id != "")
  {
    RunFlags(responseId, events, orders);
    if events != [] {
      var n := |events| - 1;
      RunReasoning(responseId, events[..n], orders[..n]);
      HandleReasoning(Run(responseId, events[..n], orders[..n]), events[n], orders[n]);
      OneMoreSome(events);
    }
  }

  predicate OnReasoning(e: Event) { e.body.OnItem? && e.body.item.Reasoning? }

  /** u adds to t, events on reasoning among them. */
  predicate AddsReasoning(t: seq<Event>, u: seq<Event>) { exists j :: |t| <= j < |u| && OnReasoning(u[j]) }

  lemma AddsReasoningTwice(t: seq<Event>, u: seq<Event>, w: seq<Event>)
    requires t <= u <= w
    ensures AddsReasoning(t, w) <==> AddsReasoning(t, u) || AddsReasoning(u, w)
  {
    if AddsReasoning(t, u) {
      var j :| |t| <= j < |u| && OnReasoning(u[j]);
      assert OnReasoning(w[j]);
    }
    if AddsReasoning(t, w) {
      var j :| |t| <= j < |w| && OnReasoning(w[j]);
      if j < |u| { assert OnReasoning(u[j]); }
    }
  }

  lemma ReasoningCloses(s: State)
    ensures s.out.trace <= CloseReasoning(s).out.trace && s.out.trace <= CloseMessage(s).out.trace
    ensures AddsReasoning(s.out.trace, CloseReasoning(s).out.trace) <==> s.rs.added && !s.rs.done
    ensures !AddsReasoning(s.out.trace, CloseMessage(s).out.trace) && CloseMessage(s).rs == s.rs
  {
    var t := CloseReasoning(s).out.trace;
    if s.rs.added && !s.rs.done { assert OnReasoning(t[|s.out.trace|]); }
  }

  lemma BothClosedReasoning(s: State)
    ensures var t := CloseReasoning(CloseMessage(s)).out.trace;
            s.out.trace <= t && (AddsReasoning(s.out.trace, t) <==> s.rs.added && !s.rs.done)
  {
    ReasoningCloses(s);
    ReasoningCloses(CloseMessage(s));
    AddsReasoningTwice(s.out.trace, CloseMessage(s).out.trace, CloseReasoning(CloseMessage(s)).out.trace);
  }

  lemma {:induction false} NoReasoningInTools(s: State, order: seq<int>)
    ensures s.out.trace <= CloseTools(s, order).out.trace && !AddsReasoning(s.out.trace, CloseTools(s, order).out.trace)
  {
    if order != [] {
      var t, u := CloseTools(s, order[..|order| - 1]), CloseTools(s, order);
      NoReasoningInTools(s, order[..|order| - 1]);
      AddsReasoningTwice(s.out.trace, t.out.trace, u.out.trace);
    }
  }

  lemma EndWrites(s: State, order: seq<int>)
    ensures AddsReasoning(s.out.trace, End(s, order).out.trace) <==> s.rs.added && !s.rs.done
  {
    var s1 := CloseReasoning(CloseMessage(s));
    var s2 := CloseTools(s1, order);
    BothClosedReasoning(s);
    NoReasoningInTools(s1, order);
    AddsReasoningTwice(s.out.trace, s1.out.trace, s2.out.trace);
    AddsReasoningTwice(s.out.trace, s2.out.trace, SendCompleted(s2).out.trace);
  }

  lemma TextWrites(s: State, text: string)
    requires text != ""
    ensures AddsReasoning(s.out.trace, EmitText(s, text).out.trace) <==> s.rs.added && !s.rs.done
  {
    var s1 := CloseReasoning(s);
    ReasoningCloses(s);
    var o := OpenMessage(EnsureStarted(s1.out), s1.msg, s1.responseId);
    assert s1.out.trace <= o.trace && !AddsReasoning(s1.out.trace, o.trace);
    AddsReasoningTwice(s.out.trace, s1.out.trace, o.trace);
    AddsReasoningTwice(s.out.trace, o.trace, EmitText(s, text).out.trace);
  }

  lemma ToolWrites(s: State, call: ToolDelta)
    ensures AddsReasoning(s.out.trace, EmitTool(s, Some(call)).out.trace) <==> s.rs.added && !s.rs.done
  {
    var i := ToolIndex(call);
    var s1 := CloseReasoning(CloseMessage(s));
    var s2 := AddTool(s1.(tools := Rename(s1.tools, i, call.name)), i, call.id);
    var t := AppendArguments(s2, i, call.arguments);
    BothClosedReasoning(s);
    assert s1.out.trace <= s2.out.trace && !AddsReasoning(s1.out.trace, s2.out.trace);
    assert s2.out.trace <= t.out.trace && !AddsReasoning(s2.out.trace, t.out.trace);
    AddsReasoningTwice(s.out.trace, s1.out.trace, s2.out.trace);
    AddsReasoningTwice(s.out.trace, s2.out.trace, t.out.trace);
  }

  lemma ReasoningWrites(s: State, text: string)
    ensures AddsReasoning(s.out.trace, EmitReasoning(s, text).out.trace) <==> !s.rs.added || text != ""
  {
    var s1, t := StartReasoning(s), EmitReasoning(s, text);
    assert s.out.trace <= s1.out.trace;
    if !s.rs.added { assert OnReasoning(s1.out.trace[|s1.out.trace| - 1]); }
    if text != "" { assert OnReasoning(t.out.trace[|t.out.trace| - 1]); }
    AddsReasoningTwice(s.out.trace, s1.out.trace, t.out.trace);
  }

  /** Exactly these events are answered on the reasoning item. */
  lemma HandleWrites(s: State, e: CanonicalEvent, order: seq<int>)
    ensures AddsReasoning(s.out.trace, Handle(s, e, order).out.trace) <==>
            (e.ReasoningDelta? && (e.reasoning != "" || !s.rs.added)) || (ClosesReasoning(e) && s.rs.added && !s.rs.done)
  {
    match e
    case TextDelta(text) => if text != "" { TextWrites(s, text); }
    case ReasoningDelta(id, encrypted, text) => ReasoningWrites(s.(rs := ApplyMeta(s.rs, id, encrypted)), text);
    case ToolCallDelta(call) => if call.Some? { ToolWrites(s, call.value); }
    case MessageEnd => EndWrites(s, order);
    case _ =>
  }

  /** The reasoning item's id after the first m + 1 events. */
  function IdAt(responseId: string, events: seq<CanonicalEvent>, m: nat): string
    requires m < |events|
  {
    ReasoningId(responseId, events[..m + 1])
  }

  predicate WritesAt(events: seq<CanonicalEvent>, m: nat)
    requires m < |events|
  {
    WritesReasoning(events[..m + 1])
  }

  ghost predicate WrittenUnder(responseId: string, events: seq<CanonicalEvent>, id: string) {
    exists m :: 0 <= m < |events| && WritesAt(events, m) && IdAt(responseId, events, m) == id
  }

  ghost predicate AppearsUnder(t: seq<Event>, id: string) { exists j :: 0 <= j < |t| && OnReasoning(t[j]) && t[j].body.itemId == id }

  lemma WrittenOneMore(responseId: string, events: seq<CanonicalEvent>, id: string)
    requires events != []
    ensures WrittenUnder(responseId, events, id) <==>
            WrittenUnder(responseId, events[..|events| - 1], id) || (WritesReasoning(events) && ReasoningId(responseId, events) == id)
  {
    var n := |events| - 1;
    var init := events[..n];
    assert events[..n + 1] == events;
    if WrittenUnder(responseId, init, id) {
      var m :| 0 <= m < n && WritesAt(init, m) && IdAt(responseId, init, m) == id;
      assert init[..m + 1] == events[..m + 1];
      assert WritesAt(events, m) && IdAt(responseId, events, m) == id;
    }
    if WrittenUnder(responseId, events, id) {
      var m :| 0 <= m < |events| && WritesAt(events, m) && IdAt(responseId, events, m) == id;
      if m < n {
        assert init[..m + 1] == events[..m + 1];
        assert WritesAt(init, m) && IdAt(responseId, init, m) == id;
      }
    }
    if WritesReasoning(events) && ReasoningId(responseId, events) == id {
      assert WritesAt(events, n) && IdAt(responseId, events, n) == id;
    }
  }

  lemma AppearsOneMore(t: seq<Event>, u: State, id: string)
    requires AddsUnder(t, u.out.trace, u)
    ensures AppearsUnder(u.out.trace, id) <==> AppearsUnder(t, id) || (AddsReasoning(t, u.out.trace) && u.rs.id == id)
  {
    var w := u.out.trace;
    if AppearsUnder(t, id) {
      var j :| 0 <= j < |t| && OnReasoning(t[j]) && t[j].body.itemId == id;
      assert OnReasoning(w[j]) && w[j].body.itemId == id;
    }
    if AppearsUnder(w, id) {
      var j :| 0 <= j < |w| && OnReasoning(w[j]) && w[j].body.itemId == id;
      if j < |t| { assert OnReasoning(t[j]) && t[j].body.itemId == id; }
    }
    if AddsReasoning(t, w) && u.rs.id == id {
      var j :| |t| <= j < |w| && OnReasoning(w[j]);
      assert w[j].body.itemId == id;
    }
  }

  /** The ids under which reasoning appears are those in force at the events that are answered on it. */
  lemma {:induction false} ReasoningAppears(responseId: string, events: seq<CanonicalEvent>, orders: seq<seq<int>>, id: string)
    requires |orders| == |events|
    ensures AppearsUnder(Run(responseId, events, orders).out.trace, id) <==> WrittenUnder(responseId, events, id)
  {
    if events != [] {
      var n := |events| - 1;
      var s, t := Run(responseId, events[..n], orders[..n]), Run(responseId, events, orders);
      ReasoningAppears(responseId, events[..n], orders[..n], id);
      RunReasoning(responseId, events[..n], orders[..n]);
      RunReasoning(responseId, events, orders);
      HandleUnder(s, events[n], orders[n]);
      HandleWrites(s, events[n], orders[n]);
      AppearsOneMore(s.out.trace, t, id);
      WrittenOneMore(responseId, events, id);
    }
  }

  /** Every event on reasoning carries the same id. */
  ghost predicate OneReasoningId(t: seq<Event>) { forall a, b :: AppearsUnder(t, a) && AppearsUnder(t, b) ==> a == b }

  /**
   The reasoning item keeps its id exactly when all events that are answered on it - its first, those with
   reasoning text, and the first to close it - find the same id.
   */
  lemma ReasoningKeepsItsIdIff(responseId: string, events: seq<CanonicalEvent>, orders: seq<seq<int>>)
    requires |orders| == |events|
    ensures OneReasoningId(Run(responseId, events, orders).out.trace) <==>
            forall m, n :: 0 <= m < |events| && 0 <= n < |events| && WritesAt(events, m) && WritesAt(events, n) ==>
              IdAt(responseId, events, m) == IdAt(responseId, events, n)
  {
    var t := Run(responseId, events, orders).out.trace;
    forall id ensures AppearsUnder(t, id) <==> WrittenUnder(responseId, events, id) { ReasoningAppears(responseId, events, orders, id); }
    if OneReasoningId(t) {
      forall m, n | 0 <= m < |events| && 0 <= n < |events| && WritesAt(events, m) && WritesAt(events, n)
        ensures IdAt(responseId, events, m) == IdAt(responseId, events, n)
      {
        assert WrittenUnder(responseId, events, IdAt(responseId, events, m));
        assert WrittenUnder(responseId, events, IdAt(responseId, events, n));
      }
    }
  }

  /** A provider that names its reasoning only with the second delta: the two deltas carry different ids. */
  lemma LateIdRenamesReasoning(responseId: string, id: string, first: string, second: string)
    requires Trim(id, Go) != "" && Trim(id, Go) != "rs_" + responseId + "_0" && second != ""
    ensures !OneReasoningId(Run(responseId, [ReasoningDelta("", "", first), ReasoningDelta(id, "", second)], [[], []]).out.trace)
  {
    var events := [ReasoningDelta("", "", first), ReasoningDelta(id, "", second)];
    assert events[..1][..0] == [] && events[..1] == [events[0]] && events[..2] == events && events[..2][..1] == events[..1];
    assert ReasoningId(responseId, []) == "" && Trim("", Go) == "";
    assert IdAt(responseId, events, 0) == "rs_" + responseId + "_0";
    assert WritesAt(events, 0) && WritesAt(events, 1);
    ReasoningKeepsItsIdIff(responseId, events, [[], []]);
  }
}
