/**
 The writer as an object (internal/api/responses_stream.go); its methods are tied to StreamWriter's operations.
 */
module ResponsesWriter {
  import opened Collections
  import opened OutputAssembly
  import opened StreamOutcomes
  import opened StreamProtocol
  import opened StreamWriter
  import opened Text
  import opened Wrappers

  class ResponsesStreamWriter {
    const responseId: string
    var number: int
    var started: bool
    var completed: bool
    var msg: Msg
    var rs: Rs
    var tools: Tools
    var usage: Option<string>

    /** Every event emitted so far. */
    ghost var trace: seq<Event>

    ghost function OutView(): Out reads this { Out(number, started, completed, trace) }

    ghost function View(): State reads this { State(responseId, OutView(), msg, rs, tools, usage) }

    constructor (responseId: string)
      ensures View() == Fresh(responseId)
    {
      this.responseId := responseId;
      number, started, completed := 0, false, false;
      msg, rs := Msg("", false, false, false), Rs("", "", "", false, false);
      tools := Tools(map[], map[], map[], {});
      usage, trace := None, [];
    }

    method Append(b: Body) returns (e: Event)
      modifies this`number, this`trace
      ensures OutView() == Emit(old(OutView()), b)
      ensures trace == old(trace) + [e]
    {
      number := number + 1;
      e := Event(number, b);
      trace := trace + [e];
    }

    method Start() returns (events: seq<Event>)
      modifies this`number, this`trace, this`started
      ensures OutView() == EnsureStarted(old(OutView()))
      ensures trace == old(trace) + events
    {
      if started { return []; }
      var e1 := Append(Created);
      var e2 := Append(InProgress);
      started := true;
      events := [e1, e2];
    }

    method MessageOpening() returns (events: seq<Event>)
      modifies this`number, this`trace, this`msg
      ensures OutView() == OpenMessage(old(OutView()), old(msg), responseId)
      ensures msg == old(msg).(added := true, part := true)
      ensures trace == old(trace) + events
    {
      events := [];
      if !msg.added {
        msg := msg.(added := true);
        var e := Append(OnMessage(responseId, Added, ""));
        events := [e];
      }
      if !msg.part {
        msg := msg.(part := true);
        var e := Append(OnMessage(responseId, PartAdded, ""));
        events := events + [e];
      }
    }

    method TextEvents(text: string) returns (events: seq<Event>)
      modifies this`number, this`trace, this`started, this`msg, this`rs
      ensures View() == EmitText(old(View()), text)
      ensures trace == old(trace) + events
    {
      if text == "" { return []; }
      var closing := ReasoningClosing();
      var writing := TextWriting(text);
      events := closing + writing;
    }

    method TextWriting(text: string) returns (events: seq<Event>)
      modifies this`number, this`trace, this`started, this`msg
      ensures View() == WriteText(old(View()), text)
      ensures trace == old(trace) + events
    {
      var starting := Start();
      var opening := MessageOpening();
      var e := Append(OnMessage(responseId, Delta, text));
      msg := msg.(text := msg.text + text);
      events := starting + opening + [e];
    }

    method ReasoningOpening() returns (events: seq<Event>)
      modifies this`number, this`trace, this`started, this`rs
      ensures View() == StartReasoning(old(View()))
      ensures trace == old(trace) + events
    {
      if rs.added { return []; }
      rs := rs.(added := true);
      if rs.id == "" { rs := rs.(id := "rs_" + responseId + "_0"); }
      var starting := Start();
      var e1 := Append(OnReasoning(rs, Added, ""));
      var e2 := Append(OnReasoning(rs, PartAdded, ""));
      events := starting + [e1, e2];
    }

    method ReasoningEvents(text: string) returns (events: seq<Event>)
      modifies this`number, this`trace, this`started, this`rs
      ensures View() == EmitReasoning(old(View()), text)
      ensures trace == old(trace) + events
    {
      events := ReasoningOpening();
      if text == "" { return; }
      var e := Append(OnReasoning(rs, Delta, text));
      rs := rs.(text := rs.text + text);
      events := events + [e];
    }

    method ReasoningClosing() returns (events: seq<Event>)
      modifies this`number, this`trace, this`rs
      ensures View() == CloseReasoning(old(View()))
      ensures trace == old(trace) + events
    {
      if !rs.added || rs.done { return []; }
      var text := rs.text;
      var e1 := Append(OnReasoning(rs, TextDone, text));
      var e2 := Append(OnReasoning(rs, PartDone, text));
      var e3 := Append(OnReasoning(rs, Done, text));
      rs := rs.(done := true);
      events := [e1, e2, e3];
    }

    method MessageClosing() returns (events: seq<Event>)
      modifies this`number, this`trace, this`msg
      ensures View() == CloseMessage(old(View()))
      ensures trace == old(trace) + events
    {
      if !msg.added || msg.done { return []; }
      var text := msg.text;
      var e1 := Append(OnMessage(responseId, TextDone, text));
      var e2 := Append(OnMessage(responseId, PartDone, text));
      var e3 := Append(OnMessage(responseId, Done, text));
      msg := msg.(done := true);
      events := [e1, e2, e3];
    }

    method ToolAdding(i: int, id: string) returns (events: seq<Event>)
      modifies this`number, this`trace, this`started, this`tools
      ensures View() == AddTool(old(View()), i, id)
      ensures trace == old(trace) + events
    {
      if id == "" || At(tools.callIds, i) != "" { return []; }
      tools := tools.(callIds := tools.callIds[i := id]);
      var starting := Start();
      var e := Append(OnTool(tools, i, Added, ""));
      events := starting + [e];
    }

    method ToolArguments(i: int, text: string) returns (events: seq<Event>)
      modifies this`number, this`trace, this`tools
      ensures View() == AppendArguments(old(View()), i, text)
      ensures trace == old(trace) + events
    {
      if text == "" || At(tools.callIds, i) == "" { return []; }
      var e := Append(OnTool(tools, i, Delta, text));
      tools := tools.(args := tools.args[i := At(tools.args, i) + text]);
      events := [e];
    }

    /** Both text items are closed, the message first. */
    method TextItemsClosing() returns (events: seq<Event>)
      modifies this`number, this`trace, this`msg, this`rs
      ensures View() == CloseReasoning(CloseMessage(old(View())))
      ensures trace == old(trace) + events
    {
      var first := MessageClosing();
      var second := ReasoningClosing();
      events := first + second;
    }

    method ToolEvents(call: Option<ToolDelta>) returns (events: seq<Event>)
      modifies this
      ensures View() == EmitTool(old(View()), call)
      ensures trace == old(trace) + events
    {
      if call.None? { return []; }
      var c := call.value;
      var i := if c.index < 0 then 0 else c.index;
      var closing := TextItemsClosing();
      ghost var s1 := View();
      var opening := ToolOpening(i, c);
      ToolIsOpened(old(View()), s1, c);
      Regrouped(old(trace), closing, opening);
      events := closing + opening;
    }

    /** The call's name, the item and its arguments, each as far as the event brings them. */
    method ToolOpening(i: int, c: ToolDelta) returns (events: seq<Event>)
      modifies this`number, this`trace, this`started, this`tools
      ensures View() == AppendArguments(AddTool(old(View()).(tools := Rename(old(View()).tools, i, c.name)), i, c.id), i, c.arguments)
      ensures trace == old(trace) + events
    {
      if c.name != "" { tools := tools.(names := tools.names[i := c.name]); }
      var adding := ToolAdding(i, c.id);
      var arguments := ToolArguments(i, c.arguments);
      events := adding + arguments;
    }

    method ToolClosing(i: int) returns (events: seq<Event>)
      modifies this`number, this`trace, this`tools
      ensures View() == CloseTool(old(View()), i)
      ensures tools.callIds == old(tools).callIds
      ensures trace == old(trace) + events
    {
      if At(tools.callIds, i) == "" || i in tools.done { return []; }
      var args := if At(tools.args, i) == "" then "{}" else At(tools.args, i);
      var e1 := Append(OnTool(tools, i, TextDone, args));
      var e2 := Append(OnTool(tools, i, Done, args));
      tools := tools.(done := tools.done + {i});
      events := [e1, e2];
    }

    /** The loop over the call map, in whatever order the map yields. */
    method ToolsClosing() returns (events: seq<Event>, ghost order: seq<int>)
      modifies this`number, this`trace, this`tools
      ensures View() == CloseTools(old(View()), order) && ClosesAll(old(tools), order)
      ensures trace == old(trace) + events
    {
      events, order := [], [];
      var todo := tools.callIds.Keys;
      while todo != {}
        invariant View() == CloseTools(old(View()), order) && trace == old(trace) + events
        invariant tools.callIds == old(tools).callIds
        invariant forall i :: i in tools.callIds ==> i in todo || i in order
      {
        HasInt(todo);
        var i :| i in todo;
        todo := todo - {i};
        var more := ToolClosing(i);
        events := events + more;
        assert (order + [i])[..|order|] == order;
        order := order + [i];
      }
    }

    method EndEvents() returns (events: seq<Event>, ghost order: seq<int>)
      modifies this
      ensures View() == End(old(View()), order) && ClosesAll(old(tools), order)
      ensures trace == old(trace) + events
    {
      var closing := TextItemsClosing();
      var toolsClosing;
      toolsClosing, order := ToolsClosing();
      events := closing + toolsClosing;
      if !completed {
        var last := Append(Completed(usage));
        completed := true;
        events := events + [last];
      }
    }

    method Media(b: Body) returns (events: seq<Event>)
      modifies this`number, this`trace, this`started
      ensures OutView() == Emit(EnsureStarted(old(OutView())), b)
      ensures trace == old(trace) + events
    {
      var starting := Start();
      var e := Append(b);
      events := starting + [e];
    }

    method Reasoning(id: string, encrypted: string, text: string) returns (events: seq<Event>)
      modifies this`number, this`trace, this`started, this`rs
      ensures View() == StreamWriter.Handle(old(View()), ReasoningDelta(id, encrypted, text), [])
      ensures trace == old(trace) + events
    {
      if Trim(id, Go) != "" { rs := rs.(id := Trim(id, Go)); }
      if Trim(encrypted, Go) != "" { rs := rs.(encrypted := Trim(encrypted, Go)); }
      events := ReasoningEvents(text);
    }

    /** One canonical event, and whether it ends the stream. */
    method Handle(e: CanonicalEvent) returns (events: seq<Event>, done: bool, ghost order: seq<int>)
      modifies this
      ensures View() == StreamWriter.Handle(old(View()), e, order)
      ensures e.MessageEnd? ==> ClosesAll(old(tools), order)
      ensures trace == old(trace) + events
      ensures done <==> e.MessageEnd? || e.Failure?
    {
      events, done, order := [], false, [];
      match e
      case MessageStart => events := Start();
      case TextDelta(text) => events := TextEvents(text);
      case ReasoningDelta(id, encrypted, text) => events := Reasoning(id, encrypted, text);
      case ToolCallDelta(call) => events := ToolEvents(call);
      case Image(media) => events := Media(ImageDelta(media));
      case Audio(media) => events := Media(AudioDelta(media));
      case Usage(u) => if u.Some? { usage := u; }
      case MessageEnd =>
        events, order := EndEvents();
        done := true;
      case Failure(message) =>
        var last := Append(Error(message));
        events, done := [last], true;
      case Unknown =>
    }
  }

  lemma ToolIsOpened(s: State, s1: State, c: ToolDelta)
    requires s1 == CloseReasoning(CloseMessage(s))
    ensures var i := if c.index < 0 then 0 else c.index;
            EmitTool(s, Some(c)) == AppendArguments(AddTool(s1.(tools := Rename(s1.tools, i, c.name)), i, c.id), i, c.arguments)
  {
  }

  // ---- what a later turn sees of it ----

  /** The finished items in the order they were finished. */
  function Finished(t: seq<Event>): seq<Placed<ItemRef>> {
    if t == [] then []
    else
      var b := t[|t| - 1].body;
      Finished(t[..|t| - 1]) + if b.OnItem? && b.stage == Done then [Placed(b.outputIndex, b.item)] else []
  }

  /** Two different items that share place 0 (message, reasoning, first tool call) are never both finished. */
  ghost predicate NoClash(t: seq<Event>) {
    forall x, y :: OutputIndex(x) == 0 && OutputIndex(y) == 0 && Has(t, x, Done) && Has(t, y, Done) ==> x == y
  }

  lemma {:induction false} FinishedIff(t: seq<Event>)
    requires LegalTrace(t)
    ensures forall k :: 0 <= k < |Finished(t)| ==>
              Has(t, Finished(t)[k].item, Done) && Finished(t)[k].index == OutputIndex(Finished(t)[k].item)
    ensures forall x :: Has(t, x, Done) ==> exists k :: 0 <= k < |Finished(t)| && Finished(t)[k].item == x
  {
    if t != [] {
      var before, e := t[..|t| - 1], t[|t| - 1];
      FinishedIff(before);
      var f := Finished(before);
      assert forall x :: Has(before, x, Done) ==> Has(t, x, Done);
      forall x | Has(t, x, Done) ensures exists k :: 0 <= k < |Finished(t)| && Finished(t)[k].item == x {
        if Has(before, x, Done) {
          var k :| 0 <= k < |f| && f[k].item == x;
          assert Finished(t)[k] == f[k];
        } else {
          assert Finished(t)[|f|].item == x;
        }
      }
    }
  }

  /** Different items share a place only if it is place 0. */
  lemma FinishedDistinctIff(t: seq<Event>)
    requires LegalTrace(t)
    ensures DistinctIndices(Finished(t)) <==> NoClash(t)
  {
    FinishedIff(t);
    FinishedOnce(t);
    var f := Finished(t);
    if DistinctIndices(f) {
      forall x, y | OutputIndex(x) == 0 && OutputIndex(y) == 0 && Has(t, x, Done) && Has(t, y, Done) ensures x == y {
        var i :| 0 <= i < |f| && f[i].item == x;
        var j :| 0 <= j < |f| && f[j].item == y;
        assert i < j || j < i || i == j;
      }
    }
    if NoClash(t) {
      forall i, j | 0 <= i < j < |f| ensures f[i].index != f[j].index {
        assert f[i].item != f[j].item;
      }
    }
  }

  lemma {:induction false} FinishedOnce(t: seq<Event>)
    requires LegalTrace(t)
    ensures forall i, j :: 0 <= i < j < |Finished(t)| ==> Finished(t)[i].item != Finished(t)[j].item
  {
    if t != [] {
      FinishedOnce(t[..|t| - 1]);
      FinishedIff(t[..|t| - 1]);
    }
  }

  /** Two of message, reasoning and first tool call are opened by these events. */
  predicate Clashes(events: seq<CanonicalEvent>) {
    || (SomeSays(events) && SomeReasons(events))
    || (SomeSays(events) && SomeIdentifies(events, 0))
    || (SomeReasons(events) && SomeIdentifies(events, 0))
  }

  /**
   When the message has ended, the history stored for it keeps every finished item exactly when the provider
   sent no two of text, reasoning and a tool call whose index is at most 0.
   */
  lemma HistoryKeepsEveryItemIff(responseId: string, events: seq<CanonicalEvent>, orders: seq<seq<int>>, order: seq<int>)
    requires |orders| == |events| && ClosesAll(Run(responseId, events, orders).tools, order)
    ensures var t := Run(responseId, events + [MessageEnd], orders + [order]).out.trace;
            |Indices(Finished(t))| == |Finished(t)| <==> !Clashes(events)
  {
    var t := Run(responseId, events + [MessageEnd], orders + [order]).out.trace;
    EveryRunIsLegal(responseId, events + [MessageEnd], orders + [order]);
    FinishedDistinctIff(t);
    NothingOverwrittenIff(Finished(t));
    EndedClash(responseId, events, orders, order);
  }

  lemma DoneWasAdded(t: seq<Event>, x: ItemRef)
    requires LegalTrace(t) && Has(t, x, Done)
    ensures Has(t, x, Added)
  {
    HasIff(t, x, Done);
    var j :| 0 <= j < |t| && Is(t[j], x, Done);
    ItemEventsInOrder(t, j);
    HasIff(t, x, Added);
  }

  lemma EndedClash(responseId: string, events: seq<CanonicalEvent>, orders: seq<seq<int>>, order: seq<int>)
    requires |orders| == |events| && ClosesAll(Run(responseId, events, orders).tools, order)
    ensures NoClash(Run(responseId, events + [MessageEnd], orders + [order]).out.trace) <==> !Clashes(events)
  {
    var all := events + [MessageEnd];
    var t := Run(responseId, all, orders + [order]).out.trace;
    EndClosesEverything(responseId, events, orders, order);
    EveryRunIsLegal(responseId, all, orders + [order]);
    WhatARunOpens(responseId, all, orders + [order]);
    assert all[..|events|] == events;
    OneMoreSome(all);
    OneMoreIdentifies(all, 0);
    forall x ensures Has(t, x, Done) <==> Has(t, x, Added) {
      if Has(t, x, Done) { DoneWasAdded(t, x); }
    }
    forall x | OutputIndex(x) == 0 ensures x == Message || x == Reasoning || x == Tool(0) { }
    assert OutputIndex(Message) == OutputIndex(Reasoning) == OutputIndex(Tool(0)) == 0;
  }

  /** A provider that reasons before it answers: the stored history has lost one of the two items. */
  lemma ReasoningAndTextLoseAnItem(responseId: string, reasoning: string, text: string)
    requires text != ""
    ensures var t := Run(responseId, [ReasoningDelta("", "", reasoning), TextDelta(text)] + [MessageEnd], [[], []] + [[]]).out.trace;
            |Indices(Finished(t))| < |Finished(t)|
  {
    var events, orders: seq<seq<int>> := [ReasoningDelta("", "", reasoning), TextDelta(text)], [[], []];
    var s := Run(responseId, events, orders);
    RunFlags(responseId, events, orders);
    assert ClosesAll(s.tools, []) by {
      forall i ensures At(s.tools.callIds, i) == "" { assert !SomeIdentifies(events, i); }
    }
    HistoryKeepsEveryItemIff(responseId, events, orders, []);
    assert SomeReasons(events) by { assert events[0].ReasoningDelta?; }
    assert SomeSays(events) by { assert Says(events[1]); }
    NothingOverwrittenIff(Finished(Run(responseId, events + [MessageEnd], orders + [[]]).out.trace));
  }
}
