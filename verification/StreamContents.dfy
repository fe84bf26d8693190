/** What the items of a Responses stream hold, told from the provider's events alone (internal/api/responses_stream.go). */
module StreamContents {
  import opened Collections
  import opened StreamIds
  import opened StreamOutcomes
  import opened StreamProtocol
  import opened StreamWriter
  import opened Text
  import opened Wrappers

  // ---- told from the events ----

  /** The argument texts of the tool call at place i joined in order, from the event on that first brings its id. */
  function ArgumentsFrom(events: seq<CanonicalEvent>, i: int): string {
    if events == [] then ""
    else
      var e := events[|events| - 1];
      ArgumentsFrom(events[..|events| - 1], i) + if Concerns(e, i) && SomeIdentifies(events, i) then e.call.value.arguments else ""
  }

  /** All reasoning texts joined in order. */
  function ReasoningOf(events: seq<CanonicalEvent>): string {
    if events == [] then ""
    else
      var e := events[|events| - 1];
      ReasoningOf(events[..|events| - 1]) + if e.ReasoningDelta? then e.reasoning else ""
  }

  /** The last encrypted reasoning that is not blank, trimmed. */
  function EncryptedOf(events: seq<CanonicalEvent>): string {
    if events == [] then ""
    else
      var e := events[|events| - 1];
      if e.ReasoningDelta? && Trim(e.encrypted, Go) != "" then Trim(e.encrypted, Go) else EncryptedOf(events[..|events| - 1])
  }

  /** The first id the tool call at place i is given. */
  function CallIdOf(events: seq<CanonicalEvent>, i: int): string {
    if events == [] then ""
    else
      var e, before := events[|events| - 1], CallIdOf(events[..|events| - 1], i);
      if before == "" && Concerns(e, i) then e.call.value.id else before
  }

  /** The last name it is given. */
  function CallNameOf(events: seq<CanonicalEvent>, i: int): string {
    if events == [] then ""
    else
      var e := events[|events| - 1];
      if Concerns(e, i) && e.call.value.name != "" then e.call.value.name else CallNameOf(events[..|events| - 1], i)
  }

  /** The last usage reported. */
  function UsageOf(events: seq<CanonicalEvent>): Option<string> {
    if events == [] then None
    else
      var e := events[|events| - 1];
      if e.Usage? && e.usage.Some? then e.usage else UsageOf(events[..|events| - 1])
  }

  /** What has arrived for an item. */
  function TextIn(events: seq<CanonicalEvent>, x: ItemRef): string {
    match x
    case Message => TextOf(events)
    case Reasoning => ReasoningOf(events)
    case Tool(i) => ArgumentsFrom(events, i)
  }

  /** What its done event says besides: reasoning in encrypted form, or the call's name. */
  function NamedIn(events: seq<CanonicalEvent>, x: ItemRef): string {
    match x
    case Message => ""
    case Reasoning => EncryptedOf(events)
    case Tool(i) => CallNameOf(events, i)
  }

  // ---- the writer's fields hold just that ----

  /** The fields that concern the tool call at place i, after an event. */
  ghost predicate CallStep(s: Tools, t: Tools, e: CanonicalEvent, i: int) {
    && At(t.args, i) == At(s.args, i) + (if Concerns(e, i) && At(t.callIds, i) != "" then e.call.value.arguments else "")
    && At(t.callIds, i) == (if At(s.callIds, i) == "" && Concerns(e, i) then e.call.value.id else At(s.callIds, i))
    && At(t.names, i) == (if Concerns(e, i) && e.call.value.name != "" then e.call.value.name else At(s.names, i))
  }

  ghost predicate TextStep(s: State, t: State, e: CanonicalEvent) {
    && t.rs.text == s.rs.text + (if e.ReasoningDelta? then e.reasoning else "")
    && t.rs.encrypted == (if e.ReasoningDelta? && Trim(e.encrypted, Go) != "" then Trim(e.encrypted, Go) else s.rs.encrypted)
    && t.usage == (if e.Usage? && e.usage.Some? then e.usage else s.usage)
  }

  lemma OpenedCall(s: State, i: int, c: ToolDelta, j: int)
    ensures var t := AppendArguments(AddTool(s.(tools := Rename(s.tools, i, c.name)), i, c.id), i, c.arguments);
            && At(t.tools.names, j) == (if j == i && c.name != "" then c.name else At(s.tools.names, j))
            && At(t.tools.callIds, j) == (if j == i && At(s.tools.callIds, i) == "" then c.id else At(s.tools.callIds, j))
            && At(t.tools.args, j) == At(s.tools.args, j) + (if j == i && At(t.tools.callIds, i) != "" then c.arguments else "")
  {
  }

  lemma CalledStep(s: State, c: ToolDelta, i: int)
    ensures CallStep(s.tools, EmitTool(s, Some(c)).tools, ToolCallDelta(Some(c)), i)
  {
    var s1 := CloseReasoning(CloseMessage(s));
    assert s1.tools == s.tools;
    OpenedCall(s1, ToolIndex(c), c, i);
  }

  /** Text changes nothing but the message, apart from finishing the reasoning. */
  lemma TextKeeps(s: State, text: string)
    ensures var t := EmitText(s, text); t.tools == s.tools && t.rs == s.rs.(done := t.rs.done) && t.usage == s.usage
  {
    if text != "" { assert CloseReasoning(s).tools == s.tools; }
  }

  /** Any other event leaves the calls alone, except that an end closes them. */
  lemma CallsStay(s: State, e: CanonicalEvent, order: seq<int>)
    requires !Calls(e)
    ensures var t := Handle(s, e, order).tools; t == s.tools.(done := t.done)
  {
    match e
    case MessageEnd => ClosedCalls(CloseReasoning(CloseMessage(s)), order);
    case TextDelta(text) => TextKeeps(s, text);
    case _ =>
  }

  lemma HandleCalls(s: State, e: CanonicalEvent, order: seq<int>, i: int)
    ensures CallStep(s.tools, Handle(s, e, order).tools, e, i)
  {
    if Calls(e) { CalledStep(s, e.call.value, i); } else { CallsStay(s, e, order); }
  }

  lemma {:induction false} ClosedCalls(s: State, order: seq<int>)
    ensures var t := CloseTools(s, order);
            && t.tools == s.tools.(done := t.tools.done) && t.rs == s.rs && t.usage == s.usage
  {
    if order != [] { ClosedCalls(s, order[..|order| - 1]); }
  }

  lemma HandleTexts(s: State, e: CanonicalEvent, order: seq<int>)
    ensures TextStep(s, Handle(s, e, order), e)
  {
    match e
    case MessageEnd => ClosedCalls(CloseReasoning(CloseMessage(s)), order);
    case TextDelta(text) => TextKeeps(s, text);
    case _ =>
  }

  ghost predicate HoldsCall(tools: Tools, events: seq<CanonicalEvent>, i: int) {
    && At(tools.args, i) == ArgumentsFrom(events, i) && At(tools.callIds, i) == CallIdOf(events, i)
    && At(tools.names, i) == CallNameOf(events, i)
  }

  lemma {:induction false} RunHoldsCall(responseId: string, events: seq<CanonicalEvent>, orders: seq<seq<int>>, i: int)
    requires |orders| == |events|
    ensures HoldsCall(Run(responseId, events, orders).tools, events, i)
  {
    if events != [] {
      var n := |events| - 1;
      RunHoldsCall(responseId, events[..n], orders[..n], i);
      RunFlags(responseId, events, orders);
      HandleCalls(Run(responseId, events[..n], orders[..n]), events[n], orders[n], i);
    }
  }

  lemma {:induction false} RunHoldsTexts(responseId: string, events: seq<CanonicalEvent>, orders: seq<seq<int>>)
    requires |orders| == |events|
    ensures var s := Run(responseId, events, orders);
            s.rs.text == ReasoningOf(events) && s.rs.encrypted == EncryptedOf(events) && s.usage == UsageOf(events)
            && s.responseId == responseId
  {
    if events != [] {
      var n := |events| - 1;
      RunHoldsTexts(responseId, events[..n], orders[..n]);
      HandleTexts(Run(responseId, events[..n], orders[..n]), events[n], orders[n]);
      HandleUnder(Run(responseId, events[..n], orders[..n]), events[n], orders[n]);
    }
  }

  // ---- what is streamed ----

  /** In every run, what an item's deltas join to is what has arrived for it: nothing is lost, repeated or misplaced. */
  lemma StreamedIsWhatArrived(responseId: string, events: seq<CanonicalEvent>, orders: seq<seq<int>>, x: ItemRef)
    requires |orders| == |events|
    ensures Deltas(Run(responseId, events, orders).out.trace, x) == TextIn(events, x)
  {
    var s := Run(responseId, events, orders);
    RunFlags(responseId, events, orders);
    match x
    case Message =>
    case Reasoning => RunHoldsTexts(responseId, events, orders);
    case Tool(i) =>
      RunHoldsCall(responseId, events, orders, i);
      assert ToolInSync(s.tools, i, s.out.trace);
  }

  /** Every event on a message or tool call goes by the response's id or the first id the call was given. */
  lemma ItemsGoBy(responseId: string, events: seq<CanonicalEvent>, orders: seq<seq<int>>, j: nat)
    requires |orders| == |events| && j < |Run(responseId, events, orders).out.trace|
    ensures var b := Run(responseId, events, orders).out.trace[j].body;
            b.OnItem? ==>
              && (b.item.Message? ==> b.itemId == "msg_" + responseId + "_0")
              && (b.item.Tool? ==> b.itemId == "fc_" + CallIdOf(events, b.item.index))
  {
    var b := Run(responseId, events, orders).out.trace[j].body;
    RunUnderIds(responseId, events, orders);
    RunHoldsTexts(responseId, events, orders);
    if b.OnItem? && b.item.Tool? { RunHoldsCall(responseId, events, orders, b.item.index); }
  }

  // ---- how items end ----

  /** The event opens the item, if it is not open yet. */
  predicate Opens(e: CanonicalEvent, x: ItemRef) {
    match x
    case Message => Says(e)
    case Reasoning => e.ReasoningDelta?
    case Tool(i) => Identifies(e, i)
  }

  /** The event closes the item, if it is open. */
  predicate ClosesItem(e: CanonicalEvent, x: ItemRef) {
    match x
    case Message => Calls(e) || e.MessageEnd?
    case Reasoning => Says(e) || Calls(e) || e.MessageEnd?
    case Tool(_) => e.MessageEnd?
  }

  predicate SomeOpens(events: seq<CanonicalEvent>, x: ItemRef) { exists k :: 0 <= k < |events| && Opens(events[k], x) }

  /** The first event to close the item after it was opened. */
  function ClosingOf(events: seq<CanonicalEvent>, x: ItemRef): (r: Option<nat>)
    ensures r.Some? ==> r.value < |events|
  {
    if events == [] then None
    else
      var init := events[..|events| - 1];
      if ClosingOf(init, x).Some? then ClosingOf(init, x)
      else if ClosesItem(events[|events| - 1], x) && SomeOpens(init, x) then Some(|init|)
      else None
  }

  predicate ClosedAt(events: seq<CanonicalEvent>, x: ItemRef, k: nat)
    requires k < |events|
  {
    ClosesItem(events[k], x) && SomeOpens(events[..k], x)
  }

  lemma {:induction false} ClosingIsFirst(events: seq<CanonicalEvent>, x: ItemRef)
    ensures ClosingOf(events, x).Some? ==> ClosedAt(events, x, ClosingOf(events, x).value)
    ensures forall k :: 0 <= k < |events| && ClosedAt(events, x, k) ==> ClosingOf(events, x).Some? && ClosingOf(events, x).value <= k
  {
    if events != [] {
      var init := events[..|events| - 1];
      ClosingIsFirst(init, x);
      if ClosingOf(init, x).Some? { assert init[..ClosingOf(init, x).value] == events[..ClosingOf(init, x).value]; }
      forall k | 0 <= k < |init| && ClosedAt(events, x, k) ensures ClosedAt(init, x, k) { assert init[..k] == events[..k]; }
    }
  }

  ghost predicate DoneWith(t: seq<Event>, x: ItemRef, text: string, name: string) {
    exists p :: 0 <= p < |t| && Is(t[p], x, Done) && t[p].body.text == text && t[p].body.name == name
  }

  /** The first event to close the item finished it with what had arrived by then; without one it is not finished. */
  ghost predicate Ends(t: seq<Event>, events: seq<CanonicalEvent>, x: ItemRef) {
    match ClosingOf(events, x)
    case None => !Has(t, x, Done)
    case Some(k) => Has(t, x, Done) && DoneWith(t, x, Final(x, TextIn(events[..k], x)), NamedIn(events[..k], x))
  }

  /** At every end all tool calls are closed, in some order. */
  ghost predicate EndsClose(responseId: string, events: seq<CanonicalEvent>, orders: seq<seq<int>>)
    requires |orders| == |events|
  {
    events != [] ==>
      var n := |events| - 1;
      && EndsClose(responseId, events[..n], orders[..n])
      && (events[n].MessageEnd? ==> ClosesAll(Run(responseId, events[..n], orders[..n]).tools, orders[n]))
  }

  lemma SomeOpensIs(responseId: string, events: seq<CanonicalEvent>, orders: seq<seq<int>>, x: ItemRef)
    requires |orders| == |events|
    ensures Has(Run(responseId, events, orders).out.trace, x, Added) <==> SomeOpens(events, x)
  {
    WhatARunOpens(responseId, events, orders);
    match x
    case Message => assert SomeOpens(events, x) <==> SomeSays(events);
    case Reasoning => assert SomeOpens(events, x) <==> SomeReasons(events);
    case Tool(i) => assert SomeOpens(events, x) <==> SomeIdentifies(events, i);
  }

  lemma ToolsDone(s: State, e: CanonicalEvent, order: seq<int>, i: int)
    requires Inv(s) && (e.MessageEnd? ==> ClosesAll(s.tools, order))
    ensures i in Handle(s, e, order).tools.done <==> i in s.tools.done || (e.MessageEnd? && At(s.tools.callIds, i) != "")
  {
    if e.MessageEnd? { ToolsClosed(s, order, i); } else { ToolsNotClosed(s, e, order); }
  }

  lemma ToolsNotClosed(s: State, e: CanonicalEvent, order: seq<int>)
    requires !e.MessageEnd?
    ensures Handle(s, e, order).tools.done == s.tools.done
  {
    if e.TextDelta? { TextKeeps(s, e.text); }
  }

  lemma ToolsClosed(s: State, order: seq<int>, i: int)
    requires Inv(s) && ClosesAll(s.tools, order)
    ensures i in End(s, order).tools.done <==> i in s.tools.done || At(s.tools.callIds, i) != ""
  {
    var s1 := CloseReasoning(CloseMessage(s));
    CloseMessageInv(s);
    CloseReasoningInv(CloseMessage(s));
    assert s1.tools == s.tools;
    CloseToolsInv(s1, order);
    OnlyOpenDone(s1, order, i);
  }

  lemma {:induction false} OnlyOpenDone(s: State, order: seq<int>, i: int)
    ensures CloseTools(s, order).tools.callIds == s.tools.callIds
    ensures i in s.tools.done ==> i in CloseTools(s, order).tools.done
    ensures i in CloseTools(s, order).tools.done ==> i in s.tools.done || At(s.tools.callIds, i) != ""
  {
    if order != [] { OnlyOpenDone(s, order[..|order| - 1], i); }
  }

  /** An item is finished by an event exactly when it was before, or the event closes it and it is there. */
  lemma DoneStep(s: State, e: CanonicalEvent, order: seq<int>, x: ItemRef)
    requires Inv(s) && Inv(Handle(s, e, order)) && (e.MessageEnd? ==> ClosesAll(s.tools, order)) && (s.rs.added ==> s.rs.id != "")
    ensures Has(Handle(s, e, order).out.trace, x, Done) <==>
            Has(s.out.trace, x, Done) || (ClosesItem(e, x) && Has(s.out.trace, x, Added))
  {
    var t := Handle(s, e, order);
    match x
    case Message => HandleFlags(s, e, order);
    case Reasoning => HandleReasoning(s, e, order);
    case Tool(i) =>
      assert ToolInSync(s.tools, i, s.out.trace) && ToolInSync(t.tools, i, t.out.trace);
      ToolsDone(s, e, order, i);
  }

  lemma ClosingAddsNothing(events: seq<CanonicalEvent>, x: ItemRef)
    requires events != [] && ClosesItem(events[|events| - 1], x)
    ensures TextIn(events, x) == TextIn(events[..|events| - 1], x) && NamedIn(events, x) == NamedIn(events[..|events| - 1], x)
  {
  }

  lemma DoneStays(t: seq<Event>, u: seq<Event>, x: ItemRef, text: string, name: string)
    requires t <= u && DoneWith(t, x, text, name)
    ensures DoneWith(u, x, text, name)
  {
    var p :| 0 <= p < |t| && Is(t[p], x, Done) && t[p].body.text == text && t[p].body.name == name;
    assert Is(u[p], x, Done);
  }

  /** The item's done event appears with this event. */
  lemma EndedNow(s: State, t: State, events: seq<CanonicalEvent>, x: ItemRef)
    requires events != [] && Inv(t) && AddsUnder(s.out.trace, t.out.trace, t)
    requires !Has(s.out.trace, x, Done) && Has(t.out.trace, x, Done) && ClosesItem(events[|events| - 1], x)
    requires Deltas(s.out.trace, x) == TextIn(events[..|events| - 1], x) && Deltas(t.out.trace, x) == TextIn(events, x)
    requires NameIn(t, x, Done) == NamedIn(events, x)
    ensures var init := events[..|events| - 1]; DoneWith(t.out.trace, x, Final(x, TextIn(init, x)), NamedIn(init, x))
  {
    ClosingAddsNothing(events, x);
    var p := ClosedNow(s.out.trace, t.out.trace, x);
    assert GoesBy(t.out.trace[p], t);
  }

  lemma NamedAsHeld(responseId: string, events: seq<CanonicalEvent>, orders: seq<seq<int>>, x: ItemRef)
    requires |orders| == |events|
    ensures NameIn(Run(responseId, events, orders), x, Done) == NamedIn(events, x)
  {
    RunHoldsTexts(responseId, events, orders);
    if x.Tool? { RunHoldsCall(responseId, events, orders, x.index); }
  }

  /** In every run, the first event to close an opened item finishes it with exactly what had arrived, and nothing else does. */
  lemma {:induction false} HowItemsEnd(responseId: string, events: seq<CanonicalEvent>, orders: seq<seq<int>>, x: ItemRef)
    requires |orders| == |events| && EndsClose(responseId, events, orders)
    ensures Ends(Run(responseId, events, orders).out.trace, events, x)
  {
    if events != [] {
      var n := |events| - 1;
      var init, orders0 := events[..n], orders[..n];
      var s, t := Run(responseId, init, orders0), Run(responseId, events, orders);
      HowItemsEnd(responseId, init, orders0, x);
      EveryRunIsLegal(responseId, init, orders0);
      EveryRunIsLegal(responseId, events, orders);
      RunReasoning(responseId, init, orders0);
      HandleUnder(s, events[n], orders[n]);
      DoneStep(s, events[n], orders[n], x);
      SomeOpensIs(responseId, init, orders0, x);
      StreamedIsWhatArrived(responseId, init, orders0, x);
      StreamedIsWhatArrived(responseId, events, orders, x);
      NamedAsHeld(responseId, events, orders, x);
      if Has(t.out.trace, x, Done) && !Has(s.out.trace, x, Done) { EndedNow(s, t, events, x); }
      EndsFurther(s.out.trace, t.out.trace, events, x);
    }
  }

  lemma EndsFurther(t: seq<Event>, u: seq<Event>, events: seq<CanonicalEvent>, x: ItemRef)
    requires events != [] && t <= u && Ends(t, events[..|events| - 1], x)
    requires var init, e := events[..|events| - 1], events[|events| - 1];
             && (Has(u, x, Done) <==> Has(t, x, Done) || (ClosesItem(e, x) && SomeOpens(init, x)))
             && (Has(u, x, Done) && !Has(t, x, Done) ==> DoneWith(u, x, Final(x, TextIn(init, x)), NamedIn(init, x)))
    ensures Ends(u, events, x)
  {
    var init := events[..|events| - 1];
    if ClosingOf(init, x).Some? {
      var k := ClosingOf(init, x).value;
      assert init[..k] == events[..k];
      DoneStays(t, u, x, Final(x, TextIn(init[..k], x)), NamedIn(init[..k], x));
    }
  }

  lemma {:induction false} NothingCloses(events: seq<CanonicalEvent>, x: ItemRef)
    requires forall k :: 0 <= k < |events| ==> !ClosesItem(events[k], x)
    ensures ClosingOf(events, x).None?
  {
    if events != [] { NothingCloses(events[..|events| - 1], x); }
  }

  lemma {:induction false} NoEndClosesAnyway(responseId: string, events: seq<CanonicalEvent>, orders: seq<seq<int>>)
    requires |orders| == |events| && !SomeEnds(events)
    ensures EndsClose(responseId, events, orders)
  {
    if events != [] {
      OneMoreSome(events);
      NoEndClosesAnyway(responseId, events[..|events| - 1], orders[..|events| - 1]);
    }
  }

  /** When the message ends, each call that was given an id is finished with its name and all its arguments, "{}" if none came. */
  lemma CallsEndComplete(responseId: string, events: seq<CanonicalEvent>, orders: seq<seq<int>>, order: seq<int>, i: int)
    requires |orders| == |events| && !SomeEnds(events) && ClosesAll(Run(responseId, events, orders).tools, order)
    requires SomeIdentifies(events, i)
    ensures DoneWith(Run(responseId, events + [MessageEnd], orders + [order]).out.trace, Tool(i),
                     if ArgumentsFrom(events, i) == "" then "{}" else ArgumentsFrom(events, i), CallNameOf(events, i))
  {
    var all, n := events + [MessageEnd], |events|;
    NoEndClosesAnyway(responseId, events, orders);
    assert all[..n] == events && (orders + [order])[..n] == orders;
    HowItemsEnd(responseId, all, orders + [order], Tool(i));
    assert SomeOpens(all[..n], Tool(i)) by {
      var k :| 0 <= k < n && Identifies(events[k], i);
      assert Opens(events[k], Tool(i));
    }
    NothingCloses(events, Tool(i));
  }

  // ---- everything else in the stream ----

  /** What is not about an item. */
  function Others(t: seq<Event>): seq<Body> {
    if t == [] then []
    else Others(t[..|t| - 1]) + if t[|t| - 1].body.OnItem? then [] else [t[|t| - 1].body]
  }

  /** The opening, media and errors as they come, and one completion with the usage reported by then. */
  function OthersOf(events: seq<CanonicalEvent>): seq<Body> {
    if events == [] then []
    else
      OthersOf(events[..|events| - 1]) + OtherOf(events[..|events| - 1], events[|events| - 1])
  }

  /** What comes of one event after others. */
  function OtherOf(init: seq<CanonicalEvent>, e: CanonicalEvent): seq<Body> {
    (if Starts(e) && !SomeStarts(init) then [Created, InProgress] else []) +
    match e
    case Image(media) => [ImageDelta(media)]
    case Audio(media) => [AudioDelta(media)]
    case Failure(message) => [Error(message)]
    case MessageEnd => if SomeEnds(init) then [] else [Completed(UsageOf(init))]
    case _ => []
  }

  lemma OthersEmit(o: Out, b: Body)
    ensures Others(Emit(o, b).trace) == Others(o.trace) + if b.OnItem? then [] else [b]
  {
    var t := Emit(o, b).trace;
    assert t[..|t| - 1] == o.trace;
  }

  function Opening(o: Out): seq<Body> { if o.started then [] else [Created, InProgress] }

  lemma OthersStarted(o: Out)
    ensures Others(EnsureStarted(o).trace) == Others(o.trace) + Opening(o)
  {
    if !o.started {
      OthersEmit(o, Created);
      OthersEmit(Emit(o, Created), InProgress);
    }
  }

  /** u adds only events on items. */
  predicate AddsItems(t: seq<Event>, u: seq<Event>) { t <= u && forall j :: |t| <= j < |u| ==> u[j].body.OnItem? }

  lemma {:induction false} OnlyItems(t: seq<Event>, u: seq<Event>)
    requires AddsItems(t, u)
    ensures Others(u) == Others(t)
    decreases |u|
  {
    if |t| < |u| {
      OnlyItems(t, u[..|u| - 1]);
    } else {
      assert t == u;
    }
  }

  lemma ClosingAddsItems(s: State)
    ensures AddsItems(s.out.trace, CloseReasoning(s).out.trace) && AddsItems(s.out.trace, CloseMessage(s).out.trace)
    ensures CloseReasoning(s).out.started == CloseMessage(s).out.started == s.out.started
  {
  }

  lemma OthersClosing(s: State)
    ensures Others(CloseReasoning(s).out.trace) == Others(s.out.trace) && Others(CloseMessage(s).out.trace) == Others(s.out.trace)
    ensures CloseReasoning(s).out.started == CloseMessage(s).out.started == s.out.started
  {
    ClosingAddsItems(s);
    OnlyItems(s.out.trace, CloseReasoning(s).out.trace);
    OnlyItems(s.out.trace, CloseMessage(s).out.trace);
  }

  lemma WritingAddsItems(s: State, text: string)
    ensures AddsItems(EnsureStarted(s.out).trace, WriteText(s, text).out.trace)
  {
    var o := OpenMessage(EnsureStarted(s.out), s.msg, s.responseId);
    assert AddsItems(EnsureStarted(s.out).trace, o.trace);
  }

  lemma OthersText(s: State, text: string)
    requires text != ""
    ensures Others(EmitText(s, text).out.trace) == Others(s.out.trace) + Opening(s.out)
  {
    var s1 := CloseReasoning(s);
    OthersClosing(s);
    OthersStarted(s1.out);
    WritingAddsItems(s1, text);
    OnlyItems(EnsureStarted(s1.out).trace, WriteText(s1, text).out.trace);
  }

  lemma ReasoningAddsItems(s: State, text: string)
    requires s.rs.added ==> s.out.started
    ensures AddsItems(EnsureStarted(s.out).trace, EmitReasoning(s, text).out.trace)
  {
    assert AddsItems(EnsureStarted(s.out).trace, StartReasoning(s).out.trace);
  }

  lemma OthersReasoning(s: State, text: string)
    requires s.rs.added ==> s.out.started
    ensures Others(EmitReasoning(s, text).out.trace) == Others(s.out.trace) + Opening(s.out)
  {
    OthersStarted(s.out);
    ReasoningAddsItems(s, text);
    OnlyItems(EnsureStarted(s.out).trace, EmitReasoning(s, text).out.trace);
  }

  lemma OthersTool(s: State, c: ToolDelta)
    requires StartedByTools(s)
    ensures Others(EmitTool(s, Some(c)).out.trace) == Others(s.out.trace) + if c.id != "" then Opening(s.out) else []
  {
    var i := ToolIndex(c);
    var s1 := CloseReasoning(CloseMessage(s));
    OthersClosing(s);
    OthersClosing(CloseMessage(s));
    assert s1.tools == s.tools;
    OthersCall(s1.(tools := Rename(s1.tools, i, c.name)), i, c);
  }

  lemma OthersCall(s: State, i: int, c: ToolDelta)
    requires StartedByTools(s)
    ensures Others(AppendArguments(AddTool(s, i, c.id), i, c.arguments).out.trace) == Others(s.out.trace) + if c.id != "" then Opening(s.out) else []
  {
    OthersAdded(s, i, c.id);
    OthersAppended(AddTool(s, i, c.id), i, c.arguments);
  }

  lemma OthersAppended(s: State, i: int, text: string)
    ensures Others(AppendArguments(s, i, text).out.trace) == Others(s.out.trace)
  {
    OnlyItems(s.out.trace, AppendArguments(s, i, text).out.trace);
  }

  lemma OthersAdded(s: State, i: int, id: string)
    requires StartedByTools(s)
    ensures Others(AddTool(s, i, id).out.trace) == Others(s.out.trace) + if id != "" then Opening(s.out) else []
  {
    if id != "" && At(s.tools.callIds, i) == "" {
      OthersStarted(s.out);
      OnlyItems(EnsureStarted(s.out).trace, AddTool(s, i, id).out.trace);
    }
  }

  lemma {:induction false} OthersTools(s: State, order: seq<int>)
    ensures Others(CloseTools(s, order).out.trace) == Others(s.out.trace)
  {
    if order != [] {
      var s1 := CloseTools(s, order[..|order| - 1]);
      OthersTools(s, order[..|order| - 1]);
      OnlyItems(s1.out.trace, CloseTool(s1, order[|order| - 1]).out.trace);
    }
  }

  lemma OthersCompleted(s: State)
    ensures Others(SendCompleted(s).out.trace) == Others(s.out.trace) + if s.out.completed then [] else [Completed(s.usage)]
  {
    if !s.out.completed { OthersEmit(s.out, Completed(s.usage)); }
  }

  lemma OthersEnd(s: State, order: seq<int>)
    ensures Others(End(s, order).out.trace) == Others(s.out.trace) + if s.out.completed then [] else [Completed(s.usage)]
  {
    var s1 := CloseReasoning(CloseMessage(s));
    OthersClosing(s);
    OthersClosing(CloseMessage(s));
    assert s1.out.completed == s.out.completed && s1.usage == s.usage;
    OthersTools(s1, order);
    CloseToolsFlags(s1, order);
    ClosedCalls(s1, order);
    OthersCompleted(CloseTools(s1, order));
  }

  /** The bodies an event adds that are about no item. */
  function OtherStep(s: State, e: CanonicalEvent): seq<Body> {
    (if Starts(e) then Opening(s.out) else []) +
    match e
    case Image(media) => [ImageDelta(media)]
    case Audio(media) => [AudioDelta(media)]
    case Failure(message) => [Error(message)]
    case MessageEnd => if s.out.completed then [] else [Completed(s.usage)]
    case _ => []
  }

  lemma OthersReasoned(s: State, e: CanonicalEvent, order: seq<int>)
    requires Inv(s) && e.ReasoningDelta?
    ensures Others(Handle(s, e, order).out.trace) == Others(s.out.trace) + Opening(s.out)
  {
    OthersReasoning(s.(rs := ApplyMeta(s.rs, e.itemId, e.encrypted)), e.reasoning);
  }

  lemma HandleOthers(s: State, e: CanonicalEvent, order: seq<int>)
    requires Inv(s)
    ensures Others(Handle(s, e, order).out.trace) == Others(s.out.trace) + OtherStep(s, e)
  {
    match e
    case TextDelta(text) => if text != "" { OthersText(s, text); }
    case ReasoningDelta(_, _, _) => OthersReasoned(s, e, order);
    case ToolCallDelta(call) => if call.Some? { OthersTool(s, call.value); }
    case MessageEnd => OthersEnd(s, order);
    case _ => OthersPlain(s, e, order);
  }

  lemma OthersPlain(s: State, e: CanonicalEvent, order: seq<int>)
    requires e.MessageStart? || e.Image? || e.Audio? || e.Usage? || e.Failure? || e.Unknown?
    ensures Others(Handle(s, e, order).out.trace) == Others(s.out.trace) + OtherStep(s, e)
  {
    match e
    case MessageStart => OthersStarted(s.out);
    case Image(media) => OthersMedia(s.out, ImageDelta(media));
    case Audio(media) => OthersMedia(s.out, AudioDelta(media));
    case Failure(message) => OthersEmit(s.out, Error(message));
    case _ =>
  }

  lemma OthersMedia(o: Out, b: Body)
    requires !b.OnItem?
    ensures Others(Emit(EnsureStarted(o), b).trace) == Others(o.trace) + (Opening(o) + [b])
  {
    OthersStarted(o);
    OthersEmit(EnsureStarted(o), b);
    Regrouped(Others(o.trace), Opening(o), [b]);
  }

  lemma StepIsTold(s: State, init: seq<CanonicalEvent>, e: CanonicalEvent)
    requires (s.out.started <==> SomeStarts(init)) && (s.out.completed <==> SomeEnds(init)) && s.usage == UsageOf(init)
    ensures OtherStep(s, e) == OtherOf(init, e)
  {
  }

  /** In every run: the response opened once, before what opens it; media and errors in order; the usage last reported before the first end. */
  lemma {:induction false} OthersAreTold(responseId: string, events: seq<CanonicalEvent>, orders: seq<seq<int>>)
    requires |orders| == |events|
    ensures Others(Run(responseId, events, orders).out.trace) == OthersOf(events)
  {
    if events != [] {
      var n := |events| - 1;
      var s := Run(responseId, events[..n], orders[..n]);
      OthersAreTold(responseId, events[..n], orders[..n]);
      RunFlags(responseId, events[..n], orders[..n]);
      RunHoldsTexts(responseId, events[..n], orders[..n]);
      HandleOthers(s, events[n], orders[n]);
      StepIsTold(s, events[..n], events[n]);
    }
  }
}
