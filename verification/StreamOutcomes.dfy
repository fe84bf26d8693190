/** What a run of the Responses stream amounts to, told from the provider's events alone (internal/api/responses_stream.go). */
module StreamOutcomes {
  import opened StreamProtocol
  import opened StreamWriter
  import opened Text
  import opened Wrappers

  // ---- what an event does, told from the event ----

  predicate Says(e: CanonicalEvent) { e.TextDelta? && e.text != "" }
  predicate Calls(e: CanonicalEvent) { e.ToolCallDelta? && e.call.Some? }

  /** The event is about the tool call at place i; a negative index counts as 0. */
  predicate Concerns(e: CanonicalEvent, i: int) {
    Calls(e) && i == if e.call.value.index < 0 then 0 else e.call.value.index
  }

  predicate Identifies(e: CanonicalEvent, i: int) { Concerns(e, i) && e.call.value.id != "" }

  /** The event opens the response. */
  predicate Starts(e: CanonicalEvent) {
    || e.MessageStart? || Says(e) || e.ReasoningDelta? || e.Image? || e.Audio?
    || (Calls(e) && e.call.value.id != "")
  }

  /** The event closes whatever message there is. */
  predicate Closes(e: CanonicalEvent) { Calls(e) || e.MessageEnd? }

  predicate SomeSays(events: seq<CanonicalEvent>) { exists k :: 0 <= k < |events| && Says(events[k]) }
  predicate SomeReasons(events: seq<CanonicalEvent>) { exists k :: 0 <= k < |events| && events[k].ReasoningDelta? }
  predicate SomeIdentifies(events: seq<CanonicalEvent>, i: int) { exists k :: 0 <= k < |events| && Identifies(events[k], i) }
  predicate SomeStarts(events: seq<CanonicalEvent>) { exists k :: 0 <= k < |events| && Starts(events[k]) }
  predicate SomeEnds(events: seq<CanonicalEvent>) { exists k :: 0 <= k < |events| && events[k].MessageEnd? }

  // ---- a single step ----

  lemma {:induction false} CloseToolsFlags(s: State, order: seq<int>)
    ensures var t := CloseTools(s, order);
            t.msg == s.msg && t.rs == s.rs && t.tools.callIds == s.tools.callIds
            && t.out.started == s.out.started && t.out.completed == s.out.completed && t.responseId == s.responseId
  {
    if order != [] { CloseToolsFlags(s, order[..|order| - 1]); }
  }

  lemma EndFlags(s: State, order: seq<int>)
    ensures var t := End(s, order);
            && t.msg == s.msg.(done := s.msg.added || s.msg.done) && t.rs == s.rs.(done := s.rs.added || s.rs.done)
            && t.tools.callIds == s.tools.callIds && t.out.started == s.out.started && t.out.completed
  {
    CloseToolsFlags(CloseReasoning(CloseMessage(s)), order);
  }

  /** The flags after an event, from the flags before and the event. */
  ghost predicate FlagsStep(s: State, t: State, e: CanonicalEvent) {
    && (t.msg.added <==> s.msg.added || Says(e))
    && (t.rs.added <==> s.rs.added || e.ReasoningDelta?)
    && (t.out.started <==> s.out.started || Starts(e))
    && (t.out.completed <==> s.out.completed || e.MessageEnd?)
    && (t.msg.done <==> s.msg.done || (Closes(e) && s.msg.added))
    && t.msg.text == s.msg.text + (if e.TextDelta? then e.text else "")
  }

  ghost predicate StartedByTools(s: State) { forall i :: At(s.tools.callIds, i) != "" ==> s.out.started }

  lemma ToolIds(s: State, call: ToolDelta)
    requires StartedByTools(s)
    ensures var t, e := EmitTool(s, Some(call)), ToolCallDelta(Some(call));
            && (t.out.started <==> s.out.started || Starts(e))
            && (forall i :: At(t.tools.callIds, i) != "" <==> At(s.tools.callIds, i) != "" || Identifies(e, i))
  {
    var i := ToolIndex(call);
    var s1 := CloseReasoning(CloseMessage(s));
    var s2 := s1.(tools := Rename(s1.tools, i, call.name));
    var s3 := AddTool(s2, i, call.id);
    assert EmitTool(s, Some(call)) == AppendArguments(s3, i, call.arguments);
  }

  lemma ToolFlags(s: State, call: Option<ToolDelta>)
    requires StartedByTools(s)
    ensures FlagsStep(s, EmitTool(s, call), ToolCallDelta(call))
  {
    if call.Some? {
      ToolIds(s, call.value);
      var s1 := CloseReasoning(CloseMessage(s));
      assert s1.msg.text == s.msg.text;
    }
  }

  lemma HandleFlags(s: State, e: CanonicalEvent, order: seq<int>)
    requires Inv(s)
    ensures FlagsStep(s, Handle(s, e, order), e)
    ensures forall i :: At(Handle(s, e, order).tools.callIds, i) != "" <==> At(s.tools.callIds, i) != "" || Identifies(e, i)
  {
    match e
    case ToolCallDelta(call) => ToolFlags(s, call); if call.Some? { ToolIds(s, call.value); }
    case MessageEnd => EndFlags(s, order);
    case _ =>
  }

  // ---- a whole run ----

  /** The text of all text deltas. */
  function TextOf(events: seq<CanonicalEvent>): string {
    if events == [] then ""
    else
      var e := events[|events| - 1];
      TextOf(events[..|events| - 1]) + (if e.TextDelta? then e.text else "")
  }

  lemma OneMoreSome(events: seq<CanonicalEvent>)
    requires events != []
    ensures var init, e := events[..|events| - 1], events[|events| - 1];
            && (SomeSays(events) <==> SomeSays(init) || Says(e))
            && (SomeReasons(events) <==> SomeReasons(init) || e.ReasoningDelta?)
            && (SomeStarts(events) <==> SomeStarts(init) || Starts(e))
            && (SomeEnds(events) <==> SomeEnds(init) || e.MessageEnd?)
  {
    var init := events[..|events| - 1];
    assert forall k :: 0 <= k < |init| ==> init[k] == events[k];
  }

  lemma OneMoreIdentifies(events: seq<CanonicalEvent>, i: int)
    requires events != []
    ensures SomeIdentifies(events, i) <==> SomeIdentifies(events[..|events| - 1], i) || Identifies(events[|events| - 1], i)
  {
    var init := events[..|events| - 1];
    assert forall k :: 0 <= k < |init| ==> init[k] == events[k];
  }

  /** The writer's flags say which events there were. */
  lemma {:induction false} RunFlags(responseId: string, events: seq<CanonicalEvent>, orders: seq<seq<int>>)
    requires |orders| == |events|
    ensures var s := Run(responseId, events, orders);
            && Inv(s)
            && (s.msg.added <==> SomeSays(events)) && (s.rs.added <==> SomeReasons(events))
            && (s.out.started <==> SomeStarts(events)) && (s.out.completed <==> SomeEnds(events))
            && s.msg.text == TextOf(events)
    ensures forall i :: At(Run(responseId, events, orders).tools.callIds, i) != "" <==> SomeIdentifies(events, i)
  {
    EveryRunIsLegal(responseId, events, orders);
    if events != [] {
      var n := |events| - 1;
      RunFlags(responseId, events[..n], orders[..n]);
      HandleFlags(Run(responseId, events[..n], orders[..n]), events[n], orders[n]);
      OneMoreSome(events);
      forall i ensures SomeIdentifies(events, i) <==> SomeIdentifies(events[..n], i) || Identifies(events[n], i) {
        OneMoreIdentifies(events, i);
      }
    }
  }

  /** Which items are announced, whether the response is created and completed: all told from the events. */
  lemma WhatARunOpens(responseId: string, events: seq<CanonicalEvent>, orders: seq<seq<int>>)
    requires |orders| == |events|
    ensures var t := Run(responseId, events, orders).out.trace;
            && (HasCreated(t) <==> SomeStarts(events))
            && (HasCompleted(t) <==> SomeEnds(events))
            && (Has(t, Message, Added) <==> SomeSays(events))
            && (Has(t, Reasoning, Added) <==> SomeReasons(events))
            && (forall i :: Has(t, Tool(i), Added) <==> SomeIdentifies(events, i))
            && Deltas(t, Message) == TextOf(events)
  {
    RunFlags(responseId, events, orders);
    var s := Run(responseId, events, orders);
    forall i ensures Has(s.out.trace, Tool(i), Added) <==> SomeIdentifies(events, i) {
      assert ToolInSync(s.tools, i, s.out.trace);
    }
  }

  // ---- events are only ever added ----

  lemma {:induction false} CloseToolsAdds(s: State, order: seq<int>)
    ensures s.out.trace <= CloseTools(s, order).out.trace
  {
    if order != [] { CloseToolsAdds(s, order[..|order| - 1]); }
  }

  lemma ClosingAdds(s: State)
    ensures s.out.trace <= CloseReasoning(s).out.trace && s.out.trace <= CloseMessage(s).out.trace
  {
  }

  lemma EndAdds(s: State, order: seq<int>)
    ensures s.out.trace <= End(s, order).out.trace
  {
    var s1 := CloseReasoning(CloseMessage(s));
    ClosingAdds(s);
    ClosingAdds(CloseMessage(s));
    CloseToolsAdds(s1, order);
  }

  lemma ToolAdds(s: State, call: Option<ToolDelta>)
    ensures s.out.trace <= EmitTool(s, call).out.trace
  {
    if call.Some? {
      var c, i := call.value, ToolIndex(call.value);
      var s1 := CloseReasoning(CloseMessage(s));
      ClosingAdds(s);
      ClosingAdds(CloseMessage(s));
      var s2 := AddTool(s1.(tools := Rename(s1.tools, i, c.name)), i, c.id);
      assert s1.out.trace <= s2.out.trace;
      assert s2.out.trace <= AppendArguments(s2, i, c.arguments).out.trace;
    }
  }

  lemma TextAdds(s: State, text: string)
    ensures s.out.trace <= EmitText(s, text).out.trace
  {
    if text != "" {
      var s1 := CloseReasoning(s);
      ClosingAdds(s);
      var o := OpenMessage(EnsureStarted(s1.out), s1.msg, s1.responseId);
      assert s1.out.trace <= o.trace;
    }
  }

  lemma ReasoningAdds(s: State, text: string)
    ensures s.out.trace <= EmitReasoning(s, text).out.trace
  {
    assert s.out.trace <= StartReasoning(s).out.trace;
  }

  /** What was emitted is never taken back. */
  lemma HandleAdds(s: State, e: CanonicalEvent, order: seq<int>)
    ensures s.out.trace <= Handle(s, e, order).out.trace
  {
    match e
    case TextDelta(text) => TextAdds(s, text);
    case ReasoningDelta(id, encrypted, text) => ReasoningAdds(s.(rs := ApplyMeta(s.rs, id, encrypted)), text);
    case ToolCallDelta(call) => ToolAdds(s, call);
    case MessageEnd => EndAdds(s, order);
    case _ =>
  }

  // ---- the message's final text ----

  /** The first event that closes a message with text in it. */
  function Closing(events: seq<CanonicalEvent>): (r: Option<nat>)
    ensures r.Some? ==> r.value < |events|
  {
    if events == [] then None
    else
      var init := events[..|events| - 1];
      if Closing(init).Some? then Closing(init)
      else if Closes(events[|events| - 1]) && SomeSays(init) then Some(|init|)
      else None
  }

  lemma {:induction false} ClosingIs(events: seq<CanonicalEvent>)
    ensures Closing(events).Some? ==>
              var j := Closing(events).value; j < |events| && Closes(events[j]) && SomeSays(events[..j])
    ensures forall i, j :: 0 <= i < j < |events| && Says(events[i]) && Closes(events[j]) ==> Closing(events).Some? && Closing(events).value <= j
  {
    if events != [] {
      var n := |events| - 1;
      var init := events[..n];
      ClosingIs(init);
      if Closing(init).Some? { assert init[..Closing(init).value] == events[..Closing(init).value]; }
      forall i, j | 0 <= i < j < |events| && Says(events[i]) && Closes(events[j])
        ensures Closing(events).Some? && Closing(events).value <= j
      {
        assert Says(init[i]);
        if j < n { assert Closes(init[j]); }
      }
    }
  }

  /** The message's done event, and the text it carries. */
  predicate FinalTextIs(t: seq<Event>, p: nat, text: string) {
    p < |t| && Is(t[p], Message, Done) && t[p].body.text == text
  }

  /** How a run's message ends, if it does. */
  ghost predicate EndsAs(t: seq<Event>, events: seq<CanonicalEvent>) {
    match Closing(events)
    case None => !Has(t, Message, Done)
    case Some(j) => exists p :: FinalTextIs(t, p, TextOf(events[..j]))
  }

  /** The message is closed by the first closing event after some text, with the text up to there. */
  lemma {:induction false} FinalText(responseId: string, events: seq<CanonicalEvent>, orders: seq<seq<int>>)
    requires |orders| == |events|
    ensures EndsAs(Run(responseId, events, orders).out.trace, events)
  {
    if events != [] {
      var n := |events| - 1;
      var s, t := Run(responseId, events[..n], orders[..n]), Run(responseId, events, orders);
      FinalText(responseId, events[..n], orders[..n]);
      RunFlags(responseId, events[..n], orders[..n]);
      RunFlags(responseId, events, orders);
      HandleFlags(s, events[n], orders[n]);
      HandleAdds(s, events[n], orders[n]);
      FinalStep(s, t, events);
    }
  }

  lemma FinalStep(s: State, t: State, events: seq<CanonicalEvent>)
    requires events != [] && Inv(s) && Inv(t) && s.out.trace <= t.out.trace
    requires var init, e := events[..|events| - 1], events[|events| - 1];
             EndsAs(s.out.trace, init) && FlagsStep(s, t, e) && s.msg.text == TextOf(init) && (s.msg.added <==> SomeSays(init))
    ensures EndsAs(t.out.trace, events)
  {
    var n := |events| - 1;
    var init := events[..n];
    if Closing(init).Some? {
      var j := Closing(init).value;
      assert init[..j] == events[..j];
      var p :| FinalTextIs(s.out.trace, p, TextOf(init[..j]));
      assert FinalTextIs(t.out.trace, p, TextOf(events[..j]));
    } else if Closing(events).Some? {
      var p := ClosedNow(s.out.trace, t.out.trace, Message);
      assert FinalTextIs(t.out.trace, p, TextOf(events[..n]));
    }
  }

  /** An item closed between two moments at which its deltas were the same is closed with them. */
  lemma ClosedNow(t: seq<Event>, u: seq<Event>, x: ItemRef) returns (p: nat)
    requires LegalTrace(u) && t <= u && !Has(t, x, Done) && Has(u, x, Done)
    requires Deltas(t, x) == Deltas(u, x)
    ensures |t| <= p < |u| && Is(u[p], x, Done) && u[p].body.text == Final(x, Deltas(t, x))
  {
    HasIff(t, x, Done);
    HasIff(u, x, Done);
    p :| 0 <= p < |u| && Is(u[p], x, Done);
    DoneTextIsDeltas(u, p);
    var a, b, c := t, u[|t|..p], u[p..];
    assert u[..p] == a + b && u == u[..p] + c;
    DeltasAppend(a, b, x);
    DeltasAppend(u[..p], c, x);
    NothingBetween(Deltas(a, x), Deltas(b, x), Deltas(c, x));
  }

  lemma NothingBetween(a: string, b: string, c: string)
    requires a + b + c == a
    ensures b == ""
  {
    assert |a + b + c| == |a| + |b| + |c|;
  }

  lemma {:induction false} TextGrows(events: seq<CanonicalEvent>, j: nat)
    requires j <= |events|
    ensures TextOf(events[..j]) <= TextOf(events)
    ensures TextOf(events[..j]) == TextOf(events) <==> forall k :: j <= k < |events| ==> !Says(events[k])
    decreases |events|
  {
    var n := |events|;
    if j == n {
      assert events[..j] == events;
    } else {
      TextGrows(events[..n - 1], j);
      assert events[..n - 1][..j] == events[..j];
      assert forall k :: 0 <= k < n - 1 ==> events[..n - 1][k] == events[k];
    }
  }

  /** Text, then a closing event, then text again. */
  predicate TextAfterClosing(events: seq<CanonicalEvent>) {
    exists i, j, k :: 0 <= i < j < k < |events| && Says(events[i]) && Closes(events[j]) && Says(events[k])
  }

  /** The message's done event carries something else than the text that was streamed. */
  predicate MessageCutShort(t: seq<Event>) {
    exists p :: 0 <= p < |t| && Is(t[p], Message, Done) && t[p].body.text != Deltas(t, Message)
  }

  /**
   The message's final text misses streamed text exactly when the provider sends text, then a tool call
   or the end, and then text again.
   */
  lemma MessageCutShortIff(responseId: string, events: seq<CanonicalEvent>, orders: seq<seq<int>>)
    requires |orders| == |events|
    ensures MessageCutShort(Run(responseId, events, orders).out.trace) <==> TextAfterClosing(events)
  {
    var t := Run(responseId, events, orders).out.trace;
    RunFlags(responseId, events, orders);
    FinalText(responseId, events, orders);
    ClosingIs(events);
    HasIff(t, Message, Done);
    if Closing(events).Some? {
      var j := Closing(events).value;
      var p :| FinalTextIs(t, p, TextOf(events[..j]));
      OneDone(t, p);
      CutAfter(events, j);
    }
  }

  lemma OneDone(t: seq<Event>, p: nat)
    requires LegalTrace(t) && p < |t| && Is(t[p], Message, Done)
    ensures MessageCutShort(t) <==> t[p].body.text != Deltas(t, Message)
  {
    forall q | 0 <= q < |t| && Is(t[q], Message, Done) ensures q == p {
      if q < p { AtMostOnce(t, q, p); } else if p < q { AtMostOnce(t, p, q); }
    }
  }

  lemma CutAfter(events: seq<CanonicalEvent>, j: nat)
    requires j < |events| && Closes(events[j]) && SomeSays(events[..j])
    requires forall i, m :: 0 <= i < m < |events| && Says(events[i]) && Closes(events[m]) ==> j <= m
    ensures TextOf(events[..j]) != TextOf(events) <==> TextAfterClosing(events)
  {
    TextGrows(events, j);
    if TextOf(events[..j]) != TextOf(events) {
      var k :| j <= k < |events| && Says(events[k]);
      var i :| 0 <= i < j && Says(events[..j][i]);
      assert Says(events[i]) && k != j;
    }
  }

  // ---- created and completed ----

  lemma {:induction false} RunAdds(responseId: string, events: seq<CanonicalEvent>, orders: seq<seq<int>>, n: nat)
    requires n <= |events| == |orders|
    ensures Run(responseId, events[..n], orders[..n]).out.trace <= Run(responseId, events, orders).out.trace
    decreases |events|
  {
    var m := |events| - 1;
    if n == |events| {
      assert events[..n] == events && orders[..n] == orders;
    } else {
      RunAdds(responseId, events[..m], orders[..m], n);
      assert events[..m][..n] == events[..n] && orders[..m][..n] == orders[..n];
      HandleAdds(Run(responseId, events[..m], orders[..m]), events[m], orders[m]);
    }
  }

  /** Where the message ends for the first time. */
  function FirstEnd(events: seq<CanonicalEvent>): (n: nat)
    ensures n <= |events|
    ensures n < |events| ==> events[n].MessageEnd?
    ensures forall k :: 0 <= k < n ==> !events[k].MessageEnd?
  {
    if events == [] || events[0].MessageEnd? then 0 else 1 + FirstEnd(events[1..])
  }

  predicate CreatedBefore(t: seq<Event>, c: nat)
    requires c <= |t|
  {
    exists i :: 0 <= i < c && t[i].body.Created?
  }

  /** Whoever sees the response completed has seen it created. */
  predicate CreatedComesFirst(t: seq<Event>) {
    forall c :: 0 <= c < |t| && t[c].body.Completed? ==> CreatedBefore(t, c)
  }

  /** The response is created before it is completed exactly when something that opens it precedes the first end. */
  lemma CreatedComesFirstIff(responseId: string, events: seq<CanonicalEvent>, orders: seq<seq<int>>)
    requires |orders| == |events|
    ensures CreatedComesFirst(Run(responseId, events, orders).out.trace) <==>
            (SomeEnds(events) ==> SomeStarts(events[..FirstEnd(events)]))
  {
    var t, f := Run(responseId, events, orders).out.trace, FirstEnd(events);
    RunFlags(responseId, events, orders);
    HasCompletedIff(t);
    if SomeEnds(events) {
      assert f < |events|;
      var before := Run(responseId, events[..f], orders[..f]).out.trace;
      var after := Run(responseId, events[..f + 1], orders[..f + 1]).out.trace;
      RunFlags(responseId, events[..f], orders[..f]);
      RunFlags(responseId, events[..f + 1], orders[..f + 1]);
      assert events[..f + 1][..f] == events[..f] && orders[..f + 1][..f] == orders[..f];
      RunAdds(responseId, events[..f + 1], orders[..f + 1], f);
      RunAdds(responseId, events, orders, f + 1);
      OneMoreSome(events[..f + 1]);
      assert events[..f + 1][f].MessageEnd?;
      CompletedBetween(before, after, t);
    }
  }

  lemma CompletedBetween(t: seq<Event>, u: seq<Event>, w: seq<Event>)
    requires t <= u <= w && LegalTrace(w) && !HasCompleted(t) && HasCompleted(u) && (HasCreated(u) ==> HasCreated(t))
    ensures CreatedComesFirst(w) <==> HasCreated(t)
  {
    HasCompletedIff(t);
    HasCompletedIff(u);
    HasCreatedIff(t);
    HasCreatedIff(u);
    var c :| 0 <= c < |u| && u[c].body.Completed?;
    assert w[c].body.Completed? && |t| <= c;
    forall d | 0 <= d < |w| && w[d].body.Completed? ensures d == c {
      if d < c { AtMostOnce(w, d, c); } else if c < d { AtMostOnce(w, c, d); }
    }
    if HasCreated(t) {
      var i :| 0 <= i < |t| && t[i].body.Created?;
      assert w[i].body.Created?;
    }
  }

  /** The smallest input for which it is not: a stream that only ends. */
  lemma EndAloneCompletesWithoutCreated(responseId: string, order: seq<int>)
    ensures var t := Run(responseId, [MessageEnd], [order]).out.trace;
            HasCompleted(t) && !HasCreated(t) && !CreatedComesFirst(t)
  {
    var events: seq<CanonicalEvent> := [MessageEnd];
    CreatedComesFirstIff(responseId, events, [order]);
    WhatARunOpens(responseId, events, [order]);
    assert events[0].MessageEnd?;
  }
}
