/**
 The HTTP side of a Responses stream: what a client receives for a whole run
 (writeResponsesStream in internal/api/responses_stream.go).
 */
module ResponsesRelay {
  import opened ResponsesWriter
  import opened StreamContents
  import opened StreamOutcomes
  import opened StreamProtocol
  import opened StreamWriter
  import opened Wrappers

  /**
   What the provider's stream may hold. `named` is the type that the data of a ready-made
   event names in itself, empty when it names none.
   */
  datatype SourceEvent =
    | Canonical(event: CanonicalEvent)
    | UpstreamHeaders(headers: map<string, string>)
    | ResponsesSSE(name: string, named: string, data: string)

  /** What is written to the client: the writer's numbered events, ready-made ones, a failure, the closing mark. */
  datatype Frame =
    | Own(event: Event)
    | Passed(name: string, data: string)
    | Failed(message: string)
    | DoneMark

  type Headers = map<string, string>

  const BASE_HEADERS: Headers :=
    map["Content-Type" := "text/event-stream", "Cache-Control" := "no-cache", "Connection" := "keep-alive"]

  // ---- how much of the stream counts ----

  predicate Fails(e: SourceEvent) { e.Canonical? && e.event.Failure? }
  predicate EndsStream(e: SourceEvent) { e.Canonical? && (e.event.Failure? || e.event.MessageEnd?) }

  /** Everything up to the first end or failure; the rest is read and dropped. */
  function Cut(source: seq<SourceEvent>): (n: nat)
    ensures n <= |source|
    ensures forall i :: 0 <= i < n - 1 ==> !EndsStream(source[i])
    ensures n < |source| ==> n > 0 && EndsStream(source[n - 1])
  {
    if source == [] then 0 else if EndsStream(source[0]) then 1 else 1 + Cut(source[1..])
  }

  /** What the writer is given: ready-made events, headers and failures pass it by. */
  function Given(e: SourceEvent): CanonicalEvent {
    if e.Canonical? && !e.event.Failure? then e.event else Unknown
  }

  function AllGiven(source: seq<SourceEvent>): (r: seq<CanonicalEvent>)
    ensures |r| == |source|
    ensures forall i :: 0 <= i < |source| ==> r[i] == Given(source[i])
  {
    seq(|source|, i requires 0 <= i < |source| => Given(source[i]))
  }

  // ---- what is written ----

  function Owned(events: seq<Event>): (r: seq<Frame>)
    ensures |r| == |events|
    ensures forall i :: 0 <= i < |events| ==> r[i] == Own(events[i])
  {
    seq(|events|, i requires 0 <= i < |events| => Own(events[i]))
  }

  function Added(s: State, t: State): seq<Event> {
    if |s.out.trace| <= |t.out.trace| then t.out.trace[|s.out.trace|..] else []
  }

  /** What one event writes, given the writer's state before and after it. */
  function FramesOf(e: SourceEvent, s: State, t: State): seq<Frame> {
    match e
    case UpstreamHeaders(_) => []
    case ResponsesSSE(name, named, data) => [Passed(if name != "" then name else named, data)]
    case Canonical(Failure(message)) => [Failed(message)]
    case Canonical(_) => Owned(Added(s, t))
  }

  function StateAt(responseId: string, source: seq<SourceEvent>, orders: seq<seq<int>>): State
    requires |orders| == |source|
  {
    Run(responseId, AllGiven(source), orders)
  }

  function Frames(responseId: string, source: seq<SourceEvent>, orders: seq<seq<int>>): seq<Frame>
    requires |orders| == |source|
    decreases |source|
  {
    if source == [] then []
    else
      var n := |source| - 1;
      Frames(responseId, source[..n], orders[..n])
      + FramesOf(source[n], StateAt(responseId, source[..n], orders[..n]), StateAt(responseId, source, orders))
  }

  function HeadersOf(source: seq<SourceEvent>): Headers {
    if source == [] then BASE_HEADERS
    else
      var e := source[|source| - 1];
      HeadersOf(source[..|source| - 1]) + Relayed(e)
  }

  function Relayed(e: SourceEvent): Headers { if e.UpstreamHeaders? then e.headers else map[] }

  /** Should the run be ended, all tool calls are closed. */
  ghost predicate ClosesAtEnd(responseId: string, source: seq<SourceEvent>, orders: seq<seq<int>>)
    requires |orders| == |source|
  {
    var n := |source| - 1;
    n >= 0 && Given(source[n]).MessageEnd? ==> ClosesAll(StateAt(responseId, source[..n], orders[..n]).tools, orders[n])
  }

  /** What a client receives for a whole stream: what is written up to the end, and one closing mark. */
  ghost predicate Received(responseId: string, source: seq<SourceEvent>, orders: seq<seq<int>>, sent: seq<Frame>) {
    |orders| == Cut(source) && ReceivedOf(responseId, source[..Cut(source)], orders, sent)
  }

  ghost predicate ReceivedOf(responseId: string, until: seq<SourceEvent>, orders: seq<seq<int>>, sent: seq<Frame>)
    requires |orders| == |until|
  {
    ClosesAtEnd(responseId, until, orders) && sent == Frames(responseId, until, orders) + [DoneMark]
  }

  method OwnFrames(events: seq<Event>) returns (frames: seq<Frame>)
    ensures frames == Owned(events)
  {
    frames := [];
    for k := 0 to |events|
      invariant frames == Owned(events[..k])
    {
      assert events[..k + 1] == events[..k] + [events[k]];
      frames := frames + [Own(events[k])];
    }
    assert events[..|events|] == events;
  }

  method WriteCanonical(w: ResponsesStreamWriter, event: CanonicalEvent) returns (written: seq<Frame>, done: bool, ghost order: seq<int>)
    modifies w
    ensures w.View() == Handle(old(w.View()), event, order)
    ensures written == Owned(Added(old(w.View()), w.View()))
    ensures done <==> event.MessageEnd? || event.Failure?
    ensures event.MessageEnd? ==> ClosesAll(old(w.tools), order)
  {
    ghost var before := w.trace;
    var events;
    events, done, order := w.Handle(event);
    assert w.trace[|before|..] == events;
    written := OwnFrames(events);
  }

  /** One event of the provider's stream: what it writes, which headers it relays, whether it is the last. */
  method WriteOne(w: ResponsesStreamWriter, e: SourceEvent)
    returns (written: seq<Frame>, relayed: Headers, done: bool, ghost order: seq<int>)
    modifies w
    ensures w.View() == Handle(old(w.View()), Given(e), order)
    ensures written == FramesOf(e, old(w.View()), w.View())
    ensures relayed == Relayed(e)
    ensures done <==> EndsStream(e)
    ensures Given(e).MessageEnd? ==> ClosesAll(old(w.View()).tools, order)
  {
    written, relayed, done, order := [], map[], false, [];
    match e
    case UpstreamHeaders(headers) => relayed := headers;
    case ResponsesSSE(name, named, data) => written := [Passed(if name != "" then name else named, data)];
    case Canonical(event) =>
      if event.Failure? {
        written, done := [Failed(event.message)], true;
      } else {
        written, done, order := WriteCanonical(w, event);
      }
  }

  /** After the first n events, none of which ends the stream. */
  ghost predicate Midway(responseId: string, source: seq<SourceEvent>, n: nat, orders: seq<seq<int>>, s: State, sent: seq<Frame>, headers: Headers) {
    && n == |orders| <= |source|
    && s == StateAt(responseId, source[..n], orders)
    && sent == Frames(responseId, source[..n], orders) && headers == HeadersOf(source[..n])
    && forall i :: 0 <= i < n ==> !EndsStream(source[i])
  }

  lemma OneFurther(responseId: string, source: seq<SourceEvent>, n: nat, orders: seq<seq<int>>, s: State, sent: seq<Frame>, headers: Headers,
                   order: seq<int>, t: State)
    requires Midway(responseId, source, n, orders, s, sent, headers) && n < |source| && !EndsStream(source[n])
    requires t == Handle(s, Given(source[n]), order)
    ensures Midway(responseId, source, n + 1, orders + [order], t, sent + FramesOf(source[n], s, t), headers + Relayed(source[n]))
  {
    RunOn(responseId, source, orders, n, order);
    FramesOn(responseId, source, orders, n, order);
  }

  lemma LastStep(responseId: string, source: seq<SourceEvent>, n: nat, orders: seq<seq<int>>, s: State, sent: seq<Frame>, headers: Headers,
                 order: seq<int>, t: State)
    requires Midway(responseId, source, n, orders, s, sent, headers) && n < |source|
    requires t == Handle(s, Given(source[n]), order) && (Given(source[n]).MessageEnd? ==> ClosesAll(s.tools, order))
    ensures ReceivedOf(responseId, source[..n + 1], orders + [order], sent + FramesOf(source[n], s, t) + [DoneMark])
    ensures headers + Relayed(source[n]) == HeadersOf(source[..n + 1])
  {
    RunOn(responseId, source, orders, n, order);
    FramesOn(responseId, source, orders, n, order);
    ClosesOn(responseId, source, orders, n, order);
  }

  lemma CutHere(source: seq<SourceEvent>, n: nat)
    requires n < |source| && EndsStream(source[n]) && forall i :: 0 <= i < n ==> !EndsStream(source[i])
    ensures Cut(source) == n + 1
  {
  }

  lemma NothingEnds(responseId: string, source: seq<SourceEvent>, n: nat, orders: seq<seq<int>>, s: State, sent: seq<Frame>, headers: Headers)
    requires Midway(responseId, source, n, orders, s, sent, headers) && n == |source|
    ensures Received(responseId, source, orders, sent + [DoneMark]) && headers == HeadersOf(source[..Cut(source)])
  {
    assert Cut(source) == n && source[..n] == source;
  }

  /** The loop over the provider's stream; after an end or failure the rest is read and dropped. */
  method WriteStream(responseId: string, source: seq<SourceEvent>) returns (sent: seq<Frame>, headers: Headers)
    ensures exists orders :: Received(responseId, source, orders, sent)
    ensures headers == HeadersOf(source[..Cut(source)])
  {
    var w := new ResponsesStreamWriter(responseId);
    sent, headers := [], BASE_HEADERS;
    ghost var orders: seq<seq<int>> := [];
    var n := 0;
    while n < |source|
      invariant fresh(w)
      invariant Midway(responseId, source, n, orders, w.View(), sent, headers)
      decreases |source| - n
    {
      ghost var s := w.View();
      var written, relayed, done, order := WriteOne(w, source[n]);
      if done {
        LastStep(responseId, source, n, orders, s, sent, headers, order, w.View());
        CutHere(source, n);
      } else {
        OneFurther(responseId, source, n, orders, s, sent, headers, order, w.View());
      }
      sent, headers := sent + written, headers + relayed;
      orders, n := orders + [order], n + 1;
      if done {
        sent := sent + [DoneMark];
        assert Received(responseId, source, orders, sent);
        return;
      }
    }
    NothingEnds(responseId, source, n, orders, w.View(), sent, headers);
    sent := sent + [DoneMark];
  }

  /** The first n events and one more. */
  lemma RunOn(responseId: string, source: seq<SourceEvent>, orders: seq<seq<int>>, n: nat, order: seq<int>)
    requires n == |orders| < |source|
    ensures StateAt(responseId, source[..n + 1], orders + [order])
            == Handle(StateAt(responseId, source[..n], orders), Given(source[n]), order)
  {
    var after, next := source[..n + 1], orders + [order];
    assert after[..n] == source[..n] && next[..n] == orders;
    assert AllGiven(after)[..n] == AllGiven(source[..n]);
    assert AllGiven(after) != [];
  }

  lemma FramesOn(responseId: string, source: seq<SourceEvent>, orders: seq<seq<int>>, n: nat, order: seq<int>)
    requires n == |orders| < |source|
    ensures var before, after := source[..n], source[..n + 1];
            && Frames(responseId, after, orders + [order])
               == Frames(responseId, before, orders)
                  + FramesOf(source[n], StateAt(responseId, before, orders), StateAt(responseId, after, orders + [order]))
            && HeadersOf(after) == HeadersOf(before) + Relayed(source[n])
  {
    var after, next := source[..n + 1], orders + [order];
    assert after[..n] == source[..n] && next[..n] == orders && after != [];
  }

  lemma ClosesOn(responseId: string, source: seq<SourceEvent>, orders: seq<seq<int>>, n: nat, order: seq<int>)
    requires n == |orders| < |source|
    ensures ClosesAtEnd(responseId, source[..n + 1], orders + [order]) <==>
            (Given(source[n]).MessageEnd? ==> ClosesAll(StateAt(responseId, source[..n], orders).tools, order))
  {
    var after, next := source[..n + 1], orders + [order];
    assert after[..n] == source[..n] && next[..n] == orders;
  }

  // ---- what a received stream is like ----

  /** The writer's own events among the frames. */
  function OwnEvents(frames: seq<Frame>): seq<Event> {
    if frames == [] then []
    else OwnEvents(frames[..|frames| - 1]) + (if frames[|frames| - 1].Own? then [frames[|frames| - 1].event] else [])
  }

  lemma {:induction false} OwnEventsAppend(a: seq<Frame>, b: seq<Frame>)
    ensures OwnEvents(a + b) == OwnEvents(a) + OwnEvents(b)
    decreases |b|
  {
    if b == [] {
      assert a + b == a;
    } else {
      assert (a + b)[..|a + b| - 1] == a + b[..|b| - 1];
      OwnEventsAppend(a, b[..|b| - 1]);
    }
  }

  lemma {:induction false} OwnEventsOwned(events: seq<Event>)
    ensures OwnEvents(Owned(events)) == events
  {
    if events != [] {
      OwnEventsOwned(events[..|events| - 1]);
      assert Owned(events)[..|events| - 1] == Owned(events[..|events| - 1]);
    }
  }

  /** What an event writes of the writer's own is what the writer's trace has gained. */
  lemma OwnStep(frames: seq<Frame>, e: SourceEvent, s: State, t: State)
    requires OwnEvents(frames) == s.out.trace && s.out.trace <= t.out.trace && (Given(e).Unknown? ==> s == t)
    ensures OwnEvents(frames + FramesOf(e, s, t)) == t.out.trace
  {
    OwnEventsAppend(frames, FramesOf(e, s, t));
    OwnEventsOwned(Added(s, t));
    match e
    case UpstreamHeaders(_) =>
    case ResponsesSSE(name, named, data) => assert [Passed(if name != "" then name else named, data)][..0] == [];
    case Canonical(Failure(message)) => assert [Failed(message)][..0] == [];
    case Canonical(_) =>
  }

  lemma RunGrows(responseId: string, source: seq<SourceEvent>, orders: seq<seq<int>>)
    requires |orders| == |source| > 0
    ensures var n := |source| - 1;
            var s, t := StateAt(responseId, source[..n], orders[..n]), StateAt(responseId, source, orders);
            s.out.trace <= t.out.trace && (Given(source[n]).Unknown? ==> s == t)
  {
    var n := |source| - 1;
    assert AllGiven(source)[..n] == AllGiven(source[..n]);
    HandleAdds(StateAt(responseId, source[..n], orders[..n]), Given(source[n]), orders[n]);
  }

  lemma {:induction false} OwnEventsAre(responseId: string, source: seq<SourceEvent>, orders: seq<seq<int>>)
    requires |orders| == |source|
    ensures OwnEvents(Frames(responseId, source, orders)) == StateAt(responseId, source, orders).out.trace
    decreases |source|
  {
    if source != [] {
      var n := |source| - 1;
      OwnEventsAre(responseId, source[..n], orders[..n]);
      RunGrows(responseId, source, orders);
      OwnStep(Frames(responseId, source[..n], orders[..n]), source[n],
              StateAt(responseId, source[..n], orders[..n]), StateAt(responseId, source, orders));
    }
  }

  /** Taken by themselves, the writer's events are its trace: legal and numbered without gaps. */
  lemma OwnEventsAreTheTrace(responseId: string, source: seq<SourceEvent>, orders: seq<seq<int>>)
    requires |orders| == |source|
    ensures var own := OwnEvents(Frames(responseId, source, orders));
            own == Run(responseId, AllGiven(source), orders).out.trace && LegalTrace(own) && Numbered(own)
  {
    OwnEventsAre(responseId, source, orders);
    EveryRunIsLegal(responseId, AllGiven(source), orders);
  }

  /** The frames are the writer's events numbered by their place in the stream. */
  predicate NumberedThroughout(frames: seq<Frame>) {
    forall i :: 0 <= i < |frames| ==> frames[i].Own? && frames[i].event.sequenceNumber == i + 1
  }

  predicate AllOwn(frames: seq<Frame>) { forall i :: 0 <= i < |frames| ==> frames[i].Own? }

  /** Written without a number of its own. */
  predicate Unnumbered(e: SourceEvent) { Fails(e) || e.ResponsesSSE? }

  predicate NoneUnnumbered(source: seq<SourceEvent>) { forall i :: 0 <= i < |source| ==> !Unnumbered(source[i]) }

  lemma OneMoreNumbered(source: seq<SourceEvent>)
    requires source != []
    ensures NoneUnnumbered(source) <==> NoneUnnumbered(source[..|source| - 1]) && !Unnumbered(source[|source| - 1])
  {
    assert forall i :: 0 <= i < |source| - 1 ==> source[..|source| - 1][i] == source[i];
  }

  lemma {:induction false} AllOwnIff(responseId: string, source: seq<SourceEvent>, orders: seq<seq<int>>)
    requires |orders| == |source|
    ensures AllOwn(Frames(responseId, source, orders)) <==> NoneUnnumbered(source)
    decreases |source|
  {
    if source != [] {
      var n := |source| - 1;
      var s, t := StateAt(responseId, source[..n], orders[..n]), StateAt(responseId, source, orders);
      AllOwnIff(responseId, source[..n], orders[..n]);
      AllOwnAppend(Frames(responseId, source[..n], orders[..n]), FramesOf(source[n], s, t));
      OwnIff(source[n], s, t);
      OneMoreNumbered(source);
    }
  }

  lemma OwnIff(e: SourceEvent, s: State, t: State)
    ensures AllOwn(FramesOf(e, s, t)) <==> !Unnumbered(e)
  {
    var f := FramesOf(e, s, t);
    if Unnumbered(e) { assert !f[0].Own?; }
  }

  lemma AllOwnAppend(a: seq<Frame>, b: seq<Frame>)
    ensures AllOwn(a + b) <==> AllOwn(a) && AllOwn(b)
  {
    if AllOwn(a + b) {
      forall i | 0 <= i < |a| ensures a[i].Own? { assert (a + b)[i].Own?; }
      forall i | 0 <= i < |b| ensures b[i].Own? { assert (a + b)[|a| + i].Own?; }
    }
  }

  lemma {:induction false} OwnEventsOfAllOwn(frames: seq<Frame>)
    requires AllOwn(frames)
    ensures |OwnEvents(frames)| == |frames| && forall i :: 0 <= i < |frames| ==> frames[i] == Own(OwnEvents(frames)[i])
  {
    if frames != [] { OwnEventsOfAllOwn(frames[..|frames| - 1]); }
  }

  /**
   What a client receives is numbered throughout exactly when, up to the end, the provider
   sent no failure and no ready-made event.
   */
  lemma NumberedThroughoutIff(responseId: string, source: seq<SourceEvent>, orders: seq<seq<int>>, sent: seq<Frame>)
    requires Received(responseId, source, orders, sent)
    ensures NumberedThroughout(sent[..|sent| - 1]) <==> NoneUnnumbered(source[..Cut(source)])
  {
    var until := source[..Cut(source)];
    var frames := Frames(responseId, until, orders);
    assert sent[..|sent| - 1] == frames;
    AllOwnIff(responseId, until, orders);
    OwnEventsAreTheTrace(responseId, until, orders);
    if AllOwn(frames) { OwnEventsOfAllOwn(frames); }
  }

  /** The closing mark comes once, at the very end. */
  lemma {:induction false} DoneMarkIsLast(responseId: string, source: seq<SourceEvent>, orders: seq<seq<int>>)
    requires |orders| == |source|
    ensures DoneMark !in Frames(responseId, source, orders)
    decreases |source|
  {
    if source != [] {
      var n := |source| - 1;
      DoneMarkIsLast(responseId, source[..n], orders[..n]);
    }
  }

  lemma OwnEventsReceived(responseId: string, source: seq<SourceEvent>, orders: seq<seq<int>>, sent: seq<Frame>)
    requires Received(responseId, source, orders, sent)
    ensures OwnEvents(sent) == Run(responseId, AllGiven(source[..Cut(source)]), orders).out.trace
  {
    var until := source[..Cut(source)];
    OwnEventsAreTheTrace(responseId, until, orders);
    OwnEventsAppend(Frames(responseId, until, orders), [DoneMark]);
    assert OwnEvents([DoneMark]) == [] by { assert [DoneMark][..0] == []; }
  }

  /** A stream that ends with its message leaves nothing open. */
  lemma EndedStreamIsClosed(responseId: string, source: seq<SourceEvent>, orders: seq<seq<int>>, sent: seq<Frame>)
    requires Received(responseId, source, orders, sent)
    requires Cut(source) > 0 && Given(source[Cut(source) - 1]).MessageEnd?
    ensures var own := OwnEvents(sent); AllClosed(own) && HasCompleted(own)
  {
    var until := source[..Cut(source)];
    OwnEventsReceived(responseId, source, orders, sent);
    assert AllGiven(until)[..|until| - 1] == AllGiven(until[..|until| - 1]);
    EndedRunIsClosed(responseId, AllGiven(until), orders);
  }

  lemma EndedRunIsClosed(responseId: string, events: seq<CanonicalEvent>, orders: seq<seq<int>>)
    requires |orders| == |events| > 0
    requires var n := |events| - 1;
             events[n].MessageEnd? && ClosesAll(Run(responseId, events[..n], orders[..n]).tools, orders[n])
    ensures var t := Run(responseId, events, orders).out.trace; AllClosed(t) && HasCompleted(t)
  {
    var n := |events| - 1;
    EndClosesEverything(responseId, events[..n], orders[..n], orders[n]);
    assert events[..n] + [MessageEnd] == events && orders[..n] + [orders[n]] == orders;
  }

  /** A provider that fails at once: the client gets the failure without a number, and the closing mark. */
  lemma FailureIsNotNumbered(responseId: string, message: string, sent: seq<Frame>, orders: seq<seq<int>>)
    requires Received(responseId, [Canonical(Failure(message))], orders, sent)
    ensures sent == [Failed(message), DoneMark] && !NumberedThroughout(sent[..1])
  {
    var source := [Canonical(Failure(message))];
    assert Cut(source) == 1 && source[..1] == source && source[..0] == [];
    assert Frames(responseId, source[..0], orders[..0]) == [];
    assert !sent[..1][0].Own?;
  }

  // ---- what comes through from the provider ----

  /** What a client reads of each item, put together from the deltas it receives, is what the provider sent for it. */
  lemma ReceivedIsWhatArrived(responseId: string, source: seq<SourceEvent>, orders: seq<seq<int>>, sent: seq<Frame>, x: ItemRef)
    requires Received(responseId, source, orders, sent)
    ensures Deltas(OwnEvents(sent), x) == TextIn(AllGiven(source[..Cut(source)]), x)
    ensures Others(OwnEvents(sent)) == OthersOf(AllGiven(source[..Cut(source)]))
  {
    var until := AllGiven(source[..Cut(source)]);
    OwnEventsReceived(responseId, source, orders, sent);
    StreamedIsWhatArrived(responseId, until, orders, x);
    OthersAreTold(responseId, until, orders);
  }

  /** The frames that are not the writer's own. */
  function Unowned(frames: seq<Frame>): seq<Frame> {
    if frames == [] then []
    else Unowned(frames[..|frames| - 1]) + if frames[|frames| - 1].Own? then [] else [frames[|frames| - 1]]
  }

  /** A ready-made event with its data as it came, under its own name or the one its data gives; a failure's message. */
  function PassedOf(source: seq<SourceEvent>): seq<Frame> {
    if source == [] then []
    else
      PassedOf(source[..|source| - 1]) +
      match source[|source| - 1]
      case ResponsesSSE(name, named, data) => if name == "" then [Passed(named, data)] else [Passed(name, data)]
      case Canonical(Failure(message)) => [Failed(message)]
      case _ => []
  }

  lemma {:induction false} UnownedAppend(a: seq<Frame>, b: seq<Frame>)
    ensures Unowned(a + b) == Unowned(a) + Unowned(b)
    decreases |b|
  {
    if b == [] {
      assert a + b == a;
    } else {
      assert (a + b)[..|a + b| - 1] == a + b[..|b| - 1];
      UnownedAppend(a, b[..|b| - 1]);
    }
  }

  lemma {:induction false} NoneUnowned(events: seq<Event>)
    ensures Unowned(Owned(events)) == []
  {
    if events != [] {
      NoneUnowned(events[..|events| - 1]);
      assert Owned(events)[..|events| - 1] == Owned(events[..|events| - 1]);
    }
  }

  lemma UnownedOne(f: Frame)
    requires !f.Own?
    ensures Unowned([f]) == [f]
  {
    assert [f][..0] == [];
  }

  lemma UnownedStep(e: SourceEvent, s: State, t: State)
    ensures Unowned(FramesOf(e, s, t)) == PassedOf([e])
  {
    assert [e][..0] == [];
    NoneUnowned(Added(s, t));
    if Unnumbered(e) { UnownedOne(FramesOf(e, s, t)[0]); }
  }

  /** Ready-made events and the failure come through unchanged and in order. */
  lemma {:induction false} PassedInOrder(responseId: string, source: seq<SourceEvent>, orders: seq<seq<int>>)
    requires |orders| == |source|
    ensures Unowned(Frames(responseId, source, orders)) == PassedOf(source)
    decreases |source|
  {
    if source != [] {
      var n := |source| - 1;
      var s, t := StateAt(responseId, source[..n], orders[..n]), StateAt(responseId, source, orders);
      PassedInOrder(responseId, source[..n], orders[..n]);
      UnownedAppend(Frames(responseId, source[..n], orders[..n]), FramesOf(source[n], s, t));
      UnownedStep(source[n], s, t);
      assert [source[n]][..0] == [];
    }
  }

  /** What the provider set last under a name, or what every stream starts with. */
  function HeaderOf(source: seq<SourceEvent>, name: string): Option<string> {
    if source == [] then if name in BASE_HEADERS then Some(BASE_HEADERS[name]) else None
    else
      var e := source[|source| - 1];
      if e.UpstreamHeaders? && name in e.headers then Some(e.headers[name]) else HeaderOf(source[..|source| - 1], name)
  }

  lemma {:induction false} LastHeaderWins(source: seq<SourceEvent>, name: string)
    ensures HeaderOf(source, name) == if name in HeadersOf(source) then Some(HeadersOf(source)[name]) else None
  {
    if source != [] { LastHeaderWins(source[..|source| - 1], name); }
  }
}
