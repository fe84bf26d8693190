/** The Responses event stream seen from outside: what events there are, and which event may follow which. */
module StreamProtocol {
  import opened Wrappers

  datatype ItemRef = Message | Reasoning | Tool(index: int)

  /** Stages of an item, in the order of its life; PartAdded and PartDone do not occur for tools. */
  datatype Stage = Added | PartAdded | Delta | TextDone | PartDone | Done

  datatype Body =
    | Created
    | InProgress
    | OnItem(item: ItemRef, stage: Stage, outputIndex: int, itemId: string, text: string, name: string)
    | ImageDelta(media: string)
    | AudioDelta(media: string)
    | Completed(usage: Option<string>)
    | Error(message: string)

  datatype Event = Event(sequenceNumber: int, body: Body)

  predicate Is(e: Event, item: ItemRef, stage: Stage) {
    e.body.OnItem? && e.body.item == item && e.body.stage == stage
  }

  predicate Has(t: seq<Event>, item: ItemRef, stage: Stage) {
    t != [] && (Is(t[|t| - 1], item, stage) || Has(t[..|t| - 1], item, stage))
  }

  predicate HasCreated(t: seq<Event>) {
    t != [] && (t[|t| - 1].body.Created? || HasCreated(t[..|t| - 1]))
  }

  predicate HasCompleted(t: seq<Event>) {
    t != [] && (t[|t| - 1].body.Completed? || HasCompleted(t[..|t| - 1]))
  }

  /** The item's deltas joined in order. */
  function Deltas(t: seq<Event>, item: ItemRef): string {
    if t == [] then ""
    else Deltas(t[..|t| - 1], item) + (if Is(t[|t| - 1], item, Delta) then t[|t| - 1].body.text else "")
  }

  /** The final text of an item whose deltas join to d. */
  function Final(item: ItemRef, d: string): string {
    if item.Tool? && d == "" then "{}" else d
  }

  /** Where an item is announced: the message and the reasoning share place 0 with the first tool call. */
  function OutputIndex(item: ItemRef): int {
    if item.Tool? then item.index else 0
  }

  /** Body b may follow the events t. */
  predicate Legal(t: seq<Event>, b: Body) {
    match b
    case Created => !HasCreated(t)
    case Completed(_) => !HasCompleted(t)
    case OnItem(x, stage, index, _, text, _) =>
      && index == OutputIndex(x)
      && HasCreated(t)
      && (stage != Delta ==> !Has(t, x, stage))
      && (stage != Added ==> Has(t, x, Added))
      && (stage == PartDone || stage == Done ==> Has(t, x, TextDone))
      && (stage == TextDone || stage == PartDone || stage == Done ==> text == Final(x, Deltas(t, x)))
    case _ => true
  }

  /** Every event could follow the ones before it. */
  predicate LegalTrace(t: seq<Event>) {
    t != [] ==> LegalTrace(t[..|t| - 1]) && Legal(t[..|t| - 1], t[|t| - 1].body)
  }

  /** Events are numbered 1, 2, 3, ... as they are emitted. */
  predicate Numbered(t: seq<Event>) {
    forall i :: 0 <= i < |t| ==> t[i].sequenceNumber == i + 1
  }

  // ---- what a legal trace guarantees about every event in it ----

  lemma {:induction false} LegalAt(t: seq<Event>, i: nat)
    requires LegalTrace(t) && i < |t|
    ensures LegalTrace(t[..i]) && Legal(t[..i], t[i].body)
    decreases |t|
  {
    if i < |t| - 1 {
      LegalAt(t[..|t| - 1], i);
      assert t[..|t| - 1][..i] == t[..i];
    }
  }

  lemma {:induction false} HasIff(t: seq<Event>, item: ItemRef, stage: Stage)
    ensures Has(t, item, stage) <==> exists i :: 0 <= i < |t| && Is(t[i], item, stage)
  {
    if t != [] {
      var before := t[..|t| - 1];
      HasIff(before, item, stage);
      if Has(before, item, stage) {
        var i :| 0 <= i < |before| && Is(before[i], item, stage);
        assert Is(t[i], item, stage);
      }
    }
  }

  lemma {:induction false} HasCreatedIff(t: seq<Event>)
    ensures HasCreated(t) <==> exists i :: 0 <= i < |t| && t[i].body.Created?
  {
    if t != [] {
      var before := t[..|t| - 1];
      HasCreatedIff(before);
      if HasCreated(before) {
        var i :| 0 <= i < |before| && before[i].body.Created?;
        assert t[i].body.Created?;
      }
    }
  }

  lemma {:induction false} HasCompletedIff(t: seq<Event>)
    ensures HasCompleted(t) <==> exists i :: 0 <= i < |t| && t[i].body.Completed?
  {
    if t != [] {
      var before := t[..|t| - 1];
      HasCompletedIff(before);
      if HasCompleted(before) {
        var i :| 0 <= i < |before| && before[i].body.Completed?;
        assert t[i].body.Completed?;
      }
    }
  }

  /** created, completed and each stage of an item other than its deltas occur at most once. */
  lemma AtMostOnce(t: seq<Event>, i: nat, j: nat)
    requires LegalTrace(t) && i < j < |t|
    ensures !(t[i].body.Created? && t[j].body.Created?)
    ensures !(t[i].body.Completed? && t[j].body.Completed?)
    ensures t[i].body.OnItem? && t[i].body.stage != Delta ==> !Is(t[j], t[i].body.item, t[i].body.stage)
  {
    LegalAt(t, j);
    assert t[..j][i] == t[i];
    HasCreatedIff(t[..j]);
    HasCompletedIff(t[..j]);
    if t[i].body.OnItem? { HasIff(t[..j], t[i].body.item, t[i].body.stage); }
  }

  /** Every item event comes after created and, unless it adds the item, after its own item was added. */
  lemma ItemEventsInOrder(t: seq<Event>, j: nat)
    requires LegalTrace(t) && j < |t| && t[j].body.OnItem?
    ensures exists i :: 0 <= i < j && t[i].body.Created?
    ensures t[j].body.stage != Added ==> exists i :: 0 <= i < j && Is(t[i], t[j].body.item, Added)
  {
    LegalAt(t, j);
    HasCreatedIff(t[..j]);
    var i :| 0 <= i < j && t[..j][i].body.Created?;
    assert t[i].body.Created?;
    if t[j].body.stage != Added {
      HasIff(t[..j], t[j].body.item, Added);
      var k :| 0 <= k < j && Is(t[..j][k], t[j].body.item, Added);
      assert Is(t[k], t[j].body.item, Added);
    }
  }

  /** A done event carries the deltas emitted before it, joined; a tool call without any gets "{}". */
  lemma DoneTextIsDeltas(t: seq<Event>, j: nat)
    requires LegalTrace(t) && j < |t| && t[j].body.OnItem? && t[j].body.stage in {TextDone, PartDone, Done}
    ensures t[j].body.text == Final(t[j].body.item, Deltas(t[..j], t[j].body.item))
  {
    LegalAt(t, j);
  }

  lemma {:induction false} DeltasAppend(a: seq<Event>, b: seq<Event>, item: ItemRef)
    ensures Deltas(a + b, item) == Deltas(a, item) + Deltas(b, item)
    decreases |b|
  {
    if b == [] {
      assert a + b == a;
    } else {
      assert (a + b)[..|a + b| - 1] == a + b[..|b| - 1];
      DeltasAppend(a, b[..|b| - 1], item);
    }
  }
}
