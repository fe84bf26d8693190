/**
 Turning a Responses input list into chat messages
 (parseMessages in internal/api/protocol.go).
 */
module ParseMessages {
  import opened Wrappers
  import opened Continuation

  datatype Message = Message(role: string, content: Option<string>, name: string, toolCallId: string, toolCalls: seq<ToolCall>)

  function RoleOf(item: Item): string
    requires item.Object?
  {
    if item.role == "developer" then "system" else item.role
  }

  /** A function_call or function_call_output item in Responses form: no role, and a call id. */
  predicate RawCall(item: Item) { IsCall(item) && RoleOf(item) == "" && item.callId != "" }
  predicate RawOutput(item: Item) { IsOutput(item) && RoleOf(item) == "" && item.callId != "" }

  /** An item without a chat equivalent. */
  predicate Skipped(item: Item) {
    item.Scalar? || (!RawCall(item) && !RawOutput(item) && RoleOf(item) == "" && item.kind != "" && item.kind != "message")
  }

  function CallOf(item: Item): ToolCall
    requires item.Object?
  {
    FunctionCall(item.callId, item.name, item.arguments)
  }

  /** The messages after one more item. */
  function Step(messages: seq<Message>, item: Item): seq<Message> {
    if Skipped(item) then messages
    else if RawCall(item) then
      var last := |messages| - 1;
      if last >= 0 && messages[last].role == "assistant" then
        messages[last := messages[last].(toolCalls := messages[last].toolCalls + [CallOf(item)])]
      else messages + [Message("assistant", None, "", "", [CallOf(item)])]
    else if RawOutput(item) then messages + [Message("tool", Some(item.output), "", item.callId, [])]
    else messages + [Message(RoleOf(item), Some(item.content), item.name, item.toolCallId, item.toolCalls)]
  }

  function Parsed(items: seq<Item>): seq<Message> {
    if items == [] then [] else Step(Parsed(items[..|items| - 1]), items[|items| - 1])
  }

  method ParseMessages(items: seq<Item>) returns (result: seq<Message>)
    ensures result == Parsed(items)
  {
    result := [];
    for i := 0 to |items|
      invariant result == Parsed(items[..i])
    {
      assert items[..i + 1][..i] == items[..i];
      var item := items[i];
      if item.Scalar? { continue; }
      var role := if item.role == "developer" then "system" else item.role;
      if role == "" && item.kind == "function_call" && item.callId != "" {
        var toolCall := FunctionCall(item.callId, item.name, item.arguments);
        var last := |result| - 1;
        if last >= 0 && result[last].role == "assistant" {
          result := result[last := result[last].(toolCalls := result[last].toolCalls + [toolCall])];
          continue;
        }
        result := result + [Message("assistant", None, "", "", [toolCall])];
        continue;
      }
      if role == "" && item.kind == "function_call_output" && item.callId != "" {
        result := result + [Message("tool", Some(item.output), "", item.callId, [])];
        continue;
      }
      if role == "" && item.kind != "" && item.kind != "message" { continue; }
      result := result + [Message(role, Some(item.content), item.name, item.toolCallId, item.toolCalls)];
    }
    assert items[..|items|] == items;
  }

  /** What one more item adds, kind by kind. */
  lemma OneMoreItem(items: seq<Item>, item: Item)
    requires item.Object?
    ensures var before, after := Parsed(items), Parsed(items + [item]);
            var last := |before| - 1;
            && (item.role == "developer" ==>
                  after == before + [Message("system", Some(item.content), item.name, item.toolCallId, item.toolCalls)])
            && (item.role !in {"", "developer"} || (item.role == "" && item.kind in {"", "message"}) ==>
                  after == before + [Message(item.role, Some(item.content), item.name, item.toolCallId, item.toolCalls)])
            && (item.role == "" && item.kind == "function_call" && item.callId != "" ==>
                  var call := FunctionCall(item.callId, item.name, item.arguments);
                  if before != [] && before[last].role == "assistant"
                  then after == before[..last] + [before[last].(toolCalls := before[last].toolCalls + [call])]
                  else after == before + [Message("assistant", None, "", "", [call])])
            && (item.role == "" && item.kind == "function_call_output" && item.callId != "" ==>
                  after == before + [Message("tool", Some(item.output), "", item.callId, [])])
            && (item.role == "" && item.kind !in {"", "message"} && (item.kind !in {"function_call", "function_call_output"} || item.callId == "") ==>
                  after == before)
  {
    assert (items + [item])[..|items|] == items;
  }

  // ---- no call is lost, duplicated or reordered ----

  /** The calls an item carries, read off the item alone. */
  function CallsIn(item: Item): seq<ToolCall> {
    if RawCall(item) then [CallOf(item)]
    else if Skipped(item) || RawOutput(item) then []
    else item.toolCalls
  }

  function AllCalls(items: seq<Item>): seq<ToolCall> {
    if items == [] then [] else AllCalls(items[..|items| - 1]) + CallsIn(items[|items| - 1])
  }

  function Flatten(messages: seq<Message>): seq<ToolCall> {
    if messages == [] then [] else Flatten(messages[..|messages| - 1]) + messages[|messages| - 1].toolCalls
  }

  lemma FlattenStep(messages: seq<Message>, item: Item)
    ensures Flatten(Step(messages, item)) == Flatten(messages) + CallsIn(item)
  {
    var next := Step(messages, item);
    if Skipped(item) {
    } else if |next| == |messages| {
      assert next[..|next| - 1] == messages[..|messages| - 1];
    } else {
      assert next[..|next| - 1] == messages;
    }
  }

  /** Reading the tool calls off the messages, in order, gives the calls of the items, in order. */
  lemma {:induction false} CallsConserved(items: seq<Item>)
    ensures Flatten(Parsed(items)) == AllCalls(items)
  {
    if items != [] {
      var before := items[..|items| - 1];
      CallsConserved(before);
      FlattenStep(Parsed(before), items[|items| - 1]);
    }
  }

  // ---- every tool message answers an earlier call ----

  /** Some call with this id is held by an assistant message among the first n. */
  predicate Announced(messages: seq<Message>, n: nat, id: string)
    requires n <= |messages|
  {
    exists a :: 0 <= a < n && Holds(messages[a], id)
  }

  predicate Holds(m: Message, id: string) {
    m.role == "assistant" && exists c :: 0 <= c < |m.toolCalls| && IsCallWithId(m.toolCalls[c], id)
  }

  predicate IsCallWithId(c: ToolCall, id: string) { c.FunctionCall? && c.id == id }

  /** A further item keeps every message except that the last may gain one more call. */
  lemma StepKeeps(messages: seq<Message>, item: Item, a: nat)
    requires a < |messages|
    ensures a < |Step(messages, item)|
    ensures Step(messages, item)[a].(toolCalls := messages[a].toolCalls) == messages[a]
    ensures messages[a].role != "assistant" || a < |messages| - 1 ==> Step(messages, item)[a] == messages[a]
    ensures forall id :: Holds(messages[a], id) ==> Holds(Step(messages, item)[a], id)
  {
    var after := Step(messages, item)[a];
    assert messages[a].toolCalls <= after.toolCalls;
    forall id | Holds(messages[a], id) ensures Holds(after, id) {
      var c :| 0 <= c < |messages[a].toolCalls| && IsCallWithId(messages[a].toolCalls[c], id);
      assert IsCallWithId(after.toolCalls[c], id);
    }
  }

  /** A call item is announced from then on. */
  lemma {:induction false} CallAnnounced(items: seq<Item>, i: nat)
    requires i < |items| && RawCall(items[i])
    ensures exists a :: 0 <= a < |Parsed(items)| && Holds(Parsed(items)[a], items[i].callId)
    decreases |items|
  {
    var before := items[..|items| - 1];
    var item := items[|items| - 1];
    var id := items[i].callId;
    if i == |items| - 1 {
      var a := |Parsed(items)| - 1;
      var m := Parsed(items)[a];
      assert IsCallWithId(m.toolCalls[|m.toolCalls| - 1], id);
    } else {
      CallAnnounced(before, i);
      var a :| 0 <= a < |Parsed(before)| && Holds(Parsed(before)[a], id);
      StepKeeps(Parsed(before), item, a);
      assert Holds(Parsed(items)[a], id);
    }
  }

  /** No call or output item is given a role of its own. */
  predicate RolelessTools(items: seq<Item>) {
    forall i :: 0 <= i < |items| && (IsCall(items[i]) || IsOutput(items[i])) ==> RoleOf(items[i]) == ""
  }

  /** Message m is the tool message of output item i, and an earlier assistant message holds its call. */
  predicate AnsweredAt(messages: seq<Message>, m: nat, item: Item)
    requires item.Object?
  {
    && m < |messages|
    && messages[m] == Message("tool", Some(item.output), "", item.callId, [])
    && Announced(messages, m, item.callId)
  }

  /**
   An input that prepare accepts gives every output item a tool message, at the
   place the items before it lead to, after an assistant message holding its call.
   */
  lemma {:induction false} OutputsAnswered(items: seq<Item>, i: nat)
    requires i < |items| && IsOutput(items[i])
    requires Paired(items) && RolelessTools(items)
    ensures AnsweredAt(Parsed(items), |Parsed(items[..i])|, items[i])
    decreases |items|
  {
    var before := items[..|items| - 1];
    var item := items[|items| - 1];
    assert PairedAt(items, i);
    if i == |items| - 1 {
      var c :| 0 <= c < i && IsCall(items[c]) && items[c].callId == items[i].callId;
      assert before[c] == items[c];
      CallAnnounced(before, c);
      assert Parsed(items)[..|Parsed(before)|] == Parsed(before);
    } else {
      forall j | 0 <= j < |before| ensures PairedAt(before, j) { assert PairedAt(items, j); }
      OutputsAnswered(before, i);
      assert before[..i] == items[..i];
      AnsweredKept(Parsed(before), item, |Parsed(items[..i])|, items[i]);
    }
  }

  lemma AnsweredKept(messages: seq<Message>, item: Item, m: nat, output: Item)
    requires output.Object? && AnsweredAt(messages, m, output)
    ensures AnsweredAt(Step(messages, item), m, output)
  {
    var a :| 0 <= a < m && Holds(messages[a], output.callId);
    StepKeeps(messages, item, a);
    StepKeeps(messages, item, m);
  }

  // ---- parallel calls share one assistant message ----

  /** Message m and the next are both the assistant's. */
  predicate AdjacentAt(messages: seq<Message>, m: nat)
    requires m + 1 < |messages|
  {
    messages[m].role == "assistant" && messages[m + 1].role == "assistant"
  }

  function AdjacentPairs(messages: seq<Message>): nat {
    if |messages| < 2 then 0
    else AdjacentPairs(messages[..|messages| - 1]) + (if AdjacentAt(messages, |messages| - 2) then 1 else 0)
  }

  /** The items that become assistant messages of the client's own. */
  predicate OwnAssistant(item: Item) { item.Object? && !Skipped(item) && !RawCall(item) && !RawOutput(item) && RoleOf(item) == "assistant" }

  /** Own assistant items that come when the last message is the assistant's already. */
  function Repeats(items: seq<Item>): nat {
    if items == [] then 0
    else
      var before, item := items[..|items| - 1], items[|items| - 1];
      var messages := Parsed(before);
      Repeats(before) + (if OwnAssistant(item) && messages != [] && messages[|messages| - 1].role == "assistant" then 1 else 0)
  }

  lemma AdjacentPairsStep(messages: seq<Message>, item: Item)
    ensures AdjacentPairs(Step(messages, item)) == AdjacentPairs(messages)
            + (if OwnAssistant(item) && messages != [] && messages[|messages| - 1].role == "assistant" then 1 else 0)
  {
    var next := Step(messages, item);
    if Skipped(item) {
    } else if |next| == |messages| {
      assert next[..|next| - 1] == messages[..|messages| - 1];
    } else {
      assert next[..|next| - 1] == messages;
    }
  }

  /**
   Assistant messages follow one another exactly as often as the client sends its own assistant item after
   one: calls always join the assistant message before them, the client's own included.
   */
  lemma {:induction false} CallsAreGrouped(items: seq<Item>)
    ensures AdjacentPairs(Parsed(items)) == Repeats(items)
  {
    if items != [] {
      CallsAreGrouped(items[..|items| - 1]);
      AdjacentPairsStep(Parsed(items[..|items| - 1]), items[|items| - 1]);
    }
  }
}
