/**
 The extension's incremental event-stream decoder and its accumulator of
 tool-call fragments (extensions/vscode-tproxy/sse.js).
 */
module SseDecoder {
  import opened Collections
  import opened Text

  const DATA: string := "data:"

  function JsTrim(s: string): string { Trim(s, Js) }

  /** What one line contributes: the trimmed payload of a `data:` line, else nothing. */
  function Payload(line: string): seq<string> {
    var l := JsTrim(line);
    if DATA <= l then [JsTrim(l[|DATA|..])] else []
  }

  /** A `data:` line gives its value, whatever white space stands before, behind and after the field's name. */
  lemma DataLine(a: string, b: string, value: string, c: string)
    requires Blank(a, Js) && Blank(b, Js) && Blank(c, Js) && TightIn(value, Js)
    ensures Payload(a + "data:" + b + value + c) == [value]
  {
    var line := a + "data:" + b + value + c;
    if value == "" {
      assert line == a + "data:" + (b + c);
      TrimPadded(a, "data:", b + c, Js);
      assert "data:"[|DATA|..] == "" + "" + "";
      TrimPadded("", "", "", Js);
    } else {
      var field := "data:" + b + value;
      assert field[|field| - 1] == value[|value| - 1];
      assert line == a + field + c;
      TrimPadded(a, field, c, Js);
      assert field[|DATA|..] == b + value + "";
      TrimPadded(b, value, "", Js);
    }
  }

  /** Any other line gives nothing. */
  lemma OtherLine(a: string, text: string, b: string)
    requires Blank(a, Js) && Blank(b, Js) && TightIn(text, Js) && !("data:" <= text)
    ensures Payload(a + text + b) == []
  {
    TrimPadded(a, text, b, Js);
  }

  /** Reference: the whole text cut into lines at once, every line decoded in order. */
  function Batch(text: string): seq<string> { PayloadsOf(Split(text)) }

  function PayloadsOf(lines: seq<string>): seq<string> {
    if lines == [] then [] else Payload(lines[0]) + PayloadsOf(lines[1..])
  }

  /** Payloads of the lines that an LF has closed. */
  function Closed(text: string): seq<string> { PayloadsOf(Init(Split(text))) }

  /** The unfinished last line. */
  function Rest(text: string): string { Last(Split(text)) }

  function Init<T>(s: seq<T>): seq<T> requires s != [] { s[..|s| - 1] }

  function Last<T>(s: seq<T>): T requires s != [] { s[|s| - 1] }

  lemma {:induction false} PayloadsAppend(a: seq<string>, b: seq<string>)
    ensures PayloadsOf(a + b) == PayloadsOf(a) + PayloadsOf(b)
  {
    if a == [] {
      assert a + b == b;
    } else {
      assert (a + b)[1..] == a[1..] + b;
      PayloadsAppend(a[1..], b);
    }
  }

  /** Text arriving after a prefix only continues the prefix's last line. */
  lemma {:induction false} SplitAcrossCut(a: string, b: string)
    ensures Split(a + b) == Init(Split(a)) + Split(Rest(a) + b)
    decreases |a|
  {
    if '\n' in a {
      var a0, a1 := CutAtFirst(a);
      SplitAcrossCut(a1, b);
      SplitFirst(a0, a1);
      SplitFirst(a0, a1 + b);
      assert a + b == a0 + "\n" + (a1 + b);
      InitCons(a0, Split(a1), Split(Rest(a1) + b));
    } else {
      SplitWhole(a);
      NoInit(a, Split(a + b));
    }
  }

  lemma InitCons<T>(x: T, s: seq<T>, more: seq<T>)
    requires s != []
    ensures Init([x] + s) + more == [x] + (Init(s) + more) && Last([x] + s) == Last(s)
  {
    assert Init([x] + s) == [x] + Init(s);
  }

  lemma NoInit<T>(x: T, more: seq<T>)
    ensures Init([x]) + more == more && Last([x]) == x
  {
    assert Init([x]) == [];
  }

  lemma BatchAcrossCut(a: string, b: string)
    ensures Batch(a + b) == Closed(a) + Batch(Rest(a) + b)
  {
    SplitAcrossCut(a, b);
    PayloadsAppend(Init(Split(a)), Split(Rest(a) + b));
  }

  /** The carried-over buffer never holds an LF. */
  lemma RestIsUnclosed(text: string)
    ensures '\n' !in Rest(text)
  {
    SplitHasNoNewline(text);
  }

  /** One closed line in front. */
  lemma FirstLine(a: string, b: string)
    requires '\n' !in a
    ensures Closed(a + "\n" + b) == Payload(a) + Closed(b)
    ensures Rest(a + "\n" + b) == Rest(b)
  {
    SplitFirst(a, b);
    assert Init([a] + Split(b)) == [a] + Init(Split(b));
    assert ([a] + Init(Split(b)))[1..] == Init(Split(b));
  }

  lemma FirstLineAt(buf: string)
    requires IndexOf(buf, '\n') < |buf|
    ensures var i := IndexOf(buf, '\n');
            Closed(buf) == Payload(buf[..i]) + Closed(buf[i + 1..]) && Rest(buf) == Rest(buf[i + 1..])
  {
    IndexOfIsFirst(buf, '\n');
    var a, b := CutAtFirst(buf);
    FirstLine(a, b);
  }

  lemma UnclosedLine(buf: string)
    requires IndexOf(buf, '\n') == |buf|
    ensures Closed(buf) == [] && Rest(buf) == buf && '\n' !in buf
  {
    IndexOfIsFirst(buf, '\n');
    SplitWhole(buf);
  }

  class SSEDecoder {
    var buf: string
    var events: seq<string>

    ghost predicate Valid() reads this { '\n' !in buf && events == [] }

    constructor ()
      ensures Valid() && buf == ""
    {
      buf, events := "", [];
    }

    /** One closed line moved from the buffer to the events. */
    method TakeLine(idx: nat)
      requires idx < |buf|
      modifies this
      ensures events == old(events) + Payload(old(buf)[..idx]) && buf == old(buf)[idx + 1..]
    {
      var line := JsTrim(buf[..idx]);
      if DATA <= line { events := events + [JsTrim(line[|DATA|..])]; }
      buf := buf[idx + 1..];
    }

    method Push(text: string) returns (out: seq<string>)
      requires Valid()
      modifies this
      ensures Valid()
      ensures out == Closed(old(buf) + text)
      ensures buf == Rest(old(buf) + text)
    {
      buf := buf + text;
      ghost var closed, rest := Closed(buf), Rest(buf);
      var idx := IndexOf(buf, '\n');
      while idx < |buf|
        invariant idx == IndexOf(buf, '\n')
        invariant events + Closed(buf) == closed && Rest(buf) == rest
        decreases |buf|
      {
        FirstLineAt(buf);
        Regrouped(events, Payload(buf[..idx]), Closed(buf[idx + 1..]));
        TakeLine(idx);
        idx := IndexOf(buf, '\n');
      }
      UnclosedLine(buf);
      out := events;
      events := [];
    }

    method End() returns (out: seq<string>)
      requires Valid()
      modifies this
      ensures Valid() && buf == ""
      ensures out == Payload(old(buf))
    {
      var rest := JsTrim(buf);
      buf := "";
      out := if DATA <= rest then [JsTrim(rest[|DATA|..])] else [];
    }
  }

  function Concat(chunks: seq<string>): string {
    if chunks == [] then "" else chunks[0] + Concat(chunks[1..])
  }

  /** Every push in turn, then end: what the caller collects, as push and end specify it. */
  function Streamed(buf: string, chunks: seq<string>): seq<string>
    decreases |chunks|
  {
    if chunks == [] then Payload(buf)
    else Closed(buf + chunks[0]) + Streamed(Rest(buf + chunks[0]), chunks[1..])
  }

  /** Chunk invariance, for every way of cutting the text. */
  lemma {:induction false} ChunkInvariance(buf: string, chunks: seq<string>)
    requires '\n' !in buf
    ensures Streamed(buf, chunks) == Batch(buf + Concat(chunks))
    decreases |chunks|
  {
    if chunks == [] {
      assert buf + Concat(chunks) == buf;
      BatchOfLine(buf);
    } else {
      var head, tail := ConcatStep(buf, chunks);
      RestIsUnclosed(head);
      ChunkInvariance(Rest(head), chunks[1..]);
      BatchAcrossCut(head, tail);
    }
  }

  lemma BatchOfLine(line: string)
    requires '\n' !in line
    ensures Batch(line) == Payload(line)
  {
    SplitWhole(line);
    assert [line][1..] == [];
    assert PayloadsOf([line]) == Payload(line) + PayloadsOf([]);
  }

  lemma ConcatStep(buf: string, chunks: seq<string>) returns (head: string, tail: string)
    requires chunks != []
    ensures head == buf + chunks[0] && tail == Concat(chunks[1..])
    ensures buf + Concat(chunks) == head + tail
  {
    head, tail := buf + chunks[0], Concat(chunks[1..]);
  }

  lemma StreamedStep(buf: string, chunks: seq<string>, i: nat)
    requires i < |chunks|
    ensures Streamed(buf, chunks[i..]) == Closed(buf + chunks[i]) + Streamed(Rest(buf + chunks[i]), chunks[i + 1..])
  {
    assert chunks[i..][1..] == chunks[i + 1..];
  }

  /** A caller's loop over network chunks collects exactly the batch decoding. */
  method DecodeStream(chunks: seq<string>) returns (out: seq<string>)
    ensures out == Batch(Concat(chunks))
  {
    var d := new SSEDecoder();
    out := [];
    assert chunks[0..] == chunks && "" + Concat(chunks) == Concat(chunks);
    ChunkInvariance("", chunks);
    for i := 0 to |chunks|
      invariant d.Valid() && fresh(d)
      invariant out + Streamed(d.buf, chunks[i..]) == Batch(Concat(chunks))
    {
      StreamedStep(d.buf, chunks, i);
      ghost var before, tail := out, Streamed(Rest(d.buf + chunks[i]), chunks[i + 1..]);
      var more := d.Push(chunks[i]);
      assert before + (more + tail) == before + more + tail;
      out := out + more;
    }
    var last := d.End();
    out := out + last;
  }

  // ---- tool-call fragments ----

  /** One streamed delta; absent fields arrive as empty strings. */
  datatype Delta = Delta(index: int, id: string, name: string, args: string)

  datatype Slot = Slot(id: string, name: string, args: string)

  const EMPTY_SLOT := Slot("", "", "")

  /** The deltas of one call, in arrival order. */
  function Of(deltas: seq<Delta>, index: int): seq<Delta> {
    if deltas == [] then []
    else (if deltas[0].index == index then [deltas[0]] else []) + Of(deltas[1..], index)
  }

  function Names(deltas: seq<Delta>): string {
    if deltas == [] then "" else deltas[0].name + Names(deltas[1..])
  }

  function Args(deltas: seq<Delta>): string {
    if deltas == [] then "" else deltas[0].args + Args(deltas[1..])
  }

  /** The last id that is not empty. */
  function LastId(deltas: seq<Delta>): string {
    if deltas == [] then ""
    else if deltas[|deltas| - 1].id != "" then deltas[|deltas| - 1].id
    else LastId(deltas[..|deltas| - 1])
  }

  lemma {:induction false} OfAppend(a: seq<Delta>, b: seq<Delta>, index: int)
    ensures Of(a + b, index) == Of(a, index) + Of(b, index)
  {
    if a == [] {
      assert a + b == b;
    } else {
      assert (a + b)[1..] == a[1..] + b;
      OfAppend(a[1..], b, index);
      Regrouped(if a[0].index == index then [a[0]] else [], Of(a[1..], index), Of(b, index));
    }
  }

  lemma {:induction false} FragmentsAppend(a: seq<Delta>, d: Delta)
    ensures Names(a + [d]) == Names(a) + d.name
    ensures Args(a + [d]) == Args(a) + d.args
    ensures LastId(a + [d]) == if d.id != "" then d.id else LastId(a)
  {
    assert (a + [d])[..|a|] == a;
    if a == [] {
      assert a + [d] == [d] && [d][1..] == [];
    } else {
      assert (a + [d])[1..] == a[1..] + [d];
      FragmentsAppend(a[1..], d);
    }
  }

  lemma OfOne(a: seq<Delta>, d: Delta, index: int)
    ensures Of(a + [d], index) == if index == d.index then Of(a, index) + [d] else Of(a, index)
  {
    OfAppend(a, [d], index);
    assert Of([d], index) == (if d.index == index then [d] else []) + Of([], index);
  }

  /** The slot a call's own fragments amount to. */
  function SlotOf(deltas: seq<Delta>): Slot {
    Slot(LastId(deltas), Names(deltas), Args(deltas))
  }

  class ToolCallAccumulator {
    var slots: map<int, Slot>
    /** Everything added so far. */
    ghost var received: seq<Delta>

    /** Each slot holds its own call's fragments joined in arrival order, whatever was interleaved. */
    ghost predicate Valid() reads this {
      && (forall i :: i in slots <==> Of(received, i) != [])
      && (forall i :: i in slots ==> slots[i] == SlotOf(Of(received, i)))
    }

    constructor ()
      ensures Valid() && received == []
    {
      slots, received := map[], [];
    }

    method AddOne(tc: Delta)
      requires Valid()
      modifies this
      ensures Valid() && received == old(received) + [tc]
    {
      var slot := if tc.index in slots then slots[tc.index] else EMPTY_SLOT;
      if tc.id != "" { slot := slot.(id := tc.id); }
      slot := slot.(name := slot.name + tc.name, args := slot.args + tc.args);
      ghost var before, own := received, Of(received, tc.index);
      assert slot == SlotOf(own + [tc]) by { FragmentsAppend(own, tc); }
      slots := slots[tc.index := slot];
      received := received + [tc];
      forall i ensures i in slots <==> Of(received, i) != []
        ensures i in slots ==> slots[i] == SlotOf(Of(received, i))
      {
        OfOne(before, tc, i);
      }
    }

    method Add(calls: seq<Delta>)
      requires Valid()
      modifies this
      ensures Valid() && received == old(received) + calls
    {
      for k := 0 to |calls|
        invariant Valid() && received == old(received) + calls[..k]
      {
        AddOne(calls[k]);
        OneMore(old(received), calls, k);
      }
    }

    method Complete() returns (out: seq<Call>)
      requires Valid()
      ensures |out| == |slots|
      ensures forall n :: 0 <= n < |out| ==> out[n].index in slots && out[n] == CallOf(out[n].index, n, SlotOf(Of(received, out[n].index)))
      ensures forall m, n :: 0 <= m < n < |out| ==> out[m].index < out[n].index
    {
      out := CallsOf(slots);
      forall n | 0 <= n < |out|
        ensures out[n].index in slots && out[n] == CallOf(out[n].index, n, SlotOf(Of(received, out[n].index)))
      {
        assert Numbered(slots, out[n], n);
      }
    }
  }

  lemma OneMore<T>(a: seq<T>, b: seq<T>, k: nat)
    requires k < |b|
    ensures a + b[..k] + [b[k]] == a + b[..k + 1]
  {
  }

  predicate Numbered(slots: map<int, Slot>, call: Call, n: nat) {
    call.index in slots && call == CallOf(call.index, n, slots[call.index])
  }

  /**
   The finished calls by ascending index. A call without an id is named after
   its position; argument text is handed to the JSON parser by the caller.
   */
  method CallsOf(slots: map<int, Slot>) returns (out: seq<Call>)
    ensures |out| == |slots|
    ensures forall n :: 0 <= n < |out| ==> Numbered(slots, out[n], n)
    ensures forall m, n :: 0 <= m < n < |out| ==> out[m].index < out[n].index
  {
    out := [];
    var todo := slots.Keys;
    assert |todo| == |slots|;
    while todo != {}
      invariant todo <= slots.Keys && |todo| + |out| == |slots|
      invariant forall n :: 0 <= n < |out| ==> Numbered(slots, out[n], n)
      invariant forall m, n :: 0 <= m < n < |out| ==> out[m].index < out[n].index
      invariant forall n, i :: 0 <= n < |out| && i in todo ==> out[n].index < i
    {
      var i := Least(todo);
      var slot := slots[i];
      out := out + [Call(i, if slot.id != "" then slot.id else CallName(|out|), slot.name, if slot.args != "" then slot.args else "{}")];
      todo := todo - {i};
    }
  }

  datatype Call = Call(index: int, callId: string, name: string, argText: string)

  function Digits(n: nat): string {
    if n < 10 then [('0' as int + n) as char] else Digits(n / 10) + Digits(n % 10)
  }

  function CallName(n: nat): string { "call_" + Digits(n) }

  function CallOf(index: int, n: nat, s: Slot): Call {
    Call(index, if s.id != "" then s.id else CallName(n), s.name, if s.args != "" then s.args else "{}")
  }

  // ---- the names of calls that have none ----

  function NumberOf(digits: string): int {
    if digits == "" then 0 else NumberOf(digits[..|digits| - 1]) * 10 + (digits[|digits| - 1] as int - '0' as int)
  }

  /** The digits are decimal digits and read as the number. */
  lemma {:induction false} DigitsRead(n: nat)
    ensures Digits(n) != "" && NumberOf(Digits(n)) == n
    ensures forall c :: c in Digits(n) ==> '0' <= c <= '9'
  {
    if n >= 10 {
      DigitsRead(n / 10);
      DigitsRead(n % 10);
      assert |Digits(n % 10)| == 1;
      assert Digits(n)[..|Digits(n)| - 1] == Digits(n / 10);
    } else {
      assert Digits(n)[..0] == "";
    }
  }

  /** Calls without an id are told apart by their place. */
  lemma CallNamesDiffer(m: nat, n: nat)
    requires CallName(m) == CallName(n)
    ensures m == n
  {
    DigitsRead(m);
    DigitsRead(n);
    assert CallName(m)[5..] == Digits(m) && CallName(n)[5..] == Digits(n);
  }
}
