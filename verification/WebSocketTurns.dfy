/** The WebSocket turn loop: which session and which response a turn continues (internal/api/websocket.go). */
module WebSocketTurns {
  import opened Continuation
  import opened ResponseSessions
  import opened Text
  import opened Wrappers

  /**
   How a run ended: with a completed or incomplete response to store, with
   another terminal event, or without one. `encoded` is the stored response's
   size as JSON, if it can be encoded.
   */
  datatype Ending =
    | Completed(id: string, output: seq<Item>, encoded: Option<nat>, stamped: int, putAt: int, doneAt: int)
    | Failed(id: string, doneAt: int)
    | Dropped

  function NextSession(session: string, explicitSession: string): string {
    if explicitSession != "" then explicitSession else session
  }

  /** The last response is forgotten when a turn names another session. */
  function UsableLast(session: string, lastId: string, explicitSession: string): string {
    if explicitSession != "" && explicitSession != session then "" else lastId
  }

  /** The input continues the last response stored under the id the request names, if it names one. */
  ghost predicate SentInput(input: seq<Item>, latest: Entries, scope: Scope, req: Payload) {
    var key := Key(scope, Previous(req));
    if Continues(req) then
      && key in latest
      && input == Merge(latest[key].history.payload.input, latest[key].history.output, ResponsesInput(req.input))
    else input == ResponsesInput(req.input)
  }

  class Connection {
    var session: string
    var lastId: string

    constructor (session: string)
      ensures this.session == session && lastId == ""
    {
      this.session, lastId := session, "";
    }

    method Store(sessions: ResponseSessions, scope: Scope, sent: Prepared, ending: Ending)
      requires sessions.Valid() && !ending.Dropped?
      modifies sessions
      ensures sessions.Valid() && sessions.latest == Stored(old(sessions.latest), scope, sent, ending)
      ensures Stores(ending) ==> Key(scope, ending.id) in sessions.entries
                                 && sessions.entries[Key(scope, ending.id)] == EntryOf(sent, ending)
      ensures !Stores(ending) ==> sessions.entries == old(sessions.entries)
    {
      if ending.Completed? {
        var _ := sessions.Put(scope, ending.id, History(sent, ending.output), ending.encoded, ending.stamped, ending.putAt);
      }
    }

    /** The end of a run: store the response, and remember it exactly if it is there to be continued. */
    method Finish(sessions: ResponseSessions, scope: Scope, sent: Prepared, ending: Ending)
      requires sessions.Valid()
      modifies this`lastId, sessions
      ensures sessions.Valid()
      ensures sessions.latest == Stored(old(sessions.latest), scope, sent, ending)
      ensures Left(sessions.entries, old(sessions.entries), scope, sent, ending)
      ensures lastId == Remembered(old(lastId), sessions.entries, scope, ending)
    {
      if ending.Dropped? { return; }
      Store(sessions, scope, sent, ending);
      var hit := sessions.Get(scope, ending.id, ending.doneAt);
      if hit.Some? && ending.id != "" { lastId := ending.id; }
    }

    /** Turning to the session the client names, if it names one. */
    method Switch(explicitSession: string)
      modifies this
      ensures session == NextSession(old(session), explicitSession)
      ensures lastId == UsableLast(old(session), old(lastId), explicitSession)
      ensures session == (if explicitSession != "" then explicitSession else old(session))
      ensures lastId == (if session == old(session) then old(lastId) else "")
    {
      if explicitSession != "" {
        if explicitSession != session { lastId := ""; }
        session := explicitSession;
      }
    }

    method Turn(sessions: ResponseSessions, identity: string, explicitSession: string, req: Payload,
                encoded: nat, now: int, ending: Ending)
      returns (r: Result<Prepared, Refusal>)
      requires sessions.Valid()
      modifies this, sessions
      ensures sessions.Valid()
      ensures session == NextSession(old(session), explicitSession)
      ensures var scope, last := Scope(identity, session), UsableLast(old(session), old(lastId), explicitSession);
              && IsAnswer(r, req, Found(old(sessions.entries), scope, Target(req, last), now), encoded)
              && sessions.latest == (if r.Ok? then Stored(old(sessions.latest), scope, r.value, ending) else old(sessions.latest))
              && lastId == (if r.Ok? then Remembered(last, sessions.entries, scope, ending) else last)
              && (r.Ok? ==> exists before :: SubEntries(before, old(sessions.entries)) && Left(sessions.entries, before, scope, r.value, ending))
      ensures r.Ok? ==> SentInput(r.value.input, old(sessions.latest), Scope(identity, session), req)
      ensures r.Ok? ==> SentAs(r.value.input, req, old(sessions.entries), Scope(identity, session), now)
      ensures session == if explicitSession != "" then explicitSession else old(session)
      ensures r.Err? ==> lastId == if session == old(session) then old(lastId) else ""
      ensures r.Ok? && session != old(session) && Trim(StringValue(req.previous), Go) == "" ==> r.value.fields == req.fields
      ensures r.Ok? && Lasts(ending) ==>
                && lastId == ending.id && Key(Scope(identity, session), ending.id) in sessions.entries
                && sessions.entries[Key(Scope(identity, session), ending.id)].history == History(r.value, ending.output)
    {
      ghost var last := UsableLast(session, lastId, explicitSession);
      Switch(explicitSession);
      var scope := Scope(identity, session);
      r := sessions.Prepare(scope, lastId, req, encoded, now);
      if r.Ok? {
        AnswerInput(old(sessions.entries), old(sessions.latest), scope, last, req, r.value, encoded, now);
        ghost var before := sessions.entries;
        Finish(sessions, scope, r.value, ending);
        assert SubEntries(before, old(sessions.entries)) && Left(sessions.entries, before, scope, r.value, ending);
        if Lasts(ending) { LastingIsRemembered(last, sessions.entries, before, scope, r.value, ending); }
        if session != old(session) && Previous(req) == "" { NothingInherited(r, req, encoded); }
      }
    }
  }

  /** A run whose response has an id, fits into 2 MiB and ends less than a quarter of an hour after it was stored. */
  predicate Lasts(ending: Ending) {
    && ending.Completed? && ending.id != ""
    && ending.encoded.Some? && ending.encoded.value <= 2 * 1024 * 1024
    && ending.doneAt - ending.stamped < 15 * 60 * 1_000_000_000
  }

  lemma LastingIsRemembered(lastId: string, after: Entries, before: Entries, scope: Scope, sent: Prepared, ending: Ending)
    requires Left(after, before, scope, sent, ending) && Lasts(ending)
    ensures Remembered(lastId, after, scope, ending) == ending.id && Key(scope, ending.id) in after
    ensures after[Key(scope, ending.id)].history == History(sent, ending.output)
  {
  }

  lemma NothingInherited(r: Result<Prepared, Refusal>, req: Payload, encoded: nat)
    requires IsAnswer(r, req, None, encoded) && r.Ok?
    ensures r.value.fields == req.fields
  {
  }

  /** A run whose response put accepts. */
  predicate Stores(ending: Ending) { ending.Completed? && Accepts(ending.id, ending.encoded) }

  function EntryOf(sent: Prepared, ending: Ending): Entry
    requires Stores(ending)
  {
    Entry(History(sent, ending.output), ending.stamped + TTL, ending.encoded.value)
  }

  /** The stored responses after a run. */
  function Stored(latest: Entries, scope: Scope, sent: Prepared, ending: Ending): Entries {
    if Stores(ending) then latest[Key(scope, ending.id) := EntryOf(sent, ending)] else latest
  }

  predicate SubEntries(few: Entries, m: Entries) { forall k :: k in few ==> k in m && few[k] == m[k] }

  /** What is in the store under the response's id after a run: its response unless expired already, or what was there. */
  predicate Left(after: Entries, before: Entries, scope: Scope, sent: Prepared, ending: Ending) {
    if ending.Dropped? then after == before
    else
      var key := Key(scope, ending.id);
      if Stores(ending) then
        (key in after <==> EntryOf(sent, ending).expires > ending.doneAt) && (key in after ==> after[key] == EntryOf(sent, ending))
      else
        (key in after <==> key in before && before[key].expires > ending.doneAt) && (key in after ==> after[key] == before[key])
  }

  /** The id to continue from: the response's, exactly if it can be found. */
  function Remembered(lastId: string, after: Entries, scope: Scope, ending: Ending): string {
    if !ending.Dropped? && ending.id != "" && Key(scope, ending.id) in after then ending.id else lastId
  }

  lemma AnswerInput(entries: Entries, latest: Entries, scope: Scope, last: string, req: Payload, p: Prepared, encoded: nat, now: int)
    requires forall k :: k in entries ==> k in latest && latest[k] == entries[k]
    requires IsAnswer(Ok(p), req, Found(entries, scope, Target(req, last), now), encoded)
    ensures SentInput(p.input, latest, scope, req)
  {
    assert Continues(req) ==> Target(req, last) == Some(Previous(req));
  }

  /** What a turn meets besides its input: settings, sizes and clock readings. */
  datatype Env = Env(fields: map<string, Json>, encoded: nat, now: int, stored: Option<nat>, stamped: int, putAt: int, doneAt: int)

  /** Turn i as the client sends it: continuing the response of the turn before. */
  function Request(turns: seq<Turn>, ids: seq<string>, envs: seq<Env>, i: nat): Payload
    requires i < |turns| == |ids| == |envs|
  {
    Payload(if i == 0 then Null else Json.Text(ids[i - 1]), false, envs[i].fields, ListInput(turns[i].input))
  }

  function EndingOf(turns: seq<Turn>, ids: seq<string>, envs: seq<Env>, i: nat): Ending
    requires i < |turns| == |ids| == |envs|
  {
    Completed(ids[i], turns[i].output, envs[i].stored, envs[i].stamped, envs[i].putAt, envs[i].doneAt)
  }

  /** Response ids a provider may give: not blank, not padded, all different. */
  predicate ProperIds(ids: seq<string>) {
    && (forall i :: 0 <= i < |ids| ==> ids[i] != "" && Trim(ids[i], Go) == ids[i])
    && (forall i, j :: 0 <= i < j < |ids| ==> ids[i] != ids[j])
  }

  /** Nothing has been stored yet under the ids from the i-th on. */
  predicate Unused(latest: Entries, scope: Scope, ids: seq<string>, i: nat) {
    forall j :: i <= j < |ids| ==> Key(scope, ids[j]) !in latest
  }

  // ---- when a turn is accepted ----

  /** The settings turn i is sent with: its own, or inherited from the turns before and what the connection last did. */
  function ChainedFields(base: Option<History>, envs: seq<Env>, i: nat): map<string, Json>
    requires i < |envs|
  {
    if i > 0 then Inherit(envs[i].fields, ChainedFields(base, envs, i - 1))
    else if base.Some? then Inherit(envs[0].fields, base.value.payload.fields)
    else envs[0].fields
  }

  /** What turn i amounts to. */
  function ChainedRequest(base: Option<History>, turns: seq<Turn>, envs: seq<Env>, i: nat): Prepared
    requires i < |turns| == |envs|
  {
    Prepared(ChainedFields(base, envs, i), Chained(turns, i))
  }

  /** The response of turn i - 1 was stored, and has not expired when it ends or when turn i asks for it. */
  predicate Available(ids: seq<string>, envs: seq<Env>, i: nat)
    requires 0 < i < |ids| == |envs|
  {
    var e := envs[i - 1];
    Accepts(ids[i - 1], e.stored) && e.stamped + TTL > e.doneAt && e.stamped + TTL > envs[i].now
  }

  /** The stored response that turn i refers to; for the first turn, what the connection did last. */
  function FoundAt(base: Option<History>, turns: seq<Turn>, ids: seq<string>, envs: seq<Env>, i: nat): Option<History>
    requires i < |turns| == |ids| == |envs|
  {
    if i == 0 then base
    else if Available(ids, envs, i) then Some(History(ChainedRequest(base, turns, envs, i - 1), turns[i - 1].output))
    else None
  }

  /** Everything a turn needs: its predecessor, a size within bounds, a model, and a call for every tool output. */
  predicate Admissible(base: Option<History>, turns: seq<Turn>, ids: seq<string>, envs: seq<Env>, i: nat)
    requires i < |turns| == |ids| == |envs|
  {
    && (i > 0 ==> Available(ids, envs, i))
    && envs[i].encoded <= MAX_BYTES
    && ModelOf(ChainedRequest(base, turns, envs, i)) != ""
    && Paired(Chained(turns, i))
  }

  /** The answer to turn i, refusals with their cause included. */
  ghost predicate IsAnswerAt(r: Result<Prepared, Refusal>, base: Option<History>, turns: seq<Turn>, ids: seq<string>, envs: seq<Env>, i: nat)
    requires i < |turns| == |ids| == |envs|
  {
    IsAnswer(r, Request(turns, ids, envs, i), FoundAt(base, turns, ids, envs, i), envs[i].encoded)
  }

  /** Turn i is accepted exactly if it is admissible, and is then sent the merge of everything before it. */
  lemma TurnExtendsChain(r: Result<Prepared, Refusal>, base: Option<History>, turns: seq<Turn>, ids: seq<string>, envs: seq<Env>, i: nat)
    requires i < |turns| == |ids| == |envs| && ProperIds(ids) && IsAnswerAt(r, base, turns, ids, envs, i)
    ensures r.Ok? <==> Admissible(base, turns, ids, envs, i)
    ensures r.Ok? ==> r.value == ChainedRequest(base, turns, envs, i)
  {
    var req := Request(turns, ids, envs, i);
    if i == 0 {
      assert Previous(req) == "";
    } else {
      assert Previous(req) == ids[i - 1];
    }
    if Continues(req) ==> FoundAt(base, turns, ids, envs, i).Some? {
      assert Assemble(req, FoundAt(base, turns, ids, envs, i)) == ChainedRequest(base, turns, envs, i);
    }
  }

  // ---- a conversation ----

  /** The store as turn i finds it: the predecessor's response exactly if it is still available. */
  predicate Ready(entries: Entries, latest: Entries, scope: Scope, base: Option<History>, turns: seq<Turn>, ids: seq<string>, envs: seq<Env>, i: nat)
    requires |turns| == |ids| == |envs|
  {
    && i <= |turns| && Unused(latest, scope, ids, i)
    && (0 < i ==>
          var e, key := envs[i - 1], Key(scope, ids[i - 1]);
          && (key in entries <==> Accepts(ids[i - 1], e.stored) && e.stamped + TTL > e.doneAt)
          && (key in entries ==> entries[key].expires == e.stamped + TTL
                                 && entries[key].history == History(ChainedRequest(base, turns, envs, i - 1), turns[i - 1].output)))
  }

  lemma FoundIsFoundAt(entries: Entries, latest: Entries, scope: Scope, base: Option<History>,
                       turns: seq<Turn>, ids: seq<string>, envs: seq<Env>, i: nat, lastId: string)
    requires i < |turns| == |ids| == |envs| && ProperIds(ids) && Ready(entries, latest, scope, base, turns, ids, envs, i)
    requires i == 0 ==> base == Found(entries, scope, Target(Request(turns, ids, envs, 0), lastId), envs[0].now)
    ensures Found(entries, scope, Target(Request(turns, ids, envs, i), lastId), envs[i].now) == FoundAt(base, turns, ids, envs, i)
  {
    if i > 0 { assert Previous(Request(turns, ids, envs, i)) == ids[i - 1]; }
  }

  /** After an accepted turn the store is ready for the next. */
  lemma ReadyAgain(before: Entries, after: Entries, latest: Entries, scope: Scope, base: Option<History>,
                   turns: seq<Turn>, ids: seq<string>, envs: seq<Env>, i: nat, sent: Prepared)
    requires i < |turns| == |ids| == |envs| && ProperIds(ids) && Unused(latest, scope, ids, i) && SubEntries(before, latest)
    requires Left(after, before, scope, sent, EndingOf(turns, ids, envs, i)) && sent == ChainedRequest(base, turns, envs, i)
    ensures Ready(after, Stored(latest, scope, sent, EndingOf(turns, ids, envs, i)), scope, base, turns, ids, envs, i + 1)
  {
    assert Key(scope, ids[i]) !in before;
  }

  method ChainedTurn(c: Connection, sessions: ResponseSessions, identity: string, turns: seq<Turn>, ids: seq<string>, envs: seq<Env>,
                     i: nat, ghost base: Option<History>)
    returns (r: Result<Prepared, Refusal>)
    requires sessions.Valid() && i < |turns| == |ids| == |envs| && ProperIds(ids)
    requires var scope := Scope(identity, c.session);
             && Ready(sessions.entries, sessions.latest, scope, base, turns, ids, envs, i)
             && (i == 0 ==> base == Found(sessions.entries, scope, Target(Request(turns, ids, envs, 0), c.lastId), envs[0].now))
    modifies c, sessions
    ensures sessions.Valid() && c.session == old(c.session)
    ensures IsAnswerAt(r, base, turns, ids, envs, i)
    ensures r.Ok? <==> Admissible(base, turns, ids, envs, i)
    ensures r.Ok? ==> r.value == ChainedRequest(base, turns, envs, i)
                      && Ready(sessions.entries, sessions.latest, Scope(identity, c.session), base, turns, ids, envs, i + 1)
  {
    ghost var entries, latest, scope, lastId := sessions.entries, sessions.latest, Scope(identity, c.session), c.lastId;
    r := c.Turn(sessions, identity, "", Request(turns, ids, envs, i), envs[i].encoded, envs[i].now, EndingOf(turns, ids, envs, i));
    FoundIsFoundAt(entries, latest, scope, base, turns, ids, envs, i, lastId);
    TurnExtendsChain(r, base, turns, ids, envs, i);
    if r.Ok? {
      ghost var before :| SubEntries(before, entries) && Left(sessions.entries, before, scope, r.value, EndingOf(turns, ids, envs, i));
      ReadyAgain(before, sessions.entries, latest, scope, base, turns, ids, envs, i, r.value);
    }
  }

  /** Each input that was sent is the merge of everything before it. */
  predicate SentChained(turns: seq<Turn>, sent: seq<seq<Item>>) {
    |sent| <= |turns| && forall i :: 0 <= i < |sent| ==> sent[i] == Chained(turns, i)
  }

  lemma OneMoreSent(turns: seq<Turn>, sent: seq<seq<Item>>, input: seq<Item>)
    requires SentChained(turns, sent) && |sent| < |turns| && input == Chained(turns, |sent|)
    ensures SentChained(turns, sent + [input])
  {
    forall i | 0 <= i <= |sent| ensures (sent + [input])[i] == Chained(turns, i) {
      if i < |sent| { assert sent[i] == Chained(turns, i); }
    }
  }

  /** What the first turn's settings are inherited from: the last response of the connection, if it is still there. */
  function BaseOf(entries: Entries, scope: Scope, lastId: string, envs: seq<Env>): Option<History> {
    if lastId == "" || envs == [] then None else Lookup(entries, Key(scope, lastId), envs[0].now)
  }

  predicate AllAdmissible(base: Option<History>, turns: seq<Turn>, ids: seq<string>, envs: seq<Env>, n: nat)
    requires n <= |turns| == |ids| == |envs|
  {
    forall i :: 0 <= i < n ==> Admissible(base, turns, ids, envs, i)
  }

  /** All turns are new. */
  predicate AllFresh(turns: seq<Turn>) { forall i :: 1 <= i < |turns| ==> FreshTurn(turns, i) }

  /** What comes of a conversation: the turns before the first inadmissible one are sent, and that one is refused for its cause. */
  ghost predicate Conversed(base: Option<History>, turns: seq<Turn>, ids: seq<string>, envs: seq<Env>,
                            sent: seq<seq<Item>>, refusal: Option<Refusal>)
    requires |turns| == |ids| == |envs|
  {
    && SentChained(turns, sent)
    && AllAdmissible(base, turns, ids, envs, |sent|)
    && (refusal.None? <==> |sent| == |turns|)
    && (refusal.Some? ==> !Admissible(base, turns, ids, envs, |sent|)
                          && IsAnswerAt(Err(refusal.value), base, turns, ids, envs, |sent|))
  }

  /** If every turn is admissible and says something new, each is sent the plain transcript. */
  lemma AdmissibleTurnsSendTranscript(base: Option<History>, turns: seq<Turn>, ids: seq<string>, envs: seq<Env>,
                                      sent: seq<seq<Item>>, refusal: Option<Refusal>)
    requires |turns| == |ids| == |envs| && Conversed(base, turns, ids, envs, sent, refusal)
    requires AllAdmissible(base, turns, ids, envs, |turns|)
    ensures |sent| == |turns| && refusal.None?
    ensures AllFresh(turns) ==> forall i :: 0 <= i < |turns| ==> sent[i] == Transcript(turns, i)
  {
    FreshTurnsSendTranscript(turns, sent);
  }

  lemma BaseIsFound(entries: Entries, scope: Scope, lastId: string, turns: seq<Turn>, ids: seq<string>, envs: seq<Env>)
    requires 0 < |turns| == |ids| == |envs|
    ensures BaseOf(entries, scope, lastId, envs) == Found(entries, scope, Target(Request(turns, ids, envs, 0), lastId), envs[0].now)
  {
    assert Previous(Request(turns, ids, envs, 0)) == "";
  }

  /** One more turn is accepted. */
  lemma SentOneMore(base: Option<History>, turns: seq<Turn>, ids: seq<string>, envs: seq<Env>, sent: seq<seq<Item>>, r: Prepared)
    requires |sent| < |turns| == |ids| == |envs| && SentChained(turns, sent) && AllAdmissible(base, turns, ids, envs, |sent|)
    requires Admissible(base, turns, ids, envs, |sent|) && r == ChainedRequest(base, turns, envs, |sent|)
    ensures SentChained(turns, sent + [r.input]) && AllAdmissible(base, turns, ids, envs, |sent| + 1)
  {
    OneMoreSent(turns, sent, r.input);
  }

  /**
   A client chains turn after turn by previous_response_id. The turns up to the first inadmissible one are
   accepted, each sent exactly the merge of everything before it; that one is refused, for the reason given.
   Whether a turn is admissible is a matter of sizes, settings and clock readings: the response just stored is
   never evicted before it is asked for.
   */
  method Converse(c: Connection, sessions: ResponseSessions, identity: string, turns: seq<Turn>, ids: seq<string>, envs: seq<Env>)
    returns (sent: seq<seq<Item>>, refusal: Option<Refusal>)
    requires sessions.Valid() && |ids| == |turns| == |envs| && ProperIds(ids)
    requires Unused(sessions.latest, Scope(identity, c.session), ids, 0)
    modifies c, sessions
    ensures sessions.Valid() && c.session == old(c.session)
    ensures Conversed(BaseOf(old(sessions.entries), Scope(identity, c.session), old(c.lastId), envs), turns, ids, envs, sent, refusal)
  {
    ghost var base := BaseOf(sessions.entries, Scope(identity, c.session), c.lastId, envs);
    sent := [];
    if |turns| > 0 { BaseIsFound(sessions.entries, Scope(identity, c.session), c.lastId, turns, ids, envs); }
    while |sent| < |turns|
      invariant sessions.Valid() && c.session == old(c.session)
      invariant |sent| == 0 ==> sessions.entries == old(sessions.entries) && c.lastId == old(c.lastId)
      invariant SentChained(turns, sent) && AllAdmissible(base, turns, ids, envs, |sent|)
      invariant Ready(sessions.entries, sessions.latest, Scope(identity, c.session), base, turns, ids, envs, |sent|)
    {
      var r := ChainedTurn(c, sessions, identity, turns, ids, envs, |sent|, base);
      if r.Err? { return sent, Some(r.error); }
      SentOneMore(base, turns, ids, envs, sent, r.value);
      sent := sent + [r.value.input];
    }
    refusal := None;
  }

  lemma FreshTurnsSendTranscript(turns: seq<Turn>, sent: seq<seq<Item>>)
    requires SentChained(turns, sent)
    ensures (forall i :: 1 <= i < |sent| ==> FreshTurn(turns, i)) ==> forall i :: 0 <= i < |sent| ==> sent[i] == Transcript(turns, i)
  {
    if |sent| > 0 && forall i :: 1 <= i < |sent| ==> FreshTurn(turns, i) {
      ConversationIsTranscriptIff(turns, |sent| - 1);
      forall i | 0 <= i < |sent| ensures sent[i] == Transcript(turns, i) { assert SentTranscript(turns, i); }
    }
  }
}
