/** Idempotent quota resets (internal/api/quota_actions.go). */
module QuotaReset {
  // At most one upstream call per credential at a time, results kept for repeats
  // of the same request, and a bounded table of them. Each action is one critical
  // section of one caller, or its waking up; a run is any interleaving of any
  // number of callers. Action times are read inside the lock and do not go back. A result is what upstream returned, error or not.

  const RETENTION: int := 15 * 60 * 1_000_000_000
  const MAX_CALLS := 1024

  datatype Key = Key(credential: string, id: string)

  /** One upstream call: the callers' shared record of it, with who made it and when. */
  datatype Call = Call(key: Key, caller: nat, started: int, done: bool, result: string, expires: int)

  datatype Caller =
    | Calling(call: nat)                  // runs the upstream call
    | Waiting(call: nat)                  // for somebody else's
    | Answered(call: nat, result: string)
    | GaveUp
    | InvalidId
    | InProgress                          // told to retry later

  datatype State = State(
    table: map<Key, nat>,          // the retained calls
    active: map<string, nat>,      // the unfinished call of each credential that has one
    calls: seq<Call>,              // every call ever made; a record outlives its place in the table
    callers: map<nat, Caller>,
    clock: int)

  datatype Action =
    | Enter(c: nat, key: Key, wellFormed: bool, now: int)
    | Finish(c: nat, result: string, now: int)
    | Wake(c: nat)
    | GiveUp(c: nat)

  predicate Expired(call: Call, now: int) { call.done && now > call.expires }

  /** The table without the calls whose results have been kept long enough. */
  function Pruned(s: State, now: int): map<Key, nat> {
    map k | k in s.table && !(s.table[k] < |s.calls| && Expired(s.calls[s.table[k]], now)) :: s.table[k]
  }

  predicate Enabled(s: State, a: Action) {
    match a
    case Enter(c, _, _, now) => c !in s.callers && now >= s.clock
    case Finish(c, _, now) => c in s.callers && s.callers[c].Calling? && s.callers[c].call < |s.calls| && now >= s.clock
    case Wake(c) => c in s.callers && s.callers[c].Waiting? && s.callers[c].call < |s.calls| && s.calls[s.callers[c].call].done
    case GiveUp(c) => c in s.callers && s.callers[c].Waiting?
  }

  function EnterStep(s: State, c: nat, key: Key, wellFormed: bool, now: int): State {
    if !wellFormed then s.(callers := s.callers[c := InvalidId], clock := now)
    else
      var table := Pruned(s, now);
      if key in table then s.(table := table, callers := s.callers[c := Waiting(table[key])], clock := now)
      else if key.credential in s.active || |table| >= MAX_CALLS then
        s.(table := table, callers := s.callers[c := InProgress], clock := now)
      else
        var n := |s.calls|;
        State(table[key := n], s.active[key.credential := n], s.calls + [Call(key, c, now, false, "", 0)],
              s.callers[c := Calling(n)], now)
  }

  function FinishStep(s: State, c: nat, result: string, now: int): State
    requires Enabled(s, Finish(c, result, now))
  {
    var n := s.callers[c].call;
    var call := s.calls[n].(done := true, result := result, expires := now + RETENTION);
    s.(calls := s.calls[n := call], active := s.active - {call.key.credential},
       callers := s.callers[c := Answered(n, result)], clock := now)
  }

  function Apply(s: State, a: Action): State
    requires Enabled(s, a)
  {
    match a
    case Enter(c, key, wellFormed, now) => EnterStep(s, c, key, wellFormed, now)
    case Finish(c, result, now) => FinishStep(s, c, result, now)
    case Wake(c) => s.(callers := s.callers[c := Answered(s.callers[c].call, s.calls[s.callers[c].call].result)])
    case GiveUp(c) => s.(callers := s.callers[c := GaveUp])
  }

  function Run(actions: seq<Action>): State {
    if actions == [] then State(map[], map[], [], map[], 0)
    else
      var s, a := Run(actions[..|actions| - 1]), actions[|actions| - 1];
      if Enabled(s, a) then Apply(s, a) else s
  }

  // ---- what every run keeps ----

  ghost predicate TableOk(s: State) {
    && |s.table| <= MAX_CALLS
    && (forall k :: k in s.table ==> s.table[k] < |s.calls| && s.calls[s.table[k]].key == k)
  }

  /** active holds exactly the unfinished calls: at most one per credential. */
  ghost predicate ActiveOk(s: State) {
    && (forall c :: c in s.active ==> s.active[c] < |s.calls| && !s.calls[s.active[c]].done && s.calls[s.active[c]].key.credential == c)
    && (forall n :: 0 <= n < |s.calls| && !s.calls[n].done ==>
          s.calls[n].key.credential in s.active && s.active[s.calls[n].key.credential] == n)
  }

  /** A call is in the table until its result has been kept for the retention time. */
  ghost predicate Retained(s: State) {
    forall n :: 0 <= n < |s.calls| ==>
      (s.calls[n].key in s.table && s.table[s.calls[n].key] == n) || (s.calls[n].done && s.calls[n].expires < s.clock)
  }

  /** A later call for the same key began only after the earlier one's result had expired. */
  ghost predicate Apart(s: State) {
    && (forall m, n :: 0 <= m < n < |s.calls| && s.calls[m].key == s.calls[n].key ==>
          s.calls[m].done && s.calls[m].expires < s.calls[n].started)
    && (forall n :: 0 <= n < |s.calls| ==> s.calls[n].started <= s.clock && (s.calls[n].done ==> s.calls[n].expires <= s.clock + RETENTION))
  }

  ghost predicate CallerOk(v: Caller, c: nat, calls: seq<Call>) {
    && (v.Calling? ==> v.call < |calls| && !calls[v.call].done && calls[v.call].caller == c)
    && (v.Waiting? ==> v.call < |calls|)
    && (v.Answered? ==> v.call < |calls| && calls[v.call].done && calls[v.call].result == v.result)
  }

  ghost predicate CallersOk(s: State) { forall c :: c in s.callers ==> CallerOk(s.callers[c], c, s.calls) }

  ghost predicate Inv(s: State) { TableOk(s) && ActiveOk(s) && Retained(s) && Apart(s) && CallersOk(s) }

  lemma PrunedSmaller(s: State, now: int)
    ensures |Pruned(s, now)| <= |s.table|
  {
    var p := Pruned(s, now);
    assert p.Keys <= s.table.Keys;
    Subset(p.Keys, s.table.Keys);
  }

  lemma {:induction false} Subset(a: set<Key>, b: set<Key>)
    requires a <= b
    ensures |a| <= |b|
  {
    if a != {} {
      var k :| k in a;
      Subset(a - {k}, b - {k});
    }
  }

  /** Pruning at a time that does not go back loses nothing that must be retained. */
  lemma PruneKeeps(s: State, now: int)
    requires Inv(s) && now >= s.clock
    ensures Inv(s.(table := Pruned(s, now), clock := now))
  {
    PrunedSmaller(s, now);
  }

  /** A newcomer that makes no call of its own. */
  lemma NewCallerKeeps(s: State, c: nat, v: Caller)
    requires Inv(s) && c !in s.callers
    requires v.InvalidId? || v.InProgress? || (v.Waiting? && v.call < |s.calls|)
    ensures Inv(s.(callers := s.callers[c := v]))
  {
    var t := s.(callers := s.callers[c := v]);
    assert TableOk(t) && ActiveOk(t) && Retained(t) && Apart(t);
  }

  /** A waiting caller is answered from its finished call, or gives up. */
  lemma WaiterKeeps(s: State, c: nat, v: Caller)
    requires Inv(s) && c in s.callers && s.callers[c].Waiting? && s.callers[c].call < |s.calls|
    requires v.GaveUp? || (s.calls[s.callers[c].call].done && v == Answered(s.callers[c].call, s.calls[s.callers[c].call].result))
    ensures Inv(s.(callers := s.callers[c := v]))
  {
    var t := s.(callers := s.callers[c := v]);
    assert TableOk(t) && ActiveOk(t) && Retained(t) && Apart(t);
  }

  /** A call that begins. */
  function Begun(s: State, c: nat, key: Key, now: int): State {
    State(s.table[key := |s.calls|], s.active[key.credential := |s.calls|], s.calls + [Call(key, c, now, false, "", 0)],
          s.callers[c := Calling(|s.calls|)], now)
  }

  ghost predicate MayBegin(s: State, c: nat, key: Key, now: int) {
    Inv(s) && s.clock == now && c !in s.callers && key !in s.table && key.credential !in s.active && |s.table| < MAX_CALLS
  }

  lemma BegunTable(s: State, c: nat, key: Key, now: int)
    requires MayBegin(s, c, key, now)
    ensures TableOk(Begun(s, c, key, now))
  {
    assert Begun(s, c, key, now).table.Keys == s.table.Keys + {key};
  }

  lemma BegunActive(s: State, c: nat, key: Key, now: int)
    requires MayBegin(s, c, key, now)
    ensures ActiveOk(Begun(s, c, key, now))
  {
  }

  lemma BegunRetained(s: State, c: nat, key: Key, now: int)
    requires MayBegin(s, c, key, now)
    ensures Retained(Begun(s, c, key, now))
  {
  }

  lemma BegunApart(s: State, c: nat, key: Key, now: int)
    requires MayBegin(s, c, key, now)
    ensures Apart(Begun(s, c, key, now))
  {
    var calls := Begun(s, c, key, now).calls;
    forall m, n | 0 <= m < n < |calls| && calls[m].key == calls[n].key ensures calls[m].done && calls[m].expires < calls[n].started {
      if n == |s.calls| { assert s.calls[m].key == key; }
    }
  }

  lemma BegunCallers(s: State, c: nat, key: Key, now: int)
    requires MayBegin(s, c, key, now)
    ensures CallersOk(Begun(s, c, key, now))
  {
  }

  lemma EnterKeeps(s: State, c: nat, key: Key, wellFormed: bool, now: int)
    requires Inv(s) && c !in s.callers && now >= s.clock
    ensures Inv(EnterStep(s, c, key, wellFormed, now))
  {
    if !wellFormed {
      NewCallerKeeps(s, c, InvalidId);
      ClockKeeps(s.(callers := s.callers[c := InvalidId]), now);
    } else {
      PruneKeeps(s, now);
      var p := s.(table := Pruned(s, now), clock := now);
      if key in p.table {
        NewCallerKeeps(p, c, Waiting(p.table[key]));
      } else if key.credential in s.active || |p.table| >= MAX_CALLS {
        NewCallerKeeps(p, c, InProgress);
      } else {
        BegunTable(p, c, key, now);
        BegunActive(p, c, key, now);
        BegunRetained(p, c, key, now);
        BegunApart(p, c, key, now);
        BegunCallers(p, c, key, now);
        assert EnterStep(s, c, key, wellFormed, now) == Begun(p, c, key, now);
      }
    }
  }

  lemma ClockKeeps(s: State, now: int)
    requires Inv(s) && now >= s.clock
    ensures Inv(s.(clock := now))
  {
  }

  lemma FinishedActive(s: State, c: nat, result: string, now: int)
    requires Inv(s) && Enabled(s, Finish(c, result, now))
    ensures ActiveOk(FinishStep(s, c, result, now))
  {
  }

  lemma FinishedApart(s: State, c: nat, result: string, now: int)
    requires Inv(s) && Enabled(s, Finish(c, result, now))
    ensures Apart(FinishStep(s, c, result, now))
  {
    var n, t := s.callers[c].call, FinishStep(s, c, result, now);
    forall i, j | 0 <= i < j < |t.calls| && t.calls[i].key == t.calls[j].key ensures t.calls[i].done && t.calls[i].expires < t.calls[j].started {
      assert s.calls[i].key == s.calls[j].key && s.calls[i].done && i != n;
    }
  }

  lemma FinishedCallers(s: State, c: nat, result: string, now: int)
    requires Inv(s) && Enabled(s, Finish(c, result, now))
    ensures CallersOk(FinishStep(s, c, result, now))
  {
    var n, t := s.callers[c].call, FinishStep(s, c, result, now);
    forall d | d in t.callers && t.callers[d].Calling? ensures t.callers[d].call != n && d != c {
      assert s.callers[d] == t.callers[d];
    }
  }

  lemma FinishedRest(s: State, c: nat, result: string, now: int)
    requires Inv(s) && Enabled(s, Finish(c, result, now))
    ensures TableOk(FinishStep(s, c, result, now)) && Retained(FinishStep(s, c, result, now))
  {
  }

  lemma KeepsInv(s: State, a: Action)
    requires Inv(s) && Enabled(s, a)
    ensures Inv(Apply(s, a))
  {
    match a
    case Enter(c, key, wellFormed, now) => EnterKeeps(s, c, key, wellFormed, now);
    case Finish(c, result, now) =>
      FinishedActive(s, c, result, now);
      FinishedApart(s, c, result, now);
      FinishedCallers(s, c, result, now);
      FinishedRest(s, c, result, now);
    case Wake(c) => WaiterKeeps(s, c, Answered(s.callers[c].call, s.calls[s.callers[c].call].result));
    case GiveUp(c) => WaiterKeeps(s, c, GaveUp);
  }

  lemma {:induction false} EveryRun(actions: seq<Action>)
    ensures Inv(Run(actions))
  {
    if actions != [] {
      EveryRun(actions[..|actions| - 1]);
      var s, a := Run(actions[..|actions| - 1]), actions[|actions| - 1];
      if Enabled(s, a) { KeepsInv(s, a); }
    }
  }

  // ---- the guarantees ----

  predicate InFlight(s: State, n: nat, credential: string) {
    n < |s.calls| && !s.calls[n].done && s.calls[n].key.credential == credential
  }

  /** active is exactly the credentials that have a call in flight. */
  lemma ActiveIffInFlight(actions: seq<Action>, credential: string)
    ensures credential in Run(actions).active <==> exists n :: InFlight(Run(actions), n, credential)
  {
    EveryRun(actions);
    var s := Run(actions);
    if credential in s.active { assert InFlight(s, s.active[credential], credential); }
  }

  /** At most one call per credential is in flight. */
  lemma OneCallInFlight(actions: seq<Action>, m: nat, n: nat)
    requires m < |Run(actions).calls| && n < |Run(actions).calls|
    requires !Run(actions).calls[m].done && !Run(actions).calls[n].done
    requires Run(actions).calls[m].key.credential == Run(actions).calls[n].key.credential
    ensures m == n && Run(actions).calls[m].key.credential in Run(actions).active
  {
    EveryRun(actions);
  }

  lemma TableIsBounded(actions: seq<Action>)
    ensures |Run(actions).table| <= MAX_CALLS
  {
    EveryRun(actions);
  }

  /** Two upstream calls for the same request are more than the retention time apart. */
  lemma CallsAreApart(actions: seq<Action>, m: nat, n: nat)
    requires m < n < |Run(actions).calls| && Run(actions).calls[m].key == Run(actions).calls[n].key
    ensures Run(actions).calls[m].done && Run(actions).calls[m].expires < Run(actions).calls[n].started
  {
    EveryRun(actions);
  }

  /**
   A repeat within the retention time, or while the call is still running, makes
   no upstream call; once the call is done it is answered with the call's result.
   */
  lemma RepeatIsAnsweredFromTheCall(actions: seq<Action>, n: nat, c: nat, now: int)
    requires n < |Run(actions).calls| && Enabled(Run(actions), Enter(c, Run(actions).calls[n].key, true, now))
    requires Run(actions).calls[n].done ==> now <= Run(actions).calls[n].expires
    ensures var s, t := Run(actions), Apply(Run(actions), Enter(c, Run(actions).calls[n].key, true, now));
            && t.calls == s.calls && t.callers[c] == Waiting(n)
            && (s.calls[n].done ==> Enabled(t, Wake(c)) && Apply(t, Wake(c)).callers[c] == Answered(n, s.calls[n].result))
  {
    EveryRun(actions);
  }

  /** Whoever was answered holds the result its call ended with. */
  lemma AnswersAgree(actions: seq<Action>, c: nat, d: nat)
    requires c in Run(actions).callers && d in Run(actions).callers
    requires Run(actions).callers[c].Answered? && Run(actions).callers[d].Answered?
    requires Run(actions).callers[c].call == Run(actions).callers[d].call
    ensures Run(actions).callers[c] == Run(actions).callers[d]
  {
    EveryRun(actions);
  }

  // ---- every answer is what upstream returned ----

  /** An upstream call has returned: which, to whom, with what and when. */
  datatype Returned = Returned(call: nat, caller: nat, result: string, now: int)

  /** What the upstream calls of a run have returned, read off its actions. */
  function Returns(actions: seq<Action>): seq<Returned> {
    if actions == [] then []
    else
      var init, a := actions[..|actions| - 1], actions[|actions| - 1];
      var s := Run(init);
      Returns(init) + if a.Finish? && Enabled(s, a) then [Returned(s.callers[a.c].call, a.c, a.result, a.now)] else []
  }

  /** The call returned this result to the caller who made it, and it is kept for fifteen minutes from then. */
  predicate ReturnedAt(s: State, log: seq<Returned>, n: nat, k: nat) {
    && k < |log| && n < |s.calls|
    && log[k].call == n && log[k].caller == s.calls[n].caller && log[k].result == s.calls[n].result
    && s.calls[n].expires == log[k].now + 15 * 60 * 1_000_000_000
  }

  ghost predicate DoneAsReturned(s: State, log: seq<Returned>, n: nat) {
    n < |s.calls| && s.calls[n].done ==> exists k :: ReturnedAt(s, log, n, k)
  }

  ghost predicate AllDoneAsReturned(s: State, log: seq<Returned>) { forall n :: 0 <= n < |s.calls| ==> DoneAsReturned(s, log, n) }

  lemma ReturnedStays(s: State, t: State, before: seq<Returned>, after: seq<Returned>, n: nat)
    requires DoneAsReturned(s, before, n) && before <= after && n < |s.calls| <= |t.calls| && t.calls[n] == s.calls[n]
    ensures DoneAsReturned(t, after, n)
  {
    if s.calls[n].done {
      var k :| ReturnedAt(s, before, n, k);
      assert ReturnedAt(t, after, n, k);
    }
  }

  lemma ReturnStep(s: State, a: Action, before: seq<Returned>)
    requires Inv(s) && Enabled(s, a) && AllDoneAsReturned(s, before)
    ensures var after := before + if a.Finish? then [Returned(s.callers[a.c].call, a.c, a.result, a.now)] else [];
            AllDoneAsReturned(Apply(s, a), after)
  {
    var t := Apply(s, a);
    var after := before + if a.Finish? then [Returned(s.callers[a.c].call, a.c, a.result, a.now)] else [];
    forall n | 0 <= n < |t.calls| ensures DoneAsReturned(t, after, n) {
      if a.Finish? && s.callers[a.c].call == n {
        assert ReturnedAt(t, after, n, |before|);
      } else if n < |s.calls| {
        ReturnedStays(s, t, before, after, n);
      }
    }
  }

  lemma {:induction false} CallsDoneAsReturned(actions: seq<Action>)
    ensures AllDoneAsReturned(Run(actions), Returns(actions))
  {
    if actions != [] {
      var init, a := actions[..|actions| - 1], actions[|actions| - 1];
      CallsDoneAsReturned(init);
      EveryRun(init);
      if Enabled(Run(init), a) {
        ReturnStep(Run(init), a, Returns(init));
      } else {
        assert Returns(init) + [] == Returns(init);
      }
    }
  }

  /** In every run, whoever was answered from a call holds what upstream returned to the caller who made it. */
  lemma AnsweredAsReturned(actions: seq<Action>, c: nat)
    requires c in Run(actions).callers && Run(actions).callers[c].Answered?
    ensures var s := Run(actions);
            var n := s.callers[c].call;
            && n < |s.calls| && s.calls[n].result == s.callers[c].result
            && exists k :: ReturnedAt(s, Returns(actions), n, k)
  {
    EveryRun(actions);
    CallsDoneAsReturned(actions);
    assert CallerOk(Run(actions).callers[c], c, Run(actions).calls);
    assert DoneAsReturned(Run(actions), Returns(actions), Run(actions).callers[c].call);
  }

  // ---- what a newcomer is told ----

  /** The call is unfinished, or its result still kept. */
  predicate Keeps(s: State, n: nat, now: int) { n < |s.calls| && (!s.calls[n].done || now <= s.calls[n].expires) }

  function KeptCalls(s: State, now: int): set<nat> { set n: nat | n < |s.calls| && Keeps(s, n, now) }

  predicate KeptFor(s: State, n: nat, key: Key, now: int) { Keeps(s, n, now) && s.calls[n].key == key }

  lemma {:induction false} AsManyValues(m: map<Key, nat>)
    requires forall j, k :: j in m && k in m && m[j] == m[k] ==> j == k
    ensures |m.Values| == |m|
    decreases |m|
  {
    if m != map[] {
      var k :| k in m;
      var rest := m - {k};
      AsManyValues(rest);
      assert rest.Keys == m.Keys - {k};
      assert m.Values == rest.Values + {m[k]} by {
        forall v | v in m.Values ensures v in rest.Values + {m[k]} {
          var j :| j in m && m[j] == v;
          if j != k { assert rest[j] == v; }
        }
      }
      assert m[k] !in rest.Values;
    }
  }

  /** The pruned table holds each call that is kept, once. */
  lemma PrunedIsKept(s: State, now: int)
    requires Inv(s) && now >= s.clock
    ensures |Pruned(s, now)| == |KeptCalls(s, now)|
  {
    var p := Pruned(s, now);
    AsManyValues(p);
    forall n | n in KeptCalls(s, now) ensures n in p.Values {
      assert s.calls[n].key in p && p[s.calls[n].key] == n;
    }
    assert p.Values == KeptCalls(s, now);
  }

  /**
   What a newcomer is told, in every run: a malformed id is refused; a kept call for the same key is waited for; with the
   credential's call in flight, or 1024 calls kept, it is told to retry; otherwise it makes the upstream call.
   */
  lemma NewcomerIsTold(actions: seq<Action>, c: nat, key: Key, wellFormed: bool, now: int)
    requires Enabled(Run(actions), Enter(c, key, wellFormed, now))
    ensures var s, who := Run(actions), Apply(Run(actions), Enter(c, key, wellFormed, now)).callers[c];
            && (!wellFormed ==> who == InvalidId)
            && (forall n :: wellFormed && KeptFor(s, n, key, now) ==> who == Waiting(n))
            && (wellFormed && (forall n :: !KeptFor(s, n, key, now)) ==>
                  who == if (exists n :: InFlight(s, n, key.credential)) || |KeptCalls(s, now)| >= 1024 then InProgress else Calling(|s.calls|))
  {
    EveryRun(actions);
    var s := Run(actions);
    ActiveIffInFlight(actions, key.credential);
    PrunedIsKept(s, now);
    var p := Pruned(s, now);
    if key in p { assert KeptFor(s, p[key], key, now); }
    forall n | KeptFor(s, n, key, now) ensures key in p && p[key] == n { }
  }

  // ---- the two critical sections of consume ----

  class QuotaResetState {
    var table: map<Key, nat>
    var active: map<string, nat>
    var calls: seq<Call>
    /** Where every caller is, and the latest clock reading. */
    ghost var callers: map<nat, Caller>
    ghost var clock: int

    ghost function View(): State reads this { State(table, active, calls, callers, clock) }

    constructor ()
      ensures View() == Run([])
    {
      table, active, calls, callers, clock := map[], map[], [], map[], 0;
    }

    method Prune(now: int)
      requires TableOk(View())
      modifies this`table
      ensures table == Pruned(old(View()), now)
    {
      var todo := table.Keys;
      while todo != {}
        invariant todo <= table.Keys && table.Keys <= old(table).Keys
        invariant forall k :: k in table ==> table[k] == old(table)[k]
        invariant forall k :: k in old(table) && k !in table ==> Expired(calls[old(table)[k]], now)
        invariant forall k :: k in table && k !in todo ==> !Expired(calls[table[k]], now)
      {
        var key :| key in todo;
        todo := todo - {key};
        if calls[table[key]].done && now > calls[table[key]].expires { table := table - {key}; }
      }
    }

    /** From entering to either an answer, a call to wait for, or the decision to make the call. */
    method Begin(c: nat, key: Key, wellFormed: bool, now: int) returns (who: Caller)
      requires TableOk(View())
      modifies this
      ensures View() == EnterStep(old(View()), c, key, wellFormed, now)
      ensures who == View().callers[c]
    {
      if !wellFormed {
        who := InvalidId;
      } else {
        Prune(now);
        if key in table {
          who := Waiting(table[key]);
        } else if key.credential in active || |table| >= MAX_CALLS {
          who := InProgress;
        } else {
          who := Calling(|calls|);
          table := table[key := |calls|];
          active := active[key.credential := |calls|];
          calls := calls + [Call(key, c, now, false, "", 0)];
        }
      }
      callers, clock := callers[c := who], now;
    }

    /** After the upstream call has returned. */
    method Complete(ghost c: nat, n: nat, result: string, now: int)
      requires Enabled(View(), Finish(c, result, now)) && callers[c].call == n
      modifies this
      ensures View() == FinishStep(old(View()), c, result, now)
      ensures n < |calls| && calls[n].done && calls[n].result == result && callers[c] == Answered(n, result)
      ensures calls[n].key.credential !in active
    {
      calls := calls[n := calls[n].(done := true, result := result, expires := now + RETENTION)];
      active := active - {calls[n].key.credential};
      callers, clock := callers[c := Answered(n, result)], now;
    }
  }
}
