/** One refresh at a time per OAuth credential (internal/auth/manager.go). */
module RefreshFlight {
  // The state is what the callers of one credential share: the stored credential,
  // the refresh slot and the published calls. Every action is one atomic step of
  // one caller (a critical section, a store access, or the provider's answer), or
  // somebody else writing the credential; a run is any interleaving of them.

  import opened Wrappers

  /** Empty strings stand for tokens that are absent, None for times that are zero. */
  datatype Token = Token(access: string, refresh: string, expires: Option<int>, refreshedAt: Option<int>)
  datatype Credential = Credential(provider: string, authType: string, secret: string, token: Option<Token>, createdAt: Option<int>)

  datatype Error = AuthorizationRequired | StoreFailed | ExchangeFailed | Cancelled

  type Outcome = Result<Credential, Error>

  // ---- when a token is due ----

  const HOUR: int := 3_600_000_000_000
  const DEFAULT_MAX_AGE: int := 48 * HOUR
  const DEFAULT_HARD_MAX_AGE: int := 72 * HOUR

  /** A configured duration counts only if it is positive. */
  function Positive(configured: Option<int>, fallback: int): int {
    if configured.Some? && configured.value > 0 then configured.value else fallback
  }

  function MaxAge(soft: Option<int>): int { Positive(soft, DEFAULT_MAX_AGE) }

  /** The request path never refreshes ahead of the background loop. */
  function HardMaxAge(soft: Option<int>, hard: Option<int>): (age: int)
    ensures age >= MaxAge(soft) > 0
    ensures var s, h := if soft.Some? && soft.value > 0 then soft.value else 48 * HOUR, if hard.Some? && hard.value > 0 then hard.value else 72 * HOUR;
            age >= s && age >= h && age in {s, h}
  {
    var h := Positive(hard, DEFAULT_HARD_MAX_AGE);
    if h < MaxAge(soft) then MaxAge(soft) else h
  }

  datatype Policy = Policy(provider: string, window: int, soft: Option<int>, hard: Option<int>)

  function RefreshedAt(c: Credential): Option<int> {
    if c.token.Some? && c.token.value.refreshedAt.Some? then c.token.value.refreshedAt else c.createdAt
  }

  predicate OlderThan(c: Credential, limit: int, now: int) {
    c.token.Some? && c.token.value.refresh != "" && (RefreshedAt(c).None? || now - RefreshedAt(c).value >= limit)
  }

  predicate ExpiryOk(t: Token, window: int, now: int) { t.expires.None? || t.expires.value > now + window }

  /** The token may be used as it is. */
  predicate Fresh(c: Credential, p: Policy, now: int) {
    c.token.Some? && ExpiryOk(c.token.value, p.window, now) && !OlderThan(c, HardMaxAge(p.soft, p.hard), now)
  }

  /** A token that is fresh at some time was fresh at every time before. */
  lemma FreshEarlier(c: Credential, p: Policy, early: int, late: int)
    requires Fresh(c, p, late) && early <= late
    ensures Fresh(c, p, early)
  {
  }

  predicate TokenChanged(a: Credential, b: Credential) {
    if a.token.None? || b.token.None? then a.token.Some? || b.token.Some? || a.secret != b.secret
    else a.token.value.access != b.token.value.access || a.token.value.refresh != b.token.value.refresh
  }

  predicate AccessChanged(a: Credential, b: Credential) {
    if a.token.Some? && b.token.Some? then a.token.value.access != b.token.value.access else a.secret != b.secret
  }

  // ---- the callers and what they share ----

  datatype Caller =
    | Arrived(seen: Credential, force: bool)
    | Reading(seen: Credential, force: bool)                       // found no refresh under way
    | Taking(seen: Credential, force: bool, cred: Credential)      // needs a refresh: about to take the slot
    | Leading(seen: Credential, force: bool, cred: Credential)     // holds the slot: about to read again
    | Exchanging(cred: Credential, base: nat)                      // has sent the refresh token of generation base
    | Writing(cred: Credential, base: nat, token: Token)           // has new tokens to store
    | Publishing(result: Outcome)
    | Waiting(call: nat)
    | Finished(via: Option<nat>, answer: Outcome)

  datatype Slot = Slot(call: nat, owner: nat)

  /** An exchange request: who sent which token, when, and what it was asked for. */
  datatype Sent = Sent(base: nat, refresh: string, seen: Credential, force: bool, now: int)

  datatype State = State(
    store: seq<Credential>,        // every generation of the stored credential; the last is current
    slot: Option<Slot>,
    published: map<nat, Outcome>,  // finished calls
    nextCall: nat,
    callers: map<nat, Caller>,
    sent: seq<Sent>,
    refreshed: seq<nat>,           // the generations that were exchanged and replaced, in order
    clock: int)                    // the latest clock reading

  datatype Action =
    | Arrive(c: nat, seen: Credential, force: bool)
    | Check(c: nat)
    | Read(c: nat, ok: bool, now: int)
    | Take(c: nat)
    | ReadAgain(c: nat, ok: bool, now: int)
    | Exchange(c: nat, answer: Option<Token>, now: int)
    | Write(c: nat, ok: bool)
    | Publish(c: nat)
    | Wake(c: nat)
    | GiveUp(c: nat)
    | External(cred: Credential)

  function Current(s: State): Credential requires s.store != [] { s.store[|s.store| - 1] }

  function Generation(s: State): nat requires s.store != [] { |s.store| - 1 }

  /** A stored credential's secret is its access token. */
  predicate Consistent(c: Credential) { c.token.Some? ==> c.secret == c.token.value.access }

  /** The access token has never been stored before. */
  predicate Unused(s: State, access: string) { forall g :: 0 <= g < |s.store| ==> s.store[g].secret != access }

  predicate Enabled(s: State, a: Action) {
    match a
    case Arrive(c, _, _) => c !in s.callers
    case External(cred) => Consistent(cred) && Unused(s, cred.secret)
    case Check(c) => c in s.callers && s.callers[c].Arrived?
    case Read(c, _, _) => c in s.callers && s.callers[c].Reading?
    case Take(c) => c in s.callers && s.callers[c].Taking?
    case ReadAgain(c, _, _) => c in s.callers && s.callers[c].Leading?
    case Exchange(c, answer, _) => c in s.callers && s.callers[c].Exchanging? && (answer.Some? ==> Unused(s, answer.value.access))
    case Write(c, ok) => c in s.callers && s.callers[c].Writing? && (ok ==> Unused(s, s.callers[c].token.access))
    case Publish(c) => c in s.callers && s.callers[c].Publishing?
    case Wake(c) => c in s.callers && s.callers[c].Waiting? && s.callers[c].call in s.published
    case GiveUp(c) => c in s.callers && s.callers[c].Waiting?
  }

  function Max(a: int, b: int): int { if a < b then b else a }

  function Put(s: State, c: nat, v: Caller): State { s.(callers := s.callers[c := v]) }

  /** The decision after the first read of the store. */
  function Decide(p: Policy, seen: Credential, force: bool, current: Credential, now: int): Caller {
    if current.provider != p.provider || current.authType != "oauth" then Finished(None, Err(AuthorizationRequired))
    else
      var f := force && !AccessChanged(seen, current);
      var cred := if current.token.Some? then current else current.(token := Some(Token(current.secret, "", None, None)));
      if cred.token.value.access == "" then Finished(None, Err(AuthorizationRequired))
      else if !f && Fresh(cred, p, now) then Finished(None, Ok(cred))
      else if cred.token.value.refresh == "" then Finished(None, Err(AuthorizationRequired))
      else Taking(seen, f, cred)
  }

  /** The credential the leader goes by after reading again, and whether it is still asked to force. */
  function Reread(cred: Credential, current: Credential): Credential {
    if TokenChanged(cred, current) then current else cred
  }

  function StillForced(force: bool, cred: Credential, current: Credential): bool {
    force && !(TokenChanged(cred, current) && AccessChanged(cred, current))
  }

  function ReadAgainStep(p: Policy, s: State, c: nat, ok: bool, now: int): State
    requires s.store != [] && c in s.callers && s.callers[c].Leading?
  {
    var l := s.callers[c];
    var s1 := s.(clock := Max(s.clock, now));
    if !ok then Put(s1, c, Publishing(Err(StoreFailed)))
    else
      var cred := Reread(l.cred, Current(s));
      var force := StillForced(l.force, l.cred, Current(s));
      if cred.provider != p.provider || cred.authType != "oauth" || cred.token.None? then
        Put(s1, c, Publishing(Err(AuthorizationRequired)))
      else if !force && Fresh(cred, p, now) then Put(s1, c, Publishing(Ok(cred)))
      else Put(s1, c, Exchanging(cred, Generation(s))).(sent := s.sent + [Sent(Generation(s), cred.token.value.refresh, l.seen, force, now)])
  }

  /** The provider may leave the refresh token as it was. */
  function Renewed(was: Token, answer: Token, now: int): Token {
    answer.(refresh := if answer.refresh == "" then was.refresh else answer.refresh, refreshedAt := Some(now))
  }

  function WithToken(c: Credential, t: Token): Credential { c.(secret := t.access, token := Some(t)) }

  function Apply(p: Policy, s: State, a: Action): State
    requires s.store != [] && Enabled(s, a)
  {
    match a
    case Arrive(c, seen, force) => Put(s, c, Arrived(seen, force))
    case External(cred) => s.(store := s.store + [cred])
    case Check(c) =>
      if s.slot.Some? then Put(s, c, Waiting(s.slot.value.call)) else Put(s, c, Reading(s.callers[c].seen, s.callers[c].force))
    case Read(c, ok, now) =>
      var next := if ok then Decide(p, s.callers[c].seen, s.callers[c].force, Current(s), now) else Finished(None, Err(StoreFailed));
      Put(s, c, next).(clock := Max(s.clock, now))
    case Take(c) =>
      if s.slot.Some? then Put(s, c, Waiting(s.slot.value.call))
      else Put(s, c, Leading(s.callers[c].seen, s.callers[c].force, s.callers[c].cred)).(
             slot := Some(Slot(s.nextCall, c)), nextCall := s.nextCall + 1)
    case ReadAgain(c, ok, now) => ReadAgainStep(p, s, c, ok, now)
    case Exchange(c, answer, now) =>
      var e := s.callers[c];
      if answer.None? || e.cred.token.None? then Put(s, c, Publishing(Err(ExchangeFailed)))
      else Put(s, c, Writing(e.cred, e.base, Renewed(e.cred.token.value, answer.value, now))).(clock := Max(s.clock, now))
    case Write(c, ok) =>
      var w := s.callers[c];
      if !ok then Put(s, c, Publishing(Err(StoreFailed)))
      else Put(s, c, Publishing(Ok(WithToken(w.cred, w.token)))).(
             store := s.store + [WithToken(Current(s), w.token)], refreshed := s.refreshed + [w.base])
    case Publish(c) =>
      if s.slot.None? then s
      else Put(s, c, Finished(Some(s.slot.value.call), s.callers[c].result)).(
             published := s.published[s.slot.value.call := s.callers[c].result], slot := None)
    case Wake(c) => Put(s, c, Finished(Some(s.callers[c].call), s.published[s.callers[c].call]))
    case GiveUp(c) => Put(s, c, Finished(None, Err(Cancelled)))
  }

  function Initial(cred: Credential): State { State([cred], None, map[], 0, map[], [], [], 0) }

  /** A run from a stored credential: steps that cannot be taken when their turn comes are passed over. */
  function Run(p: Policy, cred: Credential, actions: seq<Action>): (s: State)
    ensures s.store != []
  {
    if actions == [] then Initial(cred)
    else
      var s, a := Run(p, cred, actions[..|actions| - 1]), actions[|actions| - 1];
      if Enabled(s, a) then Apply(p, s, a) else s
  }

  // ---- what every run keeps ----

  /** Stored access tokens are all different. */
  ghost predicate StoreOk(s: State) {
    && s.store != []
    && (forall g :: 0 <= g < |s.store| ==> Consistent(s.store[g]))
    && (forall g, h :: 0 <= g < h < |s.store| ==> s.store[g].secret != s.store[h].secret)
  }

  predicate Leads(v: Caller) { v.Leading? || v.Exchanging? || v.Writing? || v.Publishing? }

  /** The slot's owner is the one and only leader. */
  ghost predicate OneLeader(s: State) {
    forall c :: c in s.callers && Leads(s.callers[c]) <==> s.slot.Some? && s.slot.value.owner == c
  }

  /** The credential a caller means to refresh was stored; a caller is still forced only if that is what it had seen. */
  ghost predicate Chosen(s: State, seen: Credential, force: bool, cred: Credential) {
    && cred.token.Some? && Consistent(cred)
    && (exists g :: 0 <= g < |s.store| && s.store[g] == cred)
    && (force ==> !AccessChanged(seen, cred))
  }

  /** Where every caller stands. */
  ghost predicate CallerOk(s: State, c: nat) {
    c in s.callers ==>
      match s.callers[c]
      case Taking(seen, force, cred) => Chosen(s, seen, force, cred)
      case Leading(seen, force, cred) => Chosen(s, seen, force, cred)
      case Exchanging(cred, base) => base < |s.store| && Newer(s, base) && WasSent(s, base)
      case Writing(cred, base, _) => base < |s.store| && Newer(s, base) && WasSent(s, base)
      case Waiting(call) => call < s.nextCall
      case Finished(Some(call), result) => call in s.published && s.published[call] == result
      case _ => true
  }

  /** The generation is later than every one refreshed so far. */
  ghost predicate Newer(s: State, base: nat) { forall k :: 0 <= k < |s.refreshed| ==> s.refreshed[k] < base }

  /** The generation's refresh token has been sent. */
  ghost predicate WasSent(s: State, base: nat) { exists k :: 0 <= k < |s.sent| && s.sent[k].base == base }

  /** Refreshed generations are past ones, each refreshed once. */
  ghost predicate RefreshedOk(s: State) {
    && (forall k :: 0 <= k < |s.refreshed| ==> s.refreshed[k] < |s.store| - 1 && WasSent(s, s.refreshed[k]))
    && (forall j, k :: 0 <= j < k < |s.refreshed| ==> s.refreshed[j] < s.refreshed[k])
  }

  /** What was sent was stored, and there was a reason to send it. */
  ghost predicate SentOk(p: Policy, s: State, x: Sent) {
    && x.base < |s.store| && s.store[x.base].token.Some? && x.refresh == s.store[x.base].token.value.refresh
    && x.now <= s.clock
    && ((x.force && !AccessChanged(x.seen, s.store[x.base])) || !Fresh(s.store[x.base], p, x.now))
  }

  ghost predicate CallsOk(s: State) {
    && (forall call :: call in s.published ==> call < s.nextCall)
    && (s.slot.Some? ==> s.slot.value.call < s.nextCall && s.slot.value.call !in s.published)
  }

  ghost predicate Inv(p: Policy, s: State) {
    && StoreOk(s) && OneLeader(s) && RefreshedOk(s) && CallsOk(s)
    && (forall c :: CallerOk(s, c))
    && (forall k :: 0 <= k < |s.sent| ==> SentOk(p, s, s.sent[k]))
  }

  /** A stored credential is found again by its access token. */
  lemma SameGeneration(s: State, g: nat, h: nat)
    requires StoreOk(s) && g < |s.store| && h < |s.store| && s.store[g].secret == s.store[h].secret
    ensures g == h
  {
  }

  /** After reading again the leader goes by the current credential, and is forced only if that is what it had seen. */
  lemma RereadIsCurrent(s: State, seen: Credential, force: bool, cred: Credential)
    requires StoreOk(s) && Chosen(s, seen, force, cred)
    ensures Reread(cred, Current(s)) == Current(s)
    ensures StillForced(force, cred, Current(s)) ==> !AccessChanged(seen, Current(s))
  {
    var g :| 0 <= g < |s.store| && s.store[g] == cred;
    assert Consistent(s.store[g]) && Consistent(Current(s));
    if cred.secret == Current(s).secret { SameGeneration(s, g, Generation(s)); }
  }

  // ---- one step ----

  /** The store only grows, and so do the published calls. */
  ghost predicate Grown(s: State, t: State) {
    && |s.store| <= |t.store| && t.store[..|s.store|] == s.store
    && (forall call :: call in s.published ==> call in t.published && t.published[call] == s.published[call])
    && t.refreshed == s.refreshed && s.nextCall <= t.nextCall && s.clock <= t.clock
    && |s.sent| <= |t.sent| && t.sent[..|s.sent|] == s.sent
  }

  lemma ChosenStays(s: State, t: State, seen: Credential, force: bool, cred: Credential)
    requires Chosen(s, seen, force, cred) && |s.store| <= |t.store| && t.store[..|s.store|] == s.store
    ensures Chosen(t, seen, force, cred)
  {
    var g :| 0 <= g < |s.store| && s.store[g] == cred;
    assert t.store[..|s.store|][g] == t.store[g];
  }

  /** Callers that did not move are still where the invariant wants them. */
  lemma OthersStay(s: State, t: State, c: nat)
    requires Grown(s, t) && CallerOk(s, c) && (c in t.callers ==> c in s.callers && t.callers[c] == s.callers[c])
    ensures CallerOk(t, c)
  {
    if c in t.callers {
      var v := t.callers[c];
      if v.Taking? || v.Leading? { ChosenStays(s, t, v.seen, v.force, v.cred); }
      if v.Exchanging? || v.Writing? { WasSentStays(s, t, v.base); }
    }
  }

  lemma WasSentStays(s: State, t: State, base: nat)
    requires WasSent(s, base) && |s.sent| <= |t.sent| && t.sent[..|s.sent|] == s.sent
    ensures WasSent(t, base)
  {
    var k :| 0 <= k < |s.sent| && s.sent[k].base == base;
    assert t.sent[..|s.sent|][k] == t.sent[k];
  }

  lemma SentStays(p: Policy, s: State, t: State, x: Sent)
    requires SentOk(p, s, x) && |s.store| <= |t.store| && t.store[..|s.store|] == s.store && s.clock <= t.clock
    ensures SentOk(p, t, x)
  {
    assert t.store[..|s.store|][x.base] == t.store[x.base];
  }

  /** A step of caller c that leaves store, slot and logs alone. */
  lemma LocalStep(p: Policy, s: State, t: State, c: nat, v: Caller)
    requires Inv(p, s) && t == s.(callers := s.callers[c := v], clock := t.clock) && s.clock <= t.clock
    requires Leads(v) <==> c in s.callers && Leads(s.callers[c])
    requires CallerOk(t, c)
    ensures Inv(p, t)
  {
    forall d ensures CallerOk(t, d) { if d != c { OthersStay(s, t, d); } }
    forall d ensures d in t.callers && Leads(t.callers[d]) <==> t.slot.Some? && t.slot.value.owner == d {
      assert d in s.callers && Leads(s.callers[d]) <==> s.slot.Some? && s.slot.value.owner == d;
    }
    forall k | 0 <= k < |t.sent| ensures SentOk(p, t, t.sent[k]) { SentStays(p, s, t, s.sent[k]); }
  }

  lemma DecideIsChosen(p: Policy, s: State, seen: Credential, force: bool, now: int)
    requires StoreOk(s)
    ensures var v := Decide(p, seen, force, Current(s), now);
            && (v.Taking? ==> Chosen(s, v.seen, v.force, v.cred))
            && (v.Taking? || (v.Finished? && v.via.None?))
  {
    var cur := Current(s);
    assert s.store[Generation(s)] == cur && Consistent(cur);
  }

  lemma TakeStep(p: Policy, s: State, c: nat)
    requires Inv(p, s) && Enabled(s, Take(c))
    ensures Inv(p, Apply(p, s, Take(c)))
  {
    var t, v := Apply(p, s, Take(c)), s.callers[c];
    if s.slot.Some? {
      assert CallerOk(t, c);
      LocalStep(p, s, t, c, Waiting(s.slot.value.call));
    } else {
      assert CallerOk(s, c);
      ChosenStays(s, t, v.seen, v.force, v.cred);
      forall d ensures CallerOk(t, d) { if d != c { OthersStay(s, t, d); } }
      forall d ensures d in t.callers && Leads(t.callers[d]) <==> d == c {
        assert !(d in s.callers && Leads(s.callers[d]));
      }
      forall k | 0 <= k < |t.sent| ensures SentOk(p, t, t.sent[k]) { SentStays(p, s, t, s.sent[k]); }
    }
  }

  lemma ReadAgainKeeps(p: Policy, s: State, c: nat, ok: bool, now: int)
    requires Inv(p, s) && Enabled(s, ReadAgain(c, ok, now))
    ensures Inv(p, Apply(p, s, ReadAgain(c, ok, now)))
  {
    var l, t := s.callers[c], ReadAgainStep(p, s, c, ok, now);
    assert CallerOk(s, c);
    RereadIsCurrent(s, l.seen, l.force, l.cred);
    if t.sent == s.sent {
      LocalStep(p, s, t, c, t.callers[c]);
    } else {
      var x := Sent(Generation(s), Current(s).token.value.refresh, l.seen, StillForced(l.force, l.cred, Current(s)), now);
      assert t.sent == s.sent + [x];
      SentEntered(p, s, s.(sent := t.sent, clock := t.clock), x);
      var u := s.(sent := t.sent, clock := t.clock);
      assert u.sent[|s.sent|].base == Generation(s);
      assert CallerOk(t, c);
      LocalStep(p, u, t, c, t.callers[c]);
    }
  }

  /** One more exchange request on record. */
  lemma SentEntered(p: Policy, s: State, t: State, x: Sent)
    requires Inv(p, s) && t == s.(sent := s.sent + [x], clock := t.clock) && s.clock <= t.clock && SentOk(p, t, x)
    ensures Inv(p, t)
  {
    assert t.sent[..|s.sent|] == s.sent;
    forall d ensures CallerOk(t, d) { assert CallerOk(s, d); OthersStay(s, t, d); }
    forall k | 0 <= k < |t.refreshed| ensures WasSent(t, t.refreshed[k]) { WasSentStays(s, t, s.refreshed[k]); }
    forall k | 0 <= k < |t.sent| ensures SentOk(p, t, t.sent[k]) {
      if k < |s.sent| { SentStays(p, s, t, s.sent[k]); }
    }
  }

  /** The store gains a generation with a new access token. */
  lemma StoreGrows(p: Policy, s: State, cred: Credential)
    requires Inv(p, s) && Consistent(cred) && Unused(s, cred.secret)
    ensures Inv(p, s.(store := s.store + [cred]))
  {
    var t := s.(store := s.store + [cred]);
    assert t.store[..|s.store|] == s.store;
    forall d ensures CallerOk(t, d) { assert CallerOk(s, d); OthersStay(s, t, d); }
    forall k | 0 <= k < |t.sent| ensures SentOk(p, t, t.sent[k]) { SentStays(p, s, t, s.sent[k]); }
  }

  /** The leader's refresh is entered once its new token is stored. */
  lemma RefreshEntered(p: Policy, s: State, c: nat, base: nat, result: Outcome)
    requires Inv(p, s) && c in s.callers && s.callers[c].Writing? && s.callers[c].base == base && base < |s.store| - 1
    ensures Inv(p, Put(s, c, Publishing(result)).(refreshed := s.refreshed + [base]))
  {
    assert CallerOk(s, c);
    var u := Put(s, c, Publishing(result));
    LocalStep(p, s, u, c, Publishing(result));
    var t := u.(refreshed := s.refreshed + [base]);
    assert forall d :: d in u.callers && Leads(u.callers[d]) ==> d == c;
    forall d ensures CallerOk(t, d) {
      assert CallerOk(u, d);
      if d in t.callers && (t.callers[d].Taking? || t.callers[d].Leading?) {
        ChosenStays(u, t, t.callers[d].seen, t.callers[d].force, t.callers[d].cred);
      }
    }
    forall k | 0 <= k < |t.sent| ensures SentOk(p, t, t.sent[k]) { SentStays(p, u, t, u.sent[k]); }
  }

  lemma WriteKeeps(p: Policy, s: State, c: nat, ok: bool)
    requires Inv(p, s) && Enabled(s, Write(c, ok))
    ensures Inv(p, Apply(p, s, Write(c, ok)))
  {
    var w, t := s.callers[c], Apply(p, s, Write(c, ok));
    if !ok {
      LocalStep(p, s, t, c, Publishing(Err(StoreFailed)));
    } else {
      var next := WithToken(Current(s), w.token);
      assert CallerOk(s, c);
      StoreGrows(p, s, next);
      var u := s.(store := s.store + [next]);
      RefreshEntered(p, u, c, w.base, Ok(WithToken(w.cred, w.token)));
      assert t == Put(u, c, Publishing(Ok(WithToken(w.cred, w.token)))).(refreshed := s.refreshed + [w.base]);
    }
  }

  lemma PublishKeeps(p: Policy, s: State, c: nat)
    requires Inv(p, s) && Enabled(s, Publish(c))
    ensures Inv(p, Apply(p, s, Publish(c)))
  {
    var t := Apply(p, s, Publish(c));
    assert Leads(s.callers[c]) && s.slot.Some? && s.slot.value.owner == c;
    forall d ensures CallerOk(t, d) { if d != c { assert CallerOk(s, d); OthersStay(s, t, d); } }
    forall d ensures !(d in t.callers && Leads(t.callers[d])) {
      assert d in s.callers && Leads(s.callers[d]) <==> s.slot.value.owner == d;
    }
    forall k | 0 <= k < |t.sent| ensures SentOk(p, t, t.sent[k]) { SentStays(p, s, t, s.sent[k]); }
  }

  lemma KeepsInv(p: Policy, s: State, a: Action)
    requires Inv(p, s) && Enabled(s, a)
    ensures Inv(p, Apply(p, s, a))
  {
    var t := Apply(p, s, a);
    match a
    case Arrive(c, seen, force) => LocalStep(p, s, t, c, t.callers[c]);
    case External(cred) => StoreGrows(p, s, cred);
    case Check(c) => LocalStep(p, s, t, c, t.callers[c]);
    case Read(c, ok, now) =>
      DecideIsChosen(p, s, s.callers[c].seen, s.callers[c].force, now);
      if t.callers[c].Taking? { ChosenStays(s, t, t.callers[c].seen, t.callers[c].force, t.callers[c].cred); }
      LocalStep(p, s, t, c, t.callers[c]);
    case Take(c) => TakeStep(p, s, c);
    case ReadAgain(c, ok, now) => ReadAgainKeeps(p, s, c, ok, now);
    case Exchange(c, answer, now) =>
      assert CallerOk(s, c);
      LocalStep(p, s, t, c, t.callers[c]);
    case Write(c, ok) => WriteKeeps(p, s, c, ok);
    case Publish(c) => PublishKeeps(p, s, c);
    case Wake(c) => LocalStep(p, s, t, c, t.callers[c]);
    case GiveUp(c) => LocalStep(p, s, t, c, t.callers[c]);
  }

  lemma {:induction false} EveryRun(p: Policy, cred: Credential, actions: seq<Action>)
    requires Consistent(cred)
    ensures Inv(p, Run(p, cred, actions))
  {
    if actions != [] {
      EveryRun(p, cred, actions[..|actions| - 1]);
      var s, a := Run(p, cred, actions[..|actions| - 1]), actions[|actions| - 1];
      if Enabled(s, a) { KeepsInv(p, s, a); }
    }
  }

  // ---- the guarantees ----

  /** Every stored generation is refreshed at most once, and later ones after earlier ones. */
  lemma EachGenerationOnce(p: Policy, cred: Credential, actions: seq<Action>, j: nat, k: nat)
    requires Consistent(cred) && j < k < |Run(p, cred, actions).refreshed|
    ensures Run(p, cred, actions).refreshed[j] < Run(p, cred, actions).refreshed[k]
  {
    EveryRun(p, cred, actions);
  }

  /** At most one caller at a time is between taking the slot and publishing. */
  lemma OneLeaderAtATime(p: Policy, cred: Credential, actions: seq<Action>, c: nat, d: nat)
    requires Consistent(cred)
    requires c in Run(p, cred, actions).callers && d in Run(p, cred, actions).callers
    requires Leads(Run(p, cred, actions).callers[c]) && Leads(Run(p, cred, actions).callers[d])
    ensures c == d
  {
    EveryRun(p, cred, actions);
  }

  /**
   The refresh token sent is the one stored at the second read, and it is sent
   only because it was due or because the caller asked to replace just that token.
   */
  lemma SentTokensAreStoredAndWanted(p: Policy, cred: Credential, actions: seq<Action>, k: nat)
    requires Consistent(cred) && k < |Run(p, cred, actions).sent|
    ensures SentOk(p, Run(p, cred, actions), Run(p, cred, actions).sent[k])
  {
    EveryRun(p, cred, actions);
  }

  /** Everyone who shared a call got the same answer. */
  lemma SharedAnswer(p: Policy, cred: Credential, actions: seq<Action>, c: nat, d: nat)
    requires Consistent(cred)
    requires var s := Run(p, cred, actions);
             c in s.callers && d in s.callers && s.callers[c].Finished? && s.callers[d].Finished?
             && s.callers[c].via.Some? && s.callers[d].via == s.callers[c].via
    ensures Run(p, cred, actions).callers[c] == Run(p, cred, actions).callers[d]
  {
    EveryRun(p, cred, actions);
    var s := Run(p, cred, actions);
    assert CallerOk(s, c) && CallerOk(s, d);
  }

  // ---- a burst ----

  /** Everybody starts from the same snapshot. */
  predicate AllSaw(actions: seq<Action>, seen: Credential) {
    forall k :: 0 <= k < |actions| && actions[k].Arrive? ==> actions[k].seen == seen
  }

  ghost predicate SawOnly(s: State, seen: Credential) {
    && (forall c :: c in s.callers ==>
          match s.callers[c]
          case Arrived(x, _) => x == seen
          case Reading(x, _) => x == seen
          case Taking(x, _, _) => x == seen
          case Leading(x, _, _) => x == seen
          case _ => true)
    && (forall k :: 0 <= k < |s.sent| ==> s.sent[k].seen == seen)
  }

  lemma {:induction false} SnapshotsCarried(p: Policy, cred: Credential, actions: seq<Action>, seen: Credential)
    requires AllSaw(actions, seen)
    ensures SawOnly(Run(p, cred, actions), seen)
  {
    if actions != [] {
      SnapshotsCarried(p, cred, actions[..|actions| - 1], seen);
      var s, a := Run(p, cred, actions[..|actions| - 1]), actions[|actions| - 1];
      if Enabled(s, a) { SawStep(p, s, a, seen); }
    }
  }

  lemma SawStep(p: Policy, s: State, a: Action, seen: Credential)
    requires s.store != [] && Enabled(s, a) && SawOnly(s, seen) && (a.Arrive? ==> a.seen == seen)
    ensures SawOnly(Apply(p, s, a), seen)
  {
  }

  /**
   A burst of callers, forced or not, that all saw the same credential refreshes
   it at most once, as long as the tokens stored since are not due again.
   */
  lemma BurstRefreshesOnce(p: Policy, cred: Credential, actions: seq<Action>)
    requires Consistent(cred) && AllSaw(actions, cred)
    requires var s := Run(p, cred, actions);
             forall g :: 0 < g < |s.store| ==> Fresh(s.store[g], p, s.clock)
    ensures |Run(p, cred, actions).refreshed| <= 1
  {
    var s := Run(p, cred, actions);
    EveryRun(p, cred, actions);
    SnapshotsCarried(p, cred, actions, cred);
    FirstGeneration(p, cred, actions);
    if |s.refreshed| >= 2 { EachGenerationOnce(p, cred, actions, 0, 1); }
    forall k | 0 <= k < |s.refreshed| ensures s.refreshed[k] == 0 {
      var j :| 0 <= j < |s.sent| && s.sent[j].base == s.refreshed[k];
      var x := s.sent[j];
      assert SentOk(p, s, x);
      if x.base > 0 {
        assert s.store[0].secret != s.store[x.base].secret && Consistent(s.store[x.base]);
        FreshEarlier(s.store[x.base], p, x.now, s.clock);
        assert false;
      }
    }
  }

  lemma {:induction false} FirstGeneration(p: Policy, cred: Credential, actions: seq<Action>)
    ensures Run(p, cred, actions).store[0] == cred
  {
    if actions != [] { FirstGeneration(p, cred, actions[..|actions| - 1]); }
  }
}
