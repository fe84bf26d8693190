/** What callers of a refresh are answered with, and what a refresh puts into the store (internal/auth/manager.go). */
module RefreshAnswers {
  import opened RefreshFlight
  import opened Wrappers

  // ---- what a run has looked at and been told, read off its actions ----

  /** A successful reading of the store: by whom, for which call if as its leader, which generation, and when. */
  datatype Look = Look(caller: nat, call: Option<nat>, generation: nat, now: int)

  /** The tokens the provider answered with, to whom and when. */
  datatype Told = Told(caller: nat, answer: Token, now: int)

  function LookOf(s: State, a: Action): seq<Look>
    requires s.store != [] && Enabled(s, a)
  {
    match a
    case Read(c, true, now) => [Look(c, None, Generation(s), now)]
    case ReadAgain(c, true, now) => if s.slot.Some? then [Look(c, Some(s.slot.value.call), Generation(s), now)] else []
    case _ => []
  }

  function ToldOf(a: Action): seq<Told> {
    match a
    case Exchange(c, Some(answer), now) => [Told(c, answer, now)]
    case _ => []
  }

  function Looks(p: Policy, cred: Credential, actions: seq<Action>): seq<Look> {
    if actions == [] then []
    else
      var init, a := actions[..|actions| - 1], actions[|actions| - 1];
      var s := Run(p, cred, init);
      Looks(p, cred, init) + if Enabled(s, a) then LookOf(s, a) else []
  }

  function Tolds(p: Policy, cred: Credential, actions: seq<Action>): seq<Told> {
    if actions == [] then []
    else
      var init, a := actions[..|actions| - 1], actions[|actions| - 1];
      Tolds(p, cred, init) + if Enabled(Run(p, cred, init), a) then ToldOf(a) else []
  }

  // ---- where an answer comes from ----

  /** x has the secret and the token of g; a generation without a token gives the one made of its secret. */
  predicate Carries(x: Credential, g: Credential) {
    x.secret == g.secret && x.token == Some(if g.token.Some? then g.token.value else Token(g.secret, "", None, None))
  }

  /** The generation as it is handed out. */
  function Handed(g: Credential): Credential {
    if g.token.Some? then g else g.(token := Some(Token(g.secret, "", None, None)))
  }

  /** The generation was looked at by this caller, or this call's leader, and found fresh. */
  ghost predicate FoundFresh(p: Policy, s: State, looks: seq<Look>, c: Option<nat>, call: Option<nat>, g: nat) {
    exists k :: 0 <= k < |looks| && looks[k].generation == g < |s.store| && looks[k].call == call
                && (c.Some? ==> looks[k].caller == c.value) && Fresh(Handed(s.store[g]), p, looks[k].now)
  }

  /** The call sent the refresh token of generation base. */
  ghost predicate CallSent(s: State, looks: seq<Look>, call: nat, base: nat) {
    exists k, j :: 0 <= k < |looks| && 0 <= j < |s.sent| && looks[k].call == Some(call) && looks[k].generation == base
                   && s.sent[j].base == base && s.sent[j].now == looks[k].now
  }

  /** A caller that answered for itself had found what it hands out fresh. */
  ghost predicate OwnAnswer(p: Policy, s: State, looks: seq<Look>, c: nat, x: Credential) {
    exists g :: 0 <= g < |s.store| && Carries(x, s.store[g]) && FoundFresh(p, s, looks, Some(c), None, g)
  }

  /** A call hands out what its leader found fresh, or a generation later than the one it sent. */
  ghost predicate CallAnswer(p: Policy, s: State, looks: seq<Look>, call: nat, x: Credential) {
    exists g :: 0 <= g < |s.store| && Carries(x, s.store[g])
                && (FoundFresh(p, s, looks, None, Some(call), g) || SentBefore(s, looks, call, g))
  }

  ghost predicate SentBefore(s: State, looks: seq<Look>, call: nat, g: nat) { exists base :: 0 <= base < g && CallSent(s, looks, call, base) }

  /** The token is the provider's answer to the refresh token of generation base. */
  ghost predicate FromProvider(s: State, tolds: seq<Told>, token: Token, base: nat) {
    exists k :: 0 <= k < |tolds| && IsAnswered(s, tolds[k], token, base)
  }

  /** Access and expiry as answered, the refresh token as answered or the old one if blank, the time of the answer. */
  predicate IsAnswered(s: State, told: Told, token: Token, base: nat) {
    && base < |s.store| && s.store[base].token.Some?
    && token.access == told.answer.access && token.expires == told.answer.expires && token.refreshedAt == Some(told.now)
    && token.refresh == if told.answer.refresh != "" then told.answer.refresh else s.store[base].token.value.refresh
  }

  // ---- what every run keeps ----

  ghost predicate CallerGrounded(p: Policy, s: State, looks: seq<Look>, tolds: seq<Told>, c: nat) {
    c in s.callers ==>
      match s.callers[c]
      case Finished(None, Ok(x)) => OwnAnswer(p, s, looks, c, x)
      case Publishing(Ok(x)) => s.slot.Some? && CallAnswer(p, s, looks, s.slot.value.call, x)
      case Exchanging(cred, base) => Going(s, looks, cred, base)
      case Writing(cred, base, token) => Going(s, looks, cred, base) && FromProvider(s, tolds, token, base)
      case _ => true
  }

  /** The leader refreshes generation base. */
  ghost predicate Going(s: State, looks: seq<Look>, cred: Credential, base: nat) {
    && s.slot.Some? && CallSent(s, looks, s.slot.value.call, base)
    && base < |s.store| && cred == s.store[base] && cred.token.Some?
  }

  ghost predicate CallsGrounded(p: Policy, s: State, looks: seq<Look>) {
    forall call :: call in s.published && s.published[call].Ok? ==> CallAnswer(p, s, looks, call, s.published[call].value)
  }

  /** A generation was written by somebody else, or by a refresh of an earlier one. */
  ghost predicate Sourced(p: Policy, s: State, tolds: seq<Told>, actions: seq<Action>, g: nat) {
    g == 0 || (g < |s.store| && (External(s.store[g]) in actions || RefreshedFrom(s, tolds, g)))
  }

  ghost predicate RefreshedFrom(s: State, tolds: seq<Told>, g: nat) {
    && g < |s.store| && s.store[g].token.Some? && s.store[g].secret == s.store[g].token.value.access
    && exists base :: 0 <= base < g && base in s.refreshed && FromProvider(s, tolds, s.store[g].token.value, base)
  }

  ghost predicate Grounded(p: Policy, s: State, looks: seq<Look>, tolds: seq<Told>, actions: seq<Action>) {
    && (forall c :: CallerGrounded(p, s, looks, tolds, c))
    && CallsGrounded(p, s, looks)
    && (forall g :: 0 <= g < |s.store| ==> Sourced(p, s, tolds, actions, g))
  }

  // ---- nothing of this is lost as the run goes on ----

  predicate Extends(s: State, t: State) {
    && |s.store| <= |t.store| && t.store[..|s.store|] == s.store
    && |s.sent| <= |t.sent| && t.sent[..|s.sent|] == s.sent
  }

  lemma FoundFreshStays(p: Policy, s: State, t: State, l: seq<Look>, m: seq<Look>, c: Option<nat>, call: Option<nat>, g: nat)
    requires Extends(s, t) && l <= m && FoundFresh(p, s, l, c, call, g)
    ensures FoundFresh(p, t, m, c, call, g)
  {
    var k :| 0 <= k < |l| && l[k].generation == g < |s.store| && l[k].call == call
             && (c.Some? ==> l[k].caller == c.value) && Fresh(Handed(s.store[g]), p, l[k].now);
    assert m[k] == l[k] && t.store[g] == t.store[..|s.store|][g];
  }

  lemma CallSentStays(s: State, t: State, l: seq<Look>, m: seq<Look>, call: nat, base: nat)
    requires Extends(s, t) && l <= m && CallSent(s, l, call, base)
    ensures CallSent(t, m, call, base)
  {
    var k, j :| 0 <= k < |l| && 0 <= j < |s.sent| && l[k].call == Some(call) && l[k].generation == base
                && s.sent[j].base == base && s.sent[j].now == l[k].now;
    assert m[k] == l[k] && t.sent[j] == t.sent[..|s.sent|][j];
  }

  lemma OwnAnswerStays(p: Policy, s: State, t: State, l: seq<Look>, m: seq<Look>, c: nat, x: Credential)
    requires Extends(s, t) && l <= m && OwnAnswer(p, s, l, c, x)
    ensures OwnAnswer(p, t, m, c, x)
  {
    var g :| 0 <= g < |s.store| && Carries(x, s.store[g]) && FoundFresh(p, s, l, Some(c), None, g);
    FoundFreshStays(p, s, t, l, m, Some(c), None, g);
    assert t.store[g] == t.store[..|s.store|][g];
  }

  lemma CallAnswerStays(p: Policy, s: State, t: State, l: seq<Look>, m: seq<Look>, call: nat, x: Credential)
    requires Extends(s, t) && l <= m && CallAnswer(p, s, l, call, x)
    ensures CallAnswer(p, t, m, call, x)
  {
    var g :| 0 <= g < |s.store| && Carries(x, s.store[g]) && (FoundFresh(p, s, l, None, Some(call), g) || SentBefore(s, l, call, g));
    assert t.store[g] == t.store[..|s.store|][g];
    if FoundFresh(p, s, l, None, Some(call), g) {
      FoundFreshStays(p, s, t, l, m, None, Some(call), g);
    } else {
      var base :| 0 <= base < g && CallSent(s, l, call, base);
      CallSentStays(s, t, l, m, call, base);
    }
  }

  lemma FromProviderStays(s: State, t: State, u: seq<Told>, v: seq<Told>, token: Token, base: nat)
    requires Extends(s, t) && u <= v && FromProvider(s, u, token, base)
    ensures FromProvider(t, v, token, base)
  {
    var k :| 0 <= k < |u| && IsAnswered(s, u[k], token, base);
    assert v[k] == u[k] && t.store[base] == t.store[..|s.store|][base];
    assert IsAnswered(t, v[k], token, base);
  }

  lemma GoingStays(s: State, t: State, l: seq<Look>, m: seq<Look>, cred: Credential, base: nat)
    requires Extends(s, t) && l <= m && Going(s, l, cred, base) && t.slot == s.slot
    ensures Going(t, m, cred, base)
  {
    CallSentStays(s, t, l, m, s.slot.value.call, base);
    assert t.store[base] == t.store[..|s.store|][base];
  }

  /** A caller that did not move stays grounded; a leader as long as it keeps the slot. */
  lemma OthersGrounded(p: Policy, s: State, t: State, l: seq<Look>, m: seq<Look>, u: seq<Told>, v: seq<Told>, c: nat)
    requires Extends(s, t) && l <= m && u <= v && CallerGrounded(p, s, l, u, c)
    requires c in t.callers ==> c in s.callers && t.callers[c] == s.callers[c] && (Leads(t.callers[c]) ==> t.slot == s.slot)
    ensures CallerGrounded(p, t, m, v, c)
  {
    if c in t.callers {
      match t.callers[c]
      case Finished(None, Ok(x)) => OwnAnswerStays(p, s, t, l, m, c, x);
      case Publishing(Ok(x)) => CallAnswerStays(p, s, t, l, m, s.slot.value.call, x);
      case Exchanging(cred, base) => GoingStays(s, t, l, m, cred, base);
      case Writing(cred, base, token) => GoingStays(s, t, l, m, cred, base); FromProviderStays(s, t, u, v, token, base);
      case _ =>
    }
  }

  lemma CallsStayGrounded(p: Policy, s: State, t: State, l: seq<Look>, m: seq<Look>)
    requires Extends(s, t) && l <= m && CallsGrounded(p, s, l) && t.published == s.published
    ensures CallsGrounded(p, t, m)
  {
    forall call | call in t.published && t.published[call].Ok? ensures CallAnswer(p, t, m, call, t.published[call].value) {
      CallAnswerStays(p, s, t, l, m, call, t.published[call].value);
    }
  }

  lemma SourcedStays(p: Policy, s: State, t: State, u: seq<Told>, v: seq<Told>, before: seq<Action>, after: seq<Action>, g: nat)
    requires Extends(s, t) && u <= v && before <= after && g < |s.store| && Sourced(p, s, u, before, g)
    requires |s.refreshed| <= |t.refreshed| && t.refreshed[..|s.refreshed|] == s.refreshed
    ensures Sourced(p, t, v, after, g)
  {
    assert t.store[g] == t.store[..|s.store|][g];
    if g > 0 && External(s.store[g]) !in before {
      var base :| 0 <= base < g && base in s.refreshed && FromProvider(s, u, s.store[g].token.value, base);
      FromProviderStays(s, t, u, v, s.store[g].token.value, base);
      assert base in t.refreshed[..|s.refreshed|];
    }
  }

  // ---- one step ----

  lemma StepGrounds(p: Policy, s: State, t: State, l: seq<Look>, m: seq<Look>, u: seq<Told>, v: seq<Told>,
                    before: seq<Action>, a: Action, c: nat)
    requires Grounded(p, s, l, u, before) && Extends(s, t) && l <= m && u <= v
    requires |s.refreshed| <= |t.refreshed| && t.refreshed[..|s.refreshed|] == s.refreshed
    requires forall d :: d != c && d in t.callers ==> d in s.callers && t.callers[d] == s.callers[d] && (Leads(t.callers[d]) ==> t.slot == s.slot)
    requires CallerGrounded(p, t, m, v, c) && CallsGrounded(p, t, m)
    requires forall g :: |s.store| <= g < |t.store| ==> Sourced(p, t, v, before + [a], g)
    ensures Grounded(p, t, m, v, before + [a])
  {
    forall d ensures CallerGrounded(p, t, m, v, d) {
      if d != c { OthersGrounded(p, s, t, l, m, u, v, d); }
    }
    forall g | 0 <= g < |t.store| ensures Sourced(p, t, v, before + [a], g) {
      if g < |s.store| { SourcedStays(p, s, t, u, v, before, before + [a], g); }
    }
  }

  /** A step that leaves store, logs and published calls alone. */
  lemma QuietStep(p: Policy, s: State, t: State, l: seq<Look>, m: seq<Look>, u: seq<Told>, v: seq<Told>,
                  before: seq<Action>, a: Action, c: nat)
    requires Grounded(p, s, l, u, before) && l <= m && u <= v
    requires t.store == s.store && t.refreshed == s.refreshed && t.published == s.published && Extends(s, t)
    requires forall d :: d != c && d in t.callers ==> d in s.callers && t.callers[d] == s.callers[d] && (Leads(t.callers[d]) ==> t.slot == s.slot)
    requires CallerGrounded(p, t, m, v, c)
    ensures Grounded(p, t, m, v, before + [a])
  {
    CallsStayGrounded(p, s, t, l, m);
    StepGrounds(p, s, t, l, m, u, v, before, a, c);
  }

  lemma ReadGrounds(p: Policy, s: State, l: seq<Look>, u: seq<Told>, before: seq<Action>, c: nat, ok: bool, now: int)
    requires Inv(p, s) && Grounded(p, s, l, u, before) && Enabled(s, Read(c, ok, now))
    ensures var a := Read(c, ok, now); Grounded(p, Apply(p, s, a), l + LookOf(s, a), u + ToldOf(a), before + [a])
  {
    var a := Read(c, ok, now);
    var t, m := Apply(p, s, a), l + LookOf(s, a);
    assert s.store[Generation(s)] == Current(s) && Consistent(Current(s));
    if t.callers[c].Finished? && t.callers[c].answer.Ok? {
      assert m[|l|] == Look(c, None, Generation(s), now);
      assert Carries(t.callers[c].answer.value, t.store[Generation(s)]);
      assert FoundFresh(p, t, m, Some(c), None, Generation(s));
    }
    QuietStep(p, s, t, l, m, u, u + ToldOf(a), before, a, c);
  }

  lemma ReadAgainGrounds(p: Policy, s: State, l: seq<Look>, u: seq<Told>, before: seq<Action>, c: nat, ok: bool, now: int)
    requires Inv(p, s) && Grounded(p, s, l, u, before) && Enabled(s, ReadAgain(c, ok, now))
    ensures var a := ReadAgain(c, ok, now); Grounded(p, Apply(p, s, a), l + LookOf(s, a), u + ToldOf(a), before + [a])
  {
    var a := ReadAgain(c, ok, now);
    var t, m := Apply(p, s, a), l + LookOf(s, a);
    assert CallerOk(s, c) && Leads(s.callers[c]);
    RereadIsCurrent(s, s.callers[c].seen, s.callers[c].force, s.callers[c].cred);
    var g := Generation(s);
    assert s.store[g] == Current(s) && Consistent(Current(s));
    if ok {
      var call := s.slot.value.call;
      assert m[|l|] == Look(c, Some(call), g, now);
      match t.callers[c]
      case Publishing(Ok(x)) =>
        assert FoundFresh(p, t, m, None, Some(call), g);
        assert Carries(x, t.store[g]);
      case Exchanging(cred, base) =>
        assert t.sent[|s.sent|].base == g && t.sent[|s.sent|].now == now;
        assert CallSent(t, m, call, g);
      case _ =>
    }
    QuietStep(p, s, t, l, m, u, u + ToldOf(a), before, a, c);
  }

  lemma ExchangeGrounds(p: Policy, s: State, l: seq<Look>, u: seq<Told>, before: seq<Action>, c: nat, answer: Option<Token>, now: int)
    requires Inv(p, s) && Grounded(p, s, l, u, before) && Enabled(s, Exchange(c, answer, now))
    ensures var a := Exchange(c, answer, now); Grounded(p, Apply(p, s, a), l + LookOf(s, a), u + ToldOf(a), before + [a])
  {
    var a := Exchange(c, answer, now);
    var t, v := Apply(p, s, a), u + ToldOf(a);
    assert CallerGrounded(p, s, l, u, c);
    if answer.Some? {
      var e := s.callers[c];
      assert v[|u|] == Told(c, answer.value, now);
      assert IsAnswered(t, v[|u|], t.callers[c].token, e.base);
      GoingStays(s, t, l, l, e.cred, e.base);
    }
    assert l + LookOf(s, a) == l;
    QuietStep(p, s, t, l, l, u, v, before, a, c);
  }

  lemma WriteGrounds(p: Policy, s: State, l: seq<Look>, u: seq<Told>, before: seq<Action>, c: nat, ok: bool)
    requires Inv(p, s) && Grounded(p, s, l, u, before) && Enabled(s, Write(c, ok))
    ensures var a := Write(c, ok); Grounded(p, Apply(p, s, a), l + LookOf(s, a), u + ToldOf(a), before + [a])
  {
    var a := Write(c, ok);
    var t, w := Apply(p, s, a), s.callers[c];
    assert l + LookOf(s, a) == l && u + ToldOf(a) == u;
    assert CallerGrounded(p, s, l, u, c);
    if ok {
      var g := |s.store|;
      assert t.store[g] == WithToken(Current(s), w.token);
      CallSentStays(s, t, l, l, s.slot.value.call, w.base);
      FromProviderStays(s, t, u, u, w.token, w.base);
      assert w.base in t.refreshed;
      assert RefreshedFrom(t, u, g);
      assert SentBefore(t, l, s.slot.value.call, g);
      assert Carries(t.callers[c].result.value, t.store[g]);
    }
    CallsStayGrounded(p, s, t, l, l);
    StepGrounds(p, s, t, l, l, u, u, before, a, c);
  }

  lemma PublishGrounds(p: Policy, s: State, l: seq<Look>, u: seq<Told>, before: seq<Action>, c: nat)
    requires Inv(p, s) && Grounded(p, s, l, u, before) && Enabled(s, Publish(c))
    ensures var a := Publish(c); Grounded(p, Apply(p, s, a), l + LookOf(s, a), u + ToldOf(a), before + [a])
  {
    var a := Publish(c);
    var t := Apply(p, s, a);
    assert l + LookOf(s, a) == l && u + ToldOf(a) == u;
    assert CallerGrounded(p, s, l, u, c) && Leads(s.callers[c]);
    forall call | call in t.published && t.published[call].Ok? ensures CallAnswer(p, t, l, call, t.published[call].value) {
      CallAnswerStays(p, s, t, l, l, call, t.published[call].value);
    }
    StepGrounds(p, s, t, l, l, u, u, before, a, c);
  }

  lemma ExternalGrounds(p: Policy, s: State, l: seq<Look>, u: seq<Told>, before: seq<Action>, cred: Credential)
    requires Inv(p, s) && Grounded(p, s, l, u, before) && Enabled(s, External(cred))
    ensures var a := External(cred); Grounded(p, Apply(p, s, a), l + LookOf(s, a), u + ToldOf(a), before + [a])
  {
    var a := External(cred);
    var t := Apply(p, s, a);
    assert l + LookOf(s, a) == l && u + ToldOf(a) == u && a in before + [a];
    OthersGrounded(p, s, t, l, l, u, u, 0);
    CallsStayGrounded(p, s, t, l, l);
    StepGrounds(p, s, t, l, l, u, u, before, a, 0);
  }

  /** Whoever waits, is woken or gives up is answered with nothing of its own. */
  lemma OtherStepGrounds(p: Policy, s: State, l: seq<Look>, u: seq<Told>, before: seq<Action>, a: Action)
    requires Inv(p, s) && Grounded(p, s, l, u, before) && Enabled(s, a)
    requires a.Arrive? || a.Check? || a.Take? || a.Wake? || a.GiveUp?
    ensures Grounded(p, Apply(p, s, a), l + LookOf(s, a), u + ToldOf(a), before + [a])
  {
    var t := Apply(p, s, a);
    assert l + LookOf(s, a) == l && u + ToldOf(a) == u;
    forall d | d != a.c && d in t.callers && Leads(t.callers[d]) ensures t.slot == s.slot {
      assert d in s.callers && Leads(s.callers[d]);
    }
    QuietStep(p, s, t, l, l, u, u, before, a, a.c);
  }

  lemma KeepsGrounded(p: Policy, s: State, l: seq<Look>, u: seq<Told>, before: seq<Action>, a: Action)
    requires Inv(p, s) && Grounded(p, s, l, u, before) && Enabled(s, a)
    ensures Grounded(p, Apply(p, s, a), l + LookOf(s, a), u + ToldOf(a), before + [a])
  {
    match a
    case Read(c, ok, now) => ReadGrounds(p, s, l, u, before, c, ok, now);
    case ReadAgain(c, ok, now) => ReadAgainGrounds(p, s, l, u, before, c, ok, now);
    case Exchange(c, answer, now) => ExchangeGrounds(p, s, l, u, before, c, answer, now);
    case Write(c, ok) => WriteGrounds(p, s, l, u, before, c, ok);
    case Publish(c) => PublishGrounds(p, s, l, u, before, c);
    case External(cred) => ExternalGrounds(p, s, l, u, before, cred);
    case _ => OtherStepGrounds(p, s, l, u, before, a);
  }

  lemma {:induction false} RunIsGrounded(p: Policy, cred: Credential, actions: seq<Action>)
    requires Consistent(cred)
    ensures Grounded(p, Run(p, cred, actions), Looks(p, cred, actions), Tolds(p, cred, actions), actions)
  {
    if actions != [] {
      var init, a := actions[..|actions| - 1], actions[|actions| - 1];
      var s, l, u := Run(p, cred, init), Looks(p, cred, init), Tolds(p, cred, init);
      RunIsGrounded(p, cred, init);
      EveryRun(p, cred, init);
      assert actions == init + [a];
      if Enabled(s, a) {
        KeepsGrounded(p, s, l, u, init, a);
      } else {
        PassedOver(p, s, l, u, init, a);
        assert l + [] == l && u + [] == u;
      }
    }
  }

  lemma PassedOver(p: Policy, s: State, l: seq<Look>, u: seq<Told>, before: seq<Action>, a: Action)
    requires Grounded(p, s, l, u, before)
    ensures Grounded(p, s, l, u, before + [a])
  {
    StepGrounds(p, s, s, l, l, u, u, before, a, 0);
  }

  // ---- the guarantees ----

  /**
   Whoever is answered with a credential gets the secret and token of a stored generation: one it had itself
   found fresh, or, through a call, one that the call's leader had found fresh or that came after the one the call sent.
   */
  lemma AnswersAreCurrent(p: Policy, cred: Credential, actions: seq<Action>, c: nat)
    requires Consistent(cred)
    requires var s := Run(p, cred, actions); c in s.callers && s.callers[c].Finished? && s.callers[c].answer.Ok?
    ensures var s, looks := Run(p, cred, actions), Looks(p, cred, actions);
            match s.callers[c]
            case Finished(None, Ok(x)) => OwnAnswer(p, s, looks, c, x)
            case Finished(Some(call), Ok(x)) => CallAnswer(p, s, looks, call, x)
            case _ => true
  {
    RunIsGrounded(p, cred, actions);
    EveryRun(p, cred, actions);
    var s := Run(p, cred, actions);
    assert CallerGrounded(p, s, Looks(p, cred, actions), Tolds(p, cred, actions), c) && CallerOk(s, c);
  }

  /**
   Every generation after the first was written by somebody else, or holds what the provider answered
   to the refresh token of an earlier one: access token and expiry as answered, the refresh token too unless blank.
   */
  lemma StoredAsAnswered(p: Policy, cred: Credential, actions: seq<Action>, g: nat)
    requires Consistent(cred) && 0 < g < |Run(p, cred, actions).store|
    ensures var s := Run(p, cred, actions);
            External(s.store[g]) in actions || RefreshedFrom(s, Tolds(p, cred, actions), g)
  {
    RunIsGrounded(p, cred, actions);
    assert Sourced(p, Run(p, cred, actions), Tolds(p, cred, actions), actions, g);
  }

  /** When a token is due, on its fields: it expires within the window, or it can be rotated and is too old or of unknown age. */
  lemma DueIff(c: Credential, p: Policy, now: int)
    requires c.token.Some?
    ensures var t := c.token.value;
            var since := if t.refreshedAt.Some? then t.refreshedAt else c.createdAt;
            var soft := if p.soft.Some? && p.soft.value > 0 then p.soft.value else 48 * 3_600_000_000_000;
            var hard := if p.hard.Some? && p.hard.value > 0 then p.hard.value else 72 * 3_600_000_000_000;
            !Fresh(c, p, now) <==>
            || (t.expires.Some? && t.expires.value <= now + p.window)
            || (t.refresh != "" && (since.None? || (now - since.value >= soft && now - since.value >= hard)))
  {
  }

  lemma Then(p: Policy, cred: Credential, actions: seq<Action>, s: State, a: Action) returns (more: seq<Action>, t: State)
    requires Run(p, cred, actions) == s && Enabled(s, a)
    ensures more == actions + [a] && Run(p, cred, more) == t == Apply(p, s, a)
  {
    more, t := actions + [a], Apply(p, s, a);
    assert more[..|actions|] == actions;
  }

  /** A stored credential that can be refreshed. */
  predicate Refreshable(p: Policy, cred: Credential) {
    && Consistent(cred) && cred.provider == p.provider && cred.authType == "oauth"
    && cred.token.Some? && cred.token.value.access != "" && cred.token.value.refresh != ""
  }

  /** A caller alone that takes the slot for a due, or forced, credential and reads it again. */
  lemma LoneCallerLeads(p: Policy, cred: Credential, force: bool, now: int) returns (actions: seq<Action>, s: State)
    requires Refreshable(p, cred) && (force || !Fresh(cred, p, now))
    ensures Run(p, cred, actions) == s && s.store == [cred] && s.slot == Some(Slot(0, 0)) && s.refreshed == []
    ensures 0 in s.callers && s.callers[0] == Exchanging(cred, 0) && |s.sent| == 1 && s.sent[0].refresh == cred.token.value.refresh
  {
    actions, s := [], Initial(cred);
    actions, s := Then(p, cred, actions, s, Arrive(0, cred, force));
    actions, s := Then(p, cred, actions, s, Check(0));
    actions, s := Then(p, cred, actions, s, Read(0, true, now));
    actions, s := Then(p, cred, actions, s, Take(0));
    actions, s := Then(p, cred, actions, s, ReadAgain(0, true, now));
  }

  /** A due, or forced, credential is refreshed when the provider and the store go along: the new token is stored and handed out. */
  lemma LoneCallerRefreshes(p: Policy, cred: Credential, force: bool, now: int, answer: Token, later: int) returns (actions: seq<Action>)
    requires Refreshable(p, cred) && (force || !Fresh(cred, p, now)) && answer.access != cred.secret
    ensures var s := Run(p, cred, actions);
            && 0 in s.callers && s.callers[0].Finished? && s.callers[0].answer.Ok? && s.refreshed == [0] && |s.store| == 2
            && var x, t := s.callers[0].answer.value, s.store[1].token;
               && x.secret == s.store[1].secret == answer.access && x.token == t && t.Some?
               && t.value.access == answer.access && t.value.expires == answer.expires
               && t.value.refresh == if answer.refresh == "" then cred.token.value.refresh else answer.refresh
  {
    var s;
    actions, s := LoneCallerLeads(p, cred, force, now);
    actions, s := Then(p, cred, actions, s, Exchange(0, Some(answer), later));
    actions, s := Then(p, cred, actions, s, Write(0, true));
    actions, s := Then(p, cred, actions, s, Publish(0));
  }

  /** A credential that is not due is handed out as it is, and nothing is sent. */
  lemma LoneCallerIsAnsweredAtOnce(p: Policy, cred: Credential, now: int) returns (actions: seq<Action>)
    requires Refreshable(p, cred) && Fresh(cred, p, now)
    ensures var s := Run(p, cred, actions); 0 in s.callers && s.callers[0] == Finished(None, Ok(cred)) && s.sent == []
  {
    var s;
    actions, s := [], Initial(cred);
    actions, s := Then(p, cred, actions, s, Arrive(0, cred, false));
    actions, s := Then(p, cred, actions, s, Check(0));
    actions, s := Then(p, cred, actions, s, Read(0, true, now));
  }

  // ---- why a caller is refused ----

  /** It cannot be used or renewed here: another provider's, not by login, without an access or refresh token. */
  predicate Unfit(p: Policy, g: Credential) {
    || g.provider != p.provider || g.authType != "oauth"
    || (if g.token.Some? then g.token.value.access == "" || g.token.value.refresh == "" else true)
  }

  /** What caller d met in the run that accounts for the error. */
  ghost predicate Met(p: Policy, s: State, actions: seq<Action>, d: nat, e: Error) {
    match e
    case StoreFailed => (exists now :: Read(d, false, now) in actions || ReadAgain(d, false, now) in actions) || Write(d, false) in actions
    case ExchangeFailed => exists now :: Exchange(d, None, now) in actions
    case Cancelled => GiveUp(d) in actions
    case AuthorizationRequired => exists g :: 0 <= g < |s.store| && Unfit(p, s.store[g])
  }

  ghost predicate SomeoneMet(p: Policy, s: State, actions: seq<Action>, e: Error) {
    !e.Cancelled? && exists d :: Met(p, s, actions, d, e)
  }

  ghost predicate CallerRefused(p: Policy, s: State, actions: seq<Action>, c: nat) {
    c in s.callers ==>
      match s.callers[c]
      case Finished(None, Err(e)) => Met(p, s, actions, c, e)
      case Publishing(Err(e)) => !e.Cancelled? && Met(p, s, actions, c, e)
      case Finished(Some(_), Err(e)) => SomeoneMet(p, s, actions, e)
      case _ => true
  }

  ghost predicate Refused(p: Policy, s: State, actions: seq<Action>) {
    && (forall c :: CallerRefused(p, s, actions, c))
    && (forall call :: call in s.published && s.published[call].Err? ==> SomeoneMet(p, s, actions, s.published[call].error))
  }

  lemma MetStays(p: Policy, s: State, t: State, before: seq<Action>, after: seq<Action>, d: nat, e: Error)
    requires Met(p, s, before, d, e) && |s.store| <= |t.store| && t.store[..|s.store|] == s.store && before <= after
    ensures Met(p, t, after, d, e)
  {
    assert forall a :: a in before ==> a in after;
    if e.AuthorizationRequired? {
      var g :| 0 <= g < |s.store| && Unfit(p, s.store[g]);
      assert t.store[g] == s.store[g];
    }
  }

  /** What changes with an action: one caller, and what it publishes. */
  lemma RefusedStep(p: Policy, s: State, t: State, before: seq<Action>, a: Action, c: nat)
    requires Refused(p, s, before) && |s.store| <= |t.store| && t.store[..|s.store|] == s.store
    requires forall d :: d != c && d in t.callers ==> d in s.callers && t.callers[d] == s.callers[d]
    requires CallerRefused(p, t, before + [a], c)
    requires forall call :: call in t.published && t.published[call].Err? ==>
               (call in s.published && t.published[call] == s.published[call]) || SomeoneMet(p, t, before + [a], t.published[call].error)
    ensures Refused(p, t, before + [a])
  {
    forall d, e | Met(p, s, before, d, e) ensures Met(p, t, before + [a], d, e) { MetStays(p, s, t, before, before + [a], d, e); }
    forall d ensures CallerRefused(p, t, before + [a], d) {
      if d != c && d in t.callers { assert CallerRefused(p, s, before, d); }
    }
  }

  predicate SentAToken(s: State, a: Action)
    requires Enabled(s, a)
  {
    a.Exchange? ==> s.callers[a.c].cred.token.Some?
  }

  lemma ActorRefused(p: Policy, s: State, before: seq<Action>, a: Action)
    requires Inv(p, s) && Refused(p, s, before) && Enabled(s, a) && SentAToken(s, a)
    requires a.Read? || a.ReadAgain? || a.Exchange? || a.Write? || a.GiveUp?
    ensures CallerRefused(p, Apply(p, s, a), before + [a], a.c)
  {
    var t := Apply(p, s, a);
    assert (before + [a])[|before|] == a && a in before + [a];
    assert CallerOk(s, a.c);
    if a.ReadAgain? && a.ok {
      RereadIsCurrent(s, s.callers[a.c].seen, s.callers[a.c].force, s.callers[a.c].cred);
      assert Current(s) == t.store[Generation(s)];
    }
    if a.Read? && a.ok { assert Current(s) == t.store[Generation(s)]; }
  }

  lemma KeepsRefused(p: Policy, s: State, before: seq<Action>, a: Action)
    requires Inv(p, s) && Refused(p, s, before) && Enabled(s, a) && SentAToken(s, a)
    ensures Refused(p, Apply(p, s, a), before + [a])
  {
    var t := Apply(p, s, a);
    var c := if a.External? then 0 else a.c;
    assert CallerRefused(p, s, before, c);
    forall d, e | Met(p, s, before, d, e) ensures Met(p, t, before + [a], d, e) { MetStays(p, s, t, before, before + [a], d, e); }
    if a.Read? || a.ReadAgain? || a.Exchange? || a.Write? || a.GiveUp? { ActorRefused(p, s, before, a); }
    RefusedStep(p, s, t, before, a, c);
  }

  lemma {:induction false} RunIsRefused(p: Policy, cred: Credential, actions: seq<Action>)
    requires Consistent(cred)
    ensures Refused(p, Run(p, cred, actions), actions)
  {
    if actions != [] {
      var init, a := actions[..|actions| - 1], actions[|actions| - 1];
      var s := Run(p, cred, init);
      RunIsRefused(p, cred, init);
      EveryRun(p, cred, init);
      assert actions == init + [a];
      if Enabled(s, a) {
        RunIsGrounded(p, cred, init);
        if a.Exchange? { assert CallerGrounded(p, s, Looks(p, cred, init), Tolds(p, cred, init), a.c); }
        KeepsRefused(p, s, init, a);
      } else {
        assert CallerRefused(p, s, init, 0);
        forall d, e | Met(p, s, init, d, e) ensures Met(p, s, actions, d, e) { MetStays(p, s, s, init, actions, d, e); }
        RefusedStep(p, s, s, init, a, 0);
      }
    }
  }

  /**
   In every run a caller is refused only for what was met: it gave up waiting, the store or the provider failed, or
   some generation could not be used or renewed; for itself what it met, through a call what somebody did.
   */
  lemma RefusalsHaveTheirCause(p: Policy, cred: Credential, actions: seq<Action>, c: nat)
    requires Consistent(cred)
    requires var s := Run(p, cred, actions); c in s.callers && s.callers[c].Finished? && s.callers[c].answer.Err?
    ensures var s := Run(p, cred, actions);
            var e := s.callers[c].answer.error;
            if s.callers[c].via.None? then Met(p, s, actions, c, e) else SomeoneMet(p, s, actions, e)
  {
    RunIsRefused(p, cred, actions);
    assert CallerRefused(p, Run(p, cred, actions), actions, c);
  }
}
