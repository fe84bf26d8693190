/**
 One OAuth login flow: its critical sections, and what every interleaving keeps (internal/auth/manager.go).
 */
module LoginSession {
  import opened Wrappers

  const SECOND: int := 1_000_000_000

  datatype Status = Pending | Polling | Consumed | Committing | Complete | Cancelled | Failed | Expired

  /** What proves that a callback belongs to the flow. */
  datatype Secrets = Secrets(state: string, verifier: string, deviceCode: string, deviceUserCode: string)

  const CLEARED := Secrets("", "", "", "")

  datatype Session = Session(status: Status, errorCode: string, secrets: Secrets, expiresAt: int, consumedAt: Option<int>,
                             interval: int, cancelClosed: bool, serving: bool)

  predicate Terminal(s: Status) { s.Complete? || s.Cancelled? || s.Failed? || s.Expired? }
  predicate CanExpire(s: Status) { !Terminal(s) && !s.Committing? }

  /** How far the flow has come. */
  function Rank(s: Status): nat {
    match s
    case Pending => 0
    case Polling => 0
    case Consumed => 1
    case Committing => 2
    case _ => 3
  }

  // ---- the critical sections ----

  function Expiring(x: Session): Session { x.(status := Expired, errorCode := "invalid_state", secrets := CLEARED) }

  /** CompleteCallback: a pending flow that has not run out is consumed. */
  function Consume(x: Session, now: int): Session {
    if !x.status.Pending? then x
    else if now > x.expiresAt then Expiring(x)
    else x.(status := Consumed, consumedAt := Some(now))
  }

  predicate Consumes(x: Session, now: int) { x.status.Pending? && now <= x.expiresAt }

  /** rejectSessionCallback */
  function Reject(x: Session, state: string, now: int): Session {
    if !x.status.Pending? || x.secrets.state == "" || x.secrets.state != state then x
    else if now > x.expiresAt then Expiring(x)
    else x.(status := Failed, errorCode := "oauth_authorization_rejected", consumedAt := Some(now), secrets := CLEARED)
  }

  function Cancel(x: Session, now: int): Session {
    if x.status.Complete? || x.status.Cancelled? || x.status.Committing? then x
    else x.(status := Cancelled, consumedAt := Some(now), secrets := CLEARED)
  }

  function ExpireIfNeeded(x: Session, now: int): Session {
    if now > x.expiresAt && CanExpire(x.status) then Expiring(x) else x
  }

  function BeginCommit(x: Session, expected: Status): Session {
    if x.status != expected then x else x.(status := Committing)
  }

  function Finish(x: Session): Session { x.(status := Complete, errorCode := "", secrets := CLEARED) }

  function Fail(x: Session, code: string): Session {
    if x.status.Cancelled? || x.status.Complete? || x.status.Expired? then x
    else x.(status := Failed, errorCode := code, secrets := CLEARED)
  }

  function Stop(x: Session): Session { x.(secrets := CLEARED, cancelClosed := true, serving := false) }

  /** Whatever a critical section does to a flow. */
  datatype Section =
    | DoConsume(now: int) | DoReject(state: string, now: int) | DoCancel(now: int) | DoExpire(now: int)
    | DoBeginCommit(expected: Status) | DoFinish | DoFail(code: string) | DoStop | DoInterval(interval: int)

  function Do(x: Session, d: Section): Session {
    match d
    case DoConsume(now) => Consume(x, now)
    case DoReject(state, now) => Reject(x, state, now)
    case DoCancel(now) => Cancel(x, now)
    case DoExpire(now) => ExpireIfNeeded(x, now)
    case DoBeginCommit(expected) => BeginCommit(x, expected)
    case DoFinish => Finish(x)
    case DoFail(code) => Fail(x, code)
    case DoStop => Stop(x)
    case DoInterval(interval) => x.(interval := interval)
  }

  /** A finished flow keeps no secret. */
  predicate NoSecretsWhenDone(x: Session) { Terminal(x.status) ==> x.secrets == CLEARED }

  /** A commit is only ever begun from a status of lower rank. */
  predicate Sensible(d: Section) { d.DoBeginCommit? ==> Rank(d.expected) < 2 }

  /** What a critical section may do to a flow. */
  ghost predicate Forward(x: Session, y: Session) {
    && (NoSecretsWhenDone(x) ==> NoSecretsWhenDone(y))
    && Rank(x.status) <= Rank(y.status)
    && (x.status.Complete? ==> y.status.Complete?)
    && (x.secrets == CLEARED ==> y.secrets == CLEARED)
  }

  /** No section moves a flow backwards, reopens a completed one, or leaves a secret in a finished one. */
  lemma SectionsGoForward(x: Session, d: Section)
    requires Sensible(d) && NoSecretsWhenDone(x)
    ensures Forward(x, Do(x, d))
  {
  }

  // ---- the flow's actors ----

  datatype Actor =
    | Exchanging                 // a callback that consumed the flow, talking to the provider
    | Waiting(wait: int)         // the device poller until its timer fires
    | Woken                      // the device poller about to read the flow
    | Asking(interval: int)      // the device poller until the provider answers
    | Saving                     // claimed the commit
    | Closing(saved: bool)       // about to report the outcome
    | Gone

  datatype State = State(
    session: Session,
    actors: map<nat, Actor>,
    claimer: Option<nat>,        // who began the commit
    saves: nat,                  // how often the credential was written
    slowdowns: nat,              // how often the provider asked the poller to slow down
    listens: bool,               // whether the flow has a callback listener of its own
    listenerFailed: bool)

  /** Actor 0 is the device poller. */
  const POLLER: nat := 0

  datatype PollAnswer = Granted | NotYet(slowDown: bool) | Refused(code: string)

  datatype Action =
    | Callback(c: nat, now: int)
    | Exchanged(c: nat, ok: bool, code: string)
    | Wake(now: int)
    | Poll
    | Answered(answer: PollAnswer)
    | Save(c: nat, ok: bool)
    | Report(c: nat)
    | RejectCallback(state: string, now: int)
    | CancelFlow(now: int)
    | Expire(now: int)           // a status query or the purge
    | ListenerFails
    | StopFlow                   // after any terminal section, or at shutdown

  predicate Enabled(s: State, a: Action) {
    match a
    case Callback(c, _) => c != POLLER && c !in s.actors
    case Exchanged(c, _, _) => c in s.actors && s.actors[c].Exchanging?
    case Wake(_) => POLLER in s.actors && s.actors[POLLER].Waiting?
    case Poll => POLLER in s.actors && s.actors[POLLER].Woken?
    case Answered(_) => POLLER in s.actors && s.actors[POLLER].Asking?
    case Save(c, _) => c in s.actors && s.actors[c].Saving?
    case Report(c) => c in s.actors && s.actors[c].Closing?
    case ListenerFails => s.listens
    case _ => true
  }

  function To(s: State, c: nat, v: Actor): State { s.(actors := s.actors[c := v]) }

  function In(s: State, d: Section): State { s.(session := Do(s.session, d)) }

  /** Claiming the final write: only a claim from the expected status succeeds. */
  function Claim(s: State, c: nat, expected: Status): State {
    if s.session.status == expected then To(In(s, DoBeginCommit(expected)), c, Saving).(claimer := Some(c))
    else To(s, c, Gone)
  }

  /** How long the poller's timer runs; an interval that is not positive counts as five seconds. */
  function Wait(interval: int): int { if interval <= 0 then 5 * SECOND else interval }

  function Told(s: State, answer: PollAnswer): State
    requires Enabled(s, Answered(answer))
  {
    match answer
    case Granted => Claim(s, POLLER, Polling)
    case Refused(code) => To(In(s, DoFail(code)), POLLER, Gone)
    case NotYet(slow) =>
      var interval := s.actors[POLLER].interval;
      if slow then To(In(s, DoInterval(interval + 5 * SECOND)), POLLER, Waiting(Wait(interval + 5 * SECOND))).(slowdowns := s.slowdowns + 1)
      else To(s, POLLER, Waiting(Wait(interval)))
  }

  function Apply(s: State, a: Action): State
    requires Enabled(s, a)
  {
    match a
    case Callback(c, now) => To(In(s, DoConsume(now)), c, if Consumes(s.session, now) then Exchanging else Gone)
    case Exchanged(c, ok, code) => if ok then Claim(s, c, Consumed) else To(In(s, DoFail(code)), c, Gone)
    case Wake(now) => To(In(s, DoExpire(now)), POLLER, Woken)
    case Poll => To(s, POLLER, if s.session.status.Polling? then Asking(s.session.interval) else Gone)
    case Answered(answer) => Told(s, answer)
    case Save(c, ok) => To(s, c, Closing(ok)).(saves := if ok then s.saves + 1 else s.saves)
    case Report(c) => To(In(s, if s.actors[c].saved then DoFinish else DoFail("oauth_credential_save_failed")), c, Gone)
    case RejectCallback(state, now) => In(s, DoReject(state, now))
    case CancelFlow(now) => In(s, DoCancel(now))
    case Expire(now) => In(s, DoExpire(now))
    case ListenerFails => In(s, DoFail("oauth_callback_unavailable")).(listenerFailed := true)
    case StopFlow => In(s, DoStop)
  }

  datatype Mode = Browser | Device

  /** StartAuthorization: a browser flow waits for its callback, a device flow is polled at once. */
  function Start(mode: Mode, secrets: Secrets, expiresAt: int, interval: int, listens: bool): State {
    State(Session(if mode.Browser? then Pending else Polling, "", secrets, expiresAt, None, interval, false, listens),
          if mode.Browser? then map[] else map[POLLER := Waiting(0)], None, 0, 0, mode.Browser? && listens, false)
  }

  /** Steps that cannot be taken when their turn comes are passed over. */
  function RunFrom(s: State, actions: seq<Action>): State {
    if actions == [] then s
    else
      Next(RunFrom(s, actions[..|actions| - 1]), actions[|actions| - 1])
  }

  function Next(s: State, a: Action): State { if Enabled(s, a) then Apply(s, a) else s }

  // ---- what every interleaving keeps ----

  predicate Committer(v: Actor) { v.Saving? || v.Closing? }
  predicate Poller(v: Actor) { v.Waiting? || v.Woken? || v.Asking? }

  predicate Live(actors: map<nat, Actor>, c: nat) { c in actors && !actors[c].Gone? }

  /** At most one actor is at work, none before a callback was accepted, and only actor 0 polls. */
  ghost predicate OneLiveActor(status: Status, actors: map<nat, Actor>) {
    && (forall c, d :: Live(actors, c) && Live(actors, d) ==> c == d)
    && (status.Pending? ==> forall c :: !Live(actors, c))
    && (forall c :: c in actors && Poller(actors[c]) ==> c == POLLER)
  }

  /** The commit is claimed once, by the one actor that then saves and reports. */
  predicate OneClaim(s: State) {
    match s.claimer
    case None => s.saves == 0 && !s.session.status.Committing? && !s.session.status.Complete?
    case Some(c) =>
      && c in s.actors
      && Rank(s.session.status) >= 2
      && match s.actors[c]
         case Saving => s.saves == 0 && AwaitsReport(s)
         case Closing(saved) => s.saves == (if saved then 1 else 0) && AwaitsReport(s)
         case Gone => s.saves == (if s.session.status.Complete? then 1 else 0) && Terminal(s.session.status)
         case _ => false
  }

  /** Between claim and report the flow is committing, unless its listener failed meanwhile. */
  predicate AwaitsReport(s: State) {
    !s.session.status.Complete? && (s.listenerFailed || s.session.status.Committing?)
  }

  ghost predicate OnlyTheClaimerCommits(s: State) {
    forall c :: c in s.actors && Committer(s.actors[c]) ==> s.claimer == Some(c)
  }

  predicate Paced(s: State, interval: int) {
    && s.session.interval == interval + 5 * SECOND * s.slowdowns
    && (POLLER in s.actors ==>
          match s.actors[POLLER]
          case Waiting(wait) => wait == Wait(s.session.interval) || (wait == 0 && s.slowdowns == 0)
          case Asking(i) => i == s.session.interval
          case _ => true)
  }

  ghost predicate Inv(s: State, interval: int) {
    && NoSecretsWhenDone(s.session)
    && OneLiveActor(s.session.status, s.actors)
    && OneClaim(s)
    && OnlyTheClaimerCommits(s)
    && Paced(s, interval)
    && (s.listenerFailed ==> s.listens)
  }

  lemma SetActor(status: Status, after: Status, actors: map<nat, Actor>, c: nat, v: Actor)
    requires OneLiveActor(status, actors)
    requires after.Pending? ==> status.Pending?
    requires v.Gone? || Live(actors, c) || (status.Pending? && !after.Pending?)
    requires Poller(v) ==> c == POLLER
    ensures OneLiveActor(after, actors[c := v])
  {
    var more := actors[c := v];
    forall d | Live(more, d) && d != c ensures Live(actors, d) { }
  }

  lemma PollerStaysAlone(s: State, a: Action)
    requires OneLiveActor(s.session.status, s.actors) && Enabled(s, a) && (a.Wake? || a.Poll? || a.Answered?)
    ensures OneLiveActor(Apply(s, a).session.status, Apply(s, a).actors)
  {
    var n := Apply(s, a);
    assert n.actors == s.actors[POLLER := n.actors[POLLER]];
    assert n.session.status.Pending? ==> s.session.status.Pending?;
    SetActor(s.session.status, n.session.status, s.actors, POLLER, n.actors[POLLER]);
  }

  lemma CallbackStaysAlone(s: State, a: Action)
    requires OneLiveActor(s.session.status, s.actors) && Enabled(s, a) && (a.Callback? || a.Exchanged? || a.Save? || a.Report?)
    ensures OneLiveActor(Apply(s, a).session.status, Apply(s, a).actors)
  {
    var n := Apply(s, a);
    assert n.actors == s.actors[a.c := n.actors[a.c]];
    assert n.session.status.Pending? ==> s.session.status.Pending?;
    SetActor(s.session.status, n.session.status, s.actors, a.c, n.actors[a.c]);
  }

  lemma KeepsOneLiveActor(s: State, a: Action)
    requires OneLiveActor(s.session.status, s.actors) && Enabled(s, a)
    ensures OneLiveActor(Apply(s, a).session.status, Apply(s, a).actors)
  {
    if a.Wake? || a.Poll? || a.Answered? { PollerStaysAlone(s, a); }
    else if a.Callback? || a.Exchanged? || a.Save? || a.Report? { CallbackStaysAlone(s, a); }
  }

  ghost predicate ClaimInv(s: State) {
    OneLiveActor(s.session.status, s.actors) && OneClaim(s) && OnlyTheClaimerCommits(s)
  }

  /** Once the commit is claimed, the only live actor is the claimer. */
  lemma NobodyBesideTheClaimer(s: State, c: nat)
    requires ClaimInv(s) && Live(s.actors, c) && !Committer(s.actors[c])
    ensures s.claimer.Some? ==> s.claimer.value != c && s.actors[s.claimer.value].Gone?
  {
    assert s.claimer.Some? && !s.actors[s.claimer.value].Gone? ==> Live(s.actors, s.claimer.value);
  }

  /** A claim by an actor beside whom there is no live claimer. */
  lemma ClaimIsOne(s: State, c: nat, expected: Status)
    requires OneClaim(s) && c in s.actors && Rank(expected) < 2
    requires s.claimer.Some? ==> s.claimer.value != c && s.actors[s.claimer.value].Gone?
    ensures OneClaim(Claim(s, c, expected))
  {
  }

  lemma FailIsOne(s: State, c: nat, code: string)
    requires OneClaim(s) && c in s.actors
    requires s.claimer.Some? ==> s.claimer.value != c && s.actors[s.claimer.value].Gone?
    ensures OneClaim(To(In(s, DoFail(code)), c, Gone))
  {
  }

  lemma KeepsClaimOnExchange(s: State, a: Action)
    requires ClaimInv(s) && Enabled(s, a) && a.Exchanged?
    ensures OneClaim(Apply(s, a))
  {
    NobodyBesideTheClaimer(s, a.c);
    if a.ok { ClaimIsOne(s, a.c, Consumed); } else { FailIsOne(s, a.c, a.code); }
  }

  lemma KeepsClaimOnPoll(s: State, answer: PollAnswer)
    requires ClaimInv(s) && Enabled(s, Answered(answer))
    ensures OneClaim(Told(s, answer))
  {
    NobodyBesideTheClaimer(s, POLLER);
    match answer
    case Granted => ClaimIsOne(s, POLLER, Polling);
    case Refused(code) => FailIsOne(s, POLLER, code);
    case NotYet(_) =>
  }

  lemma KeepsClaimOnWaking(s: State, a: Action)
    requires ClaimInv(s) && Enabled(s, a) && (a.Callback? || a.Wake? || a.Poll?)
    ensures OneClaim(Apply(s, a))
  {
    if !a.Callback? { NobodyBesideTheClaimer(s, POLLER); }
  }

  lemma KeepsClaimOnWriting(s: State, a: Action)
    requires ClaimInv(s) && Enabled(s, a) && (a.Save? || a.Report?)
    ensures OneClaim(Apply(s, a))
  {
    assert s.claimer == Some(a.c);
  }

  lemma KeepsClaimFromOutside(s: State, a: Action)
    requires ClaimInv(s) && Enabled(s, a)
    requires a.RejectCallback? || a.CancelFlow? || a.Expire? || a.ListenerFails? || a.StopFlow?
    ensures OneClaim(Apply(s, a))
  {
  }

  lemma KeepsClaim(s: State, a: Action)
    requires ClaimInv(s) && Enabled(s, a)
    ensures OneClaim(Apply(s, a))
  {
    if a.Exchanged? { KeepsClaimOnExchange(s, a); }
    else if a.Answered? { KeepsClaimOnPoll(s, a.answer); }
    else if a.Callback? || a.Wake? || a.Poll? { KeepsClaimOnWaking(s, a); }
    else if a.Save? || a.Report? { KeepsClaimOnWriting(s, a); }
    else { KeepsClaimFromOutside(s, a); }
  }

  lemma NewClaimer(s: State, a: Action)
    requires ClaimInv(s) && Enabled(s, a) && (a.Exchanged? || a.Answered?)
    ensures OnlyTheClaimerCommits(Apply(s, a))
  {
    var c := if a.Exchanged? then a.c else POLLER;
    NobodyBesideTheClaimer(s, c);
    assert Live(s.actors, c);
    forall d | d in s.actors && d != c ensures !Committer(s.actors[d]) {
      assert Live(s.actors, d) ==> d == c;
    }
  }

  lemma KeepsOnlyTheClaimer(s: State, a: Action)
    requires ClaimInv(s) && Enabled(s, a)
    ensures OnlyTheClaimerCommits(Apply(s, a))
  {
    if a.Exchanged? || a.Answered? { NewClaimer(s, a); }
  }

  lemma KeepsPaceOnAnswer(s: State, answer: PollAnswer, interval: int)
    requires Paced(s, interval) && Enabled(s, Answered(answer))
    ensures Paced(Told(s, answer), interval)
  {
  }

  lemma KeepsPace(s: State, a: Action, interval: int)
    requires Paced(s, interval) && Enabled(s, a)
    ensures Paced(Apply(s, a), interval)
  {
    if a.Answered? { KeepsPaceOnAnswer(s, a.answer, interval); }
  }

  lemma KeepsRank(s: State, a: Action)
    requires NoSecretsWhenDone(s.session) && Enabled(s, a)
    ensures Forward(s.session, Apply(s, a).session)
    ensures s.listens == Apply(s, a).listens
  {
    var x := s.session;
    match a
    case Callback(_, now) => SectionsGoForward(x, DoConsume(now));
    case Exchanged(_, ok, code) => SectionsGoForward(x, if ok then DoBeginCommit(Consumed) else DoFail(code));
    case Wake(now) => SectionsGoForward(x, DoExpire(now));
    case Poll =>
    case Answered(Granted) => SectionsGoForward(x, DoBeginCommit(Polling));
    case Answered(Refused(code)) => SectionsGoForward(x, DoFail(code));
    case Answered(NotYet(_)) =>
    case Save(_, _) =>
    case Report(c) => SectionsGoForward(x, DoFinish); SectionsGoForward(x, DoFail("oauth_credential_save_failed"));
    case RejectCallback(state, now) => SectionsGoForward(x, DoReject(state, now));
    case CancelFlow(now) => SectionsGoForward(x, DoCancel(now));
    case Expire(now) => SectionsGoForward(x, DoExpire(now));
    case ListenerFails => SectionsGoForward(x, DoFail("oauth_callback_unavailable"));
    case StopFlow => SectionsGoForward(x, DoStop);
  }

  lemma StartInv(mode: Mode, secrets: Secrets, expiresAt: int, interval: int, listens: bool)
    ensures Inv(Start(mode, secrets, expiresAt, interval, listens), interval)
  {
  }

  /** In every interleaving the flow's rank never falls, and a completed flow stays completed. */
  lemma {:induction false} EveryRun(s: State, actions: seq<Action>, interval: int)
    requires Inv(s, interval)
    ensures Inv(RunFrom(s, actions), interval)
    ensures Rank(s.session.status) <= Rank(RunFrom(s, actions).session.status)
    ensures s.session.status.Complete? ==> RunFrom(s, actions).session.status.Complete?
    ensures RunFrom(s, actions).listens == s.listens
  {
    if actions != [] {
      EveryRun(s, actions[..|actions| - 1], interval);
      var t, a := RunFrom(s, actions[..|actions| - 1]), actions[|actions| - 1];
      if Enabled(t, a) {
        KeepsOneLiveActor(t, a);
        KeepsClaim(t, a);
        KeepsOnlyTheClaimer(t, a);
        KeepsPace(t, a, interval);
        KeepsRank(t, a);
      }
    }
  }

  // ---- the main results ----

  lemma {:induction false} RunAppend(s: State, before: seq<Action>, after: seq<Action>)
    ensures RunFrom(s, before + after) == RunFrom(RunFrom(s, before), after)
  {
    if after == [] {
      assert before + after == before;
    } else {
      var last := |after| - 1;
      assert (before + after)[..|before + after| - 1] == before + after[..last];
      RunAppend(s, before, after[..last]);
    }
  }

  /** Whatever the flow's actors do, a longer run never takes it to a lower rank, and completion is final. */
  lemma RankNeverFalls(mode: Mode, secrets: Secrets, expiresAt: int, interval: int, listens: bool, before: seq<Action>, after: seq<Action>)
    ensures var s := Start(mode, secrets, expiresAt, interval, listens);
            var x, y := RunFrom(s, before).session, RunFrom(s, before + after).session;
            && Rank(x.status) <= Rank(y.status)
            && (x.status.Complete? ==> y.status.Complete?)
  {
    var s := Start(mode, secrets, expiresAt, interval, listens);
    StartInv(mode, secrets, expiresAt, interval, listens);
    EveryRun(s, before, interval);
    EveryRun(RunFrom(s, before), after, interval);
    RunAppend(s, before, after);
  }

  /** Nothing is left to happen but requests from outside. */
  ghost predicate Settled(s: State) { forall c :: !Live(s.actors, c) }

  /**
   The credential is written at most once, only after a successful claim, and once all actors are
   done the flow reports completion exactly when it was written.
   */
  lemma SavedAtMostOnce(mode: Mode, secrets: Secrets, expiresAt: int, interval: int, listens: bool, actions: seq<Action>)
    ensures var r := RunFrom(Start(mode, secrets, expiresAt, interval, listens), actions);
            && r.saves <= 1
            && (r.saves == 1 ==> r.claimer.Some?)
            && (r.session.status.Complete? ==> r.saves == 1)
            && (Settled(r) ==> (r.saves == 1 <==> r.session.status.Complete?))
  {
    StartInv(mode, secrets, expiresAt, interval, listens);
    EveryRun(Start(mode, secrets, expiresAt, interval, listens), actions, interval);
    var r := RunFrom(Start(mode, secrets, expiresAt, interval, listens), actions);
    if Settled(r) && r.claimer.Some? {
      assert !Live(r.actors, r.claimer.value);
    }
  }

  /** A flow that ends - cancelled, expired, refused - before its commit is claimed is never saved or completed. */
  lemma EndingBeforeTheClaimPreventsTheSave(mode: Mode, secrets: Secrets, expiresAt: int, interval: int, listens: bool,
                                            before: seq<Action>, after: seq<Action>)
    requires var r := RunFrom(Start(mode, secrets, expiresAt, interval, listens), before);
             Terminal(r.session.status) && r.claimer.None?
    ensures var t := RunFrom(Start(mode, secrets, expiresAt, interval, listens), before + after);
            t.saves == 0 && t.claimer.None? && Terminal(t.session.status) && !t.session.status.Complete?
  {
    var s := Start(mode, secrets, expiresAt, interval, listens);
    StartInv(mode, secrets, expiresAt, interval, listens);
    EveryRun(s, before, interval);
    RunAppend(s, before, after);
    NoClaimAfterTheEnd(RunFrom(s, before), after, interval);
  }

  lemma {:induction false} NoClaimAfterTheEnd(s: State, actions: seq<Action>, interval: int)
    requires Inv(s, interval) && Terminal(s.session.status) && s.claimer.None?
    ensures var t := RunFrom(s, actions);
            t.saves == 0 && t.claimer.None? && Terminal(t.session.status) && !t.session.status.Complete?
  {
    if actions != [] {
      var t, a := RunFrom(s, actions[..|actions| - 1]), actions[|actions| - 1];
      NoClaimAfterTheEnd(s, actions[..|actions| - 1], interval);
      EveryRun(s, actions[..|actions| - 1], interval);
      EveryRun(s, actions, interval);
      if Enabled(t, a) { ClaimsNeedAnOpenFlow(t, a); }
    }
  }

  lemma ClaimsNeedAnOpenFlow(s: State, a: Action)
    requires Enabled(s, a) && Terminal(s.session.status) && s.claimer.None?
    ensures Apply(s, a).claimer.None?
  {
  }

  /** Neither finished nor committing. */
  predicate Open(status: Status) { status.Pending? || status.Polling? || status.Consumed? }

  predicate SomeCancel(actions: seq<Action>) { exists k :: 0 <= k < |actions| && actions[k].CancelFlow? }

  /** A flow that ended unclaimed stays as it is, unless it is cancelled afterwards. */
  lemma EndedStep(s: State, a: Action)
    requires Enabled(s, a) && OnlyTheClaimerCommits(s) && s.claimer.None?
    requires s.session.status.Cancelled? || s.session.status.Expired? || s.session.status.Failed?
    ensures Apply(s, a).session.status == if a.CancelFlow? then Cancelled else s.session.status
  {
    ActsThrough(s, a);
    assert a.Report? ==> !Committer(s.actors[a.c]);
    EndedSection(s.session, SectionOf(s, a));
  }

  /** The critical section an action takes; without one the interval is left as it is. */
  function SectionOf(s: State, a: Action): Section
    requires Enabled(s, a)
  {
    match a
    case Callback(_, now) => DoConsume(now)
    case Exchanged(_, ok, code) => if ok then DoBeginCommit(Consumed) else DoFail(code)
    case Answered(Granted) => DoBeginCommit(Polling)
    case Answered(Refused(code)) => DoFail(code)
    case Answered(NotYet(slow)) => DoInterval(if slow then s.actors[POLLER].interval + 5 * SECOND else s.session.interval)
    case Report(c) => if s.actors[c].saved then DoFinish else DoFail("oauth_credential_save_failed")
    case RejectCallback(state, now) => DoReject(state, now)
    case CancelFlow(now) => DoCancel(now)
    case Wake(now) => DoExpire(now)
    case Expire(now) => DoExpire(now)
    case ListenerFails => DoFail("oauth_callback_unavailable")
    case StopFlow => DoStop
    case _ => DoInterval(s.session.interval)
  }

  lemma ActsThrough(s: State, a: Action)
    requires Enabled(s, a)
    ensures Apply(s, a).session == Do(s.session, SectionOf(s, a))
  {
  }

  lemma EndedSection(x: Session, d: Section)
    requires x.status.Cancelled? || x.status.Expired? || x.status.Failed?
    requires Sensible(d) && !d.DoFinish?
    ensures Do(x, d).status == if d.DoCancel? then Cancelled else x.status
  {
  }

  lemma {:induction false} EndedRun(s: State, actions: seq<Action>, interval: int)
    requires Inv(s, interval) && s.claimer.None?
    requires s.session.status.Cancelled? || s.session.status.Expired? || s.session.status.Failed?
    ensures RunFrom(s, actions).session.status == if SomeCancel(actions) then Cancelled else s.session.status
    ensures RunFrom(s, actions).saves == 0
  {
    NoClaimAfterTheEnd(s, actions, interval);
    if actions != [] {
      var init, a := actions[..|actions| - 1], actions[|actions| - 1];
      EndedRun(s, init, interval);
      EveryRun(s, init, interval);
      NoClaimAfterTheEnd(s, init, interval);
      assert SomeCancel(actions) <==> SomeCancel(init) || a.CancelFlow?;
      if Enabled(RunFrom(s, init), a) { EndedStep(RunFrom(s, init), a); }
    }
  }

  lemma {:induction false} ExpiryIsFixed(s: State, actions: seq<Action>)
    ensures RunFrom(s, actions).session.expiresAt == s.session.expiresAt
  {
    if actions != [] {
      var t, a := RunFrom(s, actions[..|actions| - 1]), actions[|actions| - 1];
      ExpiryIsFixed(s, actions[..|actions| - 1]);
      if Enabled(t, a) { StepKeepsExpiry(t, a); }
    }
  }

  lemma StepKeepsExpiry(s: State, a: Action)
    requires Enabled(s, a)
    ensures Apply(s, a).session.expiresAt == s.session.expiresAt
  {
    ActsThrough(s, a);
    SectionKeepsExpiry(s.session, SectionOf(s, a));
  }

  lemma SectionKeepsExpiry(x: Session, d: Section)
    ensures Do(x, d).expiresAt == x.expiresAt
  {
  }

  /** A run up to an open flow, one action that ends it, and whatever comes after. */
  lemma EndedByAction(s0: State, before: seq<Action>, a: Action, after: seq<Action>, interval: int)
    requires Inv(s0, interval) && Open(RunFrom(s0, before).session.status)
    requires var t := Next(RunFrom(s0, before), a).session.status; t.Cancelled? || t.Expired? || t.Failed?
    ensures var t := RunFrom(s0, before + [a] + after);
            && t.saves == 0
            && t.session.status == if SomeCancel(after) then Cancelled else Next(RunFrom(s0, before), a).session.status
  {
    var s := RunFrom(s0, before);
    EveryRun(s0, before, interval);
    assert (before + [a])[..|before|] == before;
    assert RunFrom(s0, before + [a]) == Next(s, a);
    EveryRun(s0, before + [a], interval);
    RunAppend(s0, before + [a], after);
    UnclaimedStep(s, a);
    EndedRun(Next(s, a), after, interval);
  }

  lemma UnclaimedStep(s: State, a: Action)
    requires OneClaim(s) && Open(s.session.status)
    requires var t := Next(s, a).session.status; t.Cancelled? || t.Expired? || t.Failed?
    ensures Next(s, a).claimer.None?
  {
  }

  /** Cancelling an open flow is final: whatever happens afterwards, it stays cancelled and is never saved. */
  lemma CancellationPreventsTheSave(mode: Mode, secrets: Secrets, expiresAt: int, interval: int, listens: bool,
                                    before: seq<Action>, now: int, after: seq<Action>)
    requires Open(RunFrom(Start(mode, secrets, expiresAt, interval, listens), before).session.status)
    ensures var t := RunFrom(Start(mode, secrets, expiresAt, interval, listens), before + [CancelFlow(now)] + after);
            t.session.status.Cancelled? && t.saves == 0
  {
    StartInv(mode, secrets, expiresAt, interval, listens);
    EndedByAction(Start(mode, secrets, expiresAt, interval, listens), before, CancelFlow(now), after, interval);
  }

  /** A status query, the purge, the poller waking or a late callback. */
  predicate Looks(s: State, a: Action, now: int) {
    || a == Expire(now)
    || (a == Wake(now) && Enabled(s, a))
    || (a.Callback? && a.now == now && Enabled(s, a) && s.session.status.Pending?)
  }

  /** An open flow that is looked at past its time expires: it is never saved, and stays expired unless it is cancelled. */
  lemma ExpiryPreventsTheSave(mode: Mode, secrets: Secrets, expiresAt: int, interval: int, listens: bool,
                              before: seq<Action>, a: Action, now: int, after: seq<Action>)
    requires var s := RunFrom(Start(mode, secrets, expiresAt, interval, listens), before);
             Open(s.session.status) && now > expiresAt && Looks(s, a, now)
    ensures var t := RunFrom(Start(mode, secrets, expiresAt, interval, listens), before + [a] + after);
            t.saves == 0 && t.session.status == if SomeCancel(after) then Cancelled else Expired
  {
    StartInv(mode, secrets, expiresAt, interval, listens);
    ExpiryIsFixed(Start(mode, secrets, expiresAt, interval, listens), before);
    EndedByAction(Start(mode, secrets, expiresAt, interval, listens), before, a, after, interval);
  }

  /** A denial with the flow's own state ends a pending flow for good. */
  lemma DenialPreventsTheSave(mode: Mode, secrets: Secrets, expiresAt: int, interval: int, listens: bool,
                              before: seq<Action>, state: string, now: int, after: seq<Action>)
    requires var x := RunFrom(Start(mode, secrets, expiresAt, interval, listens), before).session;
             x.status.Pending? && x.secrets.state == state != "" && now <= expiresAt
    ensures var t := RunFrom(Start(mode, secrets, expiresAt, interval, listens), before + [RejectCallback(state, now)] + after);
            t.saves == 0 && t.session.status == if SomeCancel(after) then Cancelled else Failed
  {
    StartInv(mode, secrets, expiresAt, interval, listens);
    ExpiryIsFixed(Start(mode, secrets, expiresAt, interval, listens), before);
    EndedByAction(Start(mode, secrets, expiresAt, interval, listens), before, RejectCallback(state, now), after, interval);
  }

  /** A callback in time whose exchange and write succeed completes a browser flow. */
  lemma BrowserFlowCompletes(secrets: Secrets, expiresAt: int, interval: int, listens: bool, c: nat, now: int)
    requires c != POLLER && now <= expiresAt
    ensures var t := RunFrom(Start(Browser, secrets, expiresAt, interval, listens),
                             [Callback(c, now), Exchanged(c, true, ""), Save(c, true), Report(c), StopFlow]);
            t.session.status.Complete? && t.saves == 1 && t.session.secrets == Secrets("", "", "", "")
  {
    var s := Start(Browser, secrets, expiresAt, interval, listens);
    FiveSteps(s, [Callback(c, now), Exchanged(c, true, ""), Save(c, true), Report(c), StopFlow]);
    SaveCompletes(Next(Next(s, Callback(c, now)), Exchanged(c, true, "")), c);
  }

  /** From a successful claim on. */
  lemma SaveCompletes(s: State, c: nat)
    requires c in s.actors && s.actors[c].Saving? && s.saves == 0
    ensures var t := Next(Next(Next(s, Save(c, true)), Report(c)), StopFlow);
            t.session.status.Complete? && t.saves == 1 && t.session.secrets == Secrets("", "", "", "")
  {
  }

  /** A poll in time that is granted, and whose write succeeds, completes a device flow. */
  lemma DeviceFlowCompletes(secrets: Secrets, expiresAt: int, interval: int, now: int)
    requires now <= expiresAt
    ensures var t := RunFrom(Start(Device, secrets, expiresAt, interval, false),
                             [Wake(now), Poll, Answered(Granted), Save(POLLER, true), Report(POLLER)]);
            t.session.status.Complete? && t.saves == 1 && t.session.secrets == Secrets("", "", "", "")
  {
    FiveSteps(Start(Device, secrets, expiresAt, interval, false), [Wake(now), Poll, Answered(Granted), Save(POLLER, true), Report(POLLER)]);
  }

  /** What ends an open flow without a save is recorded with its code, and the flow's secrets go. */
  lemma FailuresAreRecorded(s: State, a: Action)
    requires Enabled(s, a) && Open(s.session.status)
    requires a.Exchanged? || a.Answered? || a.ListenerFails? || a.Expire?
    ensures var x := Apply(s, a).session;
            && (a.Exchanged? && !a.ok ==> EndedWith(x, Failed, a.code))
            && (a.Answered? && a.answer.Refused? ==> EndedWith(x, Failed, a.answer.code))
            && (a.ListenerFails? ==> EndedWith(x, Failed, "oauth_callback_unavailable"))
            && (a.Expire? && a.now > s.session.expiresAt ==> EndedWith(x, Expired, "invalid_state"))
            && (a.Expire? && a.now <= s.session.expiresAt ==> x == s.session)
  {
    ActsThrough(s, a);
  }

  predicate EndedWith(x: Session, status: Status, code: string) {
    x.status == status && x.errorCode == code && x.secrets == Secrets("", "", "", "")
  }

  predicate CancelledThoughSaved(s: State) { s.saves == 1 && s.session.status.Cancelled? }

  /**
   The callback listener's failure is reported without regard to a commit under way, so a cancellation may
   then still be recorded although the credential is written. Exactly the flows with a listener of their own are open to it.
   */
  lemma CancelledThoughSavedIff(mode: Mode, secrets: Secrets, expiresAt: int, interval: int, listens: bool)
    ensures (exists actions :: CancelledThoughSaved(RunFrom(Start(mode, secrets, expiresAt, interval, listens), actions)))
            <==> mode.Browser? && listens
  {
    var s := Start(mode, secrets, expiresAt, interval, listens);
    StartInv(mode, secrets, expiresAt, interval, listens);
    forall actions | CancelledThoughSaved(RunFrom(s, actions)) ensures mode.Browser? && listens {
      EveryRun(s, actions, interval);
    }
    if mode.Browser? && listens {
      var a := ListenerFailsDuringCommit(expiresAt);
      FiveSteps(s, a);
      assert CancelledThoughSaved(RunFrom(s, a));
    }
  }

  function ListenerFailsDuringCommit(now: int): (a: seq<Action>) {
    [Callback(1, now), Exchanged(1, true, ""), ListenerFails, CancelFlow(now), Save(1, true)]
  }

  lemma FiveSteps(s: State, a: seq<Action>)
    requires |a| == 5
    ensures RunFrom(s, a) == Next(Next(Next(Next(Next(s, a[0]), a[1]), a[2]), a[3]), a[4])
  {
    assert a[..4][..3] == a[..3] && a[..3][..2] == a[..2] && a[..2][..1] == a[..1] && a[..1][..0] == [];
    assert RunFrom(s, a[..0]) == s;
    assert RunFrom(s, a[..1]) == Next(s, a[0]);
    assert RunFrom(s, a[..2]) == Next(RunFrom(s, a[..1]), a[1]);
    assert RunFrom(s, a[..3]) == Next(RunFrom(s, a[..2]), a[2]);
    assert RunFrom(s, a[..4]) == Next(RunFrom(s, a[..3]), a[3]);
  }

  /** Finished flows hold no secret, so no callback's state can match one. */
  lemma FinishedFlowsHoldNoSecret(mode: Mode, secrets: Secrets, expiresAt: int, interval: int, listens: bool, actions: seq<Action>, state: string)
    requires state != ""
    ensures var x := RunFrom(Start(mode, secrets, expiresAt, interval, listens), actions).session;
            && (Terminal(x.status) ==> x.secrets == CLEARED)
            && (x.secrets.state == state ==> !Terminal(x.status))
  {
    StartInv(mode, secrets, expiresAt, interval, listens);
    EveryRun(Start(mode, secrets, expiresAt, interval, listens), actions, interval);
  }

  /**
   The device poller's pace (RFC 8628, section 3.5): five seconds are added for every request to slow down, for good,
   and between two polls the poller waits for that long.
   */
  lemma PollerSlowsDown(secrets: Secrets, expiresAt: int, interval: int, actions: seq<Action>)
    ensures var r := RunFrom(Start(Device, secrets, expiresAt, interval, false), actions);
            POLLER in r.actors && r.actors[POLLER].Waiting? ==>
              r.actors[POLLER].wait == Wait(interval + 5 * SECOND * r.slowdowns) || (r.actors[POLLER].wait == 0 && r.slowdowns == 0)
  {
    StartInv(Device, secrets, expiresAt, interval, false);
    EveryRun(Start(Device, secrets, expiresAt, interval, false), actions, interval);
  }
}
