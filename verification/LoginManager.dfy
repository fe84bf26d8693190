/**
 The login flow as the manager updates it in place, the device poller's loop, and the
 session table with its lookup by state and its purge (internal/auth/manager.go).
 */
module LoginManager {
  import opened Wrappers
  import opened LoginSession

  /** One round of the poller: when it woke, what the provider said, and whether a write would succeed. */
  datatype Round = Round(now: int, answer: PollAnswer, saveOk: bool)

  /** The outcome of talking to the provider and the store after a callback. */
  datatype Outcome = ExchangeFailed(code: string) | SaveFailed | Saved

  // ---- what a call does to a flow when nothing else touches it meanwhile ----

  function Stopped(x: Session, changed: bool): Session { if changed then Stop(x) else x }

  function Written(x: Session, expected: Status, outcome: Outcome): Session {
    match outcome
    case ExchangeFailed(code) => FailedAndStopped(x, code)
    case SaveFailed => if x.status == expected then FailedAndStopped(BeginCommit(x, expected), "oauth_credential_save_failed") else x
    case Saved => if x.status == expected then Stop(Finish(BeginCommit(x, expected))) else x
  }

  function FailedAndStopped(x: Session, code: string): Session { Stopped(Fail(x, code), FailTakes(x)) }

  predicate FailTakes(x: Session) { !x.status.Cancelled? && !x.status.Complete? && !x.status.Expired? }
  predicate CancelTakes(x: Session) { !x.status.Complete? && !x.status.Cancelled? && !x.status.Committing? }
  predicate Expires(x: Session, now: int) { now > x.expiresAt && CanExpire(x.status) }

  function CalledBack(x: Session, now: int, outcome: Outcome): Session {
    if !x.status.Pending? then x
    else if now > x.expiresAt then Stop(Expiring(x))
    else Written(Consume(x, now), Consumed, outcome)
  }

  function Slowed(x: Session, answer: PollAnswer): Session {
    if answer == NotYet(true) then x.(interval := x.interval + 5 * SECOND) else x
  }

  function RunOut(x: Session, now: int): Session { Stopped(ExpireIfNeeded(x, now), Expires(x, now)) }

  predicate GoesOn(x: Session, r: Round) { RunOut(x, r.now).status.Polling? && r.answer.NotYet? }

  /** A single round of the poller. */
  function Polled(x: Session, r: Round): Session {
    var y := RunOut(x, r.now);
    if !y.status.Polling? then y
    else match r.answer
         case Granted => Written(y, Polling, if r.saveOk then Saved else SaveFailed)
         case Refused(code) => FailedAndStopped(y, code)
         case NotYet(_) => Slowed(y, r.answer)
  }

  /** The poller's rounds, up to the first that ends it. */
  function PolledAll(x: Session, rounds: seq<Round>): Session
    decreases |rounds|
  {
    if rounds == [] then x
    else if !GoesOn(x, rounds[0]) then Polled(x, rounds[0])
    else PolledAll(Polled(x, rounds[0]), rounds[1..])
  }

  function SlowDowns(rounds: seq<Round>): nat {
    if rounds == [] then 0 else (if rounds[0].answer == NotYet(true) then 1 else 0) + SlowDowns(rounds[1..])
  }

  function SlowedBy(x: Session, n: nat): Session { x.(interval := x.interval + 5 * SECOND * n) }

  /** Rounds after which the poller is still waiting for the user. */
  predicate StillPolling(x: Session, rounds: seq<Round>) {
    x.status.Polling? && forall k :: 0 <= k < |rounds| ==> rounds[k].answer.NotYet? && rounds[k].now <= x.expiresAt
  }

  lemma SlowedOnce(x: Session, answer: PollAnswer, n: nat)
    ensures SlowedBy(Slowed(x, answer), n) == SlowedBy(x, (if answer == NotYet(true) then 1 else 0) + n)
  {
  }

  lemma UnansweredRound(x: Session, r: Round, rest: seq<Round>)
    requires x.status.Polling? && r.answer.NotYet? && r.now <= x.expiresAt
    ensures PolledAll(x, [r] + rest) == PolledAll(Slowed(x, r.answer), rest)
  {
    assert ([r] + rest)[0] == r && ([r] + rest)[1..] == rest;
  }

  /** As long as the user has not answered and time has not run out, all that changes is the pace. */
  lemma {:induction false} StillPollingKeepsTheFlow(x: Session, rounds: seq<Round>, more: seq<Round>)
    requires StillPolling(x, rounds)
    ensures PolledAll(x, rounds + more) == PolledAll(SlowedBy(x, SlowDowns(rounds)), more)
    decreases |rounds|
  {
    if rounds == [] {
      assert rounds + more == more;
    } else {
      var r, rest := rounds[0], rounds[1..];
      var y := Slowed(x, r.answer);
      assert rounds + more == [r] + (rest + more);
      UnansweredRound(x, r, rest + more);
      assert StillPolling(y, rest);
      StillPollingKeepsTheFlow(y, rest, more);
      SlowedOnce(x, r.answer, SlowDowns(rest));
    }
  }

  /** The flow as a value moves only forward under whole calls too. */
  lemma CallsGoForward(x: Session, now: int, outcome: Outcome, r: Round)
    requires NoSecretsWhenDone(x)
    ensures Forward(x, CalledBack(x, now, outcome)) && Forward(x, Polled(x, r))
    ensures CalledBack(x, now, outcome).status.Complete? <==> x.status.Complete? || (Consumes(x, now) && outcome.Saved?)
    ensures Polled(x, r).status.Complete? <==>
            x.status.Complete? || (x.status.Polling? && r.now <= x.expiresAt && r.answer.Granted? && r.saveOk)
  {
  }

  // ---- the flow as an object ----

  class Flow {
    var status: Status
    var errorCode: string
    var state: string
    var verifier: string
    var deviceCode: string
    var deviceUserCode: string
    const expiresAt: int
    var consumedAt: Option<int>
    var interval: int
    var cancelClosed: bool
    var serving: bool

    ghost function View(): Session
      reads this
    {
      Session(status, errorCode, Secrets(state, verifier, deviceCode, deviceUserCode), expiresAt, consumedAt, interval, cancelClosed, serving)
    }

    ghost predicate NoSecrets() reads this { state == "" && verifier == "" && deviceCode == "" && deviceUserCode == "" }

    constructor (mode: Mode, secrets: Secrets, expires: int, every: int, listens: bool)
      ensures View() == Start(mode, secrets, expires, every, listens).session
    {
      status := if mode.Browser? then Pending else Polling;
      errorCode := "";
      state, verifier, deviceCode, deviceUserCode := secrets.state, secrets.verifier, secrets.deviceCode, secrets.deviceUserCode;
      expiresAt, consumedAt, interval, cancelClosed, serving := expires, None, every, false, listens;
    }

    method ClearSecrets()
      modifies this
      ensures View() == old(View()).(secrets := CLEARED)
    {
      state, verifier, deviceCode, deviceUserCode := "", "", "", "";
    }

    method StopSession()
      modifies this
      ensures View() == Stop(old(View()))
    {
      serving := false;
      ClearSecrets();
      if !cancelClosed {
        cancelClosed := true;
      }
    }

    method ExpireNow()
      modifies this
      ensures View() == Stop(Expiring(old(View())))
    {
      status, errorCode := Expired, "invalid_state";
      ClearSecrets();
      StopSession();
    }

    method ExpireIfNeeded(now: int)
      modifies this
      ensures View() == RunOut(old(View()), now)
      ensures status == if now > expiresAt && Open(old(status)) then Expired else old(status)
      ensures status != old(status) ==> NoSecrets()
    {
      if now > expiresAt && CanExpire(status) {
        ExpireNow();
      }
    }

    method BeginSessionCommit(expected: Status) returns (claimed: bool)
      modifies this
      ensures View() == BeginCommit(old(View()), expected)
      ensures claimed <==> old(View()).status == expected
    {
      claimed := status == expected;
      if claimed {
        status := Committing;
      }
    }

    method CompleteSession()
      modifies this
      ensures View() == Stop(Finish(old(View())))
    {
      status, errorCode := Complete, "";
      ClearSecrets();
      StopSession();
    }

    method FailSession(code: string)
      modifies this
      ensures View() == FailedAndStopped(old(View()), code)
      ensures status == if old(status).Cancelled? || old(status).Complete? || old(status).Expired? then old(status) else Failed
    {
      if status.Cancelled? || status.Complete? || status.Expired? {
        return;
      }
      status, errorCode := Failed, code;
      ClearSecrets();
      StopSession();
    }

    method CancelSession(now: int)
      modifies this
      ensures View() == Stopped(Cancel(old(View()), now), CancelTakes(old(View())))
      ensures status == if old(status).Complete? || old(status).Committing? then old(status) else Cancelled
      ensures status != old(status) ==> NoSecrets() && consumedAt == Some(now) && cancelClosed
    {
      if status.Complete? || status.Cancelled? || status.Committing? {
        return;
      }
      status, consumedAt := Cancelled, Some(now);
      ClearSecrets();
      StopSession();
    }

    /** A denial counts only for a pending flow whose state it knows. */
    method RejectSessionCallback(given: string, providerError: string, now: int) returns (rejected: bool)
      modifies this
      ensures var known := given != "" && providerError != "" && old(View()).status.Pending? && old(View()).secrets.state == given;
              && View() == (if known then Stop(Reject(old(View()), given, now)) else old(View()))
              && (rejected <==> known && now <= expiresAt)
              && status == (if !known then old(status) else if now > expiresAt then Expired else Failed)
              && (status != old(status) ==> NoSecrets() && cancelClosed)
    {
      if given == "" || providerError == "" {
        return false;
      }
      if !status.Pending? || state == "" || state != given {
        return false;
      }
      if now > expiresAt {
        ExpireNow();
        return false;
      }
      status, errorCode, consumedAt := Failed, "oauth_authorization_rejected", Some(now);
      ClearSecrets();
      StopSession();
      return true;
    }

    /** The write after a claim, and what is reported of it. */
    method Write(expected: Status, outcome: Outcome) returns (saved: bool)
      modifies this
      ensures View() == Written(old(View()), expected, outcome)
      ensures saved <==> old(View()).status == expected && outcome.Saved?
    {
      if outcome.ExchangeFailed? {
        FailSession(outcome.code);
        return false;
      }
      var claimed := BeginSessionCommit(expected);
      if !claimed {
        return false;
      }
      if outcome.SaveFailed? {
        FailSession("oauth_credential_save_failed");
        return false;
      }
      CompleteSession();
      return true;
    }

    method CompleteCallback(now: int, outcome: Outcome) returns (saved: bool)
      modifies this
      ensures View() == CalledBack(old(View()), now, outcome)
      ensures saved <==> old(status).Pending? && now <= expiresAt && outcome.Saved?
      ensures status == if !old(status).Pending? then old(status) else if now > expiresAt then Expired
                        else if outcome.Saved? then Complete else Failed
      ensures status != old(status) ==> NoSecrets() && cancelClosed
    {
      if !status.Pending? {
        return false;
      }
      if now > expiresAt {
        ExpireNow();
        return false;
      }
      status, consumedAt := Consumed, Some(now);
      saved := Write(Consumed, outcome);
    }

    /** One round; `wait` is the time until the next. */
    method PollRound(r: Round) returns (wait: Option<int>)
      modifies this
      ensures View() == Polled(old(View()), r)
      ensures old(status).Polling? ==> status == if r.now > expiresAt then Expired
                                                 else match r.answer
                                                      case Granted => if r.saveOk then Complete else Failed
                                                      case Refused(_) => Failed
                                                      case NotYet(_) => Polling
      ensures wait == if GoesOn(old(View()), r) then Some(Wait(View().interval)) else None
    {
      ExpireIfNeeded(r.now);
      if !status.Polling? {
        return None;
      }
      var every := interval;
      match r.answer
      case Granted =>
        var _ := Write(Polling, if r.saveOk then Saved else SaveFailed);
        return None;
      case Refused(code) =>
        FailSession(code);
        return None;
      case NotYet(slowDown) =>
        if slowDown {
          every := every + 5 * SECOND;
          interval := every;
        }
        if every <= 0 {
          every := 5 * SECOND;
        }
        return Some(every);
    }

    /** The device poller: rounds until one ends the flow or the given rounds are used up. */
    method PollDevice(rounds: seq<Round>)
      modifies this
      ensures View() == PolledAll(old(View()), rounds)
    {
      var k := 0;
      while k < |rounds|
        invariant 0 <= k <= |rounds|
        invariant PolledAll(old(View()), rounds) == PolledAll(View(), rounds[k..])
      {
        ghost var x := View();
        var wait := PollRound(rounds[k]);
        assert rounds[k..][0] == rounds[k] && rounds[k..][1..] == rounds[k + 1..];
        if wait.None? {
          return;
        }
        k := k + 1;
      }
    }
  }

  // ---- the table of flows ----

  /** The flow a callback's state belongs to; a finished flow is never found. */
  method SessionForState(sessions: map<string, Session>, state: string) returns (id: Option<string>)
    requires forall k :: k in sessions ==> NoSecretsWhenDone(sessions[k])
    ensures id.Some? ==> id.value in sessions && state != "" && sessions[id.value].secrets.state == state && !Terminal(sessions[id.value].status)
    ensures id.None? <==> forall k :: k in sessions && sessions[k].secrets.state != "" ==> sessions[k].secrets.state != state
  {
    var todo := sessions.Keys;
    while todo != {}
      invariant todo <= sessions.Keys
      invariant forall k :: k in sessions && k !in todo && sessions[k].secrets.state != "" ==> sessions[k].secrets.state != state
    {
      var k :| k in todo;
      todo := todo - {k};
      if sessions[k].secrets.state != "" && sessions[k].secrets.state == state {
        return Some(k);
      }
    }
    return None;
  }

  const DAY: int := 24 * 60 * 60 * SECOND

  function Retention(given: Option<int>): int {
    if given.Some? && given.value > 0 then given.value else DAY
  }

  predicate Purged(x: Session, now: int, retention: int) {
    Terminal(RunOut(x, now).status) && now > x.expiresAt + retention
  }

  /** The purge runs out abandoned flows and forgets finished ones once the retention has passed. */
  function Purge(sessions: map<string, Session>, now: int, retention: int): map<string, Session> {
    map k | k in sessions && !Purged(sessions[k], now, retention) :: RunOut(sessions[k], now)
  }

  /**
   A purge drops nothing that is committing, leaves nothing open that ran out, keeps every other flow
   as it was, and a second one at the same time changes nothing.
   */
  lemma PurgeLeaves(sessions: map<string, Session>, now: int, retention: int)
    requires retention > 0
    ensures var p := Purge(sessions, now, retention);
            && (forall k :: k in sessions && sessions[k].status.Committing? ==> k in p && p[k] == sessions[k])
            && (forall k :: k in p ==> !(now > p[k].expiresAt && CanExpire(p[k].status)))
            && (forall k :: k in sessions && now <= sessions[k].expiresAt ==> k in p && p[k] == sessions[k])
            && (forall k :: k in sessions && now > sessions[k].expiresAt + retention && !sessions[k].status.Committing? ==> k !in p)
            && Purge(p, now, retention) == p
  {
  }

  class Manager {
    var sessions: map<string, Session>

    constructor ()
      ensures sessions == map[]
    {
      sessions := map[];
    }

    method PurgeExpiredSessions(now: int, given: Option<int>)
      modifies this
      ensures sessions == Purge(old(sessions), now, Retention(given))
    {
      var retention := Retention(given);
      var todo := sessions.Keys;
      while todo != {}
        invariant todo <= sessions.Keys <= old(sessions).Keys
        invariant forall k :: k in todo ==> sessions[k] == old(sessions)[k]
        invariant forall k :: k in old(sessions) && k !in todo ==>
                    (k in sessions <==> !Purged(old(sessions)[k], now, retention))
        invariant forall k :: k in sessions && k !in todo ==> sessions[k] == RunOut(old(sessions)[k], now)
      {
        var k :| k in todo;
        todo := todo - {k};
        var x := sessions[k];
        if now > x.expiresAt && CanExpire(x.status) {
          x := Stop(Expiring(x));
          sessions := sessions[k := x];
        }
        if Terminal(x.status) && now > x.expiresAt + retention {
          sessions := sessions - {k};
        }
      }
    }
  }
}
