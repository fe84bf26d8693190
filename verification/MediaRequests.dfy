/** Idempotent submission of video jobs (internal/api/limits.go, internal/api/server.go). */
module MediaRequests {
  // A lock per client key and idempotency key, and a look at the recorded jobs
  // before submitting. The state is what the requests of one key share; requests
  // of other keys touch other entries of the same maps. Every action is one atomic
  // step of one request, and a run is any interleaving of any number of them.

  import opened Wrappers

  datatype Phase =
    | Locking                   // about to look at the table of locks
    | Waiting(lock: nat)        // until that lock is closed
    | Locked                    // holds the lock, has not looked for a recorded job
    | Clear                     // found none: may submit upstream
    | Accepted(taken: string)   // upstream took the job, nothing recorded yet
    | Releasing(job: Option<string>) // done but for the release; answered with this job, if with one
    | Finished(job: Option<string>)

  /** A lock in the table, and the request that put it there. */
  datatype Lock = Lock(id: nat, owner: nat)

  datatype State = State(
    requests: map<nat, Phase>,
    inflight: Option<Lock>,
    closed: set<nat>,          // locks that have been released
    nextLock: nat,
    job: Option<string>,       // the recorded job
    accepted: nat,             // how many submissions upstream took
    lost: nat)                 // how many of those were never recorded

  datatype Action =
    | Arrive(r: nat)
    | TryLock(r: nat)
    | Wake(r: nat)
    | GiveUp(r: nat)
    | LookUp(r: nat, failed: bool)
    | Refuse(r: nat)
    | Submit(r: nat, taken: Option<string>)
    | Record(r: nat, saved: bool)
    | Release(r: nat)

  function Initial(): State { State(map[], None, {}, 0, None, 0, 0) }

  /** The step can be taken. */
  predicate Enabled(s: State, a: Action) {
    if a.Arrive? then a.r !in s.requests
    else
      a.r in s.requests &&
      var p := s.requests[a.r];
      match a
      case Arrive(_) => false
      case TryLock(_) => p.Locking?
      case Wake(_) => p.Waiting? && p.lock in s.closed
      case GiveUp(_) => p.Waiting?
      case LookUp(_, _) => p.Locked?
      case Refuse(_) => p.Clear?
      case Submit(_, _) => p.Clear?
      case Record(_, _) => p.Accepted?
      case Release(_) => p.Releasing?
  }

  /** The phase the acting request goes to. */
  function Next(s: State, a: Action): Phase
    requires Enabled(s, a)
  {
    match a
    case Arrive(_) => Locking
    case TryLock(_) => if s.inflight.Some? then Waiting(s.inflight.value.id) else Locked
    case Wake(_) => Locking
    case GiveUp(_) => Finished(None)
    case LookUp(_, failed) => if failed then Releasing(None) else if s.job.Some? then Releasing(s.job) else Clear
    case Refuse(_) => Releasing(None)
    case Submit(_, taken) => if taken.Some? then Accepted(taken.value) else Releasing(None)
    case Record(r, saved) => Releasing(if saved then Some(s.requests[r].taken) else None)
    case Release(r) => Finished(s.requests[r].job)
  }

  function Apply(s: State, a: Action): State
    requires Enabled(s, a)
  {
    var t := s.(requests := s.requests[a.r := Next(s, a)]);
    match a
    case TryLock(r) => if s.inflight.Some? then t else t.(inflight := Some(Lock(s.nextLock, r)), nextLock := s.nextLock + 1)
    case Submit(_, taken) => if taken.Some? then t.(accepted := s.accepted + 1) else t
    case Record(r, saved) => if saved then t.(job := Some(s.requests[r].taken)) else t.(lost := s.lost + 1)
    case Release(_) => if s.inflight.Some? then t.(inflight := None, closed := s.closed + {s.inflight.value.id}) else t
    case _ => t
  }

  /** A run: steps that cannot be taken when their turn comes are passed over. */
  function Run(actions: seq<Action>): State {
    if actions == [] then Initial()
    else
      var s, a := Run(actions[..|actions| - 1]), actions[|actions| - 1];
      if Enabled(s, a) then Apply(s, a) else s
  }

  // ---- what every run keeps ----

  predicate Holds(p: Phase) { p.Locked? || p.Clear? || p.Accepted? || p.Releasing? }

  /** Between its lock and its release. */
  predicate Holder(s: State, r: nat) { r in s.requests && Holds(s.requests[r]) }

  /** The owner of the lock is the one and only holder. */
  ghost predicate OneHolder(s: State) {
    forall r :: Holder(s, r) <==> s.inflight.Some? && s.inflight.value.owner == r
  }

  predicate InHand(s: State) {
    s.inflight.Some? && s.inflight.value.owner in s.requests && s.requests[s.inflight.value.owner].Accepted?
  }

  /** Nobody may submit once a job is recorded; every accepted job is recorded, lost or in hand. */
  ghost predicate Accounted(s: State) {
    && (forall r :: r in s.requests && (s.requests[r].Clear? || s.requests[r].Accepted?) ==> s.job.None?)
    && s.accepted == s.lost + (if s.job.Some? then 1 else 0) + (if InHand(s) then 1 else 0)
  }

  /** A waiter waits for the lock in the table or for one already closed: its wake-up is never lost. */
  ghost predicate Wakeable(s: State) {
    forall r :: r in s.requests && s.requests[r].Waiting? ==>
      s.requests[r].lock in s.closed || (s.inflight.Some? && s.inflight.value.id == s.requests[r].lock)
  }

  ghost predicate Inv(s: State) { OneHolder(s) && Accounted(s) && Wakeable(s) }

  lemma KeepsInv(s: State, a: Action)
    requires Inv(s) && Enabled(s, a)
    ensures Inv(Apply(s, a))
  {
    assert Holder(s, a.r) <==> s.inflight.Some? && s.inflight.value.owner == a.r;
    var t := Apply(s, a);
    forall r | r != a.r
      ensures Holder(t, r) <==> Holder(s, r)
      ensures r in t.requests && (t.requests[r].Clear? || t.requests[r].Accepted?) ==> Holder(s, r) && t.requests[r] == s.requests[r]
    {
    }
  }

  lemma {:induction false} EveryRun(actions: seq<Action>)
    ensures Inv(Run(actions))
  {
    if actions != [] {
      var s, a := Run(actions[..|actions| - 1]), actions[|actions| - 1];
      EveryRun(actions[..|actions| - 1]);
      if Enabled(s, a) { KeepsInv(s, a); }
    }
  }

  /** At most one request is between its lock and its release. */
  lemma MutualExclusion(actions: seq<Action>, r: nat, q: nat)
    requires Holder(Run(actions), r) && Holder(Run(actions), q)
    ensures r == q
  {
    EveryRun(actions);
  }

  /** Upstream takes at most one job more than there are accepted responses that could not be recorded. */
  lemma AtMostOneUnlessLost(actions: seq<Action>)
    ensures Run(actions).accepted <= 1 + Run(actions).lost
  {
    EveryRun(actions);
    var s := Run(actions);
    if InHand(s) { assert s.requests[s.inflight.value.owner].Accepted?; }
  }

  // ---- what the requests are answered with ----

  /** The job was taken by upstream from the one request that was clear to submit. */
  ghost predicate Taken(actions: seq<Action>, job: string) {
    exists k :: 0 <= k < |actions| && TakenBy(Run(actions[..k]), actions[k], job)
  }

  predicate TakenBy(s: State, a: Action, job: string) { Enabled(s, a) && a.Submit? && a.taken == Some(job) }

  ghost predicate AnswersOk(s: State, actions: seq<Action>) {
    && (s.job.Some? ==> Taken(actions, s.job.value))
    && (forall r :: r in s.requests ==>
          match s.requests[r]
          case Accepted(job) => Taken(actions, job)
          case Releasing(job) => job.Some? ==> job == s.job
          case Finished(job) => job.Some? ==> job == s.job
          case _ => true)
  }

  lemma TakenStays(actions: seq<Action>, a: Action, job: string)
    requires Taken(actions, job)
    ensures Taken(actions + [a], job)
  {
    var k :| 0 <= k < |actions| && TakenBy(Run(actions[..k]), actions[k], job);
    assert (actions + [a])[..k] == actions[..k];
  }

  lemma KeepsAnswers(actions: seq<Action>, a: Action)
    requires Inv(Run(actions)) && AnswersOk(Run(actions), actions) && Enabled(Run(actions), a)
    ensures AnswersOk(Apply(Run(actions), a), actions + [a])
  {
    var s := Run(actions);
    assert (actions + [a])[..|actions|] == actions;
    forall job | Taken(actions, job) ensures Taken(actions + [a], job) { TakenStays(actions, a, job); }
    if a.Submit? && a.taken.Some? { assert TakenBy(s, (actions + [a])[|actions|], a.taken.value); }
  }

  lemma {:induction false} RunAnswers(actions: seq<Action>)
    ensures AnswersOk(Run(actions), actions)
  {
    if actions != [] {
      var init, a := actions[..|actions| - 1], actions[|actions| - 1];
      RunAnswers(init);
      EveryRun(init);
      assert actions == init + [a];
      if Enabled(Run(init), a) {
        KeepsAnswers(init, a);
      } else {
        forall job | Taken(init, job) ensures Taken(actions, job) { TakenStays(init, a, job); }
      }
    }
  }

  /** In every run, whoever is answered with a job gets the one that is recorded, and upstream took it: repeats never get another. */
  lemma EveryoneGetsTheRecordedJob(actions: seq<Action>, r: nat)
    requires var s := Run(actions); r in s.requests && s.requests[r].Finished? && s.requests[r].job.Some?
    ensures var s := Run(actions); s.requests[r].job == s.job && Taken(actions, s.job.value)
  {
    RunAnswers(actions);
  }

  /** A recorded job is what the next request is answered with, without another submission. */
  lemma RepeatIsAnswered(actions: seq<Action>, r: nat)
    requires var s := Run(actions); s.job.Some? && s.inflight.None? && r !in s.requests
    ensures var t := Run(actions + [Arrive(r)] + [TryLock(r)] + [LookUp(r, false)] + [Release(r)]);
            r in t.requests && t.requests[r] == Finished(Run(actions).job) && t.accepted == Run(actions).accepted
  {
    var more, s := Then(actions, Run(actions), Arrive(r));
    more, s := Then(more, s, TryLock(r));
    more, s := Then(more, s, LookUp(r, false));
    more, s := Then(more, s, Release(r));
  }

  /** Recording is necessary: an accepted response that is not recorded lets a second job through. */
  lemma LostResponseAllowsSecondJob() returns (actions: seq<Action>)
    ensures Run(actions).accepted == 2 && Run(actions).lost == 1
  {
    actions := [];
    var s := Initial();
    actions, s := Then(actions, s, Arrive(0));
    actions, s := Then(actions, s, TryLock(0));
    actions, s := Then(actions, s, LookUp(0, false));
    actions, s := Then(actions, s, Submit(0, Some("first")));
    actions, s := Then(actions, s, Record(0, false));
    actions, s := Then(actions, s, Release(0));
    actions, s := Then(actions, s, Arrive(1));
    actions, s := Then(actions, s, TryLock(1));
    actions, s := Then(actions, s, LookUp(1, false));
    actions, s := Then(actions, s, Submit(1, Some("second")));
  }

  lemma Then(actions: seq<Action>, s: State, a: Action) returns (more: seq<Action>, t: State)
    requires Run(actions) == s && Enabled(s, a)
    ensures more == actions + [a] && Run(more) == t == Apply(s, a)
  {
    more, t := actions + [a], Apply(s, a);
    assert more[..|actions|] == actions;
  }
}
