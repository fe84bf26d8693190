/** Requests per minute: one fixed window per scope, charged for every scope of an admitted request (internal/api/limits.go). */
module Admission {
  import opened Limits
  import opened Wrappers

  const SECOND: int := 1_000_000_000
  const MINUTE: int := 60 * SECOND

  datatype Window = Window(started: int, count: int)
  type Windows = map<string, Window>

  /** The scope's window at this time: the running one, or a new one once a minute has passed. */
  function Current(w: Windows, id: string, now: int): Window {
    if id !in w || now - w[id].started >= MINUTE then Window(now, 0) else w[id]
  }

  predicate Full(w: Windows, scope: Scope, now: int) {
    scope.limits.requestsPerMinute > 0 && Current(w, scope.id, now).count >= scope.limits.requestsPerMinute
  }

  predicate Admits(w: Windows, scopes: seq<Scope>, now: int) {
    forall i :: 0 <= i < |scopes| ==> !Full(w, scopes[i], now)
  }

  function ChargeOne(w: Windows, id: string, now: int): Windows {
    var c := Current(w, id, now);
    w[id := Window(c.started, c.count + 1)]
  }

  function Charge(w: Windows, scopes: seq<Scope>, now: int): Windows {
    if scopes == [] then w else ChargeOne(Charge(w, scopes[..|scopes| - 1], now), scopes[|scopes| - 1].id, now)
  }

  /** Seconds until the window that refused closes, as read a little later, rounded up and at least one. */
  function RetryAfter(started: int, later: int): int {
    var left := started + MINUTE - later;
    var seconds := if left >= 0 then left / SECOND else -((-left) / SECOND);
    if seconds + 1 < 1 then 1 else seconds + 1
  }

  /** The answer of admitRequest: admitted, or the first reason against. */
  ghost predicate IsVerdict(r: Option<LimitError>, w: Windows, key: Option<ApiKey>, path: string, scopes: seq<Scope>, now: int, later: int) {
    if key.Some? && !EndpointAllowed(key.value.endpoints, path) then r == Some(EndpointForbidden)
    else
      var s := Effective(key, scopes);
      if Admits(w, s, now) then r == None
      else exists i :: 0 <= i < |s| && FirstFull(w, s, now, i)
                       && r == Some(RateLimited(s[i].id, RetryAfter(Current(w, s[i].id, now).started, later)))
  }

  predicate FirstFull(w: Windows, scopes: seq<Scope>, now: int, i: nat)
    requires i < |scopes|
  {
    Full(w, scopes[i], now) && forall j :: 0 <= j < i ==> !Full(w, scopes[j], now)
  }

  class RequestWindows {
    var windows: Windows

    constructor ()
      ensures windows == map[]
    {
      windows := map[];
    }

    /** A refusal charges no scope; an admission charges every one. */
    method AdmitRequest(key: Option<ApiKey>, path: string, given: seq<Scope>, now: int, later: int) returns (r: Option<LimitError>)
      modifies this
      ensures IsVerdict(r, old(windows), key, path, given, now, later)
      ensures r.Some? ==> windows == old(windows)
      ensures r.None? ==> windows == Charge(old(windows), Effective(key, given), now)
    {
      if key.Some? && !EndpointAllowed(key.value.endpoints, path) { return Some(EndpointForbidden); }
      var scopes := given;
      if |scopes| == 0 && key.Some? { scopes := [KeyScope(key.value)]; }
      for i := 0 to |scopes|
        invariant forall j :: 0 <= j < i ==> !Full(windows, scopes[j], now)
      {
        var limit := scopes[i].limits.requestsPerMinute;
        if limit <= 0 { continue; }
        var window := Current(windows, scopes[i].id, now);
        if window.count >= limit {
          assert FirstFull(windows, scopes, now, i);
          return Some(RateLimited(scopes[i].id, RetryAfter(window.started, later)));
        }
      }
      ghost var before := windows;
      for i := 0 to |scopes|
        invariant windows == Charge(before, scopes[..i], now)
      {
        assert scopes[..i + 1][..i] == scopes[..i];
        var window := Current(windows, scopes[i].id, now);
        windows := windows[scopes[i].id := Window(window.started, window.count + 1)];
      }
      assert scopes[..|scopes|] == scopes;
      return None;
    }
  }

  /** With nothing else admitted meanwhile, waiting as told is always enough for the scope that refused. */
  lemma WaitingOpensANewWindow(w: Windows, scope: Scope, now: int, later: int, again: int)
    requires Full(w, scope, now) && scope.id in w && now <= later
    requires again >= later + RetryAfter(Current(w, scope.id, now).started, later) * SECOND
    ensures Current(w, scope.id, again) == Window(again, 0) && !Full(w, scope, again)
  {
    var left := w[scope.id].started + MINUTE - later;
    assert left < SECOND * (left / SECOND + 1);
  }

  /** A refusal asks for at least a second, for no more than it takes to reach the next window, and never for more than 61. */
  lemma WaitIsNeeded(started: int, later: int)
    ensures RetryAfter(started, later) >= 1
    ensures RetryAfter(started, later) > 1 ==> later + (RetryAfter(started, later) - 1) * SECOND <= started + MINUTE
    ensures started <= later ==> RetryAfter(started, later) <= 61
  {
    var left := started + MINUTE - later;
    if left >= 0 { assert left / SECOND * SECOND <= left; }
  }

  // ---- what one scope sees of a run ----

  /** A call of admitRequest that got as far as the windows. */
  datatype Request = Request(scopes: seq<Scope>, now: int)

  function After(w: Windows, r: Request): Windows {
    if Admits(w, r.scopes, r.now) then Charge(w, r.scopes, r.now) else w
  }

  function RunWindows(run: seq<Request>): Windows {
    if run == [] then map[] else After(RunWindows(run[..|run| - 1]), run[|run| - 1])
  }

  /** Clock readings do not go back from one call to the next. */
  predicate Nondecreasing(run: seq<Request>) {
    forall i, j :: 0 <= i < j < |run| ==> run[i].now <= run[j].now
  }

  predicate Names(scopes: seq<Scope>, id: string) { exists i :: 0 <= i < |scopes| && scopes[i].id == id }

  /** The request does not concern the scope, or names it once, with the limit. */
  predicate Uses(r: Request, id: string, limit: int) {
    DistinctIds(r.scopes) && forall i :: 0 <= i < |r.scopes| && r.scopes[i].id == id ==> r.scopes[i].limits.requestsPerMinute == limit
  }

  /** One admission for the scope: when, and in which window. */
  datatype Admit = Admit(time: int, start: int)

  function Log(run: seq<Request>, id: string): seq<Admit> {
    if run == [] then []
    else Log(run[..|run| - 1], id) + Logged(RunWindows(run[..|run| - 1]), run[|run| - 1], id)
  }

  /** How many requests naming the scope were admitted in the minute that begins at t. */
  function AdmittedIn(log: seq<Admit>, t: int): nat {
    if log == [] then 0
    else AdmittedIn(log[..|log| - 1], t) + if t <= log[|log| - 1].time < t + MINUTE then 1 else 0
  }

  function InWindow(log: seq<Admit>, start: int): nat {
    if log == [] then 0 else InWindow(log[..|log| - 1], start) + if log[|log| - 1].start == start then 1 else 0
  }

  function InBoth(log: seq<Admit>, t: int, start: int): nat {
    if log == [] then 0
    else InBoth(log[..|log| - 1], t, start)
         + if t <= log[|log| - 1].time < t + MINUTE && log[|log| - 1].start == start then 1 else 0
  }

  // ---- charging concerns the named scopes only ----

  lemma {:induction false} ChargeEffect(w: Windows, scopes: seq<Scope>, now: int, id: string)
    requires DistinctIds(scopes)
    ensures !Names(scopes, id) ==> Current(Charge(w, scopes, now), id, now) == Current(w, id, now)
                                   && (id in Charge(w, scopes, now) <==> id in w) && (id in w ==> Charge(w, scopes, now)[id] == w[id])
    ensures Names(scopes, id) ==> id in Charge(w, scopes, now)
                                  && Charge(w, scopes, now)[id] == Window(Current(w, id, now).started, Current(w, id, now).count + 1)
  {
    if scopes != [] {
      var init, last := scopes[..|scopes| - 1], scopes[|scopes| - 1];
      ChargeEffect(w, init, now, id);
      if Names(scopes, id) {
        var i :| 0 <= i < |scopes| && scopes[i].id == id;
        if i < |init| { assert init[i].id == id; }
      }
    }
  }

  // ---- the shape of a scope's log ----

  /** Admissions in order of time, each inside its window, and windows a minute apart. */
  predicate Timed(log: seq<Admit>) {
    && (forall i :: 0 <= i < |log| ==> log[i].start <= log[i].time < log[i].start + MINUTE)
    && (forall i, j :: 0 <= i < j < |log| ==> log[i].time <= log[j].time)
    && (forall i, j :: 0 <= i < j < |log| ==> log[i].start == log[j].start || log[i].start + MINUTE <= log[j].start)
  }

  ghost predicate WithinLimit(log: seq<Admit>, limit: int) { forall s :: InWindow(log, s) <= limit }

  ghost predicate AllOpened(log: seq<Admit>) { forall i :: 0 <= i < |log| ==> Opened(log, log[i].start) }

  ghost predicate Shaped(log: seq<Admit>, limit: int) { Timed(log) && WithinLimit(log, limit) && AllOpened(log) }

  /** The window was opened by an admission at its very start. */
  ghost predicate Opened(log: seq<Admit>, start: int) {
    exists k :: 0 <= k < |log| && log[k].time == start && log[k].start == start
  }

  ghost predicate Matches(w: Windows, log: seq<Admit>, id: string) {
    && (id in w <==> log != [])
    && (log != [] ==> w[id] == Window(log[|log| - 1].start, InWindow(log, log[|log| - 1].start)))
  }

  lemma {:induction false} NoneLater(log: seq<Admit>, s: int)
    requires forall i :: 0 <= i < |log| ==> log[i].start < s
    ensures InWindow(log, s) == 0
  {
    if log != [] { NoneLater(log[..|log| - 1], s); }
  }

  /** An admission in the running window, or at the start of a later one. */
  predicate Follows(log: seq<Admit>, a: Admit) {
    && a.start <= a.time < a.start + MINUTE
    && (log == [] || log[|log| - 1].time <= a.time)
    && (a.start == a.time || (log != [] && a.start == log[|log| - 1].start))
    && (log != [] ==> a.start == log[|log| - 1].start || log[|log| - 1].start + MINUTE <= a.start)
  }

  lemma TimedGrows(log: seq<Admit>, a: Admit)
    requires Timed(log) && Follows(log, a)
    ensures Timed(log + [a])
  {
    forall i | 0 <= i < |log| ensures log[i].time <= a.time && (log[i].start == a.start || log[i].start + MINUTE <= a.start) {
      assert i < |log| - 1 ==> log[i].time <= log[|log| - 1].time;
    }
  }

  lemma LimitGrows(log: seq<Admit>, a: Admit, limit: int)
    requires WithinLimit(log, limit) && InWindow(log, a.start) < limit
    ensures WithinLimit(log + [a], limit) && InWindow(log + [a], a.start) == InWindow(log, a.start) + 1
  {
    assert (log + [a])[..|log|] == log;
    forall s ensures InWindow(log + [a], s) <= limit { assert InWindow(log, s) <= limit; }
  }

  lemma OpenedGrows(log: seq<Admit>, a: Admit)
    requires AllOpened(log) && Follows(log, a)
    ensures AllOpened(log + [a])
  {
    var next := log + [a];
    forall i | 0 <= i < |next| ensures Opened(next, next[i].start) {
      if i < |log| {
        OpenedStays(log, a, log[i].start);
      } else if a.start == a.time {
        assert next[|log|] == a;
      } else {
        assert Opened(log, log[|log| - 1].start);
        OpenedStays(log, a, a.start);
      }
    }
  }

  /** One more admission, in the running window or in a new one. */
  lemma LogGrows(w: Windows, log: seq<Admit>, id: string, limit: int, now: int)
    requires limit > 0 && Shaped(log, limit) && Matches(w, log, id) && (log != [] ==> log[|log| - 1].time <= now)
    requires Current(w, id, now).count < limit
    ensures var next := log + [Admit(now, Current(w, id, now).started)];
            Shaped(next, limit) && InWindow(next, Current(w, id, now).started) == Current(w, id, now).count + 1
  {
    var c := Current(w, id, now);
    var a := Admit(now, c.started);
    if log == [] || now - w[id].started >= MINUTE {
      forall i | 0 <= i < |log| ensures log[i].start < now {
        assert log[i].start <= log[|log| - 1].start;
      }
      NoneLater(log, now);
    }
    assert Follows(log, a);
    TimedGrows(log, a);
    LimitGrows(log, a, limit);
    OpenedGrows(log, a);
  }

  lemma OpenedStays(log: seq<Admit>, a: Admit, start: int)
    requires Opened(log, start)
    ensures Opened(log + [a], start)
  {
    var k :| 0 <= k < |log| && log[k].time == start && log[k].start == start;
    assert (log + [a])[k] == log[k];
  }

  /** What one request adds to the scope's log. */
  function Logged(w: Windows, r: Request, id: string): seq<Admit> {
    if Names(r.scopes, id) && Admits(w, r.scopes, r.now) then [Admit(r.now, Current(w, id, r.now).started)] else []
  }

  lemma OneRequest(w: Windows, log: seq<Admit>, r: Request, id: string, limit: int)
    requires limit > 0 && Uses(r, id, limit) && Shaped(log, limit) && Matches(w, log, id)
    requires log != [] ==> log[|log| - 1].time <= r.now
    ensures Shaped(log + Logged(w, r, id), limit) && Matches(After(w, r), log + Logged(w, r, id), id)
  {
    assert log + [] == log;
    if Admits(w, r.scopes, r.now) {
      ChargeEffect(w, r.scopes, r.now, id);
      if Names(r.scopes, id) {
        var i :| 0 <= i < |r.scopes| && r.scopes[i].id == id;
        assert !Full(w, r.scopes[i], r.now);
        LogGrows(w, log, id, limit, r.now);
      }
    }
  }

  lemma {:induction false} RunShape(run: seq<Request>, id: string, limit: int)
    requires limit > 0 && Nondecreasing(run) && forall i :: 0 <= i < |run| ==> Uses(run[i], id, limit)
    ensures Shaped(Log(run, id), limit) && Matches(RunWindows(run), Log(run, id), id)
    ensures Log(run, id) != [] ==> run != [] && Log(run, id)[|Log(run, id)| - 1].time <= run[|run| - 1].now
  {
    if run != [] {
      var init := run[..|run| - 1];
      RunShape(init, id, limit);
      OneRequest(RunWindows(init), Log(init, id), run[|run| - 1], id, limit);
    }
  }

  // ---- the bound ----

  lemma {:induction false} OneWindow(log: seq<Admit>, t: int, a: int)
    requires forall i :: 0 <= i < |log| && t <= log[i].time < t + MINUTE ==> log[i].start == a
    ensures AdmittedIn(log, t) <= InWindow(log, a)
  {
    if log != [] { OneWindow(log[..|log| - 1], t, a); }
  }

  lemma {:induction false} TwoWindows(log: seq<Admit>, t: int, a: int, b: int)
    requires a != b
    requires forall i :: 0 <= i < |log| && t <= log[i].time < t + MINUTE ==> log[i].start == a || log[i].start == b
    ensures AdmittedIn(log, t) == InBoth(log, t, a) + InBoth(log, t, b)
  {
    if log != [] { TwoWindows(log[..|log| - 1], t, a, b); }
  }

  lemma {:induction false} BothAtMostWindow(log: seq<Admit>, t: int, a: int)
    ensures InBoth(log, t, a) <= InWindow(log, a)
  {
    if log != [] { BothAtMostWindow(log[..|log| - 1], t, a); }
  }

  /** A window that was opened before the minute began has its opener outside it. */
  lemma {:induction false} OpenerOutside(log: seq<Admit>, t: int, a: int)
    requires a < t && Opened(log, a)
    ensures InBoth(log, t, a) < InWindow(log, a)
  {
    var init := log[..|log| - 1];
    var k :| 0 <= k < |log| && log[k].time == a && log[k].start == a;
    if k < |init| {
      assert init[k].time == a && init[k].start == a;
      OpenerOutside(init, t, a);
    } else {
      BothAtMostWindow(init, t, a);
    }
  }

  lemma ShapedBound(log: seq<Admit>, limit: int, t: int)
    requires limit > 0 && Shaped(log, limit)
    ensures AdmittedIn(log, t) <= 2 * limit - 1
  {
    if i, j :| 0 <= i < |log| && 0 <= j < |log| && t <= log[i].time < t + MINUTE && t <= log[j].time < t + MINUTE
               && log[i].start < log[j].start
    {
      var a, b := log[i].start, log[j].start;
      forall k | 0 <= k < |log| && t <= log[k].time < t + MINUTE ensures log[k].start == a || log[k].start == b {
        ThreeWindowsDoNotFit(log, limit, t, i, j, k);
      }
      assert i < j;
      TwoWindows(log, t, a, b);
      OpenerOutside(log, t, a);
      BothAtMostWindow(log, t, b);
      assert InWindow(log, a) <= limit && InWindow(log, b) <= limit;
    } else if i :| 0 <= i < |log| && t <= log[i].time < t + MINUTE {
      OneWindow(log, t, log[i].start);
      assert InWindow(log, log[i].start) <= limit;
    } else {
      OneWindow(log, t, t);
      assert InWindow(log, t) <= limit;
    }
  }

  lemma ThreeWindowsDoNotFit(log: seq<Admit>, limit: int, t: int, i: nat, j: nat, k: nat)
    requires Shaped(log, limit) && i < |log| && j < |log| && k < |log|
    requires t <= log[i].time < t + MINUTE && t <= log[j].time < t + MINUTE && t <= log[k].time < t + MINUTE
    requires log[i].start < log[j].start
    ensures log[k].start == log[i].start || log[k].start == log[j].start
  {
    assert i < j;
    assert k == i || k == j || k < i || i < k;
    assert k < j || j <= k;
  }

  /**
   In no minute whatsoever, wherever it begins, are more than twice the limit
   less one admitted.
   */
  lemma AtMostTwiceTheLimitLessOne(run: seq<Request>, id: string, limit: int, t: int)
    requires limit > 0 && Nondecreasing(run) && forall i :: 0 <= i < |run| ==> Uses(run[i], id, limit)
    ensures AdmittedIn(Log(run, id), t) <= 2 * limit - 1
  {
    RunShape(run, id, limit);
    ShapedBound(Log(run, id), limit, t);
  }

  // ---- the bound is met ----

  function Limited(limit: int): Scope { Scope("global", Policy(limit, 0, 0, 0, 0, 0.0)) }

  function MoreCharged(w: Window, n: nat): Window { Window(w.started, w.count + n) }

  /** The run `all` is `run` and one more request of the scope. */
  predicate Extends(run: seq<Request>, all: seq<Request>, limit: int, now: int) {
    |all| == |run| + 1 && all[..|run|] == run && all[|run|] == Request([Limited(limit)], now)
  }

  lemma ChargedOnce(w: Windows, limit: int, now: int)
    requires Current(w, "global", now).count < limit
    ensures var r := Request([Limited(limit)], now);
            && After(w, r) == ChargeOne(w, "global", now)
            && Logged(w, r, "global") == [Admit(now, Current(w, "global", now).started)]
  {
    var r := Request([Limited(limit)], now);
    assert r.scopes[..0] == [] && Charge(w, [], now) == w;
    assert Names(r.scopes, "global") by { assert r.scopes[0].id == "global"; }
  }

  lemma OneMore(run: seq<Request>, all: seq<Request>, limit: int, now: int, t: int)
    requires Extends(run, all, limit, now) && Current(RunWindows(run), "global", now).count < limit && t <= now < t + MINUTE
    ensures Filled(run, all, now, 1, t)
  {
    ChargedOnce(RunWindows(run), limit, now);
    var log := Log(all, "global");
    assert log[..|log| - 1] == Log(run, "global");
  }

  /** `all` is run with n more requests, each of them admitted at this time. */
  ghost predicate Filled(run: seq<Request>, all: seq<Request>, now: int, n: nat, t: int) {
    && AdmittedIn(Log(all, "global"), t) == AdmittedIn(Log(run, "global"), t) + n
    && Current(RunWindows(all), "global", now) == MoreCharged(Current(RunWindows(run), "global", now), n)
  }

  predicate Orderly(run: seq<Request>, limit: int) {
    Nondecreasing(run) && forall i :: 0 <= i < |run| ==> Uses(run[i], "global", limit)
  }

  /** While the window has room, every request of a burst is admitted. */
  lemma {:induction false} Burst(run: seq<Request>, limit: int, now: int, n: nat, t: int) returns (all: seq<Request>)
    requires Current(RunWindows(run), "global", now).count + n <= limit && t <= now < t + MINUTE
    requires Orderly(run, limit) && (run != [] ==> run[|run| - 1].now <= now)
    ensures Filled(run, all, now, n, t) && (n == 0 ==> all == run)
    ensures Orderly(all, limit) && (all != [] ==> all[|all| - 1].now <= now)
  {
    all := run;
    if n > 0 {
      var most := Burst(run, limit, now, n - 1, t);
      all := most + [Request([Limited(limit)], now)];
      OneMore(most, all, limit, now, t);
      StaysOrderly(most, limit, now);
    }
  }

  lemma StaysOrderly(run: seq<Request>, limit: int, now: int)
    requires Orderly(run, limit) && (run != [] ==> run[|run| - 1].now <= now)
    ensures var all := run + [Request([Limited(limit)], now)]; Orderly(all, limit) && all[|all| - 1].now <= now
  {
    var r := Request([Limited(limit)], now);
    assert Uses(r, "global", limit);
    forall i | 0 <= i < |run| ensures run[i].now <= now {
      assert i < |run| - 1 ==> run[i].now <= run[|run| - 1].now;
    }
  }

  /**
   For every limit there is a run that fills a minute to the bound: one request,
   then limit - 1 at the last moment of its window, then limit as the next opens.
   */
  lemma BoundIsMet(limit: nat) returns (run: seq<Request>)
    requires limit > 0
    ensures Orderly(run, limit)
    ensures AdmittedIn(Log(run, "global"), MINUTE - 1) == 2 * limit - 1
  {
    var first := [Request([Limited(limit)], 0)];
    FirstRequest(limit);
    var second := Burst(first, limit, MINUTE - 1, limit - 1, MINUTE - 1);
    run := Burst(second, limit, MINUTE, limit, MINUTE - 1);
  }

  lemma FirstRequest(limit: int)
    requires limit > 0
    ensures var first := [Request([Limited(limit)], 0)];
            RunWindows(first) == map["global" := Window(0, 1)] && AdmittedIn(Log(first, "global"), MINUTE - 1) == 0
  {
    assert RunWindows([]) == map[];
    var first := [Request([Limited(limit)], 0)];
    assert RunWindows([]) == map[];
    ChargedOnce(map[], limit, 0);
    var log := Log(first, "global");
    assert first[..0] == [] && log == [Admit(0, 0)] && log[..0] == [];
  }
}
