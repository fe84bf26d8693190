/**
 The scopes a client request is limited by, and their policies
 (internal/api/limits.go, internal/api/server.go).
 */
module Limits {
  import opened Text
  import opened Wrappers

  /** Zero or less means unlimited. */
  datatype Policy = Policy(requestsPerMinute: int, concurrentStreams: int, maxInputBytes: int, maxOutputTokens: int,
                           mediaJobs: int, budgetPerDay: real)

  datatype Scope = Scope(id: string, limits: Policy)
  datatype ApiKey = ApiKey(id: string, team: string, endpoints: seq<string>, limits: Policy)
  datatype Team = Team(id: string, limits: Policy)
  datatype Config = Config(limits: Policy, teams: seq<Team>)

  datatype LimitError = EndpointForbidden | RateLimited(scope: string, retryAfter: int) | TooManyStreams(scope: string)

  predicate DistinctIds(scopes: seq<Scope>) {
    forall i, j :: 0 <= i < j < |scopes| ==> scopes[i].id != scopes[j].id
  }

  function KeyScope(key: ApiKey): Scope { Scope("key:" + key.id, key.limits) }

  /** A caller that names no scope is limited by its key alone. */
  function Effective(key: Option<ApiKey>, scopes: seq<Scope>): seq<Scope> {
    if scopes == [] && key.Some? then [KeyScope(key.value)] else scopes
  }

  /** One allowed pattern: anything, the path itself, or a prefix ending in "/". */
  predicate PatternAllows(pattern: string, path: string) {
    var p := Trim(pattern, Go);
    || p == "" || p == "*" || p == path
    || (|p| >= 2 && p[|p| - 2..] == "/*" && p[..|p| - 1] <= path)
  }

  predicate EndpointAllowed(endpoints: seq<string>, path: string) {
    endpoints == [] || exists i :: 0 <= i < |endpoints| && PatternAllows(endpoints[i], path)
  }

  /** A trimmed pattern stands for every path, for one path, or for the paths under a directory; no pattern at all for every path. */
  lemma EndpointAllowedIff(endpoints: seq<string>, path: string)
    ensures EndpointAllowed(endpoints, path) <==> endpoints == [] || exists i :: 0 <= i < |endpoints| && Covers(Trim(endpoints[i], Go), path)
  {
    forall i | 0 <= i < |endpoints| ensures PatternAllows(endpoints[i], path) <==> Covers(Trim(endpoints[i], Go), path) {
      DirectoryIff(Trim(endpoints[i], Go), path);
    }
  }

  ghost predicate Covers(p: string, path: string) { p in {"", "*", path} || exists dir, rest :: Under(p, path, dir, rest) }

  predicate Under(p: string, path: string, dir: string, rest: string) { p == dir + "/*" && path == dir + "/" + rest }

  lemma DirectoryIff(p: string, path: string)
    ensures (|p| >= 2 && p[|p| - 2..] == "/*" && p[..|p| - 1] <= path) <==> exists dir, rest :: Under(p, path, dir, rest)
  {
    if |p| >= 2 && p[|p| - 2..] == "/*" && p[..|p| - 1] <= path {
      var dir, rest := p[..|p| - 2], path[|p| - 1..];
      assert p[..|p| - 1] == dir + "/";
      assert Under(p, path, dir, rest);
    }
    if dir, rest :| Under(p, path, dir, rest) { assert p[..|p| - 1] == dir + "/"; }
  }

  /** The first team with this id, as a list of at most one scope. */
  function TeamScope(teams: seq<Team>, id: string): seq<Scope> {
    if teams == [] then []
    else if teams[0].id == id then [Scope("team:" + id, teams[0].limits)]
    else TeamScope(teams[1..], id)
  }

  method LimitScopes(config: Config, key: Option<ApiKey>) returns (scopes: seq<Scope>)
    ensures scopes == ScopesOf(config, key)
  {
    scopes := [Scope("global", config.limits)];
    if key.Some? && key.value.team != "" {
      for i := 0 to |config.teams|
        invariant scopes == [Scope("global", config.limits)]
        invariant TeamScope(config.teams, key.value.team) == TeamScope(config.teams[i..], key.value.team)
      {
        if config.teams[i].id == key.value.team {
          scopes := scopes + [Scope("team:" + config.teams[i].id, config.teams[i].limits)];
          break;
        }
        assert config.teams[i..][1..] == config.teams[i + 1..];
      }
    }
    if key.Some? { scopes := scopes + [KeyScope(key.value)]; }
  }

  function ScopesOf(config: Config, key: Option<ApiKey>): seq<Scope> {
    [Scope("global", config.limits)]
    + (if key.Some? && key.value.team != "" then TeamScope(config.teams, key.value.team) else [])
    + (if key.Some? then [KeyScope(key.value)] else [])
  }

  /** The whole installation, then the key's team if the configuration has it, then the key: each with its own limits. */
  lemma WhoIsLimited(config: Config, key: Option<ApiKey>)
    ensures key.None? ==> ScopesOf(config, key) == [Scope("global", config.limits)]
    ensures key.Some? && (key.value.team == "" || forall i :: 0 <= i < |config.teams| ==> config.teams[i].id != key.value.team) ==>
              ScopesOf(config, key) == [Scope("global", config.limits), Scope("key:" + key.value.id, key.value.limits)]
    ensures forall i :: 0 <= i < |config.teams| && key.Some? && key.value.team != "" && config.teams[i].id == key.value.team
                        && (forall j :: 0 <= j < i ==> config.teams[j].id != key.value.team) ==>
              ScopesOf(config, key) == [Scope("global", config.limits), Scope("team:" + key.value.team, config.teams[i].limits),
                                        Scope("key:" + key.value.id, key.value.limits)]
  {
    if key.Some? {
      if forall i :: 0 <= i < |config.teams| ==> config.teams[i].id != key.value.team { NoTeam(config.teams, key.value.team); }
      forall i | 0 <= i < |config.teams| && key.value.team != "" && config.teams[i].id == key.value.team
                 && forall j :: 0 <= j < i ==> config.teams[j].id != key.value.team
        ensures TeamScope(config.teams, key.value.team) == [Scope("team:" + key.value.team, config.teams[i].limits)]
      {
        TeamAt(config.teams, key.value.team, i);
      }
    }
  }

  lemma {:induction false} NoTeam(teams: seq<Team>, id: string)
    requires forall i :: 0 <= i < |teams| ==> teams[i].id != id
    ensures TeamScope(teams, id) == []
  {
    if teams != [] { NoTeam(teams[1..], id); }
  }

  lemma {:induction false} TeamAt(teams: seq<Team>, id: string, i: nat)
    requires i < |teams| && teams[i].id == id && forall j :: 0 <= j < i ==> teams[j].id != id
    ensures TeamScope(teams, id) == [Scope("team:" + id, teams[i].limits)]
  {
    if i > 0 { TeamAt(teams[1..], id, i - 1); }
  }

  /** No request is charged twice in one scope: the scopes it is given differ. */
  lemma ScopesAreDistinct(config: Config, key: Option<ApiKey>)
    ensures DistinctIds(ScopesOf(config, key)) && ScopesOf(config, key) != []
  {
    if key.Some? {
      TeamScopeIds(config.teams, key.value.team);
      assert ("team:" + key.value.team)[0] == 't' && ("key:" + key.value.id)[0] == 'k' && "global"[0] == 'g';
    }
  }

  lemma {:induction false} TeamScopeIds(teams: seq<Team>, id: string)
    ensures |TeamScope(teams, id)| <= 1
    ensures forall s :: s in TeamScope(teams, id) ==> s.id == "team:" + id
  {
    if teams != [] && teams[0].id != id { TeamScopeIds(teams[1..], id); }
  }

  // ---- merging policies ----

  function MinPositive(base: int, overlay: int): int {
    if base <= 0 then overlay else if overlay <= 0 || base < overlay then base else overlay
  }

  function MergePolicies(base: Policy, overlay: Policy): Policy {
    Policy(MinPositive(base.requestsPerMinute, overlay.requestsPerMinute),
           MinPositive(base.concurrentStreams, overlay.concurrentStreams),
           MinPositive(base.maxInputBytes, overlay.maxInputBytes),
           MinPositive(base.maxOutputTokens, overlay.maxOutputTokens),
           MinPositive(base.mediaJobs, overlay.mediaJobs),
           if overlay.budgetPerDay > 0.0 && (base.budgetPerDay <= 0.0 || overlay.budgetPerDay < base.budgetPerDay)
           then overlay.budgetPerDay else base.budgetPerDay)
  }

  /** The use is within the limit, where zero or less is no limit. */
  predicate Within(limit: int, used: int) { limit <= 0 || used <= limit }

  predicate Permits(p: Policy, rpm: int, streams: int, bytes: int, tokens: int, jobs: int, cost: real) {
    && Within(p.requestsPerMinute, rpm) && Within(p.concurrentStreams, streams) && Within(p.maxInputBytes, bytes)
    && Within(p.maxOutputTokens, tokens) && Within(p.mediaJobs, jobs) && (p.budgetPerDay <= 0.0 || cost <= p.budgetPerDay)
  }

  /** The merged policy permits exactly what both policies permit. */
  lemma MergedPermitsIff(a: Policy, b: Policy, rpm: int, streams: int, bytes: int, tokens: int, jobs: int, cost: real)
    ensures Permits(MergePolicies(a, b), rpm, streams, bytes, tokens, jobs, cost)
            <==> Permits(a, rpm, streams, bytes, tokens, jobs, cost) && Permits(b, rpm, streams, bytes, tokens, jobs, cost)
  {
  }
}
