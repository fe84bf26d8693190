/**
 Concurrent stream slots: acquired for every scope of a request at once and
 given back exactly once (acquireStream, releaseStream and acquireClientStream
 in internal/api/limits.go).
 */
module StreamSlots {
  import opened Limits
  import opened Wrappers

  type Streams = map<string, int>
  type Handles = map<nat, seq<string>>

  function Count(s: Streams, id: string): int { if id in s then s[id] else 0 }

  predicate Blocked(s: Streams, scope: Scope) {
    scope.limits.concurrentStreams > 0 && Count(s, scope.id) >= scope.limits.concurrentStreams
  }

  function Ids(scopes: seq<Scope>): seq<string> {
    seq(|scopes|, i requires 0 <= i < |scopes| => scopes[i].id)
  }

  /** The handles that hold a slot in the scope. */
  function Holders(live: Handles, id: string): set<nat> {
    set h | h in live && id in live[h]
  }

  /** Every slot in use belongs to a live handle, and no scope is kept at zero. */
  ghost predicate Conserved(s: Streams, live: Handles) {
    forall id :: Count(s, id) == |Holders(live, id)| && (id in s ==> s[id] > 0)
  }

  lemma AddHandle(live: Handles, h: nat, ids: seq<string>, id: string)
    requires h !in live
    ensures |Holders(live[h := ids], id)| == |Holders(live, id)| + if id in ids then 1 else 0
  {
    if id in ids {
      assert Holders(live[h := ids], id) == Holders(live, id) + {h};
    } else {
      assert Holders(live[h := ids], id) == Holders(live, id);
    }
  }

  lemma DropHandle(live: Handles, h: nat, id: string)
    requires h in live
    ensures |Holders(live - {h}, id)| == |Holders(live, id)| - if id in live[h] then 1 else 0
  {
    if id in live[h] {
      assert Holders(live, id) == Holders(live - {h}, id) + {h};
    } else {
      assert Holders(live - {h}, id) == Holders(live, id);
    }
  }

  predicate FirstBlocked(streams: Streams, scopes: seq<Scope>, i: nat)
    requires i < |scopes|
  {
    Blocked(streams, scopes[i]) && forall j :: 0 <= j < i ==> !Blocked(streams, scopes[j])
  }

  class StreamLimiter {
    var streams: Streams
    /** The scopes each live handle captured when it acquired its slots. */
    ghost var live: Handles

    ghost predicate Valid() reads this {
      Conserved(streams, live) && forall h :: h in live ==> DistinctNames(live[h])
    }

    constructor ()
      ensures Valid() && live == map[]
    {
      streams, live := map[], map[];
      assert forall id :: Holders(map[], id) == {};
    }

    /** A refusal changes nothing; otherwise every scope gains exactly one slot. */
    method AcquireStream(scopes: seq<Scope>, ghost h: nat) returns (r: Option<LimitError>)
      requires Valid() && DistinctIds(scopes) && h !in live
      modifies this
      ensures Valid()
      ensures r.Some? <==> exists i :: 0 <= i < |scopes| && Blocked(old(streams), scopes[i])
      ensures r.Some? ==> exists i :: 0 <= i < |scopes| && FirstBlocked(old(streams), scopes, i) && r.value == TooManyStreams(scopes[i].id)
      ensures r.Some? ==> streams == old(streams) && live == old(live)
      ensures r.None? ==> live == old(live)[h := Ids(scopes)]
    {
      for i := 0 to |scopes|
        invariant forall j :: 0 <= j < i ==> !Blocked(streams, scopes[j])
      {
        if Blocked(streams, scopes[i]) {
          assert FirstBlocked(streams, scopes, i);
          return Some(TooManyStreams(scopes[i].id));
        }
      }
      ghost var before := streams;
      for i := 0 to |scopes|
        invariant live == old(live)
        invariant forall id :: Count(streams, id) == Count(before, id) + if id in Ids(scopes)[..i] then 1 else 0
        invariant forall id :: id in streams ==> streams[id] > 0
      {
        var id := scopes[i].id;
        assert Ids(scopes)[..i + 1] == Ids(scopes)[..i] + [id];
        assert id !in Ids(scopes)[..i];
        assert Count(before, id) >= 0;
        streams := streams[id := Count(streams, id) + 1];
      }
      assert Ids(scopes)[..|scopes|] == Ids(scopes);
      forall id ensures Count(streams, id) == |Holders(live[h := Ids(scopes)], id)| {
        AddHandle(live, h, Ids(scopes), id);
      }
      live := live[h := Ids(scopes)];
      return None;
    }

    method ReleaseStream(ids: seq<string>, ghost h: nat)
      requires Valid() && h in live && live[h] == ids
      modifies this
      ensures Valid() && live == old(live) - {h}
    {
      ghost var before := streams;
      for i := 0 to |ids|
        invariant live == old(live)
        invariant forall id :: Count(streams, id) == Count(before, id) - if id in ids[..i] then 1 else 0
        invariant forall id :: id in streams ==> streams[id] > 0
      {
        var id := ids[i];
        assert ids[..i + 1] == ids[..i] + [id];
        assert id !in ids[..i];
        HolderCounts(live, h, id);
        if Count(streams, id) > 1 {
          streams := streams[id := streams[id] - 1];
        } else {
          streams := streams - {id};
        }
      }
      assert ids[..|ids|] == ids;
      forall id ensures Count(streams, id) == |Holders(live - {h}, id)| {
        DropHandle(live, h, id);
      }
      live := live - {h};
    }
  }

  predicate DistinctNames(ids: seq<string>) {
    forall i, j :: 0 <= i < j < |ids| ==> ids[i] != ids[j]
  }

  lemma HolderCounts(live: Handles, h: nat, id: string)
    requires h in live && id in live[h]
    ensures |Holders(live, id)| >= 1
  {
    assert h in Holders(live, id);
    assert Holders(live, id) != {};
  }

  /** What acquireClientStream hands out: releasing it again does nothing. */
  class ClientStream {
    const limiter: StreamLimiter
    const ids: seq<string>
    var released: bool
    ghost const handle: nat

    ghost predicate Valid() reads this, limiter {
      limiter.Valid() && (!released ==> handle in limiter.live && limiter.live[handle] == ids)
    }

    constructor (limiter: StreamLimiter, ids: seq<string>, ghost handle: nat)
      requires limiter.Valid() && handle in limiter.live && limiter.live[handle] == ids
      ensures Valid() && !released && this.limiter == limiter && this.handle == handle
    {
      this.limiter, this.ids, this.handle, released := limiter, ids, handle, false;
    }

    method Release()
      requires Valid()
      modifies this, limiter
      ensures Valid() && released
      ensures limiter.live == if old(released) then old(limiter.live) else old(limiter.live) - {handle}
    {
      if released { return; }
      released := true;
      limiter.ReleaseStream(ids, handle);
    }
  }

  method AcquireClientStream(limiter: StreamLimiter, config: Config, key: Option<ApiKey>, ghost h: nat)
    returns (r: Result<ClientStream, LimitError>)
    requires limiter.Valid() && h !in limiter.live
    modifies limiter
    ensures limiter.Valid()
    ensures r.Err? ==> limiter.streams == old(limiter.streams) && limiter.live == old(limiter.live)
    ensures r.Ok? ==> fresh(r.value) && r.value.Valid() && !r.value.released && r.value.limiter == limiter && r.value.handle == h
                      && limiter.live == old(limiter.live)[h := Ids(ScopesOf(config, key))]
    ensures r.Err? <==> exists i :: 0 <= i < |ScopesOf(config, key)| && Blocked(old(limiter.streams), ScopesOf(config, key)[i])
  {
    var scopes := LimitScopes(config, key);
    ScopesAreDistinct(config, key);
    var refused := limiter.AcquireStream(scopes, h);
    if refused.Some? { return Err(refused.value); }
    var handle := new ClientStream(limiter, Ids(scopes), h);
    r := Ok(handle);
  }

  // ---- runs ----

  datatype Action = Acquire(h: nat, scopes: seq<Scope>) | Release(h: nat)

  /** The handles left by a run in which an acquisition succeeds whenever it is not refused. */
  function Live(run: seq<Action>): Handles {
    if run == [] then map[]
    else
      var live, a := Live(run[..|run| - 1]), run[|run| - 1];
      match a
      case Acquire(h, scopes) =>
        if h in live || Refused(live, scopes) then live else live[h := Ids(scopes)]
      case Release(h) => live - {h}
  }

  /** Some scope has as many holders as its limit allows. */
  predicate Refused(live: Handles, scopes: seq<Scope>) {
    exists i :: 0 <= i < |scopes| && scopes[i].limits.concurrentStreams > 0
                && |Holders(live, scopes[i].id)| >= scopes[i].limits.concurrentStreams
  }

  /** Every acquisition that names the scope names it with this limit. */
  predicate Constant(run: seq<Action>, id: string, limit: int) {
    forall k, i :: 0 <= k < |run| && run[k].Acquire? && 0 <= i < |run[k].scopes| && run[k].scopes[i].id == id ==>
      run[k].scopes[i].limits.concurrentStreams == limit
  }

  /** A scope with a constant positive limit never has more streams than that. */
  lemma {:induction false} NeverAboveLimit(run: seq<Action>, id: string, limit: int)
    requires limit > 0 && Constant(run, id, limit)
    ensures |Holders(Live(run), id)| <= limit
  {
    if run == [] {
      assert Holders(Live(run), id) == {};
    } else {
      var init, a := run[..|run| - 1], run[|run| - 1];
      var live := Live(init);
      assert Constant(init, id, limit) by {
        forall k, i | 0 <= k < |init| && init[k].Acquire? && 0 <= i < |init[k].scopes| && init[k].scopes[i].id == id
          ensures init[k].scopes[i].limits.concurrentStreams == limit
        {
          assert run[k] == init[k];
        }
      }
      NeverAboveLimit(init, id, limit);
      match a
      case Acquire(h, scopes) =>
        if h !in live && !Refused(live, scopes) {
          AddHandle(live, h, Ids(scopes), id);
          if id in Ids(scopes) {
            var i :| 0 <= i < |scopes| && scopes[i].id == id;
            assert run[|run| - 1].scopes[i].limits.concurrentStreams == limit;
          }
        }
      case Release(h) =>
        if h in live { DropHandle(live, h, id); } else { assert live - {h} == live; }
    }
  }

  /** In a conserved state, the limiter refuses exactly when the holders say so. */
  lemma RefusalIsByHolders(s: Streams, live: Handles, scopes: seq<Scope>)
    requires Conserved(s, live)
    ensures (exists i :: 0 <= i < |scopes| && Blocked(s, scopes[i])) <==> Refused(live, scopes)
  {
    forall i | 0 <= i < |scopes|
      ensures Blocked(s, scopes[i]) <==> scopes[i].limits.concurrentStreams > 0 && |Holders(live, scopes[i].id)| >= scopes[i].limits.concurrentStreams
    {
      assert Count(s, scopes[i].id) == |Holders(live, scopes[i].id)|;
    }
  }
}
