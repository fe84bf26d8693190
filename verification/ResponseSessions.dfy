/**
 The store of recent Responses, kept for continuations: entries expire after
 fifteen minutes and the whole store is bounded in number and in bytes
 (internal/api/responses_session.go).
 */
module ResponseSessions {
  import opened Continuation
  import opened Text
  import opened Wrappers

  /** Times are in nanoseconds. */
  const TTL: int := 15 * 60 * 1_000_000_000
  const MAX_ENTRIES := 128
  const MAX_TOTAL := 32 * 1024 * 1024

  /** Who asks: the client's identity and the session it names. */
  datatype Scope = Scope(identity: string, session: string)
  datatype Key = Key(scope: Scope, id: string)
  datatype Entry = Entry(history: History, expires: int, size: nat)

  type Entries = map<Key, Entry>

  ghost function Bytes(m: Entries): nat {
    if m == map[] then 0
    else
      var k :| k in m;
      m[k].size + Bytes(m - {k})
  }

  lemma {:induction false} BytesRemove(m: Entries, k: Key)
    requires k in m
    ensures Bytes(m) == m[k].size + Bytes(m - {k})
    decreases |m|
  {
    var p :| p in m && Bytes(m) == m[p].size + Bytes(m - {p});
    if p != k {
      BytesRemove(m - {p}, k);
      BytesRemove(m - {k}, p);
      assert m - {p} - {k} == m - {k} - {p};
    }
  }

  lemma BytesAdd(m: Entries, k: Key, e: Entry)
    requires k !in m
    ensures Bytes(m[k := e]) == Bytes(m) + e.size
  {
    assert m[k := e] - {k} == m;
    BytesRemove(m[k := e], k);
  }

  /** The entries that have not expired. */
  function Live(m: Entries, now: int): Entries {
    map k | k in m && m[k].expires > now :: m[k]
  }

  ghost predicate Fits(m: Entries, size: nat) {
    |m| < MAX_ENTRIES && Bytes(m) + size <= MAX_TOTAL
  }

  /** `last` expires last of all in gone, and keeping it would leave no room. */
  ghost predicate Needed(m: Entries, gone: set<Key>, size: nat, last: Key)
    requires gone <= m.Keys
  {
    && last in gone
    && !Fits(m - (gone - {last}), size)
    && forall e :: e in gone ==> m[e].expires <= m[last].expires
  }

  /** No survivor expires before an entry in gone, and gone has none to spare. */
  ghost predicate OldestGone(m: Entries, gone: set<Key>, size: nat) {
    && gone <= m.Keys
    && NoOlderLeft(m, gone)
    && (gone == {} || exists last :: Needed(m, gone, size, last))
  }

  ghost predicate NoOlderLeft(m: Entries, gone: set<Key>)
    requires gone <= m.Keys
  {
    forall e, s :: e in gone && s in m && s !in gone ==> m[e].expires <= m[s].expires
  }

  /**
   `gone` is a legitimate eviction from m to make room for `size` more bytes:
   no survivor expires before an evicted entry, there is room afterwards, and
   without dropping the newest of the evicted there would not have been.
   */
  ghost predicate Evicts(m: Entries, gone: set<Key>, size: nat) {
    OldestGone(m, gone, size) && Fits(m - gone, size)
  }

  lemma StillNoOlderLeft(m: Entries, gone: set<Key>, oldest: Key)
    requires gone <= m.Keys && NoOlderLeft(m, gone) && oldest in m && oldest !in gone
    requires forall k :: k in m && k !in gone ==> m[oldest].expires <= m[k].expires
    ensures NoOlderLeft(m, gone + {oldest})
  {
  }

  /** Dropping the oldest survivor while there is no room is a legitimate step. */
  lemma OldestSurvivor(m: Entries, gone: set<Key>, size: nat, oldest: Key)
    requires OldestGone(m, gone, size) && !Fits(m - gone, size)
    requires oldest in m - gone
    requires forall k :: k in m - gone ==> m[oldest].expires <= m[k].expires
    ensures OldestGone(m, gone + {oldest}, size)
    ensures m - gone - {oldest} == m - (gone + {oldest})
  {
    forall k | k in m && k !in gone ensures m[oldest].expires <= m[k].expires {
      assert k in m - gone;
    }
    StillNoOlderLeft(m, gone, oldest);
    assert Needed(m, gone + {oldest}, size, oldest) by {
      assert gone + {oldest} - {oldest} == gone;
    }
    RemoveOneMore(m, gone, oldest);
  }

  lemma RemoveOneMore(m: Entries, gone: set<Key>, k: Key)
    ensures m - gone - {k} == m - (gone + {k})
  {
  }

  /** The entries that expire no earlier than k's. */
  function NoOlder(m: Entries, k: Key): Entries
    requires k in m
  {
    map e | e in m && m[e].expires >= m[k].expires :: m[e]
  }

  lemma {:induction false} BytesOfFewer(few: Entries, m: Entries)
    requires forall k :: k in few ==> k in m && m[k] == few[k]
    ensures Bytes(few) <= Bytes(m) && |few| <= |m|
    decreases |m|
  {
    if few != map[] {
      var k :| k in few;
      BytesRemove(few, k);
      BytesRemove(m, k);
      assert (few - {k}).Keys == few.Keys - {k} && (m - {k}).Keys == m.Keys - {k};
      BytesOfFewer(few - {k}, m - {k});
    }
  }

  /** An entry survives every put that leaves room for it and all that expire no earlier. */
  lemma NoOlderFitStays(m: Entries, gone: set<Key>, size: nat, k: Key)
    requires Evicts(m, gone, size) && k in m && Fits(NoOlder(m, k), size)
    ensures k !in gone
  {
    if k in gone {
      var last :| Needed(m, gone, size, last);
      var left := m - (gone - {last});
      BytesOfFewer(left, NoOlder(m, k));
      assert false;
    }
  }

  class ResponseSessions {
    var entries: Entries
    var bytes: int
    /** The last accepted put under each key. */
    ghost var latest: Entries

    ghost predicate Valid() reads this {
      && bytes == Bytes(entries) <= MAX_TOTAL
      && |entries| <= MAX_ENTRIES
      && (forall k :: k in entries ==> k in latest && latest[k] == entries[k])
    }

    constructor ()
      ensures Valid() && entries == map[] && latest == map[]
    {
      entries, bytes, latest := map[], 0, map[];
    }

    method Prune(now: int)
      requires Valid()
      modifies this`entries, this`bytes
      ensures Valid() && entries == Live(old(entries), now)
    {
      var todo := entries.Keys;
      while todo != {}
        invariant todo <= entries.Keys
        invariant Valid()
        invariant forall k :: k in entries ==> k in old(entries) && entries[k] == old(entries)[k]
        invariant forall k :: k in old(entries) ==> k in entries || old(entries)[k].expires <= now
        invariant forall k :: k in entries && k !in todo ==> entries[k].expires > now
      {
        var key :| key in todo;
        todo := todo - {key};
        if entries[key].expires <= now { Delete(key); }
      }
    }

    method Delete(key: Key)
      requires Valid() && key in entries
      modifies this`entries, this`bytes
      ensures Valid()
      ensures entries == old(entries) - {key} && |entries| == |old(entries)| - 1
      ensures bytes == old(bytes) - old(entries)[key].size
    {
      BytesRemove(entries, key);
      assert (entries - {key}).Keys == entries.Keys - {key};
      bytes := bytes - entries[key].size;
      entries := entries - {key};
    }

    method Forget(key: Key)
      requires Valid()
      modifies this`entries, this`bytes
      ensures Valid() && entries == old(entries) - {key}
    {
      if key in entries { Delete(key); } else { assert entries - {key} == entries; }
    }

    /** A hit is the latest accepted put under that scope and id, and has not expired. */
    method Get(scope: Scope, id: string, now: int) returns (found: Option<History>)
      requires Valid()
      modifies this`entries, this`bytes
      ensures Valid() && entries == Live(old(entries), now)
      ensures found == Lookup(old(entries), Key(scope, id), now)
      ensures found.Some? <==> Key(scope, id) in old(entries) && now < old(entries)[Key(scope, id)].expires
      ensures found.Some? ==> Key(scope, id) in latest && found.value == latest[Key(scope, id)].history
                              && latest[Key(scope, id)].expires > now
    {
      Prune(now);
      found := if Key(scope, id) in entries then Some(entries[Key(scope, id)].history) else None;
    }

    /** Drops the oldest entries until one of `size` bytes fits. */
    method Evict(size: nat) returns (ghost gone: set<Key>)
      requires Valid() && size <= MAX_BYTES
      modifies this`entries, this`bytes
      ensures Valid()
      ensures Evicts(old(entries), gone, size) && entries == old(entries) - gone
    {
      ghost var m := entries;
      gone := {};
      assert m - gone == m;
      while |entries| >= MAX_ENTRIES || bytes + size > MAX_TOTAL
        invariant OldestGone(m, gone, size)
        invariant Valid() && entries == m - gone
        decreases |entries|
      {
        ghost var before := entries;
        assert !Fits(before, size);
        var oldest := Oldest(entries);
        OldestSurvivor(m, gone, size, oldest);
        Delete(oldest);
        gone := gone + {oldest};
      }
    }

    /**
     Stores a response unless it cannot be encoded, is too large or has no id.
     The expiry is stamped before the lock is taken.
     */
    method Put(scope: Scope, id: string, history: History, encoded: Option<nat>, stamped: int, now: int) returns (ghost gone: set<Key>)
      requires Valid()
      modifies this
      ensures Valid()
      ensures !Accepts(id, encoded) ==> entries == old(entries) && latest == old(latest)
      ensures Accepts(id, encoded) ==>
                var key, item := Key(scope, id), Entry(history, stamped + TTL, encoded.value);
                && Evicts(Live(old(entries), now) - {key}, gone, encoded.value)
                && entries == (Live(old(entries), now) - {key} - gone)[key := item]
                && latest == old(latest)[key := item]
      ensures encoded.Some? && encoded.value <= 2 * 1024 * 1024 && id != "" ==>
                && Key(scope, id) in entries && entries[Key(scope, id)].history == history
                && entries[Key(scope, id)].expires == stamped + 15 * 60 * 1_000_000_000
    {
      gone := {};
      if encoded.None? || encoded.value > MAX_BYTES || id == "" { return; }
      gone := Replace(Key(scope, id), Entry(history, stamped + TTL, encoded.value), now);
    }

    /** The critical section of put. */
    method Replace(key: Key, item: Entry, now: int) returns (ghost gone: set<Key>)
      requires Valid() && item.size <= MAX_BYTES
      modifies this
      ensures Valid()
      ensures Evicts(Live(old(entries), now) - {key}, gone, item.size)
      ensures entries == (Live(old(entries), now) - {key} - gone)[key := item]
      ensures latest == old(latest)[key := item]
    {
      Prune(now);
      Forget(key);
      gone := Evict(item.size);
      Insert(key, item);
    }

    method Insert(key: Key, item: Entry)
      requires Valid() && key !in entries && Fits(entries, item.size)
      modifies this
      ensures Valid() && entries == old(entries)[key := item] && latest == old(latest)[key := item]
    {
      BytesAdd(entries, key, item);
      assert entries[key := item].Keys == entries.Keys + {key};
      entries := entries[key := item];
      bytes := bytes + item.size;
      latest := latest[key := item];
    }

    /** Builds the request to send upstream, or says why not. */
    method Prepare(scope: Scope, lastId: string, req: Payload, encoded: nat, now: int) returns (r: Result<Prepared, Refusal>)
      requires Valid()
      modifies this`entries, this`bytes
      ensures Valid()
      ensures entries == if Target(req, lastId).Some? then Live(old(entries), now) else old(entries)
      ensures IsAnswer(r, req, Found(old(entries), scope, Target(req, lastId), now), encoded)
      ensures r.Ok? ==> SentAs(r.value.input, req, old(entries), scope, now)
      ensures r == Err(UnknownPrevious) <==> NamesNothing(req, old(entries), scope, now)
    {
      var previous := Previous(req);
      var found: Option<History> := None;
      if previous != "" && !req.reset {
        found := Get(scope, previous, now);
        if found.None? { return Err(UnknownPrevious); }
      } else if lastId != "" && !req.reset {
        found := Get(scope, lastId, now);
      }
      var fields := req.fields;
      if found.Some? { fields := Inherit(req.fields, found.value.payload.fields); }
      var input := ResponsesInput(req.input);
      if previous != "" && !req.reset {
        input := MergeInput(found.value.payload.input, found.value.output, input);
      }
      var prepared := Prepared(fields, input);
      if encoded > MAX_BYTES { return Err(ContextTooLarge); }
      if ModelOf(prepared) == "" { return Err(ModelRequired); }
      var orphan := FindOrphan(input);
      r := if orphan < |input| then Err(OrphanOutput(input[orphan].callId)) else Ok(prepared);
      if r.Ok? { AcceptedInput(prepared, req, found, encoded); }
    }
  }

  /** The key of an entry no other entry expires before. */
  method Oldest(m: Entries) returns (oldest: Key)
    requires m != map[]
    ensures oldest in m
    ensures forall k :: k in m ==> m[oldest].expires <= m[k].expires
  {
    var todo := m.Keys;
    oldest :| oldest in m;
    while todo != {}
      invariant oldest in m && todo <= m.Keys
      invariant forall k :: k in m && k !in todo ==> m[oldest].expires <= m[k].expires
    {
      var key :| key in todo;
      if m[key].expires < m[oldest].expires { oldest := key; }
      todo := todo - {key};
    }
  }

  /** What put stores at all. */
  predicate Accepts(id: string, encoded: Option<nat>) {
    encoded.Some? && encoded.value <= MAX_BYTES && id != ""
  }

  function Lookup(m: Entries, key: Key, now: int): Option<History> {
    if key in m && m[key].expires > now then Some(m[key].history) else None
  }

  function Found(m: Entries, scope: Scope, target: Option<string>, now: int): Option<History> {
    if target.Some? then Lookup(m, Key(scope, target.value), now) else None
  }

  /** The input an accepted request is sent with: its own, or its own joined to the stored response it names. */
  ghost predicate SentAs(r: seq<Item>, req: Payload, entries: Entries, scope: Scope, now: int) {
    var key := Key(scope, Trim(StringValue(req.previous), Go));
    if req.reset || key.id == "" then r == ResponsesInput(req.input)
    else key in entries && now < entries[key].expires && ContinuesAs(r, ResponsesInput(req.input), entries[key].history)
  }

  /** The request names a response that is not stored, or no longer. */
  predicate NamesNothing(req: Payload, entries: Entries, scope: Scope, now: int) {
    var key := Key(scope, Trim(StringValue(req.previous), Go));
    !req.reset && key.id != "" && (key in entries ==> entries[key].expires <= now)
  }

  /** The merge as prepare computes it: a scan for compaction, then a descending search for the overlap. */
  method MergeInput(priorInput: seq<Item>, priorOutput: seq<Item>, input: seq<Item>) returns (r: seq<Item>)
    ensures r == Merge(priorInput, priorOutput, input)
  {
    var history := priorInput + priorOutput;
    var replace := false;
    for i := 0 to |input|
      invariant replace <==> exists j :: 0 <= j < i && IsCompaction(input[j])
    {
      if IsCompaction(input[i]) { replace := true; }
    }
    if |priorInput| > 0 && |input| >= |priorInput| && input[..|priorInput|] == priorInput { replace := true; }
    if replace { return input; }
    var overlap := 0;
    var n := if |history| < |input| then |history| else |input|;
    while n > 0
      invariant 0 <= n && n <= |history| && n <= |input| && overlap == 0
      invariant forall m :: n < m ==> !Overlaps(history, input, m)
    {
      if history[|history| - n..] == input[..n] {
        overlap := n;
        assert Overlaps(history, input, n);
        break;
      }
      n := n - 1;
    }
    assert overlap == Overlap(history, input) by {
      assert Overlaps(history, input, overlap);
    }
    r := history + input[overlap..];
  }

  /** The first output item without an earlier call, or |items|. */
  method FindOrphan(items: seq<Item>) returns (i: nat)
    ensures i <= |items|
    ensures i < |items| ==> FirstOrphan(items, i)
    ensures i == |items| <==> Paired(items)
  {
    var calls: set<string> := {};
    i := 0;
    while i < |items|
      invariant i <= |items|
      invariant forall id :: id in calls <==> exists c :: 0 <= c < i && IsCall(items[c]) && items[c].callId == id
      invariant forall j :: 0 <= j < i ==> PairedAt(items, j)
    {
      var item := items[i];
      if IsCall(item) {
        calls := calls + {item.callId};
      } else if IsOutput(item) && (item.callId == "" || item.callId !in calls) {
        return;
      }
      i := i + 1;
    }
  }
}
