/**
 Nested settings: merged, set and deleted along dotted paths, and what every path reads
 afterwards (internal/clitools/registry.go).
 */
module MapMerge {
  import opened Wrappers

  datatype Val = Leaf(text: string) | Node(fields: Tree)
  type Tree = map<string, Val>

  type Path = seq<string>

  /** The map under a key; anything else counts as an empty one. */
  function MapUnder(t: Tree, key: string): Tree {
    if key in t && t[key].Node? then t[key].fields else map[]
  }

  /** mergeMaps: maps are merged, everything else is replaced. */
  function Merge(dst: Tree, src: Tree): Tree { MergeNode(dst, Node(src)) }

  function MergeNode(dst: Tree, src: Val): Tree
    requires src.Node?
    decreases src, 0
  {
    map k | k in dst.Keys + src.fields.Keys :: if k in src.fields then Over(MapUnder(dst, k), src.fields[k]) else dst[k]
  }

  /** A value written over what was a map before, perhaps an empty one. */
  function Over(under: Tree, value: Val): Val
    decreases value, 1
  {
    if value.Node? then Node(MergeNode(under, value)) else value
  }

  method MergeMaps(dst: Tree, src: Val) returns (r: Tree)
    requires src.Node?
    ensures r == Merge(dst, src.fields)
    decreases src
  {
    r := dst;
    var todo := src.fields.Keys;
    while todo != {}
      invariant todo <= src.fields.Keys
      invariant r.Keys == dst.Keys + (src.fields.Keys - todo)
      invariant forall k :: k in r ==> r[k] == if k in src.fields && k !in todo then Over(MapUnder(dst, k), src.fields[k]) else dst[k]
    {
      var key :| key in todo;
      todo := todo - {key};
      var value := src.fields[key];
      if value.Node? {
        var existing := MapUnder(r, key);
        assert existing == MapUnder(dst, key);
        var merged := MergeMaps(existing, value);
        r := r[key := Node(merged)];
      } else {
        r := r[key := value];
      }
    }
  }

  // ---- paths ----

  /** What a path reads. */
  function Read(v: Val, p: Path): Option<Val>
    decreases |p|
  {
    if p == [] then Some(v)
    else if v.Node? && p[0] in v.fields then Read(v.fields[p[0]], p[1..])
    else None
  }

  function Get(t: Tree, p: Path): Option<Val> { Read(Node(t), p) }

  /** The path leaves the tree: it follows maps up to one that lacks its next key. */
  predicate Leaves(v: Val, p: Path)
    decreases |p|
  {
    p != [] && v.Node? && (p[0] !in v.fields || Leaves(v.fields[p[0]], p[1..]))
  }

  /** A path reads something, leaves the tree, or would go on below a leaf. */
  lemma {:induction false} ThreeWays(v: Val, p: Path)
    ensures !(Leaves(v, p) && Read(v, p).Some?)
    ensures !Leaves(v, p) && Read(v, p).None? ==> exists n :: 0 <= n < |p| && Read(v, p[..n]).Some? && Read(v, p[..n]).value.Leaf?
    decreases |p|
  {
    if p != [] {
      if v.Leaf? {
        assert p[..0] == [] && Read(v, p[..0]) == Some(v);
      } else if p[0] in v.fields {
        ThreeWays(v.fields[p[0]], p[1..]);
        if !Leaves(v, p) && Read(v, p).None? {
          var n :| 0 <= n < |p[1..]| && Read(v.fields[p[0]], p[1..][..n]).Some? && Read(v.fields[p[0]], p[1..][..n]).value.Leaf?;
          assert p[..n + 1][1..] == p[1..][..n] && p[..n + 1][0] == p[0];
          assert Read(v, p[..n + 1]) == Read(v.fields[p[0]], p[1..][..n]);
        }
      }
    }
  }

  /**
   Merging, path by path: where the path reads a leaf of the source, that leaf; where it reads a map of the
   source, that map merged into what was there; where it leaves the source, what was there before; and
   nothing where it would go on below a leaf of the source.
   */
  lemma {:induction false} MergeReads(dst: Tree, src: Tree, p: Path)
    requires p != []
    ensures Get(Merge(dst, src), p) ==
            if Leaves(Node(src), p) then Get(dst, p)
            else match Get(src, p)
                 case None => None
                 case Some(v) => Some(Over(if Get(dst, p).Some? && Get(dst, p).value.Node? then Get(dst, p).value.fields else map[], v))
    decreases |p|
  {
    var k, rest := p[0], p[1..];
    var m := Merge(dst, src);
    assert Get(m, p) == if k in m then Read(m[k], rest) else None;
    assert Get(src, p) == if k in src then Read(src[k], rest) else None;
    assert Get(dst, p) == if k in dst then Read(dst[k], rest) else None;
    assert k in src ==> m[k] == Over(MapUnder(dst, k), src[k]);
    assert k !in src && k in dst ==> m[k] == dst[k];
    if rest != [] {
      UnderReads(dst, k, rest);
      if k in src && src[k].Node? {
        MergeReads(MapUnder(dst, k), src[k].fields, rest);
        assert src[k] == Node(src[k].fields);
        assert m[k] == Node(Merge(MapUnder(dst, k), src[k].fields));
        assert [k] + rest == p;
      }
    }
  }

  /** Below a key that holds no map there is nothing to read. */
  lemma UnderReads(t: Tree, key: string, rest: Path)
    requires rest != []
    ensures Get(MapUnder(t, key), rest) == Get(t, [key] + rest)
  {
    var p := [key] + rest;
    assert p[1..] == rest && p[0] == key;
    assert Get(t, p) == if key in t then Read(t[key], rest) else None;
    if key in t && t[key].Node? { assert t[key] == Node(t[key].fields); }
  }

  lemma {:induction false} MergeEmpty(src: Val)
    requires src.Node?
    ensures MergeNode(map[], src) == src.fields
    decreases src
  {
    forall k | k in src.fields ensures Over(map[], src.fields[k]) == src.fields[k] {
      if src.fields[k].Node? { MergeEmpty(src.fields[k]); }
    }
  }

  /** Merging the same source again changes nothing. */
  lemma {:induction false} MergeTwice(dst: Tree, src: Val)
    requires src.Node?
    ensures MergeNode(MergeNode(dst, src), src) == MergeNode(dst, src)
    decreases src
  {
    var once := MergeNode(dst, src);
    forall k | k in src.fields ensures Over(MapUnder(once, k), src.fields[k]) == once[k] {
      var v := src.fields[k];
      assert once[k] == Over(MapUnder(dst, k), v);
      if v.Node? { MergeTwice(MapUnder(dst, k), v); }
    }
    assert MergeNode(once, src) == once;
  }

  // ---- setting and deleting ----

  /** setNestedMap along the parts of a dotted path. */
  function SetNested(t: Tree, parts: Path, value: Tree): Tree
    requires parts != []
    decreases |parts|
  {
    t[parts[0] := Node(if |parts| == 1 then value else SetNested(MapUnder(t, parts[0]), parts[1..], value))]
  }

  /** deleteNestedMap: nothing happens where the path does not lead through maps. */
  function DeleteNested(t: Tree, parts: Path): Tree
    requires parts != []
    decreases |parts|
  {
    if |parts| == 1 then t - {parts[0]}
    else if parts[0] in t && t[parts[0]].Node? then t[parts[0] := Node(DeleteNested(t[parts[0]].fields, parts[1..]))]
    else t
  }

  function LeafAt(t: Tree, p: Path): Option<string> {
    match Get(t, p) case Some(Leaf(text)) => Some(text) case _ => None
  }

  /** Deleting takes away what is at and below the path, and no other leaf. */
  lemma {:induction false} DeleteReads(t: Tree, parts: Path, p: Path)
    requires parts != []
    ensures LeafAt(DeleteNested(t, parts), p) == if parts <= p then None else LeafAt(t, p)
    decreases |parts|
  {
    if p != [] && p[0] == parts[0] && |parts| > 1 {
      FirstKey(parts, p);
      if p[0] in t && t[p[0]].Node? {
        var child := t[p[0]];
        assert child == Node(child.fields);
        DeleteReads(child.fields, parts[1..], p[1..]);
        assert DeleteNested(t, parts)[p[0]] == Node(DeleteNested(child.fields, parts[1..]));
        assert Get(t, p) == Get(child.fields, p[1..]);
      } else if parts <= p {
        assert |p| > 1 && p[1..] != [];
        assert Get(t, p) == if p[0] in t then Read(t[p[0]], p[1..]) else None;
      }
    }
  }

  lemma FirstKey(a: Path, b: Path)
    requires a != [] && b != [] && a[0] == b[0]
    ensures a <= b <==> a[1..] <= b[1..]
  {
    assert a == [a[0]] + a[1..] && b == [b[0]] + b[1..];
  }

  /** Setting puts the value's leaves under the path, replaces leaves on the way, and keeps every other. */
  lemma {:induction false} SetReads(t: Tree, parts: Path, value: Tree, p: Path)
    requires parts != []
    ensures LeafAt(SetNested(t, parts, value), p) ==
            if parts <= p then LeafAt(value, p[|parts|..]) else if p <= parts then None else LeafAt(t, p)
    decreases |parts|
  {
    if p != [] && p[0] == parts[0] {
      FirstKey(parts, p);
      FirstKey(p, parts);
      var n := SetNested(t, parts, value);
      assert LeafAt(n, p) == LeafAt(n[p[0]].fields, p[1..]);
      if |parts| > 1 {
        SetReads(MapUnder(t, p[0]), parts[1..], value, p[1..]);
        if parts <= p { assert p[1..][|parts[1..]|..] == p[|parts|..]; }
        if p[1..] != [] { UnderReads(t, p[0], p[1..]); assert [p[0]] + p[1..] == p; }
      }
    }
  }

  /** The leaves that merging replaces or hides: those whose path does not leave the source. */
  lemma MergedLeaves(dst: Tree, src: Tree, p: Path)
    ensures LeafAt(Merge(dst, src), p) == if Leaves(Node(src), p) then LeafAt(dst, p) else LeafAt(src, p)
  {
    if p != [] { MergeReads(dst, src, p); }
  }

  /** Deleting a path after a merge takes away that path alone. */
  lemma DeleteAfterMerge(dst: Tree, src: Tree, parts: Path, p: Path)
    requires parts != []
    ensures LeafAt(DeleteNested(Merge(dst, src), parts), p) ==
            if parts <= p then None else if Leaves(Node(src), p) then LeafAt(dst, p) else LeafAt(src, p)
  {
    DeleteReads(Merge(dst, src), parts, p);
    MergedLeaves(dst, src, p);
  }

  /** Deleting what was set leaves every leaf that the setting did not replace. */
  lemma DeleteAfterSet(t: Tree, parts: Path, value: Tree, p: Path)
    requires parts != []
    ensures LeafAt(DeleteNested(SetNested(t, parts, value), parts), p) == if parts <= p || p <= parts then None else LeafAt(t, p)
  {
    DeleteReads(SetNested(t, parts, value), parts, p);
    SetReads(t, parts, value, p);
  }
}
