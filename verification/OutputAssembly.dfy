/**
 How a finished run's output items become the output list of the stored
 response (internal/api/websocket.go).
 */
module OutputAssembly {
  import opened Collections

  /** An output_item.done event. */
  datatype Placed<T> = Placed(index: int, item: T)

  function Indices<T>(dones: seq<Placed<T>>): set<int> {
    set k | 0 <= k < |dones| :: dones[k].index
  }

  lemma IndicesGrow<T>(dones: seq<Placed<T>>)
    requires dones != []
    ensures Indices(dones) == Indices(dones[..|dones| - 1]) + {dones[|dones| - 1].index}
  {
    var before := dones[..|dones| - 1];
    forall i | i in Indices(dones) ensures i in Indices(before) + {dones[|dones| - 1].index} {
      var k :| 0 <= k < |dones| && dones[k].index == i;
      if k < |before| { assert before[k].index == i; }
    }
    forall i | i in Indices(before) ensures i in Indices(dones) {
      var k :| 0 <= k < |before| && before[k].index == i;
      assert dones[k].index == i;
    }
  }

  /** The item of the last event with this index. */
  function LastAt<T>(dones: seq<Placed<T>>, index: int): T
    requires index in Indices(dones)
  {
    var d := dones[|dones| - 1];
    if d.index == index then d.item else LastAt(dones[..|dones| - 1], index)
  }

  /** The indices that occur, in ascending order. */
  ghost predicate Ascending<T>(order: seq<int>, dones: seq<Placed<T>>) {
    && Increasing(order)
    && (forall i :: i in order <==> i in Indices(dones))
  }

  /** The output along that order: what was last finished at each index. */
  ghost predicate Along<T>(output: seq<T>, order: seq<int>, dones: seq<Placed<T>>) {
    Ascending(order, dones) && |output| == |order| && forall n :: 0 <= n < |order| ==> output[n] == LastAt(dones, order[n])
  }

  ghost predicate Assembled<T>(output: seq<T>, dones: seq<Placed<T>>) { exists order :: Along(output, order, dones) }

  /** One item per output index, by ascending index. */
  method AssembleOutput<T>(dones: seq<Placed<T>>) returns (output: seq<T>)
    ensures Assembled(output, dones) && |output| == |Indices(dones)|
  {
    var outputs: map<int, T> := map[];
    for k := 0 to |dones|
      invariant outputs.Keys == Indices(dones[..k])
      invariant forall i :: i in outputs ==> outputs[i] == LastAt(dones[..k], i)
    {
      assert dones[..k + 1][..k] == dones[..k];
      IndicesGrow(dones[..k + 1]);
      outputs := outputs[dones[k].index := dones[k].item];
    }
    assert dones[..|dones|] == dones;
    output := [];
    var order: seq<int>, todo := [], outputs.Keys;
    while todo != {}
      invariant todo <= outputs.Keys && |order| == |output| && |todo| + |output| == |outputs.Keys|
      invariant forall i :: i in outputs <==> i in todo || i in order
      invariant forall m, n :: 0 <= m < n < |order| ==> order[m] < order[n]
      invariant forall n, i :: 0 <= n < |order| && i in todo ==> order[n] < i
      invariant forall n :: 0 <= n < |order| ==> order[n] in outputs && output[n] == outputs[order[n]]
    {
      var i := Least(todo);
      output := output + [outputs[i]];
      order := order + [i];
      todo := todo - {i};
    }
    assert Along(output, order, dones);
  }

  /** The finished items leave only one list to be assembled. */
  lemma AssembledOnce<T>(a: seq<T>, b: seq<T>, dones: seq<Placed<T>>)
    requires Assembled(a, dones) && Assembled(b, dones)
    ensures a == b
  {
    var p :| Along(a, p, dones);
    var q :| Along(b, q, dones);
    SameOrder(p, q);
  }

  predicate Increasing(p: seq<int>) { forall m, n :: 0 <= m < n < |p| ==> p[m] < p[n] }

  ghost predicate SameElements(p: seq<int>, q: seq<int>) { forall i :: i in p <==> i in q }

  /** Two ascending lists of the same numbers are the same list. */
  lemma {:induction false} SameOrder(p: seq<int>, q: seq<int>)
    requires Increasing(p) && Increasing(q) && SameElements(p, q)
    ensures p == q
    decreases |p|
  {
    assert q != [] ==> q[0] in q;
    if p != [] {
      var p1, q1 := SameLast(p, q);
      SameOrder(p1, q1);
    }
  }

  lemma SameLast(p: seq<int>, q: seq<int>) returns (p1: seq<int>, q1: seq<int>)
    requires Increasing(p) && Increasing(q) && SameElements(p, q) && p != []
    ensures q != [] && p == p1 + [p[|p| - 1]] && q == q1 + [p[|p| - 1]]
    ensures |p1| < |p| && Increasing(p1) && Increasing(q1) && SameElements(p1, q1)
  {
    var x := p[|p| - 1];
    assert x in p;
    assert x in q;
    var y := q[|q| - 1];
    assert y in q;
    assert y in p;
    assert x == y;
    p1, q1 := p[..|p| - 1], q[..|q| - 1];
    WithoutLast(p);
    WithoutLast(q);
    forall i ensures i in p1 <==> i in q1 {
      assert i in p1 <==> i in p && i != x;
      assert i in q1 <==> i in q && i != y;
    }
  }

  lemma WithoutLast(p: seq<int>)
    requires p != [] && Increasing(p)
    ensures forall i :: i in p[..|p| - 1] <==> i in p && i != p[|p| - 1]
  {
    var init := p[..|p| - 1];
    assert p == init + [p[|p| - 1]];
  }

  predicate DistinctIndices<T>(dones: seq<Placed<T>>) {
    forall m, n :: 0 <= m < n < |dones| ==> dones[m].index != dones[n].index
  }

  /** The assembled list is as long as the list of finished items exactly when no two shared an index. */
  lemma {:induction false} NothingOverwrittenIff<T>(dones: seq<Placed<T>>)
    ensures |Indices(dones)| <= |dones|
    ensures |Indices(dones)| == |dones| <==> DistinctIndices(dones)
  {
    if dones != [] {
      var before := dones[..|dones| - 1];
      NothingOverwrittenIff(before);
      IndicesGrow(dones);
      OneMoreDistinct(before, dones[|dones| - 1]);
      assert before + [dones[|dones| - 1]] == dones;
    }
  }

  lemma OneMoreDistinct<T>(before: seq<Placed<T>>, last: Placed<T>)
    ensures DistinctIndices(before + [last]) <==> DistinctIndices(before) && last.index !in Indices(before)
  {
    var dones, n := before + [last], |before|;
    if DistinctIndices(dones) {
      forall a, b | 0 <= a < b < n ensures before[a].index != before[b].index {
        assert dones[a].index != dones[b].index;
      }
      forall m | 0 <= m < n ensures before[m].index != last.index {
        assert dones[m].index != dones[n].index;
      }
    } else {
      var a, b :| 0 <= a < b <= n && dones[a].index == dones[b].index;
      assert before[a].index in Indices(before);
    }
  }
}
