/**
 Following names hop by hop: a bounded walk that never returns to a name, against the
 plain iteration of single hops.
 */
module Chains {
  import opened Wrappers

  const MAX_DEPTH: nat := 8

  /** Where a name leads, and what two names must share to count as the same. */
  datatype Walk = Walk(hop: string -> Option<string>, key: string -> string)

  function ResolveOnce(w: Walk, name: string): string {
    match w.hop(name) case Some(t) => t case None => name
  }

  /** n single hops. */
  function Iterate(w: Walk, name: string, n: nat): string {
    if n == 0 then name else ResolveOnce(w, Iterate(w, name, n - 1))
  }

  function Key(w: Walk, name: string, n: nat): string { w.key(Iterate(w, name, n)) }

  predicate Visited(w: Walk, name: string, key: string, n: nat) { exists i :: 0 <= i <= n && Key(w, name, i) == key }

  /** The n-th name has a target, and one not met before. */
  predicate Moves(w: Walk, name: string, n: nat) {
    w.hop(Iterate(w, name, n)).Some? && !Visited(w, name, Key(w, name, n + 1), n)
  }

  function HopsFrom(w: Walk, name: string, n: nat): (h: nat)
    requires n <= MAX_DEPTH
    ensures n <= h <= MAX_DEPTH
    ensures forall i :: n <= i < h ==> Moves(w, name, i)
    ensures h < MAX_DEPTH ==> !Moves(w, name, h)
    decreases MAX_DEPTH - n
  {
    if n < MAX_DEPTH && Moves(w, name, n) then HopsFrom(w, name, n + 1) else n
  }

  /** How many hops the chain takes: up to eight, never to a name it has met. */
  function Hops(w: Walk, name: string): nat { HopsFrom(w, name, 0) }

  function Chain(w: Walk, name: string): string { Iterate(w, name, Hops(w, name)) }

  lemma VisitedNext(w: Walk, name: string, n: nat)
    ensures forall key :: Visited(w, name, key, n + 1) <==> Visited(w, name, key, n) || key == Key(w, name, n + 1)
  {
  }

  /** One turn of the bounded walk: on to a name not met before, or the end. */
  lemma WalkOn(w: Walk, name: string, n: nat)
    requires n < MAX_DEPTH
    ensures Moves(w, name, n) ==> HopsFrom(w, name, n) == HopsFrom(w, name, n + 1)
    ensures !Moves(w, name, n) ==> HopsFrom(w, name, n) == n
    ensures w.hop(Iterate(w, name, n)).Some? ==> Iterate(w, name, n + 1) == w.hop(Iterate(w, name, n)).value
  {
  }

  /** Single hops, one after another. */
  predicate StepsOf(w: Walk, name: string, steps: seq<string>) {
    |steps| > 0 && forall k :: 0 <= k < |steps| ==> steps[k] == Iterate(w, name, k)
  }

  lemma FirstStep(w: Walk, name: string)
    ensures StepsOf(w, name, [name])
  {
  }

  lemma StepOn(w: Walk, name: string, steps: seq<string>, next: string)
    requires StepsOf(w, name, steps) && next == ResolveOnce(w, steps[|steps| - 1])
    ensures StepsOf(w, name, steps + [next])
    ensures next == steps[|steps| - 1] ==> forall n :: |steps| - 1 <= n ==> Iterate(w, name, n) == next
  {
    var i := |steps| - 1;
    assert Iterate(w, name, i + 1) == ResolveOnce(w, Iterate(w, name, i));
    forall n | i <= n && next == steps[i] ensures Iterate(w, name, n) == next { IterateFixed(w, name, i, n); }
  }

  /** What a bounded walk has done after n hops: where it is, which names it has met, and that it is not over before. */
  ghost predicate WalkedTo(w: Walk, name: string, n: nat, current: string, seen: set<string>) {
    && n <= MAX_DEPTH && current == Iterate(w, name, n) && HopsFrom(w, name, n) == Hops(w, name)
    && forall key :: key in seen <==> Visited(w, name, key, n)
  }

  lemma WalkStarts(w: Walk, name: string)
    ensures WalkedTo(w, name, 0, name, {w.key(name)})
  {
    assert Key(w, name, 0) == w.key(name);
  }

  lemma WalkEnds(w: Walk, name: string, n: nat, current: string, seen: set<string>)
    requires WalkedTo(w, name, n, current, seen)
    requires n == MAX_DEPTH || w.hop(current).None? || w.key(w.hop(current).value) in seen
    ensures current == Chain(w, name)
  {
    if n < MAX_DEPTH { WalkOn(w, name, n); }
  }

  lemma WalkGoesOn(w: Walk, name: string, n: nat, current: string, seen: set<string>)
    requires WalkedTo(w, name, n, current, seen) && n < MAX_DEPTH
    requires w.hop(current).Some? && w.key(w.hop(current).value) !in seen
    ensures WalkedTo(w, name, n + 1, w.hop(current).value, seen + {w.key(w.hop(current).value)})
  {
    WalkOn(w, name, n);
    VisitedNext(w, name, n);
  }

  lemma {:induction false} IterateFixed(w: Walk, name: string, from: nat, n: nat)
    requires from <= n && ResolveOnce(w, Iterate(w, name, from)) == Iterate(w, name, from)
    ensures Iterate(w, name, n) == Iterate(w, name, from)
  {
    if from < n { IterateFixed(w, name, from, n - 1); }
  }

  // ---- what the chain does ----

  /** The chain is a sequence of single hops, at most eight, through names that all differ. */
  lemma ChainVisitsNothingTwice(w: Walk, name: string, i: nat, j: nat)
    requires i < j <= Hops(w, name)
    ensures Hops(w, name) <= MAX_DEPTH
    ensures Key(w, name, i) != Key(w, name, j)
    ensures w.hop(Iterate(w, name, i)).Some?
  {
    assert Moves(w, name, j - 1) && Moves(w, name, i);
    assert Visited(w, name, Key(w, name, i), j - 1);
  }

  /** The path stops of itself within eight hops. */
  predicate Ends(w: Walk, name: string) { w.hop(Chain(w, name)).None? }

  /** The path comes back to a name within eight hops: after n of them the next is one met i hops earlier. */
  predicate ComesBack(w: Walk, name: string, n: nat, i: nat) {
    && n == Hops(w, name) < MAX_DEPTH && i <= n
    && w.hop(Iterate(w, name, n)).Some?
    && Key(w, name, n + 1) == Key(w, name, n - i)
  }

  /** Every path ends within eight hops, goes on for longer, or comes back. */
  lemma PathsEndOrComeBack(w: Walk, name: string)
    ensures Ends(w, name) || Hops(w, name) == MAX_DEPTH || exists i: nat :: ComesBack(w, name, Hops(w, name), i)
  {
    var n := Hops(w, name);
    if n < MAX_DEPTH && !Ends(w, name) {
      assert Visited(w, name, Key(w, name, n + 1), n);
      var k :| 0 <= k <= n && Key(w, name, k) == Key(w, name, n + 1);
      assert ComesBack(w, name, n, n - k);
    }
  }

  /** On a path that does not come back, requests and preview agree. */
  lemma AgreeWithoutReturn(w: Walk, name: string)
    requires Ends(w, name) || Hops(w, name) == MAX_DEPTH
    ensures Chain(w, name) == Iterate(w, name, MAX_DEPTH)
  {
    if Ends(w, name) { IterateFixed(w, name, Hops(w, name), MAX_DEPTH); }
  }

  // Assumed of a walk below: names that count as the same lead to the same place,
  // and no name leads to itself.

  predicate Same(w: Walk, a: string, b: string) { w.key(a) == w.key(b) }

  ghost predicate ByKey(w: Walk) { forall a, b :: Same(w, a, b) ==> w.hop(a) == w.hop(b) }
  ghost predicate NoLoop(w: Walk) { forall a :: w.hop(a).Some? ==> w.key(a) != w.key(w.hop(a).value) }

  /** Names n - i to n, which all lead on, followed by the first of them again. */
  ghost predicate Circles(w: Walk, name: string, n: nat, i: nat) {
    && i <= n
    && (forall k :: 0 <= k <= n ==> w.hop(Iterate(w, name, k)).Some?)
    && Key(w, name, n + 1) == Key(w, name, n - i)
  }

  lemma ComesBackCircles(w: Walk, name: string, n: nat, i: nat)
    requires ComesBack(w, name, n, i)
    ensures Circles(w, name, n, i)
  {
    forall k | 0 <= k <= n ensures w.hop(Iterate(w, name, k)).Some? {
      if k < n { ChainVisitsNothingTwice(w, name, k, n); }
    }
  }

  lemma SameStep(w: Walk, name: string, a: nat, b: nat)
    requires ByKey(w) && Key(w, name, a) == Key(w, name, b) && w.hop(Iterate(w, name, a)).Some?
    ensures Iterate(w, name, a + 1) == Iterate(w, name, b + 1) && w.hop(Iterate(w, name, b)).Some?
  {
    assert Same(w, Iterate(w, name, a), Iterate(w, name, b));
  }

  /** After coming back, names repeat with period i + 1. */
  lemma {:induction false} KeysRepeat(w: Walk, name: string, n: nat, i: nat, k: nat)
    requires ByKey(w) && Circles(w, name, n, i) && n - i <= k
    ensures Key(w, name, k + i + 1) == Key(w, name, k)
    ensures k > n - i ==> Iterate(w, name, k + i + 1) == Iterate(w, name, k)
    decreases k, 1
  {
    if k > n - i {
      var j := k - 1;
      KeysRepeat(w, name, n, i, j);
      AllHop(w, name, n, i, j);
      SameStep(w, name, j, j + i + 1);
    }
  }

  lemma {:induction false} AllHop(w: Walk, name: string, n: nat, i: nat, k: nat)
    requires ByKey(w) && Circles(w, name, n, i)
    ensures w.hop(Iterate(w, name, k)).Some?
    decreases k, 0
  {
    if k > n {
      var j := k - i - 1;
      KeysRepeat(w, name, n, i, j);
      AllHop(w, name, n, i, j);
      SameStep(w, name, j, k);
    }
  }

  /** The place reached from k after some laps of i + 1 hops. */
  function LapsOn(k: nat, i: nat, laps: nat): nat {
    if laps == 0 then k else LapsOn(k, i, laps - 1) + (i + 1)
  }

  lemma {:induction false} LapsOnIs(k: nat, i: nat, laps: nat)
    ensures LapsOn(k, i, laps) == k + laps * (i + 1)
  {
    if laps > 0 {
      LapsOnIs(k, i, laps - 1);
      assert laps * (i + 1) == (laps - 1) * (i + 1) + (i + 1);
    }
  }

  lemma {:induction false} LapsRepeat(w: Walk, name: string, n: nat, i: nat, k: nat, laps: nat)
    requires ByKey(w) && Circles(w, name, n, i) && n - i < k
    ensures Iterate(w, name, LapsOn(k, i, laps)) == Iterate(w, name, k) && LapsOn(k, i, laps) >= k
  {
    if laps > 0 {
      LapsRepeat(w, name, n, i, k, laps - 1);
      KeysRepeat(w, name, n, i, LapsOn(k, i, laps - 1));
    }
  }

  lemma Laps(w: Walk, name: string, n: nat, i: nat, k: nat, laps: nat)
    requires ByKey(w) && Circles(w, name, n, i) && n - i < k
    ensures Iterate(w, name, k + laps * (i + 1)) == Iterate(w, name, k)
  {
    LapsOnIs(k, i, laps);
    LapsRepeat(w, name, n, i, k, laps);
  }

  predicate EndsALap(n: nat, i: nat)
    requires n <= MAX_DEPTH
  {
    (MAX_DEPTH - n) % (i + 1) == 0
  }

  /** Once a path comes back, requests and preview agree only where eight hops happen to end a lap. */
  lemma AgreeAfterReturnIff(w: Walk, name: string, n: nat, i: nat)
    requires ByKey(w) && NoLoop(w) && ComesBack(w, name, n, i)
    ensures Chain(w, name) == Iterate(w, name, MAX_DEPTH) <==> EndsALap(n, i)
  {
    ComesBackCircles(w, name, n, i);
    NotAtOnce(w, name, n, i);
    var laps, rest := Quotient(MAX_DEPTH - n, i + 1);
    Laps(w, name, n, i, n + rest, laps);
    assert MAX_DEPTH == n + rest + laps * (i + 1);
    if rest > 0 { Elsewhere(w, name, n, i, rest); }
  }

  lemma Quotient(a: nat, b: nat) returns (q: nat, r: nat)
    requires b > 0
    ensures a == r + q * b && r < b && r == a % b
  {
    q, r := a / b, a % b;
  }

  /** Names short of a full lap differ from the one the walk stopped at. */
  lemma Elsewhere(w: Walk, name: string, n: nat, i: nat, rest: nat)
    requires ByKey(w) && ComesBack(w, name, n, i) && 0 < rest <= i
    ensures Key(w, name, n + rest) != Key(w, name, n)
  {
    ComesBackCircles(w, name, n, i);
    KeysRepeat(w, name, n, i, n + rest - i - 1);
    ChainVisitsNothingTwice(w, name, n + rest - i - 1, n);
  }

  lemma NotAtOnce(w: Walk, name: string, n: nat, i: nat)
    requires NoLoop(w) && Circles(w, name, n, i)
    ensures i > 0
  {
    assert Iterate(w, name, n + 1) == w.hop(Iterate(w, name, n)).value;
  }

  /** Following a chain again changes nothing exactly when its path ends. */
  lemma FollowedTwiceIff(w: Walk, name: string)
    requires ByKey(w) && NoLoop(w)
    ensures Chain(w, Chain(w, name)) == Chain(w, name) <==> Ends(w, name)
  {
    var y := Chain(w, name);
    assert Iterate(w, y, 0) == y;
    if w.hop(y).Some? {
      assert Iterate(w, y, 1) == w.hop(y).value;
      assert Moves(w, y, 0);
      assert Hops(w, y) > 0;
      ChainVisitsNothingTwice(w, y, 0, Hops(w, y));
    } else {
      assert !Moves(w, y, 0);
    }
  }

  ghost predicate AgreesOn(w: Walk, name: string) {
    forall i: nat :: ComesBack(w, name, Hops(w, name), i) ==> EndsALap(Hops(w, name), i)
  }

  lemma AgreeIff(w: Walk, name: string)
    requires ByKey(w) && NoLoop(w)
    ensures Chain(w, name) == Iterate(w, name, MAX_DEPTH) <==> AgreesOn(w, name)
  {
    PathsEndOrComeBack(w, name);
    if Ends(w, name) || Hops(w, name) == MAX_DEPTH {
      AgreeWithoutReturn(w, name);
    } else {
      var i: nat :| ComesBack(w, name, Hops(w, name), i);
      AgreeAfterReturnIff(w, name, Hops(w, name), i);
      forall k: nat | ComesBack(w, name, Hops(w, name), k) ensures k == i { OneReturn(w, name, i, k); }
    }
  }

  lemma OneReturn(w: Walk, name: string, i: nat, k: nat)
    requires ComesBack(w, name, Hops(w, name), i) && ComesBack(w, name, Hops(w, name), k)
    ensures i == k
  {
    var n := Hops(w, name);
    if i < k {
      ChainVisitsNothingTwice(w, name, n - k, n - i);
    } else if k < i {
      ChainVisitsNothingTwice(w, name, n - i, n - k);
    }
  }

  /** Two names that lead to each other: the walk takes one hop, eight single hops come back. */
  lemma SwapDisagrees(w: Walk, a: string, b: string)
    requires ByKey(w) && w.hop(a) == Some(b) && w.hop(b) == Some(a) && w.key(a) != w.key(b)
    ensures Chain(w, a) == b && Iterate(w, a, MAX_DEPTH) == a
  {
    assert Iterate(w, a, 0) == a;
    assert Iterate(w, a, 1) == ResolveOnce(w, a) == b;
    assert Iterate(w, a, 2) == ResolveOnce(w, Iterate(w, a, 1)) == a;
    assert Key(w, a, 0) == w.key(a) && Key(w, a, 1) == w.key(b) && Key(w, a, 2) == w.key(a);
    assert Visited(w, a, w.key(a), 1);
    assert Moves(w, a, 0) && !Moves(w, a, 1);
    assert Hops(w, a) == 1;
    ComesBackCircles(w, a, 1, 1);
    Laps(w, a, 1, 1, 2, 3);
  }
}
