/** Facts about finite sets and maps that several modules rely on. */
module Collections {

  lemma Regrouped<T>(a: seq<T>, b: seq<T>, c: seq<T>)
    ensures a + b + c == a + (b + c)
  {
  }

  lemma HasInt(s: set<int>)
    requires s != {}
    ensures exists i :: i in s
  {
    assert (forall i: int :: i !in s) ==> s == {};
  }

  method Least(s: set<int>) returns (least: int)
    requires s != {}
    ensures least in s && forall i :: i in s ==> least <= i
  {
    HasInt(s);
    least :| least in s;
    var rest := s - {least};
    while rest != {}
      invariant least in s && rest <= s
      invariant forall i :: i in s ==> least <= i || i in rest
    {
      HasInt(rest);
      var i :| i in rest;
      if i < least { least := i; }
      rest := rest - {i};
    }
  }
}
