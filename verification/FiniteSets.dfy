/** Facts about finite sets that several proofs need. */
module FiniteSets {
  lemma SomeMember<T(!new)>(s: set<T>) returns (x: T)
    requires |s| > 0
    ensures x in s
  {
    x :| x in s;
  }

  lemma NoMember<T>(s: set<T>)
    requires |s| == 0
    ensures forall x :: x !in s
  {
  }

  lemma Singleton<T>(s: set<T>, x: T)
    requires x in s && forall k :: k in s ==> k == x
    ensures |s| == 1
  {
    assert s == {x};
  }

  lemma Without<T>(s: set<T>, x: T, t: set<T>)
    requires x in s && forall k :: k in t <==> k in s && k != x
    ensures |t| == |s| - 1
  {
    assert t == s - {x};
  }
}
