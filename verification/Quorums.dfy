// Cardinality facts behind every quorum argument.
module Quorums {

  // The replica identifiers 0 .. n - 1.
  function Ids(n: nat): (s: set<nat>)
    ensures forall k: nat :: k in s <==> k < n
    ensures |s| == n
  {
    if n == 0 then {} else Ids(n - 1) + {n - 1}
  }

  lemma {:induction false} SubsetCard<T>(a: set<T>, b: set<T>)
    requires a <= b
    ensures |a| <= |b|
    decreases |a|
  {
    if a != {} {
      var x :| x in a;
      SubsetCard(a - {x}, b - {x});
    }
  }

  // Two subsets of a universe of n elements share at least |a| + |b| - n of them.
  lemma IntersectCard(a: set<nat>, b: set<nat>, n: nat)
    requires a <= Ids(n) && b <= Ids(n)
    ensures |a * b| >= |a| + |b| - n
  {
    SubsetCard(a + b, Ids(n));
    assert |a + b| == |a| + |b| - |a * b|;
  }

  lemma CommonMember(a: set<nat>, b: set<nat>, n: nat) returns (x: nat)
    requires a <= Ids(n) && b <= Ids(n) && |a| + |b| > n
    ensures x in a && x in b && x < n
  {
    IntersectCard(a, b, n);
    assert a * b != {};
    x :| x in a * b;
  }

  // A set larger than another has a member outside it.
  lemma MemberOutside<T>(a: set<T>, b: set<T>) returns (x: T)
    requires |a| > |b|
    ensures x in a && x !in b
  {
    if a <= b {
      SubsetCard(a, b);
      assert false;
    }
    x :| x in a && x !in b;
  }

  ghost function Image<A, B>(s: set<A>, f: A -> B): set<B> {
    set x | x in s :: f(x)
  }

  lemma {:induction false} InjectiveImage<A, B>(s: set<A>, f: A -> B)
    requires forall x, y :: x in s && y in s && f(x) == f(y) ==> x == y
    ensures |Image(s, f)| == |s|
    decreases |s|
  {
    if s == {} {
      assert Image(s, f) == {};
    } else {
      var a :| a in s;
      InjectiveImage(s - {a}, f);
      assert Image(s, f) == Image(s - {a}, f) + {f(a)};
    }
  }
}
