// The list predicates of the engine that decide which Nu sets exist: subsets/2,
// filter_subsets_by_size/3 and the duplicate-removing sort/2.
module Lists {
  import opened Types

  function Elems<T>(xs: seq<T>): (s: set<T>) {
    set x | x in xs
  }

  predicate NoDup<T(==)>(xs: seq<T>) {
    forall i, j :: 0 <= i < j < |xs| ==> xs[i] != xs[j]
  }

  lemma {:induction false} NoDupCard<T>(xs: seq<T>)
    requires NoDup(xs)
    ensures |Elems(xs)| == |xs|
  {
    if xs != [] {
      NoDupCard(xs[1..]);
      assert xs == [xs[0]] + xs[1..];
      assert Elems(xs) == Elems(xs[1..]) + {xs[0]};
    }
  }

  function PrependAll<T>(x: T, yss: seq<seq<T>>): seq<seq<T>> {
    if yss == [] then [] else [[x] + yss[0]] + PrependAll(x, yss[1..])
  }

  // subsets/2: all solutions in backtracking order.
  function Subsets<T>(xs: seq<T>): seq<seq<T>> {
    if xs == [] then [[]]
    else PrependAll(xs[0], Subsets(xs[1..])) + Subsets(xs[1..])
  }

  // filter_subsets_by_size/3.
  function SubsetsOfSize<T>(yss: seq<seq<T>>, minSize: nat): seq<seq<T>> {
    if yss == [] then []
    else (if |yss[0]| >= minSize then [yss[0]] else []) + SubsetsOfSize(yss[1..], minSize)
  }

  // The sublist of xs made of the members of keep.
  function Restrict<T(==)>(xs: seq<T>, keep: set<T>): seq<T> {
    if xs == [] then []
    else (if xs[0] in keep then [xs[0]] else []) + Restrict(xs[1..], keep)
  }

  lemma {:induction false} PrependAllMember<T>(x: T, yss: seq<seq<T>>, ys: seq<T>)
    ensures ys in PrependAll(x, yss) <==> ys != [] && ys[0] == x && ys[1..] in yss
  {
    if yss != [] {
      PrependAllMember(x, yss[1..], ys);
      assert yss == [yss[0]] + yss[1..];
      assert ([x] + yss[0])[1..] == yss[0];
      if ys != [] && ys[0] == x && ys[1..] == yss[0] {
        assert ys == [x] + yss[0];
      }
    }
  }

  lemma {:induction false} SubsetsOfSizeMember<T>(yss: seq<seq<T>>, minSize: nat, ys: seq<T>)
    ensures ys in SubsetsOfSize(yss, minSize) <==> ys in yss && |ys| >= minSize
  {
    if yss != [] {
      SubsetsOfSizeMember(yss[1..], minSize, ys);
      assert yss == [yss[0]] + yss[1..];
    }
  }

  lemma {:induction false} RestrictElems<T>(xs: seq<T>, keep: set<T>)
    ensures Elems(Restrict(xs, keep)) == Elems(xs) * keep
    ensures NoDup(xs) ==> NoDup(Restrict(xs, keep))
  {
    if xs != [] {
      RestrictElems(xs[1..], keep);
      var rest := Restrict(xs[1..], keep);
      assert xs == [xs[0]] + xs[1..];
      assert Elems(xs) == {xs[0]} + Elems(xs[1..]);
      assert Elems([xs[0]] + rest) == {xs[0]} + Elems(rest);
      assert Restrict(xs, keep) == if xs[0] in keep then [xs[0]] + rest else rest;
      if NoDup(xs) {
        assert xs[0] !in Elems(rest);
        assert forall j :: 0 <= j < |rest| ==> rest[j] in Elems(rest);
      }
    }
  }

  lemma {:induction false} RestrictAgree<T>(xs: seq<T>, k1: set<T>, k2: set<T>)
    requires forall x :: x in xs ==> (x in k1 <==> x in k2)
    ensures Restrict(xs, k1) == Restrict(xs, k2)
  {
    if xs != [] {
      RestrictAgree(xs[1..], k1, k2);
    }
  }

  lemma NotRestricted<T>(x: T, rest: seq<T>, ys: seq<T>)
    requires x !in rest && x in ys
    ensures ys != Restrict(rest, Elems(ys))
  {
    RestrictElems(rest, Elems(ys));
    assert x !in Elems(Restrict(rest, Elems(ys)));
  }

  lemma RestrictHead<T>(x: T, rest: seq<T>, ys: seq<T>)
    requires x !in rest && ys != [] && ys[0] == x
    ensures ys == Restrict([x] + rest, Elems(ys)) <==> ys[1..] == Restrict(rest, Elems(ys[1..]))
  {
    assert ([x] + rest)[1..] == rest;
    assert ys == [x] + ys[1..];
    RestrictAgree(rest, Elems(ys), Elems(ys[1..]));
    var r := Restrict(rest, Elems(ys));
    assert Restrict([x] + rest, Elems(ys)) == [x] + r;
    assert ([x] + r)[1..] == r;
  }

  lemma RestrictOther<T>(x: T, rest: seq<T>, ys: seq<T>)
    requires x !in rest && (ys == [] || ys[0] != x)
    ensures ys == Restrict([x] + rest, Elems(ys)) <==> ys == Restrict(rest, Elems(ys))
  {
    assert ([x] + rest)[1..] == rest;
    var r := Restrict(rest, Elems(ys));
    if x in ys {
      assert Restrict([x] + rest, Elems(ys)) == [x] + r;
      NotRestricted(x, rest, ys);
    }
  }

  // subsets/2 enumerates exactly the order-preserving selections, one for every set of members.
  lemma {:induction false} SubsetsMember<T>(xs: seq<T>, ys: seq<T>)
    requires NoDup(xs)
    ensures ys in Subsets(xs) <==> ys == Restrict(xs, Elems(ys))
  {
    if xs != [] {
      var x, rest := xs[0], xs[1..];
      assert xs == [x] + rest && x !in rest;
      PrependAllMember(x, Subsets(rest), ys);
      SubsetsMember(rest, ys);
      if ys != [] && ys[0] == x {
        SubsetsMember(rest, ys[1..]);
        RestrictHead(x, rest, ys);
        NotRestricted(x, rest, ys);
      } else {
        RestrictOther(x, rest, ys);
      }
    }
  }

  // The standard order on [J, D] pairs.
  predicate Less(a: NuEntry, b: NuEntry) {
    a.sender < b.sender || (a.sender == b.sender && a.digest < b.digest)
  }

  predicate Sorted(xs: seq<NuEntry>) {
    forall i, j :: 0 <= i < j < |xs| ==> Less(xs[i], xs[j])
  }

  lemma PrependSorted(y: NuEntry, ys: seq<NuEntry>)
    requires Sorted(ys) && forall z :: z in ys ==> Less(y, z)
    ensures Sorted([y] + ys)
    ensures Elems([y] + ys) == {y} + Elems(ys)
  {
  }

  function Insert(x: NuEntry, xs: seq<NuEntry>): seq<NuEntry> {
    if xs == [] then [x]
    else if x == xs[0] then xs
    else if Less(x, xs[0]) then [x] + xs
    else [xs[0]] + Insert(x, xs[1..])
  }

  lemma {:induction false} InsertSorted(x: NuEntry, xs: seq<NuEntry>)
    requires Sorted(xs)
    ensures Sorted(Insert(x, xs))
    ensures Elems(Insert(x, xs)) == Elems(xs) + {x}
  {
    if xs != [] {
      assert xs == [xs[0]] + xs[1..];
      assert Elems(xs) == {xs[0]} + Elems(xs[1..]);
      if x != xs[0] {
        if Less(x, xs[0]) {
          PrependSorted(x, xs);
        } else {
          InsertSorted(x, xs[1..]);
          var rest := Insert(x, xs[1..]);
          forall z | z in rest ensures Less(xs[0], z) {
            assert z in Elems(rest);
          }
          PrependSorted(xs[0], rest);
        }
      }
    }
  }

  // sort/2: ascending in the standard order, duplicates removed.
  function Sort(xs: seq<NuEntry>): seq<NuEntry> {
    if xs == [] then [] else Insert(xs[0], Sort(xs[1..]))
  }

  lemma {:induction false} SortSorts(xs: seq<NuEntry>)
    ensures Sorted(Sort(xs))
    ensures Elems(Sort(xs)) == Elems(xs)
  {
    if xs != [] {
      SortSorts(xs[1..]);
      InsertSorted(xs[0], Sort(xs[1..]));
      assert xs == [xs[0]] + xs[1..];
    }
  }

  // A strictly sorted list is determined by its members.
  lemma {:induction false} SortedUnique(a: seq<NuEntry>, b: seq<NuEntry>)
    requires Sorted(a) && Sorted(b) && Elems(a) == Elems(b)
    ensures a == b
    decreases |a|
  {
    if a == [] {
      NoDupCard(b);
    } else {
      assert a[0] in Elems(b) && b != [];
      assert b[0] in Elems(a);
      assert a[0] == b[0];
      assert a == [a[0]] + a[1..] && b == [b[0]] + b[1..];
      forall x ensures x in Elems(a[1..]) <==> x in Elems(b[1..]) {
        assert x in Elems(a) <==> x in Elems(b);
      }
      SortedUnique(a[1..], b[1..]);
    }
  }

  lemma SortedNoDup(xs: seq<NuEntry>)
    requires Sorted(xs)
    ensures NoDup(xs) && |Elems(xs)| == |xs|
  {
    NoDupCard(xs);
  }

  // The search of correct_nu_all: some sublist of the collected pairs, long enough, sorts to nu.
  predicate FoundBySearch(collected: seq<NuEntry>, minSize: nat, nu: seq<NuEntry>) {
    exists sub :: sub in SubsetsOfSize(Subsets(collected), minSize) && Sort(sub) == nu
  }

  // The backtracking search succeeds for exactly the sorted lists of enough collected pairs.
  lemma SearchFindsExactly(collected: seq<NuEntry>, minSize: nat, nu: seq<NuEntry>)
    requires NoDup(collected)
    ensures FoundBySearch(collected, minSize, nu) <==>
            Sorted(nu) && Elems(nu) <= Elems(collected) && |nu| >= minSize
  {
    var yss := Subsets(collected);
    if FoundBySearch(collected, minSize, nu) {
      var sub :| sub in SubsetsOfSize(yss, minSize) && Sort(sub) == nu;
      SubsetsOfSizeMember(yss, minSize, sub);
      SubsetsMember(collected, sub);
      RestrictElems(collected, Elems(sub));
      NoDupCard(sub);
      SortSorts(sub);
      SortedNoDup(nu);
    }
    if Sorted(nu) && Elems(nu) <= Elems(collected) && |nu| >= minSize {
      var sub := Restrict(collected, Elems(nu));
      RestrictElems(collected, Elems(nu));
      assert Elems(sub) == Elems(nu);
      SubsetsMember(collected, sub);
      NoDupCard(sub);
      SortedNoDup(nu);
      SubsetsOfSizeMember(yss, minSize, sub);
      SortSorts(sub);
      SortedUnique(Sort(sub), nu);
    }
  }
}
