// Dynamic predicates as lists of facts: assertz_once/1, retractall/1 under foreach/2, findall/3 as
// a count, and min_list/max_list.
module FactLog {
  import opened Lists

  // assertz_once/1.
  function AssertOnce<T(==)>(log: seq<T>, x: T): seq<T> {
    if x in log then log else log + [x]
  }

  lemma AssertOnceElems<T>(log: seq<T>, x: T)
    requires NoDup(log)
    ensures NoDup(AssertOnce(log, x))
    ensures Elems(AssertOnce(log, x)) == Elems(log) + {x}
  {
  }

  // The facts that satisfy keep, in the order of the log.
  function Kept<T>(log: seq<T>, keep: T -> bool): seq<T> {
    if log == [] then []
    else (if keep(log[0]) then [log[0]] else []) + Kept(log[1..], keep)
  }

  lemma {:induction false} KeptElems<T>(log: seq<T>, keep: T -> bool)
    ensures forall x :: x in Kept(log, keep) ==> x in log && keep(x)
    ensures forall x :: x in log && keep(x) ==> x in Kept(log, keep)
    ensures NoDup(log) ==> NoDup(Kept(log, keep))
  {
    if log != [] {
      KeptElems(log[1..], keep);
      var rest := Kept(log[1..], keep);
      assert log == [log[0]] + log[1..];
      assert Kept(log, keep) == if keep(log[0]) then [log[0]] + rest else rest;
    }
  }

  // at lists, in order, the positions of the facts that satisfy keep.
  ghost predicate Positions<T>(log: seq<T>, keep: T -> bool, at: seq<nat>) {
    && (forall j :: 0 <= j < |at| ==> at[j] < |log| && keep(log[at[j]]))
    && (forall a, b :: 0 <= a < b < |at| ==> at[a] < at[b])
    && (forall m: nat :: m < |log| && keep(log[m]) ==> m in at)
  }

  lemma {:induction false} AtMost(at: seq<nat>, n: nat)
    requires forall a, b :: 0 <= a < b < |at| ==> at[a] < at[b]
    requires forall j :: 0 <= j < |at| ==> at[j] < n
    ensures |at| <= n
  {
    if at != [] {
      AtMost(at[..|at| - 1], at[|at| - 1]);
    }
  }

  lemma LeastFirst(at: seq<nat>, x: nat)
    requires x in at && forall a, b :: 0 <= a < b < |at| ==> at[a] < at[b]
    ensures at[0] <= x && forall j :: 0 < j < |at| ==> at[j] > at[0]
  {
  }

  // Shifted by one, the positions after the first are those in the rest of the log.
  lemma ShiftedPositions<T>(log: seq<T>, keep: T -> bool, at: seq<nat>, here: nat, rest: seq<nat>)
    requires log != [] && Positions(log, keep, at) && here == (if keep(log[0]) then 1 else 0) <= |at|
    requires here == 1 ==> at[0] == 0
    requires |rest| == |at| - here && forall j :: 0 <= j < |rest| ==> at[j + here] == rest[j] + 1
    ensures Positions(log[1..], keep, rest)
  {
    assert forall j :: 0 <= j < |rest| ==> log[1..][rest[j]] == log[at[j + here]];
    forall m: nat | m < |log[1..]| && keep(log[1..][m]) ensures m in rest {
      assert log[m + 1] == log[1..][m];
      var j :| 0 <= j < |at| && at[j] == m + 1;
      assert rest[j - here] == m;
    }
  }

  lemma PositionsRest<T>(log: seq<T>, keep: T -> bool, at: seq<nat>, here: nat) returns (rest: seq<nat>)
    requires log != [] && Positions(log, keep, at) && here == if keep(log[0]) then 1 else 0
    ensures |at| >= here && (here == 1 ==> at[0] == 0)
    ensures |rest| == |at| - here && forall j :: 0 <= j < |rest| ==> at[j + here] == rest[j] + 1
    ensures Positions(log[1..], keep, rest)
  {
    if keep(log[0]) {
      LeastFirst(at, 0);
    }
    forall j | here <= j < |at| ensures at[j] > 0 {
      assert keep(log[at[j]]);
    }
    rest := seq(|at| - here, j requires 0 <= j < |at| - here => at[j + here] - 1);
    hide Positions;
    ShiftedPositions(log, keep, at, here, rest);
  }

  lemma KeptShift<T>(log: seq<T>, at: seq<nat>, rest: seq<nat>, here: nat, tail: seq<T>, j: nat)
    requires log != [] && here <= j < |at| && |rest| == |at| - here && at[j] == rest[j - here] + 1 && at[j] < |log|
    requires |tail| == |rest| && tail[j - here] == log[1..][rest[j - here]]
    ensures tail[j - here] == log[at[j]]
  {
  }

  lemma NoneInEmpty<T>(log: seq<T>, keep: T -> bool, at: seq<nat>)
    requires Positions(log, keep, at)
    ensures |at| <= |log| && forall j :: 0 <= j < |at| ==> at[j] < |log|
  {
    AtMost(at, |log|);
  }

  lemma {:induction false} KeptAt<T>(log: seq<T>, keep: T -> bool, at: seq<nat>)
    requires Positions(log, keep, at)
    ensures |Kept(log, keep)| == |at| && forall j :: 0 <= j < |at| ==> at[j] < |log| && Kept(log, keep)[j] == log[at[j]]
  {
    NoneInEmpty(log, keep, at);
    if log != [] {
      var here := if keep(log[0]) then 1 else 0;
      var rest := PositionsRest(log, keep, at, here);
      hide Positions;
      KeptAt(log[1..], keep, rest);
      var tail := Kept(log[1..], keep);
      assert Kept(log, keep) == log[..here] + tail;
      hide Kept;
      forall j | 0 <= j < |at| ensures (log[..here] + tail)[j] == log[at[j]] {
        if j >= here {
          KeptShift(log, at, rest, here, tail, j);
        }
      }
    }
  }

  // retractall/1 of a fact with no free argument.
  lemma RetractOne<T>(log: seq<T>, y: T)
    requires NoDup(log)
    ensures NoDup(Kept(log, x => x != y))
    ensures forall x :: x in Kept(log, x => x != y) ==> x in log && x != y
    ensures forall x :: x in log && x != y ==> x in Kept(log, x => x != y)
  {
    KeptElems(log, x => x != y);
  }

  // foreach/2 over the facts of a log, retracting each that satisfies drop.
  method RetractEach<T(==)>(log: seq<T>, drop: T -> bool) returns (rest: seq<T>)
    requires NoDup(log)
    ensures NoDup(rest)
    ensures forall x :: x in rest ==> x in log && !drop(x)
    ensures forall x :: x in log && !drop(x) ==> x in rest
  {
    rest := log;
    var k := 0;
    while k < |log|
      invariant 0 <= k <= |log|
      invariant NoDup(rest)
      invariant forall x :: x in rest ==> x in log && !(drop(x) && x in log[..k])
      invariant forall x :: x in log && !(drop(x) && x in log[..k]) ==> x in rest
    {
      assert log[..k + 1] == log[..k] + [log[k]];
      if drop(log[k]) {
        RetractOne(rest, log[k]);
        rest := Kept(rest, x => x != log[k]);
      }
      k := k + 1;
    }
    assert log[..k] == log;
  }

  function Mapped<S, T>(xs: seq<S>, f: S -> T): seq<T> {
    seq(|xs|, k requires 0 <= k < |xs| => f(xs[k]))
  }

  lemma MappedElems<S, T>(xs: seq<S>, f: S -> T)
    ensures forall x :: x in xs ==> f(x) in Mapped(xs, f)
    ensures forall y :: y in Mapped(xs, f) ==> exists x :: x in xs && f(x) == y
  {
    forall x | x in xs ensures f(x) in Mapped(xs, f) {
      var k :| 0 <= k < |xs| && xs[k] == x;
      assert Mapped(xs, f)[k] == f(x);
    }
    forall y | y in Mapped(xs, f) ensures exists x :: x in xs && f(x) == y {
      var k :| 0 <= k < |xs| && Mapped(xs, f)[k] == y;
      assert xs[k] in xs && f(xs[k]) == y;
    }
  }

  // foreach/2 over a list of solutions, asserting each once.
  method AssertEach<T(==)>(log: seq<T>, solutions: seq<T>) returns (more: seq<T>)
    requires NoDup(log)
    ensures NoDup(more)
    ensures Elems(more) == Elems(log) + Elems(solutions)
  {
    more := log;
    var k := 0;
    while k < |solutions|
      invariant 0 <= k <= |solutions|
      invariant NoDup(more)
      invariant Elems(more) == Elems(log) + Elems(solutions[..k])
    {
      AssertOnceElems(more, solutions[k]);
      more := AssertOnce(more, solutions[k]);
      assert solutions[..k + 1] == solutions[..k] + [solutions[k]];
      assert Elems(solutions[..k + 1]) == Elems(solutions[..k]) + {solutions[k]};
      k := k + 1;
    }
    assert solutions[..k] == solutions;
  }

  // min_list/2.
  method MinList(ns: seq<nat>) returns (m: nat)
    requires ns != []
    ensures m in ns && forall n :: n in ns ==> m <= n
  {
    m := ns[0];
    for k := 1 to |ns|
      invariant m in ns[..k] && forall n :: n in ns[..k] ==> m <= n
    {
      assert ns[..k + 1] == ns[..k] + [ns[k]];
      if ns[k] < m {
        m := ns[k];
      }
    }
    assert ns[..|ns|] == ns;
  }

  // max_list/2.
  method MaxList(ns: seq<nat>) returns (m: nat)
    requires ns != []
    ensures m in ns && forall n :: n in ns ==> n <= m
  {
    m := ns[0];
    for k := 1 to |ns|
      invariant m in ns[..k] && forall n :: n in ns[..k] ==> n <= m
    {
      assert ns[..k + 1] == ns[..k] + [ns[k]];
      if ns[k] > m {
        m := ns[k];
      }
    }
    assert ns[..|ns|] == ns;
  }
}
