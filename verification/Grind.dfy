// The nonce search of grind_task, on 32-bit unsigned arithmetic.
module Grind {
  import opened UInt32

  class Header {
    var nNonce: uint32
  }

  class Flag {
    var found: bool
  }

  // The k-th nonce of the progression.
  function Term(offset: nat, step: nat, k: nat): nat {
    offset + k * step
  }

  // The number of terms below finish.
  function Count(step: uint32): nat {
    if step == 0 then 0 else (MAX_UINT32 - step) / step
  }

  lemma TermGrows(offset: nat, step: nat, j: nat, k: nat)
    requires step > 0 && j <= k
    ensures Term(offset, step, j) <= Term(offset, step, k)
    ensures j < k ==> Term(offset, step, j) + step <= Term(offset, step, k)
  {
    assert Term(offset, step, k) - Term(offset, step, j) == (k - j) * step;
    if j < k {
      assert (k - j) * step == (k - j - 1) * step + step;
    }
  }

  lemma TermNext(offset: nat, step: nat, k: nat, m: nat)
    ensures Term(offset, step, k + m) == Term(offset, step, k) + m * step
  {
    assert (k + m) * step == k * step + m * step;
  }

  lemma Multiple(f: nat, step: nat)
    requires step > 0
    ensures f - f % step == (f / step) * step && f % step < step && f % step <= f
  {
    assert f == step * (f / step) + f % step;
  }

  lemma NoWrap(f: uint32, r: uint32, offset: uint32)
    requires r <= f && f - r + offset < MODULUS
    ensures Add32(Sub32(f, r), offset) == f - r + offset
  {
  }

  // finish as grind_task computes it.
  function Finish(offset: uint32, step: uint32): uint32
    requires step > 0
  {
    var f := Sub32(MAX_UINT32, step);
    Add32(Sub32(f, f % step), offset)
  }

  // finish is the Count-th term, computed without wrap-around.
  lemma FinishIsTerm(offset: uint32, step: uint32)
    requires offset < step
    ensures Finish(offset, step) == Term(offset, step, Count(step)) < MAX_UINT32
  {
    var f := MAX_UINT32 - step;
    var r := f % step;
    assert Sub32(MAX_UINT32, step) == f;
    Multiple(f, step);
    NoWrap(f, r, offset);
  }

  // The terms tried so far, in order, none of which met the target.
  ghost predicate Tried(tested: seq<uint32>, meets: uint32 -> bool, offset: uint32, step: uint32) {
    forall j :: 0 <= j < |tested| ==> tested[j] == Term(offset, step, j) && !meets(tested[j])
  }

  lemma Follow(offset: nat, step: nat, k: nat, stop: nat, count: nat)
    requires step > 0 && k < stop <= count
    ensures Term(offset, step, k + 1) == Term(offset, step, k) + step <= Term(offset, step, stop) <= Term(offset, step, count)
    ensures k + 1 < stop <==> Term(offset, step, k + 1) != Term(offset, step, stop)
  {
    TermNext(offset, step, k, 1);
    TermGrows(offset, step, k + 1, stop);
    TermGrows(offset, step, stop, count);
  }

  // Where the outer loop sets the end of its next stretch of at most 5000 terms.
  function NextStop(finish: uint32, nonce: uint32, step: uint32): uint32 {
    if Sub32(finish, nonce) < Mul32(5000, step) then finish else Add32(nonce, Mul32(5000, step))
  }

  lemma NextStopInRange(finish: uint32, nonce: uint32, step: uint32)
    requires nonce < finish && 5000 * step < MODULUS
    ensures NextStop(finish, nonce, step) == if finish - nonce < 5000 * step then finish else nonce + 5000 * step
  {
  }

  // That end is a later term, no further than finish.
  lemma Stretch(offset: nat, step: uint32, k: nat, count: nat, nonce: uint32, finish: uint32) returns (stop: nat)
    requires step > 0 && k < count && 5000 * step < MODULUS
    requires nonce == Term(offset, step, k) && finish == Term(offset, step, count)
    ensures k < stop <= count
    ensures nonce < finish && NextStop(finish, nonce, step) == Term(offset, step, stop)
  {
    TermGrows(offset, step, k, count);
    TermNext(offset, step, k, 5000);
    NextStopInRange(finish, nonce, step);
    if finish - nonce < 5000 * step {
      stop := count;
    } else {
      stop := k + 5000;
      if stop > count {
        TermGrows(offset, step, count, stop);
        assert false;
      }
    }
  }

  lemma FinishReached(offset: nat, step: nat, k: nat, count: nat)
    requires step > 0 && k <= count
    ensures Term(offset, step, k) < Term(offset, step, count) <==> k < count
  {
    TermGrows(offset, step, k, count);
  }

  // What a search reports: the first term that met the target.
  ghost predicate Reported(tested: seq<uint32>, nNonce: uint32, meets: uint32 -> bool, offset: uint32, step: uint32) {
    && 0 < |tested| && nNonce == tested[|tested| - 1] == Term(offset, step, |tested| - 1)
    && meets(nNonce) && Tried(tested[..|tested| - 1], meets, offset, step)
  }

  lemma ReportedNow(tested: seq<uint32>, nonce: uint32, meets: uint32 -> bool, offset: uint32, step: uint32)
    requires Tried(tested, meets, offset, step) && nonce == Term(offset, step, |tested|) && meets(nonce)
    ensures Reported(tested + [nonce], nonce, meets, offset, step)
  {
    assert (tested + [nonce])[..|tested|] == tested;
  }

  // The inner do-while loop: up to next, or to the first term that meets the target.
  method Sweep(meets: uint32 -> bool, header: Header, flag: Flag, offset: uint32, step: uint32, start: uint32,
               next: uint32, ghost stop: nat, ghost before: seq<uint32>) returns (nonce: uint32, ghost tested: seq<uint32>)
    requires step > 0 && |before| < stop && start == Term(offset, step, |before|) && next == Term(offset, step, stop)
    requires !flag.found && Tried(before, meets, offset, step)
    modifies header`nNonce, flag`found
    ensures |before| < |tested| <= stop
    ensures if flag.found then Reported(tested, header.nNonce, meets, offset, step)
            else header.nNonce == old(header.nNonce) && nonce == next && |tested| == stop && Tried(tested, meets, offset, step)
  {
    nonce, tested := start, before;
    var again := true;
    while again
      invariant !flag.found && header.nNonce == old(header.nNonce)
      invariant |before| <= |tested| <= stop && nonce == Term(offset, step, |tested|)
      invariant again <==> |tested| < stop
      invariant Tried(tested, meets, offset, step)
      decreases stop - |tested|
    {
      Follow(offset, step, |tested|, stop, stop);
      if meets(nonce) {
        if !flag.found {
          flag.found := true;
          header.nNonce := nonce;
        }
        ReportedNow(tested, nonce, meets, offset, step);
        tested := tested + [nonce];
        return;
      }
      tested := tested + [nonce];
      nonce := Add32(nonce, step);
      again := nonce != next;
    }
  }

  // The k-th term is a nonce that meets the target.
  ghost predicate Hits(meets: uint32 -> bool, offset: uint32, step: uint32, k: nat) {
    Term(offset, step, k) < MODULUS && meets(Term(offset, step, k))
  }

  // The report of a search of count terms, without the list of nonces it went through: nonce is the
  // smallest term below finish that meets the target.
  ghost predicate FirstHit(meets: uint32 -> bool, offset: uint32, step: uint32, count: nat, nonce: uint32) {
    exists k: nat :: k < count && nonce == Term(offset, step, k) && Hits(meets, offset, step, k)
      && forall j: nat :: j < k ==> !Hits(meets, offset, step, j)
  }

  lemma ReportIsFirstHit(tested: seq<uint32>, nonce: uint32, meets: uint32 -> bool, offset: uint32, step: uint32, count: nat)
    requires |tested| <= count && Reported(tested, nonce, meets, offset, step)
    ensures FirstHit(meets, offset, step, count, nonce)
  {
    var k: nat := |tested| - 1;
    assert Hits(meets, offset, step, k);
    forall j: nat | j < k ensures !Hits(meets, offset, step, j) {
      assert tested[..k][j] == Term(offset, step, j);
    }
  }

  lemma NoReportNoHit(tested: seq<uint32>, meets: uint32 -> bool, offset: uint32, step: uint32)
    requires Tried(tested, meets, offset, step)
    ensures forall j: nat :: j < |tested| ==> !Hits(meets, offset, step, j)
  {
    forall j: nat | j < |tested| ensures !Hits(meets, offset, step, j) {
      assert tested[j] == Term(offset, step, j);
    }
  }

  // The nonces a search goes through increase, so none is hashed twice.
  lemma TriedInOrder(tested: seq<uint32>, meets: uint32 -> bool, offset: uint32, step: uint32, i: nat, j: nat)
    requires step > 0 && Tried(tested, meets, offset, step) && i < j < |tested|
    ensures tested[i] < tested[j]
  {
    TermGrows(offset, step, i, j);
  }

  // Tasks with the same step and the offsets below it split the nonces below Count(step) * step
  // between them: each of these is a term of one task only, and of that task once.
  lemma TasksSplitNonces(step: uint32, nonce: uint32, offset: uint32, k: nat)
    requires step > 0 && offset < step
    ensures Term(offset, step, k) == nonce <==> offset == nonce % step && k == nonce / step
    ensures nonce / step < Count(step) <==> nonce < Count(step) * step
  {
    Multiple(nonce, step);
    var q, c := nonce / step, Count(step);
    assert nonce == Term(nonce % step, step, q);
    if Term(offset, step, k) == nonce {
      Apart(offset, nonce % step, step, k, q);
    }
    if q < c {
      assert (q + 1) * step <= c * step;
    } else {
      assert c * step <= q * step;
    }
  }

  lemma Apart(a: nat, b: nat, step: nat, j: nat, k: nat)
    requires a < step && b < step && Term(a, step, j) == Term(b, step, k)
    ensures a == b && j == k
  {
    if j < k {
      TermGrows(0, step, j, k);
      assert false;
    } else if k < j {
      TermGrows(0, step, k, j);
      assert false;
    }
  }

  // The outer loop: up to finish, the count-th term, or to the first term that meets the target.
  method Search(meets: uint32 -> bool, header: Header, flag: Flag, offset: uint32, step: uint32, finish: uint32,
                ghost count: nat) returns (ghost tested: seq<uint32>)
    requires step > 0 && 5000 * step < MODULUS && finish == Term(offset, step, count)
    requires !flag.found
    modifies header`nNonce, flag`found
    ensures if flag.found then |tested| <= count && Reported(tested, header.nNonce, meets, offset, step)
            else header.nNonce == old(header.nNonce) && |tested| == count && Tried(tested, meets, offset, step)
  {
    var nonce: uint32 := offset;
    tested := [];
    while !flag.found && nonce < finish
      invariant |tested| <= count
      invariant if flag.found then Reported(tested, header.nNonce, meets, offset, step)
                else header.nNonce == old(header.nNonce) && nonce == Term(offset, step, |tested|)
                     && Tried(tested, meets, offset, step)
      decreases count - |tested|
    {
      FinishReached(offset, step, |tested|, count);
      ghost var stop := Stretch(offset, step, |tested|, count, nonce, finish);
      var next := NextStop(finish, nonce, step);
      nonce, tested := Sweep(meets, header, flag, offset, step, nonce, next, stop, tested);
    }
    if !flag.found {
      FinishReached(offset, step, |tested|, count);
    }
  }

  // Terms of the progression below finish are tried in order, each once, until one meets the
  // target: found and nNonce report the first such nonce, and none is reported exactly when no term
  // below finish meets it. No addition or multiplication wraps around.
  method GrindTask(validTarget: bool, meets: uint32 -> bool, header: Header, offset: uint32, step: uint32, flag: Flag)
    returns (ghost tested: seq<uint32>)
    requires offset < step && 5000 * step < MODULUS
    requires !flag.found
    modifies header`nNonce, flag`found
    ensures !validTarget ==> tested == [] && !flag.found
    ensures flag.found ==> |tested| <= Count(step) && Reported(tested, header.nNonce, meets, offset, step)
    ensures flag.found ==> FirstHit(meets, offset, step, Count(step), header.nNonce)
    ensures validTarget && !flag.found ==> |tested| == Count(step) && Tried(tested, meets, offset, step)
    ensures validTarget && !flag.found ==> forall k: nat :: k < Count(step) ==> !Hits(meets, offset, step, k)
    ensures !flag.found ==> header.nNonce == old(header.nNonce)
  {
    tested := [];
    if !validTarget {
      return;
    }
    var finish: uint32 := Finish(offset, step);
    FinishIsTerm(offset, step);
    tested := Search(meets, header, flag, offset, step, finish, Count(step));
    if flag.found {
      ReportIsFirstHit(tested, header.nNonce, meets, offset, step, Count(step));
    } else {
      NoReportNoHit(tested, meets, offset, step);
    }
  }

  // Grind runs one task with offset 0 and step 1. It answers the smallest nonce that meets the
  // target, and fails when none does; the last two nonces, 2^32 - 2 and 2^32 - 1, are never tried.
  method Grind(validTarget: bool, meets: uint32 -> bool) returns (found: bool, nonce: uint32)
    ensures found <==> validTarget && exists n: uint32 :: n < MODULUS - 2 && meets(n)
    ensures found ==> nonce < MODULUS - 2 && meets(nonce) && forall m: uint32 :: m < nonce ==> !meets(m)
  {
    var header, flag := new Header, new Flag;
    flag.found := false;
    ghost var tested := GrindTask(validTarget, meets, header, 0, 1, flag);
    found, nonce := flag.found, header.nNonce;
    if found {
      FirstHitIsLeast(meets, nonce);
    } else if validTarget {
      NoHitNoneMeets(meets);
    }
  }

  lemma UnitStep(meets: uint32 -> bool, k: nat)
    ensures Term(0, 1, k) == k
    ensures Hits(meets, 0, 1, k) <==> k < MODULUS && meets(k)
  {
  }

  lemma FirstHitIsLeast(meets: uint32 -> bool, nonce: uint32)
    requires FirstHit(meets, 0, 1, Count(1), nonce)
    ensures nonce < MODULUS - 2 && meets(nonce) && forall m: uint32 :: m < nonce ==> !meets(m)
  {
    var k: nat :| k < Count(1) && nonce == Term(0, 1, k) && Hits(meets, 0, 1, k)
      && forall j: nat :: j < k ==> !Hits(meets, 0, 1, j);
    UnitStep(meets, k);
    forall m: uint32 | m < nonce ensures !meets(m) {
      assert !Hits(meets, 0, 1, m);
      UnitStep(meets, m);
    }
  }

  lemma NoHitNoneMeets(meets: uint32 -> bool)
    requires forall k: nat :: k < Count(1) ==> !Hits(meets, 0, 1, k)
    ensures forall n: uint32 :: n < MODULUS - 2 ==> !meets(n)
  {
    forall n: uint32 | n < MODULUS - 2 ensures !meets(n) {
      assert !Hits(meets, 0, 1, n);
      UnitStep(meets, n);
    }
  }
}
