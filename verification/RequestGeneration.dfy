// The request loop of the C++ driver, in uint32_t seconds, over the engine's request log.
module RequestGeneration {
  import opened UInt32
  import opened Types
  import opened Engine
  import opened ReplicaEngines
  import RequestSlots
  type Schedule = RequestSlots.Schedule

  const AHEAD: uint32 := 5

  // Timestamps are whole seconds that fit a uint32_t.
  predicate Whole(t: real) {
    t == t.Floor as real && 0 <= t.Floor < MODULUS
  }

  ghost predicate WholeTimes(r: Replica) {
    Whole(r.lastRep) && forall m :: m in r.requests ==> Whole(m.t)
  }

  // Both bounds of the loop: five block times past the clock, and past last_rep.
  predicate Lagging(last: uint32, now: uint32, rep: uint32, blockTime: uint32) {
    last < Add32(now, Mul32(AHEAD, blockTime)) && last < Add32(rep, Mul32(AHEAD, blockTime))
  }

  // The nearer of the two bounds.
  function Bound(now: uint32, rep: uint32, blockTime: uint32): uint32 {
    var a, b := Add32(now, Mul32(AHEAD, blockTime)), Add32(rep, Mul32(AHEAD, blockTime));
    if a <= b then a else b
  }

  // get_latest_request_time: max_list over the logged timestamps and last_rep.
  method LatestRequestTime(e: ReplicaEngine) returns (t: uint32)
    requires e.Valid() && WholeTimes(e.Facts())
    ensures IsLatest(e.Facts(), t as real)
  {
    var ms := e.requests;
    ghost var r := e.Facts();
    assert forall m :: m in ms <==> m in r.requests;
    t := e.lastRep.Floor;
    for k := 0 to |ms|
      invariant t as real == e.lastRep || exists m :: m in r.requests && m.t == t as real
      invariant e.lastRep <= t as real && forall m :: m in ms[..k] ==> m.t <= t as real
    {
      assert ms[..k + 1] == ms[..k] + [ms[k]];
      assert ms[k] in r.requests && Whole(ms[k].t);
      if ms[k].t.Floor > t {
        t := ms[k].t.Floor;
      }
    }
    assert ms[..|ms|] == ms;
  }

  // ---------- arithmetic progressions ----------

  // The request time count block times after first.
  function After(first: nat, blockTime: nat, count: nat): nat {
    if count == 0 then first else After(first, blockTime, count - 1) + blockTime
  }

  lemma {:induction false} AfterIsMultiple(first: nat, blockTime: nat, count: nat)
    ensures After(first, blockTime, count) == first + count * blockTime
  {
    if count > 0 {
      AfterIsMultiple(first, blockTime, count - 1);
      assert count * blockTime == (count - 1) * blockTime + blockTime;
    }
  }

  lemma {:induction false} AfterAfter(first: nat, blockTime: nat, a: nat, b: nat)
    ensures After(After(first, blockTime, a), blockTime, b) == After(first, blockTime, a + b)
  {
    if b > 0 {
      AfterAfter(first, blockTime, a, b - 1);
    }
  }

  lemma {:induction false} AfterGrows(first: nat, blockTime: nat, a: nat, b: nat)
    requires a <= b
    ensures After(first, blockTime, a) <= After(first, blockTime, b)
  {
    if a < b {
      AfterGrows(first, blockTime, a, b - 1);
    }
  }

  function CeilDiv(a: nat, b: nat): nat
    requires b > 0
  {
    (a + b - 1) / b
  }

  lemma TimesGrows(a: nat, b: nat, c: nat)
    requires a <= b
    ensures a * c <= b * c
  {
  }

  lemma CeilBounds(a: nat, b: nat)
    requires b > 0
    ensures CeilDiv(a, b) * b >= a
    ensures CeilDiv(a, b) > 0 ==> (CeilDiv(a, b) - 1) * b < a
  {
    var x, q := a + b - 1, CeilDiv(a, b);
    assert x == q * b + x % b;
    assert (q - 1) * b == q * b - b;
  }

  // CeilDiv(a, b) is the least k with k * b >= a.
  lemma CeilLeast(a: nat, b: nat, k: nat)
    requires b > 0
    ensures k * b >= a <==> k >= CeilDiv(a, b)
  {
    var q := CeilDiv(a, b);
    CeilBounds(a, b);
    if k >= q {
      TimesGrows(q, k, b);
    } else {
      TimesGrows(k, q - 1, b);
    }
  }

  // How many requests take the latest request time from first to the bound.
  function Missing(first: uint32, now: uint32, rep: uint32, blockTime: uint32): nat {
    var bound := Bound(now, rep, blockTime);
    if first >= bound || blockTime == 0 then 0 else CeilDiv(bound - first, blockTime)
  }

  // What a caller can test: either nothing is missing, or the last missing request time fits.
  predicate Ends(first: uint32, now: uint32, rep: uint32, blockTime: uint32) {
    || first >= Bound(now, rep, blockTime)
    || (blockTime > 0 && first + Missing(first, now, rep, blockTime) * blockTime < MODULUS)
  }

  // The bound is reached with the last missing request and not before.
  lemma MissingIsLeast(first: uint32, now: uint32, rep: uint32, blockTime: uint32, k: nat)
    requires Ends(first, now, rep, blockTime)
    ensures After(first, blockTime, k) < Bound(now, rep, blockTime) <==> k < Missing(first, now, rep, blockTime)
    ensures k <= Missing(first, now, rep, blockTime) ==> After(first, blockTime, k) < MODULUS
  {
    var bound, n := Bound(now, rep, blockTime), Missing(first, now, rep, blockTime);
    AfterIsMultiple(first, blockTime, k);
    AfterGrows(first, blockTime, 0, k);
    if first < bound {
      CeilLeast(bound - first, blockTime, k);
      AfterIsMultiple(first, blockTime, n);
      if k <= n {
        AfterGrows(first, blockTime, k, n);
      }
    }
  }

  // In the terms of the source: the last missing request is the first at or past five block times after
  // the clock or after last_rep, all sums and products of uint32_t.
  lemma ReachesBounds(first: uint32, now: uint32, rep: uint32, blockTime: uint32)
    requires Ends(first, now, rep, blockTime)
    ensures var n, ahead := Missing(first, now, rep, blockTime), 5 * blockTime % 0x1_0000_0000;
      var byClock, byRep := (now + ahead) % 0x1_0000_0000, (rep + ahead) % 0x1_0000_0000;
      && (first + n * blockTime >= byClock || first + n * blockTime >= byRep)
      && (n > 0 ==> first + (n - 1) * blockTime < byClock && first + (n - 1) * blockTime < byRep)
  {
    var n := Missing(first, now, rep, blockTime);
    MissingIsLeast(first, now, rep, blockTime, n);
    AfterIsMultiple(first, blockTime, n);
    if n > 0 {
      MissingIsLeast(first, now, rep, blockTime, n - 1);
      AfterIsMultiple(first, blockTime, n - 1);
    }
  }

  // What is missing is counted up to the bound, whether or not it fits.
  lemma BelowMissing(first: uint32, now: uint32, rep: uint32, blockTime: uint32, i: nat)
    requires i < Missing(first, now, rep, blockTime)
    ensures After(first, blockTime, i) < Bound(now, rep, blockTime)
  {
    AfterIsMultiple(first, blockTime, i);
    CeilLeast(Bound(now, rep, blockTime) - first, blockTime, i);
  }

  lemma DoesNotFit(first: uint32, now: uint32, rep: uint32, blockTime: uint32)
    requires blockTime > 0 && !Ends(first, now, rep, blockTime)
    ensures After(first, blockTime, Missing(first, now, rep, blockTime)) >= MODULUS
  {
    AfterIsMultiple(first, blockTime, Missing(first, now, rep, blockTime));
  }

  lemma LaggingIsBelow(last: uint32, now: uint32, rep: uint32, blockTime: uint32)
    ensures Lagging(last, now, rep, blockTime) <==> last < Bound(now, rep, blockTime)
  {
  }

  // ---------- the passes of the loop ----------

  // The latest request time after count passes, whether or not a sum wraps around: a request that is
  // not later than the latest leaves it as it is.
  function Passed(first: uint32, blockTime: uint32, count: nat): uint32 {
    if count == 0 then first
    else
      var last := Passed(first, blockTime, count - 1);
      if Add32(last, blockTime) > last then Add32(last, blockTime) else last
  }

  // The replica after count passes.
  ghost function Looped(r: Replica, digest: real -> Digest, first: uint32, blockTime: uint32, count: nat): Replica {
    if count == 0 then r
    else
      var t := Add32(Passed(first, blockTime, count - 1), blockTime) as real;
      ReceiveRequest(Looped(r, digest, first, blockTime, count - 1), digest(t), t)
  }

  // One pass moves the latest request time exactly when the sum does not wrap around.
  lemma PassMovesOn(r: Replica, digest: real -> Digest, last: uint32, blockTime: uint32)
    requires IsLatest(r, last as real)
    ensures var t := Add32(last, blockTime);
      && IsLatest(ReceiveRequest(r, digest(t as real), t as real), (if t > last then t else last) as real)
      && (t > last <==> blockTime > 0 && last + blockTime < MODULUS)
  {
    var t := Add32(last, blockTime);
    var s := ReceiveRequest(r, digest(t as real), t as real);
    if t > last {
      assert Request(digest(t as real), t as real) in s.requests;
    } else if last as real != r.lastRep {
      var m :| m in r.requests && m.t == last as real;
      assert m in s.requests;
    }
    if last + blockTime >= MODULUS {
      assert t == last + blockTime - MODULUS < last;
    }
  }

  lemma {:induction false} LoopedLatest(r: Replica, digest: real -> Digest, first: uint32, blockTime: uint32, count: nat)
    requires IsLatest(r, first as real)
    ensures IsLatest(Looped(r, digest, first, blockTime, count), Passed(first, blockTime, count) as real)
  {
    if count > 0 {
      LoopedLatest(r, digest, first, blockTime, count - 1);
      PassMovesOn(Looped(r, digest, first, blockTime, count - 1), digest, Passed(first, blockTime, count - 1), blockTime);
    }
  }

  // Without wrap-around the passes go through the arithmetic progression.
  lemma {:induction false} PassedIsAfter(first: uint32, now: uint32, rep: uint32, blockTime: uint32, k: nat)
    requires Ends(first, now, rep, blockTime) && k <= Missing(first, now, rep, blockTime)
    ensures Passed(first, blockTime, k) == After(first, blockTime, k)
  {
    if k > 0 {
      PassedIsAfter(first, now, rep, blockTime, k - 1);
      MissingIsLeast(first, now, rep, blockTime, k);
    }
  }

  lemma AddWraps(last: uint32, blockTime: uint32)
    ensures last + blockTime < MODULUS ==> Add32(last, blockTime) == last + blockTime
    ensures last + blockTime >= MODULUS ==> Add32(last, blockTime) < last
  {
    if last + blockTime >= MODULUS {
      assert Add32(last, blockTime) == last + blockTime - MODULUS;
    }
  }

  // When the last missing request time does not fit, every pass stays short of it.
  lemma {:induction false} StaysShort(first: uint32, now: uint32, rep: uint32, blockTime: uint32, k: nat) returns (i: nat)
    requires blockTime > 0 && !Ends(first, now, rep, blockTime)
    ensures Passed(first, blockTime, k) == After(first, blockTime, i) && i < Missing(first, now, rep, blockTime)
  {
    DoesNotFit(first, now, rep, blockTime);
    hide Ends, Missing, Bound, Add32, Mul32;
    if k == 0 {
      i := 0;
    } else {
      i := StaysShort(first, now, rep, blockTime, k - 1);
      var last := Passed(first, blockTime, k - 1);
      AddWraps(last, blockTime);
      if last + blockTime < MODULUS {
        i := i + 1;
      }
    }
  }

  lemma {:induction false} ZeroStays(first: uint32, k: nat)
    ensures Passed(first, 0, k) == first
  {
    if k > 0 {
      ZeroStays(first, k - 1);
    }
  }

  // The loop ends, that is, some number of passes leaves its guard false, exactly when Ends holds.
  lemma EndsExactly(first: uint32, now: uint32, rep: uint32, blockTime: uint32)
    ensures Ends(first, now, rep, blockTime) <==> exists k: nat :: !Lagging(Passed(first, blockTime, k), now, rep, blockTime)
  {
    if Ends(first, now, rep, blockTime) {
      var n := Missing(first, now, rep, blockTime);
      PassedIsAfter(first, now, rep, blockTime, n);
      MissingIsLeast(first, now, rep, blockTime, n);
      assert !Lagging(Passed(first, blockTime, n), now, rep, blockTime);
    } else {
      forall k: nat ensures Lagging(Passed(first, blockTime, k), now, rep, blockTime) {
        if blockTime > 0 {
          var i := StaysShort(first, now, rep, blockTime, k);
          BelowMissing(first, now, rep, blockTime, i);
          LaggingIsBelow(Passed(first, blockTime, k), now, rep, blockTime);
        } else {
          ZeroStays(first, k);
        }
      }
    }
  }

  // Inputs on which it does not end: a block time of one minute, a clock and a last_rep 310 seconds before
  // 2^32, and a latest request ten seconds after last_rep. The fifth request would be at 2^32.
  lemma PassCanStall()
    ensures var first, rep := MODULUS - 300, MODULUS - 310;
      !Ends(first, rep, rep, 60) && forall k: nat :: Lagging(Passed(first, 60, k), rep, rep, 60)
  {
    EndsExactly(MODULUS - 300, MODULUS - 310, MODULUS - 310, 60);
  }

  // ---------- GenerateRequests ----------

  // The replica after count requests, each one block time after the latest.
  ghost function Generated(r: Replica, digest: real -> Digest, first: nat, blockTime: nat, count: nat): Replica {
    if count == 0 then r
    else
      var t := After(first, blockTime, count) as real;
      ReceiveRequest(Generated(r, digest, first, blockTime, count - 1), digest(t), t)
  }

  lemma LatestUnique(r: Replica, t: real, u: real)
    requires IsLatest(r, t) && IsLatest(r, u)
    ensures t == u
  {
  }

  lemma WholeStep(r: Replica, d: Digest, t: uint32)
    requires WholeTimes(r)
    ensures WholeTimes(ReceiveRequest(r, d, t as real))
  {
    assert (t as real).Floor == t;
  }

  // One pass: the request one block time after the latest.
  method Pass(e: ReplicaEngine, last: uint32, blockTime: uint32) returns (next: uint32)
    requires e.Valid() && WholeTimes(e.Facts()) && IsLatest(e.Facts(), last as real)
    requires blockTime > 0 && last + blockTime < MODULUS
    modifies e`requests
    ensures e.Valid() && WholeTimes(e.Facts())
    ensures next == last + blockTime && IsLatest(e.Facts(), next as real)
    ensures e.Facts() == ReceiveRequest(old(e.Facts()), e.spell(next as real), next as real)
  {
    var t := Add32(last, blockTime);
    PassMovesOn(e.Facts(), e.spell, last, blockTime);
    WholeStep(e.Facts(), e.spell(t as real), t);
    e.ReceiveRequest(t as real);
    next := LatestRequestTime(e);
    LatestUnique(e.Facts(), next as real, t as real);
  }

  // Where the loop is after count passes from replica r: at replica s with latest request time last.
  ghost predicate LoopAt(r: Replica, digest: real -> Digest, first: uint32, now: uint32, rep: uint32, blockTime: uint32,
                         count: nat, s: Replica, last: uint32) {
    && count <= Missing(first, now, rep, blockTime) && last == After(first, blockTime, count)
    && IsLatest(s, last as real) && s == Generated(r, digest, first, blockTime, count)
  }

  lemma LoopEnds(r: Replica, digest: real -> Digest, first: uint32, now: uint32, rep: uint32, blockTime: uint32,
                 count: nat, s: Replica, last: uint32)
    requires Ends(first, now, rep, blockTime) && LoopAt(r, digest, first, now, rep, blockTime, count, s, last)
    ensures Lagging(last, now, rep, blockTime) <==> count < Missing(first, now, rep, blockTime)
    ensures Lagging(last, now, rep, blockTime) ==> blockTime > 0 && last + blockTime < MODULUS
  {
    MissingIsLeast(first, now, rep, blockTime, count);
    MissingIsLeast(first, now, rep, blockTime, count + 1);
  }

  lemma LoopNext(r: Replica, digest: real -> Digest, first: uint32, now: uint32, rep: uint32, blockTime: uint32,
                 count: nat, s: Replica, last: uint32, s': Replica, next: uint32)
    requires LoopAt(r, digest, first, now, rep, blockTime, count, s, last) && count < Missing(first, now, rep, blockTime)
    requires next == last + blockTime && s' == ReceiveRequest(s, digest(next as real), next as real)
    requires IsLatest(s', next as real)
    ensures LoopAt(r, digest, first, now, rep, blockTime, count + 1, s', next)
  {
  }

  // GenerateRequests, for a log whose latest request time is first. It logs exactly the missing
  // requests, one block time apart, and nothing else.
  method GenerateRequests(e: ReplicaEngine, now: uint32, blockTime: uint32, ghost first: uint32)
    requires e.Valid() && WholeTimes(e.Facts()) && IsLatest(e.Facts(), first as real)
    requires Ends(first, now, e.lastRep.Floor, blockTime)
    modifies e`requests
    ensures e.Valid() && WholeTimes(e.Facts())
    ensures var n := Missing(first, now, e.lastRep.Floor, blockTime);
      && e.Facts() == Generated(old(e.Facts()), e.spell, first, blockTime, n)
      && IsLatest(e.Facts(), After(first, blockTime, n) as real)
  {
    hide Ends, Missing, Lagging, IsLatest;
    var last := LatestRequestTime(e);
    LatestUnique(e.Facts(), last as real, first as real);
    var rep := e.lastRep.Floor;
    ghost var r, n, count := e.Facts(), Missing(first, now, rep, blockTime), 0;
    while Lagging(last, now, rep, blockTime)
      invariant e.Valid() && WholeTimes(e.Facts())
      invariant LoopAt(r, e.spell, first, now, rep, blockTime, count, e.Facts(), last)
      decreases n - count
    {
      ghost var s, t := e.Facts(), last;
      LoopEnds(r, e.spell, first, now, rep, blockTime, count, s, t);
      last := Pass(e, last, blockTime);
      LoopNext(r, e.spell, first, now, rep, blockTime, count, s, t, e.Facts(), last);
      count := count + 1;
    }
    LoopEnds(r, e.spell, first, now, rep, blockTime, count, e.Facts(), last);
  }

  // ---------- what the loop amounts to ----------

  lemma {:induction false} SameLastRep(r: Replica, digest: real -> Digest, first: nat, blockTime: nat, count: nat)
    ensures Generated(r, digest, first, blockTime, count).lastRep == r.lastRep
  {
    if count > 0 {
      SameLastRep(r, digest, first, blockTime, count - 1);
    }
  }

  lemma {:induction false} GeneratedLatest(r: Replica, digest: real -> Digest, first: uint32, blockTime: nat, j: nat)
    requires blockTime > 0 && IsLatest(r, first as real)
    ensures IsLatest(Generated(r, digest, first, blockTime, j), After(first, blockTime, j) as real)
  {
    if j > 0 {
      GeneratedLatest(r, digest, first, blockTime, j - 1);
      var t := After(first, blockTime, j) as real;
      assert Request(digest(t), t) in Generated(r, digest, first, blockTime, j).requests;
    }
  }

  lemma BoundAsReal(last: nat, rep: real, now: uint32, blockTime: uint32)
    requires Whole(rep) && last < Bound(now, rep.Floor, blockTime)
    ensures last as real < rep + 5.0 * blockTime as real
  {
    assert Mul32(AHEAD, blockTime) <= 5 * blockTime;
    assert last < rep.Floor + 5 * blockTime;
    assert (rep.Floor + 5 * blockTime) as real == rep + 5.0 * blockTime as real;
  }

  // The requests are the ones RequestSlots asks of every run: each is one block time after the
  // latest, and that is less than five block times past last_rep.
  lemma GeneratedOnSchedule(sc: Schedule, r: Replica, digest: real -> Digest, first: uint32, now: uint32,
                            blockTime: uint32, j: nat)
    requires Whole(r.lastRep) && IsLatest(r, first as real) && Ends(first, now, r.lastRep.Floor, blockTime)
    requires j < Missing(first, now, r.lastRep.Floor, blockTime)
    requires sc.blockTime == blockTime as real && sc.digest == digest
    ensures var t := After(first, blockTime, j + 1) as real;
      RequestSlots.Generated(sc, Generated(r, digest, first, blockTime, j), digest(t), t)
  {
    var last := After(first, blockTime, j);
    GeneratedLatest(r, digest, first, blockTime, j);
    SameLastRep(r, digest, first, blockTime, j);
    MissingIsLeast(first, now, r.lastRep.Floor, blockTime, j);
    BoundAsReal(last, r.lastRep, now, blockTime);
    assert (last + blockTime) as real - blockTime as real == last as real;
  }

  // When the latest request is a whole number of block times past last_rep, and five of them past
  // last_rep fit, the loop ends and the log reaches at most five block times past last_rep.
  lemma AlignedReach(first: uint32, now: uint32, rep: uint32, blockTime: uint32, ahead: nat)
    requires first == After(rep, blockTime, ahead) && rep + 5 * blockTime < MODULUS
    ensures Ends(first, now, rep, blockTime)
    ensures var n := Missing(first, now, rep, blockTime);
      n > 0 ==> ahead + n <= 5 && After(first, blockTime, n) == After(rep, blockTime, ahead + n) <= rep + 5 * blockTime
  {
    var bound, n := Bound(now, rep, blockTime), Missing(first, now, rep, blockTime);
    assert bound <= rep + 5 * blockTime;
    AfterIsMultiple(rep, blockTime, 5);
    if first < bound {
      if ahead >= 5 {
        AfterGrows(rep, blockTime, 5, ahead);
        assert false;
      }
      AfterAfter(rep, blockTime, ahead, 5 - ahead);
      AfterIsMultiple(first, blockTime, 5 - ahead);
      AfterIsMultiple(first, blockTime, n);
      CeilLeast(bound - first, blockTime, 5 - ahead);
      AfterGrows(first, blockTime, n, 5 - ahead);
      AfterAfter(rep, blockTime, ahead, n);
    }
  }
}
