// What correct_chi computes, and which VIEW-CHANGEs a Nu refers to.
module Chi {
  import opened Types
  import opened Engine

  // correct_chi lists each sequence number once.
  lemma {:induction false} ChiRangeNumbers(lo: nat, hi: nat, msgs: seq<ViewChange>)
    ensures var chi := ChiRange(lo, hi, msgs);
            && |chi| == (if lo > hi then 0 else hi + 1 - lo)
            && forall k :: 0 <= k < |chi| ==> chi[k] == ChiAt(lo + k, msgs)
    decreases hi + 1 - lo
  {
    if lo <= hi {
      ChiRangeNumbers(lo + 1, hi, msgs);
      var rest := ChiRange(lo + 1, hi, msgs);
      assert ChiRange(lo, hi, msgs) == [ChiAt(lo, msgs)] + rest;
      forall k | 0 <= k < |rest| + 1 ensures ([ChiAt(lo, msgs)] + rest)[k] == ChiAt(lo + k, msgs) {
        if k > 0 { assert rest[k - 1] == ChiAt(lo + 1 + (k - 1), msgs); }
      }
    }
  }

  lemma {:induction false} FirstQSound(e: PEntry, q: seq<QEntry>)
    ensures FirstQ(e, q).Found? ==>
      var c := FirstQ(e, q).e; c.n == e.n && c.d == e.d && QEntry(c.n, c.d, c.b, e.v) in q
    ensures FirstQ(e, q).NotFound? ==> forall b :: QEntry(e.n, e.d, b, e.v) !in q
  {
    if q != [] {
      FirstQSound(e, q[1..]);
      assert q == [q[0]] + q[1..];
    }
  }

  lemma {:induction false} FirstPSound(n: nat, p: seq<PEntry>, whole: seq<PEntry>, q: seq<QEntry>)
    ensures FirstP(n, p, whole, q).Found? ==>
      var c := FirstP(n, p, whole, q).e;
      c.n == n && exists v :: PEntry(n, c.d, v) in p && Dominates(PEntry(n, c.d, v), whole) && QEntry(n, c.d, c.b, v) in q
    ensures FirstP(n, p, whole, q).NotFound? ==>
      forall d, b, v :: PEntry(n, d, v) in p && Dominates(PEntry(n, d, v), whole) ==> QEntry(n, d, b, v) !in q
  {
    if p != [] {
      FirstPSound(n, p[1..], whole, q);
      FirstQSound(p[0], q);
      assert p == [p[0]] + p[1..];
      if FirstP(n, p, whole, q).Found? && FirstP(n, p, whole, q) == FirstQ(p[0], q) {
        assert p[0].n == n ==> p[0] == PEntry(n, p[0].d, p[0].v);
      }
    }
  }

  // [n, d, b] has a CASE1 derivation from the P of vp and the Q of vq.
  ghost predicate Derives(vp: ViewChange, vq: ViewChange, e: ChiEntry, v: nat) {
    && PEntry(e.n, e.d, v) in vp.p
    && (forall x :: x in vp.p && x.n == e.n ==> x.v < v || (x.v == v && x.d == e.d))
    && QEntry(e.n, e.d, e.b, v) in vq.q
  }

  lemma {:induction false} FirstQMsgSound(n: nat, vp: ViewChange, qMsgs: seq<ViewChange>)
    ensures FirstQMsg(n, vp.p, qMsgs).Found? ==>
      var c := FirstQMsg(n, vp.p, qMsgs).e;
      c.n == n && exists vq, v :: vq in qMsgs && Derives(vp, vq, c, v)
    ensures FirstQMsg(n, vp.p, qMsgs).NotFound? ==>
      forall vq, c: ChiEntry, v :: vq in qMsgs && c.n == n ==> !Derives(vp, vq, c, v)
  {
    if qMsgs != [] {
      FirstQMsgSound(n, vp, qMsgs[1..]);
      FirstPSound(n, vp.p, vp.p, qMsgs[0].q);
      assert qMsgs == [qMsgs[0]] + qMsgs[1..];
      if FirstP(n, vp.p, vp.p, qMsgs[0].q).Found? {
        var c := FirstP(n, vp.p, vp.p, qMsgs[0].q).e;
        var v :| PEntry(n, c.d, v) in vp.p && Dominates(PEntry(n, c.d, v), vp.p) && QEntry(n, c.d, c.b, v) in qMsgs[0].q;
        assert Derives(vp, qMsgs[0], c, v);
      }
    }
  }

  lemma {:induction false} FirstPMsgSound(n: nat, pMsgs: seq<ViewChange>, qMsgs: seq<ViewChange>)
    ensures FirstPMsg(n, pMsgs, qMsgs).Found? ==>
      var c := FirstPMsg(n, pMsgs, qMsgs).e;
      c.n == n && exists vp, vq, v :: vp in pMsgs && vq in qMsgs && Derives(vp, vq, c, v)
    ensures FirstPMsg(n, pMsgs, qMsgs).NotFound? ==>
      forall vp, vq, c: ChiEntry, v :: vp in pMsgs && vq in qMsgs && c.n == n ==> !Derives(vp, vq, c, v)
  {
    if pMsgs != [] {
      FirstPMsgSound(n, pMsgs[1..], qMsgs);
      FirstQMsgSound(n, pMsgs[0], qMsgs);
      assert pMsgs == [pMsgs[0]] + pMsgs[1..];
    }
  }

  // once/1 in correct_chi: CASE1 whenever some pair of VIEW-CHANGEs derives an entry for n, else "null".
  lemma ChiAtMeaning(n: nat, msgs: seq<ViewChange>)
    ensures var e := ChiAt(n, msgs);
      && e.n == n
      && ((exists vp, vq, v :: vp in msgs && vq in msgs && Derives(vp, vq, e, v))
          || (e == ChiEntry(n, Null, Unbound)
              && forall vp, vq, c: ChiEntry, v :: vp in msgs && vq in msgs && c.n == n ==> !Derives(vp, vq, c, v)))
  {
    FirstPMsgSound(n, msgs, msgs);
  }

  // Chi has exactly one entry for each number from Min_s + 1 to Max_s, in order.
  lemma ChiNumbers(msgs: seq<ViewChange>, chi: seq<ChiEntry>)
    requires msgs != [] && ChiMatches(chi, ChiOf(msgs))
    ensures |chi| == (if MinHi(msgs) < MaxS(msgs) then MaxS(msgs) - MinHi(msgs) else 0)
    ensures forall k :: 0 <= k < |chi| ==>
      var e := ChiAt(MinHi(msgs) + 1 + k, msgs);
      chi[k].n == MinHi(msgs) + 1 + k && chi[k].d == e.d && (chi[k].d == Null || chi[k].b == e.b)
  {
    ChiRangeNumbers(MinHi(msgs) + 1, MaxS(msgs), msgs);
    forall k | 0 <= k < |chi| ensures chi[k].n == MinHi(msgs) + 1 + k {
      ChiAtMeaning(MinHi(msgs) + 1 + k, msgs);
    }
  }

  lemma ChiOnePerNumber(msgs: seq<ViewChange>, chi: seq<ChiEntry>)
    requires msgs != [] && ChiMatches(chi, ChiOf(msgs))
    ensures forall e, f :: e in chi && f in chi && e.n == f.n ==> e == f
  {
    ChiNumbers(msgs, chi);
  }

  // An entry that is not "null" comes from the P of one VIEW-CHANGE and the Q of one.
  lemma ChiEntryOrigin(msgs: seq<ViewChange>, chi: seq<ChiEntry>, e: ChiEntry)
    requires msgs != [] && ChiMatches(chi, ChiOf(msgs)) && e in chi && e.d != Null
    ensures exists vp, vq, v :: vp in msgs && vq in msgs && Derives(vp, vq, e, v)
  {
    ChiNumbers(msgs, chi);
    var k :| 0 <= k < |chi| && chi[k] == e;
    ChiAtMeaning(e.n, msgs);
    assert e == ChiAt(e.n, msgs);
  }

  // Every VIEW-CHANGE a Nu resolves to is logged under a digest listed in it.
  lemma {:induction false} NuMsgsLogged(cfg: Config, log: set<ViewChange>, nu: seq<NuEntry>, vc: ViewChange)
    requires vc in NuMsgs(cfg, log, nu)
    ensures vc in log && exists e :: e in nu && e.digest == cfg.digest(vc)
  {
    var rest := NuMsgs(cfg, log, nu[1..]);
    if vc in rest {
      NuMsgsLogged(cfg, log, nu[1..], vc);
      var e :| e in nu[1..] && e.digest == cfg.digest(vc);
      assert e in nu;
    }
  }

  // With injective digests a Nu over logged VIEW-CHANGEs resolves entry by entry.
  lemma {:induction false} NuMsgsResolve(cfg: Config, log: set<ViewChange>, nu: seq<NuEntry>)
    requires ValidConfig(cfg)
    requires forall e :: e in nu ==> exists vc :: vc in log && NuEntryOf(cfg, vc) == e
    ensures |NuMsgs(cfg, log, nu)| == |nu|
    ensures forall k :: 0 <= k < |nu| ==>
      NuMsgs(cfg, log, nu)[k] in log && NuEntryOf(cfg, NuMsgs(cfg, log, nu)[k]) == nu[k]
  {
    if nu != [] {
      assert nu[0] in nu;
      var x :| x in log && NuEntryOf(cfg, x) == nu[0];
      assert Names(cfg, log, nu[0].digest, x);
      assert nu == [nu[0]] + nu[1..];
      assert forall e :: e in nu[1..] ==> e in nu;
      NuMsgsResolve(cfg, log, nu[1..]);
      var rest := NuMsgs(cfg, log, nu[1..]);
      var head := NuMsgs(cfg, log, nu)[0];
      assert NuMsgs(cfg, log, nu) == [head] + rest && Names(cfg, log, nu[0].digest, head);
      assert head == x;
    }
  }
}
