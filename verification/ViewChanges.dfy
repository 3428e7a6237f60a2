// What a correct replica's VIEW-CHANGE carries, and the view-change theorem.
module ViewChanges {
  import opened Types
  import opened Quorums
  import opened Lists
  import opened Engine
  import opened System
  import opened FactBase
  import opened Ledger
  import opened Preservation
  import opened Agreement

  // ---------- contents of Pi and Qi ----------

  // One entry per number, and the certificates are real; with F > 0 all of the view just left,
  // for h + 1, and each backed by the Q of the same message.
  ghost predicate GoodP(cfg: Config, sent: set<Msg>, vc: ViewChange) {
    && (forall e :: e in vc.p ==> e.v < vc.v && e.d != Null && Cert(cfg, sent, e.v, e.n, e.d))
    && (forall e, x :: e in vc.p && x in vc.p && e.n == x.n ==> e == x)
    && (F(cfg) > 0 ==> forall e :: e in vc.p ==>
          e.v == vc.v - 1 && e.n == vc.hi + 1 && exists b :: QEntry(e.n, e.d, b, e.v) in vc.q)
  }

  ghost predicate GoodQ(cfg: Config, sent: set<Msg>, vc: ViewChange) {
    forall e :: e in vc.q ==>
      e.v == vc.v - 1 && e.n > vc.hi && e.d != Null && Issued(cfg, sent, e.v, e.n, e.d, e.b)
  }

  ghost predicate GoodViewChange(cfg: Config, sent: set<Msg>, vc: ViewChange) {
    vc.v > 0 && GoodP(cfg, sent, vc) && GoodQ(cfg, sent, vc)
  }

  // With F > 0 a certificate in the log has a PREPARE received from another replica, so it is at h + 1.
  lemma PreparedSlot(cfg: Config, i: nat, r: Replica, d: Digest, v: nat, n: nat)
    requires Local(cfg, i, r) && PreparedInLog(cfg, r, d, v, n) && F(cfg) > 0
    ensures v == r.view && n == H(r) + 1 && LoggedPrePrepare(cfg, r, d, v, n) && HasRequest(r, d)
  {
    var facts := PrepareFacts(r, d, v, n);
    var own := {Prepare(v, n, d, i, Own)};
    var p := MemberOutside(facts, own);
    assert p in r.prepares && p.sender != i;
  }

  lemma NewPiUnique(cfg: Config, i: nat, r: Replica, e: PEntry, x: PEntry)
    requires Local(cfg, i, r) && e in NewPi(cfg, r) && x in NewPi(cfg, r) && e.n == x.n
    ensures e == x
  {
    assert e.v == x.v by {
      assert e in Slots(r) && x in Slots(r);
    }
    assert PrePrepared(cfg, r, e.d, e.v, e.n) && PrePrepared(cfg, r, x.d, e.v, e.n);
  }

  lemma NewQiLogged(cfg: Config, i: nat, r: Replica, d: Digest, b: Block, sig: Sig, n: nat)
    requires Local(cfg, i, r) && HasRequest(r, d)
    requires PrePrepare(r.view, n, d, b, Primary(cfg, r.view), sig) in r.prePrepares
    ensures QEntry(n, d, b, r.view) in NewQi(cfg, r)
  {
    var m := PrePrepare(r.view, n, d, b, Primary(cfg, r.view), sig);
    assert !PrePreparedHigher(cfg, r, d, n, r.view);
    assert QEntry(m.n, m.d, m.b, m.v) in NewQi(cfg, r);
  }

  lemma OwnViewChangeGood(cfg: Config, i: nat, r: Replica, c: int, p: seq<PEntry>, q: seq<QEntry>, sent: set<Msg>)
    requires Local(cfg, i, r) && Sources(cfg, r, sent) && Members(cfg, sent)
    requires Enumerates(p, NewPi(cfg, r)) && Enumerates(q, NewQi(cfg, r))
    ensures GoodViewChange(cfg, sent, OwnViewChange(i, r, c, p, q))
  {
    var vc := OwnViewChange(i, r, c, p, q);
    forall e | e in vc.p
      ensures e.v < vc.v && e.d != Null && Cert(cfg, sent, e.v, e.n, e.d)
      ensures F(cfg) > 0 ==> e.v == vc.v - 1 && e.n == vc.hi + 1 && exists b :: QEntry(e.n, e.d, b, e.v) in vc.q
    {
      assert e in Elems(p);
      PreparedInLogIsCert(cfg, i, r, sent, e.d, e.v, e.n);
      if F(cfg) > 0 {
        PreparedSlot(cfg, i, r, e.d, e.v, e.n);
        var b, sig :| PrePrepare(e.v, e.n, e.d, b, Primary(cfg, e.v), sig) in r.prePrepares;
        NewQiLogged(cfg, i, r, e.d, b, sig, e.n);
        assert QEntry(e.n, e.d, b, e.v) in Elems(q);
      }
    }
    forall e, x | e in vc.p && x in vc.p && e.n == x.n ensures e == x {
      assert e in Elems(p) && x in Elems(p);
      NewPiUnique(cfg, i, r, e, x);
    }
    forall e | e in vc.q ensures e.v == vc.v - 1 && e.n > vc.hi && e.d != Null && Issued(cfg, sent, e.v, e.n, e.d, e.b) {
      assert e in Elems(q);
    }
  }

  lemma GoodViewChangeGrows(cfg: Config, sent: set<Msg>, more: set<Msg>, vc: ViewChange)
    requires GoodViewChange(cfg, sent, vc) && sent <= more
    ensures GoodViewChange(cfg, more, vc)
  {
    forall e | e in vc.p ensures Cert(cfg, more, e.v, e.n, e.d) {
      CertGrows(cfg, sent, more, e.v, e.n, e.d);
    }
  }

  // ---------- a committed slot stays prepared until it is carried or checkpointed ----------

  ghost predicate StillPrepared(cfg: Config, r: Replica, n: nat) {
    exists d :: PreparedInLog(cfg, r, d, r.view, n)
  }

  ghost predicate CommittedHeld(cfg: Config, i: nat, r: Replica, sent: set<Msg>) {
    forall n: nat, x :: CommitMsg(r.view, n, x, i) in sent && n > H(r) ==> StillPrepared(cfg, r, n)
  }

  ghost predicate Carries(vc: ViewChange, v: nat, n: nat) {
    exists d, b :: PEntry(n, d, v) in vc.p && QEntry(n, d, b, v) in vc.q
  }

  ghost predicate CommittedCarried(i: nat, sent: set<Msg>) {
    forall v: nat, n: nat, x, vc :: CommitMsg(v, n, x, i) in sent && ViewChangeMsg(vc) in sent ==>
      vc.sender == i && vc.v == v + 1 && vc.hi < n ==> Carries(vc, v, n)
  }

  ghost predicate Emits(cfg: Config, i: nat, sent: set<Msg>) {
    forall vc :: ViewChangeMsg(vc) in sent && vc.sender == i ==> GoodViewChange(cfg, sent, vc)
  }

  ghost predicate Carrying(cfg: Config, i: nat, r: Replica, sent: set<Msg>) {
    CommittedHeld(cfg, i, r, sent) && CommittedCarried(i, sent) && Emits(cfg, i, sent)
  }

  lemma PreparedStays(cfg: Config, r: Replica, s: Replica, d: Digest, v: nat, n: nat)
    requires PreparedInLog(cfg, r, d, v, n)
    requires r.requests <= s.requests && r.prePrepares <= s.prePrepares && r.prepares <= s.prepares && r.qi == s.qi
    ensures PreparedInLog(cfg, s, d, v, n)
  {
    SubsetCard(PrepareFacts(r, d, v, n), PrepareFacts(s, d, v, n));
    if HasRequest(r, d) && LoggedPrePrepare(cfg, r, d, v, n) {
      var b, sig :| PrePrepare(v, n, d, b, Primary(cfg, v), sig) in r.prePrepares;
      assert PrePrepare(v, n, d, b, Primary(cfg, v), sig) in s.prePrepares;
      var t :| Request(d, t) in r.requests;
      assert Request(d, t) in s.requests;
    }
  }

  // Within a view and between checkpoints nothing a certificate rests on is removed.
  lemma KeptWithinView(cfg: Config, i: nat, r: Replica, a: Action, now: real)
    requires Local(cfg, i, r) && Enabled(cfg, i, r, a, now)
    requires !a.RecoverViewA? && !a.ReceiveBlockA? && !a.SendViewChangeA?
    ensures var s := Apply(cfg, i, r, a);
      && s.view == r.view && s.checkpoints == r.checkpoints && s.qi == r.qi
      && r.requests <= s.requests && r.prePrepares <= s.prePrepares && r.prepares <= s.prepares
  {
  }

  lemma HeldStep(cfg: Config, i: nat, r: Replica, a: Action, now: real, sent: set<Msg>)
    requires Good(cfg, i, r, sent) && CommittedHeld(cfg, i, r, sent)
    requires Enabled(cfg, i, r, a, now)
    ensures CommittedHeld(cfg, i, Apply(cfg, i, r, a), sent + Emit(cfg, i, r, a))
  {
    var s := Apply(cfg, i, r, a);
    var more := sent + Emit(cfg, i, r, a);
    forall n: nat, x | CommitMsg(s.view, n, x, i) in more && n > H(s) ensures StillPrepared(cfg, s, n) {
      if a.RecoverViewA? || a.SendViewChangeA? {
        assert false;
      } else if a.ReceiveBlockA? {
        BlockH(r, a.d, a.n, a.t, a.val);
        assert false;
      } else {
        KeptWithinView(cfg, i, r, a, now);
        SameH(r, s);
        if CommitMsg(s.view, n, x, i) !in sent {
          assert a.SendCommitA? && n == a.n;
          assert PreparedInLog(cfg, r, a.d, r.view, n);
        }
        var d :| PreparedInLog(cfg, r, d, r.view, n);
        PreparedStays(cfg, r, s, d, r.view, n);
      }
    }
  }

  lemma CarriedStep(cfg: Config, i: nat, r: Replica, a: Action, now: real, sent: set<Msg>)
    requires Good(cfg, i, r, sent) && CommittedHeld(cfg, i, r, sent) && CommittedCarried(i, sent)
    requires Enabled(cfg, i, r, a, now)
    ensures CommittedCarried(i, sent + Emit(cfg, i, r, a))
  {
    var more := sent + Emit(cfg, i, r, a);
    forall v: nat, n: nat, x, vc |
        CommitMsg(v, n, x, i) in more && ViewChangeMsg(vc) in more && vc.sender == i && vc.v == v + 1 && vc.hi < n
      ensures Carries(vc, v, n)
    {
      if ViewChangeMsg(vc) !in sent {
        assert a.SendViewChangeA? && vc == OwnViewChange(i, r, a.c, a.p, a.q);
        assert CommitMsg(v, n, x, i) in sent && v == r.view;
        var d :| PreparedInLog(cfg, r, d, r.view, n);
        CarriedNow(cfg, i, r, a.c, a.p, a.q, d, n);
      }
    }
  }

  // A certificate of the current view is copied into Pi, and its PRE-PREPARE into Qi.
  lemma CarriedNow(cfg: Config, i: nat, r: Replica, c: int, p: seq<PEntry>, q: seq<QEntry>, d: Digest, n: nat)
    requires Local(cfg, i, r) && PreparedInLog(cfg, r, d, r.view, n)
    requires Enumerates(p, NewPi(cfg, r)) && Enumerates(q, NewQi(cfg, r))
    ensures Carries(OwnViewChange(i, r, c, p, q), r.view, n)
  {
    assert HasRequest(r, d) && LoggedPrePrepare(cfg, r, d, r.view, n);
    var b, sig :| PrePrepare(r.view, n, d, b, Primary(cfg, r.view), sig) in r.prePrepares;
    NewQiLogged(cfg, i, r, d, b, sig, n);
    assert QEntry(n, d, b, r.view) in Elems(q);
    var e := PEntry(n, d, r.view);
    assert e in Slots(r) by {
      var m := PrePrepare(r.view, n, d, b, Primary(cfg, r.view), sig);
      assert PEntry(m.n, m.d, m.v) in Slots(r);
    }
    assert !PreparedHigher(cfg, r, n, r.view);
    assert e in Elems(p);
  }

  lemma EmitsStep(cfg: Config, i: nat, r: Replica, a: Action, now: real, sent: set<Msg>)
    requires Good(cfg, i, r, sent) && Members(cfg, sent) && Emits(cfg, i, sent)
    requires Enabled(cfg, i, r, a, now)
    ensures Emits(cfg, i, sent + Emit(cfg, i, r, a))
  {
    var more := sent + Emit(cfg, i, r, a);
    forall vc | ViewChangeMsg(vc) in more && vc.sender == i ensures GoodViewChange(cfg, more, vc) {
      if ViewChangeMsg(vc) !in sent {
        OwnViewChangeGood(cfg, i, r, a.c, a.p, a.q, sent);
      }
      GoodViewChangeGrows(cfg, sent, more, vc);
    }
  }

  lemma CarryingOthers(cfg: Config, i: nat, r: Replica, sent: set<Msg>, more: set<Msg>)
    requires Carrying(cfg, i, r, sent) && sent <= more
    requires forall m :: m in more && m !in sent ==> Sender(m) != i
    ensures Carrying(cfg, i, r, more)
  {
    assert forall v: nat, n: nat, x :: CommitMsg(v, n, x, i) in more ==> CommitMsg(v, n, x, i) in sent;
    assert forall vc :: ViewChangeMsg(vc) in more && vc.sender == i ==> ViewChangeMsg(vc) in sent;
    forall vc | ViewChangeMsg(vc) in more && vc.sender == i ensures GoodViewChange(cfg, more, vc) {
      GoodViewChangeGrows(cfg, sent, more, vc);
    }
  }

  ghost predicate CarryInv(cl: Cluster, s: System) {
    && Inv(cl, s)
    && (forall i: nat :: Correct(cl, i) ==> Carrying(cl.cfg, i, s.replicas[i], s.sent))
  }

  lemma CarryNext(cl: Cluster, s: System, e: Event, s': System)
    requires ValidCluster(cl) && CarryInv(cl, s) && Next(cl, s, e, s')
    ensures CarryInv(cl, s')
  {
    InvNext(cl, s, e, s');
    forall j: nat | Correct(cl, j) ensures Carrying(cl.cfg, j, s'.replicas[j], s'.sent) {
      var r := s.replicas[j];
      assert Good(cl.cfg, j, r, s.sent) && Carrying(cl.cfg, j, r, s.sent);
      if e.Act? && e.i == j {
        HeldStep(cl.cfg, j, r, e.a, s.clock, s.sent);
        CarriedStep(cl.cfg, j, r, e.a, s.clock, s.sent);
        EmitsStep(cl.cfg, j, r, e.a, s.clock, s.sent);
      } else {
        forall m | m in s'.sent && m !in s.sent ensures Sender(m) != j {
          if e.Act? { EmitSender(cl.cfg, e.i, s.replicas[e.i], e.a, m); }
        }
        CarryingOthers(cl.cfg, j, r, s.sent, s'.sent);
      }
    }
  }

  lemma CarryInit(cl: Cluster, s: System)
    requires Init(cl, s)
    ensures CarryInv(cl, s)
  {
    InvInit(cl, s);
  }

  lemma {:induction false} CarryRun(cl: Cluster, run: seq<System>, events: seq<Event>, k: nat)
    requires ValidCluster(cl) && IsRun(cl, run, events) && k < |run|
    ensures CarryInv(cl, run[k])
  {
    hide *;
    if k == 0 {
      RunStart(cl, run, events);
      CarryInit(cl, run[0]);
    } else {
      CarryRun(cl, run, events, k - 1);
      RunStep(cl, run, events, k);
      CarryNext(cl, run[k - 1], events[k - 1], run[k]);
    }
  }
}
