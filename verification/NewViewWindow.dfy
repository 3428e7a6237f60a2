// The sequence-number window around a view change: what VIEW-CHANGEs, Chi and PROCESS_NEW_VIEW
// keep of it, and the case in which the code leaves it.
module NewViewWindow {
  import opened Types
  import opened Lists
  import opened Engine
  import opened System
  import opened Chi
  import opened FactBase
  import opened Ledger
  import opened Agreement
  import opened ViewChanges
  import opened Safety

  // ---------- logs ----------

  // In every state of every run a correct replica has one checkpoint, and every logged PRE-PREPARE,
  // PREPARE and COMMIT is of its view and above h. COMMITs and received PREPAREs are at h + 1, and
  // so is every PRE-PREPARE and own PREPARE not taken from a NEW-VIEW.
  lemma LogsInWindow(cl: Cluster, run: seq<System>, events: seq<Event>, k: nat, i: nat)
    requires ValidCluster(cl) && IsRun(cl, run, events) && k < |run| && Correct(cl, i)
    ensures var r := run[k].replicas[i];
      && |r.checkpoints| == 1
      && (forall m :: m in r.prePrepares ==> m.v == r.view && m.n > H(r) && (m.n == H(r) + 1 || m.sig == InNewView))
      && (forall m :: m in r.prepares ==> m.v == r.view && m.n > H(r) && (m.n == H(r) + 1 || m.sig == Own))
      && (forall m :: m in r.commits ==> m.v == r.view && m.n == H(r) + 1)
  {
    InvRun(cl, run, events, k);
    assert Good(cl.cfg, i, run[k].replicas[i], run[k].sent);
    var c :| run[k].replicas[i].checkpoints == {c};
  }

  // ---------- VIEW-CHANGEs ----------

  // Each VIEW-CHANGE of a correct replica in a cluster of 4 or more: all of P is of the view just
  // left and at Hi + 1, one entry per number, each with its Q entry; so P always passes the test.
  lemma EmittedViewChange(cl: Cluster, run: seq<System>, events: seq<Event>, k: nat, vc: ViewChange)
    requires ValidCluster(cl) && cl.cfg.size >= 4 && IsRun(cl, run, events) && k < |run|
    requires ViewChangeMsg(vc) in run[k].sent && Correct(cl, vc.sender)
    ensures forall e :: e in vc.p ==> e.v == vc.v - 1 && e.n == vc.hi + 1 && exists b :: QEntry(e.n, e.d, b, e.v) in vc.q
    ensures forall e, x :: e in vc.p && x in vc.p && e.n == x.n ==> e == x
    ensures CorrectViewChange(vc) <==> forall e :: e in vc.q ==> e.n <= vc.hi + 1
  {
    CarryRun(cl, run, events, k);
    assert Carrying(cl.cfg, vc.sender, run[k].replicas[vc.sender], run[k].sent);
    assert GoodViewChange(cl.cfg, run[k].sent, vc);
  }

  lemma OwnQNumbers(cfg: Config, i: nat, r: Replica, c: int, p: seq<PEntry>, q: seq<QEntry>)
    requires Local(cfg, i, r) && Enumerates(q, NewQi(cfg, r))
    ensures forall m :: m in r.prePrepares && HasRequest(r, m.d) ==> InQ(OwnViewChange(i, r, c, p, q), m)
    ensures forall e :: e in q ==> exists m :: m in r.prePrepares && HasRequest(r, m.d) && m.n == e.n
  {
    forall m | m in r.prePrepares && HasRequest(r, m.d) ensures QEntry(m.n, m.d, m.b, m.v) in q {
      NewQiLogged(cfg, i, r, m.d, m.b, m.sig, m.n);
      assert QEntry(m.n, m.d, m.b, m.v) in Elems(q);
    }
    forall e | e in q ensures exists m :: m in r.prePrepares && HasRequest(r, m.d) && m.n == e.n {
      assert e in Elems(q);
    }
  }

  // The VIEW-CHANGE a replica is about to send passes correct_view_change at every receiver if and
  // only if it has not taken from a NEW-VIEW a known request beyond h + 1.
  lemma ViewChangeAccepted(cl: Cluster, run: seq<System>, events: seq<Event>, k: nat, i: nat,
                           c: int, p: seq<PEntry>, q: seq<QEntry>)
    requires ValidCluster(cl) && cl.cfg.size >= 4 && IsRun(cl, run, events) && k < |run| && Correct(cl, i)
    requires PreSendViewChange(cl.cfg, run[k].replicas[i], c, p, q, run[k].clock)
    ensures var r := run[k].replicas[i];
      CorrectViewChange(OwnViewChange(i, r, c, p, q)) <==>
      !exists m :: m in r.prePrepares && m.sig == InNewView && HasRequest(r, m.d) && m.n > H(r) + 1
  {
    InvRun(cl, run, events, k);
    assert Good(cl.cfg, i, run[k].replicas[i], run[k].sent);
    OwnAccepted(cl.cfg, i, run[k].replicas[i], run[k].sent, c, p, q, run[k].clock);
  }

  lemma OwnAccepted(cfg: Config, i: nat, r: Replica, sent: set<Msg>, c: int, p: seq<PEntry>, q: seq<QEntry>, now: real)
    requires F(cfg) > 0 && Good(cfg, i, r, sent) && Members(cfg, sent) && PreSendViewChange(cfg, r, c, p, q, now)
    ensures CorrectViewChange(OwnViewChange(i, r, c, p, q)) <==>
      !exists m :: m in r.prePrepares && m.sig == InNewView && HasRequest(r, m.d) && m.n > H(r) + 1
  {
    OwnViewChangeGood(cfg, i, r, c, p, q, sent);
    OwnQNumbers(cfg, i, r, c, p, q);
    WithinIff(cfg, r, OwnViewChange(i, r, c, p, q));
  }

  ghost predicate InQ(vc: ViewChange, m: PrePrepare) {
    QEntry(m.n, m.d, m.b, m.v) in vc.q
  }

  // A VIEW-CHANGE whose Q lists the known requests of the log is accepted iff these are in the window.
  lemma WithinIff(cfg: Config, r: Replica, vc: ViewChange)
    requires PrePrepareLog(cfg, r) && vc.hi == H(r)
    requires forall e :: e in vc.p ==> e.v < vc.v && e.n == vc.hi + 1
    requires forall e :: e in vc.q ==> e.v < vc.v && e.n > vc.hi
    requires forall m :: m in r.prePrepares && HasRequest(r, m.d) ==> InQ(vc, m)
    requires forall e :: e in vc.q ==> exists m :: m in r.prePrepares && HasRequest(r, m.d) && m.n == e.n
    ensures CorrectViewChange(vc) <==>
      !exists m :: m in r.prePrepares && m.sig == InNewView && HasRequest(r, m.d) && m.n > H(r) + 1
  {
  }

  // ---------- Chi ----------

  lemma MinHiAttained(msgs: seq<ViewChange>)
    requires msgs != []
    ensures exists vc :: vc in msgs && vc.hi == MinHi(msgs)
    ensures forall vc :: vc in msgs ==> MinHi(msgs) <= vc.hi
  {
    if |msgs| == 1 {
      assert msgs[0] in msgs;
    } else {
      MinHiAttained(msgs[1..]);
      assert msgs == [msgs[0]] + msgs[1..];
      var vc :| vc in msgs[1..] && vc.hi == MinHi(msgs[1..]);
      assert vc in msgs && msgs[0] in msgs;
    }
  }

  lemma {:induction false} MaxOfPAttained(p: seq<PEntry>)
    requires p != []
    ensures exists e :: e in p && e.n == MaxOfP(p, 0)
  {
    if p[1..] != [] {
      MaxOfPAttained(p[1..]);
      var e :| e in p[1..] && e.n == MaxOfP(p[1..], 0);
      assert e in p;
    } else {
      assert MaxOfP(p[1..], 0) == 0;
    }
    assert p[0] in p && (MaxOfP(p, 0) == p[0].n || MaxOfP(p, 0) == MaxOfP(p[1..], 0));
  }

  lemma {:induction false} AllPFrom(msgs: seq<ViewChange>, e: PEntry)
    requires e in AllP(msgs)
    ensures exists vc :: vc in msgs && e in vc.p
  {
    if e in msgs[0].p {
      assert msgs[0] in msgs;
    } else {
      AllPFrom(msgs[1..], e);
      var vc :| vc in msgs[1..] && e in vc.p;
      assert vc in msgs;
    }
  }

  // Chi starts right above the lowest Hi, and reaches exactly the highest prepared number.
  lemma MaxSAttained(msgs: seq<ViewChange>)
    requires msgs != []
    ensures MaxS(msgs) == MinHi(msgs) || exists vc, e :: vc in msgs && e in vc.p && e.n == MaxS(msgs)
    ensures forall vc, e :: vc in msgs && e in vc.p ==> e.n <= MaxS(msgs)
  {
    forall vc, e | vc in msgs && e in vc.p ensures e.n <= MaxS(msgs) {
      AllPHas(msgs, vc, e);
      MaxOfPAtLeast(AllP(msgs), 0, e);
    }
    if AllP(msgs) != [] {
      MaxOfPAttained(AllP(msgs));
      var e :| e in AllP(msgs) && e.n == MaxS(msgs);
      AllPFrom(msgs, e);
    }
  }

  // A "null" is written for a number exactly when no VIEW-CHANGE of Nu has prepared anything for it.
  lemma NullExactly(cfg: Config, sent: set<Msg>, msgs: seq<ViewChange>, n: nat)
    requires F(cfg) > 0 && forall vc :: vc in msgs ==> GoodViewChange(cfg, sent, vc)
    ensures ChiAt(n, msgs).d == Null <==> !exists vc, e :: vc in msgs && e in vc.p && e.n == n
  {
    ChiAtMeaning(n, msgs);
    if vc, e :| vc in msgs && e in vc.p && e.n == n {
      var b :| QEntry(e.n, e.d, b, e.v) in vc.q;
      assert e == PEntry(n, e.d, e.v);
      assert Derives(vc, vc, ChiEntry(n, e.d, b), e.v);
      var vp, vq, w :| vp in msgs && vq in msgs && Derives(vp, vq, ChiAt(n, msgs), w);
      assert PEntry(n, ChiAt(n, msgs).d, w) in vp.p;
    }
  }

  // Some VIEW-CHANGE of Nu reports a checkpoint above h and something prepared on top of it.
  ghost predicate SomeoneAhead(msgs: seq<ViewChange>, h: nat) {
    exists vc :: vc in msgs && vc.hi > h && vc.p != []
  }

  // The guard of PROCESS_NEW_VIEW as far as Chi is concerned.
  ghost predicate ChiFitsH(msgs: seq<ViewChange>, chi: seq<ChiEntry>, h: nat) {
    && (exists m :: m in msgs && m.hi == h)
    && (chi == [] || (exists e :: e in chi && e.n == h + 1 && forall x :: x in chi ==> e.n <= x.n))
  }

  lemma ChiStartsAtH(msgs: seq<ViewChange>, chi: seq<ChiEntry>, h: nat)
    requires msgs != [] && ChiMatches(chi, ChiOf(msgs)) && ChiFitsH(msgs, chi, h)
    ensures chi != [] ==> MinHi(msgs) == h
    ensures |chi| == (if MinHi(msgs) < MaxS(msgs) then MaxS(msgs) - MinHi(msgs) else 0)
    ensures forall k :: 0 <= k < |chi| ==> chi[k].n == h + 1 + k && chi[k].d == ChiAt(h + 1 + k, msgs).d
    ensures MinHi(msgs) <= h
  {
    MinHiAttained(msgs);
    ChiNumbers(msgs, chi);
    if chi != [] {
      assert chi[0] in chi && chi[0].n == MinHi(msgs) + 1;
      var e :| e in chi && e.n == h + 1 && forall x :: x in chi ==> e.n <= x.n;
    }
  }

  lemma AheadLeaves(cfg: Config, sent: set<Msg>, msgs: seq<ViewChange>, chi: seq<ChiEntry>, h: nat)
    requires F(cfg) > 0 && msgs != [] && forall vc :: vc in msgs ==> GoodViewChange(cfg, sent, vc)
    requires ChiMatches(chi, ChiOf(msgs)) && ChiFitsH(msgs, chi, h) && SomeoneAhead(msgs, h)
    ensures exists e :: e in chi && e.n > h + 1
  {
    ChiStartsAtH(msgs, chi, h);
    var vc :| vc in msgs && vc.hi > h && vc.p != [];
    var x := vc.p[0];
    assert x in vc.p;
    assert x.n == vc.hi + 1;
    MaxSAttained(msgs);
    assert MaxS(msgs) > h + 1;
    assert chi[|chi| - 1] in chi;
  }

  lemma TopIsNext(msgs: seq<ViewChange>, h: nat)
    requires msgs != [] && MinHi(msgs) == h && MaxS(msgs) > h && !SomeoneAhead(msgs, h)
    requires forall vc, e :: vc in msgs && e in vc.p ==> e.n == vc.hi + 1
    ensures MaxS(msgs) == h + 1
    ensures exists vc, e :: vc in msgs && e in vc.p && e.n == h + 1
  {
    MaxSAttained(msgs);
    MinHiAttained(msgs);
    var vc, e :| vc in msgs && e in vc.p && e.n == MaxS(msgs);
    assert vc.p != [];
    assert vc.hi == h;
  }

  lemma OneEntry(msgs: seq<ViewChange>, chi: seq<ChiEntry>, h: nat)
    requires msgs != [] && ChiMatches(chi, ChiOf(msgs)) && ChiFitsH(msgs, chi, h) && !SomeoneAhead(msgs, h)
    requires forall vc, e :: vc in msgs && e in vc.p ==> e.n == vc.hi + 1
    ensures |chi| <= 1 && forall e :: e in chi ==> e.n == h + 1 && e.d == ChiAt(h + 1, msgs).d
    ensures chi != [] ==> exists vc, e :: vc in msgs && e in vc.p && e.n == h + 1
  {
    ChiStartsAtH(msgs, chi, h);
    if chi != [] {
      TopIsNext(msgs, h);
    }
  }

  lemma NotAheadStays(cfg: Config, sent: set<Msg>, msgs: seq<ViewChange>, chi: seq<ChiEntry>, h: nat)
    requires F(cfg) > 0 && msgs != [] && forall vc :: vc in msgs ==> GoodViewChange(cfg, sent, vc)
    requires ChiMatches(chi, ChiOf(msgs)) && ChiFitsH(msgs, chi, h) && !SomeoneAhead(msgs, h)
    ensures |chi| <= 1 && forall e :: e in chi ==> e.n == h + 1 && e.d != Null
  {
    forall vc, e | vc in msgs && e in vc.p ensures e.n == vc.hi + 1 {
      assert GoodP(cfg, sent, vc);
    }
    OneEntry(msgs, chi, h);
    NullExactly(cfg, sent, msgs, h + 1);
  }

  // After PROCESS_NEW_VIEW the PRE-PREPARE log is within h < N <= h + 1 if and only if no
  // VIEW-CHANGE named in Nu is ahead of h with a prepared request. In that case Chi has at most one
  // entry, at h + 1, and no "null".
  lemma ProcessKeepsWindow(cl: Cluster, run: seq<System>, events: seq<Event>, k: nat, i: nat,
                           nu: seq<NuEntry>, chi: seq<ChiEntry>)
    requires ValidCluster(cl) && cl.faulty == {} && cl.cfg.size >= 4 && IsRun(cl, run, events) && k < |run| && Correct(cl, i)
    requires PreProcessNewView(cl.cfg, run[k].replicas[i], nu, chi)
    ensures var r := run[k].replicas[i];
      var ahead := SomeoneAhead(NuMsgs(cl.cfg, r.viewChanges, nu), H(r));
      var after := ProcessNewView(cl.cfg, i, r, chi);
      && ((forall m :: m in after.prePrepares ==> InW(after, m.n)) <==> !ahead)
      && (!ahead ==> |chi| <= 1 && forall e :: e in chi ==> e.n == H(r) + 1 && e.d != Null)
  {
    CarryRun(cl, run, events, k);
    assert Good(cl.cfg, i, run[k].replicas[i], run[k].sent);
    NuGood(cl, run[k], i, nu);
    ProcessWindow(cl.cfg, i, run[k].replicas[i], run[k].sent, nu, chi);
  }

  // Without faults every VIEW-CHANGE a Nu names was emitted by a replica that follows the code.
  lemma NuGood(cl: Cluster, s: System, i: nat, nu: seq<NuEntry>)
    requires cl.faulty == {} && CarryInv(cl, s) && Correct(cl, i)
    ensures forall vc :: vc in NuMsgs(cl.cfg, s.replicas[i].viewChanges, nu) ==> GoodViewChange(cl.cfg, s.sent, vc)
  {
    NuMsgsSent(cl, s, i, nu);
    forall vc | vc in NuMsgs(cl.cfg, s.replicas[i].viewChanges, nu) ensures GoodViewChange(cl.cfg, s.sent, vc) {
      assert Sender(ViewChangeMsg(vc)) < cl.cfg.size;
      assert Carrying(cl.cfg, vc.sender, s.replicas[vc.sender], s.sent);
    }
  }

  lemma ProcessWindow(cfg: Config, i: nat, r: Replica, sent: set<Msg>, nu: seq<NuEntry>, chi: seq<ChiEntry>)
    requires F(cfg) > 0 && Local(cfg, i, r) && PreProcessNewView(cfg, r, nu, chi)
    requires forall vc :: vc in NuMsgs(cfg, r.viewChanges, nu) ==> GoodViewChange(cfg, sent, vc)
    ensures var ahead := SomeoneAhead(NuMsgs(cfg, r.viewChanges, nu), H(r));
      var after := ProcessNewView(cfg, i, r, chi);
      && ((forall m :: m in after.prePrepares ==> InW(after, m.n)) <==> !ahead)
      && (!ahead ==> |chi| <= 1 && forall e :: e in chi ==> e.n == H(r) + 1 && e.d != Null)
  {
    var msgs := NuMsgs(cfg, r.viewChanges, nu);
    WindowAfter(cfg, i, r, nu, chi);
    if SomeoneAhead(msgs, H(r)) {
      AheadLeaves(cfg, sent, msgs, chi, H(r));
    } else {
      NotAheadStays(cfg, sent, msgs, chi, H(r));
    }
  }

  lemma WindowAfter(cfg: Config, i: nat, r: Replica, nu: seq<NuEntry>, chi: seq<ChiEntry>)
    requires Local(cfg, i, r) && PreProcessNewView(cfg, r, nu, chi)
    ensures var after := ProcessNewView(cfg, i, r, chi);
      (forall m :: m in after.prePrepares ==> InW(after, m.n)) <==> (forall e :: e in chi ==> e.n == H(r) + 1)
  {
    var after := ProcessNewView(cfg, i, r, chi);
    LocalProcess(cfg, i, r, nu, chi);
    assert after.prePrepares == ChiPrePrepares(cfg, r.view, chi);
    forall e | e in chi
      ensures PrePrepare(r.view, e.n, e.d, e.b, Primary(cfg, r.view), InNewView) in after.prePrepares
      ensures e.n > H(r)
    {
    }
  }

  // ---------- the window over whole runs ----------

  ghost predicate LogsNext(r: Replica) {
    forall m :: m in r.prePrepares ==> InW(r, m.n)
  }

  // PROCESS_NEW_VIEW on a Nu that names a VIEW-CHANGE ahead of the replica.
  ghost predicate ProcessesAhead(cfg: Config, r: Replica, a: Action) {
    a.ProcessNewViewA? && SomeoneAhead(NuMsgs(cfg, r.viewChanges, a.nu), H(r))
  }

  lemma BlockLogsNext(cfg: Config, i: nat, r: Replica, d: Digest, n: nat, t: real, hash: int)
    requires Local(cfg, i, r) && LogsNext(r) && n > H(r)
    ensures LogsNext(ReceiveBlock(r, d, n, t, hash))
  {
    assert ReceiveBlock(r, d, n, t, hash).prePrepares == {};
  }

  // An action takes the log out of the window exactly when it is such a PROCESS_NEW_VIEW.
  lemma LogsNextStep(cl: Cluster, s: System, i: nat, a: Action)
    requires cl.faulty == {} && F(cl.cfg) > 0 && CarryInv(cl, s) && Correct(cl, i) && LogsNext(s.replicas[i])
    requires Enabled(cl.cfg, i, s.replicas[i], a, s.clock)
    ensures LogsNext(Apply(cl.cfg, i, s.replicas[i], a)) <==> !ProcessesAhead(cl.cfg, s.replicas[i], a)
  {
    var r := s.replicas[i];
    assert Good(cl.cfg, i, r, s.sent);
    if a.ProcessNewViewA? {
      NuGood(cl, s, i, a.nu);
      ProcessWindow(cl.cfg, i, r, s.sent, a.nu, a.chi);
    } else if a.ReceiveBlockA? {
      BlockLogsNext(cl.cfg, i, r, a.d, a.n, a.t, a.val);
    } else {
      OnlyBlocksMoveWindow(cl.cfg, i, r, a);
    }
  }

  ghost predicate AllLogNext(cl: Cluster, s: System) {
    forall i: nat :: i < cl.cfg.size && i < |s.replicas| ==> LogsNext(s.replicas[i])
  }

  ghost predicate LeavesWindow(cl: Cluster, s: System, e: Event) {
    e.Act? && e.i < |s.replicas| && ProcessesAhead(cl.cfg, s.replicas[e.i], e.a)
  }

  lemma AllLogNextStep(cl: Cluster, s: System, e: Event, s': System)
    requires cl.faulty == {} && F(cl.cfg) > 0 && CarryInv(cl, s) && Next(cl, s, e, s') && AllLogNext(cl, s)
    ensures AllLogNext(cl, s') <==> !LeavesWindow(cl, s, e)
  {
    hide CarryInv, ProcessesAhead, LogsNext, Enabled, Apply, Emit, H;
    if e.Act? {
      LogsNextStep(cl, s, e.i, e.a);
      assert s'.replicas[e.i] == Apply(cl.cfg, e.i, s.replicas[e.i], e.a);
    }
  }

  lemma StartLogsNext(cl: Cluster, s: System)
    requires cl.faulty == {} && Init(cl, s)
    ensures AllLogNext(cl, s)
  {
    forall i: nat | i < cl.cfg.size ensures LogsNext(s.replicas[i]) {
      assert Correct(cl, i);
    }
  }

  // Up to any state of a run without faults every PRE-PREPARE was logged at h + 1 in every replica if and
  // only if none of the events was a PROCESS_NEW_VIEW on a Nu with someone ahead.
  lemma {:induction false} WindowExactly(cl: Cluster, run: seq<System>, events: seq<Event>, k: nat)
    requires ValidCluster(cl) && cl.faulty == {} && cl.cfg.size >= 4 && IsRun(cl, run, events) && k < |run|
    ensures (forall j: nat :: j <= k ==> AllLogNext(cl, run[j])) <==>
            (forall j: nat :: j < k ==> !LeavesWindow(cl, run[j], events[j]))
  {
    hide AllLogNext, LeavesWindow, Init, Next, CarryInv;
    if k == 0 {
      RunStart(cl, run, events);
      StartLogsNext(cl, run[0]);
    } else {
      WindowExactly(cl, run, events, k - 1);
      CarryRun(cl, run, events, k - 1);
      RunStep(cl, run, events, k);
      if AllLogNext(cl, run[k - 1]) {
        AllLogNextStep(cl, run[k - 1], events[k - 1], run[k]);
      }
    }
  }

  // ---------- backups reach the primary's answer ----------

  // Two logs that hold the VIEW-CHANGEs of a Nu resolve it alike.
  lemma {:induction false} SameMsgs(cfg: Config, log1: set<ViewChange>, log2: set<ViewChange>, nu: seq<NuEntry>)
    requires ValidConfig(cfg)
    requires forall e :: e in nu ==> exists vc :: vc in log1 && vc in log2 && NuEntryOf(cfg, vc) == e
    ensures NuMsgs(cfg, log1, nu) == NuMsgs(cfg, log2, nu)
  {
    if nu != [] {
      assert nu[0] in nu;
      var vc :| vc in log1 && vc in log2 && NuEntryOf(cfg, vc) == nu[0];
      assert Names(cfg, log1, nu[0].digest, vc) && Names(cfg, log2, nu[0].digest, vc);
      assert forall e :: e in nu[1..] ==> e in nu;
      SameMsgs(cfg, log1, log2, nu[1..]);
    }
  }

  // The NEW-VIEW an honest primary sends is accepted by correct_new_view at any replica in its view
  // that has logged it and the VIEW-CHANGEs it names: in whatever order those were collected, the
  // search over subsets finds Nu, and the recomputed Chi is the primary's.
  lemma HonestNewViewAccepted(cfg: Config, p: nat, rp: Replica, rj: Replica, nu: seq<NuEntry>, chi: seq<ChiEntry>,
                              collected: seq<NuEntry>)
    requires ValidConfig(cfg) && PreSendNewView(cfg, p, rp, nu, chi)
    requires rj.view == rp.view && NewView(rj.view, nu, chi) in rj.newViews
    requires forall vc :: vc in rp.viewChanges && NuEntryOf(cfg, vc) in nu ==> vc in rj.viewChanges
    requires Enumerates(collected, NuSet(cfg, rj))
    ensures CorrectNewView(cfg, rj, nu, chi)
    ensures FoundBySearch(collected, Quorum(cfg), nu)
  {
    forall e | e in nu ensures exists vc :: vc in rp.viewChanges && vc in rj.viewChanges && NuEntryOf(cfg, vc) == e {
      assert e in Elems(nu);
      var vc :| vc in rp.viewChanges && NuEntryOf(cfg, vc) == e;
    }
    SameMsgs(cfg, rp.viewChanges, rj.viewChanges, nu);
    NuOnceIsNuAll(cfg, rp, nu);
    forall e | e in Elems(nu) ensures e in NuSet(cfg, rj) {
      var vc :| vc in rp.viewChanges && vc in rj.viewChanges && NuEntryOf(cfg, vc) == e;
    }
    SearchFindsExactly(collected, Quorum(cfg), nu);
  }

  // correct_nu_all as written, a search over the subsets of the collected pairs, is CorrectNuAll.
  lemma CorrectNuAllIsSearch(cfg: Config, r: Replica, collected: seq<NuEntry>, nu: seq<NuEntry>)
    requires Enumerates(collected, NuSet(cfg, r))
    ensures FoundBySearch(collected, Quorum(cfg), nu) <==> CorrectNuAll(cfg, r, nu)
  {
    SearchFindsExactly(collected, Quorum(cfg), nu);
  }

  // Replicas that accept NEW-VIEWs on one Nu accept one Chi, up to the open block of a "null".
  lemma ChiIsFunctionOfNu(cfg: Config, r1: Replica, r2: Replica, nu: seq<NuEntry>, chi1: seq<ChiEntry>, chi2: seq<ChiEntry>)
    requires ValidConfig(cfg)
    requires CorrectNewView(cfg, r1, nu, chi1) && CorrectNewView(cfg, r2, nu, chi2)
    ensures |chi1| == |chi2|
    ensures forall k :: 0 <= k < |chi1| ==>
      chi1[k].n == chi2[k].n && chi1[k].d == chi2[k].d && (chi1[k].d == Null || chi1[k].b == chi2[k].b)
  {
    forall e | e in nu ensures exists vc :: vc in r1.viewChanges && vc in r2.viewChanges && NuEntryOf(cfg, vc) == e {
      assert e in Elems(nu);
      var vc :| vc in r1.viewChanges && NuEntryOf(cfg, vc) == e;
      var vc' :| vc' in r2.viewChanges && NuEntryOf(cfg, vc') == e;
      assert vc == vc';
    }
    SameMsgs(cfg, r1.viewChanges, r2.viewChanges, nu);
  }
}
