// Requests are slots of the block schedule, and what a primary proposes at n is slot n.
module RequestSlots {
  import opened Types
  import opened Lists
  import opened Engine
  import opened System
  import opened Chi
  import opened FactBase
  import opened Ledger
  import opened Agreement

  // The block of height h0 carries the timestamp t0. digest: Request::digest, which spells out the
  // timestamp.
  datatype Schedule = Schedule(h0: nat, t0: real, blockTime: real, digest: real -> Digest)

  function SlotTime(sc: Schedule, n: nat): real {
    sc.t0 + (n - sc.h0) as real * sc.blockTime
  }

  // Requests of different slots have different digests.
  ghost predicate ValidSchedule(sc: Schedule) {
    && sc.blockTime > 0.0
    && (forall t :: sc.digest(t) != Null)
    && (forall m: nat, n: nat :: sc.digest(SlotTime(sc, m)) == sc.digest(SlotTime(sc, n)) ==> m == n)
  }

  function Slot(sc: Schedule, n: nat): Request {
    Request(sc.digest(SlotTime(sc, n)), SlotTime(sc, n))
  }

  // There is a schedule of every positive whole block time, with the timestamp as digest.
  lemma ScheduleExists(h0: nat, t0: int, blockTime: int) returns (sc: Schedule)
    requires blockTime > 0
    ensures ValidSchedule(sc) && sc.h0 == h0 && sc.t0 == t0 as real && sc.blockTime == blockTime as real
  {
    sc := Schedule(h0, t0 as real, blockTime as real, (t: real) => Req(t.Floor));
    forall m: nat, n: nat | sc.digest(SlotTime(sc, m)) == sc.digest(SlotTime(sc, n)) ensures m == n {
      WholeSlot(sc, t0, blockTime, m);
      WholeSlot(sc, t0, blockTime, n);
      assert SlotTime(sc, m) == SlotTime(sc, n);
      SlotOrder(sc, m, n);
    }
  }

  lemma WholeSlot(sc: Schedule, t0: int, blockTime: int, n: nat)
    requires sc.t0 == t0 as real && sc.blockTime == blockTime as real
    ensures SlotTime(sc, n).Floor as real == SlotTime(sc, n)
  {
    assert SlotTime(sc, n) == (t0 + (n - sc.h0) * blockTime) as real;
  }

  function SlotsBetween(sc: Schedule, lo: nat, hi: nat): set<Request> {
    set k: nat | lo < k <= hi :: Slot(sc, k)
  }

  lemma SlotTimesGrow(sc: Schedule, m: nat, n: nat)
    requires sc.blockTime > 0.0 && m < n
    ensures SlotTime(sc, m) < SlotTime(sc, n)
  {
    assert SlotTime(sc, n) - SlotTime(sc, m) == (n - m) as real * sc.blockTime;
  }

  lemma SlotNext(sc: Schedule, n: nat, k: nat)
    ensures SlotTime(sc, n + k) == SlotTime(sc, n) + k as real * sc.blockTime
  {
    assert (n + k - sc.h0) as real == (n - sc.h0) as real + k as real;
  }

  lemma SlotOrder(sc: Schedule, m: nat, n: nat)
    requires sc.blockTime > 0.0
    ensures SlotTime(sc, m) < SlotTime(sc, n) <==> m < n
    ensures SlotTime(sc, m) == SlotTime(sc, n) <==> m == n
  {
    if m < n {
      SlotTimesGrow(sc, m, n);
    } else if n < m {
      SlotTimesGrow(sc, n, m);
    }
  }

  // ---------- the request log of one replica ----------

  // The log holds the slots after h up to top, and last_rep is the slot of last_exec.
  ghost predicate InStep(sc: Schedule, r: Replica, top: nat) {
    && H(r) <= r.lastExec <= H(r) + 1
    && r.lastExec <= top <= r.lastExec + 5
    && r.lastRep == SlotTime(sc, r.lastExec)
    && r.requests == SlotsBetween(sc, H(r), top)
  }

  ghost predicate OnSchedule(sc: Schedule, r: Replica) {
    exists top: nat :: InStep(sc, r, top)
  }

  // The requests GenerateRequests makes: one block time after the latest, while that is less than
  // five block times past last_rep.
  ghost predicate Generated(sc: Schedule, r: Replica, d: Digest, t: real) {
    && d == sc.digest(t)
    && IsLatest(r, t - sc.blockTime) && t - sc.blockTime < r.lastRep + 5.0 * sc.blockTime
  }

  lemma LatestIsTop(sc: Schedule, r: Replica, top: nat, t: real)
    requires ValidSchedule(sc) && InStep(sc, r, top) && IsLatest(r, t)
    ensures t == SlotTime(sc, top)
  {
    if top > H(r) {
      assert Slot(sc, top) in r.requests;
    }
    SlotOrder(sc, r.lastExec, top);
    if m :| m in r.requests && m.t == t {
      var k: nat :| H(r) < k <= top && m == Slot(sc, k);
      SlotOrder(sc, k, top);
    }
  }

  lemma GeneratedKeepsStep(sc: Schedule, r: Replica, d: Digest, t: real)
    requires ValidSchedule(sc) && OnSchedule(sc, r) && Generated(sc, r, d, t)
    ensures OnSchedule(sc, ReceiveRequest(r, d, t))
  {
    var top: nat :| InStep(sc, r, top);
    LatestIsTop(sc, r, top, t - sc.blockTime);
    SlotNext(sc, top, 1);
    SlotNext(sc, r.lastExec, 5);
    SlotOrder(sc, top, r.lastExec + 5);
    SlotOrder(sc, r.lastExec, top + 1);
    var s := ReceiveRequest(r, d, t);
    SameH(r, s);
    assert SlotsBetween(sc, H(r), top + 1) == SlotsBetween(sc, H(r), top) + {Slot(sc, top + 1)};
    assert InStep(sc, s, top + 1);
  }

  // The block of a height has the timestamp of its slot.
  lemma BlockKeepsStep(cfg: Config, i: nat, sc: Schedule, r: Replica, d: Digest, n: nat, hash: int)
    requires ValidSchedule(sc) && OnSchedule(sc, r) && OneCheckpoint(r)
    requires PreReceiveBlock(r, d, n, SlotTime(sc, n))
    ensures OnSchedule(sc, ReceiveBlock(r, d, n, SlotTime(sc, n), hash))
  {
    var t := SlotTime(sc, n);
    var top: nat :| InStep(sc, r, top);
    var k: nat :| H(r) < k <= top && Request(d, t) == Slot(sc, k);
    SlotOrder(sc, k, n);
    SlotOrder(sc, r.lastExec, n);
    var s := ReceiveBlock(r, d, n, t, hash);
    BlockH(r, d, n, t, hash);
    assert s.lastExec == n && s.lastRep == t;
    forall m | m in SlotsBetween(sc, H(r), top) ensures m.t > t <==> m in SlotsBetween(sc, n, top) {
      var j: nat :| H(r) < j <= top && m == Slot(sc, j);
      SlotOrder(sc, n, j);
      if m in SlotsBetween(sc, n, top) {
        var l: nat :| n < l <= top && m == Slot(sc, l);
        SlotOrder(sc, l, j);
      }
    }
    assert s.requests == SlotsBetween(sc, n, top);
    assert InStep(sc, s, top);
  }

  // Executing the request of the next slot.
  lemma ExecuteKeepsStep(sc: Schedule, r: Replica, t: real, n: nat, val: int)
    requires ValidSchedule(sc) && OnSchedule(sc, r) && n == r.lastExec + 1 <= H(r) + 1
    ensures OnSchedule(sc, Execute(r, sc.digest(SlotTime(sc, n)), t, n, val))
  {
    var d := sc.digest(SlotTime(sc, n));
    var s := Execute(r, d, t, n, val);
    var top: nat :| InStep(sc, r, top);
    SameH(r, s);
    if Request(d, t) in r.requests && t > r.lastRep {
      var k: nat :| H(r) < k <= top && Request(d, t) == Slot(sc, k);
      SlotOrder(sc, k, n);
    }
    assert InStep(sc, s, top);
  }

  // The request a primary proposes: in the first slot of its window, whatever its view.
  lemma ProposesSlot(cfg: Config, i: nat, sc: Schedule, r: Replica, d: Digest, n: nat, now: real)
    requires ValidSchedule(sc) && OnSchedule(sc, r) && Local(cfg, i, r)
    requires PreSendPrePrepare(cfg, i, r, d, n, now)
    ensures d == sc.digest(SlotTime(sc, n))
  {
    var top: nat :| InStep(sc, r, top);
    var t :| Request(d, t) in r.requests && Pending(r, i, now, t) && forall t' :: Pending(r, i, now, t') ==> t <= t';
    var k: nat :| H(r) < k <= top && Request(d, t) == Slot(sc, k);
    SlotOrder(sc, n, k);
    assert Slot(sc, n) in r.requests;
    assert forall m :: m in r.prePrepares ==> m.n > r.seqno >= m.n;
    assert Pending(r, i, now, SlotTime(sc, n));
  }

  // ---------- the network ----------

  ghost predicate SlotOrNull(sc: Schedule, d: Digest, n: nat) {
    d == Null || d == sc.digest(SlotTime(sc, n))
  }

  ghost predicate SlotMsg(sc: Schedule, m: Msg) {
    match m
    case PrePrepareMsg(v, n, d, b, _) => d == sc.digest(SlotTime(sc, n))
    case ViewChangeMsg(vc) => forall e :: e in vc.p ==> SlotOrNull(sc, e.d, e.n)
    case NewViewMsg(v, nu, chi, _) => forall e :: e in chi ==> SlotOrNull(sc, e.d, e.n)
    case _ => true
  }

  ghost predicate SlotMsgs(sc: Schedule, sent: set<Msg>) {
    forall m :: m in sent ==> SlotMsg(sc, m)
  }

  lemma IssuedSlot(cfg: Config, sc: Schedule, sent: set<Msg>, v: nat, n: nat, d: Digest, b: Block)
    requires SlotMsgs(sc, sent) && Issued(cfg, sent, v, n, d, b)
    ensures SlotOrNull(sc, d, n)
  {
    var p := Primary(cfg, v);
    if PrePrepareMsg(v, n, d, b, p) in sent {
      assert SlotMsg(sc, PrePrepareMsg(v, n, d, b, p));
    } else {
      var nu, chi :| NewViewMsg(v, nu, chi, p) in sent && ChiEntry(n, d, b) in chi;
      assert SlotMsg(sc, NewViewMsg(v, nu, chi, p));
    }
  }

  // prepared(d, v, n) at a replica names the request of slot n.
  lemma PreparedIsSlot(cfg: Config, i: nat, sc: Schedule, r: Replica, sent: set<Msg>, d: Digest, v: nat, n: nat)
    requires SlotMsgs(sc, sent) && Good(cfg, i, r, sent) && Members(cfg, sent) && Prepared(cfg, r, d, v, n)
    ensures d == sc.digest(SlotTime(sc, n))
  {
    PreparedIsCert(cfg, i, r, sent, d, v, n);
    var b :| Issued(cfg, sent, v, n, d, b);
    IssuedSlot(cfg, sc, sent, v, n, d, b);
    assert d != Null;
  }

  lemma ChiIsSlots(cfg: Config, i: nat, sc: Schedule, r: Replica, nu: seq<NuEntry>, chi: seq<ChiEntry>, sent: set<Msg>)
    requires ViewSources(cfg, r, sent) && SlotMsgs(sc, sent) && PreSendNewView(cfg, i, r, nu, chi)
    ensures forall e :: e in chi ==> SlotOrNull(sc, e.d, e.n)
  {
    var msgs := NuMsgs(cfg, r.viewChanges, nu);
    forall e | e in chi && e.d != Null ensures SlotOrNull(sc, e.d, e.n) {
      ChiEntryOrigin(msgs, chi, e);
      var vp, vq, v :| vp in msgs && vq in msgs && Derives(vp, vq, e, v);
      NuMsgsLogged(cfg, r.viewChanges, nu, vp);
      assert SlotMsg(sc, ViewChangeMsg(vp));
    }
  }

  lemma EmitsSlots(cfg: Config, i: nat, sc: Schedule, r: Replica, a: Action, now: real, sent: set<Msg>)
    requires ValidSchedule(sc) && OnSchedule(sc, r)
    requires Good(cfg, i, r, sent) && Members(cfg, sent) && SlotMsgs(sc, sent)
    requires Enabled(cfg, i, r, a, now)
    ensures SlotMsgs(sc, Emit(cfg, i, r, a))
  {
    if a.SendPrePrepareA? {
      ProposesSlot(cfg, i, sc, r, a.d, a.n, now);
    } else if a.SendViewChangeA? {
      forall e | e in a.p ensures SlotOrNull(sc, e.d, e.n) {
        assert e in Elems(a.p);
        PreparedIsSlot(cfg, i, sc, r, sent, e.d, e.v, e.n);
      }
    } else if a.SendNewViewA? {
      ChiIsSlots(cfg, i, sc, r, a.nu, a.chi, sent);
    }
  }

  // ---------- runs ----------

  ghost predicate SlotInv(cl: Cluster, sc: Schedule, s: System) {
    && |s.replicas| == cl.cfg.size
    && SlotMsgs(sc, s.sent)
    && forall i: nat :: i < cl.cfg.size ==> OnSchedule(sc, s.replicas[i])
  }

  // Requests come from GenerateRequests, and the block of height n is stamped with slot n.
  ghost predicate Scheduled(sc: Schedule, s: System, e: Event) {
    e.Act? && e.i < |s.replicas| ==>
      && (e.a.ReceiveRequestA? ==> Generated(sc, s.replicas[e.i], e.a.d, e.a.t))
      && (e.a.ReceiveBlockA? ==> e.a.t == SlotTime(sc, e.a.n))
  }

  ghost predicate ScheduledRun(cl: Cluster, sc: Schedule, run: seq<System>, events: seq<Event>) {
    && IsRun(cl, run, events)
    && (forall i: nat :: i < cl.cfg.size ==> run[0].replicas[i].lastRep == SlotTime(sc, run[0].replicas[i].lastExec))
    && (forall k :: 0 <= k < |events| ==> Scheduled(sc, run[k], events[k]))
  }

  // EXECUTE is enabled only inside the window.
  lemma ExecuteInWindow(cfg: Config, i: nat, r: Replica, d: Digest, t: real, v: nat, n: nat, fin: bool)
    requires Local(cfg, i, r) && PreExecute(cfg, i, r, d, t, v, n, fin)
    ensures n == r.lastExec + 1 <= H(r) + 1
  {
    assert CommitFacts(r, v, n) != {};
    var c :| c in CommitFacts(r, v, n);
  }

  lemma OnScheduleStep(cfg: Config, i: nat, sc: Schedule, r: Replica, a: Action, now: real, sent: set<Msg>)
    requires ValidSchedule(sc) && OnSchedule(sc, r)
    requires Good(cfg, i, r, sent) && Members(cfg, sent) && SlotMsgs(sc, sent)
    requires Enabled(cfg, i, r, a, now)
    requires a.ReceiveRequestA? ==> Generated(sc, r, a.d, a.t)
    requires a.ReceiveBlockA? ==> a.t == SlotTime(sc, a.n)
    ensures OnSchedule(sc, Apply(cfg, i, r, a))
  {
    var s := Apply(cfg, i, r, a);
    if a.ReceiveRequestA? {
      GeneratedKeepsStep(sc, r, a.d, a.t);
    } else if a.ReceiveBlockA? {
      BlockKeepsStep(cfg, i, sc, r, a.d, a.n, a.val);
    } else if a.ExecuteA? {
      PreparedIsSlot(cfg, i, sc, r, sent, a.d, a.v, a.n);
      ExecuteInWindow(cfg, i, r, a.d, a.t, a.v, a.n, a.finalSession);
      ExecuteKeepsStep(sc, r, a.t, a.n, a.val);
    } else {
      SameH(r, s);
      var top: nat :| InStep(sc, r, top);
      assert InStep(sc, s, top);
    }
  }

  lemma SlotNextStep(cl: Cluster, sc: Schedule, s: System, e: Event, s': System)
    requires ValidCluster(cl) && cl.faulty == {} && ValidSchedule(sc)
    requires Inv(cl, s) && SlotInv(cl, sc, s) && Next(cl, s, e, s') && Scheduled(sc, s, e)
    ensures SlotInv(cl, sc, s')
  {
    if e.Act? {
      var r := s.replicas[e.i];
      assert Good(cl.cfg, e.i, r, s.sent);
      EmitsSlots(cl.cfg, e.i, sc, r, e.a, s.clock, s.sent);
      OnScheduleStep(cl.cfg, e.i, sc, r, e.a, s.clock, s.sent);
    }
  }

  lemma SlotStart(cl: Cluster, sc: Schedule, run: seq<System>, events: seq<Event>)
    requires cl.faulty == {} && ScheduledRun(cl, sc, run, events)
    ensures IsRun(cl, run, events) && SlotInv(cl, sc, run[0])
  {
    forall i: nat | i < cl.cfg.size ensures OnSchedule(sc, run[0].replicas[i]) {
      assert Correct(cl, i);
      var h: nat, hash, t :| run[0].replicas[i] == Initial(cl.cfg, h, hash, t);
      HOfOne(run[0].replicas[i], Checkpoint(h, hash, t));
      assert SlotsBetween(sc, h, h) == {};
      assert InStep(sc, run[0].replicas[i], h);
    }
  }

  lemma ScheduledStep(cl: Cluster, sc: Schedule, run: seq<System>, events: seq<Event>, k: nat)
    requires ScheduledRun(cl, sc, run, events) && 0 < k < |run|
    ensures |run| == |events| + 1 && Scheduled(sc, run[k - 1], events[k - 1])
  {
  }

  lemma {:induction false} SlotRun(cl: Cluster, sc: Schedule, run: seq<System>, events: seq<Event>, k: nat)
    requires ValidCluster(cl) && cl.faulty == {} && ValidSchedule(sc)
    requires ScheduledRun(cl, sc, run, events) && k < |run|
    ensures SlotInv(cl, sc, run[k])
  {
    hide *;
    SlotStart(cl, sc, run, events);
    if k > 0 {
      SlotRun(cl, sc, run, events, k - 1);
      InvRun(cl, run, events, k - 1);
      RunStep(cl, run, events, k);
      ScheduledStep(cl, sc, run, events, k);
      SlotNextStep(cl, sc, run[k - 1], events[k - 1], run[k]);
    }
  }

  // Every PRE-PREPARE ever sent at n, in any view and by any primary, carries the request stamped
  // (n - h0) block times after the start.
  lemma PrePrepareCarriesSlot(cl: Cluster, sc: Schedule, run: seq<System>, events: seq<Event>, k: nat,
                              v: nat, n: nat, d: Digest, b: Block, i: nat)
    requires ValidCluster(cl) && cl.faulty == {} && ValidSchedule(sc)
    requires ScheduledRun(cl, sc, run, events) && k < |run|
    requires PrePrepareMsg(v, n, d, b, i) in run[k].sent
    ensures d == sc.digest(SlotTime(sc, n))
  {
    SlotRun(cl, sc, run, events, k);
    assert SlotMsg(sc, PrePrepareMsg(v, n, d, b, i));
  }

  // Every entry of every NEW-VIEW ever sent, for whatever view, is "null" or lists the request of its
  // number.
  lemma NewViewListsSlots(cl: Cluster, sc: Schedule, run: seq<System>, events: seq<Event>, k: nat,
                          v: nat, nu: seq<NuEntry>, chi: seq<ChiEntry>, i: nat, e: ChiEntry)
    requires ValidCluster(cl) && cl.faulty == {} && ValidSchedule(sc)
    requires ScheduledRun(cl, sc, run, events) && k < |run|
    requires NewViewMsg(v, nu, chi, i) in run[k].sent && e in chi
    ensures e.d == Null || e.d == sc.digest(SlotTime(sc, e.n))
  {
    SlotRun(cl, sc, run, events, k);
    assert SlotMsg(sc, NewViewMsg(v, nu, chi, i));
  }

  // Two prepared certificates for one sequence number name one request, across any number of view
  // changes, and whichever replicas and states hold them.
  lemma PreparedAgreeAcrossViews(cl: Cluster, sc: Schedule, run: seq<System>, events: seq<Event>,
                                 k: nat, i: nat, v: nat, d: Digest, k': nat, i': nat, v': nat, d': Digest, n: nat)
    requires ValidCluster(cl) && cl.faulty == {} && ValidSchedule(sc)
    requires ScheduledRun(cl, sc, run, events) && k < |run| && k' < |run|
    requires i < cl.cfg.size && Prepared(cl.cfg, run[k].replicas[i], d, v, n)
    requires i' < cl.cfg.size && Prepared(cl.cfg, run[k'].replicas[i'], d', v', n)
    ensures d == d'
  {
    SlotRun(cl, sc, run, events, k);
    SlotRun(cl, sc, run, events, k');
    InvRun(cl, run, events, k);
    InvRun(cl, run, events, k');
    assert Correct(cl, i) && Correct(cl, i');
    PreparedIsSlot(cl.cfg, i, sc, run[k].replicas[i], run[k].sent, d, v, n);
    PreparedIsSlot(cl.cfg, i', sc, run[k'].replicas[i'], run[k'].sent, d', v', n);
  }

  // Whatever is executed at n, by any primary in any view, is the request of slot n: no two replicas
  // ever execute different requests at one sequence number.
  lemma ExecutesSlot(cl: Cluster, sc: Schedule, run: seq<System>, events: seq<Event>, k: nat)
    requires ValidCluster(cl) && cl.faulty == {} && ValidSchedule(sc)
    requires ScheduledRun(cl, sc, run, events) && k < |events|
    requires events[k].Act? && events[k].a.ExecuteA?
    ensures events[k].a.d == sc.digest(SlotTime(sc, events[k].a.n))
  {
    SlotRun(cl, sc, run, events, k);
    InvRun(cl, run, events, k);
    var i, a := events[k].i, events[k].a;
    assert Next(cl, run[k], events[k], run[k + 1]);
    assert Correct(cl, i);
    PreparedIsSlot(cl.cfg, i, sc, run[k].replicas[i], run[k].sent, a.d, a.v, a.n);
  }

  // In every state the request log of a replica is the arithmetic progression of the slots after h,
  // and reaches at most five slots past last_rep.
  lemma RequestLogIsProgression(cl: Cluster, sc: Schedule, run: seq<System>, events: seq<Event>, k: nat, i: nat)
    requires ValidCluster(cl) && cl.faulty == {} && ValidSchedule(sc)
    requires ScheduledRun(cl, sc, run, events) && k < |run| && i < cl.cfg.size
    ensures var r := run[k].replicas[i];
      && r.lastRep == SlotTime(sc, r.lastExec)
      && exists top: nat :: r.requests == SlotsBetween(sc, H(r), top) && r.lastExec <= top <= r.lastExec + 5
  {
    SlotRun(cl, sc, run, events, k);
    assert OnSchedule(sc, run[k].replicas[i]);
  }
}
