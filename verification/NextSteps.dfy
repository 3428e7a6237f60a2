// Which steps are open to a replica: leaving a view, announcing and entering the next, proposing in it,
// and receiving what correct replicas send.
module NextSteps {
  import opened Types
  import opened Quorums
  import opened Lists
  import opened Engine
  import opened System
  import opened Chi
  import opened FactBase
  import opened Ledger
  import opened Agreement
  import opened Progress

  // ---------- leaving a view ----------

  lemma Listing<T>(s: set<T>) returns (xs: seq<T>)
    ensures Enumerates(xs, s)
    decreases |s|
  {
    if s == {} {
      xs := [];
    } else {
      var x :| x in s;
      assert |s - {x}| < |s|;
      var rest := Listing(s - {x});
      assert x !in Elems(rest);
      xs := [x] + rest;
      assert Elems(xs) == {x} + Elems(rest);
    }
  }

  // A replica may leave its view exactly when a request later than last_rep has waited longer than half a
  // block time doubled once for each view.
  lemma LeavesExactly(cfg: Config, i: nat, r: Replica, now: real)
    requires Local(cfg, i, r)
    ensures (exists c, p, q :: PreSendViewChange(cfg, r, c, p, q, now)) <==>
            exists m :: m in r.requests && r.lastRep < m.t && now - m.t > Pow2(r.view) * (cfg.blockTime / 2.0)
  {
    if exists m :: m in r.requests && r.lastRep < m.t && now - m.t > r.timeout {
      var k :| r.checkpoints == {k};
      HOfOne(r, k);
      assert k in r.checkpoints;
      var p := Listing(NewPi(cfg, r));
      var q := Listing(NewQi(cfg, r));
      assert PreSendViewChange(cfg, r, k.hash, p, q, now);
    }
  }

  // Its VIEW-CHANGE names the height and hash of its one checkpoint.
  lemma NamesCheckpoint(cfg: Config, i: nat, r: Replica, c: int, p: seq<PEntry>, q: seq<QEntry>, now: real)
    requires Local(cfg, i, r) && PreSendViewChange(cfg, r, c, p, q, now)
    ensures var vc := OwnViewChange(i, r, c, p, q);
      vc.v == r.view + 1 && vc.sender == i && exists t :: r.checkpoints == {Checkpoint(vc.hi, vc.c, t)}
  {
    var k :| r.checkpoints == {k};
    HOfOne(r, k);
    assert r.checkpoints == {Checkpoint(H(r), c, k.t)};
  }

  // ---------- announcing the next ----------

  lemma ListsNu(cfg: Config, r: Replica) returns (nu: seq<NuEntry>)
    requires ValidConfig(cfg) && |r.viewChanges| >= Quorum(cfg)
    ensures CorrectNuOnce(cfg, r, nu) && |nu| >= Quorum(cfg)
  {
    var xs := Listing(NuSet(cfg, r));
    nu := Sort(xs);
    SortSorts(xs);
    SortedNoDup(nu);
    var f := (vc: ViewChange) => NuEntryOf(cfg, vc);
    InjectiveImage(r.viewChanges, f);
    assert Image(r.viewChanges, f) == NuSet(cfg, r);
  }

  lemma Announces(cfg: Config, i: nat, r: Replica)
    requires ValidConfig(cfg) && Primary(cfg, r.view) == i && |r.viewChanges| >= Quorum(cfg)
    requires forall m :: m in r.newViews ==> m.v != r.view
    ensures exists nu, chi :: PreSendNewView(cfg, i, r, nu, chi)
  {
    var nu := ListsNu(cfg, r);
    assert Elems(nu) == NuSet(cfg, r);
    forall e | e in nu ensures exists vc :: vc in r.viewChanges && NuEntryOf(cfg, vc) == e {
      assert e in Elems(nu);
    }
    NuMsgsResolve(cfg, r.viewChanges, nu);
    var chi := ChiOf(NuMsgs(cfg, r.viewChanges, nu));
    assert PreSendNewView(cfg, i, r, nu, chi);
  }

  // The VIEW-CHANGE vc has reached replica i, or is its own.
  ghost predicate HasViewChange(s: System, events: seq<Event>, i: nat, k: nat, vc: ViewChange) {
    if vc.sender == i then ViewChangeMsg(vc) in s.sent else Takes(events, i, ReceiveViewChangeA(vc), 0, k)
  }

  lemma ViewChangeLogged(cl: Cluster, run: seq<System>, events: seq<Event>, i: nat, k: nat, vc: ViewChange)
    requires ValidCluster(cl) && IsRun(cl, run, events) && k < |run| && Correct(cl, i)
    requires HasViewChange(run[k], events, i, k, vc)
    ensures i < |run[k].replicas| && (vc.v == run[k].replicas[i].view ==> vc in run[k].replicas[i].viewChanges)
  {
    RunSize(cl, run, events, k);
    if vc.sender == i {
      InvRun(cl, run, events, k);
      assert Good(cl.cfg, i, run[k].replicas[i], run[k].sent);
    } else {
      var a := ReceiveViewChangeA(vc);
      hide IsRun, Next, Inv, ValidCluster, Takes, Local, Enabled;
      var m := TakenAt(events, i, a, 0, k);
      RunStep(cl, run, events, m + 1);
      InvRun(cl, run, events, m);
      Acted(cl, run[m], i, a, run[m + 1]);
      Remembers(cl, run, events, i, m + 1, k);
    }
  }

  lemma CountViewChanges(log: set<ViewChange>, vcs: map<nat, ViewChange>)
    requires forall s :: s in vcs ==> vcs[s].sender == s && vcs[s] in log
    ensures |log| >= |vcs|
  {
    var some := ViewChange(0, 0, 0, [], [], 0);
    var f := (s: nat) => if s in vcs then vcs[s] else some;
    InjectiveImage(vcs.Keys, f);
    SubsetCard(Image(vcs.Keys, f), log);
    assert |vcs.Keys| == |vcs|;
  }

  // The primary of a view that is in it and has the VIEW-CHANGEs of 2F + 1 replicas for it, received at
  // whatever time and in whatever view of its own, may send a NEW-VIEW unless it has logged one.
  lemma ViewChangesSuffice(cl: Cluster, run: seq<System>, events: seq<Event>, i: nat, k: nat, vcs: map<nat, ViewChange>)
    requires ValidCluster(cl) && IsRun(cl, run, events) && k < |run| && Correct(cl, i)
    requires var r := run[k].replicas[i];
      && Primary(cl.cfg, r.view) == i && (forall m :: m in r.newViews ==> m.v != r.view)
      && forall s :: s in vcs ==> vcs[s].sender == s && vcs[s].v == r.view && HasViewChange(run[k], events, i, k, vcs[s])
    requires |vcs| >= Quorum(cl.cfg)
    ensures exists nu, chi :: PreSendNewView(cl.cfg, i, run[k].replicas[i], nu, chi)
  {
    hide IsRun, HasViewChange, Primary, PreSendNewView;
    RunSize(cl, run, events, k);
    forall s | s in vcs ensures vcs[s] in run[k].replicas[i].viewChanges {
      ViewChangeLogged(cl, run, events, i, k, vcs[s]);
    }
    CountViewChanges(run[k].replicas[i].viewChanges, vcs);
    Announces(cl.cfg, i, run[k].replicas[i]);
  }

  // ---------- entering it ----------

  // PROCESS_NEW_VIEW continues from the greatest number of Chi, or from h if Chi is empty.
  lemma ProcessSeqno(cfg: Config, i: nat, r: Replica, nu: seq<NuEntry>, chi: seq<ChiEntry>)
    requires Local(cfg, i, r) && PreProcessNewView(cfg, r, nu, chi)
    ensures var s := Apply(cfg, i, r, ProcessNewViewA(nu, chi));
      && s.active && s.view == r.view && H(s) == H(r)
      && (chi == [] ==> s.seqno == H(r) && s.prePrepares == {})
      && (chi != [] ==> (exists e :: e in chi && e.n == s.seqno) && forall e :: e in chi ==> e.n <= s.seqno)
  {
    var r1 := r.(active := true, prePrepares := r.prePrepares + ChiPrePrepares(cfg, r.view, chi));
    assert r.prePrepares == {};
    assert r1.prePrepares == ChiPrePrepares(cfg, r.view, chi);
    LocalProcess(cfg, i, r, nu, chi);
    SameH(r, r1);
    hide Local, PreProcessNewView, IsTopSeqno, H, ChiPrePrepares, ChiPrepares;
    TopOfChi(cfg, r1, chi, TopSeqno(r1));
  }

  lemma TopOfChi(cfg: Config, r: Replica, chi: seq<ChiEntry>, n: nat)
    requires r.prePrepares == ChiPrePrepares(cfg, r.view, chi) && IsTopSeqno(r, n)
    ensures chi == [] ==> n == H(r) && r.prePrepares == {}
    ensures chi != [] ==> (exists e :: e in chi && e.n == n) && forall e :: e in chi ==> e.n <= n
  {
    forall e | e in chi ensures PrePrepare(r.view, e.n, e.d, e.b, Primary(cfg, r.view), InNewView) in r.prePrepares {
    }
    if chi != [] {
      assert chi[0] in chi;
    }
  }

  // A replica enters a view only with the requests of Chi in its log, Chi starting at its h + 1, and some
  // VIEW-CHANGE of Nu at its own checkpoint; all those at its height name its checkpoint.
  lemma EntersPrepared(cfg: Config, i: nat, r: Replica, nu: seq<NuEntry>, chi: seq<ChiEntry>)
    requires Local(cfg, i, r) && PreProcessNewView(cfg, r, nu, chi)
    ensures var s, msgs := Apply(cfg, i, r, ProcessNewViewA(nu, chi)), NuMsgs(cfg, r.viewChanges, nu);
      && (forall m :: m in s.prePrepares ==> m.n > H(s) && (m.d == Null || exists t :: Request(m.d, t) in s.requests))
      && (s.prePrepares != {} ==> exists m :: m in s.prePrepares && m.n == H(s) + 1)
      && (exists vc :: vc in msgs && vc.hi == H(s))
      && (forall vc :: vc in msgs && vc.hi == H(s) ==> exists t :: s.checkpoints == {Checkpoint(vc.hi, vc.c, t)})
  {
    var s, msgs := Apply(cfg, i, r, ProcessNewViewA(nu, chi)), NuMsgs(cfg, r.viewChanges, nu);
    var k :| r.checkpoints == {k};
    HOfOne(r, k);
    assert r.prePrepares == {};
    LocalProcess(cfg, i, r, nu, chi);
    hide NuMsgs, H, CorrectNewView, Local;
    assert s.prePrepares == ChiPrePrepares(cfg, r.view, chi) && s.checkpoints == r.checkpoints && s.requests == r.requests;
    forall vc | vc in msgs && vc.hi == H(r) ensures r.checkpoints == {Checkpoint(vc.hi, vc.c, k.t)} {
    }
    StartsNext(cfg, r, chi);
  }

  lemma StartsNext(cfg: Config, r: Replica, chi: seq<ChiEntry>)
    requires chi == [] || (exists e :: e in chi && e.n == H(r) + 1 && forall x :: x in chi ==> e.n <= x.n)
    requires forall e :: e in chi ==> e.d == Null || HasRequest(r, e.d)
    ensures var ms := ChiPrePrepares(cfg, r.view, chi);
      && (forall m :: m in ms ==> m.n > H(r) && (m.d == Null || exists t :: Request(m.d, t) in r.requests))
      && (ms != {} ==> exists m :: m in ms && m.n == H(r) + 1)
  {
    hide H;
    if chi != [] {
      var e :| e in chi && e.n == H(r) + 1 && forall x :: x in chi ==> e.n <= x.n;
      assert PrePrepare(r.view, e.n, e.d, e.b, Primary(cfg, r.view), InNewView) in ChiPrePrepares(cfg, r.view, chi);
    }
  }

  // ---------- proposing ----------

  lemma Earliest(ms: set<Request>) returns (m: Request)
    requires ms != {}
    ensures m in ms && forall x :: x in ms ==> m.t <= x.t
    decreases |ms|
  {
    var a :| a in ms;
    if ms == {a} {
      m := a;
    } else {
      assert |ms - {a}| < |ms|;
      var b := Earliest(ms - {a});
      m := if a.t <= b.t then a else b;
      assert forall x :: x in ms ==> x == a || x in ms - {a};
    }
  }

  ghost predicate MayPropose(cfg: Config, i: nat, r: Replica, n: nat, now: real) {
    exists d :: PreSendPrePrepare(cfg, i, r, d, n, now)
  }

  ghost predicate SomethingDue(r: Replica, now: real) {
    exists m :: m in r.requests && m.t <= now
  }

  // The active primary that stands at its checkpoint with nothing logged above it may propose at h + 1
  // exactly when the time of some logged request has come.
  lemma ProposesExactly(cfg: Config, i: nat, r: Replica, now: real)
    requires r.active && Primary(cfg, r.view) == i && r.seqno == H(r) && r.prePrepares == {} && r.checkpoints != {}
    ensures MayPropose(cfg, i, r, H(r) + 1, now) <==> SomethingDue(r, now)
  {
    if m0 :| m0 in r.requests && m0.t <= now {
      var due := set m | m in r.requests && m.t <= now;
      assert m0 in due;
      var m := Earliest(due);
      assert Request(m.d, m.t) in r.requests && Pending(r, i, now, m.t);
      forall t | Pending(r, i, now, t) ensures m.t <= t {
        var d :| Request(d, t) in r.requests && t <= now && !(exists x :: x in r.prePrepares && x.d == d && x.sender == i);
        assert Request(d, t) in due;
      }
      assert PreSendPrePrepare(cfg, i, r, m.d, H(r) + 1, now);
    }
  }

  lemma RunLength(cl: Cluster, run: seq<System>, events: seq<Event>)
    requires IsRun(cl, run, events)
    ensures |run| == |events| + 1
  {
  }

  // After PROCESS_NEW_VIEW on an empty Chi the new primary may propose at h + 1 exactly when the time of
  // some logged request has come.
  lemma NewPrimaryProposes(cl: Cluster, run: seq<System>, events: seq<Event>, k: nat, i: nat, nu: seq<NuEntry>, now: real)
    requires ValidCluster(cl) && IsRun(cl, run, events) && k < |events| && events[k] == Act(i, ProcessNewViewA(nu, []))
    requires i < |run[k].replicas| && Primary(cl.cfg, run[k].replicas[i].view) == i
    ensures i < |run[k + 1].replicas|
    ensures var s := run[k + 1].replicas[i];
      s.seqno == H(s) && (MayPropose(cl.cfg, i, s, H(s) + 1, now) <==> SomethingDue(s, now))
  {
    hide *;
    RunLength(cl, run, events);
    RunStep(cl, run, events, k + 1);
    InvRun(cl, run, events, k);
    Acted(cl, run[k], i, ProcessNewViewA(nu, []), run[k + 1]);
    EntersEmpty(cl.cfg, i, run[k].replicas[i], nu, run[k].clock, now);
  }

  lemma EntersEmpty(cfg: Config, i: nat, r: Replica, nu: seq<NuEntry>, earlier: real, now: real)
    requires Local(cfg, i, r) && Enabled(cfg, i, r, ProcessNewViewA(nu, []), earlier) && Primary(cfg, r.view) == i
    ensures var s := Apply(cfg, i, r, ProcessNewViewA(nu, []));
      s.seqno == H(s) && (MayPropose(cfg, i, s, H(s) + 1, now) <==> SomethingDue(s, now))
  {
    var s := Apply(cfg, i, r, ProcessNewViewA(nu, []));
    assert s.checkpoints == r.checkpoints && r.checkpoints != {};
    hide Local, PreProcessNewView, Apply, Primary, MayPropose, SomethingDue, H;
    ProcessSeqno(cfg, i, r, nu, []);
    ProposesExactly(cfg, i, s, now);
  }

  lemma HasCheckpoint(cl: Cluster, run: seq<System>, events: seq<Event>, k: nat, i: nat)
    requires ValidCluster(cl) && IsRun(cl, run, events) && k < |run| && Correct(cl, i)
    ensures i < |run[k].replicas| && run[k].replicas[i].checkpoints != {}
  {
    RunSize(cl, run, events, k);
    InvRun(cl, run, events, k);
    assert Good(cl.cfg, i, run[k].replicas[i], run[k].sent);
    var c :| run[k].replicas[i].checkpoints == {c};
  }

  // So may the primary of view 0 after init at any height.
  lemma FirstProposal(cfg: Config, height: nat, hash: int, t: real, requests: set<Request>, now: real)
    requires cfg.size > 0
    ensures var r := Initial(cfg, height, hash, t).(requests := requests);
      H(r) == height && r.seqno == height && (MayPropose(cfg, 0, r, height + 1, now) <==> SomethingDue(r, now))
  {
    var r := Initial(cfg, height, hash, t).(requests := requests);
    HOfOne(r, Checkpoint(height, hash, t));
    ProposesExactly(cfg, 0, r, now);
  }

  // ---------- after a block ----------

  // RECEIVE_BLOCK leaves the block as the only checkpoint, no fact at its height or below in the message
  // log, no row of its height in Pi and Qi, and every other one of those facts as it was. If the request
  // of the block is later than last_rep, last_exec, last_rep and the state value are those of the block.
  // What stays of the request log is later than last_rep.
  lemma BlockLeaves(cfg: Config, i: nat, r: Replica, d: Digest, n: nat, t: real, hash: int)
    requires Local(cfg, i, r) && PreReceiveBlock(r, d, n, t)
    ensures var s := Apply(cfg, i, r, ReceiveBlockA(d, n, t, hash));
      && s.checkpoints == {Checkpoint(n, hash, t)} && H(s) == n && s.view == r.view && s.active == r.active && s.seqno == r.seqno
      && (forall m :: m in s.prePrepares <==> m in r.prePrepares && m.n > n)
      && (forall m :: m in s.prepares <==> m in r.prepares && m.n > n)
      && s.commits == {} && s.recovery == r.recovery && s.viewChanges == r.viewChanges && s.newViews == r.newViews
      && (forall e :: e in s.pi <==> e in r.pi && e.n != n)
      && (forall e :: e in s.qi <==> e in r.qi && e.n != n)
      && (if t > r.lastRep then s.lastExec == n && s.lastRep == t && s.val == hash
          else s.lastExec == r.lastExec && s.lastRep == r.lastRep && s.val == r.val)
      && (forall m :: m in s.requests <==> m in r.requests && m.t > s.lastRep)
  {
    BlockH(r, d, n, t, hash);
  }

  // ---------- receiving ----------

  // The message is for the view and window of the replica. All entries of a VIEW-CHANGE must be of views
  // before its own and at Hi + 1, and a NEW-VIEW must be for a view reached, other than the first.
  ghost predicate Timely(r: Replica, m: Msg) {
    match m
    case PrePrepareMsg(v, n, d, b, _) => v == r.view && n == H(r) + 1 && r.active
    case PrepareMsg(v, n, d, _) => v == r.view && n == H(r) + 1
    case CommitMsg(v, n, x, _) => (v == r.view && n == H(r) + 1) || v > r.view
    case ViewChangeMsg(vc) => vc.v >= r.view && vc !in r.viewChanges && AtNext(vc)
    case NewViewMsg(v, nu, chi, _) => 0 < v <= r.view
  }

  ghost predicate AtNext(vc: ViewChange) {
    && (forall e :: e in vc.p ==> e.v < vc.v && e.n == vc.hi + 1)
    && (forall e :: e in vc.q ==> e.v < vc.v && e.n == vc.hi + 1)
  }

  function Receives(m: Msg): Action {
    match m
    case PrePrepareMsg(v, n, d, b, j) => ReceivePrePrepareA(v, n, d, b, j)
    case PrepareMsg(v, n, d, j) => ReceivePrepareA(v, n, d, j)
    case CommitMsg(v, n, x, j) => ReceiveCommitA(v, n, x, j)
    case ViewChangeMsg(vc) => ReceiveViewChangeA(vc)
    case NewViewMsg(v, nu, chi, j) => ReceiveNewViewA(v, nu, chi, j)
  }

  lemma SenderKnows(cl: Cluster, s: System, i: nat, m: Msg)
    requires Inv(cl, s) && Correct(cl, i) && Correct(cl, Sender(m)) && m in s.sent && |s.replicas| == cl.cfg.size
    ensures m.PrePrepareMsg? || m.NewViewMsg? ==> Primary(cl.cfg, m.v) == m.sender
    ensures m.PrepareMsg? ==> Primary(cl.cfg, m.v) != m.sender
    ensures m.ViewChangeMsg? ==> forall x :: x in s.replicas[i].viewChanges && x.v == m.vc.v && x.sender == m.vc.sender ==> x == m.vc
  {
    var j := Sender(m);
    assert Good(cl.cfg, j, s.replicas[j], s.sent);
    assert Good(cl.cfg, i, s.replicas[i], s.sent);
  }

  lemma SameProposal(cl: Cluster, s: System, i: nat, v: nat, n: nat, d: Digest, b: Block, j: nat)
    requires Inv(cl, s) && Correct(cl, i) && Correct(cl, j) && |s.replicas| == cl.cfg.size && Primary(cl.cfg, v) == j
    requires PrePrepareMsg(v, n, d, b, j) in s.sent
    ensures forall m :: m in s.replicas[i].prePrepares && m.v == v && m.n == n ==> m.d == d
  {
    assert Good(cl.cfg, i, s.replicas[i], s.sent);
    assert Issued(cl.cfg, s.sent, v, n, d, b);
    forall m | m in s.replicas[i].prePrepares && m.v == v && m.n == n ensures m.d == d {
      assert Issued(cl.cfg, s.sent, v, n, m.d, m.b);
      IssuedOnce(cl, s, v, n, d, b, m.d, m.b);
    }
  }

  lemma TimelyEnabled(cfg: Config, i: nat, r: Replica, m: Msg, now: real, sent: set<Msg>)
    requires Sender(m) != i && r.checkpoints != {} && m in sent
    requires m.PrePrepareMsg? || m.NewViewMsg? ==> Primary(cfg, m.v) == m.sender
    requires m.PrepareMsg? ==> Primary(cfg, m.v) != m.sender
    requires m.ViewChangeMsg? ==> forall x :: x in r.viewChanges && x.v == m.vc.v && x.sender == m.vc.sender ==> x == m.vc
    requires m.PrePrepareMsg? ==> forall x :: x in r.prePrepares && x.v == m.v && x.n == m.n ==> x.d == m.d
    requires m.PrePrepareMsg? && m.v == r.view ==> Primary(cfg, r.view) == m.sender
    ensures Delivered(Receives(m), sent) && (Enabled(cfg, i, r, Receives(m), now) <==> Timely(r, m))
  {
    hide H, Primary;
    if m.ViewChangeMsg? {
      assert CorrectViewChange(m.vc) <==> AtNext(m.vc);
    }
  }

  // A replica can receive exactly the timely messages of a correct replica, whatever it has logged before
  // and whatever the faulty ones have sent.
  lemma TimelyReceived(cl: Cluster, run: seq<System>, events: seq<Event>, k: nat, i: nat, m: Msg)
    requires ValidCluster(cl) && IsRun(cl, run, events) && k < |run| && Correct(cl, i)
    requires m in run[k].sent && Correct(cl, Sender(m)) && Sender(m) != i
    ensures Delivered(Receives(m), run[k].sent)
    ensures Enabled(cl.cfg, i, run[k].replicas[i], Receives(m), run[k].clock) <==> Timely(run[k].replicas[i], m)
  {
    RunSize(cl, run, events, k);
    InvRun(cl, run, events, k);
    SenderKnows(cl, run[k], i, m);
    if m.PrePrepareMsg? {
      SameProposal(cl, run[k], i, m.v, m.n, m.d, m.b, m.sender);
    }
    HasCheckpoint(cl, run, events, k, i);
    hide IsRun, Inv, ValidCluster, Timely, Enabled, Receives, Delivered, Primary;
    TimelyEnabled(cl.cfg, i, run[k].replicas[i], m, run[k].clock, run[k].sent);
  }

  ghost predicate OthersAtNext(i: nat, r: Replica) {
    forall vc :: vc in r.viewChanges && vc.sender != i ==> AtNext(vc)
  }

  lemma OthersStep(cfg: Config, i: nat, r: Replica, a: Action, now: real)
    requires OthersAtNext(i, r) && Enabled(cfg, i, r, a, now)
    ensures OthersAtNext(i, Apply(cfg, i, r, a))
  {
  }

  lemma OthersNext(cl: Cluster, s: System, e: Event, s': System, i: nat)
    requires Next(cl, s, e, s') && i < |s.replicas| && OthersAtNext(i, s.replicas[i])
    ensures i < |s'.replicas| && OthersAtNext(i, s'.replicas[i])
  {
    hide Enabled, Apply, Emit, OthersAtNext;
    if e.Act? && e.i == i {
      OthersStep(cl.cfg, i, s.replicas[i], e.a, s.clock);
    }
  }

  lemma OthersInit(cl: Cluster, s: System, i: nat)
    requires Init(cl, s) && Correct(cl, i)
    ensures i < |s.replicas| && OthersAtNext(i, s.replicas[i])
  {
  }

  // In every state of every run, whatever faulty replicas send, each VIEW-CHANGE a correct replica has
  // logged of another has entries only of views before its own and at Hi + 1.
  lemma {:induction false} LoggedViewChanges(cl: Cluster, run: seq<System>, events: seq<Event>, k: nat, i: nat)
    requires ValidCluster(cl) && IsRun(cl, run, events) && k < |run| && Correct(cl, i)
    ensures i < |run[k].replicas|
    ensures OthersAtNext(i, run[k].replicas[i])
  {
    hide *;
    if k == 0 {
      RunStart(cl, run, events);
      OthersInit(cl, run[0], i);
    } else {
      LoggedViewChanges(cl, run, events, k - 1, i);
      RunStep(cl, run, events, k);
      OthersNext(cl, run[k - 1], events[k - 1], run[k], i);
    }
  }

  // No message is sent twice: what SEND_PRE_PREPARE, SEND_PREPARE, SEND_COMMIT and SEND_NEW_VIEW did is
  // not enabled again.
  lemma NotTwice(cfg: Config, i: nat, r: Replica, a: Action, now: real, later: real)
    requires Enabled(cfg, i, r, a, now)
    requires a.SendPrePrepareA? || a.SendPrepareA? || a.SendCommitA? || a.SendNewViewA?
    ensures !Enabled(cfg, i, Apply(cfg, i, r, a), a, later)
  {
  }
}
