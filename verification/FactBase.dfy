// What every action keeps true of one replica's fact base, whatever it receives.
module FactBase {
  import opened Types
  import opened Engine
  import opened System
  import opened Chi

  ghost predicate OneCheckpoint(r: Replica) {
    exists c :: r.checkpoints == {c}
  }

  // Every logged PRE-PREPARE is of the current view, above h and from the primary; one digest per
  // slot. Beyond h + 1 there are only entries taken from a NEW-VIEW.
  ghost predicate PrePrepareLog(cfg: Config, r: Replica) {
    && (forall m :: m in r.prePrepares ==> m.sig == InNewView || m.n == H(r) + 1)
    && (forall m :: m in r.prePrepares ==> m.v == r.view && m.n > H(r) && m.sender == Primary(cfg, r.view))
    && (forall m, k :: m in r.prePrepares && k in r.prePrepares && m.n == k.n ==> m.d == k.d)
    && (!r.active ==> r.prePrepares == {} && r.view > 0)
  }

  ghost predicate HasPrePrepare(r: Replica, n: nat, d: Digest) {
    exists m :: m in r.prePrepares && m.n == n && m.d == d
  }

  ghost predicate PrepareLog(cfg: Config, i: nat, r: Replica) {
    forall m :: m in r.prepares ==>
      && m.v == r.view && m.n > H(r) && m.sender != Primary(cfg, r.view)
      && m.sig == (if m.sender == i then Own else Wire)
      && (if m.sender == i then HasPrePrepare(r, m.n, m.d) else m.n == H(r) + 1)
  }

  ghost predicate CommitLog(i: nat, r: Replica) {
    forall m :: m in r.commits ==>
      m.v == r.view && m.n == H(r) + 1 && m.sig == (if m.sender == i then Own else Wire)
  }

  ghost predicate ViewLogs(r: Replica) {
    && (forall m :: m in r.viewChanges ==> m.v >= r.view)
    && (forall m, k :: m in r.viewChanges && k in r.viewChanges && m.v == k.v && m.sender == k.sender ==> m == k)
    && (forall m :: m in r.newViews ==> m.v <= r.view)
    && (forall e :: e in r.pi ==> e.v < r.view && e.d != Null)
    && (forall e :: e in r.qi ==> e.v < r.view && e.d != Null)
    && (forall e, k :: e in r.qi && k in r.qi && e.n == k.n && e.v == k.v ==> e.d == k.d)
  }

  ghost predicate Scalars(cfg: Config, i: nat, r: Replica) {
    && r.timeout == Timeout(cfg, r.view)
    && (Primary(cfg, r.view) == i ==> forall m :: m in r.prePrepares ==> m.n <= r.seqno)
    && (forall m :: m in r.requests ==> m.d != Null)
  }

  ghost predicate Local(cfg: Config, i: nat, r: Replica) {
    && OneCheckpoint(r)
    && PrePrepareLog(cfg, r)
    && PrepareLog(cfg, i, r)
    && CommitLog(i, r)
    && ViewLogs(r)
    && Scalars(cfg, i, r)
  }

  lemma HOfOne(r: Replica, c: Checkpoint)
    requires r.checkpoints == {c}
    ensures H(r) == c.n
  {
    LowestExists(r.checkpoints);
    assert IsLowest(r.checkpoints, c);
  }

  lemma LocalInitial(cfg: Config, i: nat, h: nat, hash: int, t: real)
    ensures Local(cfg, i, Initial(cfg, h, hash, t))
  {
  }

  // A step that leaves view, checkpoints, requests and the protocol logs alone, or only adds requests.
  lemma LocalFrame(cfg: Config, i: nat, r: Replica, s: Replica)
    requires Local(cfg, i, r)
    requires s.view == r.view && s.active == r.active && s.timeout == r.timeout
    requires s.checkpoints == r.checkpoints && s.pi == r.pi && s.qi == r.qi
    requires s.prePrepares == r.prePrepares && s.prepares == r.prepares && s.commits == r.commits
    requires ViewLogs(s)
    requires s.seqno == r.seqno
    requires forall m :: m in s.requests ==> m in r.requests || m.d != Null
    ensures Local(cfg, i, s)
  {
    SameH(r, s);
    forall p | p in s.prepares && p.sender == i ensures HasPrePrepare(s, p.n, p.d) {
      assert HasPrePrepare(r, p.n, p.d);
    }
  }

  lemma LocalPrePrepare(cfg: Config, i: nat, r: Replica, s: Replica, m: PrePrepare)
    requires Local(cfg, i, r)
    requires s == r.(prePrepares := r.prePrepares + {m}, seqno := s.seqno)
    requires Primary(cfg, r.view) == i ==> s.seqno >= r.seqno && m.n <= s.seqno
    requires r.active && m.v == r.view && m.sender == Primary(cfg, r.view) && m.n == H(r) + 1
    requires forall k :: k in r.prePrepares && k.n == m.n ==> k.d == m.d
    ensures Local(cfg, i, s)
  {
    SameH(r, s);
    forall p | p in s.prepares && p.sender == i ensures HasPrePrepare(s, p.n, p.d) {
      assert HasPrePrepare(r, p.n, p.d);
    }
  }

  lemma LocalPrepare(cfg: Config, i: nat, r: Replica, m: Prepare)
    requires Local(cfg, i, r)
    requires m.v == r.view && m.n > H(r) && m.sender != Primary(cfg, r.view)
    requires m.sig == (if m.sender == i then Own else Wire)
    requires if m.sender == i then HasPrePrepare(r, m.n, m.d) else m.n == H(r) + 1
    ensures Local(cfg, i, r.(prepares := r.prepares + {m}))
  {
    var s := r.(prepares := r.prepares + {m});
    SameH(r, s);
    forall p | p in s.prepares && p.sender == i ensures HasPrePrepare(s, p.n, p.d) {
      assert HasPrePrepare(r, p.n, p.d);
    }
  }

  lemma LocalCommit(cfg: Config, i: nat, r: Replica, m: Commit)
    requires Local(cfg, i, r)
    requires m.v == r.view && m.n == H(r) + 1 && m.sig == (if m.sender == i then Own else Wire)
    ensures Local(cfg, i, r.(commits := r.commits + {m}))
  {
    var s := r.(commits := r.commits + {m});
    SameH(r, s);
    assert forall p :: p in s.prepares && p.sender == i ==> (HasPrePrepare(r, p.n, p.d) ==> HasPrePrepare(s, p.n, p.d));
  }

  // Entering a higher view empties the protocol logs.
  lemma LocalNewView(cfg: Config, i: nat, r: Replica, s: Replica, v: nat)
    requires Local(cfg, i, r) && v > r.view
    requires s.view == v && s.timeout == Timeout(cfg, v) && s.checkpoints == r.checkpoints
    requires s.requests == r.requests
    requires forall m :: m in s.prePrepares ==> m in r.prePrepares && m.v >= v
    requires forall m :: m in s.prepares ==> m in r.prepares && m.v >= v
    requires forall m :: m in s.commits ==> m in r.commits && m.v >= v
    requires ViewLogs(s)
    ensures Local(cfg, i, s)
    ensures s.prePrepares == {} && s.prepares == {} && s.commits == {}
  {
    SameH(r, s);
  }

  lemma BlockH(r: Replica, d: Digest, height: nat, t: real, hash: int)
    requires OneCheckpoint(r) && height > H(r)
    ensures ReceiveBlock(r, d, height, t, hash).checkpoints == {Checkpoint(height, hash, t)}
    ensures H(ReceiveBlock(r, d, height, t, hash)) == height
  {
    var c :| r.checkpoints == {c};
    HOfOne(r, c);
    var s := ReceiveBlock(r, d, height, t, hash);
    assert s.checkpoints == {Checkpoint(height, hash, t)};
    HOfOne(s, Checkpoint(height, hash, t));
  }

  lemma LocalBlock(cfg: Config, i: nat, r: Replica, d: Digest, height: nat, t: real, hash: int)
    requires Local(cfg, i, r) && height > H(r)
    ensures Local(cfg, i, ReceiveBlock(r, d, height, t, hash))
  {
    var s := ReceiveBlock(r, d, height, t, hash);
    BlockH(r, d, height, t, hash);
    forall p | p in s.prepares && p.sender == i ensures HasPrePrepare(s, p.n, p.d) {
      assert HasPrePrepare(r, p.n, p.d);
    }
  }

  // PROCESS_NEW_VIEW logs one PRE-PREPARE, and on a backup one PREPARE, per entry of Chi.
  lemma LocalProcess(cfg: Config, i: nat, r: Replica, nu: seq<NuEntry>, chi: seq<ChiEntry>)
    requires Local(cfg, i, r) && PreProcessNewView(cfg, r, nu, chi)
    ensures Local(cfg, i, ProcessNewView(cfg, i, r, chi))
    ensures H(ProcessNewView(cfg, i, r, chi)) == H(r)
    ensures forall e :: e in chi ==> e.n <= ProcessNewView(cfg, i, r, chi).seqno
  {
    var s := ProcessNewView(cfg, i, r, chi);
    SameH(r, s);
    ChiOnePerNumber(NuMsgs(cfg, r.viewChanges, nu), chi);
    var r1 := r.(active := true, prePrepares := r.prePrepares + ChiPrePrepares(cfg, r.view, chi));
    assert IsTopSeqno(r1, s.seqno);
    forall e | e in chi ensures e.n <= s.seqno {
      assert PrePrepare(r.view, e.n, e.d, e.b, Primary(cfg, r.view), InNewView) in r1.prePrepares;
    }
    forall p | p in s.prepares && p.sender == i ensures HasPrePrepare(s, p.n, p.d) {
      assert !HasPrePrepare(r, p.n, p.d);
      var e :| e in chi && p == Prepare(r.view, e.n, e.d, i, Own);
      assert PrePrepare(r.view, e.n, e.d, e.b, Primary(cfg, r.view), InNewView) in s.prePrepares;
    }
  }

  lemma LocalSendViewChange(cfg: Config, i: nat, r: Replica, c: int, p: seq<PEntry>, q: seq<QEntry>)
    requires Local(cfg, i, r)
    requires forall m :: m in r.viewChanges && m.sender == i ==> m.v <= r.view
    ensures Local(cfg, i, SendViewChange(cfg, i, r, c, p, q))
  {
    var s := SendViewChange(cfg, i, r, c, p, q);
    forall e | e in s.pi ensures e.v < s.view && e.d != Null {
      assert PrePrepared(cfg, r, e.d, e.v, e.n);
    }
    assert ViewLogs(s);
    LocalNewView(cfg, i, r, s, r.view + 1);
  }

  predicate IsLogging(a: Action) {
    a.SendPrePrepareA? || a.ReceivePrePrepareA? || a.SendPrepareA? || a.ReceivePrepareA?
    || a.SendCommitA? || a.ReceiveCommitA?
  }

  lemma LocalLogging(cfg: Config, i: nat, r: Replica, a: Action, now: real)
    requires Local(cfg, i, r) && Enabled(cfg, i, r, a, now) && IsLogging(a)
    ensures Local(cfg, i, Apply(cfg, i, r, a))
  {
    var s := Apply(cfg, i, r, a);
    match a {
      case SendPrePrepareA(d, b, n) => LocalPrePrepare(cfg, i, r, s, PrePrepare(r.view, n, d, b, i, Own));
      case ReceivePrePrepareA(v, n, d, b, sender) => LocalPrePrepare(cfg, i, r, s, PrePrepare(v, n, d, b, sender, Wire));
      case SendPrepareA(d, n) =>
        assert HasPrePrepare(r, n, d);
        LocalPrepare(cfg, i, r, Prepare(r.view, n, d, i, Own));
      case ReceivePrepareA(v, n, d, sender) => LocalPrepare(cfg, i, r, Prepare(v, n, d, sender, Wire));
      case SendCommitA(d, n, data) => LocalCommit(cfg, i, r, Commit(r.view, n, data, i, Own));
      case ReceiveCommitA(v, n, data, sender) =>
        if InW(r, n) && v == r.view {
          LocalCommit(cfg, i, r, Commit(v, n, data, sender, Wire));
        } else {
          LocalFrame(cfg, i, r, s);
        }
    }
  }

  predicate IsPlain(a: Action) {
    a.ReceiveRequestA? || a.ExecuteA? || IsViewLogging(a)
  }

  predicate IsViewLogging(a: Action) {
    a.ReceiveViewChangeA? || a.SendNewViewA? || a.ReceiveNewViewA?
  }

  lemma ViewLogging(cfg: Config, i: nat, r: Replica, a: Action, now: real)
    requires ViewLogs(r) && Enabled(cfg, i, r, a, now) && IsViewLogging(a)
    ensures ViewLogs(Apply(cfg, i, r, a))
  {
  }

  lemma LocalPlain(cfg: Config, i: nat, r: Replica, a: Action, now: real)
    requires Local(cfg, i, r) && Enabled(cfg, i, r, a, now) && IsPlain(a)
    ensures Local(cfg, i, Apply(cfg, i, r, a))
  {
    if IsViewLogging(a) {
      ViewLogging(cfg, i, r, a, now);
    }
    LocalFrame(cfg, i, r, Apply(cfg, i, r, a));
  }

  // No action but RECEIVE_BLOCK moves the window.
  lemma OnlyBlocksMoveWindow(cfg: Config, i: nat, r: Replica, a: Action)
    requires !a.ReceiveBlockA?
    ensures H(Apply(cfg, i, r, a)) == H(r)
  {
    SameH(r, Apply(cfg, i, r, a));
  }

  // Every enabled action keeps the local invariant.
  lemma LocalStep(cfg: Config, i: nat, r: Replica, a: Action, now: real)
    requires Local(cfg, i, r) && Enabled(cfg, i, r, a, now)
    requires forall m :: m in r.viewChanges && m.sender == i ==> m.v <= r.view
    ensures Local(cfg, i, Apply(cfg, i, r, a))
  {
    if IsLogging(a) {
      LocalLogging(cfg, i, r, a, now);
    } else if IsPlain(a) {
      LocalPlain(cfg, i, r, a, now);
    } else if a.ReceiveBlockA? {
      LocalBlock(cfg, i, r, a.d, a.n, a.t, a.val);
    } else if a.RecoverViewA? {
      LocalNewView(cfg, i, r, RecoverView(cfg, r, a.v), a.v);
    } else if a.SendViewChangeA? {
      LocalSendViewChange(cfg, i, r, a.c, a.p, a.q);
    } else {
      LocalProcess(cfg, i, r, a.nu, a.chi);
    }
  }
}
