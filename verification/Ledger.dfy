// How a correct replica's state relates to the messages on the network: what it has itself sent,
// and where the facts in its log came from.
module Ledger {
  import opened Types
  import opened Quorums
  import opened Engine
  import opened System
  import opened FactBase

  // ---------- certificates ----------

  ghost predicate InNewViewOf(sent: set<Msg>, p: nat, v: nat, e: ChiEntry) {
    exists nu, chi :: NewViewMsg(v, nu, chi, p) in sent && e in chi
  }

  // The primary of v proposed [n, d, b]: by a PRE-PREPARE, or in the Chi of its NEW-VIEW.
  ghost predicate Issued(cfg: Config, sent: set<Msg>, v: nat, n: nat, d: Digest, b: Block) {
    || PrePrepareMsg(v, n, d, b, Primary(cfg, v)) in sent
    || (v > 0 && InNewViewOf(sent, Primary(cfg, v), v, ChiEntry(n, d, b)))
  }

  // The backups that sent PREPARE for d at (v, n).
  function Voters(cfg: Config, sent: set<Msg>, v: nat, n: nat, d: Digest): set<nat> {
    set k | k in Ids(cfg.size) && k != Primary(cfg, v) && PrepareMsg(v, n, d, k) in sent
  }

  ghost predicate AnyIssued(cfg: Config, sent: set<Msg>, v: nat, n: nat, d: Digest) {
    exists b :: Issued(cfg, sent, v, n, d, b)
  }

  // A prepared certificate exists on the network.
  ghost predicate Cert(cfg: Config, sent: set<Msg>, v: nat, n: nat, d: Digest) {
    |Voters(cfg, sent, v, n, d)| >= 2 * F(cfg) && AnyIssued(cfg, sent, v, n, d)
  }

  lemma IssuedGrows(cfg: Config, sent: set<Msg>, more: set<Msg>, v: nat, n: nat, d: Digest, b: Block)
    requires sent <= more && Issued(cfg, sent, v, n, d, b)
    ensures Issued(cfg, more, v, n, d, b)
  {
  }

  lemma CertGrows(cfg: Config, sent: set<Msg>, more: set<Msg>, v: nat, n: nat, d: Digest)
    requires sent <= more && Cert(cfg, sent, v, n, d)
    ensures Cert(cfg, more, v, n, d)
  {
    SubsetCard(Voters(cfg, sent, v, n, d), Voters(cfg, more, v, n, d));
    var b :| Issued(cfg, sent, v, n, d, b);
    IssuedGrows(cfg, sent, more, v, n, d, b);
  }

  // ---------- what replica i has sent ----------

  ghost predicate SentPrePrepares(cfg: Config, i: nat, r: Replica, sent: set<Msg>) {
    forall v: nat, n: nat, d, b :: PrePrepareMsg(v, n, d, b, i) in sent ==>
      && d != Null && Primary(cfg, v) == i && v <= r.view
      && (v == r.view ==> r.active && n <= r.seqno)
  }

  ghost predicate SentPrepares(cfg: Config, i: nat, r: Replica, sent: set<Msg>) {
    forall v: nat, n: nat, d :: PrepareMsg(v, n, d, i) in sent ==>
      && Primary(cfg, v) != i && v <= r.view
      && (v == r.view ==> r.active && (n <= H(r) || Prepare(v, n, d, i, Own) in r.prepares))
  }

  ghost predicate SentCommits(i: nat, r: Replica, sent: set<Msg>) {
    forall v: nat, n: nat, data :: CommitMsg(v, n, data, i) in sent ==>
      && v <= r.view
      && (v == r.view ==> n <= H(r) || Commit(v, n, data, i, Own) in r.commits)
  }

  ghost predicate SentViewChanges(i: nat, r: Replica, sent: set<Msg>) {
    forall vc :: ViewChangeMsg(vc) in sent && vc.sender == i ==>
      0 < vc.v <= r.view && (vc.v == r.view ==> vc in r.viewChanges)
  }

  ghost predicate SentNewViews(cfg: Config, i: nat, r: Replica, sent: set<Msg>) {
    forall v: nat, nu, chi :: NewViewMsg(v, nu, chi, i) in sent ==>
      && Primary(cfg, v) == i && v <= r.view
      && (v == r.view ==> NewView(v, nu, chi) in r.newViews)
  }

  predicate UpTo(chi: seq<ChiEntry>, n: nat) {
    forall e :: e in chi ==> e.n <= n
  }

  // The active primary of a view v > 0 is past everything its NEW-VIEW proposed.
  ghost predicate PastChi(cfg: Config, i: nat, r: Replica, sent: set<Msg>) {
    r.active && r.view > 0 && Primary(cfg, r.view) == i ==>
      exists nu, chi :: NewViewMsg(r.view, nu, chi, i) in sent && UpTo(chi, r.seqno)
  }

  // At most one PREPARE of i per (v, n), and likewise for the other messages.
  ghost predicate OnePrepare(i: nat, sent: set<Msg>) {
    forall v: nat, n: nat, d, d' :: PrepareMsg(v, n, d, i) in sent && PrepareMsg(v, n, d', i) in sent ==> d == d'
  }

  ghost predicate OneCommit(i: nat, sent: set<Msg>) {
    forall v: nat, n: nat, x, y :: CommitMsg(v, n, x, i) in sent && CommitMsg(v, n, y, i) in sent ==> x == y
  }

  ghost predicate OnePrePrepare(i: nat, sent: set<Msg>) {
    forall v: nat, n: nat, d, b, d', b' ::
      PrePrepareMsg(v, n, d, b, i) in sent && PrePrepareMsg(v, n, d', b', i) in sent ==> d == d' && b == b'
  }

  ghost predicate OneViewChange(i: nat, sent: set<Msg>) {
    forall x, y :: ViewChangeMsg(x) in sent && ViewChangeMsg(y) in sent ==>
      x.sender == i == y.sender && x.v == y.v ==> x == y
  }

  ghost predicate OneNewView(i: nat, sent: set<Msg>) {
    forall v: nat, nu, chi, nu', chi' ::
      NewViewMsg(v, nu, chi, i) in sent && NewViewMsg(v, nu', chi', i) in sent ==> nu == nu' && chi == chi'
  }

  predicate Below(chi: seq<ChiEntry>, n: nat) {
    forall e :: e in chi ==> e.n < n
  }

  predicate OnePerNumber(chi: seq<ChiEntry>) {
    forall e, f :: e in chi && f in chi && e.n == f.n ==> e == f
  }

  // The Chi of the NEW-VIEW for v > 0 and the PRE-PREPAREs sent in v occupy different slots.
  ghost predicate ChiBeforePrePrepares(i: nat, sent: set<Msg>) {
    && (forall v: nat, nu, chi :: NewViewMsg(v, nu, chi, i) in sent ==> OnePerNumber(chi))
    && (forall v: nat, nu, chi, n: nat, d, b ::
          NewViewMsg(v, nu, chi, i) in sent && PrePrepareMsg(v, n, d, b, i) in sent && v > 0 ==> Below(chi, n))
  }

  ghost predicate Bounded(cfg: Config, i: nat, r: Replica, sent: set<Msg>) {
    && SentPrePrepares(cfg, i, r, sent)
    && SentPrepares(cfg, i, r, sent)
    && SentCommits(i, r, sent)
    && SentViewChanges(i, r, sent)
    && SentNewViews(cfg, i, r, sent)
    && PastChi(cfg, i, r, sent)
  }

  ghost predicate OnePerSlot(i: nat, sent: set<Msg>) {
    && OnePrepare(i, sent)
    && OneCommit(i, sent)
    && OnePrePrepare(i, sent)
    && OneViewChange(i, sent)
    && OneNewView(i, sent)
    && ChiBeforePrePrepares(i, sent)
  }

  ghost predicate Sends(cfg: Config, i: nat, r: Replica, sent: set<Msg>) {
    Bounded(cfg, i, r, sent) && OnePerSlot(i, sent)
  }

  // ---------- where the log of replica i came from ----------

  ghost predicate LogSources(cfg: Config, r: Replica, sent: set<Msg>) {
    && (forall m :: m in r.prePrepares ==> Issued(cfg, sent, m.v, m.n, m.d, m.b))
    && (forall m :: m in r.prepares ==> PrepareMsg(m.v, m.n, m.d, m.sender) in sent)
    && (forall m :: m in r.commits ==> CommitMsg(m.v, m.n, m.data, m.sender) in sent)
    && (forall m :: m in r.recovery ==> exists data :: CommitMsg(m.v, m.n, data, m.sender) in sent)
  }

  ghost predicate ViewSources(cfg: Config, r: Replica, sent: set<Msg>) {
    && (forall m :: m in r.viewChanges ==> ViewChangeMsg(m) in sent)
    && (forall m :: m in r.newViews ==> NewViewMsg(m.v, m.nu, m.chi, Primary(cfg, m.v)) in sent)
    && (forall e :: e in r.pi ==> Cert(cfg, sent, e.v, e.n, e.d))
    && (forall e :: e in r.qi ==> Issued(cfg, sent, e.v, e.n, e.d, e.b))
  }

  ghost predicate Sources(cfg: Config, r: Replica, sent: set<Msg>) {
    LogSources(cfg, r, sent) && ViewSources(cfg, r, sent)
  }

  ghost predicate Members(cfg: Config, sent: set<Msg>) {
    forall m :: m in sent ==> Sender(m) < cfg.size
  }

  // The invariant of one correct replica against the network.
  ghost predicate Good(cfg: Config, i: nat, r: Replica, sent: set<Msg>) {
    Local(cfg, i, r) && Sends(cfg, i, r, sent) && Sources(cfg, r, sent)
  }

  // ---------- a prepared certificate in a log is one on the network ----------

  lemma PrepareFactsVoters(cfg: Config, i: nat, r: Replica, sent: set<Msg>, d: Digest, v: nat, n: nat)
    requires PrepareLog(cfg, i, r) && LogSources(cfg, r, sent) && Members(cfg, sent)
    ensures |PrepareFacts(r, d, v, n)| <= |Voters(cfg, sent, v, n, d)|
  {
    var facts := PrepareFacts(r, d, v, n);
    var sender := (p: Prepare) => p.sender;
    forall x, y | x in facts && y in facts && sender(x) == sender(y) ensures x == y {
    }
    InjectiveImage(facts, sender);
    var senders := Image(facts, sender);
    forall k | k in senders ensures k in Voters(cfg, sent, v, n, d) {
      var p :| p in facts && sender(p) == k;
      assert PrepareMsg(v, n, d, k) in sent;
      assert Sender(PrepareMsg(v, n, d, k)) < cfg.size;
    }
    SubsetCard(senders, Voters(cfg, sent, v, n, d));
  }

  lemma PreparedInLogIsCert(cfg: Config, i: nat, r: Replica, sent: set<Msg>, d: Digest, v: nat, n: nat)
    requires Local(cfg, i, r) && Sources(cfg, r, sent) && Members(cfg, sent)
    requires PreparedInLog(cfg, r, d, v, n)
    ensures Cert(cfg, sent, v, n, d) && d != Null && v <= r.view
  {
    PrepareFactsVoters(cfg, i, r, sent, d, v, n);
    if exists b :: QEntry(n, d, b, v) in r.qi {
      var b :| QEntry(n, d, b, v) in r.qi;
      assert Issued(cfg, sent, v, n, d, b);
    } else {
      var b, sig :| PrePrepare(v, n, d, b, Primary(cfg, v), sig) in r.prePrepares;
      assert Issued(cfg, sent, v, n, d, b);
    }
  }

  lemma PreparedIsCert(cfg: Config, i: nat, r: Replica, sent: set<Msg>, d: Digest, v: nat, n: nat)
    requires Local(cfg, i, r) && Sources(cfg, r, sent) && Members(cfg, sent)
    requires Prepared(cfg, r, d, v, n)
    ensures Cert(cfg, sent, v, n, d) && d != Null && v <= r.view
  {
    if PreparedInLog(cfg, r, d, v, n) {
      PreparedInLogIsCert(cfg, i, r, sent, d, v, n);
    }
  }

  // ---------- preservation ----------

  lemma SourcesGrow(cfg: Config, r: Replica, sent: set<Msg>, more: set<Msg>)
    requires Sources(cfg, r, sent) && sent <= more
    ensures Sources(cfg, r, more)
  {
    forall e | e in r.pi ensures Cert(cfg, more, e.v, e.n, e.d) {
      CertGrows(cfg, sent, more, e.v, e.n, e.d);
    }
  }

  // Messages of other senders do not matter to what i has sent.
  lemma SendsOthers(cfg: Config, i: nat, r: Replica, sent: set<Msg>, more: set<Msg>)
    requires Sends(cfg, i, r, sent) && sent <= more
    requires forall m :: m in more && m !in sent ==> Sender(m) != i
    ensures Sends(cfg, i, r, more)
  {
    assert forall v: nat, n: nat, d, b :: PrePrepareMsg(v, n, d, b, i) in more ==> PrePrepareMsg(v, n, d, b, i) in sent;
    assert forall v: nat, n: nat, d :: PrepareMsg(v, n, d, i) in more ==> PrepareMsg(v, n, d, i) in sent;
    assert forall v: nat, n: nat, x :: CommitMsg(v, n, x, i) in more ==> CommitMsg(v, n, x, i) in sent;
    assert forall vc :: ViewChangeMsg(vc) in more && vc.sender == i ==> ViewChangeMsg(vc) in sent;
    assert forall v: nat, nu, chi :: NewViewMsg(v, nu, chi, i) in more ==> NewViewMsg(v, nu, chi, i) in sent;
  }

  lemma GoodOthers(cfg: Config, i: nat, r: Replica, sent: set<Msg>, more: set<Msg>)
    requires Good(cfg, i, r, sent) && sent <= more
    requires forall m :: m in more && m !in sent ==> Sender(m) != i
    ensures Good(cfg, i, r, more)
  {
    SourcesGrow(cfg, r, sent, more);
    SendsOthers(cfg, i, r, sent, more);
  }

  // A step within the view that sends nothing and forgets nothing above its h.
  lemma BoundedFrame(cfg: Config, i: nat, r: Replica, s: Replica, sent: set<Msg>)
    requires Bounded(cfg, i, r, sent)
    requires s.view == r.view && s.active == r.active && s.seqno >= r.seqno && H(s) >= H(r)
    requires forall m :: m in r.prepares ==> m in s.prepares || m.n <= H(s)
    requires forall m :: m in r.commits ==> m in s.commits || m.n <= H(s)
    requires r.viewChanges <= s.viewChanges && r.newViews <= s.newViews
    ensures Bounded(cfg, i, s, sent)
  {
    if s.active && s.view > 0 && Primary(cfg, s.view) == i {
      var nu, chi :| NewViewMsg(r.view, nu, chi, i) in sent && UpTo(chi, r.seqno);
      assert NewViewMsg(s.view, nu, chi, i) in sent && UpTo(chi, s.seqno);
    }
  }

  // Entering a higher view without sending anything.
  lemma BoundedHigherView(cfg: Config, i: nat, r: Replica, s: Replica, sent: set<Msg>)
    requires Bounded(cfg, i, r, sent)
    requires s.view > r.view && (s.active ==> Primary(cfg, s.view) != i)
    ensures Bounded(cfg, i, s, sent)
  {
  }

  // A new PRE-PREPARE is in a slot past the Chi of its view.
  lemma ProposalPastChi(cfg: Config, i: nat, r: Replica, sent: set<Msg>, n: nat)
    requires OneNewView(i, sent) && PastChi(cfg, i, r, sent)
    requires r.active && r.view > 0 && Primary(cfg, r.view) == i && n == r.seqno + 1
    ensures exists nu, chi :: NewViewMsg(r.view, nu, chi, i) in sent && UpTo(chi, n)
    ensures forall nu, chi :: NewViewMsg(r.view, nu, chi, i) in sent ==> Below(chi, n)
  {
    var nu, chi :| NewViewMsg(r.view, nu, chi, i) in sent && UpTo(chi, r.seqno);
    assert UpTo(chi, n);
    forall nu', chi' | NewViewMsg(r.view, nu', chi', i) in sent ensures Below(chi', n) {
      assert chi' == chi;
    }
  }

  lemma BoundedAddPrePrepare(cfg: Config, i: nat, r: Replica, sent: set<Msg>, d: Digest, b: Block, n: nat)
    requires Bounded(cfg, i, r, sent) && OneNewView(i, sent) && OneCheckpoint(r) && d != Null
    requires r.active && Primary(cfg, r.view) == i && n == r.seqno + 1
    ensures Bounded(cfg, i, SendPrePrepare(i, r, d, b, n), sent + {PrePrepareMsg(r.view, n, d, b, i)})
  {
    var s := SendPrePrepare(i, r, d, b, n);
    var more := sent + {PrePrepareMsg(r.view, n, d, b, i)};
    SameH(r, s);
    BoundedFrame(cfg, i, r, s, sent);
    if r.view > 0 {
      ProposalPastChi(cfg, i, r, sent, n);
      var nu, chi :| NewViewMsg(r.view, nu, chi, i) in sent && UpTo(chi, n);
      assert NewViewMsg(s.view, nu, chi, i) in more && UpTo(chi, s.seqno);
    }
  }

  lemma SendsAddPrePrepare(cfg: Config, i: nat, r: Replica, sent: set<Msg>, d: Digest, b: Block, n: nat)
    requires Sends(cfg, i, r, sent) && OneCheckpoint(r) && d != Null
    requires r.active && Primary(cfg, r.view) == i && n == r.seqno + 1
    ensures Sends(cfg, i, SendPrePrepare(i, r, d, b, n), sent + {PrePrepareMsg(r.view, n, d, b, i)})
  {
    var more := sent + {PrePrepareMsg(r.view, n, d, b, i)};
    BoundedAddPrePrepare(cfg, i, r, sent, d, b, n);
    if r.view > 0 {
      ProposalPastChi(cfg, i, r, sent, n);
    }
    assert OnePrePrepare(i, more);
    assert ChiBeforePrePrepares(i, more);
  }

  lemma SendsAddPrepare(cfg: Config, i: nat, r: Replica, sent: set<Msg>, d: Digest, n: nat)
    requires Sends(cfg, i, r, sent) && OneCheckpoint(r) && PrePrepareLog(cfg, r) && PrepareLog(cfg, i, r)
    requires Primary(cfg, r.view) != i && n > H(r) && HasPrePrepare(r, n, d)
    ensures Sends(cfg, i, SendPrepare(i, r, d, n), sent + {PrepareMsg(r.view, n, d, i)})
  {
    var s := SendPrepare(i, r, d, n);
    var more := sent + {PrepareMsg(r.view, n, d, i)};
    SameH(r, s);
    BoundedFrame(cfg, i, r, s, sent);
    forall d' | PrepareMsg(r.view, n, d', i) in sent ensures d' == d {
      assert Prepare(r.view, n, d', i, Own) in r.prepares;
      assert HasPrePrepare(r, n, d');
    }
    assert Bounded(cfg, i, s, more);
    assert OnePrepare(i, more);
  }

  lemma SendsAddCommit(cfg: Config, i: nat, r: Replica, sent: set<Msg>, n: nat, data: int)
    requires Sends(cfg, i, r, sent) && OneCheckpoint(r)
    requires n > H(r) && !(exists m :: m in r.commits && m.v == r.view && m.n == n && m.sender == i)
    ensures Sends(cfg, i, SendCommit(i, r, n, data), sent + {CommitMsg(r.view, n, data, i)})
  {
    var s := SendCommit(i, r, n, data);
    var more := sent + {CommitMsg(r.view, n, data, i)};
    SameH(r, s);
    BoundedFrame(cfg, i, r, s, sent);
    assert forall x :: CommitMsg(r.view, n, x, i) !in sent;
    assert Bounded(cfg, i, s, more);
    assert OneCommit(i, more);
  }

  lemma SendsAddViewChange(cfg: Config, i: nat, r: Replica, sent: set<Msg>, c: int, p: seq<PEntry>, q: seq<QEntry>)
    requires Sends(cfg, i, r, sent)
    ensures Sends(cfg, i, SendViewChange(cfg, i, r, c, p, q), sent + {ViewChangeMsg(OwnViewChange(i, r, c, p, q))})
  {
    var s := SendViewChange(cfg, i, r, c, p, q);
    var more := sent + {ViewChangeMsg(OwnViewChange(i, r, c, p, q))};
    BoundedHigherView(cfg, i, r, s, sent);
    assert Bounded(cfg, i, s, more);
    assert OneViewChange(i, more);
  }

  lemma SendsAddNewView(cfg: Config, i: nat, r: Replica, sent: set<Msg>, nu: seq<NuEntry>, chi: seq<ChiEntry>)
    requires Sends(cfg, i, r, sent) && OneCheckpoint(r) && OnePerNumber(chi)
    requires Primary(cfg, r.view) == i && !(exists m :: m in r.newViews && m.v == r.view)
    ensures Sends(cfg, i, AddNewView(r, r.view, nu, chi), sent + {NewViewMsg(r.view, nu, chi, i)})
  {
    var s := AddNewView(r, r.view, nu, chi);
    var more := sent + {NewViewMsg(r.view, nu, chi, i)};
    SameH(r, s);
    BoundedFrame(cfg, i, r, s, sent);
    assert forall nu', chi' :: NewViewMsg(r.view, nu', chi', i) !in sent;
    assert Bounded(cfg, i, s, more);
    assert r.view > 0 ==> forall n: nat, d, b :: PrePrepareMsg(r.view, n, d, b, i) !in sent;
    assert OneNewView(i, more);
  }

  lemma SendsProcess(cfg: Config, i: nat, r: Replica, s: Replica, sent: set<Msg>, nu: seq<NuEntry>, chi: seq<ChiEntry>)
    requires Sends(cfg, i, r, sent) && OnePerNumber(chi)
    requires !r.active && s.active && s.view == r.view && H(s) == H(r) && UpTo(chi, s.seqno)
    requires r.commits <= s.commits && r.viewChanges <= s.viewChanges && r.newViews <= s.newViews
    requires NewViewMsg(r.view, nu, chi, Primary(cfg, r.view)) in sent
    requires Primary(cfg, r.view) != i ==> ChiPrepares(r.view, chi, i) <= s.prepares
    ensures Sends(cfg, i, s, sent + (if Primary(cfg, r.view) == i then {} else ChiPrepareMsgs(r.view, chi, i)))
  {
    if Primary(cfg, r.view) == i {
      assert Bounded(cfg, i, s, sent);
      assert sent + {} == sent;
    } else {
      var more := sent + ChiPrepareMsgs(r.view, chi, i);
      forall v: nat, n: nat, d | PrepareMsg(v, n, d, i) in more && PrepareMsg(v, n, d, i) !in sent
        ensures v == r.view && Prepare(v, n, d, i, Own) in s.prepares && exists b :: ChiEntry(n, d, b) in chi
      {
        var e :| e in chi && PrepareMsg(v, n, d, i) == PrepareMsg(r.view, e.n, e.d, i);
        assert Prepare(v, e.n, e.d, i, Own) in ChiPrepares(r.view, chi, i);
        assert e == ChiEntry(n, d, e.b);
      }
      assert Bounded(cfg, i, s, more);
      forall v: nat, n: nat, d, d' | PrepareMsg(v, n, d, i) in more && PrepareMsg(v, n, d', i) in more ensures d == d' {
        assert PrepareMsg(r.view, n, d, i) !in sent && PrepareMsg(r.view, n, d', i) !in sent;
      }
    }
  }
}
