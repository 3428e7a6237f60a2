// What a commit quorum means, and that one view change keeps it. Replicas may stop, none lies.
module Safety {
  import opened Types
  import opened Quorums
  import opened Lists
  import opened Engine
  import opened System
  import opened Chi
  import opened Ledger
  import opened Agreement
  import opened ViewChanges

  // ---------- commit quorums ----------

  // A COMMIT on the network was sent by a replica that had prepared some request for the slot.
  lemma {:induction false} CommitWasPrepared(cl: Cluster, run: seq<System>, events: seq<Event>, k: nat,
                                             v: nat, n: nat, x: int, j: nat) returns (m: nat, d: Digest)
    requires ValidCluster(cl) && IsRun(cl, run, events) && k < |run|
    requires Correct(cl, j) && CommitMsg(v, n, x, j) in run[k].sent
    ensures m <= k && Prepared(cl.cfg, run[m].replicas[j], d, v, n)
  {
    hide IsRun, Next, Prepared;
    RunStart(cl, run, events);
    if k > 0 && CommitMsg(v, n, x, j) in run[k - 1].sent {
      m, d := CommitWasPrepared(cl, run, events, k - 1, v, n, x, j);
    } else {
      RunStep(cl, run, events, k);
      d := CommitSentPrepared(cl, run[k - 1], events[k - 1], run[k], v, n, x, j);
      m := k - 1;
    }
  }

  lemma CommitSentPrepared(cl: Cluster, s: System, e: Event, s': System, v: nat, n: nat, x: int, j: nat) returns (d: Digest)
    requires Next(cl, s, e, s') && Correct(cl, j) && CommitMsg(v, n, x, j) in s'.sent && CommitMsg(v, n, x, j) !in s.sent
    ensures j < |s.replicas| && Prepared(cl.cfg, s.replicas[j], d, v, n)
  {
    assert e.Act? && e.i == j && e.a.SendCommitA?;
    d := e.a.d;
  }

  // COMMITs carry data but no digest; without faults each logged one has its own sender.
  lemma CommitSenders(cl: Cluster, s: System, i: nat, v: nat, n: nat) returns (ks: set<nat>)
    requires ValidCluster(cl) && cl.faulty == {} && Inv(cl, s) && Correct(cl, i)
    ensures ks <= Ids(cl.cfg.size) && |ks| == |CommitFacts(s.replicas[i], v, n)|
    ensures forall k :: k in ks ==> exists x :: CommitMsg(v, n, x, k) in s.sent
  {
    var r := s.replicas[i];
    assert Good(cl.cfg, i, r, s.sent);
    var facts := CommitFacts(r, v, n);
    var sender := (m: Commit) => m.sender;
    forall x, y | x in facts && y in facts && sender(x) == sender(y) ensures x == y {
      assert CommitMsg(v, n, x.data, x.sender) in s.sent && CommitMsg(v, n, y.data, x.sender) in s.sent;
      assert Sender(CommitMsg(v, n, x.data, x.sender)) < cl.cfg.size;
      assert Good(cl.cfg, x.sender, s.replicas[x.sender], s.sent);
    }
    InjectiveImage(facts, sender);
    ks := Image(facts, sender);
    forall k | k in ks ensures k in Ids(cl.cfg.size) && exists x :: CommitMsg(v, n, x, k) in s.sent {
      var m :| m in facts && sender(m) == k;
      assert CommitMsg(v, n, m.data, k) in s.sent;
      assert Sender(CommitMsg(v, n, m.data, k)) < cl.cfg.size;
    }
  }

  ghost predicate PreparedBy(cl: Cluster, run: seq<System>, k: nat, j: nat, d: Digest, v: nat, n: nat)
    requires k < |run| && j < cl.cfg.size
    requires forall m :: 0 <= m < |run| ==> |run[m].replicas| == cl.cfg.size
  {
    exists m: nat :: m <= k && Prepared(cl.cfg, run[m].replicas[j], d, v, n)
  }

  // committed(d, v, n) anywhere: at least 2F + 1 replicas had prepared exactly d at (v, n).
  lemma CommittedMeansPrepared(cl: Cluster, run: seq<System>, events: seq<Event>, k: nat, i: nat,
                               d: Digest, v: nat, n: nat) returns (ks: set<nat>)
    requires ValidCluster(cl) && cl.faulty == {} && IsRun(cl, run, events) && k < |run| && Correct(cl, i)
    requires Committed(cl.cfg, run[k].replicas[i], d, v, n)
    ensures ks <= Ids(cl.cfg.size) && |ks| >= 2 * F(cl.cfg) + 1
    ensures forall j :: j in ks ==> PreparedBy(cl, run, k, j, d, v, n)
  {
    InvRun(cl, run, events, k);
    ks := CommitSenders(cl, run[k], i, v, n);
    forall j | j in ks ensures PreparedBy(cl, run, k, j, d, v, n) {
      var x :| CommitMsg(v, n, x, j) in run[k].sent;
      var m, d' := CommitWasPrepared(cl, run, events, k, v, n, x, j);
      PreparedAgree(cl, run, events, m, j, k, i, v, n, d', d);
    }
  }

  // EXECUTE fires only at last_exec + 1, on a request 2F + 1 replicas had prepared there. If that
  // request is still logged and later than last_rep, last_exec, last_rep and the state value move to it,
  // so nothing is executed at that number again; otherwise nothing changes.
  lemma ExecuteIsCertified(cl: Cluster, run: seq<System>, events: seq<Event>, k: nat) returns (ks: set<nat>)
    requires ValidCluster(cl) && cl.faulty == {} && IsRun(cl, run, events) && k < |events|
    requires events[k].Act? && events[k].a.ExecuteA? && Correct(cl, events[k].i)
    ensures var i, a := events[k].i, events[k].a;
      && a.n == run[k].replicas[i].lastExec + 1
      && ks <= Ids(cl.cfg.size) && |ks| >= 2 * F(cl.cfg) + 1
      && forall j :: j in ks ==> PreparedBy(cl, run, k, j, a.d, a.v, a.n)
    ensures var i, a := events[k].i, events[k].a;
      var r, s := run[k].replicas[i], run[k + 1].replicas[i];
      var moves := Request(a.d, a.t) in r.requests && a.t > r.lastRep;
      && (moves ==> s == r.(lastExec := a.n, lastRep := a.t, val := a.val))
      && (moves ==> forall d, t, v, fin :: !PreExecute(cl.cfg, i, s, d, t, v, a.n, fin))
      && (!moves ==> s == r)
      && (s.lastExec == a.n <==> moves)
  {
    assert Next(cl, run[k], events[k], run[k + 1]);
    ks := CommittedMeansPrepared(cl, run, events, k, events[k].i, events[k].a.d, events[k].a.v, events[k].a.n);
  }

  // ---------- one view change keeps what was committed ----------

  lemma {:induction false} MinHiBelow(msgs: seq<ViewChange>, n: nat)
    requires msgs != [] && forall vc :: vc in msgs ==> vc.hi < n
    ensures MinHi(msgs) < n
  {
    assert msgs[0] in msgs;
  }

  lemma {:induction false} MaxOfPAtLeast(p: seq<PEntry>, least: nat, e: PEntry)
    requires e in p
    ensures MaxOfP(p, least) >= e.n
  {
    if e in p[1..] {
      MaxOfPAtLeast(p[1..], least, e);
    }
  }

  lemma {:induction false} AllPHas(msgs: seq<ViewChange>, vc: ViewChange, e: PEntry)
    requires vc in msgs && e in vc.p
    ensures e in AllP(msgs)
  {
    if vc != msgs[0] {
      assert vc in msgs[1..];
      AllPHas(msgs[1..], vc, e);
    }
  }

  lemma InChiRange(msgs: seq<ViewChange>, vc: ViewChange, e: PEntry)
    requires vc in msgs && e in vc.p && forall m :: m in msgs ==> m.hi < e.n
    ensures MinHi(msgs) < e.n <= MaxS(msgs)
  {
    MinHiBelow(msgs, e.n);
    AllPHas(msgs, vc, e);
    MaxOfPAtLeast(AllP(msgs), 0, e);
  }

  // The senders of the VIEW-CHANGEs named by a Nu of one view are at least a quorum.
  lemma NuSenders(cl: Cluster, s: System, i: nat, nu: seq<NuEntry>, v: nat) returns (ks: set<nat>)
    requires ValidCluster(cl) && Inv(cl, s) && Correct(cl, i)
    requires CorrectNuAll(cl.cfg, s.replicas[i], nu)
    requires forall vc :: vc in NuMsgs(cl.cfg, s.replicas[i].viewChanges, nu) ==> vc.v == v
    ensures ks <= Ids(cl.cfg.size) && |ks| >= Quorum(cl.cfg)
    ensures forall k :: k in ks ==> exists vc :: vc in NuMsgs(cl.cfg, s.replicas[i].viewChanges, nu) && vc.sender == k
  {
    var r := s.replicas[i];
    assert Good(cl.cfg, i, r, s.sent);
    var msgs := NuMsgs(cl.cfg, r.viewChanges, nu);
    forall e | e in nu ensures exists vc :: vc in r.viewChanges && NuEntryOf(cl.cfg, vc) == e {
      assert e in Elems(nu);
    }
    NuMsgsResolve(cl.cfg, r.viewChanges, nu);
    SortedNoDup(nu);
    forall a, b | 0 <= a < b < |msgs| ensures msgs[a] != msgs[b] {
      assert NuEntryOf(cl.cfg, msgs[a]) != NuEntryOf(cl.cfg, msgs[b]);
    }
    NoDupCard(msgs);
    var sender := (vc: ViewChange) => vc.sender;
    forall x, y | x in Elems(msgs) && y in Elems(msgs) && sender(x) == sender(y) ensures x == y {
      assert x in msgs && y in msgs;
    }
    InjectiveImage(Elems(msgs), sender);
    ks := Image(Elems(msgs), sender);
    forall k | k in ks ensures k in Ids(cl.cfg.size) && exists vc :: vc in msgs && vc.sender == k {
      var vc :| vc in Elems(msgs) && sender(vc) == k;
      assert vc in msgs && ViewChangeMsg(vc) in s.sent;
      assert Sender(ViewChangeMsg(vc)) < cl.cfg.size;
    }
  }

  // The certificate carried by vk fixes what every derivation of its number yields.
  lemma DerivationFixed(cl: Cluster, s: System, vk: ViewChange, vp: ViewChange, vq: ViewChange,
                        v: nat, n: nat, d: Digest, b: Block, e: ChiEntry, w: nat)
    requires ValidCluster(cl) && cl.faulty == {} && CarryInv(cl, s)
    requires ViewChangeMsg(vk) in s.sent && ViewChangeMsg(vp) in s.sent && ViewChangeMsg(vq) in s.sent
    requires vk.v == v + 1 && vp.v == v + 1 && vq.v == v + 1
    requires PEntry(n, d, v) in vk.p && QEntry(n, d, b, v) in vk.q
    requires e.n == n && Derives(vp, vq, e, w)
    ensures e == ChiEntry(n, d, b)
  {
    forall vc | vc in {vk, vp, vq} ensures GoodViewChange(cl.cfg, s.sent, vc) && vc.sender < cl.cfg.size {
      assert Sender(ViewChangeMsg(vc)) < cl.cfg.size;
      assert Correct(cl, vc.sender);
      assert Carrying(cl.cfg, vc.sender, s.replicas[vc.sender], s.sent);
    }
    if F(cl.cfg) == 0 {
      assert Good(cl.cfg, vk.sender, s.replicas[vk.sender], s.sent);
      assert vp == vk;
      assert PEntry(n, e.d, w) == PEntry(n, d, v);
    }
    assert w == v;
    CertsAgree(cl, s, v, n, d, e.d);
    assert Correct(cl, Primary(cl.cfg, v));
    IssuedOnce(cl, s, v, n, d, b, d, e.b);
  }

  lemma NuMsgsSent(cl: Cluster, s: System, i: nat, nu: seq<NuEntry>)
    requires Inv(cl, s) && Correct(cl, i)
    ensures forall vc :: vc in NuMsgs(cl.cfg, s.replicas[i].viewChanges, nu) ==> ViewChangeMsg(vc) in s.sent
  {
    assert Good(cl.cfg, i, s.replicas[i], s.sent);
    forall vc | vc in NuMsgs(cl.cfg, s.replicas[i].viewChanges, nu) ensures ViewChangeMsg(vc) in s.sent {
      NuMsgsLogged(cl.cfg, s.replicas[i].viewChanges, nu, vc);
    }
  }

  lemma PickShared(cfg: Config, msgs: seq<ViewChange>, senders: set<nat>, quorum: set<nat>) returns (vk: ViewChange)
    requires ValidConfig(cfg) && senders <= Ids(cfg.size) && quorum <= Ids(cfg.size)
    requires |senders| >= Quorum(cfg) && |quorum| >= Quorum(cfg)
    requires forall k :: k in senders ==> exists vc :: vc in msgs && vc.sender == k
    ensures vk in msgs && vk.sender in quorum
  {
    IntersectCard(senders, quorum, cfg.size);
    assert senders * quorum != {};
    var k :| k in senders && k in quorum;
    vk :| vk in msgs && vk.sender == k;
  }

  // A Nu of one view names a VIEW-CHANGE of some member of any quorum.
  lemma SharedSender(cl: Cluster, s: System, i: nat, nu: seq<NuEntry>, v: nat, quorum: set<nat>) returns (vk: ViewChange)
    requires ValidCluster(cl) && Inv(cl, s) && Correct(cl, i)
    requires CorrectNuAll(cl.cfg, s.replicas[i], nu)
    requires forall vc :: vc in NuMsgs(cl.cfg, s.replicas[i].viewChanges, nu) ==> vc.v == v
    requires quorum <= Ids(cl.cfg.size) && |quorum| >= Quorum(cl.cfg)
    ensures vk in NuMsgs(cl.cfg, s.replicas[i].viewChanges, nu) && vk.sender in quorum
    ensures forall vc :: vc in NuMsgs(cl.cfg, s.replicas[i].viewChanges, nu) ==> ViewChangeMsg(vc) in s.sent
  {
    var senders := NuSenders(cl, s, i, nu, v);
    NuMsgsSent(cl, s, i, nu);
    vk := PickShared(cl.cfg, NuMsgs(cl.cfg, s.replicas[i].viewChanges, nu), senders, quorum);
  }

  // The VIEW-CHANGE for v + 1 of a replica that committed at (v, n), n above its Hi, carries the slot.
  lemma CommitterCarries(cl: Cluster, s: System, vk: ViewChange, v: nat, n: nat)
    requires cl.faulty == {} && CarryInv(cl, s)
    requires ViewChangeMsg(vk) in s.sent && vk.v == v + 1 && vk.hi < n
    requires exists x :: CommitMsg(v, n, x, vk.sender) in s.sent
    ensures Carries(vk, v, n) && GoodViewChange(cl.cfg, s.sent, vk)
  {
    assert Sender(ViewChangeMsg(vk)) < cl.cfg.size;
    assert Carrying(cl.cfg, vk.sender, s.replicas[vk.sender], s.sent);
  }

  lemma CarriedInChi(cl: Cluster, s: System, msgs: seq<ViewChange>, chi: seq<ChiEntry>, vk: ViewChange,
                     v: nat, n: nat, d: Digest, b: Block)
    requires ValidCluster(cl) && cl.faulty == {} && CarryInv(cl, s)
    requires forall m :: m in msgs ==> m.v == v + 1 && m.hi < n && ViewChangeMsg(m) in s.sent
    requires vk in msgs && PEntry(n, d, v) in vk.p && QEntry(n, d, b, v) in vk.q && GoodViewChange(cl.cfg, s.sent, vk)
    requires ChiMatches(chi, ChiOf(msgs))
    ensures ChiEntry(n, d, b) in chi
  {
    InChiRange(msgs, vk, PEntry(n, d, v));
    assert Derives(vk, vk, ChiEntry(n, d, b), v);
    ChiAtMeaning(n, msgs);
    var e := ChiAt(n, msgs);
    var vp, vq, w :| vp in msgs && vq in msgs && Derives(vp, vq, e, w);
    DerivationFixed(cl, s, vk, vp, vq, v, n, d, b, e, w);
    ChiNumbers(msgs, chi);
    assert chi[n - MinHi(msgs) - 1] == ChiEntry(n, d, b);
  }

  // The state form: a commit quorum for (v, n), and a Nu all of whose VIEW-CHANGEs are for v + 1
  // with Hi < n, force the committed request and block into Chi.
  lemma CommittedInChi(cl: Cluster, s: System, i: nat, nu: seq<NuEntry>, chi: seq<ChiEntry>,
                       v: nat, n: nat, committers: set<nat>) returns (d: Digest, b: Block)
    requires ValidCluster(cl) && cl.faulty == {} && CarryInv(cl, s) && Correct(cl, i)
    requires CorrectNuAll(cl.cfg, s.replicas[i], nu) && CorrectChi(cl.cfg, s.replicas[i], nu, chi)
    requires forall vc :: vc in NuMsgs(cl.cfg, s.replicas[i].viewChanges, nu) ==> vc.v == v + 1 && vc.hi < n
    requires committers <= Ids(cl.cfg.size) && |committers| >= Quorum(cl.cfg)
    requires forall k :: k in committers ==> exists x :: CommitMsg(v, n, x, k) in s.sent
    ensures Cert(cl.cfg, s.sent, v, n, d) && Issued(cl.cfg, s.sent, v, n, d, b) && ChiEntry(n, d, b) in chi
  {
    var msgs := NuMsgs(cl.cfg, s.replicas[i].viewChanges, nu);
    var vk := SharedSender(cl, s, i, nu, v + 1, committers);
    CommitterCarries(cl, s, vk, v, n);
    d, b :| PEntry(n, d, v) in vk.p && QEntry(n, d, b, v) in vk.q;
    CarriedInChi(cl, s, msgs, chi, vk, v, n, d, b);
  }

  // Over runs: the primary that sends, and every replica that processes, a NEW-VIEW on such a Nu
  // has in Chi the request d and the block b behind the commit quorum, and no other pair has a
  // certificate for the slot.
  lemma ViewChangeKeepsCommitted(cl: Cluster, run: seq<System>, events: seq<Event>, m: nat, i: nat,
                                 nu: seq<NuEntry>, chi: seq<ChiEntry>, v: nat, n: nat, committers: set<nat>)
    returns (d: Digest, b: Block)
    requires ValidCluster(cl) && cl.faulty == {} && IsRun(cl, run, events) && m < |run| && Correct(cl, i)
    requires PreSendNewView(cl.cfg, i, run[m].replicas[i], nu, chi) || PreProcessNewView(cl.cfg, run[m].replicas[i], nu, chi)
    requires forall vc :: vc in NuMsgs(cl.cfg, run[m].replicas[i].viewChanges, nu) ==> vc.v == v + 1 && vc.hi < n
    requires committers <= Ids(cl.cfg.size) && |committers| >= Quorum(cl.cfg)
    requires forall k :: k in committers ==> exists x :: CommitMsg(v, n, x, k) in run[m].sent
    ensures ChiEntry(n, d, b) in chi
    ensures forall d', b' :: Cert(cl.cfg, run[m].sent, v, n, d') && Issued(cl.cfg, run[m].sent, v, n, d', b')
              <==> d' == d && b' == b
  {
    CarryRun(cl, run, events, m);
    var s, r := run[m], run[m].replicas[i];
    if PreSendNewView(cl.cfg, i, r, nu, chi) {
      NuOnceIsNuAll(cl.cfg, r, nu);
    }
    d, b := CommittedInChi(cl, s, i, nu, chi, v, n, committers);
    assert Correct(cl, Primary(cl.cfg, v));
    forall d', b' | Cert(cl.cfg, s.sent, v, n, d') && Issued(cl.cfg, s.sent, v, n, d', b')
      ensures d' == d && b' == b
    {
      CertsAgree(cl, s, v, n, d, d');
      IssuedOnce(cl, s, v, n, d, b, d', b');
    }
  }

  lemma NuOnceIsNuAll(cfg: Config, r: Replica, nu: seq<NuEntry>)
    requires ValidConfig(cfg) && CorrectNuOnce(cfg, r, nu)
    ensures CorrectNuAll(cfg, r, nu)
  {
    var entry := (vc: ViewChange) => NuEntryOf(cfg, vc);
    InjectiveImage(r.viewChanges, entry);
    assert Image(r.viewChanges, entry) == NuSet(cfg, r);
    SortedNoDup(nu);
  }

  // ---------- agreement across one view change ----------

  // VIEW-CHANGEs and COMMITs already on the network settle Chi in hindsight: a commit quorum that
  // completes only after the NEW-VIEW was sent is respected by it as well.
  lemma ChiRespectsLaterQuorum(cl: Cluster, run: seq<System>, events: seq<Event>, m: nat, k: nat,
                               v: nat, n: nat, committers: set<nat>) returns (d: Digest, b: Block)
    requires ValidCluster(cl) && cl.faulty == {} && IsRun(cl, run, events) && m < |events| && m < k < |run|
    requires events[m].Act? && events[m].a.SendNewViewA? && Correct(cl, events[m].i)
    requires forall vc :: vc in NuMsgs(cl.cfg, run[m].replicas[events[m].i].viewChanges, events[m].a.nu) ==>
      vc.v == v + 1 && vc.hi < n
    requires committers <= Ids(cl.cfg.size) && |committers| >= Quorum(cl.cfg)
    requires forall j :: j in committers ==> exists x :: CommitMsg(v, n, x, j) in run[k].sent
    ensures Cert(cl.cfg, run[k].sent, v, n, d) && Issued(cl.cfg, run[k].sent, v, n, d, b)
    ensures ChiEntry(n, d, b) in events[m].a.chi
  {
    var i, nu, chi := events[m].i, events[m].a.nu, events[m].a.chi;
    assert Next(cl, run[m], events[m], run[m + 1]);
    CarryRun(cl, run, events, m);
    CarryRun(cl, run, events, k);
    SentGrows(cl, run, events, m, k);
    var r := run[m].replicas[i];
    var msgs := NuMsgs(cl.cfg, r.viewChanges, nu);
    NuOnceIsNuAll(cl.cfg, r, nu);
    var vk := SharedSender(cl, run[m], i, nu, v + 1, committers);
    CommitterCarries(cl, run[k], vk, v, n);
    d, b :| PEntry(n, d, v) in vk.p && QEntry(n, d, b, v) in vk.q;
    CarriedInChi(cl, run[k], msgs, chi, vk, v, n, d, b);
  }

  // If 2F + 1 replicas commit at (v, n), every proposal for n in view v + 1 by a primary whose Nu is
  // for v + 1 with Hi < n is the committed request and block. So is every certificate of v + 1.
  lemma NextViewAgrees(cl: Cluster, run: seq<System>, events: seq<Event>, m: nat, k: nat,
                       v: nat, n: nat, committers: set<nat>, d: Digest, b: Block, d': Digest, b': Block)
    requires ValidCluster(cl) && cl.faulty == {} && IsRun(cl, run, events) && m < |events| && m < k < |run|
    requires events[m].Act? && events[m].a.SendNewViewA? && events[m].i == Primary(cl.cfg, v + 1)
    requires run[m].replicas[events[m].i].view == v + 1
    requires forall vc :: vc in NuMsgs(cl.cfg, run[m].replicas[events[m].i].viewChanges, events[m].a.nu) ==>
      vc.v == v + 1 && vc.hi < n
    requires committers <= Ids(cl.cfg.size) && |committers| >= Quorum(cl.cfg)
    requires forall j :: j in committers ==> exists x :: CommitMsg(v, n, x, j) in run[k].sent
    requires Cert(cl.cfg, run[k].sent, v, n, d) && Issued(cl.cfg, run[k].sent, v, n, d, b)
    requires Issued(cl.cfg, run[k].sent, v + 1, n, d', b')
    ensures d' == d && b' == b
  {
    var p, chi := events[m].i, events[m].a.chi;
    var d0, b0 := ChiRespectsLaterQuorum(cl, run, events, m, k, v, n, committers);
    InvRun(cl, run, events, k);
    CertsAgree(cl, run[k], v, n, d, d0);
    assert Correct(cl, Primary(cl.cfg, v));
    IssuedOnce(cl, run[k], v, n, d, b, d0, b0);
    assert Next(cl, run[m], events[m], run[m + 1]);
    assert NewViewMsg(v + 1, events[m].a.nu, chi, p) in run[m + 1].sent;
    SentGrows(cl, run, events, m + 1, k);
    assert Issued(cl.cfg, run[k].sent, v + 1, n, d0, b0);
    IssuedOnce(cl, run[k], v + 1, n, d0, b0, d', b');
  }
}
