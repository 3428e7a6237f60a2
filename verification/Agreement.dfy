// Invariants of every run with up to F faulty replicas, and agreement within a view.
module Agreement {
  import opened Types
  import opened Quorums
  import opened Engine
  import opened System
  import opened FactBase
  import opened Ledger
  import opened Preservation

  ghost predicate AnyCert(cfg: Config, sent: set<Msg>, v: nat, n: nat) {
    exists d :: Cert(cfg, sent, v, n, d)
  }

  // A correct replica commits only to a slot with a prepared certificate.
  ghost predicate CommitsCertified(cl: Cluster, sent: set<Msg>) {
    forall v: nat, n: nat, x, k: nat :: CommitMsg(v, n, x, k) in sent && Correct(cl, k) ==> AnyCert(cl.cfg, sent, v, n)
  }

  ghost predicate Inv(cl: Cluster, s: System) {
    && |s.replicas| == cl.cfg.size
    && Members(cl.cfg, s.sent)
    && (forall i: nat :: Correct(cl, i) ==> Good(cl.cfg, i, s.replicas[i], s.sent))
    && CommitsCertified(cl, s.sent)
  }

  lemma AnyCertGrows(cfg: Config, sent: set<Msg>, more: set<Msg>, v: nat, n: nat)
    requires sent <= more && AnyCert(cfg, sent, v, n)
    ensures AnyCert(cfg, more, v, n)
  {
    var d :| Cert(cfg, sent, v, n, d);
    CertGrows(cfg, sent, more, v, n, d);
  }

  // The senders of logged recovery commits, one per fact.
  lemma RecoverySenders(cfg: Config, r: Replica, sent: set<Msg>, v: nat, n: nat) returns (ks: set<nat>)
    requires LogSources(cfg, r, sent) && Members(cfg, sent)
    ensures |ks| == |RecoveryFacts(r, v, n)| && ks <= Ids(cfg.size)
    ensures forall k :: k in ks ==> exists x :: CommitMsg(v, n, x, k) in sent
  {
    var facts := RecoveryFacts(r, v, n);
    var sender := (m: Recovery) => m.sender;
    forall x, y | x in facts && y in facts && sender(x) == sender(y) ensures x == y {
    }
    InjectiveImage(facts, sender);
    ks := Image(facts, sender);
    forall k | k in ks ensures k in Ids(cfg.size) && exists x :: CommitMsg(v, n, x, k) in sent {
      var m :| m in facts && sender(m) == k;
      var x :| CommitMsg(m.v, m.n, x, m.sender) in sent;
      assert Sender(CommitMsg(v, n, x, k)) < cfg.size;
    }
  }

  // A certificate of v involves a proposal of its primary, who is then in v or beyond.
  lemma CertPrimary(cl: Cluster, s: System, v: nat, n: nat, d: Digest)
    requires Inv(cl, s) && Cert(cl.cfg, s.sent, v, n, d) && Correct(cl, Primary(cl.cfg, v))
    ensures v <= s.replicas[Primary(cl.cfg, v)].view
  {
    var p := Primary(cl.cfg, v);
    assert Good(cl.cfg, p, s.replicas[p], s.sent);
    var b :| Issued(cl.cfg, s.sent, v, n, d, b);
  }

  // RECOVER_VIEW never takes a correct replica to a view of which it is itself the primary.
  lemma RecoverNotPrimary(cl: Cluster, s: System, i: nat, v: nat)
    requires ValidCluster(cl) && Inv(cl, s) && Correct(cl, i)
    requires PreRecoverView(cl.cfg, s.replicas[i], v)
    ensures Primary(cl.cfg, v) != i
  {
    var r := s.replicas[i];
    assert Good(cl.cfg, i, r, s.sent);
    var c :| c in r.checkpoints && |RecoveryFacts(r, v, c.n)| >= Quorum(cl.cfg);
    var ks := RecoverySenders(cl.cfg, r, s.sent, v, c.n);
    var k := MemberOutside(ks, cl.faulty);
    var x :| CommitMsg(v, c.n, x, k) in s.sent;
    assert Correct(cl, k);
    assert AnyCert(cl.cfg, s.sent, v, c.n);
    var d :| Cert(cl.cfg, s.sent, v, c.n, d);
    if Primary(cl.cfg, v) == i {
      CertPrimary(cl, s, v, c.n, d);
      assert false;
    }
  }

  lemma InvInit(cl: Cluster, s: System)
    requires Init(cl, s)
    ensures Inv(cl, s)
  {
    forall i: nat | Correct(cl, i) ensures Good(cl.cfg, i, s.replicas[i], s.sent) {
      var h: nat, hash, t :| s.replicas[i] == Initial(cl.cfg, h, hash, t);
      LocalInitial(cl.cfg, i, h, hash, t);
    }
  }

  // A COMMIT is sent by a replica that has a prepared certificate for its slot.
  lemma SentCommitCertified(cl: Cluster, s: System, i: nat, a: Action, v: nat, n: nat, x: int, k: nat)
    requires Inv(cl, s) && Correct(cl, i) && Enabled(cl.cfg, i, s.replicas[i], a, s.clock)
    requires CommitMsg(v, n, x, k) in Emit(cl.cfg, i, s.replicas[i], a)
    ensures AnyCert(cl.cfg, s.sent, v, n)
  {
    assert Good(cl.cfg, i, s.replicas[i], s.sent);
    PreparedIsCert(cl.cfg, i, s.replicas[i], s.sent, a.d, v, n);
  }

  lemma CommitsCertifiedStep(cl: Cluster, s: System, i: nat, a: Action, s': System)
    requires Inv(cl, s) && ActStep(cl, s, i, a, s')
    ensures CommitsCertified(cl, s'.sent)
  {
    forall v: nat, n: nat, x, k: nat | CommitMsg(v, n, x, k) in s'.sent && Correct(cl, k)
      ensures AnyCert(cl.cfg, s'.sent, v, n)
    {
      if CommitMsg(v, n, x, k) !in s.sent {
        SentCommitCertified(cl, s, i, a, v, n, x, k);
      }
      AnyCertGrows(cl.cfg, s.sent, s'.sent, v, n);
    }
  }

  lemma InvAct(cl: Cluster, s: System, i: nat, a: Action, s': System)
    requires ValidCluster(cl) && Inv(cl, s) && ActStep(cl, s, i, a, s')
    ensures Inv(cl, s')
  {
    var r := s.replicas[i];
    assert Good(cl.cfg, i, r, s.sent);
    forall m | m in Emit(cl.cfg, i, r, a) ensures Sender(m) == i {
      EmitSender(cl.cfg, i, r, a, m);
    }
    if a.RecoverViewA? {
      RecoverNotPrimary(cl, s, i, a.v);
    }
    GoodStep(cl.cfg, i, r, a, s.clock, s.sent);
    forall j: nat | Correct(cl, j) && j != i ensures Good(cl.cfg, j, s'.replicas[j], s'.sent) {
      assert Good(cl.cfg, j, s.replicas[j], s.sent);
      GoodOthers(cl.cfg, j, s.replicas[j], s.sent, s'.sent);
    }
    CommitsCertifiedStep(cl, s, i, a, s');
  }

  lemma InvInject(cl: Cluster, s: System, m: Msg, s': System)
    requires ValidCluster(cl) && Inv(cl, s) && Next(cl, s, Inject(m), s')
    ensures Inv(cl, s')
  {
    forall j: nat | Correct(cl, j) ensures Good(cl.cfg, j, s'.replicas[j], s'.sent) {
      assert Good(cl.cfg, j, s.replicas[j], s.sent);
      GoodOthers(cl.cfg, j, s.replicas[j], s.sent, s'.sent);
    }
    forall v: nat, n: nat, x, k: nat | CommitMsg(v, n, x, k) in s'.sent && Correct(cl, k)
      ensures AnyCert(cl.cfg, s'.sent, v, n)
    {
      AnyCertGrows(cl.cfg, s.sent, s'.sent, v, n);
    }
  }

  lemma InvNext(cl: Cluster, s: System, e: Event, s': System)
    requires ValidCluster(cl) && Inv(cl, s) && Next(cl, s, e, s')
    ensures Inv(cl, s')
  {
    match e
    case Act(i, a) => InvAct(cl, s, i, a, s');
    case Inject(m) => InvInject(cl, s, m, s');
    case Tick(now) =>
  }

  // The invariant holds in every state of every run.
  lemma {:induction false} InvRun(cl: Cluster, run: seq<System>, events: seq<Event>, k: nat)
    requires ValidCluster(cl) && IsRun(cl, run, events) && k < |run|
    ensures Inv(cl, run[k])
  {
    hide *;
    if k == 0 {
      RunStart(cl, run, events);
      InvInit(cl, run[0]);
    } else {
      InvRun(cl, run, events, k - 1);
      RunStep(cl, run, events, k);
      InvNext(cl, run[k - 1], events[k - 1], run[k]);
    }
  }

  // ---------- agreement ----------

  // Two quorums of backups of one view share a correct replica unless the primary is correct.
  lemma SharedVoter(cl: Cluster, sent: set<Msg>, v: nat, n: nat, d: Digest, d': Digest) returns (k: nat)
    requires ValidCluster(cl) && Primary(cl.cfg, v) in cl.faulty
    requires |Voters(cl.cfg, sent, v, n, d)| >= 2 * F(cl.cfg) && |Voters(cl.cfg, sent, v, n, d')| >= 2 * F(cl.cfg)
    ensures Correct(cl, k) && k in Voters(cl.cfg, sent, v, n, d) && k in Voters(cl.cfg, sent, v, n, d')
  {
    var p := Primary(cl.cfg, v);
    var a, b := Voters(cl.cfg, sent, v, n, d), Voters(cl.cfg, sent, v, n, d');
    var backups := Ids(cl.cfg.size) - {p};
    SubsetCard(a + b, backups);
    assert |a + b| == |a| + |b| - |a * b|;
    assert p in Ids(cl.cfg.size);
    assert |backups| == cl.cfg.size - 1 == 3 * F(cl.cfg);
    assert |cl.faulty - {p}| == |cl.faulty| - 1;
    k := MemberOutside(a * b, cl.faulty - {p});
    assert k != p;
  }

  // What the correct primary of v proposed for n is one request and one block.
  lemma IssuedOnce(cl: Cluster, s: System, v: nat, n: nat, d: Digest, b: Block, d': Digest, b': Block)
    requires Inv(cl, s) && Correct(cl, Primary(cl.cfg, v))
    requires Issued(cl.cfg, s.sent, v, n, d, b) && Issued(cl.cfg, s.sent, v, n, d', b')
    ensures d == d' && b == b'
  {
    var p := Primary(cl.cfg, v);
    assert Good(cl.cfg, p, s.replicas[p], s.sent);
    var x, y := PrePrepareMsg(v, n, d, b, p), PrePrepareMsg(v, n, d', b', p);
    if x !in s.sent && y !in s.sent {
      var nu, chi :| NewViewMsg(v, nu, chi, p) in s.sent && ChiEntry(n, d, b) in chi;
      var nu', chi' :| NewViewMsg(v, nu', chi', p) in s.sent && ChiEntry(n, d', b') in chi';
      assert OnePerNumber(chi) && chi == chi';
    }
  }

  // Agreement: two prepared certificates of one view and sequence number carry one digest,
  // with up to F arbitrary replicas among 3F + 1.
  lemma CertsAgree(cl: Cluster, s: System, v: nat, n: nat, d: Digest, d': Digest)
    requires ValidCluster(cl) && Inv(cl, s)
    requires Cert(cl.cfg, s.sent, v, n, d) && Cert(cl.cfg, s.sent, v, n, d')
    ensures d == d'
  {
    if Correct(cl, Primary(cl.cfg, v)) {
      var b :| Issued(cl.cfg, s.sent, v, n, d, b);
      var b' :| Issued(cl.cfg, s.sent, v, n, d', b');
      IssuedOnce(cl, s, v, n, d, b, d', b');
    } else {
      var k := SharedVoter(cl, s.sent, v, n, d, d');
      assert Good(cl.cfg, k, s.replicas[k], s.sent);
      assert PrepareMsg(v, n, d, k) in s.sent && PrepareMsg(v, n, d', k) in s.sent;
    }
  }

  lemma {:induction false} SentGrows(cl: Cluster, run: seq<System>, events: seq<Event>, j: nat, k: nat)
    requires IsRun(cl, run, events) && j <= k < |run|
    ensures run[j].sent <= run[k].sent
    decreases k - j
  {
    if j < k {
      assert Next(cl, run[j], events[j], run[j + 1]);
      SentGrows(cl, run, events, j + 1, k);
    }
  }

  // prepared(d, v, n) at correct replica i and, in the same state or any later one, prepared(d', v, n)
  // at correct replica i': then d = d'.
  lemma PreparedAgree(cl: Cluster, run: seq<System>, events: seq<Event>, k: nat, i: nat, k': nat, i': nat,
                      v: nat, n: nat, d: Digest, d': Digest)
    requires ValidCluster(cl) && IsRun(cl, run, events) && k <= k' < |run|
    requires Correct(cl, i) && Correct(cl, i')
    requires Prepared(cl.cfg, run[k].replicas[i], d, v, n)
    requires Prepared(cl.cfg, run[k'].replicas[i'], d', v, n)
    ensures d == d'
  {
    InvRun(cl, run, events, k);
    InvRun(cl, run, events, k');
    SentGrows(cl, run, events, k, k');
    PreparedIsCert(cl.cfg, i, run[k].replicas[i], run[k].sent, d, v, n);
    PreparedIsCert(cl.cfg, i', run[k'].replicas[i'], run[k'].sent, d', v, n);
    CertGrows(cl.cfg, run[k].sent, run[k'].sent, v, n, d);
    CertsAgree(cl, run[k'], v, n, d, d');
  }
}
