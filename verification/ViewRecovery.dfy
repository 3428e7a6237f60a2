// RECOVER_VIEW clears the logs of the view it leaves. It never clears a certificate above h.
// The argument: a prepared certificate for (v, n) shows that F + 1 replicas had checkpoint n - 1 in
// some view up to v, and a commit quorum for (V, h) shows 2F + 1 that had only h - 1 in view V > v.
module ViewRecovery {
  import opened Types
  import opened Quorums
  import opened Engine
  import opened System
  import opened Chi
  import opened FactBase
  import opened Ledger
  import opened Agreement
  import opened ViewChanges

  // ---------- history ----------

  ghost predicate HasReached(seen: set<Stamp>, k: nat, v: nat, h: nat) {
    exists s :: s in seen && s.id == k && s.v <= v && s.h >= h
  }

  // The replicas that had checkpoint h or higher while in a view up to v.
  ghost function Reached(cfg: Config, seen: set<Stamp>, v: nat, h: int): set<nat> {
    set k | k in Ids(cfg.size) && HasReached(seen, k, v, if h < 0 then 0 else h)
  }

  ghost predicate History(i: nat, r: Replica, seen: set<Stamp>) {
    && Stamp(i, r.view, H(r)) in seen
    && (forall s :: s in seen && s.id == i ==> s.v <= r.view && s.h <= H(r))
    && (forall s, t :: s in seen && t in seen && s.id == i && t.id == i && s.v < t.v ==> s.h <= t.h)
  }

  lemma Monotone(cfg: Config, i: nat, r: Replica, a: Action, now: real)
    requires Local(cfg, i, r) && Enabled(cfg, i, r, a, now)
    ensures Apply(cfg, i, r, a).view >= r.view && H(Apply(cfg, i, r, a)) >= H(r)
  {
    if a.ReceiveBlockA? {
      BlockH(r, a.d, a.n, a.t, a.val);
    } else {
      assert Apply(cfg, i, r, a).checkpoints == r.checkpoints;
      SameH(r, Apply(cfg, i, r, a));
    }
  }

  lemma HistoryStep(cfg: Config, i: nat, r: Replica, s: Replica, seen: set<Stamp>)
    requires History(i, r, seen) && s.view >= r.view && H(s) >= H(r)
    ensures History(i, s, seen + {Stamp(i, s.view, H(s))})
  {
  }

  lemma HistoryOther(j: nat, r: Replica, seen: set<Stamp>, stamp: Stamp)
    requires History(j, r, seen) && stamp.id != j
    ensures History(j, r, seen + {stamp})
  {
  }

  lemma ReachedGrows(cfg: Config, seen: set<Stamp>, more: set<Stamp>, v: nat, w: nat, h: int)
    requires seen <= more && v <= w
    ensures Reached(cfg, seen, v, h) <= Reached(cfg, more, w, h)
    ensures |Reached(cfg, seen, v, h)| <= |Reached(cfg, more, w, h)|
  {
    forall k | k in Reached(cfg, seen, v, h) ensures k in Reached(cfg, more, w, h) {
      var m := if h < 0 then 0 else h;
      var s :| s in seen && s.id == k && s.v <= v && s.h >= m;
      assert s in more && s.v <= w;
    }
    SubsetCard(Reached(cfg, seen, v, h), Reached(cfg, more, w, h));
  }

  // ---------- where votes come from ----------

  ghost predicate InSomeChi(cfg: Config, sent: set<Msg>, v: nat, n: nat, d: Digest) {
    v > 0 && exists b :: InNewViewOf(sent, Primary(cfg, v), v, ChiEntry(n, d, b))
  }

  // A PREPARE was sent from the window of its slot, or for an entry of the NEW-VIEW's Chi.
  ghost predicate PreparesPlaced(cfg: Config, s: System) {
    forall v: nat, n: nat, d, k: nat :: PrepareMsg(v, n, d, k) in s.sent ==>
      k in Reached(cfg, s.seen, v, n - 1) || InSomeChi(cfg, s.sent, v, n, d)
  }

  ghost predicate PrePreparesPlaced(cfg: Config, s: System) {
    forall v: nat, n: nat, d, b, k: nat :: PrePrepareMsg(v, n, d, b, k) in s.sent ==>
      k in Reached(cfg, s.seen, v, n - 1)
  }

  ghost predicate CommitsPlaced(s: System) {
    forall v: nat, n: nat, x, k: nat :: CommitMsg(v, n, x, k) in s.sent ==> n > 0 && Stamp(k, v, n - 1) in s.seen
  }

  // A quorum has left v, and none of it voted for (v, n) outside its window.
  ghost predicate LeftBehind(cfg: Config, s: System, v: nat, n: nat, gone: set<nat>)
    requires |s.replicas| == cfg.size
  {
    && gone <= Ids(cfg.size) && |gone| >= 2 * F(cfg) + 1 && Primary(cfg, v) !in gone
    && (forall w :: w in gone ==> s.replicas[w].view > v)
    && (forall w, d :: w in gone && PrepareMsg(v, n, d, w) in s.sent ==> w in Reached(cfg, s.seen, v, n - 1))
  }

  ghost predicate Grounded(cfg: Config, s: System, v: nat, n: nat)
    requires |s.replicas| == cfg.size
  {
    || |Reached(cfg, s.seen, v, n - 1)| >= F(cfg) + 1
    || exists gone :: LeftBehind(cfg, s, v, n, gone)
  }

  ghost predicate ChiGrounded(cfg: Config, s: System)
    requires |s.replicas| == cfg.size
  {
    forall v: nat, nu, chi, e: ChiEntry :: NewViewMsg(v, nu, chi, Primary(cfg, v)) in s.sent && v > 0 && e in chi && e.d != Null ==>
      Grounded(cfg, s, v, e.n)
  }

  ghost predicate Placed(cfg: Config, s: System) {
    && |s.replicas| == cfg.size
    && PreparesPlaced(cfg, s)
    && PrePreparesPlaced(cfg, s)
    && CommitsPlaced(s)
    && ChiGrounded(cfg, s)
  }

  ghost predicate Histories(cl: Cluster, s: System) {
    && |s.replicas| == cl.cfg.size
    && (forall i: nat :: Correct(cl, i) ==> History(i, s.replicas[i], s.seen))
  }

  ghost predicate PlaceInv(cl: Cluster, s: System) {
    CarryInv(cl, s) && Histories(cl, s) && Placed(cl.cfg, s)
  }

  // ---------- certificates are grounded ----------

  // A prepared certificate for (v, n): F + 1 replicas had checkpoint n - 1 in a view up to v.
  lemma CertGrounded(cfg: Config, s: System, v: nat, n: nat, d: Digest)
    requires ValidConfig(cfg) && Placed(cfg, s)
    requires Cert(cfg, s.sent, v, n, d) && d != Null
    ensures |Reached(cfg, s.seen, v, n - 1)| >= F(cfg) + 1
  {
    var p := Primary(cfg, v);
    var voters := Voters(cfg, s.sent, v, n, d) + {p};
    assert |voters| >= 2 * F(cfg) + 1;
    var reached := Reached(cfg, s.seen, v, n - 1);
    if InSomeChi(cfg, s.sent, v, n, d) {
      ChiEntryGrounded(cfg, s, v, n, d);
      if |reached| < F(cfg) + 1 {
        var gone :| LeftBehind(cfg, s, v, n, gone);
        IntersectCard(voters, gone, cfg.size);
        SubsetCard(voters * gone, reached);
      }
    } else {
      var b :| Issued(cfg, s.sent, v, n, d, b);
      SubsetCard(voters, reached);
    }
  }

  lemma ChiEntryGrounded(cfg: Config, s: System, v: nat, n: nat, d: Digest)
    requires Placed(cfg, s) && InSomeChi(cfg, s.sent, v, n, d) && d != Null
    ensures Grounded(cfg, s, v, n)
  {
    var b :| InNewViewOf(s.sent, Primary(cfg, v), v, ChiEntry(n, d, b));
    var nu, chi :| NewViewMsg(v, nu, chi, Primary(cfg, v)) in s.sent && ChiEntry(n, d, b) in chi;
    assert Grounded(cfg, s, v, ChiEntry(n, d, b).n);
  }

  // ---------- preservation ----------

  // The certificate behind a prepared entry of the Chi that SEND_NEW_VIEW computes.
  lemma ChiEntryCert(cl: Cluster, s: System, i: nat, nu: seq<NuEntry>, chi: seq<ChiEntry>, e: ChiEntry) returns (w: nat)
    requires ValidCluster(cl) && cl.faulty == {} && CarryInv(cl, s) && Correct(cl, i)
    requires PreSendNewView(cl.cfg, i, s.replicas[i], nu, chi) && e in chi && e.d != Null
    ensures Cert(cl.cfg, s.sent, w, e.n, e.d)
  {
    var cfg, r := cl.cfg, s.replicas[i];
    assert Good(cfg, i, r, s.sent);
    var msgs := NuMsgs(cfg, r.viewChanges, nu);
    ChiEntryOrigin(msgs, chi, e);
    var vp, vq, v :| vp in msgs && vq in msgs && Derives(vp, vq, e, v);
    w := v;
    NuMsgsLogged(cfg, r.viewChanges, nu, vp);
    assert ViewChangeMsg(vp) in s.sent && Sender(ViewChangeMsg(vp)) < cfg.size;
    assert Carrying(cfg, vp.sender, s.replicas[vp.sender], s.sent);
  }

  lemma NoNewViewYet(cl: Cluster, s: System, i: nat, n: nat, d: Digest)
    requires Inv(cl, s) && Correct(cl, i)
    requires Primary(cl.cfg, s.replicas[i].view) == i && !(exists m :: m in s.replicas[i].newViews && m.v == s.replicas[i].view)
    ensures !InSomeChi(cl.cfg, s.sent, s.replicas[i].view, n, d)
  {
    assert Good(cl.cfg, i, s.replicas[i], s.sent);
  }

  // The SEND_NEW_VIEW case: every prepared entry of Chi has a certificate behind it.
  lemma NewChiGrounded(cl: Cluster, s: System, i: nat, nu: seq<NuEntry>, chi: seq<ChiEntry>, e: ChiEntry)
    requires ValidCluster(cl) && cl.faulty == {} && PlaceInv(cl, s) && Correct(cl, i)
    requires PreSendNewView(cl.cfg, i, s.replicas[i], nu, chi) && e in chi && e.d != Null
    ensures Grounded(cl.cfg, s, s.replicas[i].view, e.n)
  {
    var w := ChiEntryCert(cl, s, i, nu, chi, e);
    forall d ensures !InSomeChi(cl.cfg, s.sent, s.replicas[i].view, e.n, d) {
      NoNewViewYet(cl, s, i, e.n, d);
    }
    GroundedByCert(cl, s, i, w, e.n, e.d);
  }

  lemma GroundedByCert(cl: Cluster, s: System, i: nat, w: nat, n: nat, d: Digest)
    requires ValidCluster(cl) && cl.faulty == {} && Inv(cl, s) && Placed(cl.cfg, s) && Correct(cl, i)
    requires Primary(cl.cfg, s.replicas[i].view) == i && Cert(cl.cfg, s.sent, w, n, d) && d != Null
    requires forall x :: !InSomeChi(cl.cfg, s.sent, s.replicas[i].view, n, x)
    ensures Grounded(cl.cfg, s, s.replicas[i].view, n)
  {
    var cfg, v := cl.cfg, s.replicas[i].view;
    if w <= v {
      CertGrounded(cfg, s, w, n, d);
      ReachedGrows(cfg, s.seen, s.seen, w, v, n - 1);
    } else {
      GoneQuorum(cl, s, w, n, d);
      assert LeftBehind(cfg, s, v, n, Voters(cfg, s.sent, w, n, d) + {Primary(cfg, w)});
    }
  }

  // Everyone behind a certificate of w is in view w or beyond.
  lemma GoneQuorum(cl: Cluster, s: System, w: nat, n: nat, d: Digest)
    requires ValidCluster(cl) && cl.faulty == {} && Inv(cl, s) && Cert(cl.cfg, s.sent, w, n, d)
    ensures var gone := Voters(cl.cfg, s.sent, w, n, d) + {Primary(cl.cfg, w)};
      && gone <= Ids(cl.cfg.size) && |gone| >= 2 * F(cl.cfg) + 1
      && forall x :: x in gone ==> s.replicas[x].view >= w
  {
    var gone := Voters(cl.cfg, s.sent, w, n, d) + {Primary(cl.cfg, w)};
    CertPrimary(cl, s, w, n, d);
    forall x | x in gone ensures s.replicas[x].view >= w {
      assert Good(cl.cfg, x, s.replicas[x], s.sent);
    }
  }

  // Only a replica in view v sends a PREPARE of v.
  lemma VotesInView(cfg: Config, i: nat, r: Replica, a: Action, v: nat, n: nat, d: Digest, k: nat)
    requires PrepareMsg(v, n, d, k) in Emit(cfg, i, r, a)
    ensures v == r.view && k == i
  {
  }

  lemma LeftBehindStays(cfg: Config, s: System, s': System, v: nat, n: nat, gone: set<nat>)
    requires |s.replicas| == cfg.size == |s'.replicas| && s.seen <= s'.seen && LeftBehind(cfg, s, v, n, gone)
    requires forall w :: w in gone ==> s'.replicas[w].view >= s.replicas[w].view
    requires forall w, d :: w in gone && PrepareMsg(v, n, d, w) in s'.sent ==> PrepareMsg(v, n, d, w) in s.sent
    ensures LeftBehind(cfg, s', v, n, gone)
  {
    ReachedGrows(cfg, s.seen, s'.seen, v, v, n - 1);
  }

  lemma GroundedStep(cl: Cluster, s: System, i: nat, a: Action, s': System, v: nat, n: nat)
    requires |s.replicas| == cl.cfg.size && ActStep(cl, s, i, a, s') && Local(cl.cfg, i, s.replicas[i])
    requires Grounded(cl.cfg, s, v, n)
    ensures Grounded(cl.cfg, s', v, n)
  {
    var cfg, r := cl.cfg, s.replicas[i];
    ReachedGrows(cfg, s.seen, s'.seen, v, v, n - 1);
    if |Reached(cfg, s.seen, v, n - 1)| < F(cfg) + 1 {
      var gone :| LeftBehind(cfg, s, v, n, gone);
      Monotone(cfg, i, r, a, s.clock);
      forall w, d | w in gone && PrepareMsg(v, n, d, w) in s'.sent ensures PrepareMsg(v, n, d, w) in s.sent {
        if PrepareMsg(v, n, d, w) !in s.sent {
          VotesInView(cfg, i, r, a, v, n, d, w);
          assert false;
        }
      }
      LeftBehindStays(cfg, s, s', v, n, gone);
    }
  }

  lemma ChiGroundedStep(cl: Cluster, s: System, i: nat, a: Action, s': System)
    requires ValidCluster(cl) && cl.faulty == {} && PlaceInv(cl, s) && ActStep(cl, s, i, a, s')
    ensures ChiGrounded(cl.cfg, s')
  {
    assert Local(cl.cfg, i, s.replicas[i]) by {
      assert Good(cl.cfg, i, s.replicas[i], s.sent);
    }
    forall v: nat, nu, chi, e: ChiEntry | NewViewMsg(v, nu, chi, Primary(cl.cfg, v)) in s'.sent && v > 0 && e in chi && e.d != Null
      ensures Grounded(cl.cfg, s', v, e.n)
    {
      if NewViewMsg(v, nu, chi, Primary(cl.cfg, v)) !in s.sent {
        assert a.SendNewViewA? && v == s.replicas[i].view && nu == a.nu && chi == a.chi;
        NewChiGrounded(cl, s, i, nu, chi, e);
      }
      GroundedStep(cl, s, i, a, s', v, e.n);
    }
  }

  lemma CurrentlyReached(cfg: Config, i: nat, r: Replica, seen: set<Stamp>, n: nat)
    requires i < cfg.size && Stamp(i, r.view, H(r)) in seen && InW(r, n)
    ensures i in Reached(cfg, seen, r.view, n - 1)
  {
    assert HasReached(seen, i, r.view, H(r));
  }

  lemma VotesStep(cl: Cluster, s: System, i: nat, a: Action, s': System)
    requires PlaceInv(cl, s) && ActStep(cl, s, i, a, s')
    ensures PreparesPlaced(cl.cfg, s')
  {
    var cfg, r := cl.cfg, s.replicas[i];
    assert Good(cfg, i, r, s.sent) && History(i, r, s.seen);
    forall v: nat, n: nat, d, k: nat | PrepareMsg(v, n, d, k) in s'.sent
      ensures k in Reached(cfg, s'.seen, v, n - 1) || InSomeChi(cfg, s'.sent, v, n, d)
    {
      ReachedGrows(cfg, s.seen, s'.seen, v, v, n - 1);
      if PrepareMsg(v, n, d, k) in s.sent {
        if InSomeChi(cfg, s.sent, v, n, d) {
          var b :| InNewViewOf(s.sent, Primary(cfg, v), v, ChiEntry(n, d, b));
          assert InNewViewOf(s'.sent, Primary(cfg, v), v, ChiEntry(n, d, b));
        }
      } else if a.SendPrepareA? {
        CurrentlyReached(cfg, i, r, s.seen, n);
      } else {
        assert a.ProcessNewViewA?;
        var e :| e in a.chi && PrepareMsg(v, n, d, k) == PrepareMsg(r.view, e.n, e.d, i);
        assert NewViewMsg(v, a.nu, a.chi, Primary(cfg, v)) in s'.sent;
        assert InNewViewOf(s'.sent, Primary(cfg, v), v, ChiEntry(n, d, e.b));
      }
    }
  }

  lemma ProposalsStep(cl: Cluster, s: System, i: nat, a: Action, s': System)
    requires i < |s.replicas| && History(i, s.replicas[i], s.seen) && PrePreparesPlaced(cl.cfg, s)
    requires ActStep(cl, s, i, a, s')
    ensures PrePreparesPlaced(cl.cfg, s')
  {
    var cfg, r := cl.cfg, s.replicas[i];
    forall v: nat, n: nat, d, b, k: nat | PrePrepareMsg(v, n, d, b, k) in s'.sent
      ensures k in Reached(cfg, s'.seen, v, n - 1)
    {
      ReachedGrows(cfg, s.seen, s'.seen, v, v, n - 1);
      if PrePrepareMsg(v, n, d, b, k) !in s.sent {
        CurrentlyReached(cfg, i, r, s.seen, n);
      }
    }
  }

  lemma CommitsStep(cl: Cluster, s: System, i: nat, a: Action, s': System)
    requires i < |s.replicas| && History(i, s.replicas[i], s.seen) && CommitsPlaced(s) && ActStep(cl, s, i, a, s')
    ensures CommitsPlaced(s')
  {
  }

  lemma HistoriesStep(cl: Cluster, s: System, i: nat, a: Action, s': System)
    requires Inv(cl, s) && Histories(cl, s) && ActStep(cl, s, i, a, s')
    ensures Histories(cl, s')
  {
    var r := s.replicas[i];
    assert Local(cl.cfg, i, r) by {
      assert Good(cl.cfg, i, r, s.sent);
    }
    Monotone(cl.cfg, i, r, a, s.clock);
    var t := Apply(cl.cfg, i, r, a);
    HistoryStep(cl.cfg, i, r, t, s.seen);
    var stamp := Stamp(i, t.view, H(t));
    assert s'.seen == s.seen + {stamp} && s'.replicas == s.replicas[i := t];
    forall j: nat | Correct(cl, j) && j != i ensures History(j, s'.replicas[j], s'.seen) {
      HistoryOther(j, s.replicas[j], s.seen, stamp);
    }
  }

  lemma PlaceAct(cl: Cluster, s: System, i: nat, a: Action, s': System)
    requires ValidCluster(cl) && cl.faulty == {} && PlaceInv(cl, s) && ActStep(cl, s, i, a, s')
    ensures Histories(cl, s') && Placed(cl.cfg, s')
  {
    HistoriesStep(cl, s, i, a, s');
    VotesStep(cl, s, i, a, s');
    assert History(i, s.replicas[i], s.seen);
    ProposalsStep(cl, s, i, a, s');
    CommitsStep(cl, s, i, a, s');
    ChiGroundedStep(cl, s, i, a, s');
  }

  // A clock tick changes neither replicas, messages nor history.
  lemma PlacedSame(cfg: Config, s: System, s': System)
    requires Placed(cfg, s) && s' == s.(clock := s'.clock)
    ensures Placed(cfg, s')
  {
    forall v: nat, n: nat | Grounded(cfg, s, v, n) ensures Grounded(cfg, s', v, n) {
      if |Reached(cfg, s.seen, v, n - 1)| < F(cfg) + 1 {
        var gone :| LeftBehind(cfg, s, v, n, gone);
        assert LeftBehind(cfg, s', v, n, gone);
      }
    }
  }

  lemma PlaceNext(cl: Cluster, s: System, e: Event, s': System)
    requires ValidCluster(cl) && cl.faulty == {} && PlaceInv(cl, s) && Next(cl, s, e, s')
    ensures PlaceInv(cl, s')
  {
    CarryNext(cl, s, e, s');
    if e.Act? {
      PlaceAct(cl, s, e.i, e.a, s');
    } else {
      PlacedSame(cl.cfg, s, s');
    }
  }

  lemma PlaceInit(cl: Cluster, s: System)
    requires Init(cl, s)
    ensures PlaceInv(cl, s)
  {
    CarryInit(cl, s);
    forall i: nat | Correct(cl, i) ensures History(i, s.replicas[i], s.seen) {
      assert Stamp(i, 0, H(s.replicas[i])) in s.seen;
    }
  }

  lemma {:induction false} PlaceRun(cl: Cluster, run: seq<System>, events: seq<Event>, k: nat)
    requires ValidCluster(cl) && cl.faulty == {} && IsRun(cl, run, events) && k < |run|
    ensures PlaceInv(cl, run[k])
  {
    hide *;
    if k == 0 {
      RunStart(cl, run, events);
      PlaceInit(cl, run[0]);
    } else {
      PlaceRun(cl, run, events, k - 1);
      RunStep(cl, run, events, k);
      PlaceNext(cl, run[k - 1], events[k - 1], run[k]);
    }
  }

  // ---------- the theorem ----------

  // A replica that had checkpoint h in a view up to v does not commit to h in a later view.
  lemma ReachedCommitsNoMore(s: System, j: nat, r: Replica, v: nat, h: nat, w: nat, x: int)
    requires History(j, r, s.seen) && CommitsPlaced(s) && HasReached(s.seen, j, v, h) && w > v
    ensures CommitMsg(w, h, x, j) !in s.sent
  {
  }

  // F + 1 replicas at checkpoint h in a view up to v exclude a commit quorum for (V, h), V > v.
  lemma NoLaterCommitQuorum(cl: Cluster, s: System, v: nat, h: nat, w: nat, ks: set<nat>)
    requires ValidCluster(cl) && cl.faulty == {} && Histories(cl, s) && CommitsPlaced(s)
    requires |Reached(cl.cfg, s.seen, v, h)| >= F(cl.cfg) + 1 && w > v
    requires ks <= Ids(cl.cfg.size) && |ks| >= Quorum(cl.cfg)
    ensures exists k :: k in ks && forall x :: CommitMsg(w, h, x, k) !in s.sent
  {
    var j := CommonMember(ks, Reached(cl.cfg, s.seen, v, h), cl.cfg.size);
    assert History(j, s.replicas[j], s.seen);
    forall x ensures CommitMsg(w, h, x, j) !in s.sent {
      ReachedCommitsNoMore(s, j, s.replicas[j], v, h, w, x);
    }
  }

  lemma RecoverySendersAtH(cl: Cluster, s: System, i: nat, target: nat) returns (ks: set<nat>)
    requires Inv(cl, s) && Correct(cl, i) && PreRecoverView(cl.cfg, s.replicas[i], target)
    ensures ks <= Ids(cl.cfg.size) && |ks| >= Quorum(cl.cfg) && target > s.replicas[i].view
    ensures forall k :: k in ks ==> exists x :: CommitMsg(target, H(s.replicas[i]), x, k) in s.sent
  {
    var r := s.replicas[i];
    assert Good(cl.cfg, i, r, s.sent);
    var c :| c in r.checkpoints && |RecoveryFacts(r, target, c.n)| >= Quorum(cl.cfg);
    var one :| r.checkpoints == {one};
    HOfOne(r, one);
    ks := RecoverySenders(cl.cfg, r, s.sent, target, c.n);
  }

  // A commit quorum for (w, h) excludes every earlier certificate above h.
  lemma QuorumExcludesCert(cl: Cluster, s: System, v: nat, h: nat, w: nat, ks: set<nat>, d: Digest, n: nat)
    requires ValidCluster(cl) && cl.faulty == {} && Histories(cl, s) && Placed(cl.cfg, s) && w > v && n > h
    requires ks <= Ids(cl.cfg.size) && |ks| >= Quorum(cl.cfg)
    requires forall k :: k in ks ==> exists x :: CommitMsg(w, h, x, k) in s.sent
    ensures !(Cert(cl.cfg, s.sent, v, n, d) && d != Null)
  {
    if Cert(cl.cfg, s.sent, v, n, d) && d != Null {
      CertGrounded(cl.cfg, s, v, n, d);
      ReachedLower(cl.cfg, s.seen, v, n - 1, h);
      NoLaterCommitQuorum(cl, s, v, h, w, ks);
      assert false;
    }
  }

  lemma NoCertAboveH(cl: Cluster, s: System, i: nat, target: nat, d: Digest, v: nat, n: nat)
    requires ValidCluster(cl) && cl.faulty == {} && PlaceInv(cl, s) && Correct(cl, i)
    requires PreRecoverView(cl.cfg, s.replicas[i], target) && v <= s.replicas[i].view && n > H(s.replicas[i])
    ensures !(Cert(cl.cfg, s.sent, v, n, d) && d != Null)
  {
    var ks := RecoverySendersAtH(cl, s, i, target);
    QuorumExcludesCert(cl, s, v, H(s.replicas[i]), target, ks, d, n);
  }

  // Whenever RECOVER_VIEW is enabled, the replica holds no prepared certificate of any view above
  // its h, neither in the logs that the step clears nor in Pi.
  lemma RecoverLosesNoCertificate(cl: Cluster, run: seq<System>, events: seq<Event>, k: nat, i: nat, target: nat,
                                  d: Digest, v: nat, n: nat)
    requires ValidCluster(cl) && cl.faulty == {} && IsRun(cl, run, events) && k < |run| && Correct(cl, i)
    requires PreRecoverView(cl.cfg, run[k].replicas[i], target)
    requires n > H(run[k].replicas[i])
    ensures !Prepared(cl.cfg, run[k].replicas[i], d, v, n)
  {
    PlaceRun(cl, run, events, k);
    if Prepared(cl.cfg, run[k].replicas[i], d, v, n) {
      PreparedUpToView(cl, run[k], i, d, v, n);
      NoCertAboveH(cl, run[k], i, target, d, v, n);
      assert false;
    }
  }

  // A certificate in a fact base is one of its own or an earlier view, and never for "null".
  lemma PreparedUpToView(cl: Cluster, s: System, i: nat, d: Digest, v: nat, n: nat)
    requires Inv(cl, s) && Correct(cl, i) && Prepared(cl.cfg, s.replicas[i], d, v, n)
    ensures v <= s.replicas[i].view && d != Null && Cert(cl.cfg, s.sent, v, n, d)
  {
    assert Good(cl.cfg, i, s.replicas[i], s.sent);
    PreparedIsCert(cl.cfg, i, s.replicas[i], s.sent, d, v, n);
  }

  lemma ReachedLower(cfg: Config, seen: set<Stamp>, v: nat, h: nat, h': nat)
    requires h' <= h
    ensures |Reached(cfg, seen, v, h)| <= |Reached(cfg, seen, v, h')|
  {
    forall k | k in Reached(cfg, seen, v, h) ensures k in Reached(cfg, seen, v, h') {
      var s :| s in seen && s.id == k && s.v <= v && s.h >= h;
      assert s.h >= h';
    }
    SubsetCard(Reached(cfg, seen, v, h), Reached(cfg, seen, v, h'));
  }
}
