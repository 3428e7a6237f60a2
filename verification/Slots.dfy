// At most one message of each kind per slot over a whole run.
module Slots {
  import opened Types
  import opened Engine
  import opened System
  import opened Chi
  import opened Ledger
  import opened Agreement
  import opened ViewChanges

  // A correct replica never sends two PREPAREs or two COMMITs for one (v, n), nor two VIEW-CHANGEs
  // or two NEW-VIEWs for one v, across view changes, recoveries and checkpoints.
  lemma OneVotePerSlot(cl: Cluster, run: seq<System>, events: seq<Event>, k: nat, i: nat, m: Msg, m': Msg)
    requires ValidCluster(cl) && IsRun(cl, run, events) && k < |run| && Correct(cl, i)
    requires m in run[k].sent && m' in run[k].sent && Sender(m) == i == Sender(m')
    ensures m.PrepareMsg? && m'.PrepareMsg? && m.v == m'.v && m.n == m'.n ==> m == m'
    ensures m.CommitMsg? && m'.CommitMsg? && m.v == m'.v && m.n == m'.n ==> m == m'
    ensures m.ViewChangeMsg? && m'.ViewChangeMsg? && m.vc.v == m'.vc.v ==> m == m'
    ensures m.NewViewMsg? && m'.NewViewMsg? && m.v == m'.v ==> m == m'
  {
    InvRun(cl, run, events, k);
    assert Good(cl.cfg, i, run[k].replicas[i], run[k].sent);
  }

  // A correct primary proposes one request and one block per slot of a view v > 0, counting the
  // entries of its NEW-VIEW, and of view 0 counting PRE-PREPAREs.
  lemma OneProposalPerSlot(cl: Cluster, run: seq<System>, events: seq<Event>, k: nat, v: nat, n: nat,
                           d: Digest, b: Block, d': Digest, b': Block)
    requires ValidCluster(cl) && IsRun(cl, run, events) && k < |run| && Correct(cl, Primary(cl.cfg, v))
    requires Issued(cl.cfg, run[k].sent, v, n, d, b) && Issued(cl.cfg, run[k].sent, v, n, d', b')
    ensures d == d' && b == b'
    ensures v > 0 ==> !(PrePrepareMsg(v, n, d, b, Primary(cl.cfg, v)) in run[k].sent
                        && InNewViewOf(run[k].sent, Primary(cl.cfg, v), v, ChiEntry(n, d, b)))
  {
    InvRun(cl, run, events, k);
    IssuedOnce(cl, run[k], v, n, d, b, d', b');
    var p := Primary(cl.cfg, v);
    assert Good(cl.cfg, p, run[k].replicas[p], run[k].sent);
    if v > 0 && PrePrepareMsg(v, n, d, b, p) in run[k].sent {
      forall nu, chi | NewViewMsg(v, nu, chi, p) in run[k].sent ensures ChiEntry(n, d, b) !in chi {
        assert Below(chi, n);
      }
    }
  }

  // Why v > 0: nothing keeps the primary of view 0 from sending a NEW-VIEW for view 0. No correct
  // replica processes one while it is in that view.
  lemma View0NewViewIgnored(cl: Cluster, run: seq<System>, events: seq<Event>, k: nat, i: nat, nu: seq<NuEntry>,
                            chi: seq<ChiEntry>)
    requires ValidCluster(cl) && IsRun(cl, run, events) && k < |run| && Correct(cl, i)
    requires run[k].replicas[i].view == 0
    ensures !PreProcessNewView(cl.cfg, run[k].replicas[i], nu, chi)
  {
    InvRun(cl, run, events, k);
    hide IsRun, CorrectNewView;
    assert Good(cl.cfg, i, run[k].replicas[i], run[k].sent);
  }

  lemma QWasProposed(cl: Cluster, s: System, vc: ViewChange, e: QEntry)
    requires cl.faulty == {} && CarryInv(cl, s) && ViewChangeMsg(vc) in s.sent && e in vc.q
    ensures vc.v > 0 && e.v == vc.v - 1 && Issued(cl.cfg, s.sent, e.v, e.n, e.d, e.b)
  {
    hide Issued, Good, GoodP, CommittedHeld, CommittedCarried;
    assert Sender(ViewChangeMsg(vc)) == vc.sender && Correct(cl, vc.sender);
    assert Carrying(cl.cfg, vc.sender, s.replicas[vc.sender], s.sent);
  }

  lemma PIsOlder(cl: Cluster, s: System, vc: ViewChange, e: PEntry)
    requires cl.faulty == {} && CarryInv(cl, s) && ViewChangeMsg(vc) in s.sent && e in vc.p
    ensures e.v < vc.v
  {
    hide Cert, Good, GoodQ, CommittedHeld, CommittedCarried;
    assert Sender(ViewChangeMsg(vc)) == vc.sender && Correct(cl, vc.sender);
    assert Carrying(cl.cfg, vc.sender, s.replicas[vc.sender], s.sent);
  }

  // An entry of the Chi replica i may send comes from the P of a VIEW-CHANGE and the Q of one, both naming
  // a view w before theirs, and the primary of w proposed it.
  lemma EntryWasProposed(cl: Cluster, run: seq<System>, events: seq<Event>, k: nat, i: nat, nu: seq<NuEntry>,
                         chi: seq<ChiEntry>, e: ChiEntry) returns (vp: ViewChange, vq: ViewChange, w: nat)
    requires ValidCluster(cl) && cl.faulty == {} && IsRun(cl, run, events) && k < |run| && Correct(cl, i)
    requires PreSendNewView(cl.cfg, i, run[k].replicas[i], nu, chi) && e in chi && e.d != Null
    ensures var msgs := NuMsgs(cl.cfg, run[k].replicas[i].viewChanges, nu); vp in msgs && vq in msgs
    ensures PEntry(e.n, e.d, w) in vp.p && w < vp.v
    ensures QEntry(e.n, e.d, e.b, w) in vq.q && vq.v == w + 1 && Issued(cl.cfg, run[k].sent, w, e.n, e.d, e.b)
  {
    CarryRun(cl, run, events, k);
    var r, sent := run[k].replicas[i], run[k].sent;
    var msgs := NuMsgs(cl.cfg, r.viewChanges, nu);
    assert Good(cl.cfg, i, r, sent);
    assert forall m :: m in r.viewChanges ==> ViewChangeMsg(m) in sent;
    hide IsRun, NuMsgs, ChiOf, CarryInv, Good, Issued, CorrectNuOnce;
    ChiEntryOrigin(msgs, chi, e);
    vp, vq, w :| vp in msgs && vq in msgs && Derives(vp, vq, e, w);
    NuMsgsLogged(cl.cfg, r.viewChanges, nu, vp);
    NuMsgsLogged(cl.cfg, r.viewChanges, nu, vq);
    PIsOlder(cl, run[k], vp, PEntry(e.n, e.d, w));
    QWasProposed(cl, run[k], vq, QEntry(e.n, e.d, e.b, w));
  }

  // Without faults the pair issued for a slot is the only one.
  lemma IssuedIsThis(cl: Cluster, s: System, v: nat, e: ChiEntry, d: Digest, b: Block)
    requires ValidCluster(cl) && cl.faulty == {} && Inv(cl, s) && Issued(cl.cfg, s.sent, v, e.n, e.d, e.b)
    ensures e == ChiEntry(e.n, d, b) <==> Issued(cl.cfg, s.sent, v, e.n, d, b)
  {
    hide Inv, Issued;
    assert Correct(cl, Primary(cl.cfg, v));
    if Issued(cl.cfg, s.sent, v, e.n, d, b) {
      IssuedOnce(cl, s, v, e.n, d, b, e.d, e.b);
    }
  }

  // Some VIEW-CHANGE for a view past 1 has prepared n.
  ghost predicate PreparedPast1(msgs: seq<ViewChange>, n: nat) {
    exists vc, x :: vc in msgs && x in vc.p && x.n == n && vc.v > 1
  }

  lemma PreparedInView0(msgs: seq<ViewChange>, vc: ViewChange, x: PEntry)
    requires vc in msgs && x in vc.p && x.v < vc.v && !PreparedPast1(msgs, x.n)
    ensures x.v == 0
  {
  }

  // What the primary of view 0 lists for a slot it has proposed: the pair proposed in the view w in
  // which the slot was prepared. It is the pair of view 0 exactly when the primary of w repeated it, and
  // always when no VIEW-CHANGE of Nu for a view past 1 has prepared the slot.
  lemma View0NewViewLists(cl: Cluster, run: seq<System>, events: seq<Event>, k: nat, nu: seq<NuEntry>,
                          chi: seq<ChiEntry>, e: ChiEntry, d: Digest, b: Block)
    returns (vp: ViewChange, vq: ViewChange, w: nat)
    requires ValidCluster(cl) && cl.faulty == {} && IsRun(cl, run, events) && k < |run| && Correct(cl, 0)
    requires run[k].replicas[0].view == 0 && PreSendNewView(cl.cfg, 0, run[k].replicas[0], nu, chi)
    requires e in chi && e.d != Null && PrePrepareMsg(0, e.n, d, b, 0) in run[k].sent
    ensures var msgs := NuMsgs(cl.cfg, run[k].replicas[0].viewChanges, nu);
      vp in msgs && vq in msgs && (!PreparedPast1(msgs, e.n) ==> e == ChiEntry(e.n, d, b))
    ensures PEntry(e.n, e.d, w) in vp.p && QEntry(e.n, e.d, e.b, w) in vq.q
    ensures e == ChiEntry(e.n, d, b) <==> Issued(cl.cfg, run[k].sent, w, e.n, d, b)
  {
    assert Primary(cl.cfg, 0) == 0;
    assert Issued(cl.cfg, run[k].sent, 0, e.n, d, b);
    hide IsRun, NuMsgs, PreSendNewView, Inv, Issued, ValidCluster, Primary, PreparedPast1;
    InvRun(cl, run, events, k);
    vp, vq, w := EntryWasProposed(cl, run, events, k, 0, nu, chi, e);
    IssuedIsThis(cl, run[k], w, e, d, b);
    var msgs := NuMsgs(cl.cfg, run[k].replicas[0].viewChanges, nu);
    if !PreparedPast1(msgs, e.n) {
      PreparedInView0(msgs, vp, PEntry(e.n, e.d, w));
    }
  }
}
