// Views grow at most logarithmically in time, also for replicas that jump by RECOVER_VIEW.
module ViewGrowth {
  import opened Types
  import opened Quorums
  import opened Engine
  import opened System
  import opened Ledger
  import opened Agreement

  lemma {:induction false} Pow2Grows(a: nat, b: nat)
    requires a <= b
    ensures 1.0 <= Pow2(a) <= Pow2(b)
    decreases b
  {
    if a < b {
      Pow2Grows(a, b - 1);
    } else if a > 0 {
      Pow2Grows(a - 1, a - 1);
    }
  }

  // A replica in view v > 0 has waited out the timeout of v - 1 since a request no older than t0.
  ghost predicate Waited(cfg: Config, v: nat, t0: real, now: real) {
    v > 0 ==> Timeout(cfg, v - 1) < now - t0
  }

  ghost predicate GrowthInv(cl: Cluster, s: System, t0: real)
    requires |s.replicas| == cl.cfg.size
  {
    forall i: nat :: Correct(cl, i) ==>
      && Waited(cl.cfg, s.replicas[i].view, t0, s.clock)
      && forall m :: m in s.replicas[i].requests ==> m.t >= t0
  }

  ghost predicate RequestsFrom(events: seq<Event>, t0: real) {
    forall k :: 0 <= k < |events| && events[k].Act? && events[k].a.ReceiveRequestA? ==> events[k].a.t >= t0
  }

  lemma WaitedLower(cfg: Config, v: nat, w: nat, t0: real, now: real)
    requires cfg.blockTime > 0.0 && w <= v && Waited(cfg, v, t0, now)
    ensures Waited(cfg, w, t0, now)
  {
    if w > 0 {
      Pow2Grows(w - 1, v - 1);
      assert (Pow2(v - 1) - Pow2(w - 1)) * (cfg.blockTime / 2.0) >= 0.0;
    }
  }

  // The view RECOVER_VIEW jumps to was already reached by a correct replica.
  lemma RecoverBelowSomeone(cl: Cluster, s: System, i: nat, v: nat) returns (k: nat)
    requires ValidCluster(cl) && Inv(cl, s) && Correct(cl, i) && PreRecoverView(cl.cfg, s.replicas[i], v)
    ensures Correct(cl, k) && s.replicas[k].view >= v
  {
    var r := s.replicas[i];
    assert Good(cl.cfg, i, r, s.sent);
    var c :| c in r.checkpoints && |RecoveryFacts(r, v, c.n)| >= Quorum(cl.cfg);
    var ks := RecoverySenders(cl.cfg, r, s.sent, v, c.n);
    k := MemberOutside(ks, cl.faulty);
    var x :| CommitMsg(v, c.n, x, k) in s.sent;
    assert Good(cl.cfg, k, s.replicas[k], s.sent);
  }

  // The view moves only by SEND_VIEW_CHANGE and RECOVER_VIEW, and requests come from RECEIVE_REQUEST.
  lemma ViewAndRequests(cfg: Config, i: nat, r: Replica, a: Action)
    ensures var s := Apply(cfg, i, r, a);
      && s.view == (if a.SendViewChangeA? then r.view + 1 else if a.RecoverViewA? then a.v else r.view)
      && forall m :: m in s.requests ==> m in r.requests || (a.ReceiveRequestA? && m.t == a.t)
  {
  }

  lemma WaitedStep(cl: Cluster, s: System, i: nat, a: Action, t0: real)
    requires ValidCluster(cl) && Inv(cl, s) && GrowthInv(cl, s, t0) && Correct(cl, i)
    requires Enabled(cl.cfg, i, s.replicas[i], a, s.clock)
    ensures Waited(cl.cfg, Apply(cl.cfg, i, s.replicas[i], a).view, t0, s.clock)
  {
    var r := s.replicas[i];
    assert Good(cl.cfg, i, r, s.sent);
    ViewAndRequests(cl.cfg, i, r, a);
    if a.SendViewChangeA? {
      var m :| m in r.requests && r.lastRep < m.t && s.clock - m.t > r.timeout;
    } else if a.RecoverViewA? {
      var k := RecoverBelowSomeone(cl, s, i, a.v);
      WaitedLower(cl.cfg, s.replicas[k].view, a.v, t0, s.clock);
    }
  }

  lemma GrowthAct(cl: Cluster, s: System, i: nat, a: Action, s': System, t0: real)
    requires ValidCluster(cl) && Inv(cl, s) && GrowthInv(cl, s, t0) && ActStep(cl, s, i, a, s')
    requires a.ReceiveRequestA? ==> a.t >= t0
    ensures GrowthInv(cl, s', t0)
  {
    WaitedStep(cl, s, i, a, t0);
    ViewAndRequests(cl.cfg, i, s.replicas[i], a);
    assert s'.replicas[i] == Apply(cl.cfg, i, s.replicas[i], a);
    assert forall j: nat :: Correct(cl, j) && j != i ==> s'.replicas[j] == s.replicas[j];
  }

  // The part of RequestsFrom about one event.
  predicate RequestFrom(e: Event, t0: real) {
    e.Act? && e.a.ReceiveRequestA? ==> e.a.t >= t0
  }

  lemma GrowthNext(cl: Cluster, s: System, e: Event, s': System, t0: real)
    requires ValidCluster(cl) && Inv(cl, s) && GrowthInv(cl, s, t0) && Next(cl, s, e, s') && RequestFrom(e, t0)
    ensures |s'.replicas| == cl.cfg.size && GrowthInv(cl, s', t0)
  {
    if e.Act? {
      GrowthAct(cl, s, e.i, e.a, s', t0);
    }
  }

  lemma GrowthInit(cl: Cluster, s: System, t0: real)
    requires Init(cl, s)
    ensures |s.replicas| == cl.cfg.size && GrowthInv(cl, s, t0)
  {
  }

  lemma EventFrom(events: seq<Event>, k: nat, t0: real)
    requires RequestsFrom(events, t0) && k < |events|
    ensures RequestFrom(events[k], t0)
  {
  }

  lemma {:induction false} GrowthRun(cl: Cluster, run: seq<System>, events: seq<Event>, k: nat, t0: real)
    requires ValidCluster(cl) && IsRun(cl, run, events) && k < |run| && RequestsFrom(events, t0)
    ensures |run[k].replicas| == cl.cfg.size && GrowthInv(cl, run[k], t0)
  {
    hide *;
    if k == 0 {
      RunStart(cl, run, events);
      GrowthInit(cl, run[0], t0);
    } else {
      GrowthRun(cl, run, events, k - 1, t0);
      InvRun(cl, run, events, k - 1);
      RunStep(cl, run, events, k);
      EventFrom(events, k - 1, t0);
      GrowthNext(cl, run[k - 1], events[k - 1], run[k], t0);
    }
  }

  // In every run whose requests are stamped t0 or later, a correct replica in view v > 0 satisfies
  // 2^(v-1) * target_block_time / 2 < now - t0.
  lemma ViewsLogarithmic(cl: Cluster, run: seq<System>, events: seq<Event>, k: nat, t0: real, i: nat)
    requires ValidCluster(cl) && IsRun(cl, run, events) && k < |run| && RequestsFrom(events, t0) && Correct(cl, i)
    ensures var v := run[k].replicas[i].view;
      v > 0 ==> Pow2(v - 1) * (cl.cfg.blockTime / 2.0) < run[k].clock - t0
  {
    hide IsRun, RequestsFrom, ValidCluster;
    GrowthRun(cl, run, events, k, t0);
    assert Waited(cl.cfg, run[k].replicas[i].view, t0, run[k].clock);
  }
}
