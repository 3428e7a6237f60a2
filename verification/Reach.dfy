// States some run arrives at, built up action by action.
module Reach {
  import opened Types
  import opened Quorums
  import opened Engine
  import opened System
  import opened RequestSlots

  ghost predicate Reachable(cl: Cluster, sc: Schedule, s: System) {
    exists run, events :: ScheduledRun(cl, sc, run, events) && run[|run| - 1] == s
  }

  // Some run arrives at these replicas at this time with at least these messages sent.
  ghost predicate Arrives(cl: Cluster, sc: Schedule, rs: seq<Replica>, has: set<Msg>, now: real) {
    exists s :: Reachable(cl, sc, s) && s.replicas == rs && has <= s.sent && s.clock == now
  }

  lemma Extend(cl: Cluster, sc: Schedule, s: System, e: Event, s': System)
    requires Reachable(cl, sc, s) && Next(cl, s, e, s') && Scheduled(sc, s, e) && |s'.replicas| == cl.cfg.size
    ensures Reachable(cl, sc, s')
  {
    hide Next, Scheduled, Init;
    var run, events :| ScheduledRun(cl, sc, run, events) && run[|run| - 1] == s;
    var run', events' := run + [s'], events + [e];
    forall k | 0 <= k < |events'| ensures Next(cl, run'[k], events'[k], run'[k + 1]) && Scheduled(sc, run'[k], events'[k]) {
      if k < |events| {
        assert run'[k] == run[k] && run'[k + 1] == run[k + 1] && events'[k] == events[k];
      }
    }
    assert ScheduledRun(cl, sc, run', events') && run'[|run'| - 1] == s';
  }

  // Every replica starts from the same block, at height 0 of the schedule.
  lemma Start(cl: Cluster, sc: Schedule, hash: int, rs: seq<Replica>)
    requires cl.faulty == {} && |rs| == cl.cfg.size
    requires forall i :: 0 <= i < |rs| ==> rs[i] == Initial(cl.cfg, 0, hash, SlotTime(sc, 0))
    ensures Arrives(cl, sc, rs, {}, 0.0)
  {
    var seen := set i | i in Ids(cl.cfg.size) :: Stamp(i, 0, H(rs[i]));
    var s := System(rs, {}, seen, 0.0);
    assert Init(cl, s);
    assert ScheduledRun(cl, sc, [s], []) && [s][|[s]| - 1] == s;
    assert Reachable(cl, sc, s);
  }

  lemma Wait(cl: Cluster, sc: Schedule, rs: seq<Replica>, has: set<Msg>, now: real, later: real)
    requires Arrives(cl, sc, rs, has, now) && now <= later && |rs| == cl.cfg.size
    ensures Arrives(cl, sc, rs, has, later)
  {
    var s :| Reachable(cl, sc, s) && s.replicas == rs && has <= s.sent && s.clock == now;
    Extend(cl, sc, s, Tick(later), s.(clock := later));
  }

  // The action may happen at this replica now, given messages that have been sent.
  ghost predicate May(cl: Cluster, sc: Schedule, i: nat, r: Replica, a: Action, has: set<Msg>, now: real) {
    && i < cl.cfg.size && Enabled(cl.cfg, i, r, a, now) && Delivered(a, has)
    && (a.ReceiveRequestA? ==> Generated(sc, r, a.d, a.t))
    && (a.ReceiveBlockA? ==> a.t == SlotTime(sc, a.n))
  }

  // Replica i acts on known messages. Only the messages listed in more need to be remembered.
  lemma Do(cl: Cluster, sc: Schedule, rs: seq<Replica>, has: set<Msg>, now: real, i: nat, a: Action, known: set<Msg>,
           r: Replica, more: set<Msg>)
    requires cl.faulty == {} && |rs| == cl.cfg.size && Arrives(cl, sc, rs, has, now) && known <= has
    requires i < |rs| && May(cl, sc, i, rs[i], a, known, now) && Apply(cl.cfg, i, rs[i], a) == r
    requires more <= has + Emit(cl.cfg, i, rs[i], a)
    ensures Arrives(cl, sc, rs[i := r], more, now)
  {
    hide Next, Scheduled, Init;
    var s :| Reachable(cl, sc, s) && s.replicas == rs && has <= s.sent && s.clock == now;
    var s' := System(rs[i := r], s.sent + Emit(cl.cfg, i, rs[i], a), s.seen + {Stamp(i, r.view, H(r))}, now);
    StillDelivered(a, known, s.sent);
    Acts(cl, sc, s, i, a, s');
    Extend(cl, sc, s, Act(i, a), s');
  }

  lemma Acts(cl: Cluster, sc: Schedule, s: System, i: nat, a: Action, s': System)
    requires cl.faulty == {} && |s.replicas| == cl.cfg.size && i < |s.replicas|
    requires May(cl, sc, i, s.replicas[i], a, s.sent, s.clock)
    requires var r := Apply(cl.cfg, i, s.replicas[i], a);
      s' == System(s.replicas[i := r], s.sent + Emit(cl.cfg, i, s.replicas[i], a), s.seen + {Stamp(i, r.view, H(r))}, s.clock)
    ensures Next(cl, s, Act(i, a), s') && Scheduled(sc, s, Act(i, a))
  {
  }

  lemma StillDelivered(a: Action, has: set<Msg>, sent: set<Msg>)
    requires Delivered(a, has) && has <= sent
    ensures Delivered(a, sent)
  {
  }
}
