// Every step of a correct replica keeps its invariant against the network.
module Preservation {
  import opened Types
  import opened Engine
  import opened System
  import opened Chi
  import opened FactBase
  import opened Ledger

  // The facts of s are facts of r, so their sources are unchanged.
  lemma SourcesShrink(cfg: Config, r: Replica, s: Replica, sent: set<Msg>)
    requires Sources(cfg, r, sent)
    requires s.prePrepares <= r.prePrepares && s.prepares <= r.prepares && s.commits <= r.commits
    requires s.recovery <= r.recovery && s.viewChanges <= r.viewChanges && s.newViews <= r.newViews
    requires s.pi <= r.pi && s.qi <= r.qi
    ensures Sources(cfg, s, sent)
  {
  }

  lemma SourcesLogging(cfg: Config, i: nat, r: Replica, a: Action, now: real, sent: set<Msg>)
    requires Sources(cfg, r, sent) && Enabled(cfg, i, r, a, now) && Delivered(a, sent) && IsLogging(a)
    ensures Sources(cfg, Apply(cfg, i, r, a), sent + Emit(cfg, i, r, a))
  {
    var more := sent + Emit(cfg, i, r, a);
    SourcesGrow(cfg, r, sent, more);
    var s := Apply(cfg, i, r, a);
    if a.SendPrePrepareA? {
      assert PrePrepareMsg(r.view, a.n, a.d, a.b, i) in more;
    } else if a.SendPrepareA? {
      assert PrepareMsg(r.view, a.n, a.d, i) in more;
    } else if a.SendCommitA? {
      assert CommitMsg(r.view, a.n, a.data, i) in more;
    } else if a.ReceiveCommitA? {
      assert CommitMsg(a.v, a.n, a.data, a.sender) in more;
    }
  }

  lemma SourcesViewLogging(cfg: Config, i: nat, r: Replica, a: Action, now: real, sent: set<Msg>)
    requires Sources(cfg, r, sent) && Enabled(cfg, i, r, a, now) && Delivered(a, sent) && IsViewLogging(a)
    ensures Sources(cfg, Apply(cfg, i, r, a), sent + Emit(cfg, i, r, a))
  {
    var more := sent + Emit(cfg, i, r, a);
    SourcesGrow(cfg, r, sent, more);
    if a.SendNewViewA? {
      assert NewViewMsg(r.view, a.nu, a.chi, i) in more;
    }
  }

  lemma SourcesProcess(cfg: Config, i: nat, r: Replica, s: Replica, nu: seq<NuEntry>, chi: seq<ChiEntry>, sent: set<Msg>)
    requires r.view > 0 && Sources(cfg, r, sent) && NewViewMsg(r.view, nu, chi, Primary(cfg, r.view)) in sent
    requires s.prePrepares == r.prePrepares + ChiPrePrepares(cfg, r.view, chi)
    requires s.prepares == r.prepares + (if Primary(cfg, r.view) == i then {} else ChiPrepares(r.view, chi, i))
    requires s.(prePrepares := r.prePrepares, prepares := r.prepares, active := r.active, seqno := r.seqno) == r
    ensures Sources(cfg, s, sent + (if Primary(cfg, r.view) == i then {} else ChiPrepareMsgs(r.view, chi, i)))
  {
    var more := sent + (if Primary(cfg, r.view) == i then {} else ChiPrepareMsgs(r.view, chi, i));
    SourcesGrow(cfg, r, sent, more);
    forall m | m in ChiPrePrepares(cfg, r.view, chi) ensures Issued(cfg, more, m.v, m.n, m.d, m.b) {
      var e :| e in chi && m == PrePrepare(r.view, e.n, e.d, e.b, Primary(cfg, r.view), InNewView);
      assert e == ChiEntry(m.n, m.d, m.b);
      assert InNewViewOf(more, Primary(cfg, m.v), m.v, e);
    }
    forall m | m in s.prepares && m !in r.prepares ensures PrepareMsg(m.v, m.n, m.d, m.sender) in more {
      var e :| e in chi && m == Prepare(r.view, e.n, e.d, i, Own);
      assert PrepareMsg(r.view, e.n, e.d, i) in ChiPrepareMsgs(r.view, chi, i);
    }
  }

  lemma SourcesSendViewChange(cfg: Config, i: nat, r: Replica, c: int, p: seq<PEntry>, q: seq<QEntry>, sent: set<Msg>)
    requires Local(cfg, i, r) && Sources(cfg, r, sent) && Members(cfg, sent)
    ensures Sources(cfg, SendViewChange(cfg, i, r, c, p, q), sent + {ViewChangeMsg(OwnViewChange(i, r, c, p, q))})
  {
    var s := SendViewChange(cfg, i, r, c, p, q);
    var more := sent + {ViewChangeMsg(OwnViewChange(i, r, c, p, q))};
    SourcesGrow(cfg, r, sent, more);
    forall e | e in s.pi ensures Cert(cfg, more, e.v, e.n, e.d) {
      PreparedInLogIsCert(cfg, i, r, sent, e.d, e.v, e.n);
      CertGrows(cfg, sent, more, e.v, e.n, e.d);
    }
  }

  lemma SourcesStep(cfg: Config, i: nat, r: Replica, a: Action, now: real, sent: set<Msg>)
    requires Local(cfg, i, r) && Sources(cfg, r, sent) && Members(cfg, sent)
    requires Enabled(cfg, i, r, a, now) && Delivered(a, sent)
    ensures Sources(cfg, Apply(cfg, i, r, a), sent + Emit(cfg, i, r, a))
  {
    if IsLogging(a) {
      SourcesLogging(cfg, i, r, a, now, sent);
    } else if IsViewLogging(a) {
      SourcesViewLogging(cfg, i, r, a, now, sent);
    } else if a.SendViewChangeA? {
      SourcesSendViewChange(cfg, i, r, a.c, a.p, a.q, sent);
    } else if a.ProcessNewViewA? {
      SourcesProcess(cfg, i, r, ProcessNewView(cfg, i, r, a.chi), a.nu, a.chi, sent);
    } else {
      assert sent + {} == sent;
      SourcesShrink(cfg, r, Apply(cfg, i, r, a), sent);
    }
  }

  predicate IsSending(a: Action) {
    a.SendPrePrepareA? || a.SendPrepareA? || a.SendCommitA? || a.SendViewChangeA? || a.SendNewViewA? || a.ProcessNewViewA?
  }

  lemma SendsSending(cfg: Config, i: nat, r: Replica, a: Action, now: real, sent: set<Msg>)
    requires Good(cfg, i, r, sent) && Enabled(cfg, i, r, a, now) && IsSending(a)
    ensures Sends(cfg, i, Apply(cfg, i, r, a), sent + Emit(cfg, i, r, a))
  {
    if a.SendPrePrepareA? {
      SendsAddPrePrepare(cfg, i, r, sent, a.d, a.b, a.n);
    } else if a.SendPrepareA? {
      assert HasPrePrepare(r, a.n, a.d);
      SendsAddPrepare(cfg, i, r, sent, a.d, a.n);
    } else if a.SendCommitA? {
      SendsAddCommit(cfg, i, r, sent, a.n, a.data);
    } else if a.SendViewChangeA? {
      SendsAddViewChange(cfg, i, r, sent, a.c, a.p, a.q);
    } else if a.SendNewViewA? {
      ChiOnePerNumber(NuMsgs(cfg, r.viewChanges, a.nu), a.chi);
      SendsAddNewView(cfg, i, r, sent, a.nu, a.chi);
    } else {
      ChiOnePerNumber(NuMsgs(cfg, r.viewChanges, a.nu), a.chi);
      LocalProcess(cfg, i, r, a.nu, a.chi);
      SendsProcess(cfg, i, r, ProcessNewView(cfg, i, r, a.chi), sent, a.nu, a.chi);
    }
  }

  lemma SendsSilent(cfg: Config, i: nat, r: Replica, a: Action, now: real, sent: set<Msg>)
    requires Local(cfg, i, r) && Sends(cfg, i, r, sent) && Enabled(cfg, i, r, a, now) && !IsSending(a)
    requires a.RecoverViewA? ==> Primary(cfg, a.v) != i
    ensures Sends(cfg, i, Apply(cfg, i, r, a), sent)
  {
    var s := Apply(cfg, i, r, a);
    if a.RecoverViewA? {
      BoundedHigherView(cfg, i, r, s, sent);
    } else if a.ReceiveBlockA? {
      BlockH(r, a.d, a.n, a.t, a.val);
      BoundedFrame(cfg, i, r, s, sent);
    } else {
      SameH(r, s);
      BoundedFrame(cfg, i, r, s, sent);
    }
  }

  // The per-replica invariant is kept by every step, provided RECOVER_VIEW never makes the
  // replica itself the primary.
  lemma GoodStep(cfg: Config, i: nat, r: Replica, a: Action, now: real, sent: set<Msg>)
    requires Good(cfg, i, r, sent) && Members(cfg, sent)
    requires Enabled(cfg, i, r, a, now) && Delivered(a, sent)
    requires a.RecoverViewA? ==> Primary(cfg, a.v) != i
    ensures Good(cfg, i, Apply(cfg, i, r, a), sent + Emit(cfg, i, r, a))
  {
    forall m | m in r.viewChanges && m.sender == i ensures m.v <= r.view {
      assert ViewChangeMsg(m) in sent;
    }
    LocalStep(cfg, i, r, a, now);
    SourcesStep(cfg, i, r, a, now, sent);
    if IsSending(a) {
      SendsSending(cfg, i, r, a, now, sent);
    } else {
      SendsSilent(cfg, i, r, a, now, sent);
      assert sent + {} == sent;
    }
  }

  lemma EmitSender(cfg: Config, i: nat, r: Replica, a: Action, m: Msg)
    requires m in Emit(cfg, i, r, a)
    ensures Sender(m) == i
  {
  }
}
