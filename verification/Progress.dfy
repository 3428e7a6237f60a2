// What the messages accomplish: a replica that has received enough of them, in whatever order, is
// prepared, is committed, may recover, may announce the next view and may propose in it.
module Progress {
  import opened Types
  import opened Quorums
  import opened Engine
  import opened System
  import opened FactBase
  import opened Ledger
  import opened Agreement

  // Replica i takes action a between states j and k.
  ghost predicate Takes(events: seq<Event>, i: nat, a: Action, j: nat, k: nat) {
    exists m: nat :: j <= m < k && m < |events| && events[m] == Act(i, a)
  }

  lemma TakenAt(events: seq<Event>, i: nat, a: Action, j: nat, k: nat) returns (m: nat)
    requires Takes(events, i, a, j, k)
    ensures j <= m < k && m < |events| && events[m] == Act(i, a)
  {
    m :| j <= m < k && m < |events| && events[m] == Act(i, a);
  }

  // ---------- what stays while a replica stays in its view and window ----------

  ghost predicate Stays(run: seq<System>, i: nat, j: nat, k: nat, v: nat, n: nat) {
    forall m: nat :: j <= m <= k && m < |run| ==>
      i < |run[m].replicas| && run[m].replicas[i].view == v && H(run[m].replicas[i]) + 1 == n
  }

  ghost predicate Keeps(r: Replica, s: Replica) {
    && r.requests <= s.requests && r.prePrepares <= s.prePrepares && r.prepares <= s.prepares
    && r.commits <= s.commits && s.qi == r.qi
  }

  lemma KeepsStep(cfg: Config, i: nat, r: Replica, a: Action, now: real)
    requires Local(cfg, i, r) && Enabled(cfg, i, r, a, now)
    requires Apply(cfg, i, r, a).view == r.view && H(Apply(cfg, i, r, a)) == H(r)
    ensures Keeps(r, Apply(cfg, i, r, a))
  {
    if a.ReceiveBlockA? {
      BlockH(r, a.d, a.n, a.t, a.val);
      assert false;
    }
  }

  lemma KeepsNext(cl: Cluster, s: System, e: Event, s': System, i: nat)
    requires Inv(cl, s) && Next(cl, s, e, s') && Correct(cl, i) && |s.replicas| == |s'.replicas| == cl.cfg.size
    requires s'.replicas[i].view == s.replicas[i].view && H(s'.replicas[i]) == H(s.replicas[i])
    ensures Keeps(s.replicas[i], s'.replicas[i])
  {
    hide Apply, H, Enabled, Emit, Keeps;
    if e.Act? && e.i == i {
      assert Good(cl.cfg, i, s.replicas[i], s.sent);
      KeepsStep(cl.cfg, i, s.replicas[i], e.a, s.clock);
    } else {
      KeepsSame(s.replicas[i]);
    }
  }

  lemma KeepsSame(r: Replica)
    ensures Keeps(r, r)
  {
  }

  lemma KeepsOn(r: Replica, s: Replica, t: Replica)
    requires Keeps(r, s) && Keeps(s, t)
    ensures Keeps(r, t)
  {
  }

  lemma StaysAt(run: seq<System>, i: nat, j: nat, k: nat, v: nat, n: nat, m: nat)
    requires Stays(run, i, j, k, v, n) && j <= m <= k < |run|
    ensures i < |run[m].replicas| && run[m].replicas[i].view == v && H(run[m].replicas[i]) + 1 == n
    ensures Stays(run, i, j, m, v, n) && Stays(run, i, m, k, v, n)
  {
  }

  lemma RunSize(cl: Cluster, run: seq<System>, events: seq<Event>, k: nat)
    requires IsRun(cl, run, events) && k < |run|
    ensures |run| == |events| + 1 && |run[k].replicas| == cl.cfg.size
  {
  }

  lemma {:induction false} KeepsAlong(cl: Cluster, run: seq<System>, events: seq<Event>, i: nat, j: nat, k: nat, v: nat, n: nat)
    requires ValidCluster(cl) && IsRun(cl, run, events) && j <= k < |run| && Correct(cl, i) && Stays(run, i, j, k, v, n)
    ensures i < |run[j].replicas| && i < |run[k].replicas|
    ensures Keeps(run[j].replicas[i], run[k].replicas[i])
    decreases k - j
  {
    hide *;
    StaysAt(run, i, j, k, v, n, j);
    StaysAt(run, i, j, k, v, n, k);
    if j < k {
      StaysAt(run, i, j, k, v, n, k - 1);
      KeepsAlong(cl, run, events, i, j, k - 1, v, n);
      InvRun(cl, run, events, k - 1);
      RunStep(cl, run, events, k);
      RunSize(cl, run, events, k - 1);
      RunSize(cl, run, events, k);
      KeepsNext(cl, run[k - 1], events[k - 1], run[k], i);
      KeepsOn(run[j].replicas[i], run[k - 1].replicas[i], run[k].replicas[i]);
    } else {
      KeepsSame(run[j].replicas[i]);
    }
  }

  lemma Acted(cl: Cluster, s: System, i: nat, a: Action, s': System)
    requires Inv(cl, s) && Next(cl, s, Act(i, a), s')
    ensures i < |s.replicas| == |s'.replicas| && Local(cl.cfg, i, s.replicas[i])
    ensures Enabled(cl.cfg, i, s.replicas[i], a, s.clock) && s'.replicas[i] == Apply(cl.cfg, i, s.replicas[i], a)
  {
    hide Enabled, Apply, Emit, Local;
    assert Good(cl.cfg, i, s.replicas[i], s.sent);
  }

  // What an action between j and k left is still there at k.
  lemma KeptSince(cl: Cluster, run: seq<System>, events: seq<Event>, i: nat, a: Action, j: nat, k: nat, v: nat, n: nat)
    returns (r: Replica, now: real)
    requires ValidCluster(cl) && IsRun(cl, run, events) && k < |run| && Correct(cl, i) && Stays(run, i, j, k, v, n)
    requires Takes(events, i, a, j, k)
    ensures i < |run[k].replicas| && r.view == v && H(r) + 1 == n
    ensures Local(cl.cfg, i, r) && Enabled(cl.cfg, i, r, a, now) && Keeps(Apply(cl.cfg, i, r, a), run[k].replicas[i])
  {
    hide *;
    RunSize(cl, run, events, k);
    var m := TakenAt(events, i, a, j, k);
    StaysAt(run, i, j, k, v, n, m);
    StaysAt(run, i, j, k, v, n, m + 1);
    StaysAt(run, i, j, k, v, n, k);
    RunStep(cl, run, events, m + 1);
    InvRun(cl, run, events, m);
    Acted(cl, run[m], i, a, run[m + 1]);
    KeepsAlong(cl, run, events, i, m + 1, k, v, n);
    r, now := run[m].replicas[i], run[m].clock;
  }

  // ---------- PREPAREs ----------

  // The PREPARE of replica k, received or its own.
  ghost predicate HasPrepare(events: seq<Event>, i: nat, j: nat, k: nat, v: nat, n: nat, d: Digest, sender: nat) {
    Takes(events, i, if sender == i then SendPrepareA(d, n) else ReceivePrepareA(v, n, d, sender), j, k)
  }

  // The proposal of the primary of v, received or its own.
  ghost predicate HasProposal(cfg: Config, events: seq<Event>, i: nat, j: nat, k: nat, v: nat, n: nat, d: Digest, b: Block) {
    var p := Primary(cfg, v);
    Takes(events, i, if p == i then SendPrePrepareA(d, b, n) else ReceivePrePrepareA(v, n, d, b, p), j, k)
  }

  function PrepareFact(i: nat, v: nat, n: nat, d: Digest, sender: nat): Prepare {
    Prepare(v, n, d, sender, if sender == i then Own else Wire)
  }

  lemma LogsVotes(cfg: Config, i: nat, r: Replica, n: nat, d: Digest, b: Block, k: nat)
    ensures PrepareFact(i, r.view, n, d, i) in Apply(cfg, i, r, SendPrepareA(d, n)).prepares
    ensures k != i ==> PrepareFact(i, r.view, n, d, k) in Apply(cfg, i, r, ReceivePrepareA(r.view, n, d, k)).prepares
    ensures PrePrepare(r.view, n, d, b, i, Own) in Apply(cfg, i, r, SendPrePrepareA(d, b, n)).prePrepares
    ensures PrePrepare(r.view, n, d, b, k, Wire) in Apply(cfg, i, r, ReceivePrePrepareA(r.view, n, d, b, k)).prePrepares
  {
  }

  lemma PrepareLogged(cl: Cluster, run: seq<System>, events: seq<Event>, i: nat, j: nat, k: nat, v: nat, n: nat,
                      d: Digest, sender: nat)
    requires ValidCluster(cl) && IsRun(cl, run, events) && k < |run| && Correct(cl, i) && Stays(run, i, j, k, v, n)
    requires HasPrepare(events, i, j, k, v, n, d, sender)
    ensures i < |run[k].replicas| && PrepareFact(i, v, n, d, sender) in run[k].replicas[i].prepares
  {
    hide IsRun, Stays, Takes, ValidCluster, H, Local, Enabled, Apply, PrepareFact;
    var a := if sender == i then SendPrepareA(d, n) else ReceivePrepareA(v, n, d, sender);
    var r, now := KeptSince(cl, run, events, i, a, j, k, v, n);
    LogsVotes(cl.cfg, i, r, n, d, Unbound, sender);
  }

  lemma ProposalLogged(cl: Cluster, run: seq<System>, events: seq<Event>, i: nat, j: nat, k: nat, v: nat, n: nat,
                       d: Digest, b: Block)
    requires ValidCluster(cl) && IsRun(cl, run, events) && k < |run| && Correct(cl, i) && Stays(run, i, j, k, v, n)
    requires HasProposal(cl.cfg, events, i, j, k, v, n, d, b)
    ensures i < |run[k].replicas| && LoggedPrePrepare(cl.cfg, run[k].replicas[i], d, v, n)
  {
    hide IsRun, Stays, Takes, ValidCluster, H, Local, Enabled, Apply, Primary;
    var p := Primary(cl.cfg, v);
    var a := if p == i then SendPrePrepareA(d, b, n) else ReceivePrePrepareA(v, n, d, b, p);
    var r, now := KeptSince(cl, run, events, i, a, j, k, v, n);
    LogsVotes(cl.cfg, i, r, n, d, b, p);
    assert PrePrepare(v, n, d, b, p, if p == i then Own else Wire) in run[k].replicas[i].prePrepares;
  }

  lemma CountPrepares(r: Replica, i: nat, v: nat, n: nat, d: Digest, voters: set<nat>)
    requires forall s :: s in voters ==> PrepareFact(i, v, n, d, s) in r.prepares
    ensures |PrepareFacts(r, d, v, n)| >= |voters|
  {
    var f := (s: nat) => PrepareFact(i, v, n, d, s);
    InjectiveImage(voters, f);
    SubsetCard(Image(voters, f), PrepareFacts(r, d, v, n));
  }

  lemma PreparedBy(cfg: Config, r: Replica, d: Digest, v: nat, n: nat)
    requires HasRequest(r, d) && LoggedPrePrepare(cfg, r, d, v, n) && |PrepareFacts(r, d, v, n)| >= 2 * F(cfg)
    ensures Prepared(cfg, r, d, v, n)
  {
  }

  lemma RequestKept(r: Replica, s: Replica, d: Digest)
    requires Keeps(r, s) && HasRequest(r, d)
    ensures HasRequest(s, d)
  {
    var t :| Request(d, t) in r.requests;
    assert Request(d, t) in s.requests;
  }

  // A replica that stays in view v with n = h + 1, has logged the request at some point of that time, and
  // has during it got the proposal of the primary and the PREPAREs of 2F replicas, its own among them if
  // it has sent one, is prepared, whatever the order.
  lemma PreparesSuffice(cl: Cluster, run: seq<System>, events: seq<Event>, i: nat, j: nat, m: nat, k: nat, v: nat, n: nat,
                        d: Digest, b: Block, voters: set<nat>)
    requires ValidCluster(cl) && IsRun(cl, run, events) && j <= m <= k < |run| && Correct(cl, i) && Stays(run, i, j, k, v, n)
    requires HasRequest(run[m].replicas[i], d) && HasProposal(cl.cfg, events, i, j, k, v, n, d, b)
    requires |voters| >= 2 * F(cl.cfg) && forall s :: s in voters ==> HasPrepare(events, i, j, k, v, n, d, s)
    ensures Prepared(cl.cfg, run[k].replicas[i], d, v, n)
  {
    hide *;
    StaysAt(run, i, j, k, v, n, k);
    StaysAt(run, i, j, k, v, n, m);
    forall s | s in voters ensures PrepareFact(i, v, n, d, s) in run[k].replicas[i].prepares {
      PrepareLogged(cl, run, events, i, j, k, v, n, d, s);
    }
    CountPrepares(run[k].replicas[i], i, v, n, d, voters);
    ProposalLogged(cl, run, events, i, j, k, v, n, d, b);
    KeepsAlong(cl, run, events, i, m, k, v, n);
    RequestKept(run[m].replicas[i], run[k].replicas[i], d);
    PreparedBy(cl.cfg, run[k].replicas[i], d, v, n);
  }

  // ---------- COMMITs ----------

  lemma LogsCommit(cfg: Config, i: nat, r: Replica, v: nat, n: nat, data: int, k: nat, now: real)
    requires Local(cfg, i, r) && r.view == v && H(r) + 1 == n
    ensures Commit(v, n, data, k, Wire) in Apply(cfg, i, r, ReceiveCommitA(v, n, data, k)).commits
  {
  }

  // The COMMIT of replica k, received or its own.
  ghost predicate HasCommit(events: seq<Event>, i: nat, j: nat, k: nat, v: nat, n: nat, data: int, sender: nat) {
    if sender == i then exists d :: Takes(events, i, SendCommitA(d, n, data), j, k)
    else Takes(events, i, ReceiveCommitA(v, n, data, sender), j, k)
  }

  function CommitFact(i: nat, v: nat, n: nat, data: int, sender: nat): Commit {
    Commit(v, n, data, sender, if sender == i then Own else Wire)
  }

  lemma CommitLogged(cl: Cluster, run: seq<System>, events: seq<Event>, i: nat, j: nat, k: nat, v: nat, n: nat,
                     data: int, sender: nat)
    requires ValidCluster(cl) && IsRun(cl, run, events) && k < |run| && Correct(cl, i) && Stays(run, i, j, k, v, n)
    requires HasCommit(events, i, j, k, v, n, data, sender)
    ensures i < |run[k].replicas| && CommitFact(i, v, n, data, sender) in run[k].replicas[i].commits
  {
    hide IsRun, Stays, Takes, ValidCluster, H, Local, Enabled;
    if sender == i {
      var d :| Takes(events, i, SendCommitA(d, n, data), j, k);
      var r, now := KeptSince(cl, run, events, i, SendCommitA(d, n, data), j, k, v, n);
    } else {
      var r, now := KeptSince(cl, run, events, i, ReceiveCommitA(v, n, data, sender), j, k, v, n);
      LogsCommit(cl.cfg, i, r, v, n, data, sender, now);
    }
  }

  lemma CountCommits(cfg: Config, r: Replica, i: nat, v: nat, n: nat, data: map<nat, int>)
    requires forall s :: s in data ==> CommitFact(i, v, n, data[s], s) in r.commits
    ensures |CommitFacts(r, v, n)| >= |data|
  {
    var f := (s: nat) => CommitFact(i, v, n, if s in data then data[s] else 0, s);
    InjectiveImage(data.Keys, f);
    SubsetCard(Image(data.Keys, f), CommitFacts(r, v, n));
    assert |data.Keys| == |data|;
  }

  lemma PreparedKept(cfg: Config, i: nat, r: Replica, s: Replica, d: Digest, n: nat)
    requires Local(cfg, i, r) && Keeps(r, s) && Prepared(cfg, r, d, r.view, n)
    ensures Prepared(cfg, s, d, r.view, n)
  {
    assert PreparedInLog(cfg, r, d, r.view, n);
    SubsetCard(PrepareFacts(r, d, r.view, n), PrepareFacts(s, d, r.view, n));
    var b, sig :| PrePrepare(r.view, n, d, b, Primary(cfg, r.view), sig) in r.prePrepares;
    assert PrePrepare(r.view, n, d, b, Primary(cfg, r.view), sig) in s.prePrepares;
    var t :| Request(d, t) in r.requests;
    assert Request(d, t) in s.requests;
  }

  // A replica that stays in view v with n = h + 1, is prepared at (v, n) at some point of that time, and
  // has during it sent its own COMMIT and received those of 2F others has committed, whatever the order.
  lemma CommitsSuffice(cl: Cluster, run: seq<System>, events: seq<Event>, i: nat, j: nat, m: nat, k: nat, v: nat, n: nat,
                       d: Digest, data: map<nat, int>)
    requires ValidCluster(cl) && IsRun(cl, run, events) && j <= m <= k < |run| && Correct(cl, i) && Stays(run, i, j, k, v, n)
    requires Prepared(cl.cfg, run[m].replicas[i], d, v, n)
    requires |data| >= Quorum(cl.cfg) && forall s :: s in data ==> HasCommit(events, i, j, k, v, n, data[s], s)
    ensures Committed(cl.cfg, run[k].replicas[i], d, v, n)
  {
    hide *;
    StaysAt(run, i, j, k, v, n, k);
    forall s | s in data ensures CommitFact(i, v, n, data[s], s) in run[k].replicas[i].commits {
      CommitLogged(cl, run, events, i, j, k, v, n, data[s], s);
    }
    CountCommits(cl.cfg, run[k].replicas[i], i, v, n, data);
    StaysAt(run, i, j, k, v, n, m);
    InvRun(cl, run, events, m);
    KeepsAlong(cl, run, events, i, m, k, v, n);
    StillPrepared(cl, run[m], i, run[k].replicas[i], d, n);
    CommittedBy(cl.cfg, run[k].replicas[i], d, v, n);
  }

  lemma CommittedBy(cfg: Config, r: Replica, d: Digest, v: nat, n: nat)
    requires Prepared(cfg, r, d, v, n) && |CommitFacts(r, v, n)| >= Quorum(cfg)
    ensures Committed(cfg, r, d, v, n)
  {
  }

  lemma StillPrepared(cl: Cluster, s: System, i: nat, r: Replica, d: Digest, n: nat)
    requires Inv(cl, s) && Correct(cl, i) && i < |s.replicas| && Keeps(s.replicas[i], r)
    requires Prepared(cl.cfg, s.replicas[i], d, s.replicas[i].view, n)
    ensures Prepared(cl.cfg, r, d, s.replicas[i].view, n)
  {
    hide Prepared, Keeps, Local;
    assert Good(cl.cfg, i, s.replicas[i], s.sent);
    PreparedKept(cl.cfg, i, s.replicas[i], r, d, n);
  }

  // Its primary may then EXECUTE once a ROAST session is final, and no one else may.
  lemma CommittedExecutes(cfg: Config, i: nat, r: Replica, d: Digest, v: nat, n: nat)
    ensures (exists t :: PreExecute(cfg, i, r, d, t, v, n, true)) <==>
            Committed(cfg, r, d, v, n) && n == r.lastExec + 1 && Primary(cfg, v) == i
  {
    hide Committed;
    if Committed(cfg, r, d, v, n) && n == r.lastExec + 1 && Primary(cfg, v) == i {
      var t :| HasRequest(r, d) ==> Request(d, t) in r.requests;
      assert PreExecute(cfg, i, r, d, t, v, n, true);
    }
  }

  // ---------- RECOVER_VIEW ----------

  lemma LaterView(cl: Cluster, s: System, e: Event, s': System, i: nat)
    requires Inv(cl, s) && Next(cl, s, e, s') && Correct(cl, i) && |s.replicas| == |s'.replicas| == cl.cfg.size
    ensures s.replicas[i].view <= s'.replicas[i].view && s.replicas[i].recovery <= s'.replicas[i].recovery
    ensures forall vc :: vc in s.replicas[i].viewChanges && vc.v >= s'.replicas[i].view ==> vc in s'.replicas[i].viewChanges
  {
    if e.Act? && e.i == i {
      assert Good(cl.cfg, i, s.replicas[i], s.sent);
      RemembersStep(cl.cfg, i, s.replicas[i], e.a, s.clock);
    }
  }

  // No action forgets a COMMIT of a later view, or a VIEW-CHANGE for the view it is in or a later one.
  lemma RemembersStep(cfg: Config, i: nat, r: Replica, a: Action, now: real)
    requires Local(cfg, i, r) && Enabled(cfg, i, r, a, now)
    ensures var s := Apply(cfg, i, r, a);
      && r.view <= s.view && r.recovery <= s.recovery
      && forall vc :: vc in r.viewChanges && vc.v >= s.view ==> vc in s.viewChanges
  {
  }

  lemma {:induction false} Remembers(cl: Cluster, run: seq<System>, events: seq<Event>, i: nat, j: nat, k: nat)
    requires ValidCluster(cl) && IsRun(cl, run, events) && j <= k < |run| && Correct(cl, i)
    ensures i < cl.cfg.size == |run[j].replicas| == |run[k].replicas|
    ensures var r, s := run[j].replicas[i], run[k].replicas[i];
      && r.view <= s.view && r.recovery <= s.recovery
      && forall vc :: vc in r.viewChanges && vc.v >= s.view ==> vc in s.viewChanges
    decreases k - j
  {
    hide IsRun, Next, Inv, ValidCluster;
    RunSize(cl, run, events, j);
    RunSize(cl, run, events, k);
    if j < k {
      Remembers(cl, run, events, i, j, k - 1);
      InvRun(cl, run, events, k - 1);
      RunStep(cl, run, events, k);
      LaterView(cl, run[k - 1], events[k - 1], run[k], i);
    }
  }

  // Some COMMIT of replica k for (v, n) has reached replica i.
  ghost predicate GotCommit(events: seq<Event>, i: nat, k: nat, v: nat, n: nat, sender: nat) {
    exists data :: Takes(events, i, ReceiveCommitA(v, n, data, sender), 0, k)
  }

  lemma RecoveryLogged(cl: Cluster, run: seq<System>, events: seq<Event>, i: nat, k: nat, v: nat, n: nat, sender: nat)
    requires ValidCluster(cl) && IsRun(cl, run, events) && k < |run| && Correct(cl, i)
    requires GotCommit(events, i, k, v, n, sender)
    ensures i < |run[k].replicas| && (v > run[k].replicas[i].view ==> Recovery(v, n, sender) in run[k].replicas[i].recovery)
  {
    var data :| Takes(events, i, ReceiveCommitA(v, n, data, sender), 0, k);
    var a := ReceiveCommitA(v, n, data, sender);
    hide IsRun, Next, Inv, ValidCluster, Takes, Local, Enabled;
    var m := TakenAt(events, i, a, 0, k);
    RunStep(cl, run, events, m + 1);
    InvRun(cl, run, events, m);
    Acted(cl, run[m], i, a, run[m + 1]);
    Remembers(cl, run, events, i, m, k);
    Remembers(cl, run, events, i, m + 1, k);
  }

  lemma GreatestOf(vs: set<nat>) returns (v: nat)
    requires vs != {}
    ensures v in vs && forall w :: w in vs ==> w <= v
    decreases |vs|
  {
    var a :| a in vs;
    if vs == {a} {
      v := a;
    } else {
      assert |vs - {a}| < |vs|;
      var b := GreatestOf(vs - {a});
      v := if a <= b then b else a;
      assert forall w :: w in vs ==> w == a || w in vs - {a};
    }
  }

  lemma CountRecovery(r: Replica, v: nat, n: nat, senders: set<nat>)
    requires forall s :: s in senders ==> Recovery(v, n, s) in r.recovery
    ensures |RecoveryFacts(r, v, n)| >= |senders|
  {
    var f := (s: nat) => Recovery(v, n, s);
    InjectiveImage(senders, f);
    SubsetCard(Image(senders, f), RecoveryFacts(r, v, n));
  }

  // An active replica that has received COMMITs of 2F + 1 replicas for the height of its checkpoint in a
  // view v it is not yet in, at whatever time and in whatever view of its own, may recover to v or later.
  lemma CommitsRecover(cl: Cluster, run: seq<System>, events: seq<Event>, i: nat, k: nat, v: nat, senders: set<nat>)
    requires ValidCluster(cl) && IsRun(cl, run, events) && k < |run| && Correct(cl, i)
    requires run[k].replicas[i].active && v > run[k].replicas[i].view && |senders| >= Quorum(cl.cfg)
    requires forall s :: s in senders ==> GotCommit(events, i, k, v, H(run[k].replicas[i]), s)
    ensures exists w :: w >= v && PreRecoverView(cl.cfg, run[k].replicas[i], w)
  {
    var r := run[k].replicas[i];
    InvRun(cl, run, events, k);
    assert Local(cl.cfg, i, r) by {
      assert Good(cl.cfg, i, r, run[k].sent);
    }
    hide IsRun, Inv, ValidCluster, GotCommit, Local, H, PreRecoverView;
    forall s | s in senders ensures Recovery(v, H(r), s) in r.recovery {
      RecoveryLogged(cl, run, events, i, k, v, H(r), s);
    }
    CountRecovery(r, v, H(r), senders);
    MayRecover(cl.cfg, i, r, v);
  }

  lemma MayRecover(cfg: Config, i: nat, r: Replica, v: nat)
    requires Local(cfg, i, r) && r.active && v > r.view && |RecoveryFacts(r, v, H(r))| >= Quorum(cfg)
    ensures exists w :: w >= v && PreRecoverView(cfg, r, w)
  {
    var c :| r.checkpoints == {c};
    HOfOne(r, c);
    assert c in r.checkpoints && Recoverable(cfg, r, v);
    hide RecoveryFacts, H, Local;
    var vs := set m | m in r.recovery && Recoverable(cfg, r, m.v) :: m.v;
    forall w: nat | Recoverable(cfg, r, w) ensures w in vs {
      HasRecovery(cfg, r, w);
    }
    assert v in vs;
    var w := GreatestOf(vs);
    assert PreRecoverView(cfg, r, w);
  }

  lemma HasRecovery(cfg: Config, r: Replica, w: nat)
    requires Recoverable(cfg, r, w)
    ensures exists m :: m in r.recovery && m.v == w
  {
    var c :| c in r.checkpoints && |RecoveryFacts(r, w, c.n)| >= Quorum(cfg);
    assert RecoveryFacts(r, w, c.n) != {};
    var m :| m in RecoveryFacts(r, w, c.n);
    assert m in r.recovery && m.v == w;
  }

  // RECOVER_VIEW takes the replica to that view with its timeout and empty logs, still active, and there
  // is nothing more to recover to; checkpoint, requests and recovery log stay.
  lemma RecoverSettles(cfg: Config, i: nat, r: Replica, v: nat)
    requires Local(cfg, i, r) && PreRecoverView(cfg, r, v)
    ensures var s := Apply(cfg, i, r, RecoverViewA(v));
      && s.view == v > r.view && s.active && s.timeout == Pow2(v) * (cfg.blockTime / 2.0)
      && s.prePrepares == {} && s.prepares == {} && s.commits == {}
      && s.checkpoints == r.checkpoints && s.requests == r.requests && s.recovery == r.recovery
      && s.pi == r.pi && s.qi == r.qi && s.lastExec == r.lastExec && s.lastRep == r.lastRep && s.val == r.val
      && (forall w :: !PreRecoverView(cfg, s, w))
      && (forall vc :: vc in s.viewChanges <==> vc in r.viewChanges && vc.v >= v)
  {
    var s := Apply(cfg, i, r, RecoverViewA(v));
    forall w ensures !PreRecoverView(cfg, s, w) {
      if Recoverable(cfg, s, w) {
        SameRecovery(cfg, r, s, w);
      }
    }
  }

  lemma SameRecovery(cfg: Config, r: Replica, s: Replica, w: nat)
    requires Recoverable(cfg, s, w) && s.recovery == r.recovery && s.checkpoints == r.checkpoints && s.view >= r.view
    ensures Recoverable(cfg, r, w)
  {
    var c :| c in s.checkpoints && |RecoveryFacts(s, w, c.n)| >= Quorum(cfg);
    assert RecoveryFacts(s, w, c.n) == RecoveryFacts(r, w, c.n);
  }
}
