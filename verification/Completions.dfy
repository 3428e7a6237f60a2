// Two more runs of the four replicas: one ends in EXECUTE, one in RECOVER_VIEW.
module Completions {
  import opened Types
  import opened Engine
  import opened System
  import opened Reach
  import opened FourReplicas
  import ViewZero

  // ---------- EXECUTE ----------

  const NEXT := 9

  // Replica 0 with its own COMMIT for slot 2 and those of others.
  function WithCommits(x: Scene, others: set<Commit>): Replica {
    Done(x, 0).(commits := {Commit(0, 2, DATA, 0, Own)} + others)
  }

  function Heard(k: nat): Commit {
    Commit(0, 2, DATA, k, Wire)
  }

  function Settled(x: Scene): Replica {
    WithCommits(x, {Heard(1)} + {Heard(3)})
  }

  function Executed(x: Scene): Replica {
    Settled(x).(lastExec := 2, lastRep := 2.0, val := NEXT)
  }

  lemma LogsCommit(x: Scene, others: set<Commit>, k: nat, has: set<Msg>)
    requires Valid(x) && (k == 1 || k == 3) && CommitOf(k) in has
    ensures May(Group(x), x.sc, 0, WithCommits(x, others), ReceiveCommitA(0, 2, DATA, k), has, 10.0)
    ensures ReceiveCommit(WithCommits(x, others), 0, 2, DATA, k) == WithCommits(x, others + {Heard(k)})
  {
    HIs(WithCommits(x, others), 1, TIP, 1.0);
    assert {Commit(0, 2, DATA, 0, Own)} + others + {Heard(k)} == {Commit(0, 2, DATA, 0, Own)} + (others + {Heard(k)});
  }

  lemma HearStep(x: Scene, rs: seq<Replica>, has: set<Msg>, others: set<Commit>, k: nat, rs': seq<Replica>)
    requires Valid(x) && |rs| == 4 && (k == 1 || k == 3) && rs[0] == WithCommits(x, others) && At(x, rs, has) && CommitOf(k) in has
    requires rs' == rs[0 := WithCommits(x, others + {Heard(k)})]
    ensures At(x, rs', has)
  {
    LogsCommit(x, others, k, has);
    hide WithCommits, Heard, Arrives, At, May, Valid;
    Step(x, rs, has, 0, ReceiveCommitA(0, 2, DATA, k), has, rs', has);
  }

  lemma SettledCommitted(x: Scene)
    requires Valid(x)
    ensures Committed(x.cfg, Settled(x), D(x, 2), 0, 2)
  {
    var r := Settled(x);
    PreparedThere(x, 0, Done(x, 0));
    assert PrePrepared(x.cfg, r, D(x, 2), 0, 2) by {
      assert Request(D(x, 2), 2.0) in r.requests;
      assert PrePrepare(0, 2, D(x, 2), x.b2, Primary(x.cfg, 0), Own) in r.prePrepares;
    }
    assert PrepareFacts(r, D(x, 2), 0, 2) == PrepareFacts(Done(x, 0), D(x, 2), 0, 2);
    assert CommitFacts(r, 0, 2) == {Commit(0, 2, DATA, 0, Own), Heard(1), Heard(3)};
    assert |{Commit(0, 2, DATA, 0, Own), Heard(1), Heard(3)}| == 3;
  }

  lemma MayExecute(x: Scene)
    requires Valid(x)
    ensures May(Group(x), x.sc, 0, Settled(x), ExecuteA(D(x, 2), 2.0, 0, 2, NEXT, true), {}, 10.0)
    ensures Execute(Settled(x), D(x, 2), 2.0, 2, NEXT) == Executed(x)
  {
    SettledCommitted(x);
    assert Request(D(x, 2), 2.0) in Settled(x).requests;
    hide Committed;
  }

  // Slot 2 is committed at the primary, which then executes it.
  lemma ExecutesSlot2(x: Scene) returns (before: seq<Replica>, after: seq<Replica>, has: set<Msg>)
    requires Valid(x)
    ensures |before| == 4 && At(x, before, has) && Committed(x.cfg, before[0], D(x, 2), 0, 2)
    ensures before[0].lastExec == 1 && before[0].lastRep == 1.0 && before[0].val == TIP
    ensures |after| == 4 && At(x, after, has)
    ensures after[0] == before[0].(lastExec := 2, lastRep := 2.0, val := NEXT)
  {
    var z, d1, d3 := Behind(x), Done(x, 1), Done(x, 3);
    assert Done(x, 0) == WithCommits(x, {});
    assert {} + {Heard(1)} + {Heard(3)} == {Heard(1)} + {Heard(3)};
    SettledCommitted(x);
    MayExecute(x);
    assert Settled(x).lastExec == 1 && Settled(x).lastRep == 1.0 && Settled(x).val == TIP;
    hide Behind, Done, WithCommits, CommitOf, Offer, Committed, Execute, Heard, D, Arrives, At, May, Valid;
    has := Committed3(x);
    HearStep(x, [WithCommits(x, {}), d1, z, d3], has, {}, 1, [WithCommits(x, {} + {Heard(1)}), d1, z, d3]);
    HearStep(x, [WithCommits(x, {} + {Heard(1)}), d1, z, d3], has, {} + {Heard(1)}, 3, [Settled(x), d1, z, d3]);
    before, after := [Settled(x), d1, z, d3], [Executed(x), d1, z, d3];
    Step(x, before, has, 0, ExecuteA(D(x, 2), 2.0, 0, 2, NEXT, true), {}, after, has);
  }

  // ---------- RECOVER_VIEW ----------

  // In view 1 all three backups of view 0 prepare slot 1 and commit to it.
  function Full(x: Scene, i: nat): Replica {
    ViewZero.Logged(x, i).(prepares := {ViewZero.Second1(x, i, 2)} + {ViewZero.Second1(x, i, 3)})
  }

  function Sent(x: Scene, i: nat): Replica {
    Full(x, i).(commits := {Commit(1, 1, DATA, i, Own)})
  }

  function Vote2Msg(x: Scene, k: nat): Msg {
    PrepareMsg(1, 1, D(x, 1), k)
  }

  function Commit1Msg(k: nat): Msg {
    CommitMsg(1, 1, DATA, k)
  }

  lemma HearsVote(x: Scene, i: nat, ps: set<Prepare>, k: nat, has: set<Msg>)
    requires Valid(x) && 1 <= i < 4 && (k == 2 || k == 3) && i != k && Vote2Msg(x, k) in has
    ensures var r := ViewZero.Logged(x, i).(prepares := ps);
      && May(Group(x), x.sc, i, r, ReceivePrepareA(1, 1, D(x, 1), k), has, 10.0)
      && ReceivePrepare(r, 1, 1, D(x, 1), k) == r.(prepares := ps + {ViewZero.Second1(x, i, k)})
  {
    ViewZero.AtGenesis(x, ViewZero.Logged(x, i).(prepares := ps));
  }

  lemma VoteHeard(x: Scene, rs: seq<Replica>, has: set<Msg>, i: nat, ps: set<Prepare>, k: nat, rs': seq<Replica>)
    requires Valid(x) && |rs| == 4 && 1 <= i < 4 && (k == 2 || k == 3) && i != k && Vote2Msg(x, k) in has && At(x, rs, has)
    requires rs[i] == ViewZero.Logged(x, i).(prepares := ps)
    requires rs' == rs[i := ViewZero.Logged(x, i).(prepares := ps + {ViewZero.Second1(x, i, k)})]
    ensures At(x, rs', has)
  {
    HearsVote(x, i, ps, k, has);
    hide ViewZero.Logged, ViewZero.Second1, D, Arrives, At, May, Valid;
    Step(x, rs, has, i, ReceivePrepareA(1, 1, D(x, 1), k), has, rs', has);
  }

  lemma FullAfter(x: Scene)
    ensures ViewZero.Logged(x, 1) == ViewZero.Logged(x, 1).(prepares := {})
    ensures Full(x, 1) == ViewZero.Logged(x, 1).(prepares := {} + {ViewZero.Second1(x, 1, 2)} + {ViewZero.Second1(x, 1, 3)})
    ensures Full(x, 3) == ViewZero.Logged(x, 3).(prepares := {ViewZero.Second1(x, 3, 3)} + {ViewZero.Second1(x, 3, 2)})
  {
    assert {} + {ViewZero.Second1(x, 1, 2)} + {ViewZero.Second1(x, 1, 3)} == {ViewZero.Second1(x, 1, 2)} + {ViewZero.Second1(x, 1, 3)};
    assert {ViewZero.Second1(x, 3, 3)} + {ViewZero.Second1(x, 3, 2)} == {ViewZero.Second1(x, 3, 2)} + {ViewZero.Second1(x, 3, 3)};
  }

  lemma AllFull(x: Scene)
    requires Valid(x)
    ensures At(x, [Offer1(x), Full(x, 1), Full(x, 2), Full(x, 3)], {})
  {
    var o, l1, l2, l3, has := Offer1(x), ViewZero.Logged(x, 1), ViewZero.Logged(x, 2), ViewZero.Logged(x, 3), {Offer1Msg(x)};
    var b2, b3, votes := ViewZero.Backed(x, 2), ViewZero.Backed(x, 3), has + {Vote2Msg(x, 2)} + {Vote2Msg(x, 3)};
    var h1 := l1.(prepares := {} + {ViewZero.Second1(x, 1, 2)});
    ViewZero.ThreeLogged(x);
    FullAfter(x);
    hide Offer1, Offer1Msg, ViewZero.Logged, ViewZero.Second1, D, At, Valid;
    ViewZero.BackStep(x, [o, l1, l2, l3], has, 2, [o, l1, b2, l3]);
    ViewZero.BackStep(x, [o, l1, b2, l3], has + {Vote2Msg(x, 2)}, 3, [o, l1, b2, b3]);
    VoteHeard(x, [o, l1, b2, b3], votes, 1, {}, 2, [o, h1, b2, b3]);
    VoteHeard(x, [o, h1, b2, b3], votes, 1, {} + {ViewZero.Second1(x, 1, 2)}, 3, [o, Full(x, 1), b2, b3]);
    VoteHeard(x, [o, Full(x, 1), b2, b3], votes, 2, {ViewZero.Second1(x, 2, 2)}, 3, [o, Full(x, 1), Full(x, 2), b3]);
    VoteHeard(x, [o, Full(x, 1), Full(x, 2), b3], votes, 3, {ViewZero.Second1(x, 3, 3)}, 2, [o, Full(x, 1), Full(x, 2), Full(x, 3)]);
    ViewZero.Forget(x, [o, Full(x, 1), Full(x, 2), Full(x, 3)], votes, {});
  }

  lemma CommitsSlot1(x: Scene, i: nat)
    requires Valid(x) && 1 <= i < 4
    ensures May(Group(x), x.sc, i, Full(x, i), SendCommitA(D(x, 1), 1, DATA), {}, 10.0)
    ensures SendCommit(i, Full(x, i), 1, DATA) == Sent(x, i) && Full(x, i).view == 1
  {
    var r := Full(x, i);
    ViewZero.AtGenesis(x, r);
    assert PrePrepare(1, 1, D(x, 1), x.b2, Primary(x.cfg, 1), if i == 1 then Own else Wire) in r.prePrepares;
    assert LoggedPrePrepare(x.cfg, r, D(x, 1), 1, 1);
    assert PrepareFacts(r, D(x, 1), 1, 1) == {ViewZero.Second1(x, i, 2), ViewZero.Second1(x, i, 3)};
    assert |{ViewZero.Second1(x, i, 2), ViewZero.Second1(x, i, 3)}| == 2;
  }

  lemma CommitSent(x: Scene, rs: seq<Replica>, has: set<Msg>, i: nat, rs': seq<Replica>)
    requires Valid(x) && |rs| == 4 && 1 <= i < 4 && rs[i] == Full(x, i) && At(x, rs, has) && rs' == rs[i := Sent(x, i)]
    ensures At(x, rs', has + {Commit1Msg(i)})
  {
    CommitsSlot1(x, i);
    hide Full, Sent, D, Arrives, At, May, Valid;
    Step(x, rs, has, i, SendCommitA(D(x, 1), 1, DATA), {}, rs', has + {Commit1Msg(i)});
  }

  function Commits1(): set<Msg> {
    {Commit1Msg(1)} + {Commit1Msg(2)} + {Commit1Msg(3)}
  }

  lemma BlockStep(x: Scene, rs: seq<Replica>, has: set<Msg>, rs': seq<Replica>)
    requires Valid(x) && |rs| == 4 && rs[0] == Offer1(x) && At(x, rs, has) && rs' == rs[0 := Tipped(x, 1)]
    ensures At(x, rs', has)
  {
    MinesBlock1(x, 0, rs[0]);
    assert rs[0].seqno == 1;
    hide Offer1, Tipped, D, Arrives, At, May, Valid;
    Step(x, rs, has, 0, ReceiveBlockA(D(x, 1), 1, 1.0, TIP), {}, rs', has);
  }

  lemma AllSent(x: Scene)
    requires Valid(x)
    ensures At(x, [Offer1(x), Sent(x, 1), Sent(x, 2), Sent(x, 3)], {} + {Commit1Msg(1)} + {Commit1Msg(2)} + {Commit1Msg(3)})
  {
    hide Offer1, Full, Sent, Commit1Msg, At, Valid;
    var o, f1, f2, f3 := Offer1(x), Full(x, 1), Full(x, 2), Full(x, 3);
    var s1, s2, s3 := Sent(x, 1), Sent(x, 2), Sent(x, 3);
    AllFull(x);
    CommitSent(x, [o, f1, f2, f3], {}, 1, [o, s1, f2, f3]);
    CommitSent(x, [o, s1, f2, f3], {} + {Commit1Msg(1)}, 2, [o, s1, s2, f3]);
    CommitSent(x, [o, s1, s2, f3], {} + {Commit1Msg(1)} + {Commit1Msg(2)}, 3, [o, s1, s2, s3]);
  }

  // Replica 0, still in view 0, then gets block 1.
  lemma BlockAtZero(x: Scene)
    requires Valid(x)
    ensures At(x, [Tipped(x, 1), Sent(x, 1), Sent(x, 2), Sent(x, 3)], Commits1())
  {
    assert {} + {Commit1Msg(1)} + {Commit1Msg(2)} + {Commit1Msg(3)} == Commits1();
    hide Offer1, Sent, Tipped, Commits1, Commit1Msg, At, Valid;
    AllSent(x);
    var s1, s2, s3 := Sent(x, 1), Sent(x, 2), Sent(x, 3);
    BlockStep(x, [Offer1(x), s1, s2, s3], Commits1(), [Tipped(x, 1), s1, s2, s3]);
  }

  // Replica 0 with the COMMITs of view 1 it keeps.
  function Late(x: Scene, log: set<Recovery>): Replica {
    Tipped(x, 1).(recovery := log)
  }

  function All(): set<Recovery> {
    {} + {Recovery(1, 1, 1)} + {Recovery(1, 1, 2)} + {Recovery(1, 1, 3)}
  }

  function Recovered(x: Scene): Replica {
    Late(x, All()).(view := 1, timeout := Timeout(x.cfg, 1))
  }

  lemma KeepsCommit(x: Scene, log: set<Recovery>, k: nat, has: set<Msg>)
    requires Valid(x) && 1 <= k < 4 && Commit1Msg(k) in has
    ensures May(Group(x), x.sc, 0, Late(x, log), ReceiveCommitA(1, 1, DATA, k), has, 10.0)
    ensures ReceiveCommit(Late(x, log), 1, 1, DATA, k) == Late(x, log + {Recovery(1, 1, k)})
  {
  }

  lemma KeepStep(x: Scene, rs: seq<Replica>, has: set<Msg>, log: set<Recovery>, k: nat, rs': seq<Replica>)
    requires Valid(x) && |rs| == 4 && 1 <= k < 4 && Commit1Msg(k) in has && rs[0] == Late(x, log) && At(x, rs, has)
    requires rs' == rs[0 := Late(x, log + {Recovery(1, 1, k)})]
    ensures At(x, rs', has)
  {
    KeepsCommit(x, log, k, has);
    hide Late, Arrives, At, May, Valid;
    Step(x, rs, has, 0, ReceiveCommitA(1, 1, DATA, k), has, rs', has);
  }

  lemma MayRecover(x: Scene)
    requires Valid(x)
    ensures May(Group(x), x.sc, 0, Late(x, All()), RecoverViewA(1), {}, 10.0)
    ensures RecoverView(x.cfg, Late(x, All()), 1) == Recovered(x)
  {
    var r := Late(x, All());
    assert Checkpoint(1, TIP, 1.0) in r.checkpoints;
    assert RecoveryFacts(r, 1, 1) == {Recovery(1, 1, 1), Recovery(1, 1, 2), Recovery(1, 1, 3)};
    assert |{Recovery(1, 1, 1), Recovery(1, 1, 2), Recovery(1, 1, 3)}| == 3;
    assert Recoverable(x.cfg, r, 1);
    forall w: nat | Recoverable(x.cfg, r, w) ensures w <= 1 {
      var c :| c in r.checkpoints && |RecoveryFacts(r, w, c.n)| >= Quorum(x.cfg);
      assert RecoveryFacts(r, w, c.n) != {};
      var m :| m in RecoveryFacts(r, w, c.n);
    }
  }

  lemma CommitsKept(x: Scene)
    requires Valid(x)
    ensures At(x, [Late(x, All()), Sent(x, 1), Sent(x, 2), Sent(x, 3)], {})
  {
    var s1, s2, s3, has := Sent(x, 1), Sent(x, 2), Sent(x, 3), Commits1();
    var a, b, c := {} + {Recovery(1, 1, 1)}, {} + {Recovery(1, 1, 1)} + {Recovery(1, 1, 2)}, All();
    assert Tipped(x, 1) == Late(x, {});
    assert Commit1Msg(1) in has && Commit1Msg(2) in has && Commit1Msg(3) in has;
    hide Sent, Tipped, Late, Commits1, Commit1Msg, At, Valid;
    BlockAtZero(x);
    KeepStep(x, [Late(x, {}), s1, s2, s3], has, {}, 1, [Late(x, a), s1, s2, s3]);
    KeepStep(x, [Late(x, a), s1, s2, s3], has, a, 2, [Late(x, b), s1, s2, s3]);
    KeepStep(x, [Late(x, b), s1, s2, s3], has, b, 3, [Late(x, c), s1, s2, s3]);
    ViewZero.Forget(x, [Late(x, c), s1, s2, s3], has, {});
  }

  lemma RecoverStep(x: Scene, rs: seq<Replica>, rs': seq<Replica>)
    requires Valid(x) && |rs| == 4 && rs[0] == Late(x, All()) && At(x, rs, {}) && rs' == rs[0 := Recovered(x)]
    ensures At(x, rs', {})
  {
    MayRecover(x);
    hide Late, Recovered, All, Arrives, At, May, Valid, RecoverView;
    Step(x, rs, {}, 0, RecoverViewA(1), {}, rs', {});
  }

  // A replica that stayed in view 0 learns from the COMMITs of view 1 and goes there without a view change.
  lemma RecoversView1(x: Scene) returns (before: seq<Replica>, after: seq<Replica>)
    requires Valid(x)
    ensures |before| == 4 && At(x, before, {}) && before[0].view == 0 && PreRecoverView(x.cfg, before[0], 1)
    ensures |after| == 4 && At(x, after, {}) && after[0] == before[0].(view := 1, timeout := 2.0 * (x.cfg.blockTime / 2.0))
  {
    assert Pow2(1) == 2.0 && Late(x, All()).view == 0;
    assert Recovered(x) == Late(x, All()).(view := 1, timeout := 2.0 * (x.cfg.blockTime / 2.0));
    MayRecover(x);
    assert PreRecoverView(x.cfg, Late(x, All()), 1);
    hide Sent, Late, Recovered, PreRecoverView, RecoverView, Arrives, At, May, Valid;
    CommitsKept(x);
    before := [Late(x, All()), Sent(x, 1), Sent(x, 2), Sent(x, 3)];
    after := [Recovered(x), Sent(x, 1), Sent(x, 2), Sent(x, 3)];
    RecoverStep(x, before, after);
  }
}
