// States of the run of four replicas in which the code does less than is expected of it.
module Counterexamples {
  import opened Types
  import opened Lists
  import opened Engine
  import opened System
  import opened FourReplicas

  // ---------- the window ----------

  lemma Processes(x: Scene)
    requires Valid(x)
    ensures PreProcessNewView(x.cfg, Waiting(x), Nu(x), Both(x)) && H(Waiting(x)) == 0
    ensures NuMsgs(x.cfg, Waiting(x).viewChanges, Nu(x)) == Listed(x)
  {
    var r, nu := Waiting(x), Nu(x);
    HIs(r, 0, GENESIS, 0.0);
    Resolves(x, r);
    ChiIsBoth(x);
    NuIsListed(x, r, nu);
    var msgs := Listed(x);
    assert msgs[2] in msgs && Change(x, 2).hi == 0;
    assert Checkpoint(0, GENESIS, 0.0) in r.checkpoints;
    assert Both(x)[0] in Both(x);
    assert Request(D(x, 1), 1.0) in r.requests && Request(D(x, 2), 2.0) in r.requests;
  }

  lemma NuIsListed(x: Scene, r: Replica, nu: seq<NuEntry>)
    requires Valid(x) && CorrectNuOnce(x.cfg, r, nu) && |nu| == 3
    ensures CorrectNuAll(x.cfg, r, nu)
  {
  }

  function Processed(x: Scene): Replica {
    Waiting(x).(active := true, seqno := 2,
      prePrepares := {PrePrepare(1, 1, D(x, 1), x.b1, 1, InNewView), PrePrepare(1, 2, D(x, 2), x.b2, 1, InNewView)},
      prepares := {Prepare(1, 1, D(x, 1), 2, Own), Prepare(1, 2, D(x, 2), 2, Own)})
  }

  lemma ProcessedIs(x: Scene)
    requires Valid(x)
    ensures ProcessNewView(x.cfg, 2, Waiting(x), Both(x)) == Processed(x)
  {
    var r, chi := Waiting(x), Both(x);
    assert chi[0] in chi && chi[1] in chi;
    assert ChiPrePrepares(x.cfg, 1, chi) == Processed(x).prePrepares;
    assert ChiPrepares(1, chi, 2) == Processed(x).prepares;
    var r1 := r.(active := true, prePrepares := r.prePrepares + ChiPrePrepares(x.cfg, 1, chi));
    assert PrePrepare(1, 2, D(x, 2), x.b2, 1, InNewView) in r1.prePrepares;
    assert IsTopSeqno(r1, TopSeqno(r1));
  }

  // In a run without faults replica 2, at height 0, processes a NEW-VIEW although Nu names
  // VIEW-CHANGEs with Hi = 1. Chi has the slot it prepared at 1 and the committed one at 2, which is
  // logged outside the window.
  lemma ProcessLeavesWindow(x: Scene) returns (rs: seq<Replica>, has: set<Msg>)
    requires Valid(x)
    ensures |rs| == 4 && At(x, rs, has) && H(rs[2]) == 0
    ensures PreProcessNewView(x.cfg, rs[2], Nu(x), Both(x))
    ensures exists vc :: vc in NuMsgs(x.cfg, rs[2].viewChanges, Nu(x)) && vc.hi != H(rs[2])
    ensures var after := ProcessNewView(x.cfg, 2, rs[2], Both(x));
      PrePrepare(1, 2, D(x, 2), x.b2, 1, InNewView) in after.prePrepares && !InW(after, 2)
  {
    rs, has := NewViewArrives(x);
    Processes(x);
    var msgs := Listed(x);
    assert msgs[0] in msgs && Change(x, 0).hi == 1;
    ProcessedIs(x);
    HIs(Processed(x), 0, GENESIS, 0.0);
  }

  function NextQ(x: Scene): seq<QEntry> {
    [QEntry(1, D(x, 1), x.b1, 1), QEntry(2, D(x, 2), x.b2, 1)]
  }

  lemma LeavesAgain(x: Scene)
    requires Valid(x)
    ensures PreSendViewChange(x.cfg, Processed(x), GENESIS, [], NextQ(x), 10.0)
    ensures !CorrectViewChange(OwnViewChange(2, Processed(x), GENESIS, [], NextQ(x)))
  {
    var r, q := Processed(x), NextQ(x);
    HIs(r, 0, GENESIS, 0.0);
    assert Pow2(1) == 2.0;
    assert Request(D(x, 2), 2.0) in r.requests;
    assert Checkpoint(0, GENESIS, 0.0) in r.checkpoints;
    PreparesAlone(x);
    assert q[1] in q;
  }

  // After PROCESS_NEW_VIEW replica 2 has prepared nothing again; both slots are pre-prepared.
  lemma PreparesAlone(x: Scene)
    requires Valid(x)
    ensures NewPi(x.cfg, Processed(x)) == {}
    ensures NewQi(x.cfg, Processed(x)) == Elems(NextQ(x))
  {
    var r := Processed(x);
    assert Request(D(x, 1), 1.0) in r.requests && Request(D(x, 2), 2.0) in r.requests;
    forall e | e in Slots(r) ensures !PreparedInLog(x.cfg, r, e.d, e.v, e.n) {
      assert PrepareFacts(r, e.d, e.v, e.n) <= {Prepare(e.v, e.n, e.d, 2, Own)};
      Quorums.SubsetCard(PrepareFacts(r, e.d, e.v, e.n), {Prepare(e.v, e.n, e.d, 2, Own)});
    }
    assert !PrePreparedHigher(x.cfg, r, D(x, 1), 1, 1);
    assert !PrePreparedHigher(x.cfg, r, D(x, 2), 2, 1);
    assert NextQ(x)[0] in NextQ(x) && NextQ(x)[1] in NextQ(x);
  }

  lemma MayProcess(x: Scene)
    requires Valid(x)
    ensures Reach.May(Group(x), x.sc, 2, Waiting(x), ProcessNewViewA(Nu(x), Both(x)), {}, 10.0)
  {
    Processes(x);
    hide PreProcessNewView, Waiting, Nu, Both, H, NuMsgs;
  }

  lemma ApplyProcesses(x: Scene)
    requires Valid(x)
    ensures Apply(x.cfg, 2, Waiting(x), ProcessNewViewA(Nu(x), Both(x))) == Processed(x)
  {
    ProcessedIs(x);
    hide ProcessNewView, Waiting, Processed, Nu, Both;
  }

  lemma ProcessStep(x: Scene, rs: seq<Replica>, has: set<Msg>)
    requires Valid(x) && |rs| == 4 && rs[2] == Waiting(x) && At(x, rs, has)
    ensures At(x, rs[2 := Processed(x)], {})
  {
    MayProcess(x);
    ApplyProcesses(x);
    hide Waiting, Processed, Nu, Both, At, Reach.May, Apply, Emit, Valid;
    Step(x, rs, has, 2, ProcessNewViewA(Nu(x), Both(x)), {}, rs[2 := Processed(x)], {});
  }

  // In the next state of that run the VIEW-CHANGE replica 2 may send, its Q holding a slot above
  // Hi + 1, fails correct_view_change at every receiver.
  lemma OwnViewChangeRefused(x: Scene) returns (rs: seq<Replica>, q: seq<QEntry>)
    requires Valid(x)
    ensures |rs| == 4 && At(x, rs, {})
    ensures PreSendViewChange(x.cfg, rs[2], GENESIS, [], q, 10.0)
    ensures !CorrectViewChange(OwnViewChange(2, rs[2], GENESIS, [], q))
  {
    var has;
    rs, has := NewViewArrives(x);
    ProcessStep(x, rs, has);
    LeavesAgain(x);
    rs, q := rs[2 := Processed(x)], NextQ(x);
  }
}
