// Why NewViewWindow asks for four replicas. In a cluster of one a PREPARE quorum is empty, so the Qi
// row of an older view counts as prepared.
module OneReplica {
  import opened Types
  import opened Lists
  import opened Engine
  import opened System
  import opened Chi
  import opened FactBase
  import opened RequestSlots
  import opened Reach
  import Codes
  import NewViewWindow

  const GENESIS := 7

  datatype Scene = Scene(cfg: Config, sc: Schedule, b: Block)

  ghost predicate Valid(x: Scene) {
    && ValidConfig(x.cfg) && x.cfg.size == 1 && x.cfg.blockTime == 1.0
    && ValidSchedule(x.sc) && x.sc.h0 == 0 && x.sc.t0 == 0.0 && x.sc.blockTime == 1.0
  }

  lemma SceneExists(b: Block) returns (x: Scene)
    ensures Valid(x) && x.b == b
  {
    var cfg := Codes.ConfigExists(1, 1.0);
    var sc := ScheduleExists(0, 0, 1);
    x := Scene(cfg, sc, b);
  }

  function Group(x: Scene): Cluster {
    Cluster(x.cfg, {})
  }

  function D(x: Scene, n: nat): Digest {
    x.sc.digest(n as real)
  }

  // ---------- the replica along the run ----------

  function Asked(x: Scene, upTo: nat): Replica {
    Initial(x.cfg, 0, GENESIS, 0.0).(requests := set n: nat | 0 < n <= upTo :: Request(D(x, n), n as real))
  }

  function Offered(x: Scene): Replica {
    Asked(x, 3).(seqno := 1, prePrepares := {PrePrepare(0, 1, D(x, 1), x.b, 0, Own)})
  }

  function P1(x: Scene): PEntry {
    PEntry(1, D(x, 1), 0)
  }

  function Q1(x: Scene): QEntry {
    QEntry(1, D(x, 1), x.b, 0)
  }

  function Change1(x: Scene): ViewChange {
    ViewChange(1, 0, GENESIS, [P1(x)], [Q1(x)], 0)
  }

  function Left1(x: Scene): Replica {
    Asked(x, 3).(seqno := 1, view := 1, timeout := Timeout(x.cfg, 1), active := false, viewChanges := {Change1(x)},
                 pi := {P1(x)}, qi := {Q1(x)})
  }

  // The VIEW-CHANGE for view 2: its P entry is of view 0 and has no match in Q.
  function Change2(x: Scene): ViewChange {
    ViewChange(2, 0, GENESIS, [P1(x)], [], 0)
  }

  function Left2(x: Scene): Replica {
    Asked(x, 3).(seqno := 1, view := 2, timeout := Timeout(x.cfg, 2), active := false, viewChanges := {Change2(x)},
                 pi := {P1(x)})
  }

  function Nu(x: Scene): seq<NuEntry> {
    [NuEntryOf(x.cfg, Change2(x))]
  }

  const NULL_AT_1: seq<ChiEntry> := [ChiEntry(1, Null, Unbound)]

  function Waiting(x: Scene): Replica {
    Left2(x).(newViews := {NewView(2, Nu(x), NULL_AT_1)})
  }

  // ---------- its steps ----------

  ghost predicate At(x: Scene, r: Replica, has: set<Msg>) {
    Arrives(Group(x), x.sc, [r], has, 10.0)
  }

  lemma Step(x: Scene, r: Replica, a: Action, r': Replica, more: set<Msg>)
    requires Valid(x) && At(x, r, {}) && May(Group(x), x.sc, 0, r, a, {}, 10.0) && Apply(x.cfg, 0, r, a) == r'
    requires more <= Emit(x.cfg, 0, r, a)
    ensures At(x, r', more)
  {
    hide Arrives, May, Apply, Emit;
    Do(Group(x), x.sc, [r], {}, 10.0, 0, a, {}, r', more);
    assert [r][0 := r'] == [r'];
  }

  // Messages no longer of interest are forgotten.
  lemma Forget(x: Scene, r: Replica, has: set<Msg>)
    requires At(x, r, has)
    ensures At(x, r, {})
  {
  }

  lemma AtZero(r: Replica)
    requires r.checkpoints == {Checkpoint(0, GENESIS, 0.0)}
    ensures H(r) == 0 && InW(r, 1)
  {
    HOfOne(r, Checkpoint(0, GENESIS, 0.0));
  }

  lemma Asks(x: Scene, n: nat)
    requires Valid(x) && n < 5 && At(x, Asked(x, n), {})
    ensures At(x, Asked(x, n + 1), {})
  {
    var r, a := Asked(x, n), ReceiveRequestA(D(x, n + 1), (n + 1) as real);
    if n > 0 {
      assert Request(D(x, n), n as real) in r.requests;
    }
    assert IsLatest(r, n as real);
    assert Asked(x, n + 1).requests == r.requests + {Request(D(x, n + 1), (n + 1) as real)};
    assert Apply(x.cfg, 0, r, a) == Asked(x, n + 1);
    assert May(Group(x), x.sc, 0, r, a, {}, 10.0);
    hide Asked, D, May, Apply, Emit, At, Valid;
    Step(x, r, a, Asked(x, n + 1), {});
  }

  lemma Starts(x: Scene)
    requires Valid(x)
    ensures At(x, Asked(x, 0), {})
  {
    assert Asked(x, 0).requests == {};
    assert SlotTime(x.sc, 0) == 0.0;
    Start(Group(x), x.sc, GENESIS, [Asked(x, 0)]);
    Wait(Group(x), x.sc, [Asked(x, 0)], {}, 0.0, 10.0);
  }

  lemma Offers(x: Scene)
    requires Valid(x)
    ensures At(x, Offered(x), {})
  {
    Starts(x);
    Asks(x, 0);
    Asks(x, 1);
    Asks(x, 2);
    var r, a := Asked(x, 3), SendPrePrepareA(D(x, 1), x.b, 1);
    AtZero(r);
    assert Request(D(x, 1), 1.0) in r.requests && Pending(r, 0, 10.0, 1.0);
    assert May(Group(x), x.sc, 0, r, a, {}, 10.0) && Apply(x.cfg, 0, r, a) == Offered(x);
    hide Asked, Offered, D, May, Apply, Emit, At, Valid;
    Step(x, r, a, Offered(x), {});
  }

  // Alone, a replica has prepared whatever it has pre-prepared.
  lemma PreparesAlone(x: Scene, r: Replica)
    requires Valid(x) && r.prepares == {} && Slots(r) == {P1(x)} && PrePrepared(x.cfg, r, D(x, 1), 0, 1)
    ensures NewPi(x.cfg, r) == {P1(x)}
  {
    assert PreparedInLog(x.cfg, r, D(x, 1), 0, 1);
  }

  lemma MayLeave0(x: Scene)
    requires Valid(x)
    ensures var a := SendViewChangeA(GENESIS, [P1(x)], [Q1(x)]);
      May(Group(x), x.sc, 0, Offered(x), a, {}, 10.0) && Apply(x.cfg, 0, Offered(x), a) == Left1(x)
  {
    var r, a := Offered(x), SendViewChangeA(GENESIS, [P1(x)], [Q1(x)]);
    AtZero(r);
    assert Pow2(0) == 1.0;
    assert Request(D(x, 1), 1.0) in r.requests && Checkpoint(0, GENESIS, 0.0) in r.checkpoints;
    assert PrePrepare(0, 1, D(x, 1), x.b, Primary(x.cfg, 0), Own) in r.prePrepares;
    assert LoggedPrePrepare(x.cfg, r, D(x, 1), 0, 1);
    assert Slots(r) == {P1(x)};
    PreparesAlone(x, r);
    assert NewQi(x.cfg, r) == {Q1(x)};
  }

  lemma Leaves0(x: Scene)
    requires Valid(x)
    ensures At(x, Left1(x), {})
  {
    hide Offered, Left1, May, Apply, Emit, At, Valid;
    Offers(x);
    MayLeave0(x);
    Step(x, Offered(x), SendViewChangeA(GENESIS, [P1(x)], [Q1(x)]), Left1(x), {});
  }

  lemma Leaves1(x: Scene)
    requires Valid(x)
    ensures PreSendViewChange(x.cfg, Left1(x), GENESIS, [P1(x)], [], 10.0)
    ensures OwnViewChange(0, Left1(x), GENESIS, [P1(x)], []) == Change2(x)
    ensures SendViewChange(x.cfg, 0, Left1(x), GENESIS, [P1(x)], []) == Left2(x)
  {
    var r := Left1(x);
    AtZero(r);
    assert Pow2(1) == 2.0;
    assert Request(D(x, 1), 1.0) in r.requests && Checkpoint(0, GENESIS, 0.0) in r.checkpoints;
    assert Q1(x) in r.qi && Slots(r) == {P1(x)};
    PreparesAlone(x, r);
    assert NewQi(x.cfg, r) == {};
  }

  lemma Leaves1Step(x: Scene)
    requires Valid(x)
    ensures At(x, Left2(x), {ViewChangeMsg(Change2(x))})
  {
    Leaves0(x);
    Leaves1(x);
    hide Left1, Left2, Change2, P1, Arrives, At, PreSendViewChange, SendViewChange, OwnViewChange, Valid;
    Step(x, Left1(x), SendViewChangeA(GENESIS, [P1(x)], []), Left2(x), {ViewChangeMsg(Change2(x))});
  }

  // ---------- what fails ----------

  // The VIEW-CHANGE for view 2 is sent although its P entry is not of view 1 and not matched in Q.
  lemma EmittedViewChangeFails(x: Scene)
    requires Valid(x)
    ensures At(x, Left2(x), {ViewChangeMsg(Change2(x))})
    ensures exists e :: e in Change2(x).p && e.v != Change2(x).v - 1 && forall b :: QEntry(e.n, e.d, b, e.v) !in Change2(x).q
  {
    Leaves1Step(x);
    assert P1(x) in Change2(x).p;
  }

  lemma NuResolves(x: Scene, r: Replica)
    requires Valid(x) && r.viewChanges == {Change2(x)}
    ensures CorrectNuOnce(x.cfg, r, Nu(x)) && CorrectNuAll(x.cfg, r, Nu(x))
    ensures NuMsgs(x.cfg, r.viewChanges, Nu(x)) == [Change2(x)]
  {
    assert Elems(Nu(x)) == NuSet(x.cfg, r);
    NuMsgsResolve(x.cfg, r.viewChanges, Nu(x));
    assert NuMsgs(x.cfg, r.viewChanges, Nu(x))[0] == Change2(x);
  }

  // A "null" is written for a number at which a VIEW-CHANGE of Nu has prepared something.
  lemma NullExactlyFails(x: Scene)
    requires Valid(x)
    ensures ChiAt(1, [Change2(x)]).d == Null && P1(x) in Change2(x).p && P1(x).n == 1
    ensures ChiOf([Change2(x)]) == NULL_AT_1
  {
    var msgs := [Change2(x)];
    ChiAtMeaning(1, msgs);
    assert AllP(msgs) == Change2(x).p + AllP([]) == [P1(x)];
    assert MaxOfP([P1(x)], 0) == 1;
    assert ChiRange(2, 1, msgs) == [];
    assert ChiOf(msgs) == [ChiAt(1, msgs)] + ChiRange(2, 1, msgs);
  }

  lemma Announces(x: Scene)
    requires Valid(x)
    ensures At(x, Waiting(x), {})
  {
    Leaves1Step(x);
    Forget(x, Left2(x), {ViewChangeMsg(Change2(x))});
    NuResolves(x, Left2(x));
    NullExactlyFails(x);
    var a := SendNewViewA(Nu(x), NULL_AT_1);
    assert Left2(x).newViews == {};
    assert May(Group(x), x.sc, 0, Left2(x), a, {}, 10.0) && Apply(x.cfg, 0, Left2(x), a) == Waiting(x);
    hide Left2, Waiting, Nu, May, Apply, Emit, At, Valid;
    Step(x, Left2(x), a, Waiting(x), {});
  }

  // PROCESS_NEW_VIEW is enabled on a Chi with a "null" although no VIEW-CHANGE of Nu is ahead. A state of
  // the engine: the program stops when it encodes the NEW-VIEW of the step before.
  lemma ProcessKeepsWindowFails(x: Scene)
    requires Valid(x)
    ensures At(x, Waiting(x), {}) && PreProcessNewView(x.cfg, Waiting(x), Nu(x), NULL_AT_1)
    ensures !NewViewWindow.SomeoneAhead(NuMsgs(x.cfg, Waiting(x).viewChanges, Nu(x)), H(Waiting(x)))
    ensures exists e :: e in NULL_AT_1 && e.d == Null
  {
    var r := Waiting(x);
    Announces(x);
    AtZero(r);
    NuResolves(x, r);
    NullExactlyFails(x);
    var msgs := [Change2(x)];
    assert Change2(x) in msgs;
    assert Checkpoint(0, GENESIS, 0.0) in r.checkpoints && NULL_AT_1[0] in NULL_AT_1;
  }

  // ---------- a VIEW-CHANGE that fails without any NEW-VIEW ----------

  const TIP := 9

  // After block 2 the rows for 1 are still in Pi and Qi.
  function Tipped(x: Scene): Replica {
    Left1(x).(lastExec := 2, lastRep := 2.0, val := TIP, checkpoints := {Checkpoint(2, TIP, 2.0)},
              requests := {Request(D(x, 3), 3.0)})
  }

  lemma Tips(x: Scene)
    requires Valid(x)
    ensures At(x, Tipped(x), {})
  {
    Leaves0(x);
    var r, a := Left1(x), ReceiveBlockA(D(x, 2), 2, 2.0, TIP);
    AtZero(r);
    assert Request(D(x, 2), 2.0) in r.requests;
    assert r.requests == {Request(D(x, 1), 1.0), Request(D(x, 2), 2.0), Request(D(x, 3), 3.0)};
    assert SlotTime(x.sc, 2) == 2.0;
    assert May(Group(x), x.sc, 0, r, a, {}, 10.0) && Apply(x.cfg, 0, r, a) == Tipped(x);
    hide Left1, Tipped, D, May, Apply, Emit, At, Valid;
    Step(x, r, a, Tipped(x), {});
  }

  // The VIEW-CHANGE the replica may send fails correct_view_change, with no PRE-PREPARE logged at all.
  lemma ViewChangeAcceptedFails(x: Scene)
    requires Valid(x)
    ensures At(x, Tipped(x), {}) && PreSendViewChange(x.cfg, Tipped(x), TIP, [P1(x)], [], 10.0)
    ensures !CorrectViewChange(OwnViewChange(0, Tipped(x), TIP, [P1(x)], [])) && Tipped(x).prePrepares == {}
  {
    var r := Tipped(x);
    Tips(x);
    HOfOne(r, Checkpoint(2, TIP, 2.0));
    assert Pow2(1) == 2.0;
    assert Request(D(x, 3), 3.0) in r.requests && Checkpoint(2, TIP, 2.0) in r.checkpoints;
    assert Q1(x) in r.qi && Slots(r) == {P1(x)};
    PreparesAlone(x, r);
    assert NewQi(x.cfg, r) == {};
    assert P1(x) in [P1(x)];
  }
}
