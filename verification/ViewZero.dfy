// Another run of four replicas, with arbitrary blocks b1 and b2. Replica 0 proposes b1 for slot 1 and
// stays in view 0. The others move to view 1, where replica 1 proposes b2 for the slot and replica 2
// prepares it, and leave for view 2. Their VIEW-CHANGEs let replica 0 announce a NEW-VIEW for view 0.
module ViewZero {
  import opened Types
  import opened Lists
  import opened Engine
  import opened System
  import opened Chi
  import opened Reach
  import opened FourReplicas

  // ---------- the replicas along the run ----------

  // The VIEW-CHANGE for view 1.
  function First(i: nat): ViewChange {
    ViewChange(1, 0, GENESIS, [], [], i)
  }

  function Nu1(x: Scene): seq<NuEntry> {
    [NuEntryOf(x.cfg, First(1)), NuEntryOf(x.cfg, First(2)), NuEntryOf(x.cfg, First(3))]
  }

  function Gone(x: Scene, i: nat): Replica {
    Asked(x, 2).(view := 1, timeout := Timeout(x.cfg, 1), active := false, viewChanges := {First(i)})
  }

  function Met(x: Scene, i: nat): Replica {
    Gone(x, i).(viewChanges := {First(1), First(2), First(3)})
  }

  function Told(x: Scene, i: nat): Replica {
    Met(x, i).(newViews := {NewView(1, Nu1(x), [])})
  }

  function Joined(x: Scene, i: nat): Replica {
    Told(x, i).(active := true)
  }

  function Logged(x: Scene, i: nat): Replica {
    Joined(x, i).(seqno := if i == 1 then 1 else 0,
                  prePrepares := {PrePrepare(1, 1, D(x, 1), x.b2, 1, if i == 1 then Own else Wire)})
  }

  function Second1(x: Scene, i: nat, k: nat): Prepare {
    Prepare(1, 1, D(x, 1), k, if i == k then Own else Wire)
  }

  function Backed(x: Scene, i: nat): Replica {
    Logged(x, i).(prepares := {Second1(x, i, i)})
  }

  // Replica 2 prepares slot 1 in view 1; replicas 1 and 3 do not.
  function Last(x: Scene, i: nat): Replica {
    if i == 1 then Logged(x, 1)
    else if i == 2 then Logged(x, 2).(prepares := {Second1(x, 2, 2)} + {Second1(x, 2, 3)})
    else Backed(x, i)
  }

  // The VIEW-CHANGE for view 2.
  function P2(x: Scene, i: nat): seq<PEntry> {
    if i == 2 then [PEntry(1, D(x, 1), 1)] else []
  }

  function Q2(x: Scene): seq<QEntry> {
    [QEntry(1, D(x, 1), x.b2, 1)]
  }

  function Second(x: Scene, i: nat): ViewChange {
    ViewChange(2, 0, GENESIS, P2(x, i), Q2(x), i)
  }

  function Nu2(x: Scene): seq<NuEntry> {
    [NuEntryOf(x.cfg, Second(x, 1)), NuEntryOf(x.cfg, Second(x, 2)), NuEntryOf(x.cfg, Second(x, 3))]
  }

  function Other(x: Scene): seq<ChiEntry> {
    [ChiEntry(1, D(x, 1), x.b2)]
  }

  // Replica 0, still in view 0, with the VIEW-CHANGEs it has received.
  function Behind0(x: Scene, vcs: set<ViewChange>): Replica {
    Offer1(x).(viewChanges := vcs)
  }

  // ---------- local steps ----------

  lemma AtGenesis(x: Scene, r: Replica)
    requires r.checkpoints == Asked(x, 2).checkpoints && r.requests == Asked(x, 2).requests
    ensures H(r) == 0 && InW(r, 1) && Checkpoint(0, GENESIS, 0.0) in r.checkpoints
    ensures Request(D(x, 1), 1.0) in r.requests && Request(D(x, 2), 2.0) in r.requests
  {
    HIs(r, 0, GENESIS, 0.0);
  }

  lemma Leaves1(x: Scene, i: nat)
    requires Valid(x) && 1 <= i < 4
    ensures May(Group(x), x.sc, i, Asked(x, 2), SendViewChangeA(GENESIS, [], []), {}, 10.0)
    ensures OwnViewChange(i, Asked(x, 2), GENESIS, [], []) == First(i)
    ensures SendViewChange(x.cfg, i, Asked(x, 2), GENESIS, [], []) == Gone(x, i)
  {
    var r := Asked(x, 2);
    AtGenesis(x, r);
    assert Pow2(0) == 1.0;
    assert Slots(r) == {};
    assert NewPi(x.cfg, r) == {} && NewQi(x.cfg, r) == {};
  }

  lemma Announces1(x: Scene)
    requires Valid(x)
    ensures May(Group(x), x.sc, 1, Met(x, 1), SendNewViewA(Nu1(x), []), {}, 10.0)
    ensures AddNewView(Met(x, 1), 1, Nu1(x), []) == Told(x, 1)
  {
    ResolvesThree(x.cfg, Met(x, 1), First(1), First(2), First(3));
    NothingPrepared();
  }

  lemma NothingPrepared()
    ensures ChiOf([First(1), First(2), First(3)]) == []
  {
    var msgs, two, last := [First(1), First(2), First(3)], [First(2), First(3)], [First(3)];
    assert msgs[1..] == two && two[1..] == last;
    assert AllP(last) == [] && AllP(two) == [] && AllP(msgs) == [];
    assert MinHi(last) == 0 && MinHi(two) == 0 && MinHi(msgs) == 0;
  }

  lemma MayJoin(x: Scene, i: nat)
    requires Valid(x) && 1 <= i < 4
    ensures May(Group(x), x.sc, i, Told(x, i), ProcessNewViewA(Nu1(x), []), {}, 10.0)
  {
    var r := Told(x, i);
    AtGenesis(x, r);
    ResolvesThree(x.cfg, r, First(1), First(2), First(3));
    NothingPrepared();
    var msgs := NuMsgs(x.cfg, r.viewChanges, Nu1(x));
    assert msgs[0] in msgs;
    hide NuMsgs, ChiOf, H;
  }

  lemma Joins(x: Scene, i: nat)
    requires Valid(x) && 1 <= i < 4
    ensures ProcessNewView(x.cfg, i, Told(x, i), []) == Joined(x, i)
  {
    var r := Told(x, i);
    AtGenesis(x, Joined(x, i));
    assert ChiPrePrepares(x.cfg, 1, []) == {} && ChiPrepares(1, [], i) == {};
    assert Joined(x, i) == r.(active := true, prePrepares := r.prePrepares + {});
    assert IsTopSeqno(Joined(x, i), TopSeqno(Joined(x, i)));
  }

  lemma Leads(x: Scene)
    requires Valid(x)
    ensures May(Group(x), x.sc, 1, Joined(x, 1), SendPrePrepareA(D(x, 1), x.b2, 1), {}, 10.0)
    ensures SendPrePrepare(1, Joined(x, 1), D(x, 1), x.b2, 1) == Logged(x, 1)
  {
    AtGenesis(x, Joined(x, 1));
    assert Pending(Joined(x, 1), 1, 10.0, 1.0);
  }

  lemma Logs(x: Scene, i: nat, has: set<Msg>)
    requires Valid(x) && (i == 2 || i == 3) && PrePrepareMsg(1, 1, D(x, 1), x.b2, 1) in has
    ensures May(Group(x), x.sc, i, Joined(x, i), ReceivePrePrepareA(1, 1, D(x, 1), x.b2, 1), has, 10.0)
    ensures ReceivePrePrepare(Joined(x, i), 1, 1, D(x, 1), x.b2, 1) == Logged(x, i)
  {
    AtGenesis(x, Joined(x, i));
  }

  lemma Backs(x: Scene, i: nat)
    requires Valid(x) && (i == 2 || i == 3)
    ensures May(Group(x), x.sc, i, Logged(x, i), SendPrepareA(D(x, 1), 1), {}, 10.0)
    ensures SendPrepare(i, Logged(x, i), D(x, 1), 1) == Backed(x, i)
  {
    var r := Logged(x, i);
    AtGenesis(x, r);
    assert PrePrepare(1, 1, D(x, 1), x.b2, Primary(x.cfg, 1), Wire) in r.prePrepares;
  }

  lemma Hears(x: Scene, has: set<Msg>)
    requires Valid(x) && PrepareMsg(1, 1, D(x, 1), 3) in has
    ensures May(Group(x), x.sc, 2, Backed(x, 2), ReceivePrepareA(1, 1, D(x, 1), 3), has, 10.0)
    ensures ReceivePrepare(Backed(x, 2), 1, 1, D(x, 1), 3) == Last(x, 2)
  {
    AtGenesis(x, Backed(x, 2));
  }

  lemma PreparedLast(x: Scene, i: nat)
    requires Valid(x) && 1 <= i < 4
    ensures NewPi(x.cfg, Last(x, i)) == Elems(P2(x, i)) && NewQi(x.cfg, Last(x, i)) == Elems(Q2(x))
  {
    var r, e := Last(x, i), PEntry(1, D(x, 1), 1);
    AtGenesis(x, r);
    assert PrePrepare(1, 1, D(x, 1), x.b2, Primary(x.cfg, 1), if i == 1 then Own else Wire) in r.prePrepares;
    assert LoggedPrePrepare(x.cfg, r, D(x, 1), 1, 1);
    assert Slots(r) == {e};
    assert !PreparedHigher(x.cfg, r, 1, 1) && !PrePreparedHigher(x.cfg, r, D(x, 1), 1, 1);
    assert PrepareFacts(r, D(x, 1), 1, 1) == r.prepares;
    if i == 2 {
      assert |{Second1(x, 2, 2), Second1(x, 2, 3)}| == 2;
      assert r.prepares == {Second1(x, 2, 2), Second1(x, 2, 3)};
    }
    assert P2(x, i) == if i == 2 then [e] else [];
    assert QEntry(1, D(x, 1), x.b2, 1) in Q2(x);
  }

  lemma Leaves2(x: Scene, i: nat)
    requires Valid(x) && 1 <= i < 4
    ensures May(Group(x), x.sc, i, Last(x, i), SendViewChangeA(GENESIS, P2(x, i), Q2(x)), {}, 10.0)
    ensures OwnViewChange(i, Last(x, i), GENESIS, P2(x, i), Q2(x)) == Second(x, i)
  {
    AtGenesis(x, Last(x, i));
    assert Pow2(1) == 2.0;
    PreparedLast(x, i);
    hide NewPi, NewQi;
  }

  lemma RangeOfOne(x: Scene)
    ensures MinHi([Second(x, 1), Second(x, 2), Second(x, 3)]) == 0
    ensures MaxS([Second(x, 1), Second(x, 2), Second(x, 3)]) == 1
  {
    var msgs, two, last := [Second(x, 1), Second(x, 2), Second(x, 3)], [Second(x, 2), Second(x, 3)], [Second(x, 3)];
    var e := PEntry(1, D(x, 1), 1);
    assert msgs[1..] == two && two[1..] == last;
    assert AllP(last) == [];
    assert AllP(two) == [e] + AllP(last) == [e];
    assert AllP(msgs) == [] + AllP(two) == [e];
    assert MaxOfP([e], 0) == 1;
    assert MinHi(last) == 0 && MinHi(two) == 0;
  }

  // What replica 2 prepared in view 1.
  lemma ChiIsOther(x: Scene)
    ensures ChiOf([Second(x, 1), Second(x, 2), Second(x, 3)]) == Other(x)
  {
    var msgs := [Second(x, 1), Second(x, 2), Second(x, 3)];
    RangeOfOne(x);
    OtherDerived(x);
    hide Second, MinHi, MaxS, ChiAt;
    assert ChiRange(2, 1, msgs) == [];
    assert ChiRange(1, 1, msgs) == [ChiAt(1, msgs)] + ChiRange(2, 1, msgs);
  }

  lemma OtherDerived(x: Scene)
    ensures ChiAt(1, [Second(x, 1), Second(x, 2), Second(x, 3)]) == ChiEntry(1, D(x, 1), x.b2)
  {
    var msgs, e := [Second(x, 1), Second(x, 2), Second(x, 3)], ChiEntry(1, D(x, 1), x.b2);
    assert msgs[1] in msgs;
    assert Derives(Second(x, 2), Second(x, 2), e, 1);
    hide ChiAt;
    ChiAtMeaning(1, msgs);
    var vp, vq, v :| vp in msgs && vq in msgs && Derives(vp, vq, ChiAt(1, msgs), v);
    assert forall k :: k in Q2(x) ==> k == QEntry(1, D(x, 1), x.b2, 1);
    assert ChiAt(1, msgs).b == x.b2;
  }

  lemma ListsOther(x: Scene)
    requires Valid(x)
    ensures var r := Behind0(x, {Second(x, 1), Second(x, 2), Second(x, 3)});
      May(Group(x), x.sc, 0, r, SendNewViewA(Nu2(x), Other(x)), {}, 10.0)
  {
    ResolvesThree(x.cfg, Behind0(x, {Second(x, 1), Second(x, 2), Second(x, 3)}), Second(x, 1), Second(x, 2), Second(x, 3));
    ChiIsOther(x);
    hide ChiOf, NuMsgs, CorrectNuOnce;
  }

  // ---------- the run ----------

  function FirstMsg(i: nat): Msg {
    ViewChangeMsg(First(i))
  }

  function Firsts(x: Scene): set<Msg> {
    {Offer1Msg(x)} + {FirstMsg(1)} + {FirstMsg(2)} + {FirstMsg(3)}
  }

  lemma Leave1Step(x: Scene, rs: seq<Replica>, has: set<Msg>, i: nat, rs': seq<Replica>)
    requires Valid(x) && |rs| == 4 && 1 <= i < 4 && rs[i] == Asked(x, 2) && At(x, rs, has)
    requires rs' == rs[i := Gone(x, i)]
    ensures At(x, rs', has + {FirstMsg(i)})
  {
    Leaves1(x, i);
    hide Asked, Gone, First, Arrives, At, May, Valid, SendViewChange, OwnViewChange;
    Step(x, rs, has, i, SendViewChangeA(GENESIS, [], []), {}, rs', has + {FirstMsg(i)});
  }

  lemma ThreeGone(x: Scene)
    requires Valid(x)
    ensures At(x, [Offer1(x), Gone(x, 1), Gone(x, 2), Gone(x, 3)], Firsts(x))
  {
    hide Asked, Offer1, Gone, Offer1Msg, FirstMsg, Arrives, At, Valid;
    var r, o, has := Asked(x, 2), Offer1(x), {Offer1Msg(x)};
    Offer1Made(x);
    Leave1Step(x, [o, r, r, r], has, 1, [o, Gone(x, 1), r, r]);
    has := has + {FirstMsg(1)};
    Leave1Step(x, [o, Gone(x, 1), r, r], has, 2, [o, Gone(x, 1), Gone(x, 2), r]);
    has := has + {FirstMsg(2)};
    Leave1Step(x, [o, Gone(x, 1), Gone(x, 2), r], has, 3, [o, Gone(x, 1), Gone(x, 2), Gone(x, 3)]);
  }

  // Replica i learns of j and k.
  lemma MeetStep(x: Scene, rs: seq<Replica>, has: set<Msg>, i: nat, j: nat, k: nat, rs': seq<Replica>)
    requires Valid(x) && |rs| == 4 && 1 <= i < 4 && {i, j, k} == {1, 2, 3} && rs[i] == Gone(x, i)
    requires At(x, rs, has) && Firsts(x) <= has && rs' == rs[i := Met(x, i)]
    ensures At(x, rs', has)
  {
    var g := Gone(x, i);
    var h := g.(viewChanges := {First(i)} + {First(j)});
    assert {First(i)} + {First(j)} + {First(k)} == {First(1), First(2), First(3)};
    assert Met(x, i) == h.(viewChanges := h.viewChanges + {First(k)});
    assert FirstMsg(j) in has && FirstMsg(k) in has;
    assert CorrectViewChange(First(j)) && CorrectViewChange(First(k));
    hide Gone, Met, Firsts, CorrectViewChange, At, Valid;
    LearnStep(x, rs, has, i, First(j), rs[i := h]);
    LearnStep(x, rs[i := h], has, i, First(k), rs');
  }

  lemma ThreeMet(x: Scene)
    requires Valid(x)
    ensures At(x, [Offer1(x), Met(x, 1), Met(x, 2), Met(x, 3)], Firsts(x))
  {
    hide Offer1, Gone, Met, Firsts, At, Valid;
    var o, g2, g3, has := Offer1(x), Gone(x, 2), Gone(x, 3), Firsts(x);
    ThreeGone(x);
    MeetStep(x, [o, Gone(x, 1), g2, g3], has, 1, 2, 3, [o, Met(x, 1), g2, g3]);
    MeetStep(x, [o, Met(x, 1), g2, g3], has, 2, 1, 3, [o, Met(x, 1), Met(x, 2), g3]);
    MeetStep(x, [o, Met(x, 1), Met(x, 2), g3], has, 3, 1, 2, [o, Met(x, 1), Met(x, 2), Met(x, 3)]);
  }

  lemma TellStep(x: Scene, rs: seq<Replica>, has: set<Msg>, i: nat, rs': seq<Replica>)
    requires Valid(x) && |rs| == 4 && (i == 2 || i == 3) && rs[i] == Met(x, i) && At(x, rs, has)
    requires NewViewMsg(1, Nu1(x), [], 1) in has && rs' == rs[i := Told(x, i)]
    ensures At(x, rs', has)
  {
    assert Met(x, i).view == 1 && Met(x, i).newViews == {} && Primary(x.cfg, 1) == 1;
    hide Met, Nu1, Arrives, At;
    Step(x, rs, has, i, ReceiveNewViewA(1, Nu1(x), [], 1), has, rs', has);
  }

  lemma ThreeTold(x: Scene)
    requires Valid(x)
    ensures At(x, [Offer1(x), Told(x, 1), Told(x, 2), Told(x, 3)], {Offer1Msg(x)})
  {
    var o, m1, m2, m3, has := Offer1(x), Met(x, 1), Met(x, 2), Met(x, 3), {Offer1Msg(x)} + {NewViewMsg(1, Nu1(x), [], 1)};
    ThreeMet(x);
    Announces1(x);
    assert m1.view == 1;
    hide Offer1, Met, Told, Nu1, Offer1Msg, AddNewView, Arrives, At, May, Valid;
    Step(x, [o, m1, m2, m3], Firsts(x), 1, SendNewViewA(Nu1(x), []), {}, [o, Told(x, 1), m2, m3], has);
    TellStep(x, [o, Told(x, 1), m2, m3], has, 2, [o, Told(x, 1), Told(x, 2), m3]);
    TellStep(x, [o, Told(x, 1), Told(x, 2), m3], has, 3, [o, Told(x, 1), Told(x, 2), Told(x, 3)]);
    Forget(x, [o, Told(x, 1), Told(x, 2), Told(x, 3)], has, {Offer1Msg(x)});
  }

  lemma Forget(x: Scene, rs: seq<Replica>, has: set<Msg>, less: set<Msg>)
    requires At(x, rs, has) && less <= has
    ensures At(x, rs, less)
  {
  }

  lemma JoinStep(x: Scene, rs: seq<Replica>, has: set<Msg>, i: nat, rs': seq<Replica>)
    requires Valid(x) && |rs| == 4 && 1 <= i < 4 && rs[i] == Told(x, i) && At(x, rs, has)
    requires rs' == rs[i := Joined(x, i)]
    ensures At(x, rs', has)
  {
    MayJoin(x, i);
    Joins(x, i);
    hide Told, Joined, Nu1, Arrives, At, May, Valid, ProcessNewView, Emit;
    Step(x, rs, has, i, ProcessNewViewA(Nu1(x), []), {}, rs', has);
  }

  lemma ThreeJoined(x: Scene)
    requires Valid(x)
    ensures At(x, [Offer1(x), Joined(x, 1), Joined(x, 2), Joined(x, 3)], {Offer1Msg(x)})
  {
    hide Offer1, Told, Joined, Offer1Msg, At, Valid;
    var o, t2, t3, has := Offer1(x), Told(x, 2), Told(x, 3), {Offer1Msg(x)};
    ThreeTold(x);
    JoinStep(x, [o, Told(x, 1), t2, t3], has, 1, [o, Joined(x, 1), t2, t3]);
    JoinStep(x, [o, Joined(x, 1), t2, t3], has, 2, [o, Joined(x, 1), Joined(x, 2), t3]);
    JoinStep(x, [o, Joined(x, 1), Joined(x, 2), t3], has, 3, [o, Joined(x, 1), Joined(x, 2), Joined(x, 3)]);
  }

  function OtherMsg(x: Scene): Msg {
    PrePrepareMsg(1, 1, D(x, 1), x.b2, 1)
  }

  lemma LogStep(x: Scene, rs: seq<Replica>, has: set<Msg>, i: nat, rs': seq<Replica>)
    requires Valid(x) && |rs| == 4 && (i == 2 || i == 3) && rs[i] == Joined(x, i) && At(x, rs, has)
    requires OtherMsg(x) in has && rs' == rs[i := Logged(x, i)]
    ensures At(x, rs', has)
  {
    Logs(x, i, has);
    hide Joined, Logged, D, Arrives, At, May, Valid;
    Step(x, rs, has, i, ReceivePrePrepareA(1, 1, D(x, 1), x.b2, 1), has, rs', has);
  }

  lemma ThreeLogged(x: Scene)
    requires Valid(x)
    ensures At(x, [Offer1(x), Logged(x, 1), Logged(x, 2), Logged(x, 3)], {Offer1Msg(x)})
  {
    var o, j1, j2, j3, has := Offer1(x), Joined(x, 1), Joined(x, 2), Joined(x, 3), {Offer1Msg(x)} + {OtherMsg(x)};
    var l1, l2, l3 := Logged(x, 1), Logged(x, 2), Logged(x, 3);
    ThreeJoined(x);
    Leads(x);
    assert j1.view == 1;
    hide Offer1, Joined, Logged, Offer1Msg, D, Arrives, At, May, Valid;
    Step(x, [o, j1, j2, j3], {Offer1Msg(x)}, 1, SendPrePrepareA(D(x, 1), x.b2, 1), {}, [o, l1, j2, j3], has);
    LogStep(x, [o, l1, j2, j3], has, 2, [o, l1, l2, j3]);
    LogStep(x, [o, l1, l2, j3], has, 3, [o, l1, l2, l3]);
    Forget(x, [o, l1, l2, l3], has, {Offer1Msg(x)});
  }

  lemma BackStep(x: Scene, rs: seq<Replica>, has: set<Msg>, i: nat, rs': seq<Replica>)
    requires Valid(x) && |rs| == 4 && (i == 2 || i == 3) && rs[i] == Logged(x, i) && At(x, rs, has)
    requires rs' == rs[i := Backed(x, i)]
    ensures At(x, rs', has + {PrepareMsg(1, 1, D(x, 1), i)})
  {
    Backs(x, i);
    assert Logged(x, i).view == 1;
    hide Logged, Backed, D, Arrives, At, May, Valid;
    Step(x, rs, has, i, SendPrepareA(D(x, 1), 1), {}, rs', has + {PrepareMsg(1, 1, D(x, 1), i)});
  }

  // Replica 2 has prepared slot 1 with block b2 in view 1.
  lemma OtherPrepared(x: Scene)
    requires Valid(x)
    ensures At(x, [Offer1(x), Last(x, 1), Last(x, 2), Last(x, 3)], {Offer1Msg(x)})
  {
    var o, l1, l2, l3, has := Offer1(x), Logged(x, 1), Logged(x, 2), Logged(x, 3), {Offer1Msg(x)};
    var votes := has + {PrepareMsg(1, 1, D(x, 1), 2)} + {PrepareMsg(1, 1, D(x, 1), 3)};
    ThreeLogged(x);
    Hears(x, votes);
    assert Last(x, 1) == l1 && Last(x, 3) == Backed(x, 3);
    hide Offer1, Logged, Backed, Last, Offer1Msg, D, Arrives, At, May, Valid;
    BackStep(x, [o, l1, l2, l3], has, 2, [o, l1, Backed(x, 2), l3]);
    BackStep(x, [o, l1, Backed(x, 2), l3], has + {PrepareMsg(1, 1, D(x, 1), 2)}, 3, [o, l1, Backed(x, 2), Backed(x, 3)]);
    Step(x, [o, l1, Backed(x, 2), Backed(x, 3)], votes, 2, ReceivePrepareA(1, 1, D(x, 1), 3), votes,
         [o, l1, Last(x, 2), Backed(x, 3)], has);
  }

  function SecondMsg(x: Scene, i: nat): Msg {
    ViewChangeMsg(Second(x, i))
  }

  ghost function Away(x: Scene, i: nat): Replica {
    SendViewChange(x.cfg, i, Last(x, i), GENESIS, P2(x, i), Q2(x))
  }

  lemma Leave2Step(x: Scene, rs: seq<Replica>, has: set<Msg>, i: nat, rs': seq<Replica>)
    requires Valid(x) && |rs| == 4 && 1 <= i < 4 && rs[i] == Last(x, i) && At(x, rs, has)
    requires rs' == rs[i := Away(x, i)]
    ensures At(x, rs', has + {SecondMsg(x, i)})
  {
    Leaves2(x, i);
    hide Last, Second, P2, Q2, Arrives, At, May, Valid, SendViewChange, OwnViewChange;
    Step(x, rs, has, i, SendViewChangeA(GENESIS, P2(x, i), Q2(x)), {}, rs', has + {SecondMsg(x, i)});
  }

  function Seconds(x: Scene): set<Msg> {
    {Offer1Msg(x)} + {SecondMsg(x, 1)} + {SecondMsg(x, 2)} + {SecondMsg(x, 3)}
  }

  lemma ThreeAway(x: Scene)
    requires Valid(x)
    ensures At(x, [Offer1(x), Away(x, 1), Away(x, 2), Away(x, 3)], Seconds(x))
  {
    hide Offer1, Last, Away, Offer1Msg, SecondMsg, Arrives, At, Valid;
    var o, l2, l3, has := Offer1(x), Last(x, 2), Last(x, 3), {Offer1Msg(x)};
    OtherPrepared(x);
    Leave2Step(x, [o, Last(x, 1), l2, l3], has, 1, [o, Away(x, 1), l2, l3]);
    has := has + {SecondMsg(x, 1)};
    Leave2Step(x, [o, Away(x, 1), l2, l3], has, 2, [o, Away(x, 1), Away(x, 2), l3]);
    has := has + {SecondMsg(x, 2)};
    Leave2Step(x, [o, Away(x, 1), Away(x, 2), l3], has, 3, [o, Away(x, 1), Away(x, 2), Away(x, 3)]);
  }

  lemma SecondCorrect(x: Scene, k: nat)
    requires 1 <= k < 4
    ensures CorrectViewChange(Second(x, k)) && Second(x, k).sender == k && Second(x, k).v == 2
    ensures Offer1Msg(x) in Seconds(x) && ViewChangeMsg(Second(x, k)) in Seconds(x)
  {
    hide Offer1Msg;
  }

  lemma Behind0Adds(x: Scene, vcs: set<ViewChange>, vc: ViewChange)
    ensures var r := Behind0(x, vcs);
      r.view == 0 && r.active && r.viewChanges == vcs && Behind0(x, vcs + {vc}) == r.(viewChanges := vcs + {vc})
  {
  }

  // Replica 0 logs the VIEW-CHANGE of k.
  lemma HearStep0(x: Scene, vcs: set<ViewChange>, k: nat)
    requires Valid(x) && 1 <= k < 4 && forall m :: m in vcs ==> m.sender < k
    requires At(x, [Behind0(x, vcs), Away(x, 1), Away(x, 2), Away(x, 3)], Seconds(x))
    ensures At(x, [Behind0(x, vcs + {Second(x, k)}), Away(x, 1), Away(x, 2), Away(x, 3)], Seconds(x))
  {
    hide Behind0, Second, Seconds, Away, At, Valid, CorrectViewChange;
    var r, s, vc := Behind0(x, vcs), Behind0(x, vcs + {Second(x, k)}), Second(x, k);
    SecondCorrect(x, k);
    Behind0Adds(x, vcs, vc);
    LearnStep(x, [r, Away(x, 1), Away(x, 2), Away(x, 3)], Seconds(x), 0, vc, [s, Away(x, 1), Away(x, 2), Away(x, 3)]);
  }

  lemma AllHeard0(x: Scene)
    requires Valid(x)
    ensures var r := Behind0(x, {Second(x, 1), Second(x, 2), Second(x, 3)});
      At(x, [r, Away(x, 1), Away(x, 2), Away(x, 3)], Seconds(x))
  {
    var a, b, c := Second(x, 1), Second(x, 2), Second(x, 3);
    assert a.sender == 1 && b.sender == 2;
    assert Behind0(x, {}) == Offer1(x);
    assert {} + {a} + {b} + {c} == {a, b, c};
    hide Behind0, Offer1, Second, Away, Seconds, At, Valid;
    ThreeAway(x);
    HearStep0(x, {}, 1);
    HearStep0(x, {} + {a}, 2);
    HearStep0(x, {} + {a} + {b}, 3);
  }

  // The active primary of view 0 sends a NEW-VIEW for view 0.
  lemma ListStep(x: Scene, rs: seq<Replica>, has: set<Msg>, nu: seq<NuEntry>, chi: seq<ChiEntry>, rs': seq<Replica>)
    requires Valid(x) && |rs| == 4 && rs[0].view == 0 && At(x, rs, has)
    requires May(Group(x), x.sc, 0, rs[0], SendNewViewA(nu, chi), {}, 10.0)
    requires rs' == rs[0 := AddNewView(rs[0], 0, nu, chi)]
    ensures At(x, rs', has + {NewViewMsg(0, nu, chi, 0)})
  {
    hide AddNewView, Arrives, At, May, Valid;
    Step(x, rs, has, 0, SendNewViewA(nu, chi), {}, rs', has + {NewViewMsg(0, nu, chi, 0)});
  }

  // In a run without faults the primary of view 0, still active in it, proposes block b1 for slot 1 and
  // then sends a NEW-VIEW for view 0 that lists block b2 for it.
  lemma OtherBlockListed(x: Scene) returns (rs: seq<Replica>, has: set<Msg>)
    requires Valid(x)
    ensures |rs| == 4 && rs[0].active && rs[0].view == 0 && At(x, rs, has)
    ensures PrePrepareMsg(0, 1, D(x, 1), x.b1, 0) in has
    ensures NewViewMsg(0, Nu2(x), [ChiEntry(1, D(x, 1), x.b2)], 0) in has
  {
    hide Behind0, Second, Seconds, Away, Nu2, D, At, May, Valid;
    var vcs := {Second(x, 1), Second(x, 2), Second(x, 3)};
    var r := Behind0(x, vcs);
    AllHeard0(x);
    ListsOther(x);
    SecondCorrect(x, 1);
    Behind0Adds(x, vcs, Second(x, 1));
    rs := [AddNewView(r, 0, Nu2(x), Other(x)), Away(x, 1), Away(x, 2), Away(x, 3)];
    has := Seconds(x) + {NewViewMsg(0, Nu2(x), Other(x), 0)};
    ListStep(x, [r, Away(x, 1), Away(x, 2), Away(x, 3)], Seconds(x), Nu2(x), Other(x), rs);
  }
}
