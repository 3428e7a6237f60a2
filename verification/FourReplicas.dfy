// A run of four replicas. Replica 2 prepares slot 1 but does not see block 1, on which the other three
// commit slot 2 in view 0; then the view changes.
//
// The run is cut to what the view change needs. Block 1 comes from the block feed without the other
// PREPAREs and the COMMITs for slot 1, all of which RECEIVE_BLOCK would remove, and of the requests that
// GenerateRequests logs at once only the first two are received; no guard below turns on a later one.
module FourReplicas {
  import opened Types
  import opened Quorums
  import opened Lists
  import opened Engine
  import opened System
  import opened Chi
  import opened FactBase
  import opened RequestSlots
  import opened Reach
  import Codes

  const GENESIS := 7
  const TIP := 8
  const DATA := 5

  // The cluster, its schedule, and the blocks proposed for 1 and 2.
  datatype Scene = Scene(cfg: Config, sc: Schedule, b1: Block, b2: Block)

  ghost predicate Valid(x: Scene) {
    && ValidConfig(x.cfg) && x.cfg.size == 4 && x.cfg.blockTime == 1.0
    && ValidSchedule(x.sc) && x.sc.h0 == 0 && x.sc.t0 == 0.0 && x.sc.blockTime == 1.0
  }

  lemma SceneExists(b1: Block, b2: Block) returns (x: Scene)
    ensures Valid(x) && x.b1 == b1 && x.b2 == b2
  {
    var cfg := Codes.ConfigExists(4, 1.0);
    var sc := ScheduleExists(0, 0, 1);
    x := Scene(cfg, sc, b1, b2);
  }

  function Group(x: Scene): Cluster {
    Cluster(x.cfg, {})
  }

  function D(x: Scene, n: nat): Digest {
    x.sc.digest(n as real)
  }

  lemma SlotIsNumber(x: Scene, n: nat)
    requires Valid(x)
    ensures SlotTime(x.sc, n) == n as real && Slot(x.sc, n) == Request(D(x, n), n as real)
  {
  }

  // ---------- the replicas along the run ----------

  function Fresh(x: Scene): Replica {
    Initial(x.cfg, 0, GENESIS, 0.0)
  }

  function Asked(x: Scene, upTo: nat): Replica {
    Fresh(x).(requests := set n: nat | 0 < n <= upTo :: Request(D(x, n), n as real))
  }

  function Offer1(x: Scene): Replica {
    Asked(x, 2).(seqno := 1, prePrepares := {PrePrepare(0, 1, D(x, 1), x.b1, 0, Own)})
  }

  // Slot 1 at replicas 1 and 2.
  function Vote1(x: Scene, i: nat, k: nat): Prepare {
    Prepare(0, 1, D(x, 1), k, if i == k then Own else Wire)
  }

  function Heard1(x: Scene): Replica {
    Asked(x, 2).(prePrepares := {PrePrepare(0, 1, D(x, 1), x.b1, 0, Wire)})
  }

  function Helped(x: Scene, i: nat): Replica {
    Heard1(x).(prepares := {Vote1(x, i, i)})
  }

  // Replica 2 has prepared slot 1.
  function Behind(x: Scene): Replica {
    Heard1(x).(prepares := {Vote1(x, 2, 2)} + {Vote1(x, 2, 1)})
  }

  // After block 1.
  function Tipped(x: Scene, seqno: nat): Replica {
    Fresh(x).(seqno := seqno, lastExec := 1, lastRep := 1.0, val := TIP, checkpoints := {Checkpoint(1, TIP, 1.0)},
              requests := {Request(D(x, 2), 2.0)})
  }

  function Log(x: Scene, i: nat): PrePrepare {
    PrePrepare(0, 2, D(x, 2), x.b2, 0, if i == 0 then Own else Wire)
  }

  function Vote(x: Scene, i: nat, k: nat): Prepare {
    Prepare(0, 2, D(x, 2), k, if i == k then Own else Wire)
  }

  function Seqno(i: nat): nat {
    if i == 0 then 2 else 0
  }

  function Offered(x: Scene, i: nat): Replica {
    Tipped(x, Seqno(i)).(prePrepares := {Log(x, i)})
  }

  function Ready(x: Scene, i: nat): Replica {
    Offered(x, i).(prepares := {Vote(x, i, 1), Vote(x, i, 3)})
  }

  function Done(x: Scene, i: nat): Replica {
    Ready(x, i).(commits := {Commit(0, 2, DATA, i, Own)})
  }

  // The VIEW-CHANGE replica i sends for view 1.
  function P(x: Scene, i: nat): seq<PEntry> {
    if i == 2 then [PEntry(1, D(x, 1), 0)] else [PEntry(2, D(x, 2), 0)]
  }

  function Q(x: Scene, i: nat): seq<QEntry> {
    if i == 2 then [QEntry(1, D(x, 1), x.b1, 0)] else [QEntry(2, D(x, 2), x.b2, 0)]
  }

  function Hash(i: nat): int {
    if i == 2 then GENESIS else TIP
  }

  function Change(x: Scene, i: nat): ViewChange {
    ViewChange(1, if i == 2 then 0 else 1, Hash(i), P(x, i), Q(x, i), i)
  }

  function Before(x: Scene, i: nat): Replica {
    if i == 2 then Behind(x) else Done(x, i)
  }

  function Left(x: Scene, i: nat): Replica {
    Before(x, i).(view := 1, timeout := Timeout(x.cfg, 1), active := false, prePrepares := {}, prepares := {}, commits := {},
                  viewChanges := {Change(x, i)}, pi := Elems(P(x, i)), qi := Elems(Q(x, i)))
  }

  // ---------- local steps ----------

  lemma HIs(r: Replica, n: nat, hash: int, t: real)
    requires r.checkpoints == {Checkpoint(n, hash, t)}
    ensures H(r) == n && InW(r, n + 1)
  {
    HOfOne(r, Checkpoint(n, hash, t));
  }

  lemma AsksFor(x: Scene, i: nat, n: nat)
    requires Valid(x) && i < 4 && n < 5
    ensures May(Group(x), x.sc, i, Asked(x, n), ReceiveRequestA(D(x, n + 1), (n + 1) as real), {}, 10.0)
    ensures ReceiveRequest(Asked(x, n), D(x, n + 1), (n + 1) as real) == Asked(x, n + 1)
  {
    var r := Asked(x, n);
    if n > 0 {
      assert Request(D(x, n), n as real) in r.requests;
    }
    assert IsLatest(r, n as real);
    assert Asked(x, n + 1).requests == r.requests + {Request(D(x, n + 1), (n + 1) as real)};
  }

  lemma Offers1(x: Scene)
    requires Valid(x)
    ensures May(Group(x), x.sc, 0, Asked(x, 2), SendPrePrepareA(D(x, 1), x.b1, 1), {}, 10.0)
    ensures SendPrePrepare(0, Asked(x, 2), D(x, 1), x.b1, 1) == Offer1(x)
  {
    var r := Asked(x, 2);
    HIs(r, 0, GENESIS, 0.0);
    assert Request(D(x, 1), 1.0) in r.requests && Pending(r, 0, 10.0, 1.0);
  }

  lemma LogsOffer1(x: Scene, i: nat, has: set<Msg>)
    requires Valid(x) && (i == 1 || i == 2) && PrePrepareMsg(0, 1, D(x, 1), x.b1, 0) in has
    ensures May(Group(x), x.sc, i, Asked(x, 2), ReceivePrePrepareA(0, 1, D(x, 1), x.b1, 0), has, 10.0)
    ensures ReceivePrePrepare(Asked(x, 2), 0, 1, D(x, 1), x.b1, 0) == Heard1(x)
  {
    HIs(Asked(x, 2), 0, GENESIS, 0.0);
  }

  lemma Votes1(x: Scene, i: nat)
    requires Valid(x) && (i == 1 || i == 2)
    ensures May(Group(x), x.sc, i, Heard1(x), SendPrepareA(D(x, 1), 1), {}, 10.0)
    ensures SendPrepare(i, Heard1(x), D(x, 1), 1) == Helped(x, i)
  {
    var r := Heard1(x);
    HIs(r, 0, GENESIS, 0.0);
    assert Request(D(x, 1), 1.0) in r.requests;
    assert PrePrepare(0, 1, D(x, 1), x.b1, Primary(x.cfg, 0), Wire) in r.prePrepares;
  }

  lemma LogsVote1(x: Scene, has: set<Msg>)
    requires Valid(x) && PrepareMsg(0, 1, D(x, 1), 1) in has
    ensures May(Group(x), x.sc, 2, Helped(x, 2), ReceivePrepareA(0, 1, D(x, 1), 1), has, 10.0)
    ensures ReceivePrepare(Helped(x, 2), 0, 1, D(x, 1), 1) == Behind(x)
  {
    HIs(Helped(x, 2), 0, GENESIS, 0.0);
  }

  lemma PreparedBehind(x: Scene)
    requires Valid(x)
    ensures NewPi(x.cfg, Behind(x)) == {PEntry(1, D(x, 1), 0)} && NewQi(x.cfg, Behind(x)) == {QEntry(1, D(x, 1), x.b1, 0)}
  {
    var r := Behind(x);
    assert Request(D(x, 1), 1.0) in r.requests;
    assert PrePrepare(0, 1, D(x, 1), x.b1, Primary(x.cfg, 0), Wire) in r.prePrepares;
    assert LoggedPrePrepare(x.cfg, r, D(x, 1), 0, 1);
    assert PrepareFacts(r, D(x, 1), 0, 1) == {Vote1(x, 2, 2), Vote1(x, 2, 1)};
    assert |{Vote1(x, 2, 2), Vote1(x, 2, 1)}| == 2;
    assert Slots(r) == {PEntry(1, D(x, 1), 0)};
    assert !PreparedHigher(x.cfg, r, 1, 0);
    assert !PrePreparedHigher(x.cfg, r, D(x, 1), 1, 0);
  }

  lemma MinesBlock1(x: Scene, i: nat, r: Replica)
    requires Valid(x) && i < 4 && (r == Asked(x, 2) || r == Offer1(x) || r == Helped(x, 1))
    ensures May(Group(x), x.sc, i, r, ReceiveBlockA(D(x, 1), 1, 1.0, TIP), {}, 10.0)
    ensures ReceiveBlock(r, D(x, 1), 1, 1.0, TIP) == Tipped(x, r.seqno)
  {
    HIs(r, 0, GENESIS, 0.0);
    assert Request(D(x, 1), 1.0) in r.requests;
    assert r.requests == {Request(D(x, 1), 1.0), Request(D(x, 2), 2.0)};
    SlotIsNumber(x, 1);
  }

  lemma Offers2(x: Scene)
    requires Valid(x)
    ensures May(Group(x), x.sc, 0, Tipped(x, 1), SendPrePrepareA(D(x, 2), x.b2, 2), {}, 10.0)
    ensures SendPrePrepare(0, Tipped(x, 1), D(x, 2), x.b2, 2) == Offered(x, 0)
  {
    var r := Tipped(x, 1);
    HIs(r, 1, TIP, 1.0);
    assert Request(D(x, 2), 2.0) in r.requests && Pending(r, 0, 10.0, 2.0);
  }

  lemma LogsOffer(x: Scene, i: nat, has: set<Msg>)
    requires Valid(x) && (i == 1 || i == 3) && PrePrepareMsg(0, 2, D(x, 2), x.b2, 0) in has
    ensures May(Group(x), x.sc, i, Tipped(x, 0), ReceivePrePrepareA(0, 2, D(x, 2), x.b2, 0), has, 10.0)
    ensures ReceivePrePrepare(Tipped(x, 0), 0, 2, D(x, 2), x.b2, 0) == Offered(x, i)
  {
    HIs(Tipped(x, 0), 1, TIP, 1.0);
  }

  lemma Votes(x: Scene, i: nat)
    requires Valid(x) && (i == 1 || i == 3)
    ensures May(Group(x), x.sc, i, Offered(x, i), SendPrepareA(D(x, 2), 2), {}, 10.0)
    ensures SendPrepare(i, Offered(x, i), D(x, 2), 2) == Offered(x, i).(prepares := {Vote(x, i, i)})
  {
    var r := Offered(x, i);
    HIs(r, 1, TIP, 1.0);
    assert Request(D(x, 2), 2.0) in r.requests;
    assert PrePrepare(0, 2, D(x, 2), x.b2, Primary(x.cfg, 0), Wire) in r.prePrepares;
  }

  lemma LogsVote(x: Scene, i: nat, k: nat, ps: set<Prepare>, has: set<Msg>)
    requires Valid(x) && i < 4 && (k == 1 || k == 3) && i != k && PrepareMsg(0, 2, D(x, 2), k) in has
    ensures var r := Offered(x, i).(prepares := ps);
      && May(Group(x), x.sc, i, r, ReceivePrepareA(0, 2, D(x, 2), k), has, 10.0)
      && ReceivePrepare(r, 0, 2, D(x, 2), k) == r.(prepares := ps + {Vote(x, i, k)})
  {
    HIs(Offered(x, i).(prepares := ps), 1, TIP, 1.0);
  }

  lemma PreparedThere(x: Scene, i: nat, r: Replica)
    requires Valid(x) && (i == 0 || i == 1 || i == 3) && (r == Ready(x, i) || r == Done(x, i))
    ensures PreparedInLog(x.cfg, r, D(x, 2), 0, 2)
    ensures Slots(r) == {PEntry(2, D(x, 2), 0)}
    ensures NewPi(x.cfg, r) == {PEntry(2, D(x, 2), 0)} && NewQi(x.cfg, r) == {QEntry(2, D(x, 2), x.b2, 0)}
  {
    assert Request(D(x, 2), 2.0) in r.requests;
    assert PrePrepare(0, 2, D(x, 2), x.b2, Primary(x.cfg, 0), Log(x, i).sig) in r.prePrepares;
    assert LoggedPrePrepare(x.cfg, r, D(x, 2), 0, 2);
    assert PrepareFacts(r, D(x, 2), 0, 2) == {Vote(x, i, 1), Vote(x, i, 3)};
    assert Vote(x, i, 1) != Vote(x, i, 3);
    assert |{Vote(x, i, 1), Vote(x, i, 3)}| == 2;
    assert Slots(r) == {PEntry(2, D(x, 2), 0)};
    assert !PreparedHigher(x.cfg, r, 2, 0);
    assert !PrePreparedHigher(x.cfg, r, D(x, 2), 2, 0);
  }

  lemma CommitsThere(x: Scene, i: nat)
    requires Valid(x) && (i == 0 || i == 1 || i == 3)
    ensures May(Group(x), x.sc, i, Ready(x, i), SendCommitA(D(x, 2), 2, DATA), {}, 10.0)
    ensures SendCommit(i, Ready(x, i), 2, DATA) == Done(x, i)
  {
    HIs(Ready(x, i), 1, TIP, 1.0);
    PreparedThere(x, i, Ready(x, i));
  }

  lemma LeavesTip(x: Scene, i: nat)
    requires Valid(x) && (i == 0 || i == 1 || i == 3)
    ensures var r := Done(x, i);
      && PreSendViewChange(x.cfg, r, TIP, P(x, i), Q(x, i), 10.0)
      && OwnViewChange(i, r, TIP, P(x, i), Q(x, i)) == Change(x, i)
      && SendViewChange(x.cfg, i, r, TIP, P(x, i), Q(x, i)) == Left(x, i)
  {
    var r := Done(x, i);
    assert Pow2(0) == 1.0;
    assert Request(D(x, 2), 2.0) in r.requests;
    HIs(r, 1, TIP, 1.0);
    assert Checkpoint(1, TIP, 1.0) in r.checkpoints;
    PreparedThere(x, i, r);
  }

  lemma LeavesBehind(x: Scene)
    requires Valid(x)
    ensures var r := Behind(x);
      && PreSendViewChange(x.cfg, r, GENESIS, P(x, 2), Q(x, 2), 10.0)
      && OwnViewChange(2, r, GENESIS, P(x, 2), Q(x, 2)) == Change(x, 2)
      && SendViewChange(x.cfg, 2, r, GENESIS, P(x, 2), Q(x, 2)) == Left(x, 2)
  {
    var r := Behind(x);
    assert Pow2(0) == 1.0;
    assert Request(D(x, 2), 2.0) in r.requests;
    HIs(r, 0, GENESIS, 0.0);
    assert Checkpoint(0, GENESIS, 0.0) in r.checkpoints;
    PreparedBehind(x);
  }

  lemma Leaves(x: Scene, i: nat)
    requires Valid(x) && i < 4
    ensures var r := Before(x, i);
      && May(Group(x), x.sc, i, r, SendViewChangeA(Hash(i), P(x, i), Q(x, i)), {}, 10.0)
      && OwnViewChange(i, r, Hash(i), P(x, i), Q(x, i)) == Change(x, i)
      && SendViewChange(x.cfg, i, r, Hash(i), P(x, i), Q(x, i)) == Left(x, i)
  {
    hide PreSendViewChange, OwnViewChange, SendViewChange, Left, Done, Behind;
    if i == 2 {
      LeavesBehind(x);
    } else {
      LeavesTip(x, i);
    }
  }

  lemma ChangeCorrect(x: Scene, k: nat)
    ensures CorrectViewChange(Change(x, k)) && Change(x, k).sender == k && Change(x, k).v == 1
  {
  }

  // A VIEW-CHANGE reaches a replica that has logged none of its sender.
  lemma Learns(x: Scene, i: nat, r: Replica, vc: ViewChange, has: set<Msg>)
    requires Valid(x) && i < 4 && vc.sender != i && r.view <= vc.v && CorrectViewChange(vc) && ViewChangeMsg(vc) in has
    requires forall m :: m in r.viewChanges ==> m.sender != vc.sender
    ensures May(Group(x), x.sc, i, r, ReceiveViewChangeA(vc), has, 10.0)
  {
    hide CorrectViewChange;
  }

  // ---------- the NEW-VIEW ----------

  // The VIEW-CHANGEs of replicas 0, 1 and 2.
  function Three(x: Scene): set<ViewChange> {
    {Change(x, 0), Change(x, 1), Change(x, 2)}
  }

  function Listed(x: Scene): seq<ViewChange> {
    [Change(x, 0), Change(x, 1), Change(x, 2)]
  }

  function Nu(x: Scene): seq<NuEntry> {
    [NuEntryOf(x.cfg, Change(x, 0)), NuEntryOf(x.cfg, Change(x, 1)), NuEntryOf(x.cfg, Change(x, 2))]
  }

  // What replica 2 has prepared at 1 and the others have committed at 2.
  function Both(x: Scene): seq<ChiEntry> {
    [ChiEntry(1, D(x, 1), x.b1), ChiEntry(2, D(x, 2), x.b2)]
  }

  // Three logged VIEW-CHANGEs, each named by its own Nu entry.
  lemma ResolvesThree(cfg: Config, r: Replica, a: ViewChange, b: ViewChange, c: ViewChange)
    requires ValidConfig(cfg) && cfg.size == 4 && a.sender < b.sender < c.sender && r.viewChanges == {a, b, c}
    ensures var nu := [NuEntryOf(cfg, a), NuEntryOf(cfg, b), NuEntryOf(cfg, c)];
      CorrectNuOnce(cfg, r, nu) && NuMsgs(cfg, r.viewChanges, nu) == [a, b, c]
  {
    var nu := [NuEntryOf(cfg, a), NuEntryOf(cfg, b), NuEntryOf(cfg, c)];
    assert |{a, b, c}| == 3;
    assert Elems(nu) == NuSet(cfg, r);
    NuMsgsResolve(cfg, r.viewChanges, nu);
    var msgs := NuMsgs(cfg, r.viewChanges, nu);
    assert NuEntryOf(cfg, msgs[0]) == nu[0] && NuEntryOf(cfg, msgs[1]) == nu[1] && NuEntryOf(cfg, msgs[2]) == nu[2];
    assert msgs == [a, b, c];
  }

  lemma Resolves(x: Scene, r: Replica)
    requires Valid(x) && r.viewChanges == Three(x)
    ensures CorrectNuOnce(x.cfg, r, Nu(x)) && NuMsgs(x.cfg, r.viewChanges, Nu(x)) == Listed(x)
  {
    ResolvesThree(x.cfg, r, Change(x, 0), Change(x, 1), Change(x, 2));
  }

  lemma RangeOfThree(x: Scene)
    ensures MinHi(Listed(x)) == 0 && MaxS(Listed(x)) == 2
  {
    var msgs, two, last := Listed(x), [Change(x, 1), Change(x, 2)], [Change(x, 2)];
    assert msgs[1..] == two && two[1..] == last;
    assert MinHi(last) == 0;
    assert AllP(last) == P(x, 2) + AllP(last[1..]) == P(x, 2);
    assert AllP(two) == P(x, 1) + AllP(last);
    assert AllP(msgs) == P(x, 0) + AllP(two);
    var e, f := PEntry(2, D(x, 2), 0), PEntry(1, D(x, 1), 0);
    assert AllP(msgs) == [e, e, f];
    assert [f][1..] == [] && [e, f][1..] == [f] && [e, e, f][1..] == [e, f];
    assert MaxOfP([f], 0) == 1 && MaxOfP([e, f], 0) == 2 && MaxOfP([e, e, f], 0) == 2;
  }

  lemma ChiIsBoth(x: Scene)
    requires Valid(x)
    ensures ChiOf(Listed(x)) == Both(x)
  {
    var msgs := Listed(x);
    RangeOfThree(x);
    assert msgs[0] in msgs && msgs[2] in msgs;
    ChiAtMeaning(1, msgs);
    ChiAtMeaning(2, msgs);
    assert Derives(Change(x, 0), Change(x, 0), ChiEntry(2, D(x, 2), x.b2), 0);
    assert Derives(Change(x, 2), Change(x, 2), ChiEntry(1, D(x, 1), x.b1), 0);
    assert ChiRange(3, 2, msgs) == [];
    assert ChiRange(2, 2, msgs) == [ChiAt(2, msgs)] + ChiRange(3, 2, msgs);
    assert ChiRange(1, 2, msgs) == [ChiAt(1, msgs)] + ChiRange(2, 2, msgs);
  }

  lemma Announces(x: Scene, r: Replica)
    requires Valid(x) && r.viewChanges == Three(x) && r.newViews == {} && r.view == 1
    ensures PreSendNewView(x.cfg, 1, r, Nu(x), Both(x))
  {
    Resolves(x, r);
    ChiIsBoth(x);
  }

  // ---------- the run ----------

  function Offer1Msg(x: Scene): Msg {
    PrePrepareMsg(0, 1, D(x, 1), x.b1, 0)
  }

  function Vote1Msg(x: Scene, k: nat): Msg {
    PrepareMsg(0, 1, D(x, 1), k)
  }

  function Offer(x: Scene): Msg {
    PrePrepareMsg(0, 2, D(x, 2), x.b2, 0)
  }

  function VoteMsg(x: Scene, k: nat): Msg {
    PrepareMsg(0, 2, D(x, 2), k)
  }

  function CommitOf(k: nat): Msg {
    CommitMsg(0, 2, DATA, k)
  }

  ghost predicate At(x: Scene, rs: seq<Replica>, has: set<Msg>) {
    Arrives(Group(x), x.sc, rs, has, 10.0)
  }

  // One action of replica i.
  lemma Step(x: Scene, rs: seq<Replica>, has: set<Msg>, i: nat, a: Action, known: set<Msg>, rs': seq<Replica>, more: set<Msg>)
    requires Valid(x) && |rs| == 4 == |rs'| && i < 4 && At(x, rs, has) && known <= has
    requires May(Group(x), x.sc, i, rs[i], a, known, 10.0) && Apply(x.cfg, i, rs[i], a) == rs'[i]
    requires forall j :: 0 <= j < 4 && j != i ==> rs'[j] == rs[j]
    requires more <= has + Emit(x.cfg, i, rs[i], a)
    ensures At(x, rs', more)
  {
    hide Arrives, May, Apply, Emit;
    Do(Group(x), x.sc, rs, has, 10.0, i, a, known, rs'[i], more);
    assert rs[i := rs'[i]] == rs';
  }

  lemma Asks(x: Scene, rs: seq<Replica>, i: nat, rs': seq<Replica>)
    requires Valid(x) && |rs| == 4 && i < 4 && rs[i] == Fresh(x) && At(x, rs, {})
    requires rs' == rs[i := Asked(x, 2)]
    ensures At(x, rs', {})
  {
    assert Asked(x, 0).requests == {};
    assert Asked(x, 0) == Fresh(x);
    AsksFor(x, i, 0);
    AsksFor(x, i, 1);
    hide Fresh, Asked, D, Arrives;
    var mid := rs[i := Asked(x, 1)];
    Step(x, rs, {}, i, ReceiveRequestA(D(x, 1), 1.0), {}, mid, {});
    Step(x, mid, {}, i, ReceiveRequestA(D(x, 2), 2.0), {}, rs', {});
  }

  lemma AllFresh(x: Scene)
    requires Valid(x)
    ensures var f := Fresh(x); At(x, [f, f, f, f], {})
  {
    var f := Fresh(x);
    SlotIsNumber(x, 0);
    Start(Group(x), x.sc, GENESIS, [f, f, f, f]);
    Wait(Group(x), x.sc, [f, f, f, f], {}, 0.0, 10.0);
  }

  lemma AllAsk(x: Scene)
    requires Valid(x)
    ensures var r := Asked(x, 2); At(x, [r, r, r, r], {})
  {
    hide Fresh, Asked, Arrives, At, Valid;
    var f, r := Fresh(x), Asked(x, 2);
    AllFresh(x);
    Asks(x, [f, f, f, f], 0, [r, f, f, f]);
    Asks(x, [r, f, f, f], 1, [r, r, f, f]);
    Asks(x, [r, r, f, f], 2, [r, r, r, f]);
    Asks(x, [r, r, r, f], 3, [r, r, r, r]);
  }

  lemma Offer1Made(x: Scene)
    requires Valid(x)
    ensures var r := Asked(x, 2); At(x, [Offer1(x), r, r, r], {Offer1Msg(x)})
  {
    var r := Asked(x, 2);
    AllAsk(x);
    Offers1(x);
    assert r.view == 0;
    hide Asked, Offer1, D, Arrives, At, May, Valid;
    Step(x, [r, r, r, r], {}, 0, SendPrePrepareA(D(x, 1), x.b1, 1), {}, [Offer1(x), r, r, r], {Offer1Msg(x)});
  }

  lemma Offer1Step(x: Scene, rs: seq<Replica>, has: set<Msg>, i: nat, rs': seq<Replica>)
    requires Valid(x) && |rs| == 4 && (i == 1 || i == 2) && rs[i] == Asked(x, 2) && At(x, rs, has) && Offer1Msg(x) in has
    requires rs' == rs[i := Heard1(x)]
    ensures At(x, rs', has)
  {
    LogsOffer1(x, i, has);
    hide Asked, Heard1, D, Arrives, At, May, Valid;
    Step(x, rs, has, i, ReceivePrePrepareA(0, 1, D(x, 1), x.b1, 0), has, rs', has);
  }

  lemma Vote1Step(x: Scene, rs: seq<Replica>, has: set<Msg>, i: nat, rs': seq<Replica>)
    requires Valid(x) && |rs| == 4 && (i == 1 || i == 2) && rs[i] == Heard1(x) && At(x, rs, has)
    requires rs' == rs[i := Helped(x, i)]
    ensures At(x, rs', has + {Vote1Msg(x, i)})
  {
    Votes1(x, i);
    assert Heard1(x).view == 0;
    hide Heard1, Helped, D, Arrives, At, May, Valid;
    Step(x, rs, has, i, SendPrepareA(D(x, 1), 1), {}, rs', has + {Vote1Msg(x, i)});
  }

  lemma Hear1Step(x: Scene, rs: seq<Replica>, has: set<Msg>, rs': seq<Replica>)
    requires Valid(x) && |rs| == 4 && rs[2] == Helped(x, 2) && At(x, rs, has) && Vote1Msg(x, 1) in has
    requires rs' == rs[2 := Behind(x)]
    ensures At(x, rs', {})
  {
    LogsVote1(x, has);
    hide Helped, Behind, D, Arrives, At, May, Valid;
    Step(x, rs, has, 2, ReceivePrepareA(0, 1, D(x, 1), 1), has, rs', {});
  }

  lemma Slot1Prepared(x: Scene)
    requires Valid(x)
    ensures At(x, [Offer1(x), Helped(x, 1), Behind(x), Asked(x, 2)], {})
  {
    hide Asked, Offer1, Heard1, Helped, Behind, Offer1Msg, Vote1Msg, Arrives, At, Valid;
    var r, o, e, h1, h2 := Asked(x, 2), Offer1(x), Heard1(x), Helped(x, 1), Helped(x, 2);
    var has := {Offer1Msg(x)};
    Offer1Made(x);
    Offer1Step(x, [o, r, r, r], has, 1, [o, e, r, r]);
    Offer1Step(x, [o, e, r, r], has, 2, [o, e, e, r]);
    Vote1Step(x, [o, e, e, r], has, 1, [o, h1, e, r]);
    Vote1Step(x, [o, h1, e, r], has + {Vote1Msg(x, 1)}, 2, [o, h1, h2, r]);
    Hear1Step(x, [o, h1, h2, r], has + {Vote1Msg(x, 1)} + {Vote1Msg(x, 2)}, [o, h1, Behind(x), r]);
  }

  lemma Mines(x: Scene, rs: seq<Replica>, i: nat, rs': seq<Replica>)
    requires Valid(x) && |rs| == 4 && i < 4 && At(x, rs, {})
    requires rs[i] == Asked(x, 2) || rs[i] == Offer1(x) || rs[i] == Helped(x, 1)
    requires rs' == rs[i := Tipped(x, rs[i].seqno)]
    ensures At(x, rs', {})
  {
    MinesBlock1(x, i, rs[i]);
    hide Asked, Offer1, Helped, Tipped, D, Arrives, At, May, Valid;
    Step(x, rs, {}, i, ReceiveBlockA(D(x, 1), 1, 1.0, TIP), {}, rs', {});
  }

  lemma Block1Arrives(x: Scene)
    requires Valid(x)
    ensures At(x, [Tipped(x, 1), Tipped(x, 0), Behind(x), Tipped(x, 0)], {})
  {
    var r, o, h, z, t0, t := Asked(x, 2), Offer1(x), Helped(x, 1), Behind(x), Tipped(x, 1), Tipped(x, 0);
    assert o.seqno == 1 && r.seqno == 0 && h.seqno == 0;
    hide Asked, Tipped, Offer1, Helped, Behind, Arrives, At, Valid;
    Slot1Prepared(x);
    Mines(x, [o, h, z, r], 0, [t0, h, z, r]);
    Mines(x, [t0, h, z, r], 1, [t0, t, z, r]);
    Mines(x, [t0, t, z, r], 3, [t0, t, z, t]);
  }

  lemma OfferMade(x: Scene)
    requires Valid(x)
    ensures At(x, [Offered(x, 0), Tipped(x, 0), Behind(x), Tipped(x, 0)], {Offer(x)})
  {
    var z, t0, t := Behind(x), Tipped(x, 1), Tipped(x, 0);
    Block1Arrives(x);
    Offers2(x);
    assert t0.view == 0;
    hide Behind, Tipped, Offered, D, Arrives, At, May, Valid;
    Step(x, [t0, t, z, t], {}, 0, SendPrePrepareA(D(x, 2), x.b2, 2), {}, [Offered(x, 0), t, z, t], {Offer(x)});
  }

  lemma OfferStep(x: Scene, rs: seq<Replica>, has: set<Msg>, i: nat, rs': seq<Replica>)
    requires Valid(x) && |rs| == 4 && (i == 1 || i == 3) && rs[i] == Tipped(x, 0) && At(x, rs, has) && Offer(x) in has
    requires rs' == rs[i := Offered(x, i)]
    ensures At(x, rs', has)
  {
    LogsOffer(x, i, has);
    hide Tipped, Offered, D, Arrives, At, May, Valid;
    Step(x, rs, has, i, ReceivePrePrepareA(0, 2, D(x, 2), x.b2, 0), has, rs', has);
  }

  function Voted(x: Scene, i: nat): Replica {
    Offered(x, i).(prepares := {Vote(x, i, i)})
  }

  lemma VoteStep(x: Scene, rs: seq<Replica>, has: set<Msg>, i: nat, rs': seq<Replica>)
    requires Valid(x) && |rs| == 4 && (i == 1 || i == 3) && rs[i] == Offered(x, i) && At(x, rs, has)
    requires rs' == rs[i := Voted(x, i)]
    ensures At(x, rs', has + {VoteMsg(x, i)})
  {
    Votes(x, i);
    assert Offered(x, i).view == 0;
    hide Offered, D, Arrives, At, May, Vote, Valid;
    Step(x, rs, has, i, SendPrepareA(D(x, 2), 2), {}, rs', has + {VoteMsg(x, i)});
  }

  lemma HearStep(x: Scene, rs: seq<Replica>, has: set<Msg>, i: nat, k: nat, ps: set<Prepare>, rs': seq<Replica>)
    requires Valid(x) && |rs| == 4 && i < 4 && (k == 1 || k == 3) && i != k && rs[i] == Offered(x, i).(prepares := ps)
    requires At(x, rs, has) && VoteMsg(x, k) in has
    requires rs' == rs[i := Offered(x, i).(prepares := ps + {Vote(x, i, k)})]
    ensures At(x, rs', has)
  {
    LogsVote(x, i, k, ps, has);
    hide Offered, D, Arrives, At, May, Vote, Valid;
    Step(x, rs, has, i, ReceivePrepareA(0, 2, D(x, 2), k), has, rs', has);
  }

  lemma CommitStep(x: Scene, rs: seq<Replica>, has: set<Msg>, i: nat, rs': seq<Replica>)
    requires Valid(x) && |rs| == 4 && (i == 0 || i == 1 || i == 3) && rs[i] == Ready(x, i) && At(x, rs, has)
    requires rs' == rs[i := Done(x, i)]
    ensures At(x, rs', has + {CommitOf(i)})
  {
    CommitsThere(x, i);
    assert Ready(x, i).view == 0;
    hide Ready, Done, D, Arrives, At, May, Valid;
    Step(x, rs, has, i, SendCommitA(D(x, 2), 2, DATA), {}, rs', has + {CommitOf(i)});
  }

  lemma OfferAndVotes(x: Scene)
    requires Valid(x)
    ensures At(x, [Offered(x, 0), Voted(x, 1), Behind(x), Voted(x, 3)], {Offer(x)} + {VoteMsg(x, 1)} + {VoteMsg(x, 3)})
  {
    hide Behind, Tipped, Offered, Voted, Offer, VoteMsg, At, Valid;
    var z, t, o0, o1, o3 := Behind(x), Tipped(x, 0), Offered(x, 0), Offered(x, 1), Offered(x, 3);
    var has := {Offer(x)};
    OfferMade(x);
    OfferStep(x, [o0, t, z, t], has, 1, [o0, o1, z, t]);
    OfferStep(x, [o0, o1, z, t], has, 3, [o0, o1, z, o3]);
    VoteStep(x, [o0, o1, z, o3], has, 1, [o0, Voted(x, 1), z, o3]);
    VoteStep(x, [o0, Voted(x, 1), z, o3], has + {VoteMsg(x, 1)}, 3, [o0, Voted(x, 1), z, Voted(x, 3)]);
  }

  lemma ReadyAfter(x: Scene)
    ensures Offered(x, 0) == Offered(x, 0).(prepares := {})
    ensures Offered(x, 0).(prepares := {} + {Vote(x, 0, 1)} + {Vote(x, 0, 3)}) == Ready(x, 0)
    ensures Offered(x, 1).(prepares := {Vote(x, 1, 1)} + {Vote(x, 1, 3)}) == Ready(x, 1)
    ensures Offered(x, 3).(prepares := {Vote(x, 3, 3)} + {Vote(x, 3, 1)}) == Ready(x, 3)
  {
    assert {} + {Vote(x, 0, 1)} + {Vote(x, 0, 3)} == {Vote(x, 0, 1), Vote(x, 0, 3)};
    assert {Vote(x, 3, 3)} + {Vote(x, 3, 1)} == {Vote(x, 3, 1), Vote(x, 3, 3)};
  }

  lemma AllReady(x: Scene)
    requires Valid(x)
    ensures At(x, [Ready(x, 0), Ready(x, 1), Behind(x), Ready(x, 3)], {Offer(x)} + {VoteMsg(x, 1)} + {VoteMsg(x, 3)})
  {
    hide Behind, Offered, Ready, Vote, Offer, VoteMsg, At, Valid;
    var z, o0, v1, v3 := Behind(x), Offered(x, 0), Voted(x, 1), Voted(x, 3);
    var h0 := o0.(prepares := {} + {Vote(x, 0, 1)});
    var has := {Offer(x)} + {VoteMsg(x, 1)} + {VoteMsg(x, 3)};
    ReadyAfter(x);
    OfferAndVotes(x);
    HearStep(x, [o0, v1, z, v3], has, 0, 1, {}, [h0, v1, z, v3]);
    HearStep(x, [h0, v1, z, v3], has, 0, 3, {} + {Vote(x, 0, 1)}, [Ready(x, 0), v1, z, v3]);
    HearStep(x, [Ready(x, 0), v1, z, v3], has, 1, 3, {Vote(x, 1, 1)}, [Ready(x, 0), Ready(x, 1), z, v3]);
    HearStep(x, [Ready(x, 0), Ready(x, 1), z, v3], has, 3, 1, {Vote(x, 3, 3)}, [Ready(x, 0), Ready(x, 1), z, Ready(x, 3)]);
  }

  predicate CommitsIn(has: set<Msg>) {
    CommitOf(0) in has && CommitOf(1) in has && CommitOf(3) in has
  }

  // Three replicas have committed at 2 in view 0; replica 2 is still at height 0.
  lemma Committed3(x: Scene) returns (has: set<Msg>)
    requires Valid(x)
    ensures CommitsIn(has) && Offer(x) in has && At(x, [Done(x, 0), Done(x, 1), Behind(x), Done(x, 3)], has)
  {
    hide Behind, Ready, Done, Offer, VoteMsg, CommitOf, At, Valid;
    var z, r1, r3, d0, d1, d3 := Behind(x), Ready(x, 1), Ready(x, 3), Done(x, 0), Done(x, 1), Done(x, 3);
    has := {Offer(x)} + {VoteMsg(x, 1)} + {VoteMsg(x, 3)};
    AllReady(x);
    CommitStep(x, [Ready(x, 0), r1, z, r3], has, 0, [d0, r1, z, r3]);
    has := has + {CommitOf(0)};
    CommitStep(x, [d0, r1, z, r3], has, 1, [d0, d1, z, r3]);
    has := has + {CommitOf(1)};
    CommitStep(x, [d0, d1, z, r3], has, 3, [d0, d1, z, d3]);
    has := has + {CommitOf(3)};
  }

  // ---------- the view change ----------

  function ChangeMsg(x: Scene, i: nat): Msg {
    ViewChangeMsg(Change(x, i))
  }

  // Replica i leaves view 0.
  lemma LeaveStep(x: Scene, rs: seq<Replica>, has: set<Msg>, i: nat, rs': seq<Replica>)
    requires Valid(x) && |rs| == 4 && i < 4 && rs[i] == Before(x, i) && At(x, rs, has)
    requires rs' == rs[i := Left(x, i)]
    ensures At(x, rs', has + {ChangeMsg(x, i)})
  {
    Leaves(x, i);
    hide Before, Left, Change, P, Q, Hash, Arrives, At, May, Valid, SendViewChange, OwnViewChange;
    Step(x, rs, has, i, SendViewChangeA(Hash(i), P(x, i), Q(x, i)), {}, rs', has + {ChangeMsg(x, i)});
  }

  // Replica i logs a VIEW-CHANGE.
  lemma LearnStep(x: Scene, rs: seq<Replica>, has: set<Msg>, i: nat, vc: ViewChange, rs': seq<Replica>)
    requires Valid(x) && |rs| == 4 && i < 4 && At(x, rs, has) && ViewChangeMsg(vc) in has
    requires CorrectViewChange(vc) && vc.sender != i && rs[i].view <= vc.v
    requires forall m :: m in rs[i].viewChanges ==> m.sender != vc.sender
    requires rs' == rs[i := rs[i].(viewChanges := rs[i].viewChanges + {vc})]
    ensures At(x, rs', has)
  {
    hide Arrives, At, May, Valid, CorrectViewChange;
    Learns(x, i, rs[i], vc, has);
    Step(x, rs, has, i, ReceiveViewChangeA(vc), has, rs', has);
  }

  predicate ChangesIn(x: Scene, has: set<Msg>) {
    ChangeMsg(x, 0) in has && ChangeMsg(x, 1) in has && ChangeMsg(x, 2) in has
  }

  // Replicas 0, 1 and 2 have left view 0.
  lemma ThreeLeft(x: Scene) returns (has: set<Msg>)
    requires Valid(x)
    ensures CommitsIn(has) && ChangesIn(x, has) && At(x, [Left(x, 0), Left(x, 1), Left(x, 2), Done(x, 3)], has)
  {
    var d0, d1, z, d3 := Done(x, 0), Done(x, 1), Behind(x), Done(x, 3);
    var l0, l1, l2 := Left(x, 0), Left(x, 1), Left(x, 2);
    assert Before(x, 0) == d0 && Before(x, 1) == d1 && Before(x, 2) == z;
    hide Behind, Done, Left, Before, ChangeMsg, CommitOf, Offer, At, Valid;
    has := Committed3(x);
    LeaveStep(x, [d0, d1, z, d3], has, 0, [l0, d1, z, d3]);
    has := has + {ChangeMsg(x, 0)};
    LeaveStep(x, [l0, d1, z, d3], has, 1, [l0, l1, z, d3]);
    has := has + {ChangeMsg(x, 1)};
    LeaveStep(x, [l0, l1, z, d3], has, 2, [l0, l1, l2, d3]);
    has := has + {ChangeMsg(x, 2)};
  }

  // Replica i has logged all three VIEW-CHANGEs.
  function Knows(x: Scene, i: nat): Replica {
    Left(x, i).(viewChanges := Three(x))
  }

  // Replica i after it has learned of replica j.
  function Half(x: Scene, i: nat, j: nat): Replica {
    Left(x, i).(viewChanges := {Change(x, i)} + {Change(x, j)})
  }

  lemma KnowsAfter(x: Scene, i: nat, j: nat, k: nat)
    requires i < 3 && j < 3 && k < 3 && i != j && j != k && k != i
    ensures Left(x, i).viewChanges == {Change(x, i)} && Left(x, i).view == 1 && Half(x, i, j).view == 1
    ensures Half(x, i, j) == Left(x, i).(viewChanges := Left(x, i).viewChanges + {Change(x, j)})
    ensures Knows(x, i) == Half(x, i, j).(viewChanges := Half(x, i, j).viewChanges + {Change(x, k)})
    ensures forall vc :: vc in Left(x, i).viewChanges ==> vc.sender != j
    ensures forall vc :: vc in Half(x, i, j).viewChanges ==> vc.sender != k
  {
    assert {Change(x, i)} + {Change(x, j)} + {Change(x, k)} == Three(x);
  }

  // Replica i of the three learns of the other two.
  lemma LearnBoth(x: Scene, rs: seq<Replica>, has: set<Msg>, i: nat, j: nat, k: nat, rs': seq<Replica>)
    requires Valid(x) && |rs| == 4 && i < 3 && j < 3 && k < 3 && i != j && j != k && k != i
    requires rs[i] == Left(x, i) && At(x, rs, has) && ChangesIn(x, has) && rs' == rs[i := Knows(x, i)]
    ensures At(x, rs', has)
  {
    KnowsAfter(x, i, j, k);
    var mid := rs[i := Half(x, i, j)];
    assert ChangeMsg(x, j) in has && ChangeMsg(x, k) in has;
    assert mid[i] == Half(x, i, j) && rs' == mid[i := Knows(x, i)];
    hide Left, Half, Knows, Change, ChangesIn, CorrectViewChange, At, Valid;
    ChangeCorrect(x, j);
    ChangeCorrect(x, k);
    LearnStep(x, rs, has, i, Change(x, j), mid);
    LearnStep(x, mid, has, i, Change(x, k), rs');
  }

  lemma PrimaryKnows(x: Scene) returns (has: set<Msg>)
    requires Valid(x)
    ensures CommitsIn(has) && ChangesIn(x, has) && At(x, [Left(x, 0), Knows(x, 1), Left(x, 2), Done(x, 3)], has)
  {
    hide Done, Left, Knows, ChangesIn, CommitsIn, At, Valid;
    has := ThreeLeft(x);
    var l0, l1, l2, d3 := Left(x, 0), Left(x, 1), Left(x, 2), Done(x, 3);
    LearnBoth(x, [l0, l1, l2, d3], has, 1, 0, 2, [l0, Knows(x, 1), l2, d3]);
  }

  ghost predicate AllFor1(x: Scene, r: Replica) {
    forall vc :: vc in NuMsgs(x.cfg, r.viewChanges, Nu(x)) ==> vc.v == 1 && vc.hi < 2
  }

  lemma KnowsAllFor1(x: Scene)
    requires Valid(x)
    ensures PreSendNewView(x.cfg, 1, Knows(x, 1), Nu(x), Both(x)) && AllFor1(x, Knows(x, 1))
  {
    Announces(x, Knows(x, 1));
    Resolves(x, Knows(x, 1));
  }

  lemma RunTo(x: Scene, rs: seq<Replica>, has: set<Msg>) returns (run: seq<System>, events: seq<Event>)
    requires At(x, rs, has)
    ensures ScheduledRun(Group(x), x.sc, run, events) && run != []
    ensures run[|run| - 1].replicas == rs && has <= run[|run| - 1].sent
  {
    var s :| Reachable(Group(x), x.sc, s) && s.replicas == rs && has <= s.sent && s.clock == 10.0;
    run, events :| ScheduledRun(Group(x), x.sc, run, events) && run[|run| - 1] == s;
    NotEmpty(Group(x), x.sc, run, events);
  }

  lemma NotEmpty(cl: Cluster, sc: Schedule, run: seq<System>, events: seq<Event>)
    requires ScheduledRun(cl, sc, run, events)
    ensures run != []
  {
  }

  // Every hypothesis of Safety.ViewChangeKeepsCommitted holds in this state, for the three replicas
  // that committed at 2 in view 0 and the NEW-VIEW that replica 1 may send now.
  lemma HypothesesMet(x: Scene) returns (run: seq<System>, events: seq<Event>)
    requires Valid(x)
    ensures ValidCluster(Group(x)) && ScheduledRun(Group(x), x.sc, run, events) && run != []
    ensures var s, committers := run[|run| - 1], {0, 1, 3};
      && |s.replicas| == 4 && PreSendNewView(x.cfg, 1, s.replicas[1], Nu(x), Both(x))
      && AllFor1(x, s.replicas[1])
      && committers <= Ids(4) && |committers| >= Quorum(x.cfg)
      && forall k :: k in committers ==> CommitMsg(0, 2, DATA, k) in s.sent
  {
    hide PreSendNewView, AllFor1, Left, Knows, Done, ScheduledRun, Nu, Both, At, ChangesIn;
    KnowsAllFor1(x);
    var has := PrimaryKnows(x);
    run, events := RunTo(x, [Left(x, 0), Knows(x, 1), Left(x, 2), Done(x, 3)], has);
  }

  // Replica 2 has what PROCESS_NEW_VIEW asks for.
  function Waiting(x: Scene): Replica {
    Knows(x, 2).(newViews := {NewView(1, Nu(x), Both(x))})
  }

  lemma AnnounceStep(x: Scene, rs: seq<Replica>, has: set<Msg>, rs': seq<Replica>)
    requires Valid(x) && |rs| == 4 && rs[1] == Knows(x, 1) && At(x, rs, has)
    requires rs' == rs[1 := AddNewView(Knows(x, 1), 1, Nu(x), Both(x))]
    ensures At(x, rs', has + {NewViewMsg(1, Nu(x), Both(x), 1)})
  {
    KnowsAllFor1(x);
    assert Knows(x, 1).view == 1;
    hide Knows, Nu, Both, Arrives, At, PreSendNewView, Valid;
    Step(x, rs, has, 1, SendNewViewA(Nu(x), Both(x)), {}, rs', has + {NewViewMsg(1, Nu(x), Both(x), 1)});
  }

  lemma WaitStep(x: Scene, rs: seq<Replica>, has: set<Msg>, rs': seq<Replica>)
    requires Valid(x) && |rs| == 4 && rs[2] == Knows(x, 2) && At(x, rs, has)
    requires NewViewMsg(1, Nu(x), Both(x), 1) in has && rs' == rs[2 := Waiting(x)]
    ensures At(x, rs', has)
  {
    assert Knows(x, 2).view == 1 && Knows(x, 2).newViews == {} && Primary(x.cfg, 1) == 1;
    hide Knows, Nu, Both, Arrives, At;
    Step(x, rs, has, 2, ReceiveNewViewA(1, Nu(x), Both(x), 1), has, rs', has);
  }

  lemma NewViewArrives(x: Scene) returns (rs: seq<Replica>, has: set<Msg>)
    requires Valid(x)
    ensures |rs| == 4 && rs[2] == Waiting(x) && At(x, rs, has)
  {
    hide Done, Left, Knows, Waiting, Nu, Both, AddNewView, At, Valid;
    has := PrimaryKnows(x);
    var l0, k1, l2, k2, d3 := Left(x, 0), Knows(x, 1), Left(x, 2), Knows(x, 2), Done(x, 3);
    var nu, chi := Nu(x), Both(x);
    var s1 := AddNewView(k1, 1, nu, chi);
    AnnounceStep(x, [l0, k1, l2, d3], has, [l0, s1, l2, d3]);
    has := has + {NewViewMsg(1, nu, chi, 1)};
    LearnBoth(x, [l0, s1, l2, d3], has, 2, 0, 1, [l0, s1, k2, d3]);
    rs := [l0, s1, Waiting(x), d3];
    WaitStep(x, [l0, s1, k2, d3], has, rs);
  }
}
