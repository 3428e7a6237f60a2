// The engine as the program keeps it: one list of facts per dynamic predicate, updated in place,
// and an out buffer. Each method takes exactly the step of the cluster model that it implements.
module ReplicaEngines {
  import opened Types
  import opened Lists
  import opened FactLog
  import opened Engine
  import opened System
  import Roast
  import RoastCoordinators
  import RoastTheorems
  import RoastData

  class ReplicaEngine {
    const cfg: Config
    const id: nat
    // Request::digest, which spells out the timestamp of a request.
    const spell: real -> Digest
    // roast_crypto_pre_sig_aggregate, and the ROAST facts of this replica.
    const aggregate: seq<int> -> int
    const roast: RoastCoordinators.RoastCoordinator
    var view: nat
    var active: bool
    var timeout: real
    var seqno: nat
    var lastExec: nat
    var lastRep: real
    var val: int
    var checkpoints: seq<Checkpoint>
    var requests: seq<Request>
    var prePrepares: seq<PrePrepare>
    var prepares: seq<Prepare>
    var commits: seq<Commit>
    var recovery: seq<Recovery>
    var viewChanges: seq<ViewChange>
    var newViews: seq<NewView>
    var pi: seq<PEntry>
    var qi: seq<QEntry>
    var out: seq<Msg>

    // The fact base as the value the cluster model works on.
    ghost function Facts(): Replica
      reads this
    {
      Replica(view, active, timeout, seqno, lastExec, lastRep, val, Elems(checkpoints), Elems(requests),
              Elems(prePrepares), Elems(prepares), Elems(commits), Elems(recovery), Elems(viewChanges),
              Elems(newViews), Elems(pi), Elems(qi))
    }

    // assertz_once never repeats a fact, and a request is logged under the digest of its timestamp.
    ghost predicate Valid()
      reads this
    {
      && checkpoints != [] && NoDup(checkpoints) && NoDup(requests)
      && NoDup(prePrepares) && NoDup(prepares) && NoDup(commits) && NoDup(recovery)
      && NoDup(viewChanges) && NoDup(newViews) && NoDup(pi) && NoDup(qi) && NoDup(out)
      && SpelledBy(requests, spell) && SpellsApart(spell)
    }

    // Timestamps are unsigned integers in the program.
    static predicate IsWhole(t: real) {
      t == t.Floor as real
    }

    static ghost predicate SpelledBy(log: seq<Request>, spell: real -> Digest) {
      forall m :: m in log ==> IsWhole(m.t) && m.d == spell(m.t)
    }

    // Different times of whole seconds have different digests.
    static ghost predicate SpellsApart(spell: real -> Digest) {
      forall t, u :: IsWhole(t) && IsWhole(u) && spell(t) == spell(u) ==> t == u
    }

    // The timestamp itself is such a digest.
    static lemma SpellExists() returns (spell: real -> Digest)
      ensures SpellsApart(spell)
    {
      spell := (t: real) => Req(t.Floor);
    }

    constructor (cfg: Config, id: nat, spell: real -> Digest, aggregate: seq<int> -> int, height: nat, hash: int, t: real)
      requires SpellsApart(spell)
      ensures Valid() && this.cfg == cfg && this.id == id && this.spell == spell && out == []
      ensures fresh(roast) && roast.Facts() == RoastCoordinators.Nothing
      ensures Facts() == Initial(cfg, height, hash, t)
    {
      this.cfg, this.id, this.spell, this.aggregate := cfg, id, spell, aggregate;
      roast := new RoastCoordinators.RoastCoordinator();
      view, active, timeout, seqno, lastExec, lastRep, val := 0, true, Timeout(cfg, 0), height, height, t, hash;
      checkpoints, requests := [Checkpoint(height, hash, t)], [];
      prePrepares, prepares, commits, recovery, viewChanges, newViews := [], [], [], [], [], [];
      pi, qi, out := [], [], [];
    }

    // ---------- queries ----------

    // get_h: the least of all checkpoint heights.
    method GetH() returns (h: nat)
      requires Valid()
      ensures h == H(Facts()) && forall n: nat :: InW(Facts(), n) <==> h < n <= h + 1
    {
      var cps := checkpoints;
      var heights := seq(|cps|, k requires 0 <= k < |cps| => cps[k].n);
      h := MinList(heights);
      ghost var r := Facts();
      assert forall c :: c in r.checkpoints ==> exists k :: 0 <= k < |cps| && cps[k] == c;
      assert forall k :: 0 <= k < |cps| ==> heights[k] == cps[k].n && cps[k] in r.checkpoints;
      LowestExists(r.checkpoints);
      assert cps[0] in r.checkpoints;
      ghost var c :| IsLowest(r.checkpoints, c) && H(r) == c.n;
      assert c.n in heights;
    }

    predicate RequestKnown(d: Digest)
      reads this
    {
      exists m | m in requests :: m.d == d
    }

    predicate PrePreparedNow(d: Digest, v: nat, n: nat)
      reads this
    {
      || (exists e | e in qi :: e.n == n && e.d == d && e.v == v)
      || (RequestKnown(d)
          && exists m | m in prePrepares :: m.v == v && m.n == n && m.d == d && m.sender == Primary(cfg, v))
    }

    static function AtSlot(d: Digest, v: nat, n: nat): Prepare -> bool {
      (p: Prepare) => p.v == v && p.n == n && p.d == d
    }

    // The log branch of prepared/4: findall over the PREPARE facts and their number.
    predicate PreparedNow(d: Digest, v: nat, n: nat)
      reads this
    {
      PrePreparedNow(d, v, n) && |Kept(prepares, AtSlot(d, v, n))| >= Quorum(cfg) - 1
    }

    lemma RequestKnownMeaning(d: Digest)
      ensures RequestKnown(d) <==> HasRequest(Facts(), d)
    {
      if RequestKnown(d) {
        var m :| m in requests && m.d == d;
        assert Request(d, m.t) in Facts().requests;
      }
    }

    lemma PrePreparedMeaning(d: Digest, v: nat, n: nat)
      ensures PrePreparedNow(d, v, n) <==> PrePrepared(cfg, Facts(), d, v, n)
    {
      var r := Facts();
      RequestKnownMeaning(d);
      if e :| e in qi && e.n == n && e.d == d && e.v == v {
        assert QEntry(n, d, e.b, v) in r.qi;
      }
      if m :| m in prePrepares && m.v == v && m.n == n && m.d == d && m.sender == Primary(cfg, v) {
        assert PrePrepare(v, n, d, m.b, Primary(cfg, v), m.sig) in r.prePrepares;
      }
    }

    // Counting the listed facts agrees with the cardinality the cluster model counts by.
    lemma PreparedMeaning(d: Digest, v: nat, n: nat)
      requires Valid()
      ensures PreparedNow(d, v, n) <==> PreparedInLog(cfg, Facts(), d, v, n)
    {
      PrePreparedMeaning(d, v, n);
      var keep := AtSlot(d, v, n);
      KeptElems(prepares, keep);
      NoDupCard(Kept(prepares, keep));
      assert Elems(Kept(prepares, keep)) == PrepareFacts(Facts(), d, v, n);
    }

    // ---------- updates shared by several actions ----------

    // The loop over the recovery log retracts a predicate of another arity, so that log stays.
    method ClearBelowView(v: nat)
      requires Valid()
      modifies `prePrepares, `prepares, `commits, `viewChanges, `newViews
      ensures Valid()
      ensures Facts() == Engine.ClearBelowView(old(Facts()), v)
    {
      var pps := RetractEach(prePrepares, (m: PrePrepare) => m.v < v);
      var ps := RetractEach(prepares, (m: Prepare) => m.v < v);
      var cs := RetractEach(commits, (m: Commit) => m.v < v);
      var vcs := RetractEach(viewChanges, (m: ViewChange) => m.v < v);
      var nvs := RetractEach(newViews, (m: NewView) => m.v < v);
      ghost var r := Facts();
      assert Elems(pps) == Engine.ClearBelowView(r, v).prePrepares;
      assert Elems(ps) == Engine.ClearBelowView(r, v).prepares;
      assert Elems(cs) == Engine.ClearBelowView(r, v).commits;
      assert Elems(vcs) == Engine.ClearBelowView(r, v).viewChanges;
      assert Elems(nvs) == Engine.ClearBelowView(r, v).newViews;
      prePrepares, prepares, commits, viewChanges, newViews := pps, ps, cs, vcs, nvs;
    }

    method Put(m: Msg)
      requires Valid()
      modifies `out
      ensures Valid() && Elems(out) == old(Elems(out)) + {m}
    {
      AssertOnceElems(out, m);
      out := AssertOnce(out, m);
    }

    // ---------- actions ----------

    method ReceiveRequest(t: real)
      requires Valid() && IsWhole(t)
      modifies `requests
      ensures Valid() && Facts() == Apply(cfg, id, old(Facts()), ReceiveRequestA(spell(t), t))
    {
      if t > lastRep {
        AssertOnceElems(requests, Request(spell(t), t));
        requests := AssertOnce(requests, Request(spell(t), t));
      }
    }

    method SendPrePrepare(d: Digest, b: Block, v: nat, n: nat)
      requires Valid() && v == view
      modifies `seqno, `prePrepares, `out
      ensures Valid() && Facts() == Apply(cfg, id, old(Facts()), SendPrePrepareA(d, b, n))
      ensures Elems(out) == old(Elems(out)) + Emit(cfg, id, old(Facts()), SendPrePrepareA(d, b, n))
    {
      seqno := n;
      Put(PrePrepareMsg(v, n, d, b, id));
      AssertOnceElems(prePrepares, PrePrepare(v, n, d, b, id, Own));
      prePrepares := AssertOnce(prePrepares, PrePrepare(v, n, d, b, id, Own));
    }

    // effect_RECEIVE_PRE_PREPARE: the whole update, or nothing when a condition fails.
    method ReceivePrePrepare(v: nat, n: nat, d: Digest, b: Block, sender: nat) returns (ok: bool)
      requires Valid()
      modifies `prePrepares
      ensures Valid()
      ensures var a := ReceivePrePrepareA(v, n, d, b, sender);
        && (ok <==> Enabled(cfg, id, old(Facts()), a, 0.0))
        && Facts() == if ok then Apply(cfg, id, old(Facts()), a) else old(Facts())
    {
      var h := GetH();
      var sameSlot := exists m | m in prePrepares :: m.v == v && m.n == n && m.sender == sender;
      var sameDigest := exists m | m in prePrepares :: m.v == v && m.n == n && m.sender == sender && m.d == d;
      ok := sender != id && Primary(cfg, view) == sender && h < n <= h + 1 && v == view && active
            && (!sameSlot || sameDigest);
      if ok {
        AssertOnceElems(prePrepares, PrePrepare(v, n, d, b, sender, Wire));
        prePrepares := AssertOnce(prePrepares, PrePrepare(v, n, d, b, sender, Wire));
      }
    }

    method SendPrepare(d: Digest, v: nat, n: nat)
      requires Valid() && v == view
      modifies `prepares, `out
      ensures Valid() && Facts() == Apply(cfg, id, old(Facts()), SendPrepareA(d, n))
      ensures Elems(out) == old(Elems(out)) + Emit(cfg, id, old(Facts()), SendPrepareA(d, n))
    {
      Put(PrepareMsg(v, n, d, id));
      AssertOnceElems(prepares, Prepare(v, n, d, id, Own));
      prepares := AssertOnce(prepares, Prepare(v, n, d, id, Own));
    }

    method ReceivePrepare(v: nat, n: nat, d: Digest, sender: nat) returns (ok: bool)
      requires Valid()
      modifies `prepares
      ensures Valid()
      ensures var a := ReceivePrepareA(v, n, d, sender);
        && (ok <==> Enabled(cfg, id, old(Facts()), a, 0.0))
        && Facts() == if ok then Apply(cfg, id, old(Facts()), a) else old(Facts())
    {
      var h := GetH();
      ok := sender != id && Primary(cfg, view) != sender && h < n <= h + 1 && v == view;
      if ok {
        AssertOnceElems(prepares, Prepare(v, n, d, sender, Wire));
        prepares := AssertOnce(prepares, Prepare(v, n, d, sender, Wire));
      }
    }

    method SendCommit(v: nat, n: nat, data: int, d: Digest)
      requires Valid() && v == view
      modifies `commits, `out
      ensures Valid() && Facts() == Apply(cfg, id, old(Facts()), SendCommitA(d, n, data))
      ensures Elems(out) == old(Elems(out)) + Emit(cfg, id, old(Facts()), SendCommitA(d, n, data))
    {
      Put(CommitMsg(v, n, data, id));
      AssertOnceElems(commits, Commit(v, n, data, id, Own));
      commits := AssertOnce(commits, Commit(v, n, data, id, Own));
    }

    // sig_quorum: F + 1 shares make a signature.
    function Coordination(): Roast.Params {
      Roast.Params(cfg.size, F(cfg) + 1, aggregate)
    }

    // The replica coordinates a ROAST session for (v, n) that is not final yet.
    predicate Coordinates(v: nat, n: nat)
      reads this, roast
    {
      && roast.active && roast.slot.v == v && roast.slot.n == n && Primary(cfg, v) == id
      && !Roast.Final(Coordination(), roast.Facts())
    }

    // What an input does to the ROAST facts of a coordinator without a final session.
    static lemma ShareTaken(p: Roast.Params, c: Roast.Coordinator, i: nat, data: int)
      requires Roast.ReceiveSigShare(p, c, i, Roast.NoShare, data).Done?
      ensures var d := Roast.ReceiveSigShare(p, c, i, Roast.NoShare, data).c;
        i !in c.sid ==> i in d.latest && d.latest[i] == data && (i in d.responsive || (d.counter == c.counter + 1 && d.responsive == []))
    {
    }

    // Inside the window and view a COMMIT is logged; from a later view it is kept for recovery.
    method LogCommit(v: nat, n: nat, data: int, sender: nat) returns (ok: bool)
      requires Valid()
      modifies `commits, `recovery
      ensures Valid()
      ensures var a := ReceiveCommitA(v, n, data, sender);
        && (ok <==> Enabled(cfg, id, old(Facts()), a, 0.0))
        && Facts() == if ok then Apply(cfg, id, old(Facts()), a) else old(Facts())
    {
      var h := GetH();
      if sender == id {
        return false;
      }
      if h < n <= h + 1 && v == view {
        AssertOnceElems(commits, Commit(v, n, data, sender, Wire));
        commits := AssertOnce(commits, Commit(v, n, data, sender, Wire));
        return true;
      }
      if v > view {
        AssertOnceElems(recovery, Recovery(v, n, sender));
        recovery := AssertOnce(recovery, Recovery(v, n, sender));
        return true;
      }
      return false;
    }

    // The replica is primary of the view of its ROAST slot (v, n), and no session has a share of a third of
    // the replicas, rounded up.
    ghost predicate AwaitsShares(v: nat, n: nat)
      reads this, roast
    {
      && roast.active && roast.slot.v == v && roast.slot.n == n && cfg.size > 0 && id == v % cfg.size
      && forall k :: k in roast.sessions ==> |roast.sessions[k].shares| != (cfg.size + 2) / 3
    }

    lemma CoordinatesMeaning(v: nat, n: nat)
      requires cfg.size > 0
      ensures Coordinates(v, n) <==> AwaitsShares(v, n)
    {
      assert F(cfg) + 1 == (cfg.size + 2) / 3;
    }

    // effect_RECEIVE_COMMIT. Logging a COMMIT of the session it coordinates also hands its data to
    // the coordinator as a pre-signature share; if that fails the COMMIT is not logged either.
    method ReceiveCommit(v: nat, n: nat, data: int, sender: nat) returns (ok: bool)
      requires Valid()
      modifies `commits, `recovery, roast
      ensures Valid()
      ensures var a, p := ReceiveCommitA(v, n, data, sender), Coordination();
        var share := Roast.ReceiveSigShare(p, old(roast.Facts()), sender, Roast.NoShare, data);
        var joins := InW(old(Facts()), n) && v == view && old(Coordinates(v, n));
        && (ok <==> Enabled(cfg, id, old(Facts()), a, 0.0) && (joins ==> share.Done?))
        && Facts() == (if ok then Apply(cfg, id, old(Facts()), a) else old(Facts()))
        && roast.Facts() == if ok && joins then share.c else old(roast.Facts())
      ensures roast.out == old(roast.out) + RoastCoordinators.Opened(old(roast.Facts()), roast.Facts())
      // Only a COMMIT it awaits reaches the coordinator, and the first of its sender does so with its data.
      ensures cfg.size > 0 && !(v == view && old(AwaitsShares(v, n))) ==> roast.Facts() == old(roast.Facts())
      ensures cfg.size > 0 && ok && v == view && old(AwaitsShares(v, n)) && sender !in old(roast.sid) ==>
        && sender in roast.latest && roast.latest[sender] == data
        && (sender in roast.responsive || (roast.counter == old(roast.counter) + 1 && roast.responsive == []))
    {
      hide Roast.ReceiveSigShare, Roast.Final, AwaitsShares, NoDup, SpelledBy, SpellsApart, H, Apply;
      if cfg.size > 0 {
        CoordinatesMeaning(v, n);
      }
      ghost var share := Roast.ReceiveSigShare(Coordination(), roast.Facts(), sender, Roast.NoShare, data);
      if share.Done? {
        ShareTaken(Coordination(), roast.Facts(), sender, data);
      }
      RoastCoordinators.OpenedNone(roast.Facts());
      var h := GetH();
      var logged, kept := commits, recovery;
      ok := LogCommit(v, n, data, sender);
      if ok && h < n <= h + 1 && v == view && Coordinates(v, n) {
        ok := roast.ReceiveShare(Coordination(), sender, Roast.NoShare, data);
        if !ok {
          commits, recovery := logged, kept;
        }
      }
    }

    // The inputs ROAST_INIT takes from the logged COMMITs.
    static function CommitInputs(log: seq<Commit>, v: nat, n: nat): seq<Roast.Input> {
      Mapped(Kept(log, (c: Commit) => c.v == v && c.n == n), (c: Commit) => Roast.Contribution(c.sender, c.data))
    }

    // at lists, in order, the positions of the logged COMMITs for (v, n), which come from distinct replicas.
    ghost predicate CommitsAt(log: seq<Commit>, v: nat, n: nat, at: seq<nat>) {
      && (forall j :: 0 <= j < |at| ==> at[j] < |log| && log[at[j]].v == v && log[at[j]].n == n && log[at[j]].sender < cfg.size)
      && (forall a, b :: 0 <= a < b < |at| ==> at[a] < at[b] && log[at[a]].sender != log[at[b]].sender)
      && (forall m: nat :: m < |log| && log[m].v == v && log[m].n == n ==> m in at)
    }

    // The session of the COMMITs at these positions: their senders sign, and exactly their data are
    // aggregated, in order.
    ghost predicate SessionOf(s: Roast.Session, log: seq<Commit>, at: seq<nat>)
      requires forall j :: 0 <= j < |at| ==> at[j] < |log|
    {
      && s.signers == seq(|at|, j requires 0 <= j < |at| => log[at[j]].sender)
      && s.preSig == aggregate(seq(|at|, j requires 0 <= j < |at| => log[at[j]].data))
      && s.shares == []
    }

    lemma InputsAt(log: seq<Commit>, v: nat, n: nat, at: seq<nat>)
      requires CommitsAt(log, v, n, at)
      ensures var es := CommitInputs(log, v, n);
        |es| == |at| && forall j :: 0 <= j < |at| ==> es[j] == Roast.Contribution(log[at[j]].sender, log[at[j]].data)
    {
      var keep := (c: Commit) => c.v == v && c.n == n;
      assert Positions(log, keep, at);
      KeptAt(log, keep, at);
    }

    // With COMMITs of at least F + 1 replicas logged, ROAST_INIT succeeds and the first session is that of
    // the first F + 1 of them.
    lemma FirstSession(log: seq<Commit>, v: nat, n: nat, at: seq<nat>)
      requires CommitsAt(log, v, n, at) && |at| >= F(cfg) + 1
      ensures var r := Roast.RoastInit(Coordination(), Roast.Cleared, CommitInputs(log, v, n));
        && r.Done? && 1 in r.c.sessions && r.c.counter >= 1 && SessionOf(r.c.sessions[1], log, at[..F(cfg) + 1])
    {
      var p, es := Coordination(), CommitInputs(log, v, n);
      AreCommits(log, v, n, at);
      hide *;
      OpensFirst(p, es);
      FirstOf(Roast.Run(p, Roast.Cleared, es).sessions[1], log, v, n, at);
    }

    lemma AreCommits(log: seq<Commit>, v: nat, n: nat, at: seq<nat>)
      requires CommitsAt(log, v, n, at) && |at| >= F(cfg) + 1
      ensures RoastTheorems.Commits(Coordination(), CommitInputs(log, v, n))
      ensures Coordination().threshold == F(cfg) + 1 && Coordination().aggregate == aggregate
      ensures |CommitInputs(log, v, n)| == |at| && forall j :: 0 <= j < |at| ==> at[j] < |log|
    {
      InputsAt(log, v, n, at);
      assert at[0] < |log|;
      hide CommitInputs;
    }

    lemma FirstOf(s: Roast.Session, log: seq<Commit>, v: nat, n: nat, at: seq<nat>)
      requires CommitsAt(log, v, n, at) && |at| >= F(cfg) + 1
      requires var es, t := CommitInputs(log, v, n), F(cfg) + 1;
        && |es| == |at| && s.shares == [] && s.signers == RoastData.SendersOf(es[..t])
        && s.preSig == aggregate(RoastData.NextsOf(es[..t]))
      ensures SessionOf(s, log, at[..F(cfg) + 1])
    {
      var es, t := CommitInputs(log, v, n), F(cfg) + 1;
      InputsAt(log, v, n, at);
      hide CommitInputs, CommitsAt, F;
      assert RoastData.SendersOf(es[..t]) == seq(t, j requires 0 <= j < t => log[at[..t][j]].sender);
      assert RoastData.NextsOf(es[..t]) == seq(t, j requires 0 <= j < t => log[at[..t][j]].data);
    }

    static lemma OpensSome(p: Roast.Params, es: seq<Roast.Input>)
      requires RoastTheorems.Commits(p, es) && |es| >= p.threshold
      ensures var c := Roast.Run(p, Roast.Cleared, es);
        && Roast.RoastInit(p, Roast.Cleared, es) == Roast.Done(c) && RoastTheorems.FairRun(p, es)
        && c.counter >= 1 && 1 in c.sessions && c.sessions[1].shares == []
    {
      hide Roast.RoastInit, Roast.Run;
      RoastTheorems.InitSucceeds(p, es);
      assert |es| / p.threshold >= 1;
    }

    // The first t contributions open the first session.
    static lemma OpensFirst(p: Roast.Params, es: seq<Roast.Input>)
      requires RoastTheorems.Commits(p, es) && |es| >= p.threshold
      ensures var c := Roast.Run(p, Roast.Cleared, es);
        && Roast.RoastInit(p, Roast.Cleared, es) == Roast.Done(c) && c.counter >= 1 && 1 in c.sessions
        && c.sessions[1].signers == RoastData.SendersOf(es[..p.threshold])
        && c.sessions[1].preSig == p.aggregate(RoastData.NextsOf(es[..p.threshold])) && c.sessions[1].shares == []
    {
      hide *;
      OpensSome(p, es);
      RoastData.SessionsInOrder(p, es, 1);
      TakesFirst(p, Roast.Run(p, Roast.Cleared, es).sessions[1], es);
    }

    static lemma TakesFirst(p: Roast.Params, s: Roast.Session, es: seq<Roast.Input>)
      requires RoastData.TakesInputs(p, s, es, 1)
      ensures p.threshold <= |es| && s.signers == RoastData.SendersOf(es[..p.threshold])
      ensures s.preSig == p.aggregate(RoastData.NextsOf(es[..p.threshold]))
    {
      assert RoastData.Used(p, 0) == 0 && RoastData.Used(p, 1) == p.threshold;
      assert es[0..p.threshold] == es[..p.threshold];
    }

    // effect_ROAST_INIT. The primary starts coordinating and feeds in the logged COMMITs; a backup
    // only notes the session.
    method RoastInit(v: nat, n: nat, d: Digest) returns (ok: bool)
      modifies roast
      ensures var p, c := Coordination(), old(roast.Facts()).(active := true, counter := 0);
        var r := Roast.RoastInit(p, c, CommitInputs(commits, v, n));
        if Primary(cfg, v) != id then ok && roast.Facts() == old(roast.Facts()).(active := true)
        else ok == r.Done? && roast.Facts() == if ok then r.c else old(roast.Facts())
      ensures roast.slot == if ok then RoastCoordinators.Slot(v, n, d) else old(roast.slot)
      ensures var c := old(roast.Facts()).(active := true, counter := 0);
        roast.out == if ok && Primary(cfg, v) == id then old(roast.out) + RoastCoordinators.Opened(c, roast.Facts()) else old(roast.out)
      // At the primary, from no ROAST facts and with the COMMITs of F + 1 replicas logged: it succeeds, the
      // first F + 1 of them sign the first session, and its pre-signature is made of exactly their data.
      ensures forall at: seq<nat> ::
        old(roast.Facts()) == RoastCoordinators.Nothing && Primary(cfg, v) == id && CommitsAt(commits, v, n, at) && |at| >= F(cfg) + 1 ==>
          && ok && 1 in roast.sessions && SessionOf(roast.sessions[1], commits, at[..F(cfg) + 1])
          && RoastCoordinators.PreSignature(roast.sessions[1].signers, roast.sessions[1].preSig) in roast.out
    {
      forall at: seq<nat> | CommitsAt(commits, v, n, at) && |at| >= F(cfg) + 1
        ensures var r := Roast.RoastInit(Coordination(), Roast.Cleared, CommitInputs(commits, v, n));
          && r.Done? && 1 in r.c.sessions && r.c.counter >= 1 && SessionOf(r.c.sessions[1], commits, at[..F(cfg) + 1])
      {
        FirstSession(commits, v, n, at);
      }
      hide Roast.RoastInit, CommitInputs, SessionOf, CommitsAt;
      var before, sent, slot := roast.Facts(), roast.out, roast.slot;
      roast.Start(RoastCoordinators.Slot(v, n, d), Primary(cfg, v) == id);
      ok := true;
      if Primary(cfg, v) == id {
        ok := roast.FeedCommits(Coordination(), CommitInputs(commits, v, n));
        if !ok {
          roast.slot := slot;
          roast.Restore(before, sent);
        }
      }
    }

    method RecoverView(v: nat)
      requires Valid()
      modifies this
      ensures Valid() && Facts() == Apply(cfg, id, old(Facts()), RecoverViewA(v)) && out == old(out)
    {
      view, timeout := v, Timeout(cfg, v);
      ClearBelowView(v);
    }

    method ExecuteRequest(d: Digest, n: nat, newVal: int, ghost t: real)
      requires Valid() && (RequestKnown(d) ==> Request(d, t) in requests)
      modifies `lastExec, `lastRep, `val
      ensures Valid() && Facts() == Engine.Execute(old(Facts()), d, t, n, newVal)
    {
      if exists m | m in requests :: m.d == d && m.t > lastRep {
        var m :| m in requests && m.d == d && m.t > lastRep;
        assert m == Request(d, t);
        lastExec, lastRep, val := n, m.t, newVal;
      }
    }

    method Execute(d: Digest, n: nat, newVal: int, ghost t: real, ghost v: nat, ghost fin: bool)
      requires Valid() && (RequestKnown(d) ==> Request(d, t) in requests)
      modifies `lastExec, `lastRep, `val
      ensures Valid() && Facts() == Apply(cfg, id, old(Facts()), ExecuteA(d, t, v, n, newVal, fin))
    {
      ExecuteRequest(d, n, newVal, t);
    }

    ghost predicate HighestPrepared(r: Replica, e: PEntry) {
      PreparedInLog(cfg, r, e.d, e.v, e.n) && !PreparedHigher(cfg, r, e.n, e.v)
    }

    ghost predicate HighestPrePrepared(r: Replica, m: PrePrepare) {
      m.sender == Primary(cfg, m.v) && HasRequest(r, m.d) && !PrePreparedHigher(cfg, r, m.d, m.n, m.v)
    }

    // The solutions of the generator of update_view_change_Pi, on the log branch of prepared/4.
    method PreparedSlots() returns (found: seq<PEntry>)
      requires Valid()
      ensures Elems(found) == NewPi(cfg, Facts())
    {
      hide PreparedInLog, PreparedHigher, PreparedNow, NoDup, H;
      var qs, ms := qi, prePrepares;
      var slots := seq(|qs|, k requires 0 <= k < |qs| => PEntry(qs[k].n, qs[k].d, qs[k].v)) +
                   seq(|ms|, k requires 0 <= k < |ms| => PEntry(ms[k].n, ms[k].d, ms[k].v));
      ghost var r := Facts();
      assert Elems(slots) == Slots(r) by {
        SlotsListed(slots);
      }
      found := [];
      for k := 0 to |slots|
        invariant forall e :: e in found ==> e in slots && HighestPrepared(r, e)
        invariant forall e :: e in slots[..k] && HighestPrepared(r, e) ==> e in found
      {
        var e := slots[k];
        PreparedMeaning(e.d, e.v, e.n);
        HigherMeaning(slots, e.n, e.v);
        if PreparedNow(e.d, e.v, e.n) && !(exists x | x in slots :: x.n == e.n && x.v > e.v && PreparedNow(x.d, x.v, x.n)) {
          found := found + [e];
        }
        assert slots[..k + 1] == slots[..k] + [e];
      }
      assert slots[..|slots|] == slots;
    }

    lemma SlotsListed(slots: seq<PEntry>)
      requires |slots| == |qi| + |prePrepares|
      requires forall k :: 0 <= k < |qi| ==> slots[k] == PEntry(qi[k].n, qi[k].d, qi[k].v)
      requires forall k :: 0 <= k < |prePrepares| ==>
                 slots[|qi| + k] == PEntry(prePrepares[k].n, prePrepares[k].d, prePrepares[k].v)
      ensures Elems(slots) == Slots(Facts())
    {
      var r := Facts();
      forall e | e in Slots(r) ensures e in slots {
        if q :| q in qi && e == PEntry(q.n, q.d, q.v) {
          var k :| 0 <= k < |qi| && qi[k] == q;
          assert slots[k] == e;
        } else {
          var m :| m in prePrepares && e == PEntry(m.n, m.d, m.v);
          var k :| 0 <= k < |prePrepares| && prePrepares[k] == m;
          assert slots[|qi| + k] == e;
        }
      }
      forall e | e in slots ensures e in Slots(r) {
        var k :| 0 <= k < |slots| && slots[k] == e;
        if k < |qi| {
          assert qi[k] in r.qi;
        } else {
          assert prePrepares[k - |qi|] in r.prePrepares;
        }
      }
    }

    lemma HigherMeaning(slots: seq<PEntry>, n: nat, v: nat)
      requires Valid() && Elems(slots) == Slots(Facts())
      ensures (exists x | x in slots :: x.n == n && x.v > v && PreparedNow(x.d, x.v, x.n)) <==> PreparedHigher(cfg, Facts(), n, v)
    {
      forall x | x in slots ensures PreparedNow(x.d, x.v, x.n) <==> PreparedInLog(cfg, Facts(), x.d, x.v, x.n) {
        PreparedMeaning(x.d, x.v, x.n);
      }
      assert forall x :: x in slots <==> x in Slots(Facts());
    }

    // The solutions of the generator of update_view_change_Qi, on the log branch of pre_prepared/4.
    method PrePreparedSlots() returns (found: seq<QEntry>)
      requires Valid()
      ensures Elems(found) == NewQi(cfg, Facts())
    {
      hide NoDup, SpelledBy, SpellsApart, H;
      var ms := prePrepares;
      ghost var r := Facts();
      found := [];
      for k := 0 to |ms|
        invariant forall e :: e in found ==> e in NewQi(cfg, r)
        invariant forall m :: m in ms[..k] && HighestPrePrepared(r, m) ==> QEntry(m.n, m.d, m.b, m.v) in found
      {
        var m := ms[k];
        RequestKnownMeaning(m.d);
        HigherPrePrepareMeaning(m.d, m.n, m.v);
        assert m in r.prePrepares;
        if m.sender == Primary(cfg, m.v) && RequestKnown(m.d)
           && !(exists x | x in ms :: x.n == m.n && x.d == m.d && x.v > m.v && x.sender == Primary(cfg, x.v)) {
          assert QEntry(m.n, m.d, m.b, m.v) in NewQi(cfg, r);
          found := found + [QEntry(m.n, m.d, m.b, m.v)];
        }
        assert ms[..k + 1] == ms[..k] + [m];
      }
      assert ms[..|ms|] == ms;
    }

    lemma HigherPrePrepareMeaning(d: Digest, n: nat, v: nat)
      ensures PrePreparedHigher(cfg, Facts(), d, n, v) <==>
              RequestKnown(d) && exists x | x in prePrepares :: x.n == n && x.d == d && x.v > v && x.sender == Primary(cfg, x.v)
    {
      var r := Facts();
      RequestKnownMeaning(d);
      if x :| RequestKnown(d) && x in prePrepares && x.n == n && x.d == d && x.v > v && x.sender == Primary(cfg, x.v) {
        assert x in r.prePrepares && PrePrepare(x.v, n, d, x.b, Primary(cfg, x.v), x.sig) in r.prePrepares;
        assert LoggedPrePrepare(cfg, r, d, x.v, n);
      }
      if PrePreparedHigher(cfg, r, d, n, v) {
        var m :| m in r.prePrepares && m.n == n && m.d == d && m.v > v && PrePreparedInLog(cfg, r, d, m.v, n);
        var b, sig :| PrePrepare(m.v, n, d, b, Primary(cfg, m.v), sig) in r.prePrepares;
        assert PrePrepare(m.v, n, d, b, Primary(cfg, m.v), sig) in prePrepares;
      }
    }

    lemma SlotsFrame(a: Replica, b: Replica)
      requires a.requests == b.requests && a.prePrepares == b.prePrepares && a.prepares == b.prepares
      ensures a.qi == b.qi ==> NewPi(cfg, a) == NewPi(cfg, b)
      ensures NewQi(cfg, a) == NewQi(cfg, b)
    {
      assert forall d :: HasRequest(a, d) <==> HasRequest(b, d);
      assert forall d, v, n :: LoggedPrePrepare(cfg, a, d, v, n) <==> LoggedPrePrepare(cfg, b, d, v, n);
      assert forall d, n, v :: PrePreparedHigher(cfg, a, d, n, v) <==> PrePreparedHigher(cfg, b, d, n, v);
      if a.qi == b.qi {
        assert Slots(a) == Slots(b);
        assert forall d, v, n :: PrepareFacts(a, d, v, n) == PrepareFacts(b, d, v, n);
        assert forall d, v, n :: PrePrepared(cfg, a, d, v, n) <==> PrePrepared(cfg, b, d, v, n);
        assert forall d, v, n :: PreparedInLog(cfg, a, d, v, n) <==> PreparedInLog(cfg, b, d, v, n);
        assert forall n, v :: PreparedHigher(cfg, a, n, v) <==> PreparedHigher(cfg, b, n, v);
      }
    }

    // update_view_change_Pi: retract all, then assert the solutions found before.
    method UpdatePi()
      requires Valid()
      modifies `pi
      ensures Valid() && Elems(pi) == NewPi(cfg, old(Facts()))
    {
      pi := [];
      var found := PreparedSlots();
      SlotsFrame(Facts(), old(Facts()));
      pi := AssertEach(pi, found);
    }

    method UpdateQi()
      requires Valid()
      modifies `qi
      ensures Valid() && Elems(qi) == NewQi(cfg, old(Facts()))
    {
      qi := [];
      var found := PrePreparedSlots();
      SlotsFrame(Facts(), old(Facts()));
      qi := AssertEach(qi, found);
    }

    // The first half of apply_SEND_VIEW_CHANGE: the new view, inactive, with Pi and Qi rebuilt.
    method EnterView(v: nat)
      requires Valid()
      modifies `view, `timeout, `active, `pi, `qi
      ensures Valid()
      ensures Facts() == SetView(cfg, old(Facts()), v).(active := false, pi := NewPi(cfg, old(Facts())), qi := NewQi(cfg, old(Facts())))
    {
      hide NewPi, NewQi, NoDup, Elems, Timeout, SpelledBy, SpellsApart;
      ghost var r := Facts();
      view, timeout := v, Timeout(cfg, v);
      active := false;
      SlotsFrame(Facts(), r);
      UpdatePi();
      SlotsFrame(Facts(), r);
      UpdateQi();
    }

    // Append the message to the out buffer and to the log.
    method AddOwnViewChange(vc: ViewChange)
      requires Valid()
      modifies `out, `viewChanges
      ensures Valid()
      ensures Elems(out) == old(Elems(out)) + {ViewChangeMsg(vc)}
      ensures Facts() == old(Facts()).(viewChanges := old(Facts()).viewChanges + {vc})
    {
      Put(ViewChangeMsg(vc));
      AssertOnceElems(viewChanges, vc);
      viewChanges := AssertOnce(viewChanges, vc);
    }

    method SendViewChange(v: nat) returns (c: int, p: seq<PEntry>, q: seq<QEntry>)
      requires Valid() && v == view + 1
      modifies this, roast`active
      ensures roast.Facts() == old(roast.Facts()).(active := false)
      ensures Valid()
      ensures exists k :: k in old(checkpoints) && k.n == H(old(Facts())) && k.hash == c
      ensures Enumerates(p, NewPi(cfg, old(Facts()))) && Enumerates(q, NewQi(cfg, old(Facts())))
      ensures Facts() == Apply(cfg, id, old(Facts()), SendViewChangeA(c, p, q))
      ensures Elems(out) == old(Elems(out)) + Emit(cfg, id, old(Facts()), SendViewChangeA(c, p, q))
    {
      hide NewPi, NewQi, NoDup, Elems, Engine.ClearBelowView, H, SpelledBy, SpellsApart;
      ghost var r := Facts();
      EnterView(v);
      roast.Deactivate();
      p, q := pi, qi;
      SameH(Facts(), r);
      var h;
      h, c := OwnCheckpoint();
      AddOwnViewChange(ViewChange(v, h, c, p, q, id));
      ClearBelowView(v);
      assert Facts() == Engine.SendViewChange(cfg, id, r, c, p, q);
    }

    // The height and hash of the lowest checkpoint.
    method OwnCheckpoint() returns (h: nat, hash: int)
      requires Valid()
      ensures h == H(Facts()) && exists k :: k in checkpoints && k.n == h && k.hash == hash
    {
      h := GetH();
      LowestCheckpoint();
      var k :| k in checkpoints && k.n == h;
      hash := k.hash;
    }

    lemma LowestCheckpoint()
      requires Valid()
      ensures exists k :: k in checkpoints && k.n == H(Facts())
    {
      var r := Facts();
      assert checkpoints[0] in r.checkpoints;
      LowestExists(r.checkpoints);
      var c :| IsLowest(r.checkpoints, c) && H(r) == c.n;
      assert c in checkpoints;
    }

    method ReceiveViewChange(vc: ViewChange) returns (ok: bool)
      requires Valid()
      modifies `viewChanges
      ensures Valid()
      ensures var a := ReceiveViewChangeA(vc);
        && (ok <==> Enabled(cfg, id, old(Facts()), a, 0.0))
        && Facts() == if ok then Apply(cfg, id, old(Facts()), a) else old(Facts())
    {
      ok := vc.sender != id && vc.v >= view && CorrectViewChange(vc)
            && !(exists m | m in viewChanges :: m.v == vc.v && m.sender == vc.sender);
      if ok {
        AssertOnceElems(viewChanges, vc);
        viewChanges := AssertOnce(viewChanges, vc);
      }
    }

    method SendNewView(nu: seq<NuEntry>, chi: seq<ChiEntry>)
      requires Valid()
      modifies `newViews, `out
      ensures Valid() && Facts() == Apply(cfg, id, old(Facts()), SendNewViewA(nu, chi))
      ensures Elems(out) == old(Elems(out)) + Emit(cfg, id, old(Facts()), SendNewViewA(nu, chi))
    {
      AssertOnceElems(newViews, NewView(view, nu, chi));
      newViews := AssertOnce(newViews, NewView(view, nu, chi));
      Put(NewViewMsg(view, nu, chi, id));
    }

    method ReceiveNewView(v: nat, nu: seq<NuEntry>, chi: seq<ChiEntry>, sender: nat) returns (ok: bool)
      requires Valid()
      modifies `newViews
      ensures Valid()
      ensures var a := ReceiveNewViewA(v, nu, chi, sender);
        && (ok <==> Enabled(cfg, id, old(Facts()), a, 0.0))
        && Facts() == if ok then Apply(cfg, id, old(Facts()), a) else old(Facts())
    {
      ok := sender != id && 0 < v <= view && sender == Primary(cfg, v);
      if ok && NewView(view, nu, chi) !in newViews {
        AssertOnceElems(newViews, NewView(v, nu, chi));
        newViews := AssertOnce(newViews, NewView(v, nu, chi));
      }
    }

    // The loop of collect_garbage over every height below n. Its view_change_Pi and view_change_Qi
    // goals name predicates of another arity and retract nothing.
    method SweepBelow(n: nat)
      returns (cps: seq<Checkpoint>, pps: seq<PrePrepare>, ps: seq<Prepare>, cs: seq<Commit>)
      requires Valid()
      ensures NoDup(cps) && forall x :: x in cps <==> x in checkpoints && x.n >= n
      ensures NoDup(pps) && forall x :: x in pps <==> x in prePrepares && x.n >= n
      ensures NoDup(ps) && forall x :: x in ps <==> x in prepares && x.n >= n
      ensures NoDup(cs) && forall x :: x in cs <==> x in commits && x.n >= n
    {
      cps, pps, ps, cs := checkpoints, prePrepares, prepares, commits;
      for n1 := 0 to n
        invariant NoDup(cps) && forall x :: x in cps <==> x in checkpoints && x.n >= n1
        invariant NoDup(pps) && forall x :: x in pps <==> x in prePrepares && x.n >= n1
        invariant NoDup(ps) && forall x :: x in ps <==> x in prepares && x.n >= n1
        invariant NoDup(cs) && forall x :: x in cs <==> x in commits && x.n >= n1
      {
        cps := RetractEach(cps, (c: Checkpoint) => c.n == n1);
        pps := RetractEach(pps, (m: PrePrepare) => m.n == n1);
        ps := RetractEach(ps, (m: Prepare) => m.n == n1);
        cs := RetractEach(cs, (m: Commit) => m.n == n1);
      }
    }

    // The goals of collect_garbage for n itself, after the loop below n.
    method SweepAt(n: nat)
      returns (cps: seq<Checkpoint>, pps: seq<PrePrepare>, ps: seq<Prepare>, cs: seq<Commit>, es: seq<PEntry>, qs: seq<QEntry>)
      requires Valid()
      ensures (exists c :: c in checkpoints && c.n >= n) ==> cps != []
      ensures NoDup(cps) && Elems(cps) == Engine.CollectGarbage(Facts(), n).checkpoints
      ensures NoDup(pps) && Elems(pps) == Engine.CollectGarbage(Facts(), n).prePrepares
      ensures NoDup(ps) && Elems(ps) == Engine.CollectGarbage(Facts(), n).prepares
      ensures NoDup(cs) && Elems(cs) == Engine.CollectGarbage(Facts(), n).commits
      ensures NoDup(es) && Elems(es) == Engine.CollectGarbage(Facts(), n).pi
      ensures NoDup(qs) && Elems(qs) == Engine.CollectGarbage(Facts(), n).qi
    {
      cps, pps, ps, cs := SweepBelow(n);
      pps := RetractEach(pps, (m: PrePrepare) => m.n == n);
      ps := RetractEach(ps, (m: Prepare) => m.n == n);
      cs := RetractEach(cs, (m: Commit) => m.n == n);
      es := RetractEach(pi, (e: PEntry) => e.n == n);
      qs := RetractEach(qi, (e: QEntry) => e.n == n);
    }

    method SweepRequests(ghost n: nat) returns (rs: seq<Request>)
      requires Valid()
      ensures NoDup(rs) && Elems(rs) == Engine.CollectGarbage(Facts(), n).requests
      ensures SpelledBy(rs, spell)
    {
      var last := lastRep;
      rs := RetractEach(requests, (m: Request) => m.t <= last);
    }

    static lemma SweptFields(r: Replica, n: nat)
      ensures var s := Engine.CollectGarbage(r, n);
        s == r.(checkpoints := s.checkpoints, requests := s.requests, prePrepares := s.prePrepares,
                prepares := s.prepares, commits := s.commits, pi := s.pi, qi := s.qi)
    {
    }

    method ClearFacts(n: nat)
      requires Valid() && exists c :: c in checkpoints && c.n >= n
      modifies `checkpoints, `requests, `prePrepares, `prepares, `commits, `pi, `qi
      ensures Valid() && Facts() == Engine.CollectGarbage(old(Facts()), n)
    {
      hide Engine.CollectGarbage, NoDup, Elems, SpelledBy, SpellsApart;
      var cps, pps, ps, cs, es, qs := SweepAt(n);
      var rs := SweepRequests(n);
      SweptFields(Facts(), n);
      checkpoints, requests, prePrepares, prepares, commits, pi, qi := cps, rs, pps, ps, cs, es, qs;
    }

    // collect_garbage: the loop below n, then n itself, then the requests and the ROAST facts.
    method CollectGarbage(n: nat)
      requires Valid() && exists c :: c in checkpoints && c.n >= n
      modifies `checkpoints, `requests, `prePrepares, `prepares, `commits, `pi, `qi, roast
      ensures Valid() && Facts() == Engine.CollectGarbage(old(Facts()), n)
      ensures roast.Facts() == RoastCoordinators.Nothing && roast.out == {}
    {
      hide Engine.CollectGarbage, NoDup, Elems, SpelledBy, SpellsApart;
      ClearFacts(n);
      roast.CollectGarbage();
    }

    // A block whose timestamp matches no logged request is refused.
    method ReceiveBlock(height: nat, t: real, hash: int) returns (ok: bool, d: Digest)
      requires Valid()
      modifies this, roast
      ensures Valid() && out == old(out)
      ensures ok <==> exists m :: m in old(requests) && m.t == t
      ensures ok ==> Request(d, t) in old(requests) && Facts() == Apply(cfg, id, old(Facts()), ReceiveBlockA(d, height, t, hash))
      ensures ok ==> roast.Facts() == RoastCoordinators.Nothing && roast.out == {}
      ensures !ok ==> Facts() == old(Facts()) && unchanged(roast)
    {
      ok := exists m | m in requests :: m.t == t;
      if !ok {
        return ok, Null;
      }
      var m :| m in requests && m.t == t;
      d := m.d;
      LogBlock(d, height, t, hash);
    }

    // The rest of apply_RECEIVE_BLOCK, for the request the block answers.
    method LogBlock(d: Digest, height: nat, t: real, hash: int)
      requires Valid() && Request(d, t) in requests
      modifies this, roast
      ensures roast.Facts() == RoastCoordinators.Nothing && roast.out == {}
      ensures Valid() && out == old(out) && Facts() == Engine.ReceiveBlock(old(Facts()), d, height, t, hash)
    {
      ExecuteRequest(d, height, hash, t);
      AddCheckpoint(height, hash, t);
      CollectGarbage(height);
    }

    method AddCheckpoint(n: nat, hash: int, t: real)
      requires Valid()
      modifies `checkpoints
      ensures Valid() && Checkpoint(n, hash, t) in checkpoints
      ensures Facts() == old(Facts()).(checkpoints := old(Facts()).checkpoints + {Checkpoint(n, hash, t)})
    {
      AssertOnceElems(checkpoints, Checkpoint(n, hash, t));
      checkpoints := AssertOnce(checkpoints, Checkpoint(n, hash, t));
      assert Checkpoint(n, hash, t) in Elems(checkpoints);
    }

    // The greatest sequence number of the logged PRE-PREPAREs of the current view, or hi.
    method TopLogged(hi: nat) returns (n: nat)
      requires Valid() && hi == H(Facts())
      ensures IsTopSeqno(Facts(), n)
    {
      var v := view;
      var ms := Kept(prePrepares, (m: PrePrepare) => m.v == v);
      KeptElems(prePrepares, (m: PrePrepare) => m.v == v);
      var ns := seq(|ms|, k requires 0 <= k < |ms| => ms[k].n);
      assert forall m :: m in Facts().prePrepares && m.v == view ==> m in ms;
      assert forall m :: m in ms ==> m in Facts().prePrepares && m.v == view;
      if |ns| != 0 {
        n := MaxList(ns);
        var k :| 0 <= k < |ns| && ns[k] == n;
        assert ms[k] in Facts().prePrepares;
        forall m | m in Facts().prePrepares && m.v == view ensures m.n <= n {
          var j :| 0 <= j < |ms| && ms[j] == m;
          assert ns[j] in ns;
        }
      } else {
        n := hi;
      }
    }

    // The first half of apply_PROCESS_NEW_VIEW: active again, with the PRE-PREPAREs of Chi.
    method EnterNewView(hi: nat, chi: seq<ChiEntry>)
      requires Valid() && hi == H(Facts())
      modifies `active, `prePrepares, `seqno
      ensures Valid()
      ensures var r1 := old(Facts()).(active := true, prePrepares := old(Facts()).prePrepares + ChiPrePrepares(cfg, view, chi));
        Facts() == r1.(seqno := TopSeqno(r1))
    {
      ghost var r := Facts();
      active := true;
      var news := PrePreparesOf(view, Primary(cfg, view), chi);
      prePrepares := AssertEach(prePrepares, news);
      SameH(Facts(), r);
      var top := TopLogged(hi);
      TopUnique(Facts(), top);
      seqno := top;
    }

    // Its second half at a backup: a PREPARE of its own for every entry of Chi.
    method AddOwnPrepares(chi: seq<ChiEntry>)
      requires Valid()
      modifies `prepares, `out
      ensures Valid()
      ensures Elems(out) == old(Elems(out)) + ChiPrepareMsgs(view, chi, id)
      ensures Facts() == old(Facts()).(prepares := old(Facts()).prepares + ChiPrepares(view, chi, id))
    {
      var own, msgs := PreparesOf(view, id, chi);
      prepares := AssertEach(prepares, own);
      out := AssertEach(out, msgs);
    }

    method ProcessNewView(hi: nat, nu: seq<NuEntry>, chi: seq<ChiEntry>)
      requires Valid() && hi == H(Facts())
      modifies this
      ensures Valid() && Facts() == Apply(cfg, id, old(Facts()), ProcessNewViewA(nu, chi))
      ensures Elems(out) == old(Elems(out)) + Emit(cfg, id, old(Facts()), ProcessNewViewA(nu, chi))
    {
      ghost var r := Facts();
      EnterNewView(hi, chi);
      if Primary(cfg, view) != id {
        AddOwnPrepares(chi);
      }
      assert Facts() == Engine.ProcessNewView(cfg, id, r, chi);
    }

    method PrePreparesOf(v: nat, primary: nat, chi: seq<ChiEntry>) returns (ms: seq<PrePrepare>)
      requires primary == Primary(cfg, v)
      ensures Elems(ms) == ChiPrePrepares(cfg, v, chi)
    {
      var f := (e: ChiEntry) => PrePrepare(v, e.n, e.d, e.b, primary, InNewView);
      MappedElems(chi, f);
      ms := Mapped(chi, f);
    }

    static method PreparesOf(v: nat, i: nat, chi: seq<ChiEntry>) returns (own: seq<Prepare>, msgs: seq<Msg>)
      ensures Elems(own) == ChiPrepares(v, chi, i)
      ensures Elems(msgs) == ChiPrepareMsgs(v, chi, i)
    {
      var f := (e: ChiEntry) => Prepare(v, e.n, e.d, i, Own);
      MappedElems(chi, f);
      own := Mapped(chi, f);
      var g := (e: ChiEntry) => PrepareMsg(v, e.n, e.d, i);
      MappedElems(chi, g);
      msgs := Mapped(chi, g);
    }

    static lemma TopUnique(r: Replica, n: nat)
      requires IsTopSeqno(r, n)
      ensures n == TopSeqno(r)
    {
      TopSeqnoExists(r);
      assert IsTopSeqno(r, TopSeqno(r));
    }
  }
}
