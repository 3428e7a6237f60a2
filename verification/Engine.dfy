// One replica of the engine: its state, the queries over its fact base, and for each action the
// guard (pre_ACTION) and the resulting state (apply_ACTION).
module Engine {
  import opened Types
  import opened Lists

  datatype Replica = Replica(
    view: nat, active: bool, timeout: real, seqno: nat, lastExec: nat, lastRep: real, val: int,
    checkpoints: set<Checkpoint>, requests: set<Request>,
    prePrepares: set<PrePrepare>, prepares: set<Prepare>, commits: set<Commit>,
    recovery: set<Recovery>, viewChanges: set<ViewChange>, newViews: set<NewView>,
    pi: set<PEntry>, qi: set<QEntry>)

  // init: no fact but the initial block, view 0, active.
  function Initial(cfg: Config, height: nat, hash: int, t: real): Replica {
    Replica(0, true, Timeout(cfg, 0), height, height, t, hash, {Checkpoint(height, hash, t)},
            {}, {}, {}, {}, {}, {}, {}, {}, {})
  }

  // ---------- queries ----------

  ghost predicate IsLowest(cps: set<Checkpoint>, c: Checkpoint) {
    c in cps && forall x :: x in cps ==> c.n <= x.n
  }

  lemma {:induction false} LowestExists(cps: set<Checkpoint>)
    requires cps != {}
    ensures exists c :: IsLowest(cps, c)
    decreases |cps|
  {
    var a :| a in cps;
    if cps == {a} {
      assert IsLowest(cps, a);
    } else {
      assert |cps - {a}| < |cps|;
      LowestExists(cps - {a});
      var b :| IsLowest(cps - {a}, b);
      assert IsLowest(cps, if a.n <= b.n then a else b);
    }
  }

  // get_h: the lowest checkpoint.
  ghost function H(r: Replica): nat {
    if r.checkpoints == {} then 0
    else
      LowestExists(r.checkpoints);
      var c :| IsLowest(r.checkpoints, c);
      c.n
  }

  lemma SameH(r: Replica, s: Replica)
    requires r.checkpoints == s.checkpoints
    ensures H(r) == H(s)
  {
    if r.checkpoints != {} {
      LowestExists(r.checkpoints);
      var c :| IsLowest(r.checkpoints, c) && H(r) == c.n;
      var e :| IsLowest(s.checkpoints, e) && H(s) == e.n;
    }
  }

  // get_latest_request_time: the maximum over the request log and last_rep.
  ghost predicate IsLatest(r: Replica, t: real) {
    && (t == r.lastRep || exists m :: m in r.requests && m.t == t)
    && r.lastRep <= t && forall m :: m in r.requests ==> m.t <= t
  }

  // in_w with request_buffer_len = 1.
  ghost predicate InW(r: Replica, n: nat) {
    r.checkpoints != {} && H(r) < n <= H(r) + 1
  }

  ghost predicate HasRequest(r: Replica, d: Digest) {
    exists t :: Request(d, t) in r.requests
  }

  ghost predicate LoggedPrePrepare(cfg: Config, r: Replica, d: Digest, v: nat, n: nat) {
    exists b, sig :: PrePrepare(v, n, d, b, Primary(cfg, v), sig) in r.prePrepares
  }

  ghost predicate PrePrepared(cfg: Config, r: Replica, d: Digest, v: nat, n: nat) {
    || (exists b :: QEntry(n, d, b, v) in r.qi)
    || (HasRequest(r, d) && LoggedPrePrepare(cfg, r, d, v, n))
  }

  function PrepareFacts(r: Replica, d: Digest, v: nat, n: nat): set<Prepare> {
    set p | p in r.prepares && p.v == v && p.n == n && p.d == d
  }

  function CommitFacts(r: Replica, v: nat, n: nat): set<Commit> {
    set c | c in r.commits && c.v == v && c.n == n
  }

  // prepared, in the branch that reads the message log.
  ghost predicate PreparedInLog(cfg: Config, r: Replica, d: Digest, v: nat, n: nat) {
    PrePrepared(cfg, r, d, v, n) && |PrepareFacts(r, d, v, n)| >= Quorum(cfg) - 1
  }

  ghost predicate Prepared(cfg: Config, r: Replica, d: Digest, v: nat, n: nat) {
    PEntry(n, d, v) in r.pi || PreparedInLog(cfg, r, d, v, n)
  }

  ghost predicate Committed(cfg: Config, r: Replica, d: Digest, v: nat, n: nat) {
    Prepared(cfg, r, d, v, n) && |CommitFacts(r, v, n)| >= Quorum(cfg)
  }

  // correct_view_change.
  predicate CorrectViewChange(vc: ViewChange) {
    && (forall e :: e in vc.p ==> e.v < vc.v && vc.hi < e.n <= vc.hi + 1)
    && (forall e :: e in vc.q ==> e.v < vc.v && vc.hi < e.n <= vc.hi + 1)
  }

  // ---------- Pi and Qi ----------

  // The slots at which prepared/4 can succeed once Pi has been emptied.
  function Slots(r: Replica): set<PEntry> {
    (set q | q in r.qi :: PEntry(q.n, q.d, q.v)) +
    (set m | m in r.prePrepares :: PEntry(m.n, m.d, m.v))
  }

  ghost predicate PreparedHigher(cfg: Config, r: Replica, n: nat, v: nat) {
    exists e :: e in Slots(r) && e.n == n && e.v > v && PreparedInLog(cfg, r, e.d, e.v, n)
  }

  // update_view_change_Pi. Pi is emptied first, so only the log branch of prepared/4 contributes.
  ghost function NewPi(cfg: Config, r: Replica): set<PEntry> {
    set e | e in Slots(r) && PreparedInLog(cfg, r, e.d, e.v, e.n) && !PreparedHigher(cfg, r, e.n, e.v)
  }

  ghost predicate PrePreparedInLog(cfg: Config, r: Replica, d: Digest, v: nat, n: nat) {
    HasRequest(r, d) && LoggedPrePrepare(cfg, r, d, v, n)
  }

  ghost predicate PrePreparedHigher(cfg: Config, r: Replica, d: Digest, n: nat, v: nat) {
    exists m :: m in r.prePrepares && m.n == n && m.d == d && m.v > v && PrePreparedInLog(cfg, r, d, m.v, n)
  }

  // update_view_change_Qi. Qi is emptied first, so only the log branch of pre_prepared/4 contributes.
  ghost function NewQi(cfg: Config, r: Replica): set<QEntry> {
    set m | m in r.prePrepares && m.sender == Primary(cfg, m.v) && HasRequest(r, m.d)
            && !PrePreparedHigher(cfg, r, m.d, m.n, m.v) :: QEntry(m.n, m.d, m.b, m.v)
  }

  // findall lists each fact once, in the order of the fact base.
  ghost predicate Enumerates<T>(xs: seq<T>, s: set<T>) {
    NoDup(xs) && Elems(xs) == s
  }

  // ---------- Nu and Chi ----------

  function NuEntryOf(cfg: Config, vc: ViewChange): NuEntry {
    NuEntry(vc.sender, cfg.digest(vc))
  }

  function NuSet(cfg: Config, r: Replica): set<NuEntry> {
    set vc | vc in r.viewChanges :: NuEntryOf(cfg, vc)
  }

  // correct_nu_once: every logged VIEW-CHANGE, whatever its view, if there are enough of them.
  ghost predicate CorrectNuOnce(cfg: Config, r: Replica, nu: seq<NuEntry>) {
    |r.viewChanges| >= Quorum(cfg) && Sorted(nu) && Elems(nu) == NuSet(cfg, r)
  }

  // correct_nu_all: what Lists.SearchFindsExactly proves of the search over subsets.
  ghost predicate CorrectNuAll(cfg: Config, r: Replica, nu: seq<NuEntry>) {
    Sorted(nu) && Elems(nu) <= NuSet(cfg, r) && |nu| >= Quorum(cfg)
  }

  ghost predicate Names(cfg: Config, log: set<ViewChange>, digest: int, vc: ViewChange) {
    vc in log && cfg.digest(vc) == digest
  }

  // nu_vset_i: the logged VIEW-CHANGEs with the digests of Nu, in the order of Nu.
  ghost function NuMsgs(cfg: Config, log: set<ViewChange>, nu: seq<NuEntry>): seq<ViewChange> {
    if nu == [] then []
    else
      var rest := NuMsgs(cfg, log, nu[1..]);
      if exists vc :: Names(cfg, log, nu[0].digest, vc) then
        var vc :| Names(cfg, log, nu[0].digest, vc);
        [vc] + rest
      else rest
  }

  function MinHi(msgs: seq<ViewChange>): nat
    requires msgs != []
  {
    if |msgs| == 1 then msgs[0].hi
    else
      var m := MinHi(msgs[1..]);
      if msgs[0].hi <= m then msgs[0].hi else m
  }

  function MaxOfP(p: seq<PEntry>, least: nat): nat {
    if p == [] then least
    else
      var m := MaxOfP(p[1..], least);
      if p[0].n >= m then p[0].n else m
  }

  function AllP(msgs: seq<ViewChange>): seq<PEntry> {
    if msgs == [] then [] else msgs[0].p + AllP(msgs[1..])
  }

  // Max_s: the highest prepared sequence number, or Min_s when there is none.
  function MaxS(msgs: seq<ViewChange>): nat
    requires msgs != []
  {
    var all := AllP(msgs);
    if all == [] then MinHi(msgs) else MaxOfP(all, 0)
  }

  // The forall/2 test of CASE1, inside one P.
  predicate Dominates(e: PEntry, p: seq<PEntry>) {
    forall x :: x in p && x.n == e.n ==> x.v < e.v || (x.v == e.v && x.d == e.d)
  }

  datatype Found = NotFound | Found(e: ChiEntry)

  function FirstQ(e: PEntry, q: seq<QEntry>): Found {
    if q == [] then NotFound
    else if q[0].n == e.n && q[0].d == e.d && q[0].v == e.v then Found(ChiEntry(e.n, e.d, q[0].b))
    else FirstQ(e, q[1..])
  }

  function FirstP(n: nat, p: seq<PEntry>, whole: seq<PEntry>, q: seq<QEntry>): Found {
    if p == [] then NotFound
    else if p[0].n == n && Dominates(p[0], whole) && FirstQ(p[0], q).Found? then FirstQ(p[0], q)
    else FirstP(n, p[1..], whole, q)
  }

  function FirstQMsg(n: nat, p: seq<PEntry>, qMsgs: seq<ViewChange>): Found {
    if qMsgs == [] then NotFound
    else if FirstP(n, p, p, qMsgs[0].q).Found? then FirstP(n, p, p, qMsgs[0].q)
    else FirstQMsg(n, p, qMsgs[1..])
  }

  function FirstPMsg(n: nat, pMsgs: seq<ViewChange>, qMsgs: seq<ViewChange>): Found {
    if pMsgs == [] then NotFound
    else if FirstQMsg(n, pMsgs[0].p, qMsgs).Found? then FirstQMsg(n, pMsgs[0].p, qMsgs)
    else FirstPMsg(n, pMsgs[1..], qMsgs)
  }

  // The entry once/1 commits to for sequence number n: CASE1 if it has a solution, else CASE2.
  function ChiAt(n: nat, msgs: seq<ViewChange>): ChiEntry {
    match FirstPMsg(n, msgs, msgs)
    case Found(e) => e
    case NotFound => ChiEntry(n, Null, Unbound)
  }

  function ChiRange(lo: nat, hi: nat, msgs: seq<ViewChange>): seq<ChiEntry>
    decreases hi + 1 - lo
  {
    if lo > hi then [] else [ChiAt(lo, msgs)] + ChiRange(lo + 1, hi, msgs)
  }

  function ChiOf(msgs: seq<ViewChange>): seq<ChiEntry>
    requires msgs != []
  {
    ChiRange(MinHi(msgs) + 1, MaxS(msgs), msgs)
  }

  // Unification with the computed Chi: the block of a "null" entry is a fresh variable.
  predicate ChiMatches(chi: seq<ChiEntry>, computed: seq<ChiEntry>) {
    && |chi| == |computed|
    && (forall i :: 0 <= i < |chi| ==>
          && chi[i].n == computed[i].n
          && chi[i].d == computed[i].d
          && (chi[i].d == Null || chi[i].b == computed[i].b))
  }

  // correct_chi.
  ghost predicate CorrectChi(cfg: Config, r: Replica, nu: seq<NuEntry>, chi: seq<ChiEntry>) {
    var msgs := NuMsgs(cfg, r.viewChanges, nu);
    |msgs| >= Quorum(cfg) && ChiMatches(chi, ChiOf(msgs))
  }

  // correct_new_view.
  ghost predicate CorrectNewView(cfg: Config, r: Replica, nu: seq<NuEntry>, chi: seq<ChiEntry>) {
    && NewView(r.view, nu, chi) in r.newViews
    && CorrectNuAll(cfg, r, nu)
    && CorrectChi(cfg, r, nu, chi)
  }

  // ---------- guards ----------

  // The timestamps collected by pre_SEND_PRE_PREPARE.
  ghost predicate Pending(r: Replica, i: nat, now: real, t: real) {
    exists d :: Request(d, t) in r.requests && t <= now
                && !(exists m :: m in r.prePrepares && m.d == d && m.sender == i)
  }

  ghost predicate PreSendPrePrepare(cfg: Config, i: nat, r: Replica, d: Digest, n: nat, now: real) {
    && r.active
    && Primary(cfg, r.view) == i
    && n == r.seqno + 1
    && InW(r, n)
    && (exists t :: Request(d, t) in r.requests && Pending(r, i, now, t)
                    && (forall t' :: Pending(r, i, now, t') ==> t <= t'))
    && !(exists m :: m in r.prePrepares && m.v == r.view && m.n != n && m.d == d && m.sender == i)
  }

  ghost predicate PreReceivePrePrepare(cfg: Config, i: nat, r: Replica, v: nat, n: nat, d: Digest, sender: nat) {
    && sender != i
    && Primary(cfg, r.view) == sender
    && InW(r, n) && v == r.view
    && r.active
    && (|| !(exists m :: m in r.prePrepares && m.v == v && m.n == n && m.sender == sender)
        || (exists m :: m in r.prePrepares && m.v == v && m.n == n && m.sender == sender && m.d == d))
  }

  ghost predicate PreSendPrepare(cfg: Config, i: nat, r: Replica, d: Digest, n: nat) {
    && Primary(cfg, r.view) != i
    && InW(r, n)
    && PrePrepared(cfg, r, d, r.view, n)
    && !(exists m :: m in r.prepares && m.v == r.view && m.n == n && m.d == d && m.sender == i)
  }

  ghost predicate PreReceivePrepare(cfg: Config, i: nat, r: Replica, v: nat, n: nat, sender: nat) {
    sender != i && Primary(cfg, r.view) != sender && InW(r, n) && v == r.view
  }

  ghost predicate PreSendCommit(cfg: Config, i: nat, r: Replica, d: Digest, n: nat) {
    && InW(r, n)
    && Prepared(cfg, r, d, r.view, n)
    && !(exists m :: m in r.commits && m.v == r.view && m.n == n && m.sender == i)
  }

  ghost predicate PreReceiveCommit(i: nat, r: Replica, v: nat, n: nat, sender: nat) {
    sender != i && ((InW(r, n) && v == r.view) || v > r.view)
  }

  function RecoveryFacts(r: Replica, v: nat, n: nat): set<Recovery> {
    set m | m in r.recovery && m.v == v && m.n == n
  }

  ghost predicate Recoverable(cfg: Config, r: Replica, v: nat) {
    && v > r.view
    && exists c :: c in r.checkpoints && |RecoveryFacts(r, v, c.n)| >= Quorum(cfg)
  }

  ghost predicate PreRecoverView(cfg: Config, r: Replica, v: nat) {
    r.active && Recoverable(cfg, r, v) && (forall w: nat :: Recoverable(cfg, r, w) ==> w <= v)
  }

  // The ROAST conjunct of pre_EXECUTE is the parameter finalSession.
  ghost predicate PreExecute(cfg: Config, i: nat, r: Replica, d: Digest, t: real, v: nat, n: nat,
                             finalSession: bool) {
    && n == r.lastExec + 1 && Committed(cfg, r, d, v, n) && Primary(cfg, v) == i && finalSession
    && (HasRequest(r, d) ==> Request(d, t) in r.requests)
  }

  // RECEIVE_BLOCK succeeds only for a block whose timestamp is a logged request. Heights grow.
  ghost predicate PreReceiveBlock(r: Replica, d: Digest, height: nat, t: real) {
    Request(d, t) in r.requests && height > H(r)
  }

  ghost predicate PreSendViewChange(cfg: Config, r: Replica, c: int, p: seq<PEntry>, q: seq<QEntry>, now: real) {
    && (exists m :: m in r.requests && r.lastRep < m.t && now - m.t > r.timeout)
    && (exists k :: k in r.checkpoints && k.n == H(r) && k.hash == c)
    && Enumerates(p, NewPi(cfg, r)) && Enumerates(q, NewQi(cfg, r))
  }

  ghost predicate PreReceiveViewChange(i: nat, r: Replica, vc: ViewChange) {
    && vc.sender != i
    && vc.v >= r.view
    && CorrectViewChange(vc)
    && !(exists m :: m in r.viewChanges && m.v == vc.v && m.sender == vc.sender)
  }

  ghost predicate PreSendNewView(cfg: Config, i: nat, r: Replica, nu: seq<NuEntry>, chi: seq<ChiEntry>) {
    && Primary(cfg, r.view) == i
    && CorrectNuOnce(cfg, r, nu)
    && CorrectChi(cfg, r, nu, chi) && chi == ChiOf(NuMsgs(cfg, r.viewChanges, nu))
    && !(exists m :: m in r.newViews && m.v == r.view)
  }

  ghost predicate PreReceiveNewView(cfg: Config, i: nat, r: Replica, v: nat, sender: nat) {
    sender != i && 0 < v <= r.view && sender == Primary(cfg, v)
  }

  // The findall over nu_vset_i runs with Hi already bound to the replica's own h, so it keeps the
  // VIEW-CHANGEs whose checkpoint is h and drops the others.
  ghost predicate PreProcessNewView(cfg: Config, r: Replica, nu: seq<NuEntry>, chi: seq<ChiEntry>) {
    var msgs := NuMsgs(cfg, r.viewChanges, nu);
    && !r.active
    && CorrectNewView(cfg, r, nu, chi)
    && r.checkpoints != {}
    && (exists m :: m in msgs && m.hi == H(r))
    && (forall m :: m in msgs && m.hi == H(r) ==> exists k :: k in r.checkpoints && k.hash == m.c)
    && (chi == [] || (exists e :: e in chi && e.n == H(r) + 1 && forall x :: x in chi ==> e.n <= x.n))
    && (forall e :: e in chi ==> e.d == Null || HasRequest(r, e.d))
  }

  // ---------- state updates ----------

  function SetView(cfg: Config, r: Replica, v: nat): Replica {
    r.(view := v, timeout := Timeout(cfg, v))
  }

  // msg_log_clear_where_view_less_than. The recovery log is not cleared (:303 retracts a
  // predicate of another arity).
  function ClearBelowView(r: Replica, v: nat): Replica {
    r.(prePrepares := (set m | m in r.prePrepares && m.v >= v),
       prepares := (set m | m in r.prepares && m.v >= v),
       commits := (set m | m in r.commits && m.v >= v),
       viewChanges := (set m | m in r.viewChanges && m.v >= v),
       newViews := (set m | m in r.newViews && m.v >= v))
  }

  function ReceiveRequest(r: Replica, d: Digest, t: real): Replica {
    if t <= r.lastRep then r else r.(requests := r.requests + {Request(d, t)})
  }

  function SendPrePrepare(i: nat, r: Replica, d: Digest, b: Block, n: nat): Replica {
    r.(seqno := n, prePrepares := r.prePrepares + {PrePrepare(r.view, n, d, b, i, Own)})
  }

  function ReceivePrePrepare(r: Replica, v: nat, n: nat, d: Digest, b: Block, sender: nat): Replica {
    r.(prePrepares := r.prePrepares + {PrePrepare(v, n, d, b, sender, Wire)})
  }

  function SendPrepare(i: nat, r: Replica, d: Digest, n: nat): Replica {
    r.(prepares := r.prepares + {Prepare(r.view, n, d, i, Own)})
  }

  function ReceivePrepare(r: Replica, v: nat, n: nat, d: Digest, sender: nat): Replica {
    r.(prepares := r.prepares + {Prepare(v, n, d, sender, Wire)})
  }

  function SendCommit(i: nat, r: Replica, n: nat, data: int): Replica {
    r.(commits := r.commits + {Commit(r.view, n, data, i, Own)})
  }

  ghost function ReceiveCommit(r: Replica, v: nat, n: nat, data: int, sender: nat): Replica {
    if InW(r, n) && v == r.view then r.(commits := r.commits + {Commit(v, n, data, sender, Wire)})
    else r.(recovery := r.recovery + {Recovery(v, n, sender)})
  }

  function RecoverView(cfg: Config, r: Replica, v: nat): Replica {
    ClearBelowView(SetView(cfg, r, v), v)
  }

  // apply_EXECUTE for the solution t of msg_log_request(Replica_id, Req_digest, t).
  function Execute(r: Replica, d: Digest, t: real, n: nat, val: int): Replica {
    if Request(d, t) in r.requests && t > r.lastRep then r.(lastExec := n, lastRep := t, val := val) else r
  }

  // collect_garbage. Below n the Pi and Qi rows survive: :900-901 name another arity.
  function CollectGarbage(r: Replica, n: nat): Replica {
    r.(checkpoints := (set c | c in r.checkpoints && c.n >= n),
       prePrepares := (set m | m in r.prePrepares && m.n > n),
       prepares := (set m | m in r.prepares && m.n > n),
       commits := (set m | m in r.commits && m.n > n),
       pi := (set e | e in r.pi && e.n != n),
       qi := (set e | e in r.qi && e.n != n),
       requests := (set m | m in r.requests && m.t > r.lastRep))
  }

  function ReceiveBlock(r: Replica, d: Digest, height: nat, t: real, hash: int): Replica {
    var r1 := Execute(r, d, t, height, hash);
    CollectGarbage(r1.(checkpoints := r1.checkpoints + {Checkpoint(height, hash, t)}), height)
  }

  ghost function OwnViewChange(i: nat, r: Replica, c: int, p: seq<PEntry>, q: seq<QEntry>): ViewChange {
    ViewChange(r.view + 1, H(r), c, p, q, i)
  }

  ghost function SendViewChange(cfg: Config, i: nat, r: Replica, c: int, p: seq<PEntry>, q: seq<QEntry>): Replica {
    var v := r.view + 1;
    var r1 := SetView(cfg, r, v).(active := false, pi := NewPi(cfg, r), qi := NewQi(cfg, r),
                                  viewChanges := r.viewChanges + {OwnViewChange(i, r, c, p, q)});
    ClearBelowView(r1, v)
  }

  function ReceiveViewChange(r: Replica, vc: ViewChange): Replica {
    r.(viewChanges := r.viewChanges + {vc})
  }

  function AddNewView(r: Replica, v: nat, nu: seq<NuEntry>, chi: seq<ChiEntry>): Replica {
    r.(newViews := r.newViews + {NewView(v, nu, chi)})
  }

  function ReceiveNewView(r: Replica, v: nat, nu: seq<NuEntry>, chi: seq<ChiEntry>): Replica {
    if NewView(r.view, nu, chi) in r.newViews then r else AddNewView(r, v, nu, chi)
  }

  function ChiPrePrepares(cfg: Config, v: nat, chi: seq<ChiEntry>): set<PrePrepare> {
    set e | e in chi :: PrePrepare(v, e.n, e.d, e.b, Primary(cfg, v), InNewView)
  }

  function ChiPrepares(v: nat, chi: seq<ChiEntry>, i: nat): set<Prepare> {
    set e | e in chi :: Prepare(v, e.n, e.d, i, Own)
  }

  ghost predicate IsTopSeqno(r: Replica, n: nat) {
    if exists m :: m in r.prePrepares && m.v == r.view then
      && (exists m :: m in r.prePrepares && m.v == r.view && m.n == n)
      && (forall m :: m in r.prePrepares && m.v == r.view ==> m.n <= n)
    else n == H(r)
  }

  lemma {:induction false} HighestExists(ms: set<PrePrepare>)
    requires ms != {}
    ensures exists x :: x in ms && forall m :: m in ms ==> m.n <= x.n
    decreases |ms|
  {
    var a :| a in ms;
    if ms != {a} {
      assert |ms - {a}| < |ms|;
      HighestExists(ms - {a});
      var b :| b in ms - {a} && forall m :: m in ms - {a} ==> m.n <= b.n;
      var x := if a.n <= b.n then b else a;
      assert x in ms && forall m :: m in ms ==> m.n <= x.n;
    }
  }

  lemma TopSeqnoExists(r: Replica)
    ensures exists n: nat :: IsTopSeqno(r, n)
  {
    var ms := set m | m in r.prePrepares && m.v == r.view;
    if ms == {} {
      assert forall m :: m in r.prePrepares && m.v == r.view ==> m in ms;
      assert IsTopSeqno(r, H(r));
    } else {
      HighestExists(ms);
      var x :| x in ms && forall m :: m in ms ==> m.n <= x.n;
      assert IsTopSeqno(r, x.n);
    }
  }

  // The sequence number PROCESS_NEW_VIEW continues from.
  ghost function TopSeqno(r: Replica): nat {
    TopSeqnoExists(r);
    var n: nat :| IsTopSeqno(r, n);
    n
  }

  ghost function ProcessNewView(cfg: Config, i: nat, r: Replica, chi: seq<ChiEntry>): Replica {
    var r1 := r.(active := true, prePrepares := r.prePrepares + ChiPrePrepares(cfg, r.view, chi));
    var r2 := r1.(seqno := TopSeqno(r1));
    if Primary(cfg, r.view) == i then r2
    else r2.(prepares := r2.prepares + ChiPrepares(r.view, chi, i))
  }
}
