// The cluster: replicas, the messages ever handed to the network, the clock, and a history of the
// (view, checkpoint) pairs each replica has been in.
module System {
  import opened Types
  import opened Quorums
  import opened Engine

  datatype Action =
    | ReceiveRequestA(d: Digest, t: real)
    | SendPrePrepareA(d: Digest, b: Block, n: nat)
    | ReceivePrePrepareA(v: nat, n: nat, d: Digest, b: Block, sender: nat)
    | SendPrepareA(d: Digest, n: nat)
    | ReceivePrepareA(v: nat, n: nat, d: Digest, sender: nat)
    | SendCommitA(d: Digest, n: nat, data: int)
    | ReceiveCommitA(v: nat, n: nat, data: int, sender: nat)
    | RecoverViewA(v: nat)
    | ExecuteA(d: Digest, t: real, v: nat, n: nat, val: int, finalSession: bool)
    | ReceiveBlockA(d: Digest, n: nat, t: real, val: int)
    | SendViewChangeA(c: int, p: seq<PEntry>, q: seq<QEntry>)
    | ReceiveViewChangeA(vc: ViewChange)
    | SendNewViewA(nu: seq<NuEntry>, chi: seq<ChiEntry>)
    | ReceiveNewViewA(v: nat, nu: seq<NuEntry>, chi: seq<ChiEntry>, sender: nat)
    | ProcessNewViewA(nu: seq<NuEntry>, chi: seq<ChiEntry>)

  // The action is enabled and its effect succeeds.
  ghost predicate Enabled(cfg: Config, i: nat, r: Replica, a: Action, now: real) {
    match a
    case ReceiveRequestA(d, t) => d != Null
    case SendPrePrepareA(d, b, n) => PreSendPrePrepare(cfg, i, r, d, n, now)
    case ReceivePrePrepareA(v, n, d, b, sender) => PreReceivePrePrepare(cfg, i, r, v, n, d, sender)
    case SendPrepareA(d, n) => PreSendPrepare(cfg, i, r, d, n)
    case ReceivePrepareA(v, n, d, sender) => PreReceivePrepare(cfg, i, r, v, n, sender)
    case SendCommitA(d, n, data) => PreSendCommit(cfg, i, r, d, n)
    case ReceiveCommitA(v, n, data, sender) => PreReceiveCommit(i, r, v, n, sender)
    case RecoverViewA(v) => PreRecoverView(cfg, r, v)
    case ExecuteA(d, t, v, n, val, fin) => PreExecute(cfg, i, r, d, t, v, n, fin)
    case ReceiveBlockA(d, n, t, val) => PreReceiveBlock(r, d, n, t)
    case SendViewChangeA(c, p, q) => PreSendViewChange(cfg, r, c, p, q, now)
    case ReceiveViewChangeA(vc) => PreReceiveViewChange(i, r, vc)
    case SendNewViewA(nu, chi) => PreSendNewView(cfg, i, r, nu, chi)
    case ReceiveNewViewA(v, nu, chi, sender) => PreReceiveNewView(cfg, i, r, v, sender)
    case ProcessNewViewA(nu, chi) => PreProcessNewView(cfg, r, nu, chi)
  }

  ghost function Apply(cfg: Config, i: nat, r: Replica, a: Action): Replica {
    match a
    case ReceiveRequestA(d, t) => ReceiveRequest(r, d, t)
    case SendPrePrepareA(d, b, n) => SendPrePrepare(i, r, d, b, n)
    case ReceivePrePrepareA(v, n, d, b, sender) => ReceivePrePrepare(r, v, n, d, b, sender)
    case SendPrepareA(d, n) => SendPrepare(i, r, d, n)
    case ReceivePrepareA(v, n, d, sender) => ReceivePrepare(r, v, n, d, sender)
    case SendCommitA(d, n, data) => SendCommit(i, r, n, data)
    case ReceiveCommitA(v, n, data, sender) => ReceiveCommit(r, v, n, data, sender)
    case RecoverViewA(v) => RecoverView(cfg, r, v)
    case ExecuteA(d, t, v, n, val, fin) => Execute(r, d, t, n, val)
    case ReceiveBlockA(d, n, t, val) => ReceiveBlock(r, d, n, t, val)
    case SendViewChangeA(c, p, q) => SendViewChange(cfg, i, r, c, p, q)
    case ReceiveViewChangeA(vc) => ReceiveViewChange(r, vc)
    case SendNewViewA(nu, chi) => AddNewView(r, r.view, nu, chi)
    case ReceiveNewViewA(v, nu, chi, sender) => ReceiveNewView(r, v, nu, chi)
    case ProcessNewViewA(nu, chi) => ProcessNewView(cfg, i, r, chi)
  }

  function ChiPrepareMsgs(v: nat, chi: seq<ChiEntry>, i: nat): set<Msg> {
    set e | e in chi :: PrepareMsg(v, e.n, e.d, i)
  }

  // What the action puts in the out buffer.
  ghost function Emit(cfg: Config, i: nat, r: Replica, a: Action): set<Msg> {
    match a
    case SendPrePrepareA(d, b, n) => {PrePrepareMsg(r.view, n, d, b, i)}
    case SendPrepareA(d, n) => {PrepareMsg(r.view, n, d, i)}
    case SendCommitA(d, n, data) => {CommitMsg(r.view, n, data, i)}
    case SendViewChangeA(c, p, q) => {ViewChangeMsg(OwnViewChange(i, r, c, p, q))}
    case SendNewViewA(nu, chi) => {NewViewMsg(r.view, nu, chi, i)}
    case ProcessNewViewA(nu, chi) => if Primary(cfg, r.view) == i then {} else ChiPrepareMsgs(r.view, chi, i)
    case _ => {}
  }

  // A receive action consumes a message of the network.
  predicate Delivered(a: Action, sent: set<Msg>) {
    match a
    case ReceivePrePrepareA(v, n, d, b, sender) => PrePrepareMsg(v, n, d, b, sender) in sent
    case ReceivePrepareA(v, n, d, sender) => PrepareMsg(v, n, d, sender) in sent
    case ReceiveCommitA(v, n, data, sender) => CommitMsg(v, n, data, sender) in sent
    case ReceiveViewChangeA(vc) => ViewChangeMsg(vc) in sent
    case ReceiveNewViewA(v, nu, chi, sender) => NewViewMsg(v, nu, chi, sender) in sent
    case _ => true
  }

  // Replica id has been in view v with checkpoint h.
  datatype Stamp = Stamp(id: nat, v: nat, h: nat)

  datatype Cluster = Cluster(cfg: Config, faulty: set<nat>)

  ghost predicate ValidCluster(cl: Cluster) {
    && ValidConfig(cl.cfg)
    && cl.faulty <= Ids(cl.cfg.size)
    && |cl.faulty| <= F(cl.cfg)
  }

  datatype System = System(replicas: seq<Replica>, sent: set<Msg>, seen: set<Stamp>, clock: real)

  datatype Event =
    | Act(i: nat, a: Action)   // a correct replica acts
    | Inject(m: Msg)           // a faulty replica sends anything
    | Tick(now: real)

  predicate Correct(cl: Cluster, i: nat) {
    i < cl.cfg.size && i !in cl.faulty
  }

  ghost predicate Init(cl: Cluster, s: System) {
    && |s.replicas| == cl.cfg.size
    && (forall i: nat :: Correct(cl, i) ==>
          exists h: nat, hash, t :: s.replicas[i] == Initial(cl.cfg, h, hash, t))
    && s.sent == {}
    && s.seen == (set i | i in Ids(cl.cfg.size) :: Stamp(i, 0, H(s.replicas[i])))
  }

  ghost predicate ActStep(cl: Cluster, s: System, i: nat, a: Action, s': System) {
    && Correct(cl, i) && |s.replicas| == cl.cfg.size
    && Enabled(cl.cfg, i, s.replicas[i], a, s.clock)
    && Delivered(a, s.sent)
    && var r := Apply(cl.cfg, i, s.replicas[i], a);
       s' == System(s.replicas[i := r], s.sent + Emit(cl.cfg, i, s.replicas[i], a),
                    s.seen + {Stamp(i, r.view, H(r))}, s.clock)
  }

  ghost predicate Next(cl: Cluster, s: System, e: Event, s': System) {
    match e
    case Act(i, a) => ActStep(cl, s, i, a, s')
    case Inject(m) => Sender(m) in cl.faulty && s' == s.(sent := s.sent + {m})
    case Tick(now) => now >= s.clock && s' == s.(clock := now)
  }

  // A run: any sequence of enabled steps from an initial state.
  ghost predicate IsRun(cl: Cluster, run: seq<System>, events: seq<Event>) {
    && |run| == |events| + 1
    && (forall k :: 0 <= k < |run| ==> |run[k].replicas| == cl.cfg.size)
    && Init(cl, run[0])
    && (forall k :: 0 <= k < |events| ==> Next(cl, run[k], events[k], run[k + 1]))
  }

  lemma RunStart(cl: Cluster, run: seq<System>, events: seq<Event>)
    requires IsRun(cl, run, events)
    ensures Init(cl, run[0])
  {
  }

  lemma RunStep(cl: Cluster, run: seq<System>, events: seq<Event>, k: nat)
    requires IsRun(cl, run, events) && 0 < k < |run|
    ensures |run| == |events| + 1 && Next(cl, run[k - 1], events[k - 1], run[k])
  {
    assert Next(cl, run[k - 1], events[k - 1], run[k - 1 + 1]);
  }
}
