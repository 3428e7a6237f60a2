// The ROAST coordinator of the primary: its state, RECEIVE_SIG_SHARE and ROAST_INIT.
module Roast {
  import opened Lists

  // A signature share names its authenticated sender. NoShare is the literal false that accompanies
  // the pre-signature share of a COMMIT.
  datatype Share = NoShare | Share(from: nat, data: int)
  datatype Session = Session(signers: seq<nat>, preSig: int, shares: seq<Share>)

  // threshold: sig_quorum. aggregate: roast_crypto_pre_sig_aggregate.
  datatype Params = Params(size: nat, threshold: nat, aggregate: seq<int> -> int)

  datatype Coordinator = Coordinator(
    active: bool, responsive: seq<nat>, malicious: set<nat>, latest: map<nat, int>,
    counter: nat, sid: map<nat, nat>, sessions: map<nat, Session>)

  datatype Outcome = Failed | Done(c: Coordinator)

  ghost predicate ValidParams(p: Params) {
    1 <= p.threshold <= p.size
  }

  predicate IsFinal(p: Params, s: Session) {
    |s.shares| == p.threshold
  }

  // roast_final_signature_session has a solution.
  predicate Final(p: Params, c: Coordinator) {
    c.active && exists k :: k in c.sessions && IsFinal(p, c.sessions[k])
  }

  function MarkMalicious(c: Coordinator, i: nat): Coordinator {
    if i in c.responsive then c.(malicious := c.malicious + {i}) else c
  }

  function StoreShare(c: Coordinator, i: nat, share: Share): Outcome {
    if i !in c.sid then Done(c)
    else if c.sid[i] in c.sessions && i in c.latest then
      var s := c.sessions[c.sid[i]];
      Done(c.(sessions := c.sessions[c.sid[i] := s.(shares := s.shares + [share])]))
    else Failed
  }

  // findall over the pre-signature shares of the responsive signers.
  function PreSigShares(signers: seq<nat>, latest: map<nat, int>): seq<int> {
    if signers == [] then []
    else (if signers[0] in latest then [latest[signers[0]]] else []) + PreSigShares(signers[1..], latest)
  }

  function Assign(sid: map<nat, nat>, signers: set<nat>, k: nat): map<nat, nat> {
    map i | i in sid.Keys + signers :: if i in signers then k else sid[i]
  }

  function OpenSession(p: Params, c: Coordinator): Coordinator {
    var k := c.counter + 1;
    var preSig := p.aggregate(PreSigShares(c.responsive, c.latest));
    c.(counter := k, sid := Assign(c.sid, Elems(c.responsive), k),
       sessions := c.sessions[k := Session(c.responsive, preSig, [])], responsive := [])
  }

  function MarkResponsive(c: Coordinator, i: nat): Coordinator {
    if i in c.responsive then c else c.(responsive := c.responsive + [i])
  }

  function Gather(p: Params, c: Coordinator, i: nat, next: int): Coordinator {
    var c1 := MarkResponsive(c.(latest := c.latest[i := next]), i);
    if |c1.responsive| == p.threshold then OpenSession(p, c1) else c1
  }

  // apply_RECEIVE_SIG_SHARE. Failed: the transaction is rolled back.
  function ReceiveSigShare(p: Params, c: Coordinator, i: nat, share: Share, next: int): Outcome {
    if !c.active || Final(p, c) then Failed
    else
      match StoreShare(MarkMalicious(c, i), i, share)
      case Failed => Failed
      case Done(c1) => Done(if Final(p, c1) then c1 else Gather(p, c1, i, next))
  }

  // What reaches the coordinator: the pre-signature share of a COMMIT, or an answer to a pre-signature.
  datatype Input =
    | Contribution(i: nat, next: int)
    | Answer(i: nat, data: int, next: int)

  function Step(p: Params, c: Coordinator, e: Input): Outcome {
    match e
    case Contribution(i, next) => ReceiveSigShare(p, c, i, NoShare, next)
    case Answer(i, data, next) => ReceiveSigShare(p, c, i, Share(i, data), next)
  }

  // Inputs whose transaction fails leave the state as it was.
  function Run(p: Params, c: Coordinator, es: seq<Input>): Coordinator {
    if es == [] then c
    else
      var c1 := Run(p, c, es[..|es| - 1]);
      match Step(p, c1, es[|es| - 1])
      case Failed => c1
      case Done(c2) => c2
  }

  const Cleared := Coordinator(true, [], {}, map[], 0, map[], map[])

  // ROAST_INIT at the primary: the logged COMMITs are fed in, and any failure fails the whole.
  function RoastInit(p: Params, c: Coordinator, es: seq<Input>): Outcome {
    if es == [] then Done(c)
    else
      match RoastInit(p, c, es[..|es| - 1])
      case Failed => Failed
      case Done(c1) => Step(p, c1, es[|es| - 1])
  }

  // The signer's message has not come before: each commit is delivered once, ahead of the answers.
  predicate ContributesOnce(es: seq<Input>) {
    forall a, b :: 0 <= a < b < |es| && es[a].i == es[b].i ==> es[b].Answer?
  }

  predicate FromReplicas(p: Params, es: seq<Input>) {
    forall k :: 0 <= k < |es| ==> es[k].i < p.size
  }

  // ---------- invariant ----------

  // The signers of session k that still owe it their share.
  function Pending(c: Coordinator, k: nat): set<nat>
    requires k in c.sessions
  {
    set i | i in c.sessions[k].signers && i in c.sid && c.sid[i] == k && i !in c.responsive
  }

  function Senders(shares: seq<Share>): seq<nat> {
    seq(|shares|, j requires 0 <= j < |shares| => if shares[j].Share? then shares[j].from else 0)
  }

  // The shares of a session are one each from the signers no longer pending in it.
  ghost predicate Accounted(p: Params, c: Coordinator, k: nat)
    requires k in c.sessions
  {
    var s := c.sessions[k];
    && |s.signers| == p.threshold && NoDup(s.signers)
    && (forall i :: i in s.signers ==> i < p.size)
    && (forall x :: x in s.shares ==> x.Share?)
    && NoDup(Senders(s.shares))
    && Elems(Senders(s.shares)) == Elems(s.signers) - Pending(c, k)
  }

  ghost predicate Bookkeeping(p: Params, c: Coordinator) {
    && c.active && c.malicious == {}
    && NoDup(c.responsive) && (forall i :: i in c.responsive ==> i < p.size)
    && (forall k :: k in c.sessions <==> 1 <= k <= c.counter)
    && (forall i :: i in c.sid ==> c.sid[i] in c.sessions && i in c.sessions[c.sid[i]].signers && i in c.latest)
    && (forall k :: k in c.sessions ==> Accounted(p, c, k))
  }

  // Every session short of its shares has someone pending.
  ghost predicate Running(p: Params, c: Coordinator) {
    && Bookkeeping(p, c)
    && |c.responsive| < p.threshold
    && (forall k :: k in c.sessions ==> Pending(c, k) != {})
  }

  lemma SharesCount(p: Params, c: Coordinator, k: nat)
    requires k in c.sessions && Accounted(p, c, k)
    ensures |c.sessions[k].shares| == p.threshold - |Pending(c, k)|
  {
    var s := c.sessions[k];
    NoDupCard(Senders(s.shares));
    NoDupCard(s.signers);
    assert Pending(c, k) <= Elems(s.signers);
  }

  lemma RunningNotFinal(p: Params, c: Coordinator)
    requires Running(p, c)
    ensures !Final(p, c)
  {
    forall k | k in c.sessions ensures !IsFinal(p, c.sessions[k]) {
      SharesCount(p, c, k);
    }
  }
}
