// The coordinator as the engine keeps it: dynamic facts updated in place, rolled back on failure.
module RoastCoordinators {
  import opened Types
  import opened Lists
  import opened Roast
  import opened RoastSessions

  lemma AssignNext(sid: map<nat, nat>, signers: set<nat>, k: nat, i: nat)
    ensures Assign(sid, signers, k)[i := k] == Assign(sid, signers + {i}, k)
  {
  }

  // A message of the out buffer: the pre-signature sent to the signers of a session.
  datatype PreSignature = PreSignature(signers: seq<nat>, preSig: int)

  // The view, sequence number and request of roast_active.
  datatype Slot = Slot(v: nat, n: nat, d: Digest)

  // No roast fact at all.
  const Nothing := Cleared.(active := false)

  // The messages for the sessions opened between c and d.
  function Opened(c: Coordinator, d: Coordinator): set<PreSignature> {
    set k | k in d.sessions && c.counter < k <= d.counter :: PreSignature(d.sessions[k].signers, d.sessions[k].preSig)
  }

  lemma OpenedNone(c: Coordinator)
    ensures Opened(c, c) == {}
  {
  }

  lemma OpenedOne(c: Coordinator, d: Coordinator)
    requires d.counter == c.counter + 1 && d.counter in d.sessions
    ensures Opened(c, d) == {PreSignature(d.sessions[d.counter].signers, d.sessions[d.counter].preSig)}
  {
  }

  // Session k of d is in e with the same signers and pre-signature.
  predicate SameSession(d: Coordinator, e: Coordinator, k: nat)
    requires k in d.sessions
  {
    k in e.sessions && e.sessions[k].signers == d.sessions[k].signers && e.sessions[k].preSig == d.sessions[k].preSig
  }

  predicate Extends(d: Coordinator, e: Coordinator) {
    && d.counter <= e.counter
    && (forall k :: k in d.sessions && k <= d.counter ==> SameSession(d, e, k))
    && (forall k :: k in e.sessions && k <= d.counter ==> k in d.sessions)
  }

  lemma ExtendsCounts(d: Coordinator, e: Coordinator)
    requires Extends(d, e)
    ensures d.counter <= e.counter
  {
  }

  lemma OpenedSplit(c: Coordinator, d: Coordinator, e: Coordinator)
    requires c.counter <= d.counter && Extends(d, e)
    ensures Opened(c, e) == Opened(c, d) + Opened(d, e)
  {
    forall m | m in Opened(c, d) ensures m in Opened(c, e) {
      var k :| k in d.sessions && c.counter < k <= d.counter && m == PreSignature(d.sessions[k].signers, d.sessions[k].preSig);
      assert k in e.sessions;
    }
    forall m | m in Opened(c, e) ensures m in Opened(c, d) || m in Opened(d, e) {
      var k :| k in e.sessions && c.counter < k <= e.counter && m == PreSignature(e.sessions[k].signers, e.sessions[k].preSig);
      assert k <= d.counter ==> k in d.sessions;
    }
  }

  lemma StoreExtends(d: Coordinator, i: nat, share: Share)
    requires StoreShare(d, i, share).Done?
    ensures var c := StoreShare(d, i, share).c; Extends(d, c) && c.counter == d.counter
  {
  }

  lemma GatherExtends(p: Params, d: Coordinator, i: nat, next: int)
    ensures Extends(d, Gather(p, d, i, next))
  {
  }

  lemma ShareExtends(p: Params, d: Coordinator, i: nat, share: Share, next: int)
    requires ReceiveSigShare(p, d, i, share, next).Done?
    ensures Extends(d, ReceiveSigShare(p, d, i, share, next).c)
  {
    hide StoreShare, Gather;
    var d1 := MarkMalicious(d, i);
    StoreExtends(d1, i, share);
    var c1 := StoreShare(d1, i, share).c;
    GatherExtends(p, c1, i, next);
  }

  class RoastCoordinator {
    var active: bool
    var slot: Slot
    var responsive: seq<nat>
    var malicious: set<nat>
    var latest: map<nat, int>
    var counter: nat
    var sid: map<nat, nat>
    var sessions: map<nat, Session>
    var out: set<PreSignature>

    // The facts as a value.
    function Facts(): Coordinator
      reads this
    {
      Coordinator(active, responsive, malicious, latest, counter, sid, sessions)
    }

    constructor ()
      ensures Facts() == Nothing && out == {}
    {
      active, slot, responsive, malicious, latest := false, Slot(0, 0, Null), [], {}, map[];
      counter, sid, sessions, out := 0, map[], map[], {};
    }

    // set_roast_active, and set_roast_session_counter at the primary.
    method Start(s: Slot, coordinates: bool)
      modifies this
      ensures slot == s && out == old(out)
      ensures Facts() == old(Facts()).(active := true, counter := if coordinates then 0 else old(counter))
    {
      active, slot := true, s;
      if coordinates {
        counter := 0;
      }
    }

    // set_roast_active with false.
    method Deactivate()
      modifies `active
      ensures Facts() == old(Facts()).(active := false)
    {
      active := false;
    }

    // roast_collect_garbage.
    method CollectGarbage()
      modifies this
      ensures Facts() == Nothing && out == {}
    {
      active, responsive, malicious, latest := false, [], {}, map[];
      counter, sid, sessions, out := 0, map[], map[], {};
    }

    // Marks every signer as working on the current session.
    method AssignSigners(signers: seq<nat>)
      modifies `sid
      ensures sid == Assign(old(sid), Elems(signers), counter)
    {
      var n := 0;
      while n < |signers|
        invariant 0 <= n <= |signers|
        invariant sid == Assign(old(sid), Elems(signers[..n]), counter)
      {
        AssignNext(old(sid), Elems(signers[..n]), counter, signers[n]);
        assert signers[..n + 1] == signers[..n] + [signers[n]];
        assert Elems(signers[..n + 1]) == Elems(signers[..n]) + {signers[n]};
        sid := sid[signers[n] := counter];
        n := n + 1;
      }
      assert signers[..n] == signers;
    }

    // Assigns the responsive signers to the next session, sends them its pre-signature, opens it and
    // clears the responsive set.
    method OpenNextSession(p: Params)
      modifies this
      ensures Facts() == OpenSession(p, old(Facts())) && slot == old(slot)
      ensures out == old(out) + Opened(old(Facts()), Facts())
    {
      var signers := responsive;
      counter := counter + 1;
      var preSig := p.aggregate(PreSigShares(signers, latest));
      AssignSigners(signers);
      out := out + {PreSignature(signers, preSig)};
      sessions := sessions[counter := Session(signers, preSig, [])];
      responsive := [];
      OpenedOne(old(Facts()), Facts());
    }

    method Restore(c: Coordinator, sent: set<PreSignature>)
      modifies this
      ensures Facts() == c && out == sent && slot == old(slot)
    {
      out := sent;
      active, responsive, malicious, latest := c.active, c.responsive, c.malicious, c.latest;
      counter, sid, sessions := c.counter, c.sid, c.sessions;
    }

    // effect_RECEIVE_SIG_SHARE: all of apply_RECEIVE_SIG_SHARE, or nothing.
    method ReceiveShare(p: Params, i: nat, share: Share, next: int) returns (ok: bool)
      modifies this
      ensures var r := ReceiveSigShare(p, old(Facts()), i, share, next);
        ok == r.Done? && Facts() == if r.Done? then r.c else old(Facts())
      ensures out == old(out) + Opened(old(Facts()), Facts()) && slot == old(slot)
    {
      if !active || Final(p, Facts()) {
        return false;
      }
      var snapshot, sent := Facts(), out;
      if i in responsive {
        malicious := malicious + {i};
      }
      if i in sid {
        if sid[i] !in sessions || i !in latest {
          Restore(snapshot, sent);
          return false;
        }
        var s := sessions[sid[i]];
        sessions := sessions[sid[i] := s.(shares := s.shares + [share])];
      }
      if !Final(p, Facts()) {
        latest := latest[i := next];
        if i !in responsive {
          responsive := responsive + [i];
        }
        if |responsive| == p.threshold {
          OpenNextSession(p);
        }
      }
      return true;
    }

    // apply_ROAST_INIT at the primary: one call per logged COMMIT.
    method FeedCommits(p: Params, commits: seq<Input>) returns (ok: bool)
      requires forall k :: 0 <= k < |commits| ==> commits[k].Contribution?
      modifies this
      ensures var r := RoastInit(p, old(Facts()), commits);
        ok == r.Done? && Facts() == if r.Done? then r.c else old(Facts())
      ensures out == old(out) + Opened(old(Facts()), Facts()) && slot == old(slot)
    {
      hide Opened, ReceiveSigShare, Extends;
      var snapshot, sent := Facts(), out;
      OpenedNone(snapshot);
      var n := 0;
      while n < |commits|
        invariant 0 <= n <= |commits| && slot == old(slot)
        invariant RoastInit(p, snapshot, commits[..n]) == Done(Facts())
        invariant snapshot.counter <= counter && out == sent + Opened(snapshot, Facts())
      {
        assert commits[..n + 1][..n] == commits[..n];
        ghost var before := Facts();
        ok := ReceiveShare(p, commits[n].i, NoShare, commits[n].next);
        if !ok {
          FailurePropagates(p, snapshot, commits, n + 1);
          Restore(snapshot, sent);
          return false;
        }
        ShareExtends(p, before, commits[n].i, NoShare, commits[n].next);
        OpenedSplit(snapshot, before, Facts());
        ExtendsCounts(before, Facts());
        n := n + 1;
      }
      assert commits[..n] == commits;
      return true;
    }

    lemma {:induction false} FailurePropagates(p: Params, c: Coordinator, es: seq<Input>, n: nat)
      requires n <= |es| && RoastInit(p, c, es[..n]).Failed?
      ensures RoastInit(p, c, es).Failed?
      decreases |es| - n
    {
      if n < |es| {
        assert es[..n + 1][..n] == es[..n];
        FailurePropagates(p, c, es, n + 1);
      } else {
        assert es[..n] == es;
      }
    }
  }

  // The collecting loop of Execute: it appends the signers and shares of every final session and
  // keeps the pre-signature of the last. When one session is final it ends with that session's
  // pre-signature, its t signers and one share from each of them.
  method CollectShares(p: Params, sessions: map<nat, Session>) returns (signers: seq<nat>, shares: seq<Share>, preSig: int)
    requires exists c: Coordinator :: c.sessions == sessions && Finished(p, c)
    ensures |signers| == p.threshold && |shares| == p.threshold && NoDup(signers)
    ensures forall x :: x in shares ==> x.Share?
    ensures NoDup(Senders(shares)) && Elems(Senders(shares)) == Elems(signers)
    ensures exists k :: k in sessions && sessions[k] == Session(signers, preSig, shares)
  {
    ghost var c: Coordinator :| c.sessions == sessions && Finished(p, c);
    ghost var k :| k in sessions && FinalSession(p, sessions[k])
                   && forall j :: j in sessions && j != k ==> |sessions[j].shares| < p.threshold;
    signers, shares, preSig := [], [], 0;
    var todo := sessions.Keys;
    while todo != {}
      invariant todo <= sessions.Keys
      invariant if k in todo then signers == [] && shares == []
                else sessions[k] == Session(signers, preSig, shares)
      decreases |todo|
    {
      var j :| j in todo;
      if IsFinal(p, sessions[j]) {
        signers := signers + sessions[j].signers;
        shares := shares + sessions[j].shares;
        preSig := sessions[j].preSig;
      }
      todo := todo - {j};
    }
  }
}
