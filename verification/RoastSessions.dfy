// Bounds and accounting of the ROAST sessions over any sequence of inputs.
module RoastSessions {
  import opened Lists
  import opened Quorums
  import opened Roast

  // ---------- one input ----------

  lemma SendersAppend(shares: seq<Share>, i: nat, data: int)
    ensures Senders(shares + [Share(i, data)]) == Senders(shares) + [i]
  {
  }

  lemma NoDupAppend(xs: seq<nat>, i: nat)
    requires NoDup(xs) && i !in xs
    ensures NoDup(xs + [i]) && Elems(xs + [i]) == Elems(xs) + {i}
  {
  }

  // The state between receiving from i and looking at the number of responsive signers.
  function Received(c: Coordinator, i: nat, data: int, next: int): Coordinator {
    var c1 := if i in c.sid && c.sid[i] in c.sessions
              then c.(sessions := c.sessions[c.sid[i] := c.sessions[c.sid[i]].(
                                    shares := c.sessions[c.sid[i]].shares + [Share(i, data)])])
              else c;
    c1.(latest := c1.latest[i := next], responsive := c1.responsive + [i])
  }

  // i stops being pending in its own session, and in no other.
  lemma ReceivedPending(p: Params, c: Coordinator, i: nat, data: int, next: int, k: nat)
    requires Bookkeeping(p, c) && i !in c.responsive && k in c.sessions
    ensures k in Received(c, i, data, next).sessions
    ensures Pending(Received(c, i, data, next), k) == Pending(c, k) - {i}
  {
  }

  lemma ReceivedAccounted(p: Params, c: Coordinator, i: nat, data: int, next: int, k: nat)
    requires Bookkeeping(p, c) && i !in c.responsive && k in c.sessions
    ensures Accounted(p, Received(c, i, data, next), k)
  {
    var d := Received(c, i, data, next);
    ReceivedPending(p, c, i, data, next, k);
    assert Accounted(p, c, k);
    var s := c.sessions[k];
    if i in c.sid && c.sid[i] == k {
      assert i in Pending(c, k);
      SendersAppend(s.shares, i, data);
      assert i !in Senders(s.shares) by { assert i !in Elems(Senders(s.shares)); }
      NoDupAppend(Senders(s.shares), i);
      assert Elems(s.signers) - (Pending(c, k) - {i}) == (Elems(s.signers) - Pending(c, k)) + {i};
    } else {
      assert Pending(c, k) - {i} == Pending(c, k);
    }
  }

  lemma ReceivedBookkeeping(p: Params, c: Coordinator, i: nat, data: int, next: int)
    requires Bookkeeping(p, c) && i !in c.responsive && i < p.size
    ensures Bookkeeping(p, Received(c, i, data, next))
  {
    var d := Received(c, i, data, next);
    NoDupAppend(c.responsive, i);
    forall k | k in d.sessions ensures Accounted(p, d, k) {
      ReceivedAccounted(p, c, i, data, next, k);
    }
  }

  // Opening a session with t responsive signers leaves what older sessions are owed unchanged.
  lemma OpenPending(p: Params, c: Coordinator, k: nat)
    requires Bookkeeping(p, c) && 1 <= k <= c.counter + 1
    ensures k in OpenSession(p, c).sessions
    ensures Pending(OpenSession(p, c), k) == if k <= c.counter then Pending(c, k) else Elems(c.responsive)
  {
    var d := OpenSession(p, c);
    if k <= c.counter {
      assert d.sessions[k] == c.sessions[k];
      forall i ensures i in Pending(d, k) <==> i in Pending(c, k) {
      }
    } else {
      assert d.sessions[k].signers == c.responsive;
    }
  }

  lemma OpenAccounted(p: Params, c: Coordinator, k: nat)
    requires Bookkeeping(p, c) && |c.responsive| == p.threshold && 1 <= k <= c.counter + 1
    ensures k in OpenSession(p, c).sessions && Accounted(p, OpenSession(p, c), k)
  {
    OpenPending(p, c, k);
    if k <= c.counter {
      assert Accounted(p, c, k);
    } else {
      assert Elems(Senders([])) == {};
    }
  }

  // Whoever is assigned to a session is one of its signers, also after the new session is opened.
  lemma OpenAssigned(p: Params, c: Coordinator, i: nat)
    requires Bookkeeping(p, c) && |c.responsive| == p.threshold && i in OpenSession(p, c).sid
    requires forall j :: j in c.responsive ==> j in c.latest
    ensures var d := OpenSession(p, c);
      d.sid[i] in d.sessions && i in d.sessions[d.sid[i]].signers && i in d.latest
  {
    if i !in Elems(c.responsive) {
      assert i in c.sid;
    }
  }

  lemma OpenBookkeeping(p: Params, c: Coordinator)
    requires Bookkeeping(p, c) && |c.responsive| == p.threshold
    requires forall i :: i in c.responsive ==> i in c.latest
    ensures Bookkeeping(p, OpenSession(p, c))
  {
    hide Accounted;
    var d := OpenSession(p, c);
    forall k | k in d.sessions ensures Accounted(p, d, k) {
      OpenAccounted(p, c, k);
    }
    forall i | i in d.sid ensures d.sid[i] in d.sessions && i in d.sessions[d.sid[i]].signers && i in d.latest {
      OpenAssigned(p, c, i);
    }
  }

  // ---------- the pigeonhole ----------

  // Signers pending in the first m sessions.
  function Owing(c: Coordinator, m: nat): set<nat> {
    set i | i in c.sid && i !in c.responsive && c.sid[i] <= m
  }

  lemma {:induction false} OnePendingEach(p: Params, c: Coordinator, m: nat)
    requires Bookkeeping(p, c) && m <= c.counter
    requires forall k :: k in c.sessions ==> Pending(c, k) != {}
    ensures |Owing(c, m)| >= m
  {
    hide Accounted;
    if m > 0 {
      OnePendingEach(p, c, m - 1);
      var i :| i in Pending(c, m);
      assert i in Owing(c, m) && i !in Owing(c, m - 1);
      SubsetCard(Owing(c, m - 1) + {i}, Owing(c, m));
    }
  }

  // Unfinished sessions each have their own pending signer, and none of them is responsive.
  lemma SessionsAndResponsive(p: Params, c: Coordinator)
    requires Bookkeeping(p, c)
    requires forall k :: k in c.sessions ==> Pending(c, k) != {}
    ensures c.counter + |c.responsive| <= p.size
  {
    OnePendingEach(p, c, c.counter);
    NoDupCard(c.responsive);
    var all := Owing(c, c.counter) + Elems(c.responsive);
    forall i | i in all ensures i < p.size {
      if i in c.sid {
        assert i in c.sessions[c.sid[i]].signers && Accounted(p, c, c.sid[i]);
      }
    }
    SubsetCard(all, Ids(p.size));
    assert |all| == |Owing(c, c.counter)| + |Elems(c.responsive)|;
  }

  // ---------- steps ----------

  // Exactly one session has all its shares, one from each of its signers.
  ghost predicate Finished(p: Params, c: Coordinator) {
    exists k :: k in c.sessions && FinalSession(p, c.sessions[k])
                && forall j :: j in c.sessions && j != k ==> |c.sessions[j].shares| < p.threshold
  }

  ghost predicate FinalSession(p: Params, s: Session) {
    && |s.signers| == p.threshold && |s.shares| == p.threshold && NoDup(s.signers)
    && (forall x :: x in s.shares ==> x.Share?)
    && NoDup(Senders(s.shares)) && Elems(Senders(s.shares)) == Elems(s.signers)
  }

  predicate Solicited(c: Coordinator, e: Input) {
    e.i !in c.responsive && (e.Contribution? ==> e.i !in c.sid)
  }

  function DataOf(e: Input): int {
    if e.Answer? then e.data else 0
  }

  // The input neither fails nor is held against its sender.
  lemma StepOutcome(p: Params, c: Coordinator, e: Input)
    requires ValidParams(p) && Running(p, c) && e.i < p.size && Solicited(c, e)
    ensures Step(p, c, e).Done?
    ensures var d := Received(c, e.i, DataOf(e), e.next);
      var r := Step(p, c, e).c;
      if Final(p, d) then r == d.(latest := c.latest, responsive := c.responsive)
      else r == if |d.responsive| == p.threshold then OpenSession(p, d) else d
  {
    RunningNotFinal(p, c);
    var d := Received(c, e.i, DataOf(e), e.next);
    var c1 := d.(latest := c.latest, responsive := c.responsive);
    assert StoreShare(c, e.i, if e.Answer? then Share(e.i, e.data) else NoShare) == Done(c1);
    assert Final(p, c1) <==> Final(p, d) by {
      assert c1.sessions == d.sessions && c1.active == d.active;
    }
  }

  // In a state with the books in order, not final means every session still has a debtor.
  lemma DebtorsLeft(p: Params, d: Coordinator)
    requires Bookkeeping(p, d) && !Final(p, d)
    ensures forall k :: k in d.sessions ==> Pending(d, k) != {}
  {
    forall k | k in d.sessions ensures Pending(d, k) != {} {
      SharesCount(p, d, k);
    }
  }

  ghost predicate Collecting(p: Params, c: Coordinator) {
    Running(p, c) && forall i :: i in c.responsive ==> i in c.latest
  }

  lemma OpenRunning(p: Params, d: Coordinator)
    requires ValidParams(p) && Bookkeeping(p, d) && |d.responsive| == p.threshold
    requires forall i :: i in d.responsive ==> i in d.latest
    requires forall k :: k in d.sessions ==> Pending(d, k) != {}
    ensures Collecting(p, OpenSession(p, d))
    ensures d.counter + p.threshold <= p.size
  {
    SessionsAndResponsive(p, d);
    OpenBookkeeping(p, d);
    var r := OpenSession(p, d);
    forall k | k in r.sessions ensures Pending(r, k) != {} {
      OpenPending(p, d, k);
      if k > d.counter { assert d.responsive[0] in Elems(d.responsive); }
    }
  }

  // An input that completes no session: one more responsive signer, and at the threshold a new
  // session, so inputs = counter * t + responsive signers is kept.
  lemma StepRunning(p: Params, c: Coordinator, e: Input)
    requires ValidParams(p) && Collecting(p, c) && e.i < p.size && Solicited(c, e)
    requires !Final(p, Received(c, e.i, DataOf(e), e.next))
    ensures var r := Step(p, c, e);
      && r.Done? && Collecting(p, r.c)
      && if |c.responsive| + 1 == p.threshold
         then r.c.counter == c.counter + 1 <= p.size - p.threshold + 1 && r.c.responsive == []
         else r.c.counter == c.counter && |r.c.responsive| == |c.responsive| + 1
  {
    StepOutcome(p, c, e);
    var d := Received(c, e.i, DataOf(e), e.next);
    ReceivedBookkeeping(p, c, e.i, DataOf(e), e.next);
    DebtorsLeft(p, d);
    assert forall i :: i in d.responsive ==> i in d.latest;
    if |d.responsive| == p.threshold {
      OpenRunning(p, d);
    }
  }

  // The input that completes session k completes no other.
  lemma OthersUnfinished(p: Params, c: Coordinator, d: Coordinator, k: nat, j: nat)
    requires ValidParams(p) && Running(p, c) && k in c.sessions && j in c.sessions && j != k
    requires d.sessions.Keys == c.sessions.Keys
    requires IsFinal(p, d.sessions[k])
    requires forall x, y :: x in c.sessions && y in c.sessions && x != y ==> c.sessions[x] == d.sessions[x] || c.sessions[y] == d.sessions[y]
    ensures |d.sessions[j].shares| < p.threshold
  {
    SharesCount(p, c, j);
    SharesCount(p, c, k);
    assert d.sessions[k] != c.sessions[k];
  }

  lemma StepFinal(p: Params, c: Coordinator, e: Input)
    requires ValidParams(p) && Running(p, c) && e.i < p.size && Solicited(c, e)
    requires Final(p, Received(c, e.i, DataOf(e), e.next))
    ensures var r := Step(p, c, e);
      r.Done? && Final(p, r.c) && Finished(p, r.c) && r.c.counter == c.counter && r.c.malicious == {}
  {
    StepOutcome(p, c, e);
    var d := Received(c, e.i, DataOf(e), e.next);
    var k := CompletedSession(p, c, e);
    forall j | j in d.sessions && j != k ensures |d.sessions[j].shares| < p.threshold {
      OthersUnfinished(p, c, d, k, j);
    }
    var r := Step(p, c, e).c;
    assert r.sessions == d.sessions;
    assert k in r.sessions && FinalSession(p, r.sessions[k]);
  }

  lemma CompletedSession(p: Params, c: Coordinator, e: Input) returns (k: nat)
    requires ValidParams(p) && Running(p, c) && e.i < p.size && Solicited(c, e)
    requires Final(p, Received(c, e.i, DataOf(e), e.next))
    ensures var d := Received(c, e.i, DataOf(e), e.next);
      k in d.sessions && IsFinal(p, d.sessions[k]) && FinalSession(p, d.sessions[k])
  {
    var d := Received(c, e.i, DataOf(e), e.next);
    ReceivedBookkeeping(p, c, e.i, DataOf(e), e.next);
    k :| k in d.sessions && IsFinal(p, d.sessions[k]);
    FullSession(p, d, k);
  }

  // A session with all its shares has exactly one from each signer.
  lemma FullSession(p: Params, d: Coordinator, k: nat)
    requires k in d.sessions && Accounted(p, d, k) && IsFinal(p, d.sessions[k])
    ensures FinalSession(p, d.sessions[k])
  {
    SharesCount(p, d, k);
    assert Pending(d, k) == {};
  }

  // ---------- runs ----------

  predicate Known(c: Coordinator, i: nat) {
    i in c.sid || i in c.responsive
  }

  lemma GatherKnown(p: Params, c: Coordinator, j: nat, next: int, i: nat)
    requires Known(Gather(p, c, j, next), i)
    ensures Known(c, i) || j == i
  {
    var c1 := MarkResponsive(c.(latest := c.latest[j := next]), j);
    if |c1.responsive| == p.threshold && i in OpenSession(p, c1).sid {
      assert i in c1.sid || i in Elems(c1.responsive);
    }
  }

  lemma StepKnown(p: Params, c: Coordinator, e: Input, i: nat)
    requires Step(p, c, e).Done? && Known(Step(p, c, e).c, i)
    ensures Known(c, i) || e.i == i
  {
    var c1 := StoreShare(MarkMalicious(c, e.i), e.i, if e.Answer? then Share(e.i, e.data) else NoShare).c;
    assert c1.sid == c.sid && c1.responsive == c.responsive;
    if !Final(p, c1) {
      GatherKnown(p, c1, e.i, e.next, i);
    }
  }

  // Who is known to the coordinator has sent something.
  lemma {:induction false} KnownHasSent(p: Params, es: seq<Input>, i: nat)
    requires Known(Run(p, Cleared, es), i)
    ensures exists k :: 0 <= k < |es| && es[k].i == i
  {
    if es != [] {
      var init := es[..|es| - 1];
      var c := Run(p, Cleared, init);
      if Known(c, i) {
        KnownHasSent(p, init, i);
        var k :| 0 <= k < |init| && init[k].i == i;
        assert es[k].i == i;
      } else {
        StepKnown(p, c, es[|es| - 1], i);
        assert es[|es| - 1].i == i;
      }
    }
  }

  lemma MaliciousStays(p: Params, c: Coordinator, e: Input)
    ensures Step(p, c, e).Done? ==> c.malicious <= Step(p, c, e).c.malicious
    ensures Step(p, c, e).Done? && e.i in c.responsive ==> e.i in Step(p, c, e).c.malicious
  {
  }

  ghost predicate RunState(p: Params, c: Coordinator, inputs: nat) {
    && c.counter <= p.size - p.threshold + 1 && c.malicious == {}
    && (Final(p, c) ==> Finished(p, c))
    && (!Final(p, c) ==>
          Collecting(p, c)
          && inputs == c.counter * p.threshold + |c.responsive|)
  }

  lemma ClearedState(p: Params)
    requires ValidParams(p)
    ensures RunState(p, Cleared, 0)
  {
  }

  // The inputs accounted for after one more: a session opened, or one more responsive signer.
  lemma InputsNext(p: Params, c: Coordinator, r: Coordinator, inputs: nat)
    requires inputs == c.counter * p.threshold + |c.responsive|
    requires if |c.responsive| + 1 == p.threshold then r.counter == c.counter + 1 && r.responsive == []
             else r.counter == c.counter && |r.responsive| == |c.responsive| + 1
    ensures inputs + 1 == r.counter * p.threshold + |r.responsive|
  {
    if |c.responsive| + 1 == p.threshold {
      assert (c.counter + 1) * p.threshold == c.counter * p.threshold + p.threshold;
    }
  }

  lemma RunStep(p: Params, c: Coordinator, e: Input, inputs: nat)
    requires ValidParams(p) && RunState(p, c, inputs) && e.i < p.size
    requires !Final(p, c) ==> Solicited(c, e)
    ensures var r := Step(p, c, e); RunState(p, if r.Done? then r.c else c, inputs + 1)
  {
    if !Final(p, c) {
      if Final(p, Received(c, e.i, DataOf(e), e.next)) {
        StepFinal(p, c, e);
      } else {
        StepRunning(p, c, e);
        RunningNotFinal(p, Step(p, c, e).c);
        InputsNext(p, c, Step(p, c, e).c, inputs);
      }
    }
  }

  // Any inputs from cleared state, each commit delivered once, no signer marked malicious.
  lemma {:induction false} RunInvariant(p: Params, es: seq<Input>)
    requires ValidParams(p) && FromReplicas(p, es) && ContributesOnce(es)
    requires Run(p, Cleared, es).malicious == {}
    ensures RunState(p, Run(p, Cleared, es), |es|)
  {
    if es == [] {
      ClearedState(p);
    } else {
      var init, e := es[..|es| - 1], es[|es| - 1];
      var c := Run(p, Cleared, init);
      MaliciousStays(p, c, e);
      RunInvariant(p, init);
      if !Final(p, c) {
        if e.i in c.responsive {
          UnsolicitedAccepted(p, c, e);
        }
        if e.Contribution? && e.i in c.sid {
          KnownHasSent(p, init, e.i);
          assert false;
        }
      }
      RunStep(p, c, e, |init|);
    }
  }

  // An unsolicited reply is not dropped: its sender is recorded as malicious.
  lemma UnsolicitedAccepted(p: Params, c: Coordinator, e: Input)
    requires Running(p, c) && e.i in c.responsive
    ensures Step(p, c, e).Done?
  {
    RunningNotFinal(p, c);
  }
}
