// What ROAST promises its coordinator: few sessions, exact accounting, one final session, an end.
module RoastTheorems {
  import opened Lists
  import opened Quorums
  import opened Roast
  import opened RoastSessions

  // The runs considered: from cleared state, any inputs of replicas, each commit delivered once and
  // no signer marked malicious.
  ghost predicate FairRun(p: Params, es: seq<Input>) {
    && ValidParams(p) && FromReplicas(p, es) && ContributesOnce(es)
    && Run(p, Cleared, es).malicious == {}
  }

  // At most n - t + 1 sessions are ever opened.
  lemma SessionBound(p: Params, es: seq<Input>)
    requires FairRun(p, es)
    ensures Run(p, Cleared, es).counter <= p.size - p.threshold + 1
  {
    RunInvariant(p, es);
  }

  // Short of a final session: a session holds one share from each signer no longer pending in it,
  // fewer than t signers are responsive, and every input so far is a responsive signer or was used
  // up, t at a time, by a session.
  lemma Accounting(p: Params, es: seq<Input>)
    requires FairRun(p, es) && !Final(p, Run(p, Cleared, es))
    ensures var c := Run(p, Cleared, es);
      && |c.responsive| < p.threshold
      && |es| == c.counter * p.threshold + |c.responsive|
      && forall k :: k in c.sessions ==>
           && |c.sessions[k].shares| == p.threshold - |Pending(c, k)|
           && Elems(Senders(c.sessions[k].shares)) == Elems(c.sessions[k].signers) - Pending(c, k)
  {
    RunInvariant(p, es);
    var c := Run(p, Cleared, es);
    forall k | k in c.sessions ensures |c.sessions[k].shares| == p.threshold - |Pending(c, k)| {
      SharesCount(p, c, k);
    }
  }

  // At most one session ever has t shares, and those are one from each of its t signers.
  lemma OneFinalSession(p: Params, es: seq<Input>, j: nat, k: nat)
    requires FairRun(p, es)
    requires var c := Run(p, Cleared, es);
      j in c.sessions && IsFinal(p, c.sessions[j]) && k in c.sessions && IsFinal(p, c.sessions[k])
    ensures j == k && FinalSession(p, Run(p, Cleared, es).sessions[k])
  {
    RunInvariant(p, es);
    RunActive(p, es);
  }

  lemma {:induction false} RunActive(p: Params, es: seq<Input>)
    ensures Run(p, Cleared, es).active
  {
    if es != [] {
      RunActive(p, es[..|es| - 1]);
    }
  }

  // ---------- termination ----------

  lemma StepKeepsKnown(p: Params, c: Coordinator, e: Input, i: nat)
    requires Collecting(p, c) && ValidParams(p) && e.i < p.size && Solicited(c, e)
    requires !Final(p, Received(c, e.i, DataOf(e), e.next))
    requires Known(c, i) || e.i == i
    ensures Step(p, c, e).Done? && Known(Step(p, c, e).c, i)
  {
    StepOutcome(p, c, e);
    var d := Received(c, e.i, DataOf(e), e.next);
    assert i in d.sid || i in Elems(d.responsive);
  }

  // Dropping the last input of a fair run leaves a fair run, and the last input was solicited.
  lemma FairPrefix(p: Params, es: seq<Input>)
    requires FairRun(p, es) && es != []
    ensures FairRun(p, es[..|es| - 1])
    ensures !Final(p, Run(p, Cleared, es[..|es| - 1])) ==> Solicited(Run(p, Cleared, es[..|es| - 1]), es[|es| - 1])
  {
    var init, e := es[..|es| - 1], es[|es| - 1];
    var c := Run(p, Cleared, init);
    MaliciousStays(p, c, e);
    RunInvariant(p, init);
    if !Final(p, c) {
      if e.i in c.responsive {
        UnsolicitedAccepted(p, c, e);
      }
      if e.Contribution? && e.i in c.sid {
        KnownHasSent(p, init, e.i);
        assert false;
      }
    }
  }

  // Once final, always final: further inputs fail.
  lemma FinalBefore(p: Params, es: seq<Input>)
    requires FairRun(p, es) && es != [] && !Final(p, Run(p, Cleared, es))
    ensures !Final(p, Run(p, Cleared, es[..|es| - 1]))
    ensures var c, e := Run(p, Cleared, es[..|es| - 1]), es[|es| - 1];
      !Final(p, Received(c, e.i, DataOf(e), e.next))
  {
    var init, e := es[..|es| - 1], es[|es| - 1];
    FairPrefix(p, es);
    RunInvariant(p, init);
    var c := Run(p, Cleared, init);
    if !Final(p, c) && Final(p, Received(c, e.i, DataOf(e), e.next)) {
      StepFinal(p, c, e);
    }
  }

  // Whoever has sent something is responsive or assigned to a session.
  lemma {:induction false} SentIsKnown(p: Params, es: seq<Input>, k: nat)
    requires FairRun(p, es) && !Final(p, Run(p, Cleared, es)) && k < |es|
    ensures Known(Run(p, Cleared, es), es[k].i)
  {
    var init, e := es[..|es| - 1], es[|es| - 1];
    FairPrefix(p, es);
    FinalBefore(p, es);
    RunInvariant(p, init);
    if k < |es| - 1 {
      SentIsKnown(p, init, k);
    }
    StepKeepsKnown(p, Run(p, Cleared, init), e, es[k].i);
  }

  ghost predicate Owes(c: Coordinator, i: nat) {
    i in c.sid && c.sid[i] in c.sessions && i in Pending(c, c.sid[i])
  }

  ghost predicate AllContributed(es: seq<Input>, honest: set<nat>) {
    forall h :: h in honest ==> exists k :: 0 <= k < |es| && es[k].i == h
  }

  // With t contributors, in every state that is not final one of them owes an answer.
  lemma SomeoneOwes(p: Params, es: seq<Input>, honest: set<nat>) returns (h: nat)
    requires FairRun(p, es) && !Final(p, Run(p, Cleared, es))
    requires |honest| >= p.threshold && AllContributed(es, honest)
    ensures h in honest && Owes(Run(p, Cleared, es), h)
  {
    RunInvariant(p, es);
    var c := Run(p, Cleared, es);
    NoDupCard(c.responsive);
    h := MemberOutside(honest, Elems(c.responsive));
    var k :| 0 <= k < |es| && es[k].i == h;
    SentIsKnown(p, es, k);
  }

  // Delivering an owed answer is again a fair run.
  lemma OwedAnswerFair(p: Params, es: seq<Input>, h: nat, data: int, next: int)
    requires FairRun(p, es) && !Final(p, Run(p, Cleared, es)) && Owes(Run(p, Cleared, es), h)
    ensures FairRun(p, es + [Answer(h, data, next)])
  {
    RunInvariant(p, es);
    var c, e := Run(p, Cleared, es), Answer(h, data, next);
    assert h in c.sessions[c.sid[h]].signers && Accounted(p, c, c.sid[h]);
    var es' := es + [e];
    assert es'[..|es'| - 1] == es && es'[|es'| - 1] == e;
    RunStep(p, c, e, |es|);
    assert FromReplicas(p, es');
    forall a, b | 0 <= a < b < |es'| && es'[a].i == es'[b].i ensures es'[b].Answer? {
      if b < |es| { assert es'[a] == es[a] && es'[b] == es[b]; }
    }
  }

  function InputBound(p: Params): nat
    requires ValidParams(p)
  {
    (p.size - p.threshold + 2) * p.threshold
  }

  lemma MulGrows(a: nat, b: nat, t: nat)
    requires a <= b
    ensures a * t <= b * t
  {
    assert (b - a) * t >= 0;
    assert (b - a) * t == b * t - a * t;
  }

  lemma BelowBound(p: Params, inputs: nat, counter: nat, responsive: nat)
    requires ValidParams(p) && inputs == counter * p.threshold + responsive
    requires counter <= p.size - p.threshold + 1 && responsive < p.threshold
    ensures inputs < InputBound(p)
  {
    MulGrows(counter + 1, p.size - p.threshold + 2, p.threshold);
    assert (counter + 1) * p.threshold == counter * p.threshold + p.threshold;
  }

  // No fair run of (n - t + 2) * t inputs is without a final session, whatever the inputs.
  lemma EnoughInputsFinish(p: Params, es: seq<Input>)
    requires FairRun(p, es) && |es| >= InputBound(p)
    ensures Final(p, Run(p, Cleared, es))
  {
    if !Final(p, Run(p, Cleared, es)) {
      Accounting(p, es);
      SessionBound(p, es);
      BelowBound(p, |es|, Run(p, Cleared, es).counter, |Run(p, Cleared, es).responsive|);
      assert false;
    }
  }

  // One owed answer more.
  lemma DeliverOwed(p: Params, es: seq<Input>, honest: set<nat>, data: int, next: int) returns (e: Input)
    requires FairRun(p, es) && |honest| >= p.threshold && AllContributed(es, honest)
    requires !Final(p, Run(p, Cleared, es))
    ensures e.Answer? && e.i in honest
    ensures FairRun(p, es + [e]) && AllContributed(es + [e], honest) && |es| < InputBound(p)
  {
    if |es| >= InputBound(p) {
      EnoughInputsFinish(p, es);
      assert false;
    }
    var h := SomeoneOwes(p, es, honest);
    e := Answer(h, data, next);
    OwedAnswerFair(p, es, h, data, next);
    forall g | g in honest ensures exists k :: 0 <= k < |es + [e]| && (es + [e])[k].i == g {
      var k :| 0 <= k < |es| && es[k].i == g;
      assert (es + [e])[k].i == g;
    }
  }

  // Answers of honest signers that take es to a final session within the bound.
  ghost predicate Finishes(p: Params, es: seq<Input>, answers: seq<Input>, honest: set<nat>)
    requires ValidParams(p)
  {
    && (forall e :: e in answers ==> e.Answer? && e.i in honest)
    && FairRun(p, es + answers) && Final(p, Run(p, Cleared, es + answers))
    && (answers == [] || |es + answers| <= InputBound(p))
  }

  lemma PrependAnswer(p: Params, es: seq<Input>, e: Input, rest: seq<Input>, honest: set<nat>)
    requires ValidParams(p) && Finishes(p, es + [e], rest, honest)
    requires e.Answer? && e.i in honest && |es| < InputBound(p)
    ensures Finishes(p, es, [e] + rest, honest)
  {
    assert es + ([e] + rest) == es + [e] + rest;
  }

  // ROAST terminates: if t signers have contributed and keep answering, delivering owed answers
  // reaches a final session within (n - t + 2) * t inputs.
  lemma {:induction false} RoastTerminates(p: Params, es: seq<Input>, honest: set<nat>, data: int, next: int)
    returns (answers: seq<Input>)
    requires FairRun(p, es) && |honest| >= p.threshold && AllContributed(es, honest)
    ensures Finishes(p, es, answers, honest)
    decreases InputBound(p) - |es|
  {
    if Final(p, Run(p, Cleared, es)) {
      answers := [];
      assert es + [] == es;
    } else {
      var e := DeliverOwed(p, es, honest, data, next);
      var rest := RoastTerminates(p, es + [e], honest, data, next);
      PrependAnswer(p, es, e, rest, honest);
      answers := [e] + rest;
    }
  }

  // ---------- ROAST_INIT ----------

  ghost predicate Commits(p: Params, es: seq<Input>) {
    && ValidParams(p) && FromReplicas(p, es)
    && (forall k :: 0 <= k < |es| ==> es[k].Contribution?)
    && (forall a, b :: 0 <= a < b < |es| ==> es[a].i != es[b].i)
  }

  ghost predicate NoShares(c: Coordinator) {
    forall k :: k in c.sessions ==> c.sessions[k].shares == []
  }

  lemma ContributionStep(p: Params, c: Coordinator, e: Input, inputs: nat)
    requires ValidParams(p) && RunState(p, c, inputs) && !Final(p, c) && NoShares(c)
    requires e.Contribution? && e.i < p.size && !Known(c, e.i)
    ensures var r := Step(p, c, e);
      r.Done? && RunState(p, r.c, inputs + 1) && !Final(p, r.c) && NoShares(r.c)
  {
    StepOutcome(p, c, e);
    RunStep(p, c, e, inputs);
  }

  // Fed with COMMITs of distinct senders, ROAST_INIT never fails and opens one session for every
  // t of them; no session has a share yet.
  lemma {:induction false} InitSucceeds(p: Params, es: seq<Input>)
    requires Commits(p, es)
    ensures RoastInit(p, Cleared, es) == Done(Run(p, Cleared, es))
    ensures var c := Run(p, Cleared, es);
      && RunState(p, c, |es|) && !Final(p, c) && NoShares(c)
      && c.counter == |es| / p.threshold && |c.responsive| == |es| % p.threshold
  {
    if es == [] {
      ClearedState(p);
    } else {
      var init, e := es[..|es| - 1], es[|es| - 1];
      InitSucceeds(p, init);
      var c := Run(p, Cleared, init);
      if Known(c, e.i) {
        KnownHasSent(p, init, e.i);
        assert false;
      }
      ContributionStep(p, c, e, |init|);
    }
    var c := Run(p, Cleared, es);
    QuotientRemainder(|es|, p.threshold, c.counter, |c.responsive|);
  }

  lemma QuotientRemainder(a: nat, t: nat, q: nat, r: nat)
    requires a == q * t + r && r < t
    ensures a / t == q && a % t == r
  {
    var q' := a / t;
    assert q' * t <= a < (q' + 1) * t by {
      assert a == t * (a / t) + a % t;
      assert (q' + 1) * t == q' * t + t;
    }
    assert (q + 1) * t == q * t + t;
    if q' < q {
      MulGrows(q' + 1, q, t);
    } else if q < q' {
      MulGrows(q + 1, q', t);
    }
  }
}
