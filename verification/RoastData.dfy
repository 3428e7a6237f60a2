// What the sessions of the coordinator hold: who signs, which pre-signature shares are aggregated, and
// whose answers become signature shares.
module RoastData {
  import opened Roast
  import opened RoastSessions
  import opened RoastTheorems

  function SendersOf(es: seq<Input>): seq<nat> {
    seq(|es|, j requires 0 <= j < |es| => es[j].i)
  }

  function NextsOf(es: seq<Input>): seq<int> {
    seq(|es|, j requires 0 <= j < |es| => es[j].next)
  }

  // The inputs the first k sessions have used.
  function Used(p: Params, k: nat): nat {
    k * p.threshold
  }

  // Session k takes the k-th t inputs: their senders sign, and what they sent is aggregated, in order.
  ghost predicate TakesInputs(p: Params, s: Session, es: seq<Input>, k: nat) {
    && 1 <= k && Used(p, k - 1) <= Used(p, k) <= |es|
    && s.signers == SendersOf(es[Used(p, k - 1)..Used(p, k)])
    && s.preSig == p.aggregate(NextsOf(es[Used(p, k - 1)..Used(p, k)]))
  }

  lemma TakesMore(p: Params, s: Session, s': Session, es: seq<Input>, e: Input, k: nat)
    requires TakesInputs(p, s, es, k) && s'.signers == s.signers && s'.preSig == s.preSig
    ensures TakesInputs(p, s', es + [e], k)
  {
    var a, b := Used(p, k - 1), Used(p, k);
    hide Used;
    assert (es + [e])[a..b] == es[a..b];
  }

  ghost predicate Latest(c: Coordinator, tail: seq<Input>) {
    forall j :: 0 <= j < |tail| ==> tail[j].i in c.latest && c.latest[tail[j].i] == tail[j].next
  }

  lemma {:induction false} SharesOfTail(tail: seq<Input>, latest: map<nat, int>)
    requires forall j :: 0 <= j < |tail| ==> tail[j].i in latest && latest[tail[j].i] == tail[j].next
    ensures PreSigShares(SendersOf(tail), latest) == NextsOf(tail)
  {
    if tail != [] {
      SharesOfTail(tail[1..], latest);
      assert SendersOf(tail)[1..] == SendersOf(tail[1..]);
      assert NextsOf(tail) == [tail[0].next] + NextsOf(tail[1..]);
    }
  }

  // The responsive signers are the senders of the inputs no session has used yet.
  ghost predicate TailInv(p: Params, c: Coordinator, es: seq<Input>) {
    var used := Used(p, c.counter);
    && used <= |es| && c.responsive == SendersOf(es[used..]) && Latest(c, es[used..])
  }

  ghost predicate DataInv(p: Params, c: Coordinator, es: seq<Input>) {
    && (forall k :: k in c.sessions ==> TakesInputs(p, c.sessions[k], es, k))
    && (!Final(p, c) ==> TailInv(p, c, es))
  }

  lemma TailNext(p: Params, c: Coordinator, es: seq<Input>, e: Input)
    requires TailInv(p, c, es) && e.i !in c.responsive
    ensures var d := Received(c, e.i, DataOf(e), e.next); TailInv(p, d, es + [e])
  {
    var used := Used(p, c.counter);
    hide Used;
    var tail := es[used..];
    assert (es + [e])[used..] == tail + [e];
    assert SendersOf(tail + [e]) == SendersOf(tail) + [e.i];
    var d := Received(c, e.i, DataOf(e), e.next);
    forall j | 0 <= j < |tail + [e]| ensures (tail + [e])[j].i in d.latest && d.latest[(tail + [e])[j].i] == (tail + [e])[j].next {
      if j < |tail| {
        assert SendersOf(tail)[j] == tail[j].i;
        assert tail[j].i in c.responsive;
      }
    }
  }

  lemma UsedNext(p: Params, k: nat)
    ensures Used(p, k + 1) == Used(p, k) + p.threshold
  {
    assert (k + 1) * p.threshold == k * p.threshold + p.threshold;
  }

  // The session opened takes exactly the inputs not used so far.
  lemma OpenTakes(p: Params, d: Coordinator, es: seq<Input>)
    requires TailInv(p, d, es) && |d.responsive| == p.threshold
    ensures var r := OpenSession(p, d);
      && TakesInputs(p, r.sessions[r.counter], es, r.counter)
      && TailInv(p, r, es)
  {
    hide Used, PreSigShares, Assign;
    var used := Used(p, d.counter);
    var r := OpenSession(p, d);
    UsedNext(p, d.counter);
    assert |es[used..]| == p.threshold;
    assert es[used..used + p.threshold] == es[used..];
    SharesOfTail(es[used..], d.latest);
    assert es[used + p.threshold..] == [];
  }

  // What an input leaves of an older session.
  lemma SameSigners(p: Params, c: Coordinator, e: Input, k: nat)
    requires Bookkeeping(p, c) && k in c.sessions
    ensures var d := Received(c, e.i, DataOf(e), e.next);
      && d.sessions.Keys == c.sessions.Keys && d.counter == c.counter
      && d.sessions[k].signers == c.sessions[k].signers && d.sessions[k].preSig == c.sessions[k].preSig
      && k in OpenSession(p, d).sessions && OpenSession(p, d).sessions[k] == d.sessions[k]
  {
  }

  lemma ReceivedTakes(p: Params, c: Coordinator, es: seq<Input>, e: Input)
    requires Bookkeeping(p, c) && forall k :: k in c.sessions ==> TakesInputs(p, c.sessions[k], es, k)
    ensures var d := Received(c, e.i, DataOf(e), e.next);
      && d.sessions.Keys == c.sessions.Keys
      && forall k :: k in d.sessions ==> TakesInputs(p, d.sessions[k], es + [e], k) && OpenSession(p, d).sessions[k] == d.sessions[k]
  {
    var d := Received(c, e.i, DataOf(e), e.next);
    assert d.sessions.Keys == c.sessions.Keys;
    hide TakesInputs, Bookkeeping;
    forall k | k in c.sessions ensures TakesInputs(p, d.sessions[k], es + [e], k) && OpenSession(p, d).sessions[k] == d.sessions[k] {
      SameSigners(p, c, e, k);
      TakesMore(p, c.sessions[k], d.sessions[k], es, e, k);
    }
  }

  lemma OpenTakesAll(p: Params, d: Coordinator, es: seq<Input>)
    requires TailInv(p, d, es) && |d.responsive| == p.threshold
    requires forall k :: k in d.sessions ==> TakesInputs(p, d.sessions[k], es, k) && OpenSession(p, d).sessions[k] == d.sessions[k]
    ensures DataInv(p, OpenSession(p, d), es)
  {
    OpenTakes(p, d, es);
    hide TakesInputs, TailInv;
    var r := OpenSession(p, d);
    assert forall k :: k in r.sessions ==> k in d.sessions || k == r.counter;
  }

  lemma DataStep(p: Params, c: Coordinator, es: seq<Input>, e: Input)
    requires ValidParams(p) && Collecting(p, c) && e.i < p.size && Solicited(c, e) && !Final(p, c) && DataInv(p, c, es)
    ensures Step(p, c, e).Done? && DataInv(p, Step(p, c, e).c, es + [e])
  {
    StepOutcome(p, c, e);
    var d := Received(c, e.i, DataOf(e), e.next);
    assert Bookkeeping(p, c) && d.counter == c.counter;
    TailNext(p, c, es, e);
    ReceivedTakes(p, c, es, e);
    assert Final(p, d.(latest := c.latest, responsive := c.responsive)) == Final(p, d);
    hide TakesInputs, TailInv, Received, OpenSession, Collecting, Bookkeeping, Step;
    if !Final(p, d) && |d.responsive| == p.threshold {
      OpenTakesAll(p, d, es + [e]);
    }
  }

  lemma DataStays(p: Params, c: Coordinator, es: seq<Input>, e: Input)
    requires DataInv(p, c, es) && Final(p, c)
    ensures DataInv(p, c, es + [e])
  {
    forall k | k in c.sessions ensures TakesInputs(p, c.sessions[k], es + [e], k) {
      TakesMore(p, c.sessions[k], c.sessions[k], es, e, k);
    }
  }

  lemma {:induction false} DataRun(p: Params, es: seq<Input>)
    requires FairRun(p, es)
    ensures DataInv(p, Run(p, Cleared, es), es)
  {
    if es != [] {
      var init, e := es[..|es| - 1], es[|es| - 1];
      var c := Run(p, Cleared, init);
      assert es == init + [e];
      FairPrefix(p, es);
      DataRun(p, init);
      RunInvariant(p, init);
      hide DataInv, Collecting;
      if Final(p, c) {
        DataStays(p, c, init, e);
      } else {
        DataStep(p, c, init, e);
      }
    }
  }

  // In every run, session k has the senders of the k-th t inputs as its signers, and its pre-signature
  // aggregates exactly the pre-signature shares these inputs brought, in the order they came.
  lemma SessionsInOrder(p: Params, es: seq<Input>, k: nat)
    requires FairRun(p, es) && k in Run(p, Cleared, es).sessions
    ensures TakesInputs(p, Run(p, Cleared, es).sessions[k], es, k)
  {
    DataRun(p, es);
  }

  // ---------- signature shares ----------

  // The share came with an answer of that signer after the session was opened.
  ghost predicate Answered(p: Params, es: seq<Input>, k: nat, x: Share) {
    exists m :: Used(p, k) <= m < |es| && es[m].Answer? && x == Share(es[m].i, es[m].data)
  }

  lemma AnsweredStays(p: Params, es: seq<Input>, e: Input, k: nat, x: Share)
    requires Answered(p, es, k, x)
    ensures Answered(p, es + [e], k, x)
  {
    var m :| Used(p, k) <= m < |es| && es[m].Answer? && x == Share(es[m].i, es[m].data);
    assert (es + [e])[m] == es[m];
  }

  ghost predicate SharesInv(p: Params, c: Coordinator, es: seq<Input>) {
    forall k, x :: k in c.sessions && x in c.sessions[k].shares ==> Answered(p, es, k, x)
  }

  lemma OneShareMore(c: Coordinator, e: Input, k: nat)
    requires k in c.sessions && (e.i in c.sid ==> e.Answer?)
    ensures var s := Received(c, e.i, DataOf(e), e.next).sessions[k];
      s.shares == c.sessions[k].shares || (e.Answer? && s.shares == c.sessions[k].shares + [Share(e.i, e.data)])
  {
  }

  lemma OpensEmpty(p: Params, d: Coordinator, k: nat)
    requires k in OpenSession(p, d).sessions
    ensures if k == d.counter + 1 then OpenSession(p, d).sessions[k].shares == []
            else k in d.sessions && OpenSession(p, d).sessions[k] == d.sessions[k]
  {
  }

  lemma ReceivedShares(p: Params, c: Coordinator, e: Input, k: nat)
    requires ValidParams(p) && Collecting(p, c) && e.i < p.size && Solicited(c, e)
    requires Step(p, c, e).Done? && k in Step(p, c, e).c.sessions
    ensures var s := Step(p, c, e).c.sessions[k];
      && (k !in c.sessions ==> s.shares == [])
      && (k in c.sessions ==> s.shares == c.sessions[k].shares
                              || (e.Answer? && s.shares == c.sessions[k].shares + [Share(e.i, e.data)]))
  {
    StepOutcome(p, c, e);
    var d := Received(c, e.i, DataOf(e), e.next);
    assert d.sessions.Keys == c.sessions.Keys && d.counter == c.counter && c.counter + 1 !in c.sessions;
    hide Step, Collecting, Final, Received, OpenSession;
    if k in OpenSession(p, d).sessions {
      OpensEmpty(p, d, k);
    }
    if k in c.sessions {
      OneShareMore(c, e, k);
    }
  }

  lemma SharesStep(p: Params, c: Coordinator, es: seq<Input>, e: Input)
    requires ValidParams(p) && Collecting(p, c) && e.i < p.size && Solicited(c, e) && !Final(p, c)
    requires DataInv(p, c, es) && SharesInv(p, c, es)
    ensures Step(p, c, e).Done? && SharesInv(p, Step(p, c, e).c, es + [e])
  {
    StepOutcome(p, c, e);
    var r := Step(p, c, e).c;
    hide Step, Collecting, Received, OpenSession, Answered, Used;
    forall k, x | k in r.sessions && x in r.sessions[k].shares ensures Answered(p, es + [e], k, x) {
      ReceivedShares(p, c, e, k);
      if x in c.sessions[k].shares {
        AnsweredStays(p, es, e, k, x);
      } else {
        assert TakesInputs(p, c.sessions[k], es, k);
        AnswersNow(p, es, e, k);
      }
    }
  }

  lemma AnswersNow(p: Params, es: seq<Input>, e: Input, k: nat)
    requires Used(p, k) <= |es| && e.Answer?
    ensures Answered(p, es + [e], k, Share(e.i, e.data))
  {
    assert (es + [e])[|es|] == e;
  }

  lemma {:induction false} SharesRun(p: Params, es: seq<Input>)
    requires FairRun(p, es)
    ensures SharesInv(p, Run(p, Cleared, es), es)
  {
    if es != [] {
      var init, e := es[..|es| - 1], es[|es| - 1];
      var c := Run(p, Cleared, init);
      assert es == init + [e];
      FairPrefix(p, es);
      SharesRun(p, init);
      DataRun(p, init);
      RunInvariant(p, init);
      hide DataInv, Collecting, Answered;
      if Final(p, c) {
        forall k, x | k in c.sessions && x in c.sessions[k].shares ensures Answered(p, es, k, x) {
          AnsweredStays(p, init, e, k, x);
        }
      } else {
        SharesStep(p, c, init, e);
      }
    }
  }

  // In every run each share a session holds is the data its signer sent after the session was opened.
  lemma SharesAreAnswers(p: Params, es: seq<Input>, k: nat, x: Share)
    requires FairRun(p, es) && k in Run(p, Cleared, es).sessions && x in Run(p, Cleared, es).sessions[k].shares
    ensures exists m :: Used(p, k) <= m < |es| && es[m].Answer? && x == Share(es[m].i, es[m].data)
  {
    SharesRun(p, es);
    assert Answered(p, es, k, x);
  }

  // ---------- malicious signers ----------

  // Input m was taken from a signer that had not been asked again.
  predicate Unsolicited(p: Params, es: seq<Input>, m: nat)
    requires m < |es|
  {
    var c := Run(p, Cleared, es[..m]);
    es[m].i in c.responsive && Step(p, c, es[m]).Done?
  }

  lemma UnsolicitedPrefix(p: Params, es: seq<Input>, m: nat)
    requires m < |es| - 1
    ensures Unsolicited(p, es, m) <==> Unsolicited(p, es[..|es| - 1], m)
  {
    assert es[..|es| - 1][..m] == es[..m];
  }

  ghost predicate SentUnsolicited(p: Params, es: seq<Input>, i: nat) {
    exists m: nat :: m < |es| && es[m].i == i && Unsolicited(p, es, m)
  }

  lemma SentUnsolicitedNext(p: Params, es: seq<Input>, i: nat)
    requires es != []
    ensures SentUnsolicited(p, es, i) <==>
            SentUnsolicited(p, es[..|es| - 1], i) || (es[|es| - 1].i == i && Unsolicited(p, es, |es| - 1))
  {
    hide Run, Step, Unsolicited;
    var init := es[..|es| - 1];
    forall m: nat | m < |init| ensures Unsolicited(p, es, m) <==> Unsolicited(p, init, m) {
      UnsolicitedPrefix(p, es, m);
    }
    if m: nat :| m < |es| && es[m].i == i && Unsolicited(p, es, m) {
      assert m < |init| ==> init[m].i == i && Unsolicited(p, init, m);
    }
    if m: nat :| m < |init| && init[m].i == i && Unsolicited(p, init, m) {
      assert es[m].i == i && Unsolicited(p, es, m);
    }
  }

  // From cleared state, whatever the inputs: a signer is marked malicious exactly if one of its inputs was
  // unsolicited.
  lemma {:induction false} MaliciousExactly(p: Params, es: seq<Input>, i: nat)
    ensures i in Run(p, Cleared, es).malicious <==> SentUnsolicited(p, es, i)
  {
    if es != [] {
      MaliciousExactly(p, es[..|es| - 1], i);
      LastInput(p, es);
      SentUnsolicitedNext(p, es, i);
      hide Run, Unsolicited, SentUnsolicited;
    }
  }

  // The last input marks its sender if it was unsolicited, and nobody else.
  lemma LastInput(p: Params, es: seq<Input>)
    requires es != []
    ensures var was, now := Run(p, Cleared, es[..|es| - 1]).malicious, Run(p, Cleared, es).malicious;
      now == was + if Unsolicited(p, es, |es| - 1) then {es[|es| - 1].i} else {}
  {
    var c := Run(p, Cleared, es[..|es| - 1]);
    if Step(p, c, es[|es| - 1]).Done? {
      MarksOnly(p, c, es[|es| - 1]);
    }
  }

  lemma MarksOnly(p: Params, c: Coordinator, e: Input)
    requires Step(p, c, e).Done?
    ensures Step(p, c, e).c.malicious == c.malicious + if e.i in c.responsive then {e.i} else {}
  {
  }
}
