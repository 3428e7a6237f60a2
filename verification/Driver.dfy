// The message buffers of the C++ driver around the engine.
module Driver {
  import opened UInt32

  // A message. The equality of the program leaves out the pre-signature of a COMMIT and whatever of a
  // proposed block its hash does not cover; the signature covers both.
  datatype Message =
    | BlockMsg(height: uint32, time: uint32, hash: int)
    | PrePrepareMsg(view: uint32, seqNumber: uint32, reqDigest: int, blockHash: int, blockRest: int, sender: uint32, signature: int)
    | PrepareMsg(view: uint32, seqNumber: uint32, reqDigest: int, sender: uint32, signature: int)
    | CommitMsg(view: uint32, seqNumber: uint32, preSignature: int, sender: uint32, signature: int)
    | OtherMsg(content: int, sender: uint32, signature: int)

  datatype Option<T> = None | Some(value: T)

  // seq_number_as_opt
  function SeqNumber(m: Message): Option<uint32> {
    match m
    case PrePrepareMsg(_, n, _, _, _, _, _) => Some(n)
    case PrepareMsg(_, n, _, _, _) => Some(n)
    case CommitMsg(_, n, _, _, _) => Some(n)
    case _ => None
  }

  // operator==
  predicate Same(a: Message, b: Message) {
    match a
    case PrePrepareMsg(v, n, d, h, _, s, sig) => b.PrePrepareMsg? && a == b.(blockRest := a.blockRest)
    case CommitMsg(v, n, _, s, sig) => b.CommitMsg? && a == b.(preSignature := a.preSignature)
    case _ => a == b
  }

  function Signed(m: Message): Option<(uint32, int)> {
    match m
    case BlockMsg(_, _, _) => None
    case PrePrepareMsg(_, _, _, _, _, s, sig) => Some((s, sig))
    case PrepareMsg(_, _, _, s, sig) => Some((s, sig))
    case CommitMsg(_, _, _, s, sig) => Some((s, sig))
    case OtherMsg(_, s, sig) => Some((s, sig))
  }

  // Only messages whose signature verifies are buffered, and the signature is over a digest of the
  // whole content: one sender's signature belongs to one message.
  predicate SignaturesBind(ms: multiset<Message>) {
    forall a, b :: a in ms && b in ms && Signed(a).Some? && Signed(a) == Signed(b) ==> a == b
  }

  // What the driver keeps, and the window the engine reports.
  datatype Buffers = Buffers(input: seq<Message>, awaiting: seq<Message>, h: uint32)

  function FirstSame(buffer: seq<Message>, m: Message): (k: nat)
    ensures k <= |buffer|
    ensures k < |buffer| ==> Same(buffer[k], m)
    ensures forall j :: 0 <= j < k ==> !Same(buffer[j], m)
  {
    if buffer == [] || Same(buffer[0], m) then 0 else FirstSame(buffer[1..], m) + 1
  }

  function Without(buffer: seq<Message>, k: nat): seq<Message>
    requires k < |buffer|
  {
    buffer[..k] + buffer[k + 1..]
  }

  predicate Retries(m: Message, success: bool, h: uint32) {
    !success && SeqNumber(m) == Some(Add32(h, 2))
  }

  // The buffers after an action whose effect succeeded or not and left the engine at h. The action
  // received processed, or no message at all.
  function Applied(b: Buffers, processed: Option<Message>, success: bool, h: uint32): Buffers {
    if processed.None? then b.(h := h)
    else
      var m := processed.value;
      var released := success && m.BlockMsg?;
      var input := if released then b.input + b.awaiting else b.input;
      var awaiting := if released then [] else b.awaiting;
      var k := FirstSame(input, m);
      if k == |input| then Buffers(input, awaiting, h)
      else Buffers(Without(input, k), if Retries(m, success, h) then awaiting + [input[k]] else awaiting, h)
  }

  // The copy that leaves the buffers for good.
  function Consumed(b: Buffers, processed: Option<Message>, success: bool, h: uint32): multiset<Message> {
    if processed.None? then multiset{}
    else
      var m := processed.value;
      var input := if success && m.BlockMsg? then b.input + b.awaiting else b.input;
      var k := FirstSame(input, m);
      if k == |input| || Retries(m, success, h) then multiset{} else multiset{input[k]}
  }

  // Only a block moves the window of the engine.
  predicate KeepsWindow(b: Buffers, processed: Option<Message>, success: bool, h: uint32) {
    h == b.h || (success && processed.Some? && processed.value.BlockMsg?)
  }

  predicate AwaitsNext(b: Buffers) {
    forall m :: m in b.awaiting ==> SeqNumber(m) == Some(Add32(b.h, 2))
  }

  function Held(b: Buffers): multiset<Message> {
    multiset(b.input) + multiset(b.awaiting)
  }

  lemma WithoutOne(buffer: seq<Message>, k: nat)
    requires k < |buffer|
    ensures multiset(buffer) == multiset(Without(buffer, k)) + multiset{buffer[k]}
  {
    assert buffer == buffer[..k] + [buffer[k]] + buffer[k + 1..];
  }

  // Nothing is lost and nothing is made up: what is held before is what is held after, plus the
  // copy consumed.
  lemma AppliedConserves(b: Buffers, processed: Option<Message>, success: bool, h: uint32)
    ensures Held(b) == Held(Applied(b, processed, success, h)) + Consumed(b, processed, success, h)
  {
    if processed.Some? {
      var m := processed.value;
      var input := if success && m.BlockMsg? then b.input + b.awaiting else b.input;
      var k := FirstSame(input, m);
      assert Held(b) == multiset(input) + multiset(if success && m.BlockMsg? then [] else b.awaiting);
      if k < |input| {
        WithoutOne(input, k);
      }
    }
  }

  // Every message in the awaiting buffer is two ahead of the window.
  lemma AppliedAwaits(b: Buffers, processed: Option<Message>, success: bool, h: uint32)
    requires AwaitsNext(b) && KeepsWindow(b, processed, success, h)
    ensures AwaitsNext(Applied(b, processed, success, h))
  {
    if processed.Some? {
      var m := processed.value;
      var input := if success && m.BlockMsg? then b.input + b.awaiting else b.input;
      var k := FirstSame(input, m);
      if k < |input| {
        assert SeqNumber(input[k]) == SeqNumber(m);
      }
    }
  }

  lemma InWithout(buffer: seq<Message>, k: nat, j: nat)
    requires k < |buffer| && j < |buffer| && j != k
    ensures buffer[j] in Without(buffer, k)
  {
    assert Without(buffer, k)[if j < k then j else j - 1] == buffer[j];
  }

  // A successful block empties the awaiting buffer into the input buffer; what it released is now
  // one ahead of the window if the block was the next one.
  lemma BlockReleases(b: Buffers, m: Message, h: uint32)
    requires m.BlockMsg? && AwaitsNext(b)
    ensures var after := Applied(b, Some(m), true, h);
      && after.awaiting == []
      && (m !in b.input && m !in b.awaiting ==> after.input == b.input + b.awaiting)
      && (forall x :: x in b.awaiting ==> x in after.input)
      && (h == Add32(b.h, 1) ==> forall x :: x in b.awaiting ==> SeqNumber(x) == Some(Add32(h, 1)))
  {
    var input := b.input + b.awaiting;
    var k := FirstSame(input, m);
    if k < |input| {
      forall x | x in b.awaiting ensures x in Without(input, k) {
        var l :| 0 <= l < |b.awaiting| && b.awaiting[l] == x;
        assert input[|b.input| + l] == x != m == input[k];
        InWithout(input, k, |b.input| + l);
      }
    }
  }

  // Under binding signatures the equality of the program is equality of the whole message.
  lemma SameIsEqual(ms: multiset<Message>, a: Message, m: Message)
    requires SignaturesBind(ms) && a in ms && m in ms
    ensures Same(a, m) <==> a == m
  {
  }

  // Apply on a buffered message: exactly one copy of that very message leaves the input buffer. It
  // goes to the awaiting buffer if the message is to be retried and is consumed otherwise; nothing
  // else moves, except that a successful block first releases the awaiting buffer.
  lemma AppliedExactly(b: Buffers, m: Message, success: bool, h: uint32)
    requires SignaturesBind(Held(b)) && m in b.input
    ensures var after := Applied(b, Some(m), success, h);
      if success && m.BlockMsg? then after.awaiting == [] && multiset(after.input) == Held(b) - multiset{m}
      else && multiset(after.input) == multiset(b.input) - multiset{m}
           && after.awaiting == if Retries(m, success, h) then b.awaiting + [m] else b.awaiting
    ensures Consumed(b, Some(m), success, h) == if Retries(m, success, h) then multiset{} else multiset{m}
  {
    if success && m.BlockMsg? {
      assert multiset(b.input + b.awaiting) == Held(b);
      OneLeaves(b.input + b.awaiting, Held(b), m);
    } else {
      OneLeaves(b.input, Held(b), m);
    }
  }

  // A PRE-PREPARE, PREPARE or COMMIT whose number is h + 2 in the arithmetic of uint32_t.
  predicate TwoAhead(m: Message, h: uint32) {
    match m
    case PrePrepareMsg(_, n, _, _, _, _, _) => n == (h + 2) % 0x1_0000_0000
    case PrepareMsg(_, n, _, _, _) => n == (h + 2) % 0x1_0000_0000
    case CommitMsg(_, n, _, _, _) => n == (h + 2) % 0x1_0000_0000
    case BlockMsg(_, _, _) => false
    case OtherMsg(_, _, _) => false
  }

  // After an Apply that failed on a buffered message, one copy of the message has gone from the input
  // buffer to the awaiting buffer if it is two ahead of the window, and is consumed otherwise; nothing
  // else has moved.
  lemma FailedExactly(b: Buffers, m: Message, h: uint32)
    requires SignaturesBind(Held(b)) && m in b.input
    ensures var after := Applied(b, Some(m), false, h);
      && multiset(after.input) == multiset(b.input) - multiset{m}
      && after.awaiting == (if TwoAhead(m, h) then b.awaiting + [m] else b.awaiting)
      && (m in after.awaiting && m !in b.awaiting ==> TwoAhead(m, h))
      && Held(after) == (if TwoAhead(m, h) then Held(b) else Held(b) - multiset{m})
      && Consumed(b, Some(m), false, h) == if TwoAhead(m, h) then multiset{} else multiset{m}
  {
    AppliedExactly(b, m, false, h);
    AppliedConserves(b, Some(m), false, h);
  }

  // After one that succeeded nothing is added to the awaiting buffer, and the message is consumed.
  lemma SucceededExactly(b: Buffers, m: Message, h: uint32)
    requires SignaturesBind(Held(b)) && m in b.input
    ensures var after := Applied(b, Some(m), true, h);
      && Held(after) == Held(b) - multiset{m} && Consumed(b, Some(m), true, h) == multiset{m}
      && after.awaiting == if m.BlockMsg? then [] else b.awaiting
  {
    AppliedExactly(b, m, true, h);
    AppliedConserves(b, Some(m), true, h);
  }

  lemma OneLeaves(input: seq<Message>, held: multiset<Message>, m: Message)
    requires SignaturesBind(held) && m in input && forall x :: x in input ==> x in held
    ensures var k := FirstSame(input, m);
      k < |input| && input[k] == m && multiset(Without(input, k)) == multiset(input) - multiset{m}
  {
    FirstIsThere(input, held, m);
    WithoutOne(input, FirstSame(input, m));
  }

  lemma FirstIsThere(input: seq<Message>, held: multiset<Message>, m: Message)
    requires SignaturesBind(held) && m in input && forall x :: x in input ==> x in held
    ensures FirstSame(input, m) < |input| && input[FirstSame(input, m)] == m
  {
    var i :| 0 <= i < |input| && input[i] == m;
    var k := FirstSame(input, m);
    assert Same(input[i], m);
    assert input[k] in input;
    SameIsEqual(held, input[k], m);
  }

  // ---------- whole runs ----------

  datatype Event =
    | Receive(m: Message)
    | Acted(processed: Option<Message>, success: bool, h: uint32)

  function Step(b: Buffers, e: Event): Buffers {
    match e
    case Receive(m) => b.(input := b.input + [m])
    case Acted(processed, success, h) => Applied(b, processed, success, h)
  }

  function Run(b: Buffers, events: seq<Event>): Buffers {
    if events == [] then b else Step(Run(b, events[..|events| - 1]), events[|events| - 1])
  }

  function Received(events: seq<Event>): multiset<Message> {
    if events == [] then multiset{}
    else
      var last := events[|events| - 1];
      var rest := Received(events[..|events| - 1]);
      if last.Receive? then rest + multiset{last.m} else rest
  }

  function ConsumedIn(b: Buffers, events: seq<Event>): multiset<Message> {
    if events == [] then multiset{}
    else
      var last := events[|events| - 1];
      var before := events[..|events| - 1];
      var rest := ConsumedIn(b, before);
      if last.Acted? then rest + Consumed(Run(b, before), last.processed, last.success, last.h) else rest
  }

  predicate Legal(b: Buffers, events: seq<Event>) {
    events != [] ==>
      var last := events[|events| - 1];
      var before := events[..|events| - 1];
      Legal(b, before) && (last.Acted? ==> KeepsWindow(Run(b, before), last.processed, last.success, last.h))
  }

  // From empty buffers, in every state of every run: the awaiting buffer holds only messages two
  // ahead of the window.
  lemma {:induction false} RunAwaits(h: uint32, events: seq<Event>)
    requires Legal(Buffers([], [], h), events)
    ensures AwaitsNext(Run(Buffers([], [], h), events))
  {
    if events != [] {
      var last := events[|events| - 1];
      var before := events[..|events| - 1];
      RunAwaits(h, before);
      if last.Acted? {
        AppliedAwaits(Run(Buffers([], [], h), before), last.processed, last.success, last.h);
      }
    }
  }

  lemma AddBoth(a: multiset<Message>, r: multiset<Message>, c: multiset<Message>, d: multiset<Message>, x: multiset<Message>)
    requires a + r == c + d
    ensures a + (r + x) == (c + x) + d
  {
    assert a + (r + x) == (a + r) + x;
    assert (c + x) + d == (c + d) + x;
  }

  // Every message received is held once or was consumed once.
  lemma {:induction false} RunConserves(b: Buffers, events: seq<Event>)
    ensures Held(b) + Received(events) == Held(Run(b, events)) + ConsumedIn(b, events)
  {
    if events != [] {
      var last := events[|events| - 1];
      var before := events[..|events| - 1];
      RunConserves(b, before);
      var was := Run(b, before);
      match last
      case Receive(m) =>
        assert Run(b, events) == was.(input := was.input + [m]);
        assert Held(Run(b, events)) == Held(was) + multiset{m};
        AddBoth(Held(b), Received(before), Held(was), ConsumedIn(b, before), multiset{m});
      case Acted(processed, success, h) =>
        AppliedConserves(was, processed, success, h);
        assert Run(b, events) == Applied(was, processed, success, h);
        assert Received(events) == Received(before);
        assert ConsumedIn(b, events) == ConsumedIn(b, before) + Consumed(was, processed, success, h);
    }
  }

  // In every state of every run over messages whose signatures bind, an Apply on a buffered message
  // does to the buffers exactly what AppliedExactly says.
  lemma RunAppliesExactly(start: Buffers, events: seq<Event>, m: Message, success: bool, h: uint32)
    requires SignaturesBind(Held(start) + Received(events)) && m in Run(start, events).input
    ensures var b := Run(start, events);
      var after := Applied(b, Some(m), success, h);
      Held(after) == if Retries(m, success, h) then Held(b) else Held(b) - multiset{m}
  {
    var b := Run(start, events);
    RunConserves(start, events);
    assert forall x :: x in Held(b) ==> x in Held(start) + Received(events);
    AppliedExactly(b, m, success, h);
    AppliedConserves(b, Some(m), success, h);
  }

  // Some block took effect among these events.
  predicate BlockIn(events: seq<Event>) {
    exists e :: e in events && e.Acted? && e.success && e.processed.Some? && e.processed.value.BlockMsg?
  }

  lemma StaysAwaiting(b: Buffers, e: Event, m: Message)
    requires m in b.awaiting && !BlockIn([e])
    ensures m in Step(b, e).awaiting
  {
    assert e in [e];
  }

  lemma {:induction false} KeptAwaiting(start: Buffers, before: seq<Event>, more: seq<Event>, m: Message)
    requires m in Run(start, before).awaiting && !BlockIn(more)
    ensures m in Run(start, before + more).awaiting
  {
    if more == [] {
      assert before + more == before;
    } else {
      var init, e := more[..|more| - 1], more[|more| - 1];
      assert more == init + [e];
      KeptAwaiting(start, before, init, m);
      assert (before + more)[..|before + more| - 1] == before + init;
      StaysAwaiting(Run(start, before + init), e, m);
    }
  }

  // In every run over messages whose signatures bind: a buffered message on which an Apply fails two
  // ahead of the window is back in the input buffer after the next block that takes effect, whatever
  // happens in between.
  lemma FailedComesBack(start: Buffers, events: seq<Event>, m: Message, h: uint32, more: seq<Event>, block: Message, h': uint32)
    requires SignaturesBind(Held(start) + Received(events)) && m in Run(start, events).input && TwoAhead(m, h)
    requires !BlockIn(more) && block.BlockMsg?
    ensures m in Run(start, events + [Acted(Some(m), false, h)] + more + [Acted(Some(block), true, h')]).input
  {
    var b, failed := Run(start, events), events + [Acted(Some(m), false, h)];
    RunConserves(start, events);
    assert forall x :: x in Held(b) ==> x in Held(start) + Received(events);
    FailedExactly(b, m, h);
    assert failed[..|failed| - 1] == events;
    KeptAwaiting(start, failed, more, m);
    var all := failed + more + [Acted(Some(block), true, h')];
    assert all[..|all| - 1] == failed + more;
    Released(Run(start, failed + more), block, h', m);
  }

  lemma Released(b: Buffers, block: Message, h: uint32, m: Message)
    requires block.BlockMsg? && m in b.awaiting && !m.BlockMsg?
    ensures m in Applied(b, Some(block), true, h).input
  {
    var input := b.input + b.awaiting;
    var k := FirstSame(input, block);
    var l :| 0 <= l < |b.awaiting| && b.awaiting[l] == m;
    assert input[|b.input| + l] == m;
    if k < |input| {
      InWithout(input, k, |b.input| + l);
    }
  }

  class ReplicaState {
    var input: seq<Message>
    var awaiting: seq<Message>
    var h: uint32
    // The messages of the active receive actions.
    var receives: seq<Message>

    function State(): Buffers
      reads this
    {
      Buffers(input, awaiting, h)
    }

    constructor (start: uint32)
      ensures State() == Buffers([], [], start) && receives == []
    {
      input, awaiting, h, receives := [], [], start, [];
    }

    // One receive action for each buffered message, in the order of the buffer.
    method UpdateActiveActions()
      modifies `receives
      ensures receives == input
    {
      receives := [];
      for i := 0 to |input|
        invariant receives == input[..i]
      {
        receives := receives + [input[i]];
      }
    }

    method ReceiveIncomingMessage(m: Message)
      modifies this
      ensures State() == Step(old(State()), Receive(m)) && receives == input
    {
      input := input + [m];
      UpdateActiveActions();
    }

    // The buffer part of Apply. The effect of the action on the engine is its outcome: success, and
    // the window get_h reports afterwards.
    method Apply(processed: Option<Message>, success: bool, newH: uint32)
      modifies this
      ensures State() == Step(old(State()), Acted(processed, success, newH)) && receives == input
    {
      h := newH;
      if processed.Some? {
        var m := processed.value;
        if success && m.BlockMsg? {
          ReleaseAwaiting();
        }
        RemoveFirst(m, success);
      }
      UpdateActiveActions();
    }

    method ReleaseAwaiting()
      modifies `input, `awaiting
      ensures input == old(input) + old(awaiting) && awaiting == []
    {
      for i := 0 to |awaiting|
        invariant awaiting == old(awaiting)
        invariant input == old(input) + old(awaiting)[..i]
      {
        input := input + [awaiting[i]];
      }
      awaiting := [];
    }

    method RemoveFirst(m: Message, success: bool)
      modifies `input, `awaiting
      ensures var k := FirstSame(old(input), m);
        if k == |old(input)| then input == old(input) && awaiting == old(awaiting)
        else && input == Without(old(input), k)
             && awaiting == if Retries(m, success, h) then old(awaiting) + [old(input)[k]] else old(awaiting)
    {
      var i := 0;
      while i < |input|
        invariant 0 <= i <= |input|
        invariant input == old(input) && awaiting == old(awaiting)
        invariant forall j :: 0 <= j < i ==> !Same(input[j], m)
      {
        if Same(input[i], m) {
          if Retries(m, success, h) {
            awaiting := awaiting + [input[i]];
          }
          input := Without(input, i);
          return;
        }
        i := i + 1;
      }
    }
  }
}
