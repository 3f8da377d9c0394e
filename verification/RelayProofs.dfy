// What the outbound queue promises with any number of concurrent drain loops.
module RelayProofs {
  import opened RelayMachine

  // One more than the highest ticket transmitted.
  function Reached(frames: seq<Frame>): nat {
    if frames == [] then 0
    else
      var before, ticket := Reached(frames[..|frames| - 1]), frames[|frames| - 1].item.ticket;
      if ticket < before then before else ticket + 1
  }

  // Every frame repeats an old ticket or carries the next one.
  predicate FirstInOrder(frames: seq<Frame>) {
    forall n :: 0 <= n < |frames| ==> frames[n].item.ticket <= Reached(frames[..n])
  }

  predicate QueueIsTail(outbound: seq<Item>, enqueued: seq<Item>, shifted: nat) {
    && (forall i :: 0 <= i < |enqueued| ==> enqueued[i].ticket == i)
    && shifted <= |enqueued| && outbound == enqueued[shifted..]
  }

  // Ids 1 to ridCounter that are no longer pending have settled once, all others never.
  ghost predicate SettledOnce(pending: set<nat>, ridCounter: nat, settled: multiset<nat>) {
    && (forall r :: r in pending ==> 1 <= r <= ridCounter)
    && forall r: nat :: settled[r] == if 1 <= r <= ridCounter && r !in pending then 1 else 0
  }

  predicate LoopsWait(loops: map<nat, Item>, pending: set<nat>, built: seq<Frame>) {
    forall r :: r in loops ==> r in pending && Frame(r, loops[r]) in built
  }

  // A loop whose request threw is still there, and connected only over a socket not open yet.
  predicate ThrownFit(s: State) {
    s.thrown <= s.loops.Keys && (s.thrown != {} && s.status == Connected ==> s.socket == Opening)
  }

  predicate Genuine(enqueued: seq<Item>, f: Frame) {
    f.item.ticket < |enqueued| && enqueued[f.item.ticket] == f.item
  }

  predicate AllGenuine(enqueued: seq<Item>, built: seq<Frame>) {
    forall f :: f in built ==> Genuine(enqueued, f)
  }

  predicate SomeBuilt(transmitted: seq<Frame>, built: seq<Frame>) {
    forall f :: f in transmitted ==> f in built
  }

  // A resolved promise rests on an ok reply to a request for its envelope, a rejected one at
  // least on such a request.
  predicate Sound(built: seq<Frame>, acked: set<nat>, o: Outcome) {
    exists f :: f in built && f.item.ticket == o.ticket && (o.resolved ==> f.rid in acked)
  }

  predicate AllSound(built: seq<Frame>, acked: set<nat>, outcomes: seq<Outcome>) {
    forall o :: o in outcomes ==> Sound(built, acked, o)
  }

  ghost predicate Core(s: State) {
    && QueueIsTail(s.outbound, s.log.enqueued, s.log.shifted)
    && SettledOnce(s.pending, s.ridCounter, s.log.settled)
    && LoopsWait(s.loops, s.pending, s.log.built)
    && ThrownFit(s)
    && AllGenuine(s.log.enqueued, s.log.built)
    && SomeBuilt(s.log.transmitted, s.log.built)
    && AllSound(s.log.built, s.log.acked, s.log.outcomes)
  }

  // A loop will come back for the head of the queue.
  predicate Attended(s: State) {
    s.outbound != [] ==> s.loops != map[]
  }

  // What holds whatever the sockets do and the relay answers, and when.
  ghost predicate Valid(s: State) {
    && Core(s)
    && (s.status == Connected ==> Attended(s))
    && (s.socket != NoSocket || s.reconnectArmed || s.closedByUser || s.status == Disconnected)
  }

  // The head of the queue has been sent.
  predicate HeadSent(s: State) {
    s.outbound != [] ==> s.log.shifted < Reached(s.log.transmitted)
  }

  // First transmissions follow the queue, and nothing leaves it before.
  predicate Ordered(s: State) {
    && FirstInOrder(s.log.transmitted)
    && s.log.shifted <= Reached(s.log.transmitted)
    && (s.status == Connected ==> HeadSent(s))
  }

  // An ok reply to a drain loop that comes while the client is not connected finds the head of
  // the queue sent before, or no queue.
  predicate Timely(s: State, e: Event) {
    e.Reply? && e.ok && e.rid in s.loops && s.status != Connected ==> HeadSent(s)
  }

  lemma ReachedGrows(frames: seq<Frame>, f: Frame)
    ensures Reached(frames + [f]) == if f.item.ticket < Reached(frames) then Reached(frames) else f.item.ticket + 1
  {
    assert (frames + [f])[..|frames|] == frames;
  }

  lemma FirstInOrderGrows(frames: seq<Frame>, f: Frame)
    requires FirstInOrder(frames) && f.item.ticket <= Reached(frames)
    ensures FirstInOrder(frames + [f])
  {
    forall n | 0 <= n < |frames + [f]| ensures (frames + [f])[n].item.ticket <= Reached((frames + [f])[..n]) {
      assert (frames + [f])[..n] == frames[..n];
      assert frames[..|frames|] == frames;
    }
  }

  lemma SoundStays(before: seq<Frame>, acked: set<nat>, after: seq<Frame>, ackedAfter: set<nat>, outcomes: seq<Outcome>)
    requires AllSound(before, acked, outcomes) && acked <= ackedAfter
    requires forall f :: f in before ==> f in after
    ensures AllSound(after, ackedAfter, outcomes)
  {
    forall o | o in outcomes ensures Sound(after, ackedAfter, o) {
      var f :| f in before && f.item.ticket == o.ticket && (o.resolved ==> f.rid in acked);
      assert f in after;
    }
  }

  lemma DrainKeepsCore(s: State)
    requires Core(s)
    ensures Core(Drain(s)) && (s.status == Connected ==> Attended(Drain(s)))
  {
    if s.outbound != [] && s.status == Connected {
      RequestKeepsCore(s, Drain(s), Frame(s.ridCounter + 1, s.outbound[0]));
    }
  }

  lemma RequestKeepsCore(s: State, t: State, f: Frame)
    requires Core(s) && s.outbound != [] && f == Frame(s.ridCounter + 1, s.outbound[0])
    requires t == s.(ridCounter := f.rid, pending := s.pending + {f.rid}, loops := s.loops[f.rid := f.item],
                     thrown := t.thrown, log := s.log.(built := s.log.built + [f], transmitted := t.log.transmitted))
    requires t.thrown == if s.socket == Opening then s.thrown + {f.rid} else s.thrown
    requires t.log.transmitted == s.log.transmitted || t.log.transmitted == s.log.transmitted + [f]
    ensures Core(t) && Attended(t)
  {
    assert f.item == s.log.enqueued[s.log.shifted];
    SoundStays(s.log.built, s.log.acked, t.log.built, t.log.acked, t.log.outcomes);
    assert f.rid in t.loops;
  }

  lemma HeadKeepsOrder(frames: seq<Frame>, shifted: nat, f: Frame)
    requires FirstInOrder(frames) && shifted <= Reached(frames) && f.item.ticket == shifted
    ensures FirstInOrder(frames + [f]) && shifted < Reached(frames + [f])
  {
    ReachedGrows(frames, f);
    FirstInOrderGrows(frames, f);
  }

  // A drain that sends nothing leaves the order as it is, and the head as sent as it was.
  lemma SilentDrain(s: State)
    requires s.outbound == [] || s.status != Connected || s.socket != Open
    requires FirstInOrder(s.log.transmitted) && s.log.shifted <= Reached(s.log.transmitted)
    ensures Ordered(Drain(s)) <==> s.status != Connected || HeadSent(s)
  {
    assert Drain(s).log.transmitted == s.log.transmitted && Drain(s).log.shifted == s.log.shifted;
    assert Drain(s).outbound == s.outbound && Drain(s).status == s.status;
  }

  lemma SendingDrain(s: State)
    requires s.outbound != [] && s.status == Connected && s.socket == Open
    requires s.outbound[0].ticket == s.log.shifted
    requires FirstInOrder(s.log.transmitted) && s.log.shifted <= Reached(s.log.transmitted)
    ensures Ordered(Drain(s))
  {
    var f := Frame(s.ridCounter + 1, s.outbound[0]);
    HeadKeepsOrder(s.log.transmitted, s.log.shifted, f);
    assert Drain(s).log.transmitted == s.log.transmitted + [f];
  }

  // Draining over an open socket sends the head.
  lemma DrainKeepsOrder(s: State)
    requires s.outbound != [] ==> s.outbound[0].ticket == s.log.shifted
    requires FirstInOrder(s.log.transmitted) && s.log.shifted <= Reached(s.log.transmitted)
    ensures Ordered(Drain(s)) <==> s.status != Connected || s.socket == Open || HeadSent(s)
  {
    if s.outbound != [] && s.status == Connected && s.socket == Open {
      SendingDrain(s);
    } else {
      SilentDrain(s);
    }
  }

  // The head of the queue carries the number of items that have left it.
  lemma HeadIsNext(outbound: seq<Item>, enqueued: seq<Item>, shifted: nat)
    requires QueueIsTail(outbound, enqueued, shifted)
    ensures outbound != [] ==> outbound[0].ticket == shifted
    ensures |outbound| > 1 ==> outbound[1..][0].ticket == shifted + 1
  {
    assert outbound != [] ==> outbound[0] == enqueued[shifted];
    assert |outbound| > 1 ==> outbound[1] == enqueued[shifted + 1];
  }

  // Any loop may shift the head, whichever item it sent itself.
  lemma ShiftAndReportKeepCore(s: State, f: Frame, resolved: bool)
    requires Core(s) && f in s.log.built && (resolved ==> f.rid in s.log.acked)
    ensures Core(Report(Shift(s), f.item.ticket, resolved))
  {
    var t := Report(Shift(s), f.item.ticket, resolved);
    assert Sound(t.log.built, t.log.acked, Outcome(f.item.ticket, resolved));
  }

  lemma SettleKeepsSettledOnce(pending: set<nat>, ridCounter: nat, settled: multiset<nat>, gone: set<nat>)
    requires SettledOnce(pending, ridCounter, settled) && gone <= pending
    ensures SettledOnce(pending - gone, ridCounter, settled + multiset(gone))
  {
  }

  lemma AnsweredKeepsValid(s: State, rid: nat, ok: bool)
    requires Valid(s) && s.thrown == {} && (ok ==> rid in s.log.acked)
    ensures Valid(Answered(s, rid, ok))
  {
    if rid in s.pending {
      SettleKeepsSettledOnce(s.pending, s.ridCounter, s.log.settled, {rid});
      assert multiset({rid}) == multiset{rid};
      var s1 := Settle(s, rid);
      if rid in s.loops { WakeKeepsValid(s, s1, s1.(loops := s1.loops - {rid}), rid, ok); }
    }
  }

  lemma WokenIsCore(s: State, s1: State, s2: State, rid: nat)
    requires Core(s) && rid in s.loops
    requires (s1 == Settle(s, rid) && s.thrown == {}) || s1 == s.(thrown := s.thrown - {rid})
    requires s2 == s1.(loops := s1.loops - {rid}) && SettledOnce(s1.pending, s1.ridCounter, s1.log.settled)
    ensures Core(s2)
  {
  }

  // s1 is s with the request settled, or with its loop about to resume.
  lemma WakeKeepsValid(s: State, s1: State, s2: State, rid: nat, ok: bool)
    requires Valid(s) && (ok ==> rid in s.log.acked) && rid in s.loops
    requires (s1 == Settle(s, rid) && s.thrown == {}) || s1 == s.(thrown := s.thrown - {rid})
    requires s2 == s1.(loops := s1.loops - {rid}) && SettledOnce(s1.pending, s1.ridCounter, s1.log.settled)
    ensures Valid(Wake(s1, rid, ok))
  {
    WokenIsCore(s, s1, s2, rid);
    if ok || s.status == Connected {
      var f := Frame(rid, s.loops[rid]);
      ShiftAndReportKeepCore(s2, f, ok);
      DrainKeepsCore(Report(Shift(s2), f.item.ticket, ok));
    }
  }

  lemma ResumeKeepsValid(s: State, rid: nat)
    requires Valid(s) && rid in s.thrown
    ensures Valid(StepResume(s, rid))
  {
    var s1 := s.(thrown := s.thrown - {rid});
    WakeKeepsValid(s, s1, s1.(loops := s1.loops - {rid}), rid, false);
  }

  lemma SendEnvelopeKeepsValid(s: State, to: string, envelope: string)
    requires Valid(s)
    ensures Valid(StepSendEnvelope(s, to, envelope))
  {
    var item := Item(|s.log.enqueued|, to, envelope);
    var s1 := s.(outbound := s.outbound + [item], log := s.log.(enqueued := s.log.enqueued + [item]));
    assert Core(s1);
    if s.status == Connected { DrainKeepsCore(s1); }
  }

  lemma ReplyKeepsValid(s: State, rid: nat, ok: bool)
    requires Valid(s) && Enabled(s, Reply(rid, ok))
    ensures Valid(StepReply(s, rid, ok))
  {
    if ok {
      var s1 := s.(log := s.log.(acked := s.log.acked + {rid}));
      SoundStays(s.log.built, s.log.acked, s1.log.built, s1.log.acked, s.log.outcomes);
      AnsweredKeepsValid(s1, rid, ok);
    } else {
      AnsweredKeepsValid(s, rid, ok);
    }
  }

  lemma SocketClosedKeepsValid(s: State)
    requires Valid(s) && s.thrown == {}
    ensures Valid(StepSocketClosed(s)) && StepSocketClosed(s).loops == map[]
  {
    SettleKeepsSettledOnce(s.pending, s.ridCounter, s.log.settled, s.pending);
  }

  lemma AuthenticatedKeepsValid(s: State)
    requires Valid(s) && s.thrown == {} && EverStarted(s)
    ensures Valid(StepAuthenticated(s))
  {
    DrainKeepsCore(s.(status := Connected, reconnectAttempts := 0));
  }

  // Whatever the timing of sends, authentications, replies, timeouts, drops, stops and
  // reconnects, whatever socket there is or is not, and however many drain loops run at once.
  lemma StepKeepsValid(s: State, e: Event)
    requires Valid(s) && Enabled(s, e)
    ensures Valid(Step(s, e))
  {
    match e {
      case Authenticated => AuthenticatedKeepsValid(s);
      case SendEnvelope(to, envelope) => SendEnvelopeKeepsValid(s, to, envelope);
      case Reply(rid, ok) => ReplyKeepsValid(s, rid, ok);
      case RequestTimeout(rid) => AnsweredKeepsValid(s, rid, false);
      case SocketClosed => SocketClosedKeepsValid(s);
      case Resume(rid) => ResumeKeepsValid(s, rid);
      case _ =>
    }
  }

  lemma {:induction false} RunKeepsValid(s: State, events: seq<Event>, t: State)
    requires Valid(s) && Runs(s, events, t)
    ensures Valid(t)
    decreases |events|
  {
    if events != [] {
      StepKeepsValid(s, events[0]);
      RunKeepsValid(Step(s, events[0]), events[1..], t);
    }
  }

  lemma {:induction false} RunsOn(s: State, events: seq<Event>, mid: State, e: Event)
    requires Runs(s, events, mid) && Enabled(mid, e)
    ensures Runs(s, events + [e], Step(mid, e))
    decreases |events|
  {
    if events == [] {
      assert [e][1..] == [];
      assert Runs(Step(s, e), [], Step(mid, e));
    } else {
      RunsOn(Step(s, events[0]), events[1..], mid, e);
      assert (events + [e])[1..] == events[1..] + [e];
    }
  }

  lemma {:induction false} RunsJoin(s: State, events: seq<Event>, mid: State, more: seq<Event>, t: State)
    requires Runs(s, events, mid) && Runs(mid, more, t)
    ensures Runs(s, events + more, t)
    decreases |events|
  {
    if events == [] {
      assert events + more == more;
    } else {
      var all := events + more;
      assert all[0] == events[0] && all[1..] == events[1..] + more;
      RunsJoin(Step(s, events[0]), events[1..], mid, more, t);
    }
  }

  // --- the order of transmissions ---

  // The item behind the head has been sent.
  predicate NextSent(s: State) {
    |s.outbound| > 1 ==> s.log.shifted + 1 < Reached(s.log.transmitted)
  }

  // No drain takes up an unsent item while the socket is not open.
  predicate Carried(s: State, e: Event) {
    match e
    case Authenticated => s.socket == Open || HeadSent(s)
    case SendEnvelope(_, _) => s.status == Connected && s.outbound == [] ==> s.socket == Open
    case Reply(rid, _) => rid in s.loops && s.status == Connected ==> s.socket == Open || NextSent(s)
    case RequestTimeout(rid) => rid in s.loops && s.status == Connected ==> s.socket == Open || NextSent(s)
    case Resume(_) => s.status == Connected ==> s.socket == Open || NextSent(s)
    case _ => true
  }

  lemma WakeIsOrderedExactly(s: State, rid: nat, ok: bool)
    requires QueueIsTail(s.outbound, s.log.enqueued, s.log.shifted) && Ordered(s) && rid in s.loops
    ensures Ordered(Wake(s, rid, ok)) <==>
      if s.status == Connected then s.socket == Open || NextSent(s) else ok ==> HeadSent(s)
  {
    if ok || s.status == Connected {
      var t := Report(Shift(s.(loops := s.loops - {rid})), s.loops[rid].ticket, ok);
      HeadIsNext(s.outbound, s.log.enqueued, s.log.shifted);
      if s.status == Connected || HeadSent(s) { DrainKeepsOrder(t); }
    }
  }

  lemma AnsweredIsOrderedExactly(s: State, rid: nat, ok: bool)
    requires QueueIsTail(s.outbound, s.log.enqueued, s.log.shifted) && Ordered(s) && s.loops.Keys <= s.pending
    ensures Ordered(Answered(s, rid, ok)) <==>
      (rid in s.loops ==>
        if s.status == Connected then s.socket == Open || NextSent(s) else ok ==> HeadSent(s))
  {
    if rid in s.loops {
      SameOrder(s, Settle(s, rid));
      WakeIsOrderedExactly(Settle(s, rid), rid, ok);
    }
  }

  lemma SendEnvelopeIsOrderedExactly(s: State, to: string, envelope: string)
    requires Valid(s) && Ordered(s)
    ensures Ordered(StepSendEnvelope(s, to, envelope)) <==> Carried(s, SendEnvelope(to, envelope))
  {
    var item := Item(|s.log.enqueued|, to, envelope);
    var s1 := s.(outbound := s.outbound + [item], log := s.log.(enqueued := s.log.enqueued + [item]));
    HeadIsNext(s.outbound, s.log.enqueued, s.log.shifted);
    if s.status == Connected { DrainKeepsOrder(s1); }
    AllSent(s);
  }

  // Nothing beyond what was enqueued has been sent.
  lemma {:induction false} AllSent(s: State)
    requires Valid(s)
    ensures Reached(s.log.transmitted) <= |s.log.enqueued|
  {
    ReachedIsEnqueued(s.log.transmitted, s.log.enqueued);
  }

  lemma {:induction false} ReachedIsEnqueued(frames: seq<Frame>, enqueued: seq<Item>)
    requires AllGenuine(enqueued, frames)
    ensures Reached(frames) <= |enqueued|
    decreases |frames|
  {
    if frames != [] {
      assert frames[|frames| - 1] in frames;
      assert forall f :: f in frames[..|frames| - 1] ==> f in frames;
      ReachedIsEnqueued(frames[..|frames| - 1], enqueued);
    }
  }

  lemma SameOrder(s: State, t: State)
    requires t.status == s.status && t.outbound == s.outbound
    requires t.log.transmitted == s.log.transmitted && t.log.shifted == s.log.shifted
    ensures Ordered(t) <==> Ordered(s)
    ensures (HeadSent(t) <==> HeadSent(s)) && (NextSent(t) <==> NextSent(s))
  {
  }

  lemma AuthenticatedIsOrderedExactly(s: State)
    requires Valid(s) && Ordered(s)
    ensures Ordered(StepAuthenticated(s)) <==> s.socket == Open || HeadSent(s)
  {
    HeadIsNext(s.outbound, s.log.enqueued, s.log.shifted);
    DrainKeepsOrder(s.(status := Connected, reconnectAttempts := 0));
  }

  lemma AckChangesNoOrder(s: State, rid: nat, ok: bool)
    requires QueueIsTail(s.outbound, s.log.enqueued, s.log.shifted) && Ordered(s) && s.loops.Keys <= s.pending
    ensures Ordered(StepReply(s, rid, ok)) <==>
      (rid in s.loops ==>
        if s.status == Connected then s.socket == Open || NextSent(s) else ok ==> HeadSent(s))
  {
    if ok {
      var s1 := s.(log := s.log.(acked := s.log.acked + {rid}));
      SameOrder(s, s1);
      AnsweredIsOrderedExactly(s1, rid, true);
    } else {
      AnsweredIsOrderedExactly(s, rid, false);
    }
  }

  lemma LoopsArePending(s: State)
    requires Valid(s)
    ensures s.loops.Keys <= s.pending && QueueIsTail(s.outbound, s.log.enqueued, s.log.shifted)
  {
  }

  lemma ResumeIsOrderedExactly(s: State, rid: nat)
    requires QueueIsTail(s.outbound, s.log.enqueued, s.log.shifted) && Ordered(s) && rid in s.thrown && rid in s.loops
    ensures Ordered(StepResume(s, rid)) <==> (s.status == Connected ==> s.socket == Open || NextSent(s))
  {
    var s1 := s.(thrown := s.thrown - {rid});
    SameOrder(s, s1);
    assert StepResume(s, rid) == Wake(s1, rid, false);
    WakeIsOrderedExactly(s1, rid, false);
  }

  // The order, and that a connected client's head has been sent, is kept by an event exactly
  // when no ok reply wakes a drain loop of an earlier connection while the head has not been
  // sent, and no drain takes up an unsent item without an open socket.
  lemma OrderIsExact(s: State, e: Event)
    requires Valid(s) && Ordered(s) && Enabled(s, e)
    ensures Ordered(Step(s, e)) <==> Timely(s, e) && Carried(s, e)
  {
    match e {
      case Authenticated => AuthenticatedIsOrderedExactly(s);
      case SendEnvelope(to, envelope) => SendEnvelopeIsOrderedExactly(s, to, envelope);
      case Reply(rid, ok) =>
        LoopsArePending(s);
        AckChangesNoOrder(s, rid, ok);
      case RequestTimeout(rid) =>
        LoopsArePending(s);
        AnsweredIsOrderedExactly(s, rid, false);
      case Resume(rid) =>
        LoopsArePending(s);
        ResumeIsOrderedExactly(s, rid);
      case _ =>
    }
  }

  predicate OrderedRun(s: State, events: seq<Event>, t: State)
    decreases |events|
  {
    if events == [] then t == s
    else
      && Enabled(s, events[0]) && Timely(s, events[0]) && Carried(s, events[0])
      && OrderedRun(Step(s, events[0]), events[1..], t)
  }

  lemma {:induction false} OrderedRunKeepsOrder(s: State, events: seq<Event>, t: State)
    requires Valid(s) && Ordered(s) && OrderedRun(s, events, t)
    ensures Valid(t) && Ordered(t)
    decreases |events|
  {
    if events != [] {
      StepKeepsValid(s, events[0]);
      OrderIsExact(s, events[0]);
      OrderedRunKeepsOrder(Step(s, events[0]), events[1..], t);
    }
  }

  lemma {:induction false} ReachedMeansSent(frames: seq<Frame>, ticket: nat) returns (n: nat)
    requires FirstInOrder(frames) && ticket < Reached(frames)
    ensures n < |frames| && frames[n].item.ticket == ticket
    decreases |frames|
  {
    var last := |frames| - 1;
    if ticket < Reached(frames[..last]) {
      forall k | 0 <= k < last ensures frames[..last][k].item.ticket <= Reached(frames[..last][..k]) {
        assert frames[..last][..k] == frames[..k];
      }
      n := ReachedMeansSent(frames[..last], ticket);
    } else {
      n := last;
    }
  }

  // Items are first transmitted in the order they were enqueued: before a frame carries
  // ticket j, some earlier frame carried every i below j, with the item that was enqueued as i.
  lemma FirstSentInOrder(events: seq<Event>, t: State, n: nat, i: nat) returns (m: nat)
    requires OrderedRun(INITIAL, events, t)
    requires n < |t.log.transmitted| && i < t.log.transmitted[n].item.ticket
    ensures i < |t.log.enqueued| && m < n && t.log.transmitted[m].item == t.log.enqueued[i]
  {
    OrderedRunKeepsOrder(INITIAL, events, t);
    var frames := t.log.transmitted[..n];
    forall k | 0 <= k < |frames| ensures frames[k].item.ticket <= Reached(frames[..k]) {
      assert frames[..k] == t.log.transmitted[..k];
    }
    assert t.log.transmitted[n].item.ticket <= Reached(frames);
    m := ReachedMeansSent(frames, i);
    assert Genuine(t.log.enqueued, t.log.transmitted[m]);
  }

  // Nothing leaves the queue before it was transmitted.
  lemma ShiftedMeansSent(events: seq<Event>, t: State, i: nat) returns (n: nat)
    requires OrderedRun(INITIAL, events, t) && i < t.log.shifted
    ensures t.log.shifted + |t.outbound| == |t.log.enqueued|
    ensures n < |t.log.transmitted| && t.log.transmitted[n].item == t.log.enqueued[i]
  {
    OrderedRunKeepsOrder(INITIAL, events, t);
    n := ReachedMeansSent(t.log.transmitted, i);
    assert Genuine(t.log.enqueued, t.log.transmitted[n]);
  }

  // A sendEnvelope promise resolves only after an ok reply to a request made for its own
  // envelope.
  lemma ResolvedMeansAccepted(events: seq<Event>, t: State, ticket: nat) returns (f: Frame)
    requires Runs(INITIAL, events, t) && Outcome(ticket, true) in t.log.outcomes
    ensures f in t.log.built && f.rid in t.log.acked
    ensures ticket < |t.log.enqueued| && f.item == t.log.enqueued[ticket]
  {
    RunKeepsValid(INITIAL, events, t);
    assert Sound(t.log.built, t.log.acked, Outcome(ticket, true));
    f :| f in t.log.built && f.item.ticket == ticket && f.rid in t.log.acked;
    assert Genuine(t.log.enqueued, f);
  }

  // Each request id is in exactly one place: not used yet, pending, or settled once.
  lemma EachRequestSettlesOnce(events: seq<Event>, t: State, rid: nat)
    requires Runs(INITIAL, events, t)
    ensures t.log.settled[rid] <= 1
    ensures t.log.settled[rid] == 1 <==> 1 <= rid <= t.ridCounter && rid !in t.pending
    ensures rid in t.pending ==> 1 <= rid <= t.ridCounter
  {
    RunKeepsValid(INITIAL, events, t);
  }

  lemma {:induction false} FrameIsReached(frames: seq<Frame>, f: Frame)
    requires f in frames
    ensures f.item.ticket < Reached(frames)
    decreases |frames|
  {
    var last := |frames| - 1;
    if f != frames[last] {
      assert f in frames[..last];
      FrameIsReached(frames[..last], f);
    }
  }
}
