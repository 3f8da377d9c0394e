// Inputs on which the order of the queue fails, and what an honest relay adds.
module RelayRuns {
  import opened RelayMachine
  import opened RelayProofs

  // --- where the order needs the replies to be timely ---

  // A stopped client with two loops that both sent the head before.
  predicate TwoLeftBehind(s: State, r: nat, q: nat) {
    && r != q && r in s.loops && q in s.loops && s.loops.Keys <= s.pending && s.status != Connected && s.thrown == {}
    && |s.outbound| >= 2 && s.log.shifted + 1 == Reached(s.log.transmitted)
  }

  predicate NeverSent(s: State, ticket: nat) {
    forall f :: f in s.log.transmitted ==> f.item.ticket != ticket
  }

  lemma LateReplyShifts(s: State, rid: nat)
    requires rid in s.loops && rid in s.pending && s.status != Connected && s.outbound != []
    ensures var t := StepReply(s, rid, true);
      && t.outbound == s.outbound[1..] && t.log.shifted == s.log.shifted + 1 && t.log.transmitted == s.log.transmitted
      && t.loops == s.loops - {rid} && t.pending == s.pending - {rid} && t.status == s.status && t.thrown == s.thrown
  {
  }

  // Two late ok replies shift the head and an item that was never sent.
  lemma LateRepliesShiftUnsent(s: State, r: nat, q: nat)
    requires TwoLeftBehind(s, r, q)
    ensures var t := Step(Step(s, Reply(r, true)), Reply(q, true));
      t.log.shifted == s.log.shifted + 2 && NeverSent(t, s.log.shifted + 1)
  {
    LateReplyShifts(s, r);
    LateReplyShifts(StepReply(s, r, true), q);
    forall f | f in s.log.transmitted ensures f.item.ticket != s.log.shifted + 1 {
      FrameIsReached(s.log.transmitted, f);
    }
  }

  const HEAD := Item(0, "x", "first")

  // Online, a send, a stop and a start while it is under way, a second loop on the same item,
  // another stop, and an item that waits for the next connection.
  const RESTARTS: seq<Event> := [
    Event.Start, SocketOpens, Authenticated, SendEnvelope("x", "first"), Event.Stop,
    Event.Start, SocketOpens, Authenticated, Event.Stop, SendEnvelope("x", "second")]

  lemma OnlineWithHead(s: State) returns (t: State)
    requires s == INITIAL
    ensures Runs(s, RESTARTS[..4], t)
    ensures t.status == Connected && t.outbound == [HEAD] && t.loops == map[1 := HEAD] && t.pending == {1}
    ensures t.thrown == {} && t.ridCounter == 1 && t.log.transmitted == [Frame(1, HEAD)]
    ensures t.log.shifted == 0 && t.log.enqueued == [HEAD]
  {
    var s1 := Step(s, Event.Start);
    var s2 := Step(s1, SocketOpens);
    var s3 := Step(s2, Authenticated);
    t := Step(s3, SendEnvelope("x", "first"));
    RunsOn(s, [], s, Event.Start);
    RunsOn(s, [] + [Event.Start], s1, SocketOpens);
    RunsOn(s, [] + [Event.Start] + [SocketOpens], s2, Authenticated);
    RunsOn(s, [] + [Event.Start] + [SocketOpens] + [Authenticated], s3, SendEnvelope("x", "first"));
    assert RESTARTS[..4] == [] + [Event.Start] + [SocketOpens] + [Authenticated] + [SendEnvelope("x", "first")];
  }

  lemma OnlineAgain(s: State) returns (t: State)
    requires s.status == Connected && s.outbound == [HEAD] && s.loops == map[1 := HEAD] && s.pending == {1}
    requires s.thrown == {} && s.ridCounter == 1 && s.log.transmitted == [Frame(1, HEAD)]
    requires s.log.shifted == 0 && s.log.enqueued == [HEAD]
    ensures Runs(s, RESTARTS[4..8], t)
    ensures t.status == Connected && t.outbound == [HEAD] && t.loops == map[1 := HEAD, 2 := HEAD]
    ensures t.pending == {1, 2} && t.thrown == {} && t.log.shifted == 0 && Reached(t.log.transmitted) == 1
  {
    var s1 := Step(s, Event.Stop);
    var s2 := Step(s1, Event.Start);
    var s3 := Step(s2, SocketOpens);
    t := Step(s3, Authenticated);
    RunsOn(s, [], s, Event.Stop);
    RunsOn(s, [] + [Event.Stop], s1, Event.Start);
    RunsOn(s, [] + [Event.Stop] + [Event.Start], s2, SocketOpens);
    RunsOn(s, [] + [Event.Stop] + [Event.Start] + [SocketOpens], s3, Authenticated);
    assert RESTARTS[4..8] == [] + [Event.Stop] + [Event.Start] + [SocketOpens] + [Authenticated];
    ReachedOne(t.log.transmitted);
  }

  lemma StopAndSend(s: State) returns (t: State)
    requires s.status == Connected && s.outbound == [HEAD] && s.loops == map[1 := HEAD, 2 := HEAD]
    requires s.pending == {1, 2} && s.thrown == {} && s.log.shifted == 0 && Reached(s.log.transmitted) == 1
    ensures Runs(s, RESTARTS[8..], t) && TwoLeftBehind(t, 1, 2)
  {
    var s1 := Step(s, Event.Stop);
    t := Step(s1, SendEnvelope("x", "second"));
    RunsOn(s, [], s, Event.Stop);
    RunsOn(s, [] + [Event.Stop], s1, SendEnvelope("x", "second"));
    assert RESTARTS[8..] == [] + [Event.Stop] + [SendEnvelope("x", "second")];
    assert |[HEAD] + [Item(|s.log.enqueued|, "x", "second")]| == 2;
  }

  lemma ReachedOne(frames: seq<Frame>)
    requires frames == [Frame(1, HEAD), Frame(2, HEAD)]
    ensures Reached(frames) == 1
  {
    assert frames[..1] == [Frame(1, HEAD)] && frames[..1][..0] == [];
    assert Reached(frames[..1]) == 1;
  }

  // The state of LateRepliesShiftUnsent is reached.
  lemma RestartsLeaveTwoBehind() returns (t: State)
    ensures Runs(INITIAL, RESTARTS, t) && TwoLeftBehind(t, 1, 2)
  {
    var s4 := OnlineWithHead(INITIAL);
    var s8 := OnlineAgain(s4);
    t := StopAndSend(s8);
    RunsJoin(INITIAL, RESTARTS[..4], s4, RESTARTS[4..8], s8);
    RunsJoin(INITIAL, RESTARTS[..4] + RESTARTS[4..8], s8, RESTARTS[8..], t);
    assert RESTARTS == RESTARTS[..4] + RESTARTS[4..8] + RESTARTS[8..];
  }

  // --- where the order needs an open socket ---

  // A drain that takes up an unsent item without an open socket leaves a loop, and once its
  // request has timed out, or thrown, the item leaves the queue unsent and its promise rejected.
  lemma UncarriedLeavesUnsent(s: State, e: Event)
    requires Valid(s) && Ordered(s) && Enabled(s, e) && Timely(s, e) && !Carried(s, e)
    ensures var t := Step(s, e);
      var rid := t.ridCounter;
      var end := if rid in t.thrown then Resume(rid) else RequestTimeout(rid);
      && t.status == Connected && t.outbound != [] && t.socket != Open && rid in t.loops
      && t.loops[rid] == t.outbound[0] && NeverSent(t, t.log.shifted)
      && Enabled(t, end)
      && Step(t, end).log.shifted == t.log.shifted + 1
      && Step(t, end).log.outcomes == t.log.outcomes + [Outcome(t.log.shifted, false)]
  {
    var t := Step(s, e);
    StepKeepsValid(s, e);
    OrderIsExact(s, e);
    UncarriedDrains(s, e);
    HeadIsNext(t.outbound, t.log.enqueued, t.log.shifted);
    forall f | f in t.log.transmitted ensures f.item.ticket != t.log.shifted { FrameIsReached(t.log.transmitted, f); }
    UnsentEndShifts(t);
  }

  predicate TookUnsent(t: State) {
    && t.status == Connected && t.outbound != [] && t.socket != Open && t.log.shifted == Reached(t.log.transmitted)
    && t.ridCounter in t.loops && t.loops[t.ridCounter] == t.outbound[0]
    && (if t.socket == Opening then t.ridCounter in t.thrown else t.thrown == {})
  }

  lemma DrainTakesUnsent(s: State)
    requires s.status == Connected && s.outbound != [] && s.socket != Open && (s.thrown != {} ==> s.socket == Opening)
    requires s.log.shifted == Reached(s.log.transmitted)
    ensures TookUnsent(Drain(s))
  {
  }

  lemma WakeTakesUnsent(s: State, rid: nat, ok: bool)
    requires rid in s.loops && s.status == Connected && s.socket != Open && (s.thrown != {} ==> s.socket == Opening)
    requires |s.outbound| > 1 && s.log.shifted + 1 == Reached(s.log.transmitted)
    ensures TookUnsent(Wake(s, rid, ok))
  {
    DrainTakesUnsent(Report(Shift(s.(loops := s.loops - {rid})), s.loops[rid].ticket, ok));
  }

  // Such an event ends in a drain that takes the head.
  lemma UncarriedDrains(s: State, e: Event)
    requires Valid(s) && Ordered(s) && Enabled(s, e) && Timely(s, e) && !Carried(s, e)
    ensures TookUnsent(Step(s, e))
  {
    match e {
      case Authenticated => DrainTakesUnsent(s.(status := Connected, reconnectAttempts := 0));
      case SendEnvelope(to, envelope) =>
        AllSent(s);
        var item := Item(|s.log.enqueued|, to, envelope);
        DrainTakesUnsent(s.(outbound := s.outbound + [item], log := s.log.(enqueued := s.log.enqueued + [item])));
      case Reply(rid, ok) =>
        var s1 := if ok then s.(log := s.log.(acked := s.log.acked + {rid})) else s;
        WakeTakesUnsent(Settle(s1, rid), rid, ok);
      case RequestTimeout(rid) => WakeTakesUnsent(Settle(s, rid), rid, false);
      case Resume(rid) => WakeTakesUnsent(s.(thrown := s.thrown - {rid}), rid, false);
      case _ =>
    }
  }

  lemma UnsentEndShifts(t: State)
    requires Valid(t) && t.status == Connected && t.outbound != [] && t.ridCounter in t.loops
    requires t.loops[t.ridCounter].ticket == t.log.shifted
    requires t.thrown == {} || t.ridCounter in t.thrown
    ensures var end := if t.ridCounter in t.thrown then Resume(t.ridCounter) else RequestTimeout(t.ridCounter);
      && Step(t, end).log.shifted == t.log.shifted + 1
      && Step(t, end).log.outcomes == t.log.outcomes + [Outcome(t.log.shifted, false)]
  {
  }

  // Three such runs of a new client. A frame of the first socket authenticates a client that
  // was stopped.
  lemma StoppedClientRejectsUnsent() returns (t: State)
    ensures Runs(INITIAL, [Event.Start, Event.Stop, Authenticated, SendEnvelope("x", "first"), RequestTimeout(1)], t)
    ensures t.log.shifted == 1 && t.log.transmitted == [] && t.log.outcomes == [Outcome(0, false)]
  {
    var s2 := Step(Step(INITIAL, Event.Start), Event.Stop);
    var s3 := Step(s2, Authenticated);
    t := FirstTimesOut(s3);
    RunsOn(INITIAL, [], INITIAL, Event.Start);
    RunsOn(INITIAL, [] + [Event.Start], Step(INITIAL, Event.Start), Event.Stop);
    RunsOn(INITIAL, [] + [Event.Start] + [Event.Stop], s2, Authenticated);
    var so := [] + [Event.Start] + [Event.Stop] + [Authenticated];
    RunsJoin(INITIAL, so, s3, [SendEnvelope("x", "first"), RequestTimeout(1)], t);
    assert so + [SendEnvelope("x", "first"), RequestTimeout(1)]
        == [Event.Start, Event.Stop, Authenticated, SendEnvelope("x", "first"), RequestTimeout(1)];
  }

  // Connected with no socket and an empty queue: the first item times out.
  lemma FirstTimesOut(s: State) returns (t: State)
    requires s.status == Connected && s.socket == NoSocket && s.outbound == [] && s.loops == map[] && s.pending == {}
    requires s.thrown == {} && s.ridCounter == 0 && s.log == INITIAL.log
    ensures Runs(s, [SendEnvelope("x", "first"), RequestTimeout(1)], t)
    ensures t.log.shifted == 1 && t.log.transmitted == [] && t.log.outcomes == [Outcome(0, false)]
  {
    var s1 := Step(s, SendEnvelope("x", "first"));
    assert s1.outbound == [HEAD] && s1.loops == map[1 := HEAD] && s1.pending == {1};
    t := Step(s1, RequestTimeout(1));
    RunsOn(s, [], s, SendEnvelope("x", "first"));
    RunsOn(s, [] + [SendEnvelope("x", "first")], s1, RequestTimeout(1));
    assert [] + [SendEnvelope("x", "first")] + [RequestTimeout(1)] == [SendEnvelope("x", "first"), RequestTimeout(1)];
  }

  // The late close of a stopped socket drops the new one, which then authenticates.
  lemma LateCloseRejectsUnsent() returns (t: State)
    ensures Runs(INITIAL, [Event.Start, Event.Stop, Event.Start, SocketClosed, Authenticated,
                           SendEnvelope("x", "first"), RequestTimeout(1)], t)
    ensures t.log.shifted == 1 && t.log.transmitted == [] && t.log.outcomes == [Outcome(0, false)]
  {
    var s1 := Step(INITIAL, Event.Start);
    var s2 := Step(s1, Event.Stop);
    var s3 := Step(s2, Event.Start);
    var s4 := Step(s3, SocketClosed);
    var s5 := Step(s4, Authenticated);
    assert s4.log.settled == multiset{} && s4.loops == map[];
    t := FirstTimesOut(s5);
    RunsOn(INITIAL, [], INITIAL, Event.Start);
    RunsOn(INITIAL, [] + [Event.Start], s1, Event.Stop);
    RunsOn(INITIAL, [] + [Event.Start] + [Event.Stop], s2, Event.Start);
    RunsOn(INITIAL, [] + [Event.Start] + [Event.Stop] + [Event.Start], s3, SocketClosed);
    RunsOn(INITIAL, [] + [Event.Start] + [Event.Stop] + [Event.Start] + [SocketClosed], s4, Authenticated);
    var so := [] + [Event.Start] + [Event.Stop] + [Event.Start] + [SocketClosed] + [Authenticated];
    RunsJoin(INITIAL, so, s5, [SendEnvelope("x", "first"), RequestTimeout(1)], t);
    assert so + [SendEnvelope("x", "first"), RequestTimeout(1)]
        == [Event.Start, Event.Stop, Event.Start, SocketClosed, Authenticated,
            SendEnvelope("x", "first"), RequestTimeout(1)];
  }

  // A frame of the first socket authenticates while the second is still opening: whatever is
  // queued is rejected at once.
  lemma OpeningSocketRejectsUnsent() returns (t: State)
    ensures Runs(INITIAL, [SendEnvelope("x", "first"), Event.Start, Event.Stop, Event.Start, Authenticated,
                           Resume(1)], t)
    ensures t.log.shifted == 1 && t.log.transmitted == [] && t.log.outcomes == [Outcome(0, false)]
  {
    var s1 := Step(INITIAL, SendEnvelope("x", "first"));
    var s2 := Step(s1, Event.Start);
    var s3 := Step(s2, Event.Stop);
    var s4 := Step(s3, Event.Start);
    var s5 := Step(s4, Authenticated);
    assert s5.outbound == [HEAD] && s5.loops == map[1 := HEAD] && s5.thrown == {1};
    t := Step(s5, Resume(1));
    RunsOn(INITIAL, [], INITIAL, SendEnvelope("x", "first"));
    RunsOn(INITIAL, [] + [SendEnvelope("x", "first")], s1, Event.Start);
    RunsOn(INITIAL, [] + [SendEnvelope("x", "first")] + [Event.Start], s2, Event.Stop);
    RunsOn(INITIAL, [] + [SendEnvelope("x", "first")] + [Event.Start] + [Event.Stop], s3, Event.Start);
    var so := [] + [SendEnvelope("x", "first")] + [Event.Start] + [Event.Stop] + [Event.Start];
    RunsOn(INITIAL, so, s4, Authenticated);
    RunsOn(INITIAL, so + [Authenticated], s5, Resume(1));
    assert so + [Authenticated] + [Resume(1)]
        == [SendEnvelope("x", "first"), Event.Start, Event.Stop, Event.Start, Authenticated, Resume(1)];
  }

  // --- a relay that acknowledges what it received ---

  // It acknowledges no request that did not go out over an open socket.
  predicate Honest(s: State, e: Event) {
    e.Reply? && e.ok ==>
      e.rid <= s.ridCounter && forall f :: f in s.log.built && f.rid == e.rid ==> f in s.log.transmitted
  }

  predicate HonestRun(s: State, events: seq<Event>, t: State)
    decreases |events|
  {
    if events == [] then t == s
    else Enabled(s, events[0]) && Honest(s, events[0]) && HonestRun(Step(s, events[0]), events[1..], t)
  }

  predicate AckedWereSent(s: State) {
    && (forall r :: r in s.log.acked ==> r <= s.ridCounter)
    && (forall f :: f in s.log.built && f.rid in s.log.acked ==> f in s.log.transmitted)
  }

  // Requests only get added, under ids not used before.
  predicate Later(s: State, t: State) {
    && s.ridCounter <= t.ridCounter && t.log.acked == s.log.acked
    && (forall f :: f in s.log.transmitted ==> f in t.log.transmitted)
    && (forall f :: f in t.log.built && f !in s.log.built ==> f.rid > s.ridCounter)
  }

  lemma LaterKeepsSent(s: State, t: State)
    requires AckedWereSent(s) && Later(s, t)
    ensures AckedWereSent(t)
  {
  }

  lemma DrainIsLater(s: State)
    ensures Later(s, Drain(s))
  {
  }

  lemma WakeIsLater(s: State, rid: nat, ok: bool)
    requires rid in s.loops
    ensures Later(s, Wake(s, rid, ok))
  {
    DrainIsLater(Report(Shift(s.(loops := s.loops - {rid})), s.loops[rid].ticket, ok));
  }

  lemma AnsweredIsLater(s: State, rid: nat, ok: bool)
    ensures Later(s, Answered(s, rid, ok))
  {
    if rid in s.pending && rid in s.loops { WakeIsLater(Settle(s, rid), rid, ok); }
  }

  lemma StepKeepsSent(s: State, e: Event)
    requires AckedWereSent(s) && Enabled(s, e) && Honest(s, e)
    ensures AckedWereSent(Step(s, e))
  {
    match e {
      case Authenticated =>
        DrainIsLater(s.(status := Connected, reconnectAttempts := 0));
        LaterKeepsSent(s, Step(s, e));
      case SendEnvelope(to, envelope) =>
        var item := Item(|s.log.enqueued|, to, envelope);
        DrainIsLater(s.(outbound := s.outbound + [item], log := s.log.(enqueued := s.log.enqueued + [item])));
        LaterKeepsSent(s, Step(s, e));
      case Reply(rid, ok) =>
        var s1 := if ok then s.(log := s.log.(acked := s.log.acked + {rid})) else s;
        AnsweredIsLater(s1, rid, ok);
        LaterKeepsSent(s1, Step(s, e));
      case RequestTimeout(rid) =>
        AnsweredIsLater(s, rid, false);
        LaterKeepsSent(s, Step(s, e));
      case Resume(rid) =>
        if rid in s.loops { WakeIsLater(s.(thrown := s.thrown - {rid}), rid, false); }
        LaterKeepsSent(s, Step(s, e));
      case _ => LaterKeepsSent(s, Step(s, e));
    }
  }

  lemma {:induction false} HonestRunKeepsSent(s: State, events: seq<Event>, t: State)
    requires AckedWereSent(s) && HonestRun(s, events, t)
    ensures AckedWereSent(t) && Runs(s, events, t)
    decreases |events|
  {
    if events != [] {
      StepKeepsSent(s, events[0]);
      HonestRunKeepsSent(Step(s, events[0]), events[1..], t);
    }
  }

  // With such a relay a promise resolves only when an open socket took its envelope.
  lemma ResolvedMeansSent(events: seq<Event>, t: State, ticket: nat) returns (f: Frame)
    requires HonestRun(INITIAL, events, t) && Outcome(ticket, true) in t.log.outcomes
    ensures f in t.log.transmitted && f.rid in t.log.acked
    ensures ticket < |t.log.enqueued| && f.item == t.log.enqueued[ticket]
  {
    HonestRunKeepsSent(INITIAL, events, t);
    f := ResolvedMeansAccepted(events, t, ticket);
  }
}
