// What a single drain loop adds: nothing is lost, nothing is settled twice. The code does not
// enforce a single loop, so the condition is spelled out and shown to be exact.
module RelayConservation {
  import opened RelayMachine
  import opened RelayProofs

  // A drain loop starts at onAuthenticated and at every sendEnvelope while connected.
  predicate StartsLoop(s: State, e: Event) {
    e.Authenticated? || (e.SendEnvelope? && s.status == Connected)
  }

  // The event starts no loop beside a running one.
  predicate Exclusive(s: State, e: Event) {
    StartsLoop(s, e) ==> s.loops == map[]
  }

  predicate ExclusiveRun(s: State, events: seq<Event>, t: State)
    decreases |events|
  {
    if events == [] then t == s
    else Enabled(s, events[0]) && Exclusive(s, events[0]) && ExclusiveRun(Step(s, events[0]), events[1..], t)
  }

  function OutcomeTickets(outcomes: seq<Outcome>): seq<nat> {
    seq(|outcomes|, i requires 0 <= i < |outcomes| => outcomes[i].ticket)
  }

  function QueueTickets(outbound: seq<Item>): seq<nat> {
    seq(|outbound|, i requires 0 <= i < |outbound| => outbound[i].ticket)
  }

  predicate InTurn(outcomes: seq<Outcome>, shifted: nat) {
    |outcomes| == shifted && forall i :: 0 <= i < shifted ==> outcomes[i].ticket == i
  }

  predicate AtMostOneLoop(loops: map<nat, Item>, outbound: seq<Item>) {
    && (forall r :: r in loops ==> outbound != [] && loops[r] == outbound[0])
    && forall r, q :: r in loops && q in loops ==> r == q
  }

  predicate Turns(s: State) {
    InTurn(s.log.outcomes, s.log.shifted) && AtMostOneLoop(s.loops, s.outbound)
  }

  predicate Tailed(s: State) {
    QueueIsTail(s.outbound, s.log.enqueued, s.log.shifted)
  }

  ghost predicate Solo(s: State) {
    Valid(s) && Turns(s)
  }

  // The item left the queue, no outcome was reported for it and no loop will report one.
  predicate Lost(s: State, ticket: nat) {
    && ticket < s.log.shifted
    && (forall o :: o in s.log.outcomes ==> o.ticket != ticket)
    && forall r :: r in s.loops ==> s.loops[r].ticket != ticket
  }

  ghost predicate CanLose(s: State) {
    exists events: seq<Event>, t, ticket: nat :: Runs(s, events, t) && Lost(t, ticket)
  }

  // A drain from a state without loops starts the one loop, on the head.
  lemma DrainKeepsTurn(s: State)
    requires s.loops == map[]
    ensures Drain(s).log.outcomes == s.log.outcomes && Drain(s).log.shifted == s.log.shifted
    ensures AtMostOneLoop(Drain(s).loops, Drain(s).outbound)
  {
  }

  // The single loop reports the outcome of the item it shifts.
  lemma ReportKeepsTurn(s: State, rid: nat, s3: State, ok: bool)
    requires Tailed(s) && Turns(s) && rid in s.loops
    requires s3 == Report(Shift(Settle(s, rid).(loops := s.loops - {rid})), s.loops[rid].ticket, ok)
    ensures InTurn(s3.log.outcomes, s3.log.shifted) && s3.loops == map[]
  {
    assert s.loops[rid] == s.log.enqueued[s.log.shifted];
  }

  lemma AnsweredKeepsTurns(s: State, rid: nat, ok: bool)
    requires Tailed(s) && Turns(s)
    ensures Turns(Answered(s, rid, ok))
  {
    if rid in s.pending && rid in s.loops {
      var s2 := Settle(s, rid).(loops := s.loops - {rid});
      if ok || s.status == Connected {
        var s3 := Report(Shift(s2), s.loops[rid].ticket, ok);
        ReportKeepsTurn(s, rid, s3, ok);
        DrainKeepsTurn(s3);
        assert Answered(s, rid, ok) == Drain(s3);
      } else {
        assert Answered(s, rid, ok) == s2;
      }
    }
  }

  lemma SendEnvelopeKeepsTurns(s: State, to: string, envelope: string)
    requires Turns(s) && (s.status == Connected ==> s.loops == map[])
    ensures Turns(StepSendEnvelope(s, to, envelope))
  {
    var item := Item(|s.log.enqueued|, to, envelope);
    var s1 := s.(outbound := s.outbound + [item], log := s.log.(enqueued := s.log.enqueued + [item]));
    if s.status == Connected {
      DrainKeepsTurn(s1);
    } else {
      LoopStaysOnHead(s.loops, s.outbound, item);
    }
  }

  lemma LoopStaysOnHead(loops: map<nat, Item>, outbound: seq<Item>, item: Item)
    requires AtMostOneLoop(loops, outbound)
    ensures AtMostOneLoop(loops, outbound + [item])
  {
  }

  lemma ReplyKeepsTurns(s: State, rid: nat, ok: bool)
    requires Tailed(s) && Turns(s)
    ensures Turns(StepReply(s, rid, ok))
  {
    AnsweredKeepsTurns(if ok then s.(log := s.log.(acked := s.log.acked + {rid})) else s, rid, ok);
  }

  lemma ResumeKeepsTurns(s: State, rid: nat)
    requires Tailed(s) && Turns(s)
    ensures Turns(StepResume(s, rid))
  {
    if rid in s.thrown && rid in s.loops {
      var s2 := s.(thrown := s.thrown - {rid}, loops := s.loops - {rid});
      if s.status == Connected {
        var s3 := Report(Shift(s2), s.loops[rid].ticket, false);
        assert s.loops[rid] == s.log.enqueued[s.log.shifted];
        DrainKeepsTurn(s3);
        assert StepResume(s, rid) == Drain(s3);
      } else {
        assert StepResume(s, rid) == s2;
      }
    }
  }

  lemma StepKeepsTurns(s: State, e: Event)
    requires Tailed(s) && Turns(s) && Exclusive(s, e)
    requires e.SocketClosed? ==> s.loops.Keys <= s.pending
    ensures Turns(Step(s, e))
  {
    match e {
      case Authenticated => DrainKeepsTurn(s.(status := Connected, reconnectAttempts := 0));
      case SendEnvelope(to, envelope) => SendEnvelopeKeepsTurns(s, to, envelope);
      case Reply(rid, ok) => ReplyKeepsTurns(s, rid, ok);
      case RequestTimeout(rid) => AnsweredKeepsTurns(s, rid, false);
      case Resume(rid) => ResumeKeepsTurns(s, rid);
      case _ =>
    }
  }

  lemma StepKeepsSolo(s: State, e: Event)
    requires Solo(s) && Enabled(s, e) && Exclusive(s, e)
    ensures Solo(Step(s, e))
  {
    StepKeepsValid(s, e);
    StepKeepsTurns(s, e);
  }

  lemma {:induction false} ExclusiveRunKeepsSolo(s: State, events: seq<Event>, t: State)
    requires Solo(s) && ExclusiveRun(s, events, t)
    ensures Solo(t)
    decreases |events|
  {
    if events != [] {
      StepKeepsSolo(s, events[0]);
      ExclusiveRunKeepsSolo(Step(s, events[0]), events[1..], t);
    }
  }

  // Across any run of sends, replies, errors, timeouts, drops and reconnects with one loop at
  // a time, the outcomes reported so far followed by the queue are exactly the items in the
  // order they were enqueued: each is resolved, rejected or queued, and only one of these.
  lemma NothingLostWithOneLoop(events: seq<Event>, t: State)
    requires ExclusiveRun(INITIAL, events, t)
    ensures OutcomeTickets(t.log.outcomes) + QueueTickets(t.outbound) == seq(|t.log.enqueued|, i => i)
    ensures forall ticket :: !Lost(t, ticket)
  {
    ExclusiveRunKeepsSolo(INITIAL, events, t);
    SoloLosesNothing(t);
  }

  lemma SoloLosesNothing(t: State)
    requires Solo(t)
    ensures OutcomeTickets(t.log.outcomes) + QueueTickets(t.outbound) == seq(|t.log.enqueued|, i => i)
    ensures forall ticket :: !Lost(t, ticket)
  {
    forall ticket: nat | ticket < t.log.shifted ensures !Lost(t, ticket) {
      assert t.log.outcomes[ticket] in t.log.outcomes;
    }
  }

  // A lost item stays lost: no event can bring it back.
  lemma LostForGood(s: State, e: Event, ticket: nat)
    requires Valid(s) && Enabled(s, e) && Lost(s, ticket)
    ensures Lost(Step(s, e), ticket)
  {
    match e {
      case Authenticated => DrainSkipsLost(s.(status := Connected, reconnectAttempts := 0), ticket);
      case SendEnvelope(to, envelope) =>
        var item := Item(|s.log.enqueued|, to, envelope);
        var s1 := s.(outbound := s.outbound + [item], log := s.log.(enqueued := s.log.enqueued + [item]));
        if s.status == Connected { DrainSkipsLost(s1, ticket); }
      case Reply(rid, ok) =>
        AnsweredSkipsLost(if ok then s.(log := s.log.(acked := s.log.acked + {rid})) else s, rid, ok, ticket);
      case RequestTimeout(rid) => AnsweredSkipsLost(s, rid, false, ticket);
      case Resume(rid) => ResumeSkipsLost(s, rid, ticket);
      case _ =>
    }
  }

  lemma ResumeSkipsLost(s: State, rid: nat, ticket: nat)
    requires Lost(s, ticket) && Tailed(s)
    ensures Lost(StepResume(s, rid), ticket)
  {
    if rid in s.thrown && rid in s.loops && s.status == Connected {
      var s2 := s.(thrown := s.thrown - {rid}, loops := s.loops - {rid});
      DrainSkipsLost(Report(Shift(s2), s.loops[rid].ticket, false), ticket);
    }
  }

  lemma DrainSkipsLost(s: State, ticket: nat)
    requires Lost(s, ticket) && QueueIsTail(s.outbound, s.log.enqueued, s.log.shifted)
    ensures Lost(Drain(s), ticket)
  {
    if s.outbound != [] && s.status == Connected {
      assert s.outbound[0] == s.log.enqueued[s.log.shifted];
    }
  }

  lemma AnsweredSkipsLost(s: State, rid: nat, ok: bool, ticket: nat)
    requires Lost(s, ticket) && QueueIsTail(s.outbound, s.log.enqueued, s.log.shifted)
    ensures Lost(Answered(s, rid, ok), ticket)
  {
    if rid in s.pending && rid in s.loops {
      var s1 := Settle(s, rid);
      var s2 := s1.(loops := s1.loops - {rid});
      if ok || s.status == Connected {
        DrainSkipsLost(Report(Shift(s2), s.loops[rid].ticket, ok), ticket);
      }
    }
  }

  lemma {:induction false} RunOfThree(s: State, e: Event, f: Event, g: Event)
    requires Enabled(s, e) && Enabled(Step(s, e), f) && Enabled(Step(Step(s, e), f), g)
    ensures Runs(s, [e, f, g], Step(Step(Step(s, e), f), g))
  {
    var t := Step(Step(Step(s, e), f), g);
    assert Runs(t, [], t);
    assert [g][1..] == [] && [f, g][1..] == [g] && [e, f, g][1..] == [f, g];
    assert Runs(Step(Step(s, e), f), [g], t);
    assert Runs(Step(s, e), [f, g], t);
  }

  predicate Waiting(s: State) {
    && s.status == Connected && s.loops.Keys <= s.pending && (forall r :: r in s.pending ==> r <= s.ridCounter)
    && s.thrown <= s.loops.Keys && (s.thrown != {} ==> s.socket == Opening)
  }

  predicate Unreported(outcomes: seq<Outcome>, ticket: nat) {
    forall o :: o in outcomes ==> o.ticket != ticket
  }

  lemma ValidWaits(s: State)
    requires Valid(s) && s.status == Connected
    ensures Waiting(s)
  {
  }

  // The request ends: answered in whatever way, timed out, or thrown before.
  predicate Ends(e: Event, rid: nat) {
    (e.Reply? && e.rid == rid) || e == RequestTimeout(rid) || e == Resume(rid)
  }

  // The state in which the loop of an ended request drains on.
  function Ended(s: State, x: Event, rid: nat): State
    requires rid in s.loops
  {
    var s1 := if x.Reply? && x.ok then s.(log := s.log.(acked := s.log.acked + {rid})) else s;
    var s2 := if x.Resume? then s.(thrown := s.thrown - {rid}) else Settle(s1, rid);
    Report(Shift(s2.(loops := s2.loops - {rid})), s.loops[rid].ticket, x.Reply? && x.ok)
  }

  lemma EndDrains(s: State, x: Event, rid: nat)
    requires Waiting(s) && Enabled(s, x) && Ends(x, rid) && rid in s.loops
    ensures Step(s, x) == Drain(Ended(s, x, rid))
  {
  }

  lemma EndedWaits(s: State, x: Event, rid: nat, ticket: nat)
    requires Waiting(s) && Enabled(s, x) && Ends(x, rid) && rid in s.loops && s.outbound != []
    requires Unreported(s.log.outcomes, ticket) && s.loops[rid].ticket != ticket
    ensures var t := Ended(s, x, rid);
      && Waiting(t) && t.outbound == s.outbound[1..] && t.log.shifted == s.log.shifted + 1 && t.socket == s.socket
      && Unreported(t.log.outcomes, ticket) && t.loops == s.loops - {rid} && t.thrown == s.thrown - {rid}
      && t.ridCounter == s.ridCounter
  {
  }

  // What a drain of a waiting client does.
  lemma DrainOfWaiting(s: State)
    requires Waiting(s)
    ensures var t, p := Drain(s), s.ridCounter + 1;
      && Waiting(t) && t.outbound == s.outbound && t.log.shifted == s.log.shifted && t.log.outcomes == s.log.outcomes
      && t.socket == s.socket && p !in s.loops
      && t.loops == (if s.outbound != [] then s.loops[p := s.outbound[0]] else s.loops)
      && t.thrown == (if s.outbound != [] && s.socket == Opening then s.thrown + {p} else s.thrown)
      && t.ridCounter == (if s.outbound != [] then p else s.ridCounter)
  {
  }

  // The end of one loop's request shifts the head, leaves the other loops as they are, and
  // puts a new one on the new head.
  lemma EndShiftsTheHead(s: State, x: Event, rid: nat, ticket: nat)
    requires Waiting(s) && Enabled(s, x) && Ends(x, rid) && rid in s.loops && s.outbound != []
    requires Unreported(s.log.outcomes, ticket) && s.loops[rid].ticket != ticket
    ensures var t, p := Step(s, x), s.ridCounter + 1;
      && Waiting(t) && t.outbound == s.outbound[1..] && t.log.shifted == s.log.shifted + 1 && t.socket == s.socket
      && Unreported(t.log.outcomes, ticket)
      && t.loops == (if |s.outbound| > 1 then (s.loops - {rid})[p := s.outbound[1]] else s.loops - {rid})
      && t.thrown == (if |s.outbound| > 1 && s.socket == Opening then s.thrown - {rid} + {p} else s.thrown - {rid})
      && t.ridCounter == (if |s.outbound| > 1 then p else s.ridCounter)
  {
    EndDrains(s, x, rid);
    EndedWaits(s, x, rid, ticket);
    DrainOfWaiting(Ended(s, x, rid));
  }

  function LosingRun(x: Event, y: Event): seq<Event> {
    [x, y, SocketClosed]
  }

  // Two loops that both took the head, and a socket that does not throw: however their two
  // requests end, the second end shifts the next item, and a drop then ends the only loop that
  // would have settled it.
  lemma TwoLoopsLose(s: State, r: nat, q: nat, x: Event, y: Event) returns (t: State)
    requires Waiting(s) && s.socket != Opening && r != q && r in s.loops && q in s.loops
    requires Ends(x, r) && Ends(y, q) && !x.Resume? && !y.Resume?
    requires |s.outbound| >= 2 && Unreported(s.log.outcomes, s.log.shifted + 1)
    requires s.loops[r].ticket == s.log.shifted && s.loops[q].ticket == s.log.shifted
    ensures Runs(s, LosingRun(x, y), t) && Lost(t, s.log.shifted + 1)
  {
    var s1 := Step(s, x);
    EndShiftsTheHead(s, x, r, s.log.shifted + 1);
    EndShiftsTheHead(s1, y, q, s.log.shifted + 1);
    RunOfThree(s, x, y, SocketClosed);
    t := StepSocketClosed(Step(s1, y));
    DropLoses(Step(s1, y), s.log.shifted + 1);
  }

  lemma DropLoses(s: State, ticket: nat)
    requires Waiting(s) && ticket < s.log.shifted && Unreported(s.log.outcomes, ticket)
    ensures Lost(StepSocketClosed(s), ticket)
  {
  }

  // A stop before the next task: the loop of a request that threw leaves its item in the queue.
  lemma StopThenResume(s: State, p: nat)
    requires Waiting(s) && p in s.thrown
    ensures Enabled(s, Event.Stop) && Enabled(StepStop(s), Resume(p))
    ensures var t := StepResume(StepStop(s), p);
      && t.loops == s.loops - {p} && t.thrown == s.thrown - {p} && t.outbound == s.outbound
      && t.log == s.log && t.pending == s.pending && t.status == Disconnected
  {
  }

  // Loops that all took the head, over a socket that is still opening: the first to go on
  // takes the next item, the second shifts it, and a stop in between ends the loop that holds
  // it. The second may be one whose request threw too, or one that an ok reply wakes after it.
  lemma ThrowingLoopsLose(s: State, q: nat, r: nat) returns (events: seq<Event>, t: State)
    requires Waiting(s) && s.socket == Opening && q != r && q in s.thrown && r in s.loops
    requires r in s.thrown || s.thrown == {q}
    requires Numbered(s) && |s.outbound| >= 2 && Unreported(s.log.outcomes, s.log.shifted + 1)
    requires forall l :: l in s.loops ==> s.loops[l].ticket == s.log.shifted
    ensures Runs(s, events, t) && StartsNone(events) && Lost(t, s.log.shifted + 1)
  {
    if r in s.thrown {
      events, t := TwoThrownLose(s, q, r);
    } else {
      events, t := ThrownThenOkLose(s, q, r);
    }
  }

  // The tickets in the queue go up from its head.
  predicate Numbered(s: State) {
    forall i :: 0 <= i < |s.outbound| ==> s.outbound[i].ticket == s.log.shifted + i
  }

  lemma TailIsNumbered(s: State)
    requires Tailed(s)
    ensures Numbered(s)
  {
    forall i | 0 <= i < |s.outbound| ensures s.outbound[i].ticket == s.log.shifted + i {
      assert s.outbound[i] == s.log.enqueued[s.log.shifted + i];
    }
  }

  lemma {:induction false} RunOfFour(s: State, e: Event, f: Event, g: Event, h: Event)
    requires Enabled(s, e) && Enabled(Step(s, e), f) && Enabled(Step(Step(s, e), f), g)
    requires Enabled(Step(Step(Step(s, e), f), g), h)
    ensures Runs(s, [e, f, g, h], Step(Step(Step(Step(s, e), f), g), h))
  {
    RunOfThree(Step(s, e), f, g, h);
    assert [e, f, g, h][1..] == [f, g, h];
  }

  // Past the two resumptions: the next item is gone, and p holds it.
  predicate HeldAside(s: State, p: nat, ticket: nat) {
    && Waiting(s) && p in s.thrown && ticket < s.log.shifted && Unreported(s.log.outcomes, ticket)
    && forall l :: l in s.loops && l != p ==> s.loops[l].ticket != ticket
  }

  lemma TwoResumptions(s: State, q: nat, r: nat) returns (t: State)
    requires Waiting(s) && s.socket == Opening && q != r && q in s.thrown && r in s.thrown
    requires Numbered(s) && |s.outbound| >= 2 && Unreported(s.log.outcomes, s.log.shifted + 1)
    requires forall l :: l in s.loops ==> s.loops[l].ticket == s.log.shifted
    ensures Runs(s, [] + [Resume(q)] + [Resume(r)], t) && HeldAside(t, s.ridCounter + 1, s.log.shifted + 1)
  {
    var ticket := s.log.shifted + 1;
    EndShiftsTheHead(s, Resume(q), q, ticket);
    var mid := Step(s, Resume(q));
    RunsOn(s, [], s, Resume(q));
    EndShiftsTheHead(mid, Resume(r), r, ticket);
    RunsOn(s, [] + [Resume(q)], mid, Resume(r));
    t := Step(mid, Resume(r));
    assert |s.outbound| > 2 ==> s.outbound[1..][1] == s.outbound[2];
  }

  lemma StopLosesHeld(s: State, p: nat, ticket: nat) returns (t: State)
    requires HeldAside(s, p, ticket)
    ensures Runs(s, [] + [Event.Stop] + [Resume(p)], t) && Lost(t, ticket)
  {
    StopThenResume(s, p);
    t := StepResume(StepStop(s), p);
    RunsOn(s, [], s, Event.Stop);
    RunsOn(s, [] + [Event.Stop], StepStop(s), Resume(p));
  }

  lemma TwoThrownLose(s: State, q: nat, r: nat) returns (events: seq<Event>, t: State)
    requires Waiting(s) && s.socket == Opening && q != r && q in s.thrown && r in s.thrown
    requires Numbered(s) && |s.outbound| >= 2 && Unreported(s.log.outcomes, s.log.shifted + 1)
    requires forall l :: l in s.loops ==> s.loops[l].ticket == s.log.shifted
    ensures Runs(s, events, t) && StartsNone(events) && Lost(t, s.log.shifted + 1)
  {
    var p := s.ridCounter + 1;
    var mid := TwoResumptions(s, q, r);
    t := StopLosesHeld(mid, p, s.log.shifted + 1);
    RunsJoin(s, [] + [Resume(q)] + [Resume(r)], mid, [] + [Event.Stop] + [Resume(p)], t);
    events := [] + [Resume(q)] + [Resume(r)] + ([] + [Event.Stop] + [Resume(p)]);
  }

  lemma ThrownThenOkLose(s: State, q: nat, r: nat) returns (events: seq<Event>, t: State)
    requires Waiting(s) && s.socket == Opening && q != r && s.thrown == {q} && r in s.loops
    requires Numbered(s) && |s.outbound| >= 2 && Unreported(s.log.outcomes, s.log.shifted + 1)
    requires forall l :: l in s.loops ==> s.loops[l].ticket == s.log.shifted
    ensures Runs(s, events, t) && StartsNone(events) && Lost(t, s.log.shifted + 1)
  {
    var p, ticket := s.ridCounter + 1, s.log.shifted + 1;
    EndShiftsTheHead(s, Resume(q), q, ticket);
    var s1 := Step(s, Resume(q));
    StopThenResume(s1, p);
    var s3 := StepResume(StepStop(s1), p);
    OkAfterStopLoses(s3, r, ticket);
    t := StepReply(s3, r, true);
    events := [Resume(q), Event.Stop, Resume(p), Reply(r, true)];
    RunOfFour(s, Resume(q), Event.Stop, Resume(p), Reply(r, true));
  }

  lemma OkAfterStopLoses(s: State, r: nat, ticket: nat)
    requires s.status == Disconnected && r in s.loops && r in s.pending && s.outbound != []
    requires s.log.shifted == ticket && Unreported(s.log.outcomes, ticket)
    requires forall l :: l in s.loops ==> s.loops[l].ticket != ticket
    ensures Lost(StepReply(s, r, true), ticket)
  {
  }

  lemma SoloHead(s: State, r: nat)
    requires Solo(s) && r in s.loops
    ensures s.outbound != [] && s.loops[r] == s.outbound[0] && s.loops[r].ticket == s.log.shifted
    ensures Unreported(s.log.outcomes, s.log.shifted + 1) && s.loops.Keys == {r}
  {
  }

  lemma TwoAreNotSolo(s: State, r: nat, q: nat)
    requires r in s.loops && q in s.loops && r != q
    ensures !Solo(s)
  {
  }

  // Loops r and q took the head, and there is an item behind it.
  lemma TwoOnHeadLose(s: State, r: nat, q: nat) returns (events: seq<Event>, t: State)
    requires Waiting(s) && Numbered(s) && r != q && r in s.loops && q in s.loops
    requires s.socket == Opening ==> q in s.thrown && (r in s.thrown || s.thrown == {q})
    requires |s.outbound| >= 2 && Unreported(s.log.outcomes, s.log.shifted + 1)
    requires forall l :: l in s.loops ==> s.loops[l].ticket == s.log.shifted
    ensures Runs(s, events, t) && StartsNone(events) && Lost(t, s.log.shifted + 1)
  {
    if s.socket == Opening {
      events, t := ThrowingLoopsLose(s, q, r);
    } else {
      events := LosingRun(RequestTimeout(r), RequestTimeout(q));
      t := TwoLoopsLose(s, r, q, RequestTimeout(r), RequestTimeout(q));
    }
  }

  // A sendEnvelope while a loop waits starts a second loop on the same head.
  lemma SendBesideALoop(s: State, r: nat, to: string, envelope: string) returns (events: seq<Event>, t: State)
    requires Solo(s) && s.status == Connected && r in s.loops
    ensures Runs(StepSendEnvelope(s, to, envelope), events, t) && StartsNone(events) && Lost(t, s.log.shifted + 1)
    ensures !Solo(StepSendEnvelope(s, to, envelope))
  {
    SoloHead(s, r);
    ValidWaits(s);
    var item := Item(|s.log.enqueued|, to, envelope);
    var s1 := s.(outbound := s.outbound + [item], log := s.log.(enqueued := s.log.enqueued + [item]));
    DrainOfWaiting(s1);
    TwoAreNotSolo(Drain(s1), r, s.ridCounter + 1);
    TailGrows(s, item);
    TailIsNumbered(s1);
    events, t := TwoOnHeadLose(Drain(s1), r, s.ridCounter + 1);
  }

  lemma TailGrows(s: State, item: Item)
    requires Tailed(s) && item.ticket == |s.log.enqueued|
    ensures QueueIsTail(s.outbound + [item], s.log.enqueued + [item], s.log.shifted)
  {
  }

  // A stop and start while a send is pending: the authentication that follows starts the
  // second loop, the next sendEnvelope provides the victim.
  lemma AuthenticatedBesideALoop(s: State, r: nat)
    requires Solo(s) && Enabled(s, Authenticated) && r in s.loops
    ensures !Solo(StepAuthenticated(s)) && CanLose(StepAuthenticated(s))
  {
    SoloHead(s, r);
    var q := s.ridCounter + 1;
    var s0 := s.(status := Connected, reconnectAttempts := 0);
    DrainOfWaiting(s0);
    var s1 := StepAuthenticated(s);
    TwoAreNotSolo(s1, r, q);
    var item := Item(|s1.log.enqueued|, "", "");
    var s2 := s1.(outbound := s1.outbound + [item], log := s1.log.(enqueued := s1.log.enqueued + [item]));
    DrainOfWaiting(s2);
    TailGrows(s1, item);
    TailIsNumbered(s2);
    var events, t := TwoOnHeadLose(Drain(s2), q, q + 1);
    var all := [SendEnvelope("", "")] + events;
    assert all[1..] == events && Step(s1, all[0]) == Drain(s2);
    assert Runs(s1, all, t);
  }

  predicate StartsNone(events: seq<Event>) {
    forall e :: e in events ==> !e.SendEnvelope? && !e.Authenticated?
  }

  lemma {:induction false} QuietRunIsExclusive(s: State, events: seq<Event>, t: State)
    requires Runs(s, events, t) && StartsNone(events)
    ensures ExclusiveRun(s, events, t)
    decreases |events|
  {
    if events != [] { QuietRunIsExclusive(Step(s, events[0]), events[1..], t); }
  }

  // The exact condition: a sendEnvelope endangers an item, with no further call and no
  // further reconnect, if and only if it is made while connected with a loop still waiting.
  lemma SendLosesExactlyBesideALoop(s: State, to: string, envelope: string)
    requires Solo(s)
    ensures (exists events, t, ticket: nat ::
        Runs(StepSendEnvelope(s, to, envelope), events, t) && StartsNone(events) && Lost(t, ticket)) <==>
      s.status == Connected && s.loops != map[]
  {
    var s1 := StepSendEnvelope(s, to, envelope);
    if s.status == Connected && s.loops != map[] {
      var r :| r in s.loops;
      var events, t := SendBesideALoop(s, r, to, envelope);
    } else {
      StepKeepsSolo(s, SendEnvelope(to, envelope));
      forall events, t, ticket: nat | Runs(s1, events, t) && StartsNone(events) ensures !Lost(t, ticket) {
        QuietRunIsExclusive(s1, events, t);
        ExclusiveRunKeepsSolo(s1, events, t);
        SoloLosesNothing(t);
      }
    }
  }

  // Every event that starts a loop beside a running one can lead to a loss, and no other
  // event leaves the single-loop states.
  lemma ExclusiveIsExact(s: State, e: Event)
    requires Solo(s) && Enabled(s, e)
    ensures Solo(Step(s, e)) <==> Exclusive(s, e)
    ensures !Exclusive(s, e) ==> CanLose(Step(s, e))
  {
    if Exclusive(s, e) {
      StepKeepsSolo(s, e);
    } else {
      var r :| r in s.loops;
      if e.SendEnvelope? {
        var events, t := SendBesideALoop(s, r, e.to, e.envelope);
      } else {
        AuthenticatedBesideALoop(s, r);
      }
    }
  }
}
