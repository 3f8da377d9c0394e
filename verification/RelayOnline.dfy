// What the starts and stops of a client come to: over every run it stays down after a stop,
// and after a start it holds a socket or waits to open one.
module RelayOnline {
  import opened RelayMachine
  import opened RelayProofs

  // Whether the last of the starts and stops is a stop; `before` if there is none.
  predicate StoppedLast(events: seq<Event>, before: bool) {
    if events == [] then before
    else StoppedLast(events[1..], match events[0] case Start => false case Stop => true case _ => before)
  }

  predicate StartAt(events: seq<Event>, i: nat) {
    i < |events| && events[i].Start? && forall j :: i < j < |events| ==> !events[j].Stop?
  }

  predicate StopAt(events: seq<Event>, i: nat) {
    i < |events| && events[i].Stop? && forall j :: i < j < |events| ==> !events[j].Start?
  }

  // The user wants the client online, or down: the last start has no stop behind it, or the
  // other way round.
  predicate Wanted(events: seq<Event>) { exists i :: 0 <= i < |events| && StartAt(events, i) }

  predicate Unwanted(events: seq<Event>) { exists i :: 0 <= i < |events| && StopAt(events, i) }

  lemma {:induction false} StoppedLastMeans(events: seq<Event>, before: bool)
    ensures StoppedLast(events, before) <==> Unwanted(events) || (before && !Wanted(events))
    ensures !(Wanted(events) && Unwanted(events))
    decreases |events|
  {
    if events != [] {
      var rest := events[1..];
      StoppedLastMeans(rest, match events[0] case Start => false case Stop => true case _ => before);
      if i :| 0 <= i < |rest| && StartAt(rest, i) { assert StartAt(events, i + 1); }
      if i :| 0 <= i < |rest| && StopAt(rest, i) { assert StopAt(events, i + 1); }
      if i :| 0 < i < |events| && StartAt(events, i) { assert StartAt(rest, i - 1); }
      if i :| 0 < i < |events| && StopAt(events, i) { assert StopAt(rest, i - 1); }
      SomeIsLast(rest);
      SomeIsLast(events);
    }
  }

  // One of the starts and stops is the last.
  lemma {:induction false} SomeIsLast(events: seq<Event>)
    ensures Wanted(events) || Unwanted(events)
         || forall i :: 0 <= i < |events| ==> !events[i].Start? && !events[i].Stop?
    decreases |events|
  {
    if events != [] {
      var rest := events[1..];
      SomeIsLast(rest);
      if i :| 0 <= i < |rest| && StartAt(rest, i) { assert StartAt(events, i + 1); }
      if i :| 0 <= i < |rest| && StopAt(rest, i) { assert StopAt(events, i + 1); }
      if !Wanted(rest) && !Unwanted(rest) {
        assert forall j :: 0 < j < |events| ==> events[j] == rest[j - 1];
        assert events[0].Start? ==> StartAt(events, 0);
        assert events[0].Stop? ==> StopAt(events, 0);
      }
    }
  }

  lemma {:induction false} StoppedLastGrows(events: seq<Event>)
    ensures StoppedLast(events, false) ==> StoppedLast(events, true)
    decreases |events|
  {
    if events != [] { StoppedLastGrows(events[1..]); }
  }

  // --- the flag, the socket and the timer ---

  // Down and quiet after a stop; with a socket or a timer after a start, and never both, so
  // that no timer replaces a socket.
  predicate Posed(s: State) {
    && (s.closedByUser ==> s.socket == NoSocket && !s.reconnectArmed)
    && (!s.closedByUser ==> s.status == Disconnected || s.socket != NoSocket || s.reconnectArmed)
    && (s.reconnectArmed ==> s.socket == NoSocket)
  }

  // What an event leaves of the flag and the pose; a start never leaves a client that was
  // never started.
  predicate Moves(s: State, e: Event, t: State) {
    && t.closedByUser == (match e case Start => false case Stop => true case _ => s.closedByUser)
    && (Posed(s) ==> Posed(t))
    && (e.Start? || (s.status != Disconnected && !s.closedByUser && !e.Stop?) ==> t.status != Disconnected)
  }

  // A drain touches none of them.
  predicate SamePose(s: State, t: State) {
    && t.closedByUser == s.closedByUser && t.socket == s.socket && t.reconnectArmed == s.reconnectArmed
    && t.status == s.status && t.reconnectAttempts == s.reconnectAttempts
  }

  lemma WakeKeepsPose(s: State, rid: nat, ok: bool)
    requires rid in s.loops
    ensures SamePose(s, Wake(s, rid, ok))
  {
  }

  lemma AnsweredKeepsPose(s: State, rid: nat, ok: bool)
    ensures SamePose(s, Answered(s, rid, ok))
  {
    if rid in s.pending && rid in s.loops { WakeKeepsPose(Settle(s, rid), rid, ok); }
  }

  lemma ResumeKeepsPose(s: State, rid: nat)
    ensures SamePose(s, StepResume(s, rid))
  {
    if rid in s.thrown && rid in s.loops { WakeKeepsPose(s.(thrown := s.thrown - {rid}), rid, false); }
  }

  lemma StepMoves(s: State, e: Event)
    requires Enabled(s, e)
    ensures Moves(s, e, Step(s, e))
  {
    match e {
      case Reply(rid, ok) =>
        AnsweredKeepsPose(if ok then s.(log := s.log.(acked := s.log.acked + {rid})) else s, rid, ok);
      case RequestTimeout(rid) => AnsweredKeepsPose(s, rid, false);
      case Resume(rid) => ResumeKeepsPose(s, rid);
      case _ =>
    }
  }

  lemma {:induction false} RunKeepsPose(s: State, events: seq<Event>, t: State)
    requires Runs(s, events, t) && Posed(s)
    ensures Posed(t) && t.closedByUser == StoppedLast(events, s.closedByUser)
    decreases |events|
  {
    if events != [] {
      StepMoves(s, events[0]);
      RunKeepsPose(Step(s, events[0]), events[1..], t);
    }
  }

  predicate Up(s: State) { s.status != Disconnected && !s.closedByUser }

  lemma {:induction false} RunKeepsUp(s: State, events: seq<Event>, t: State)
    requires Runs(s, events, t) && !StoppedLast(events, !Up(s))
    ensures Up(t)
    decreases |events|
  {
    if events != [] {
      StepMoves(s, events[0]);
      StoppedLastGrows(events[1..]);
      RunKeepsUp(Step(s, events[0]), events[1..], t);
    }
  }

  // The flag says exactly that the last start or stop was a stop; then there is no socket and
  // no timer, and none comes of a late close or of a timer that fires.
  lemma StoppedIsExact(events: seq<Event>, t: State)
    requires Runs(INITIAL, events, t)
    ensures t.closedByUser <==> Unwanted(events)
    ensures Unwanted(events) ==>
      && t.socket == NoSocket && !t.reconnectArmed && Step(t, ReconnectFired) == t
      && var u := Step(t, SocketClosed); u.status == Disconnected && u.socket == NoSocket && !u.reconnectArmed
  {
    RunKeepsPose(INITIAL, events, t);
    StoppedLastMeans(events, false);
  }

  // Even a timer that were armed would open nothing after a stop.
  lemma StoppedTimerOpensNothing(s: State)
    requires s.closedByUser
    ensures var t := Step(s, ReconnectFired); t.socket == s.socket && !t.reconnectArmed && t.closedByUser
  {
  }

  lemma WantedIsUp(events: seq<Event>, t: State)
    requires Runs(INITIAL, events, t) && Wanted(events)
    ensures Up(t) && Posed(t)
  {
    StoppedLastMeans(events, true);
    RunKeepsUp(INITIAL, events, t);
    RunKeepsPose(INITIAL, events, t);
  }

  // While connected a non-empty queue always has a loop waiting on a request of its own; and
  // a client that was started, with no stop behind it, has either a socket or a reconnect timer.
  lemma NothingIsStranded(events: seq<Event>, t: State)
    requires Runs(INITIAL, events, t)
    ensures t.status == Connected && t.outbound != [] ==> exists rid :: rid in t.loops && rid in t.pending
    ensures Wanted(events) ==> (t.socket != NoSocket <==> !t.reconnectArmed)
  {
    RunKeepsValid(INITIAL, events, t);
    if t.status == Connected && t.outbound != [] {
      assert t.loops != map[];
      var rid :| rid in t.loops;
      assert rid in t.pending;
    }
    if Wanted(events) { WantedIsUp(events, t); }
  }

  // Such a client answers a drop with a timer, and the timer with a new socket.
  lemma DropReconnects(events: seq<Event>, t: State)
    requires Runs(INITIAL, events, t) && Wanted(events)
    ensures var u := Step(t, SocketClosed);
      && u.reconnectArmed && u.status == Reconnecting
      && var v := Step(u, ReconnectFired); v.socket == Opening && !v.reconnectArmed && !v.closedByUser
  {
    WantedIsUp(events, t);
  }

  // --- the attempts ---

  // The drops of a wanted client since it was last authenticated.
  function Drops(events: seq<Event>, before: nat, stopped: bool): nat {
    if events == [] then before
    else
      var rest := events[1..];
      match events[0]
      case Start => Drops(rest, before, false)
      case Stop => Drops(rest, before, true)
      case Authenticated => Drops(rest, 0, stopped)
      case SocketClosed => Drops(rest, if stopped then before else before + 1, stopped)
      case _ => Drops(rest, before, stopped)
  }

  lemma StepCounts(s: State, e: Event)
    ensures Step(s, e).reconnectAttempts ==
      if e.Authenticated? then 0 else if e.SocketClosed? && !s.closedByUser then s.reconnectAttempts + 1
      else s.reconnectAttempts
  {
    match e {
      case Reply(rid, ok) =>
        AnsweredKeepsPose(if ok then s.(log := s.log.(acked := s.log.acked + {rid})) else s, rid, ok);
      case RequestTimeout(rid) => AnsweredKeepsPose(s, rid, false);
      case Resume(rid) => ResumeKeepsPose(s, rid);
      case _ =>
    }
  }

  lemma {:induction false} RunCounts(s: State, events: seq<Event>, t: State)
    requires Runs(s, events, t)
    ensures t.reconnectAttempts == Drops(events, s.reconnectAttempts, s.closedByUser)
    decreases |events|
  {
    if events != [] {
      StepMoves(s, events[0]);
      StepCounts(s, events[0]);
      RunCounts(Step(s, events[0]), events[1..], t);
    }
  }

  // A socket being opened shows as connecting before the first drop, and as reconnecting from
  // then on until the client has been authenticated again.
  lemma OpeningIsShown(events: seq<Event>, t: State)
    requires Runs(INITIAL, events, t)
    ensures var u := Step(t, Event.Start);
      u.socket == Opening && u.status == if Drops(events, 0, false) == 0 then Connecting else Reconnecting
    ensures Step(t, Authenticated).status == Connected && Step(t, Authenticated).reconnectAttempts == 0
  {
    RunCounts(INITIAL, events, t);
    StepCounts(t, Authenticated);
  }

  // --- the requests ---

  function Others(events: seq<Event>): nat {
    if events == [] then 0 else (if events[0].OtherRequest? then 1 else 0) + Others(events[1..])
  }

  predicate Requested(s: State, t: State, others: nat) {
    && t.ridCounter - s.ridCounter == |t.log.built| - |s.log.built| + others
    && (others > 0 ==> t.ridCounter in t.pending)
  }

  lemma WakeNumbers(s: State, rid: nat, ok: bool)
    requires rid in s.loops
    ensures Requested(s, Wake(s, rid, ok), 0)
  {
  }

  lemma StepNumbers(s: State, e: Event)
    ensures Requested(s, Step(s, e), if e.OtherRequest? then 1 else 0)
  {
    match e {
      case Reply(rid, ok) =>
        var s1 := if ok then s.(log := s.log.(acked := s.log.acked + {rid})) else s;
        if rid in s1.pending && rid in s1.loops { WakeNumbers(Settle(s1, rid), rid, ok); }
      case RequestTimeout(rid) => if rid in s.pending && rid in s.loops { WakeNumbers(Settle(s, rid), rid, false); }
      case Resume(rid) =>
        if rid in s.thrown && rid in s.loops { WakeNumbers(s.(thrown := s.thrown - {rid}), rid, false); }
      case _ =>
    }
  }

  lemma {:induction false} RunNumbers(s: State, events: seq<Event>, t: State)
    requires Runs(s, events, t)
    ensures t.ridCounter - s.ridCounter == |t.log.built| - |s.log.built| + Others(events)
    decreases |events|
  {
    if events != [] {
      StepNumbers(s, events[0]);
      RunNumbers(Step(s, events[0]), events[1..], t);
    }
  }

  // Request ids number the requests made, those of the queue and all others; each new one of
  // the others is pending.
  lemma RequestsAreNumbered(events: seq<Event>, t: State)
    requires Runs(INITIAL, events, t)
    ensures t.ridCounter == |t.log.built| + Others(events)
    ensures var u := Step(t, OtherRequest); u.ridCounter == t.ridCounter + 1 && u.ridCounter in u.pending
  {
    RunNumbers(INITIAL, events, t);
    StepNumbers(t, OtherRequest);
  }
}
