// The hook that runs before the app locks, cut at its awaits: the farewell signal goes out,
// the row is written, and then the call is taken down without looking at the slot again.
module CallLocking {
  import opened Options
  import opened CallTypes
  import opened CallMachine
  import opened CallInvariant

  // What the hook holds over its awaits: the call it found, and the row it composed for it.
  datatype Hold = Hold(call: ActiveCall, row: Row)

  // Up to the first await. With nothing to say there is none, and the call is taken down.
  function LockBegins(s: State, now: int): (State, Option<Hold>) {
    if s.call.None? then (s, None)
    else
      match LockFarewell(s, now)
      case None => (TakenDown(s, s.call.value), None)
      case Some(f) => (SendEnd(s, f.reason), Some(Hold(s.call.value, f.row)))
  }

  // Between the awaits.
  function LockWrites(s: State, hold: Hold): State {
    WriteRow(s, hold.row)
  }

  function TakenDown(s: State, c: ActiveCall): State {
    Teardown(s, c).(status := Idle, endReason := None, endingView := None)
  }

  // The call the hook holds, as its object is by now.
  function Held(s: State, hold: Hold): ActiveCall {
    if IsCurrent(s, hold.call.serial) then s.call.value else hold.call
  }

  // After the last await.
  function LockEnds(s: State, hold: Hold): State {
    TakenDown(s, Held(s, hold))
  }

  // With nothing in between, the hook is the single step of the call machine.
  lemma LockInOneGo(s: State, now: int)
    ensures var (t, hold) := LockBegins(s, now);
      (if hold.Some? then LockEnds(LockWrites(t, hold.value), hold.value) else t) == StepAppLocking(s, now)
  {
  }

  // The call found earlier: its serial is used, and once it is over its engine is closed.
  predicate FoundEarlier(s: State, hold: Hold) {
    && hold.call.serial < s.nextSerial
    && (!IsCurrent(s, hold.call.serial) && hold.call.engine.Some? ==> hold.call.engine.value !in s.openEngines)
  }

  lemma TakenDownFields(s: State, c: ActiveCall)
    ensures var t := TakenDown(s, c);
      && t.call.None? && t.status == Idle && t.timers.linger == s.timers.linger
      && t.openEngines == (if c.engine.Some? then s.openEngines - {c.engine.value} else s.openEngines)
      && t.endReason.None? && t.endingView.None? && !t.ringtone && !t.callAudio
      && t.nextSerial == s.nextSerial && t.nextEngine == s.nextEngine && t.flights == s.flights
  {
  }

  lemma TakenDownAccounted(s: State, c: ActiveCall)
    requires Accounted(s.timers)
    ensures Accounted(TakenDown(s, c).timers)
    ensures var t := TakenDown(s, c).timers; t.ring.None? && t.connect.None? && t.disconnect.None?
  {
    ClearCallKeepsAccounted(s.timers);
    assert TakenDown(s, c).timers == s.timers.ClearCall();
  }

  // The hook keeps the controller's invariant exactly when it still finds its call in the
  // slot, or no call with a media engine and no ending on screen.
  lemma LockEndIsExact(s: State, hold: Hold)
    requires Valid(s) && FoundEarlier(s, hold)
    ensures Valid(LockEnds(s, hold)) <==>
      IsCurrent(s, hold.call.serial) || (s.status != Ending && (s.call.None? || s.call.value.engine.None?))
  {
    var c := Held(s, hold);
    TakenDownFields(s, c);
    TakenDownAccounted(s, c);
    var t := LockEnds(s, hold);
    assert EnginesMatch(t.openEngines, t.nextEngine, t.call) <==> t.openEngines == {};
    assert TimersMatch(t.timers, t.status, CurrentSerial(t)) <==> t.timers.linger.None?;
    assert Valid(t) <==> t.openEngines == {} && s.status != Ending;
    EnginesLeft(s, hold);
  }

  lemma EnginesLeft(s: State, hold: Hold)
    requires Valid(s) && FoundEarlier(s, hold)
    ensures var c := Held(s, hold);
      var left := if c.engine.Some? then s.openEngines - {c.engine.value} else s.openEngines;
      left == {} <==> IsCurrent(s, hold.call.serial) || s.call.None? || s.call.value.engine.None?
  {
    if s.call.Some? && s.call.value.engine.Some? && !IsCurrent(s, hold.call.serial) {
      assert s.call.value.engine.value in s.openEngines;
    }
  }

  // The invariant says nothing about whose call it was: another call in the slot is taken down
  // without a word to its peer and without a row, with its invariant kept if it has no engine.
  lemma StaleLockDropsAnother(s: State, hold: Hold)
    requires s.call.Some? && !IsCurrent(s, hold.call.serial)
    ensures var t := LockEnds(LockWrites(s, hold), hold);
      && t.call.None? && t.status == Idle && t.log.sent == s.log.sent && t.log.rows == s.log.rows + [hold.row]
      && hold.call.callId in t.log.remembered
  {
  }

  // The condition fails when the peer's end arrives while the farewell of a ringing call is on
  // its way: the hook leaves the slot idle with the linger timer of the ending armed.
  lemma EndOvertakesLock(s: State, now: int, reason: EndReason)
    requires Valid(s) && s.status == OutgoingRinging && s.call.Some?
    ensures var (t, hold) := LockBegins(s, now);
      && hold.Some?
      && var t1 := StepReceive(t, s.call.value.contact, End(s.call.value.callId, reason), now, now);
      && Valid(t1) && FoundEarlier(t1, hold.value) && t1.status == Ending
      && !Valid(LockEnds(LockWrites(t1, hold.value), hold.value))
  {
    var (t, hold) := LockBegins(s, now);
    assert Valid(t);
    EndOfOutgoingIsValid(t, s.call.value.contact, s.call.value.callId, reason, now);
    var t1 := StepReceive(t, s.call.value.contact, End(s.call.value.callId, reason), now, now);
    var t2 := LockWrites(t1, hold.value);
    assert Valid(t2) && t2.status == Ending && FoundEarlier(t2, hold.value);
    LockEndIsExact(t2, hold.value);
  }

  // And another call is in the slot when an offer of someone else arrives behind that end.
  lemma OfferOvertakesLock(s: State, now: int, other: Contact, id: CallId, sdp: string, sentAt: int)
    requires Valid(s) && s.status == OutgoingRinging && s.call.Some?
    requires id !in s.recentlyEnded && id != s.call.value.callId && now - sentAt < STALE_OFFER_MS
    ensures var (t, hold) := LockBegins(s, now);
      && hold.Some?
      && var t1 := StepReceive(t, s.call.value.contact, End(s.call.value.callId, Hangup), now, now);
      && var t2 := StepReceive(t1, other, Offer(id, sdp), sentAt, now);
      && t2.status == IncomingRinging && t2.call.Some? && !IsCurrent(t2, hold.value.call.serial)
  {
    var (t, hold) := LockBegins(s, now);
    var t1 := StepReceive(t, s.call.value.contact, End(s.call.value.callId, Hangup), now, now);
    RememberedOnly(t.recentlyEnded, s.call.value.callId, id);
    assert t1.call.None? && t1.nextSerial == s.nextSerial && id !in t1.recentlyEnded;
  }

  lemma {:induction false} WithoutOnly(ids: seq<CallId>, gone: CallId, id: CallId)
    requires id !in ids
    ensures id !in Without(ids, gone)
    decreases |ids|
  {
    if ids != [] { WithoutOnly(ids[1..], gone, id); }
  }

  lemma RememberedOnly(ids: seq<CallId>, added: CallId, id: CallId)
    requires id !in ids && id != added
    ensures id !in Touch(ids, added)
  {
    WithoutOnly(ids, added, id);
  }
}
