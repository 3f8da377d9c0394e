// What one event can do, seen from outside: to the identity and phase of the call, to the
// signals and rows going out, and to the memory of ended calls.
module CallOutline {
  import opened Options
  import opened CallTypes
  import opened CallMachine
  import opened CallInvariant

  datatype Key = Key(serial: nat, callId: CallId, contact: Contact, direction: Direction)

  function KeyOf(s: State): Option<Key> {
    match s.call
    case None => None
    case Some(c) => Some(Key(c.serial, c.callId, c.contact, c.direction))
  }

  predicate Offered(s: State) { s.call.Some? && s.call.value.offerSendStarted }

  predicate SameMemory(s: State, t: State) {
    t.recentlyEnded == s.recentlyEnded && t.log.remembered == s.log.remembered
  }

  predicate Remembers(s: State, t: State, id: CallId) {
    t.recentlyEnded == Touch(s.recentlyEnded, id) && t.log.remembered == s.log.remembered + [id]
  }

  predicate SentOne(s: State, t: State, to: Handle, signal: Signal) {
    t.log.sent == s.log.sent + [Outgoing(to, signal)]
  }

  // The event is this signal kind for the live call, from the live call's contact.
  predicate HeardFor(s: State, e: Event) {
    && s.call.Some? && e.Receive?
    && e.from.handle == s.call.value.contact.handle && e.signal.callId == s.call.value.callId
  }

  predicate StatusMoves(s: State, e: Event, t: State) {
    || t.status == s.status
    || (PastRinging(s.status) && PastRinging(t.status))
    || (s.status == Ending && t.status == Idle)
    || (s.status == Starting && t.status == OutgoingRinging)
    || (s.status == OutgoingRinging && t.status == Connecting && HeardFor(s, e)
        && (e.signal.Accept? || e.signal.Answer?))
  }

  // Nothing leaves the controller. An end for the live call passes only while starting, a
  // call that is placed only when another one is in progress.
  predicate Quiet(s: State, e: Event, t: State) {
    && KeyOf(t) == KeyOf(s) && Offered(t) == Offered(s) && SameMemory(s, t) && t.log == s.log && StatusMoves(s, e, t)
    && (HeardFor(s, e) && e.signal.End? ==> s.status == Starting) && (e.PlaceCall? ==> s.call.Some?)
  }

  // One signal about the live call, to its contact; the call goes on.
  predicate Spoke(s: State, e: Event, t: State) {
    && KeyOf(t) == KeyOf(s) && SameMemory(s, t) && t.log.rows == s.log.rows
    && s.call.Some? && !e.Receive?
    && var c := s.call.value;
       |t.log.sent| > 0 && var last := t.log.sent[|t.log.sent| - 1];
       && SentOne(s, t, c.contact.handle, last.signal) && last.signal.callId == c.callId
       && (match last.signal
           case Offer(_, _) => c.direction == Out && s.status == Starting == t.status && !Offered(s) && Offered(t)
           case Accept(_) => c.direction == In && s.status == IncomingRinging && t.status == Connecting
           case Answer(_, _) => c.direction == In && PastRinging(s.status) && t.status == s.status
           case End(_, _) => false)
  }

  // The live call is over. Silence needs a reason: the contact ended it, it was only ringing
  // here, or its offer never left.
  predicate Over(s: State, e: Event, t: State) {
    && s.call.Some? && t.call.None? && (t.status == Ending || t.status == Idle)
    && var c := s.call.value;
       && Remembers(s, t, c.callId)
       && (t.log.rows == s.log.rows
           || (|t.log.rows| > 0 && var row := t.log.rows[|t.log.rows| - 1];
               t.log.rows == s.log.rows + [row]
               && row.callId == c.callId && row.contactId == c.contact.id && row.direction == c.direction))
       && (|| (|t.log.sent| > 0 && var last := t.log.sent[|t.log.sent| - 1];
               SentOne(s, t, c.contact.handle, last.signal) && last.signal.End? && last.signal.callId == c.callId)
           || (t.log.sent == s.log.sent
               && ((HeardFor(s, e) && e.signal.End?) || s.status == IncomingRinging
                   || (s.status == Starting && !Offered(s)))))
  }

  predicate Placed(s: State, e: Event, t: State) {
    && e.PlaceCall? && s.call.None? && SameMemory(s, t) && t.log == s.log
    && KeyOf(t) == Some(Key(s.nextSerial, e.newId, e.contact, Out)) && t.status == Starting && !Offered(t)
  }

  predicate OfferHeard(s: State, e: Event) {
    e.Receive? && e.signal.Offer? && e.signal.callId !in s.recentlyEnded
  }

  predicate Adopted(s: State, e: Event, t: State) {
    && OfferHeard(s, e) && s.call.None? && SameMemory(s, t) && t.log == s.log
    && KeyOf(t) == Some(Key(s.nextSerial, e.signal.callId, e.from, In)) && t.status == IncomingRinging && !Offered(t)
  }

  // Lost a glare: the own offer is dropped without a word and theirs is accepted.
  predicate Yielded(s: State, e: Event, t: State) {
    && OfferHeard(s, e) && GlareEligible(s, e.from)
    && !OfferWins(s.call.value.callId, e.signal.callId)
    && Remembers(s, t, s.call.value.callId) && t.log.rows == s.log.rows
    && SentOne(s, t, e.from.handle, Accept(e.signal.callId))
    && KeyOf(t) == Some(Key(s.nextSerial, e.signal.callId, e.from, In)) && t.status == Connecting && !Offered(t)
  }

  // A call id is noted as over without touching the live call.
  predicate Noted(s: State, e: Event, t: State) {
    && e.Receive? && e.signal.callId !in s.recentlyEnded
    && (e.signal.Offer? || (e.signal.End? && !HeardFor(s, e)))
    && KeyOf(t) == KeyOf(s) && Offered(t) == Offered(s) && t.status == s.status
    && Remembers(s, t, e.signal.callId)
    && (t.log.sent == s.log.sent
        || (e.signal.Offer? && s.call.Some? && !GlareEligible(s, e.from)
            && SentOne(s, t, e.from.handle, End(e.signal.callId, Busy))))
    && (t.log.rows == s.log.rows
        || (!HeardFor(s, e) && t.log.rows == s.log.rows + [MissedRow(e.from, e.signal.callId)]))
  }

  predicate Permitted(s: State, e: Event, t: State) {
    || Quiet(s, e, t) || Spoke(s, e, t) || Over(s, e, t)
    || Placed(s, e, t) || Adopted(s, e, t) || Yielded(s, e, t) || Noted(s, e, t)
  }

  lemma FinishLog(s: State, reason: UiReason, row: Option<Row>)
    requires s.call.Some?
    ensures var c, t := s.call.value, Finish(s, reason, row);
            && t.call.None? && t.status == Ending && Remembers(s, t, c.callId)
            && t.log.sent == s.log.sent
            && t.log.rows == if row.Some? then s.log.rows + [row.value] else s.log.rows
  {
  }

  predicate OwnRow(c: ActiveCall, row: Option<Row>) {
    row.Some? ==>
      row.value.callId == c.callId && row.value.contactId == c.contact.id && row.value.direction == c.direction
  }

  // Both ways a call ends: with an end signal, or silently for one of the allowed reasons.
  lemma LoudFinishIsOver(s: State, mid: State, e: Event, end: EndReason, reason: UiReason, row: Option<Row>)
    requires mid.call.Some? && KeyOf(mid) == KeyOf(s) && SameMemory(s, mid) && mid.log == s.log
    requires OwnRow(mid.call.value, row)
    ensures Over(s, e, Finish(SendEnd(mid, end), reason, row))
  {
    FinishLog(SendEnd(mid, end), reason, row);
  }

  lemma SilentFinishIsOver(s: State, mid: State, e: Event, reason: UiReason, row: Option<Row>)
    requires mid.call.Some? && KeyOf(mid) == KeyOf(s) && SameMemory(s, mid) && mid.log == s.log
    requires OwnRow(mid.call.value, row)
    requires (HeardFor(s, e) && e.signal.End?) || s.status == IncomingRinging || (s.status == Starting && !Offered(s))
    ensures Over(s, e, Finish(mid, reason, row))
  {
    FinishLog(mid, reason, row);
  }

  lemma PlaceTurnOutline(s: State, g: nat, turn: TurnResult)
    requires Valid(s)
    ensures Permitted(s, PlaceTurnDone(g, turn), StepPlaceTurnDone(s, g, turn))
  {
    var e, s1 := PlaceTurnDone(g, turn), Land(s, PlaceTurn, g);
    if Flight(PlaceTurn, g) in s.flights && IsCurrent(s, g) {
      match turn
      case TurnFailed => SilentFinishIsOver(s, s1, e, NoTurn, None);
      case CreateThrew(err) => SilentFinishIsOver(s, s1, e, EngineReason(err), None);
      case EngineCreated => assert Quiet(s, e, StepPlaceTurnDone(s, g, turn));
    } else {
      assert Quiet(s, e, StepPlaceTurnDone(s, g, turn));
    }
  }

  lemma PlaceEngineOutline(s: State, g: nat, result: EngineResult)
    requires Valid(s)
    ensures Permitted(s, PlaceEngineDone(g, result), StepPlaceEngineDone(s, g, result))
  {
    var e, s1 := PlaceEngineDone(g, result), Land(s, PlaceEngine, g);
    if Flight(PlaceEngine, g) in s.flights && IsCurrent(s, g) {
      match result
      case Threw(err) => SilentFinishIsOver(s, s1, e, EngineReason(err), None);
      case Sdp(sdp) => assert Spoke(s, e, StepPlaceEngineDone(s, g, result));
    } else {
      assert Quiet(s, e, StepPlaceEngineDone(s, g, result));
    }
  }

  lemma PlaceSendOutline(s: State, g: nat, delivered: bool)
    requires Valid(s)
    ensures Permitted(s, PlaceSendDone(g, delivered), StepPlaceSendDone(s, g, delivered))
  {
    var e, s1 := PlaceSendDone(g, delivered), Land(s, PlaceSend, g);
    if Flight(PlaceSend, g) in s.flights && IsCurrent(s, g) && !delivered {
      LoudFinishIsOver(s, s1, e, Hangup, Failed, None);
    } else {
      assert Quiet(s, e, StepPlaceSendDone(s, g, delivered));
    }
  }

  lemma AnswerOutline(s: State)
    requires Valid(s)
    ensures Permitted(s, UserAnswer, StepAnswer(s))
  {
    if s.status == IncomingRinging {
      assert Spoke(s, UserAnswer, StepAnswer(s));
    }
  }

  function MissedByError(s: State): Option<Row>
    requires s.call.Some?
  {
    Some(RowFor(s.call.value, Missed, ErrorMark, false))
  }

  lemma AnswerTurnOutline(s: State, g: nat, turn: TurnResult)
    requires Valid(s)
    ensures Permitted(s, AnswerTurnDone(g, turn), StepAnswerTurnDone(s, g, turn))
  {
    var e, s1 := AnswerTurnDone(g, turn), Land(s, AnswerTurn, g);
    if Flight(AnswerTurn, g) in s.flights && IsCurrent(s, g) && !turn.EngineCreated? {
      var reason := if turn.TurnFailed? then NoTurn else EngineReason(turn.error);
      LoudFinishIsOver(s, s1, e, Error, reason, MissedByError(s));
    } else {
      assert Quiet(s, e, StepAnswerTurnDone(s, g, turn));
    }
  }

  lemma AnswerEngineOutline(s: State, g: nat, result: EngineResult)
    requires Valid(s)
    ensures Permitted(s, AnswerEngineDone(g, result), StepAnswerEngineDone(s, g, result))
  {
    var e, s1 := AnswerEngineDone(g, result), Land(s, AnswerEngine, g);
    if Flight(AnswerEngine, g) in s.flights && IsCurrent(s, g) {
      match result
      case Threw(err) => LoudFinishIsOver(s, s1, e, Error, EngineReason(err), MissedByError(s));
      case Sdp(sdp) => assert Spoke(s, e, StepAnswerEngineDone(s, g, result));
    } else {
      assert Quiet(s, e, StepAnswerEngineDone(s, g, result));
    }
  }

  lemma AnswerSendOutline(s: State, g: nat, delivered: bool)
    requires Valid(s)
    ensures Permitted(s, AnswerSendDone(g, delivered), StepAnswerSendDone(s, g, delivered))
  {
    var e, s1 := AnswerSendDone(g, delivered), Land(s, AnswerSend, g);
    if Flight(AnswerSend, g) in s.flights && IsCurrent(s, g) && !delivered {
      LoudFinishIsOver(s, s1, e, Error, Failed, MissedByError(s));
    } else {
      assert Quiet(s, e, StepAnswerSendDone(s, g, delivered));
    }
  }

  lemma ApplyOutline(s: State, g: nat, applied: bool)
    requires Valid(s)
    ensures Permitted(s, ApplyAnswerDone(g, applied), StepApplyAnswerDone(s, g, applied))
  {
    var e, s1 := ApplyAnswerDone(g, applied), Land(s, ApplyAnswer, g);
    if Flight(ApplyAnswer, g) in s.flights && IsCurrent(s, g) && !applied {
      LoudFinishIsOver(s, s1, e, Error, ConnectionLost, MissedByError(s));
    } else {
      AppliedIsQuiet(s, g, applied);
    }
  }

  lemma AppliedIsQuiet(s: State, g: nat, applied: bool)
    requires Valid(s) && !(Flight(ApplyAnswer, g) in s.flights && IsCurrent(s, g) && !applied)
    ensures Quiet(s, ApplyAnswerDone(g, applied), StepApplyAnswerDone(s, g, applied))
  {
  }

  lemma DeclineOutline(s: State, e: Event)
    requires Valid(s) && !e.Receive? && !e.PlaceCall?
    ensures Permitted(s, e, StepDecline(s))
  {
    if s.status == IncomingRinging {
      var row := Some(RowFor(s.call.value, DeclinedCall, NoBody, false));
      LoudFinishIsOver(s, s, e, Decline, UiReason.Declined, row);
    } else {
      assert Quiet(s, e, StepDecline(s));
    }
  }

  lemma HangUpOutline(s: State, e: Event, now: int)
    requires Valid(s) && !e.Receive? && !e.PlaceCall?
    ensures Permitted(s, e, StepHangUp(s, now))
  {
    if s.call.None? {
      assert Quiet(s, e, StepHangUp(s, now));
    } else if s.status == IncomingRinging {
      DeclineOutline(s, e);
    } else if s.status == Starting && !Offered(s) {
      SilentFinishIsOver(s, s, e, Canceled, None);
    } else {
      HangUpIsOver(s, e, now);
    }
  }

  lemma HangUpIsOver(s: State, e: Event, now: int)
    requires Valid(s) && s.call.Some? && s.status != IncomingRinging && (s.status == Starting ==> Offered(s))
    ensures Over(s, e, StepHangUp(s, now))
  {
    HangUpIsLoud(s, now);
    LoudFinishIsOver(s, s, e, Hangup, HangUpReason(s), Some(HangUpRow(s, now)));
  }

  function HangUpReason(s: State): UiReason {
    if s.status == Active || s.status == Reconnecting then Ended else Canceled
  }

  function HangUpRow(s: State, now: int): Row
    requires s.call.Some?
  {
    var c := s.call.value;
    if s.status == Active || s.status == Reconnecting then CompletedRow(c, now)
    else if c.direction == Out then RowFor(c, Missed, CanceledMark, false)
    else RowFor(c, DeclinedCall, NoBody, false)
  }

  lemma HangUpIsLoud(s: State, now: int)
    requires Valid(s) && s.call.Some? && s.status != IncomingRinging && (s.status == Starting ==> Offered(s))
    ensures StepHangUp(s, now) == Finish(SendEnd(s, Hangup), HangUpReason(s), Some(HangUpRow(s, now)))
  {
  }

  lemma LoudTeardownIsOver(s: State, e: Event, end: EndReason, row: Row)
    requires s.call.Some? && OwnRow(s.call.value, Some(row))
    ensures var t := Teardown(WriteRow(SendEnd(s, end), row), s.call.value);
            Over(s, e, t.(status := Idle, endReason := None, endingView := None))
  {
  }

  lemma LockOutline(s: State, now: int)
    requires Valid(s)
    ensures Permitted(s, AppLocking(now), StepAppLocking(s, now))
  {
    var e, t := AppLocking(now), StepAppLocking(s, now);
    if s.call.None? {
      assert Quiet(s, e, t);
    } else {
      var farewell := LockFarewell(s, now);
      if farewell.None? {
        assert Over(s, e, t);
      } else {
        LoudTeardownIsOver(s, e, farewell.value.reason, farewell.value.row);
      }
    }
  }

  lemma YieldOutline(s: State, e: Event)
    requires Valid(s) && OfferHeard(s, e) && GlareEligible(s, e.from)
        && !OfferWins(s.call.value.callId, e.signal.callId)
    ensures Yielded(s, e, LoseGlare(s, e.from, e.signal.callId, e.signal.sdp))
  {
  }

  lemma OfferOutline(s: State, from: Contact, callId: CallId, sdp: string, sentAt: int, now: int)
    requires Valid(s)
    ensures var e := Receive(from, Offer(callId, sdp), sentAt, now);
            Permitted(s, e, HandleOffer(s, from, callId, sdp, sentAt, now))
  {
    var e, t := Receive(from, Offer(callId, sdp), sentAt, now), HandleOffer(s, from, callId, sdp, sentAt, now);
    if callId in s.recentlyEnded {
      assert Quiet(s, e, t);
    } else if s.call.None? {
      assert if now - sentAt >= STALE_OFFER_MS then Noted(s, e, t) else Adopted(s, e, t);
    } else if !GlareEligible(s, from) || OfferWins(s.call.value.callId, callId) {
      assert Noted(s, e, t);
    } else {
      YieldOutline(s, e);
    }
  }

  lemma ConsentOutline(s: State, from: Contact, callId: CallId, sdp: string, sentAt: int, now: int)
    requires Valid(s)
    ensures Permitted(s, Receive(from, Accept(callId), sentAt, now), HandleAccepted(s, from, callId))
    ensures Permitted(s, Receive(from, Answer(callId, sdp), sentAt, now), HandleAnswer(s, from, callId))
  {
    assert Quiet(s, Receive(from, Accept(callId), sentAt, now), HandleAccepted(s, from, callId));
    assert Quiet(s, Receive(from, Answer(callId, sdp), sentAt, now), HandleAnswer(s, from, callId));
  }

  lemma EndUnansweredIsOver(s: State, from: Contact, callId: CallId, reason: EndReason, sentAt: int, now: int)
    requires Valid(s) && EndsLiveCall(s, from, callId) && s.status == OutgoingRinging
    ensures Over(s, Receive(from, End(callId, reason), sentAt, now), HandleEnd(s, from, callId, reason, now))
  {
    var e, c := Receive(from, End(callId, reason), sentAt, now), s.call.value;
    if reason == Decline {
      SilentFinishIsOver(s, s, e, UiReason.Declined, Some(RowFor(c, DeclinedCall, NoBody, false)));
    } else if reason == Busy {
      SilentFinishIsOver(s, s, e, WasBusy, Some(RowFor(c, Missed, BusyMark, false)));
    } else {
      SilentFinishIsOver(s, s, e, Ended, Some(RowFor(c, Missed, NoBody, false)));
    }
  }

  lemma EndIsOver(s: State, from: Contact, callId: CallId, reason: EndReason, sentAt: int, now: int)
    requires Valid(s) && EndsLiveCall(s, from, callId) && s.status != OutgoingRinging && s.status != Starting
    ensures Over(s, Receive(from, End(callId, reason), sentAt, now), HandleEnd(s, from, callId, reason, now))
  {
    var e, c := Receive(from, End(callId, reason), sentAt, now), s.call.value;
    match s.status
    case IncomingRinging => SilentFinishIsOver(s, s, e, Ended, Some(RowFor(c, Missed, NoBody, true)));
    case Connecting => SilentFinishIsOver(s, s, e, Ended, MissedByError(s));
    case Active => SilentFinishIsOver(s, s, e, Ended, Some(CompletedRow(c, now)));
    case Reconnecting => SilentFinishIsOver(s, s, e, Ended, Some(CompletedRow(c, now)));
  }

  lemma StrayEndIsQuietOrNoted(s: State, from: Contact, callId: CallId, reason: EndReason, sentAt: int, now: int)
    requires Valid(s) && (!EndsLiveCall(s, from, callId) || s.status == Starting)
    ensures var e, t := Receive(from, End(callId, reason), sentAt, now), HandleEnd(s, from, callId, reason, now);
            Quiet(s, e, t) || Noted(s, e, t)
  {
  }

  lemma EndOutline(s: State, from: Contact, callId: CallId, reason: EndReason, sentAt: int, now: int)
    requires Valid(s)
    ensures var e := Receive(from, End(callId, reason), sentAt, now);
            Permitted(s, e, HandleEnd(s, from, callId, reason, now))
  {
    if !EndsLiveCall(s, from, callId) || s.status == Starting {
      StrayEndIsQuietOrNoted(s, from, callId, reason, sentAt, now);
    } else if s.status == OutgoingRinging {
      EndUnansweredIsOver(s, from, callId, reason, sentAt, now);
    } else {
      EndIsOver(s, from, callId, reason, sentAt, now);
    }
  }

  lemma IceOutline(s: State, g: nat, ice: IceState, now: int)
    requires Valid(s)
    ensures Permitted(s, Ice(g, ice, now), StepIce(s, g, ice, now))
  {
    var e := Ice(g, ice, now);
    if IsCurrent(s, g) && ice == IceFailed && PastRinging(s.status) {
      if s.status == Connecting {
        LoudFinishIsOver(s, s, e, Error, ConnectionLost, MissedByError(s));
      } else {
        LoudFinishIsOver(s, s, e, Error, ConnectionLost, Some(CompletedRow(s.call.value, now)));
      }
    } else {
      assert Quiet(s, e, StepIce(s, g, ice, now));
    }
  }

  lemma RingTimerOutline(s: State, g: nat, now: int)
    requires Valid(s) && RingTimer(g) in s.timers.scheduled
    ensures Permitted(s, Fire(RingTimer(g), now), StepFire(s, RingTimer(g), now))
  {
    var e, s1 := Fire(RingTimer(g), now), s.(timers := s.timers.Expire(RingTimer(g)));
    if s.status == OutgoingRinging {
      LoudFinishIsOver(s, s1, e, Timeout, NoAnswer, Some(RowFor(s.call.value, Missed, NoBody, false)));
    } else {
      SilentFinishIsOver(s, s1, e, Ended, Some(RowFor(s.call.value, Missed, NoBody, true)));
    }
  }

  lemma ConnectTimerOutline(s: State, g: nat, now: int)
    requires Valid(s) && ConnectTimer(g) in s.timers.scheduled
    ensures Permitted(s, Fire(ConnectTimer(g), now), StepFire(s, ConnectTimer(g), now))
  {
    var e, s1 := Fire(ConnectTimer(g), now), s.(timers := s.timers.Expire(ConnectTimer(g)));
    if s.status == Connecting {
      LoudFinishIsOver(s, s1, e, Error, ConnectionLost, MissedByError(s));
    } else {
      assert Quiet(s, e, StepFire(s, ConnectTimer(g), now));
    }
  }

  lemma FireOutline(s: State, t: Timer, now: int)
    requires Valid(s)
    ensures Permitted(s, Fire(t, now), StepFire(s, t, now))
  {
    var e := Fire(t, now);
    if t !in s.timers.scheduled {
      assert Quiet(s, e, StepFire(s, t, now));
    } else {
      match t
      case RingTimer(g) => RingTimerOutline(s, g, now);
      case ConnectTimer(g) => ConnectTimerOutline(s, g, now);
      case DisconnectTimer(g) => DisconnectTimerIsOver(s, g, now);
      case LingerTimer(g) => LingerTimerIsQuiet(s, g, now);
    }
  }

  lemma DisconnectTimerIsOver(s: State, g: nat, now: int)
    requires Valid(s) && DisconnectTimer(g) in s.timers.scheduled
    ensures Over(s, Fire(DisconnectTimer(g), now), StepFire(s, DisconnectTimer(g), now))
  {
    var s1 := s.(timers := s.timers.Expire(DisconnectTimer(g)));
    LoudFinishIsOver(
      s, s1, Fire(DisconnectTimer(g), now), Error, ConnectionLost, Some(CompletedRow(s.call.value, now)));
  }

  lemma LingerTimerIsQuiet(s: State, g: nat, now: int)
    requires Valid(s) && LingerTimer(g) in s.timers.scheduled
    ensures Quiet(s, Fire(LingerTimer(g), now), StepFire(s, LingerTimer(g), now))
  {
  }

  lemma PlainOutline(s: State, contact: Contact, id: CallId, flag: bool)
    requires Valid(s)
    ensures Permitted(s, PlaceCall(contact, id), StepPlaceCall(s, contact, id))
    ensures Permitted(s, SetMuted(flag), StepSetMuted(s, flag))
    ensures Permitted(s, SetSpeaker(flag), StepSetSpeaker(s, flag))
  {
    assert Quiet(s, SetMuted(flag), StepSetMuted(s, flag));
    assert Quiet(s, SetSpeaker(flag), StepSetSpeaker(s, flag));
    var e, t := PlaceCall(contact, id), StepPlaceCall(s, contact, id);
    assert if s.call.None? then Placed(s, e, t) else Quiet(s, e, t);
  }

  lemma ReceiveOutline(s: State, e: Event)
    requires Valid(s) && e.Receive?
    ensures Permitted(s, e, Step(s, e))
  {
    match e.signal
    case Offer(id, sdp) => OfferOutline(s, e.from, id, sdp, e.sentAt, e.now);
    case Accept(id) => ConsentOutline(s, e.from, id, "", e.sentAt, e.now);
    case Answer(id, sdp) => ConsentOutline(s, e.from, id, sdp, e.sentAt, e.now);
    case End(id, reason) => EndOutline(s, e.from, id, reason, e.sentAt, e.now);
  }

  lemma ChainOutline(s: State, e: Event)
    requires Valid(s)
    requires e.PlaceTurnDone? || e.PlaceEngineDone? || e.PlaceSendDone?
          || e.AnswerTurnDone? || e.AnswerEngineDone? || e.AnswerSendDone? || e.ApplyAnswerDone?
    ensures Permitted(s, e, Step(s, e))
  {
    match e
    case PlaceTurnDone(g, r) => PlaceTurnOutline(s, g, r);
    case PlaceEngineDone(g, r) => PlaceEngineOutline(s, g, r);
    case PlaceSendDone(g, ok) => PlaceSendOutline(s, g, ok);
    case AnswerTurnDone(g, r) => AnswerTurnOutline(s, g, r);
    case AnswerEngineDone(g, r) => AnswerEngineOutline(s, g, r);
    case AnswerSendDone(g, ok) => AnswerSendOutline(s, g, ok);
    case ApplyAnswerDone(g, ok) => ApplyOutline(s, g, ok);
  }

  // Every event of every reachable state does one of the seven things above and no more.
  lemma StepIsPermitted(s: State, e: Event)
    requires Valid(s)
    ensures Permitted(s, e, Step(s, e))
  {
    match e
    case PlaceCall(contact, id) => PlainOutline(s, contact, id, true);
    case UserAnswer => AnswerOutline(s);
    case UserDecline => DeclineOutline(s, e);
    case UserHangUp(now) => HangUpOutline(s, e, now);
    case SetMuted(m) => PlainOutline(s, Contact("", ""), "", m);
    case SetSpeaker(on) => PlainOutline(s, Contact("", ""), "", on);
    case AppLocking(now) => LockOutline(s, now);
    case Receive(_, _, _, _) => ReceiveOutline(s, e);
    case Ice(g, ice, now) => IceOutline(s, g, ice, now);
    case Fire(t, now) => FireOutline(s, t, now);
    case _ => ChainOutline(s, e);
  }
}
