// What every reachable state of one controller satisfies: no live call can hang, nothing
// stale acts, no media engine outlives its call.
module CallInvariant {
  import opened Options
  import opened CallTypes
  import opened CallMachine

  predicate Ringing(status: Status) { status == OutgoingRinging || status == IncomingRinging }

  predicate PastRinging(status: Status) { status == Connecting || status == Active || status == Reconnecting }

  // No timeout is scheduled that a field does not hold, and none held that is not scheduled.
  predicate Accounted(t: Timers) {
    t.scheduled ==
      (if t.ring.Some? then {RingTimer(t.ring.value)} else {}) +
      (if t.connect.Some? then {ConnectTimer(t.connect.value)} else {}) +
      (if t.disconnect.Some? then {DisconnectTimer(t.disconnect.value)} else {}) +
      (if t.linger.Some? then {LingerTimer(t.linger.value)} else {})
  }

  function CurrentSerial(s: State): Option<nat> {
    if s.call.Some? then Some(s.call.value.serial) else None
  }

  // Which timers are armed in which status, and for whom.
  predicate TimersMatch(t: Timers, status: Status, current: Option<nat>) {
    && Accounted(t)
    && (t.ring.Some? <==> Ringing(status))
    && (t.disconnect.Some? <==> status == Reconnecting)
    && (t.linger.Some? <==> status == Ending)
    && (t.connect.Some? ==> PastRinging(status))
    && (t.ring.Some? ==> t.ring == current)
    && (t.connect.Some? ==> t.connect == current)
    && (t.disconnect.Some? ==> t.disconnect == current)
  }

  predicate CallMatchesStatus(s: State) {
    && (s.call.Some? <==> s.status != Idle && s.status != Ending)
    && (s.endReason.Some? <==> s.status == Ending)
    && (s.endingView.Some? <==> s.status == Ending)
    && (s.ringtone <==> s.status == IncomingRinging)
    && (s.callAudio <==> s.status == Active || s.status == Reconnecting)
    && (s.call.Some? ==> s.status == Starting || s.status == OutgoingRinging ==> s.call.value.direction == Out)
    && (s.call.Some? ==> s.status == IncomingRinging ==> s.call.value.direction == In)
  }

  predicate PlaceInFlight(flights: set<Flight>, g: nat) {
    Flight(PlaceTurn, g) in flights || Flight(PlaceEngine, g) in flights || Flight(PlaceSend, g) in flights
  }

  predicate AnswerInFlight(flights: set<Flight>, g: nat) {
    Flight(AnswerTurn, g) in flights || Flight(AnswerEngine, g) in flights || Flight(AnswerSend, g) in flights
  }

  predicate PlaceChainMatches(flights: set<Flight>, c: ActiveCall, status: Status) {
    && (PlaceInFlight(flights, c.serial) <==> status == Starting)
    && (Flight(PlaceTurn, c.serial) in flights ==> c.engine.None? && !c.offerSendStarted)
    && (Flight(PlaceEngine, c.serial) in flights ==> c.engine.Some? && !c.offerSendStarted)
    && (Flight(PlaceSend, c.serial) in flights ==> c.engine.Some? && c.offerSendStarted)
    && (Flight(PlaceTurn, c.serial) !in flights || Flight(PlaceEngine, c.serial) !in flights)
    && (status == OutgoingRinging ==> c.engine.Some? && c.offerSendStarted)
  }

  predicate AnswerChainMatches(flights: set<Flight>, c: ActiveCall, status: Status) {
    && (AnswerInFlight(flights, c.serial) ==> c.direction == In && PastRinging(status))
    && (Flight(AnswerTurn, c.serial) in flights ==> c.engine.None?)
    && (Flight(AnswerTurn, c.serial) !in flights || Flight(AnswerEngine, c.serial) !in flights)
    && (Flight(AnswerTurn, c.serial) !in flights || Flight(AnswerSend, c.serial) !in flights)
    && (Flight(AnswerEngine, c.serial) !in flights || Flight(AnswerSend, c.serial) !in flights)
    && (status == IncomingRinging ==> c.engine.None?)
  }

  predicate Bounded(flights: set<Flight>, nextSerial: nat) {
    forall f :: f in flights ==> f.serial < nextSerial
  }

  // The chains of the current call are where its fields say they are, and one of them or
  // the connect timer is always there to move `connecting` on.
  predicate ChainsMatch(
      flights: set<Flight>, nextSerial: nat, call: Option<ActiveCall>, status: Status, connect: Option<nat>)
  {
    && Bounded(flights, nextSerial)
    && (call.Some? ==>
          && call.value.serial < nextSerial
          && PlaceChainMatches(flights, call.value, status)
          && AnswerChainMatches(flights, call.value, status)
          && (status == Connecting ==>
                connect.Some? || (call.value.direction == In && AnswerInFlight(flights, call.value.serial))))
  }

  predicate EnginesMatch(open: set<nat>, nextEngine: nat, call: Option<ActiveCall>) {
    && (forall e :: e in open ==> e < nextEngine)
    && open == (if call.Some? && call.value.engine.Some? then {call.value.engine.value} else {})
  }

  predicate Valid(s: State) {
    && TimersMatch(s.timers, s.status, CurrentSerial(s))
    && CallMatchesStatus(s)
    && ChainsMatch(s.flights, s.nextSerial, s.call, s.status, s.timers.connect)
    && EnginesMatch(s.openEngines, s.nextEngine, s.call)
  }

  // What finish needs of the state it tears down; it holds halfway through an event, too.
  predicate Live(s: State) {
    && s.call.Some? && s.call.value.serial < s.nextSerial
    && Accounted(s.timers) && s.timers.linger.None?
    && Bounded(s.flights, s.nextSerial)
    && EnginesMatch(s.openEngines, s.nextEngine, s.call)
  }

  lemma ClearKeepsAccounted(t: Timers)
    requires Accounted(t)
    ensures Accounted(t.ClearRing()) && Accounted(t.ClearConnect()) && Accounted(t.ClearDisconnect())
    ensures Accounted(t.ClearLinger())
  {
  }

  lemma ClearCallKeepsAccounted(t: Timers)
    requires Accounted(t)
    ensures Accounted(t.ClearCall())
    ensures t.ClearCall() == NO_TIMERS.(linger := t.linger, scheduled := t.ClearCall().scheduled)
  {
    ClearKeepsAccounted(t);
    ClearKeepsAccounted(t.ClearRing());
    ClearKeepsAccounted(t.ClearRing().ClearConnect());
  }

  lemma TeardownClears(s: State)
    requires Live(s)
    ensures var t := Teardown(s, s.call.value);
            && t.call.None? && t.timers == NO_TIMERS && t.openEngines == {}
            && !t.ringtone && !t.callAudio
            && t.flights == s.flights && t.nextSerial == s.nextSerial && t.nextEngine == s.nextEngine
  {
    ClearCallKeepsAccounted(s.timers);
  }

  lemma FinishIsValid(s: State, reason: UiReason, row: Option<Row>)
    requires Live(s)
    ensures Valid(Finish(s, reason, row))
  {
    var s1 := (if row.Some? then WriteRow(s, row.value) else s)
      .(endingView := Some(EndingView(s.call.value.contact.id, s.call.value.direction)));
    TeardownClears(s1);
  }

  lemma PlaceCallKeepsValid(s: State, contact: Contact, id: CallId)
    requires Valid(s)
    ensures Valid(StepPlaceCall(s, contact, id))
  {
  }

  lemma PlaceTurnKeepsValid(s: State, g: nat, turn: TurnResult)
    requires Valid(s)
    ensures Valid(StepPlaceTurnDone(s, g, turn))
  {
    if Flight(PlaceTurn, g) in s.flights && IsCurrent(s, g) {
      var s1 := Land(s, PlaceTurn, g);
      match turn
      case TurnFailed => FinishIsValid(s1, NoTurn, None);
      case CreateThrew(err) => FinishIsValid(s1, EngineReason(err), None);
      case EngineCreated =>
    }
  }

  lemma PlaceEngineKeepsValid(s: State, g: nat, result: EngineResult)
    requires Valid(s)
    ensures Valid(StepPlaceEngineDone(s, g, result))
  {
    if Flight(PlaceEngine, g) in s.flights && IsCurrent(s, g) && result.Threw? {
      FinishIsValid(Land(s, PlaceEngine, g), EngineReason(result.error), None);
    }
  }

  lemma PlaceSendKeepsValid(s: State, g: nat, delivered: bool)
    requires Valid(s)
    ensures Valid(StepPlaceSendDone(s, g, delivered))
  {
    if Flight(PlaceSend, g) in s.flights && IsCurrent(s, g) && !delivered {
      FinishIsValid(SendEnd(Land(s, PlaceSend, g), Hangup), Failed, None);
    }
  }

  lemma AnswerFailedIsValid(s: State, reason: UiReason)
    requires Live(s)
    ensures Valid(AnswerFailed(s, reason))
  {
    var s1 := SendEnd(s, Error);
    FinishIsValid(s1, reason, Some(RowFor(s1.call.value, Missed, ErrorMark, false)));
  }

  // The state an incoming call is adopted in: no call, nothing scheduled but a linger.
  predicate Vacant(s: State) {
    && s.call.None? && Accounted(s.timers)
    && s.timers.ring.None? && s.timers.connect.None? && s.timers.disconnect.None?
    && !s.callAudio && (s.endReason.Some? ==> s.status == Ending)
    && Bounded(s.flights, s.nextSerial)
    && EnginesMatch(s.openEngines, s.nextEngine, s.call)
  }

  lemma AnswerKeepsValid(s: State)
    requires Valid(s)
    ensures Valid(StepAnswer(s))
  {
    ClearKeepsAccounted(s.timers);
  }

  lemma AdoptIsValid(s: State, from: Contact, callId: CallId, sdp: string, autoAnswer: bool)
    requires Vacant(s)
    ensures Valid(AdoptIncoming(s, from, callId, sdp, autoAnswer))
  {
    var loud := AdoptIncoming(s, from, callId, sdp, false);
    assert Valid(loud);
    AnswerKeepsValid(loud);
    assert StepAnswer(RingIncoming(s, from, callId, sdp)) == StepAnswer(loud);
  }

  lemma AnswerTurnKeepsValid(s: State, g: nat, turn: TurnResult)
    requires Valid(s)
    ensures Valid(StepAnswerTurnDone(s, g, turn))
  {
    if Flight(AnswerTurn, g) in s.flights && IsCurrent(s, g) {
      var s1 := Land(s, AnswerTurn, g);
      match turn
      case TurnFailed => AnswerFailedIsValid(s1, NoTurn);
      case CreateThrew(err) => AnswerFailedIsValid(s1, EngineReason(err));
      case EngineCreated =>
    }
  }

  lemma AnswerEngineKeepsValid(s: State, g: nat, result: EngineResult)
    requires Valid(s)
    ensures Valid(StepAnswerEngineDone(s, g, result))
  {
    if Flight(AnswerEngine, g) in s.flights && IsCurrent(s, g) && result.Threw? {
      AnswerFailedIsValid(Land(s, AnswerEngine, g), EngineReason(result.error));
    }
  }

  lemma AnswerSendKeepsValid(s: State, g: nat, delivered: bool)
    requires Valid(s)
    ensures Valid(StepAnswerSendDone(s, g, delivered))
  {
    if Flight(AnswerSend, g) in s.flights && IsCurrent(s, g) {
      if delivered {
        ClearKeepsAccounted(s.timers);
      } else {
        AnswerFailedIsValid(Land(s, AnswerSend, g), Failed);
      }
    }
  }

  lemma FinishWithIsValid(s: State, reason: UiReason, kind: RowKind, body: RowBody, unread: bool)
    requires Live(s)
    ensures Valid(FinishWith(s, reason, kind, body, unread))
  {
    FinishIsValid(s, reason, Some(RowFor(s.call.value, kind, body, unread)));
  }

  lemma FinishCompletedIsValid(s: State, reason: UiReason, now: int)
    requires Live(s)
    ensures Valid(FinishCompleted(s, reason, now))
  {
    FinishIsValid(s, reason, Some(CompletedRow(s.call.value, now)));
  }

  lemma DeclineKeepsValid(s: State)
    requires Valid(s)
    ensures Valid(StepDecline(s))
  {
    if s.status == IncomingRinging {
      FinishWithIsValid(SendEnd(s, Decline), UiReason.Declined, DeclinedCall, NoBody, false);
    }
  }

  lemma HangUpKeepsValid(s: State, now: int)
    requires Valid(s)
    ensures Valid(StepHangUp(s, now))
  {
    match s.status
    case Starting =>
      FinishIsValid(s, Canceled, None);
      FinishWithIsValid(SendEnd(s, Hangup), Canceled, Missed, CanceledMark, false);
    case OutgoingRinging => FinishWithIsValid(SendEnd(s, Hangup), Canceled, Missed, CanceledMark, false);
    case IncomingRinging => DeclineKeepsValid(s);
    case Connecting =>
      FinishWithIsValid(SendEnd(s, Hangup), Canceled, Missed, CanceledMark, false);
      FinishWithIsValid(SendEnd(s, Hangup), Canceled, DeclinedCall, NoBody, false);
    case Active => FinishCompletedIsValid(SendEnd(s, Hangup), Ended, now);
    case Reconnecting => FinishCompletedIsValid(SendEnd(s, Hangup), Ended, now);
    case _ =>
  }

  lemma LockKeepsValid(s: State, now: int)
    requires Valid(s)
    ensures Valid(StepAppLocking(s, now))
    ensures s.call.Some? ==> StepAppLocking(s, now).status == Idle
  {
    if s.call.Some? {
      var t := StepAppLocking(s, now);
      var s1 := s.(log := s.log.(sent := t.log.sent, rows := t.log.rows));
      TeardownClears(s1);
      assert t == Teardown(s1, s.call.value).(status := Idle, endReason := None, endingView := None);
    }
  }

  lemma LoseGlareIsValid(s: State, from: Contact, callId: CallId, sdp: string)
    requires Valid(s) && GlareEligible(s, from)
    ensures Valid(LoseGlare(s, from, callId, sdp))
  {
    var c := s.call.value;
    var s1 := Remember(CloseEngine(ClearTimers(s), c), c.callId).(call := None);
    ClearCallKeepsAccounted(s.timers);
    AdoptIsValid(s1, from, callId, sdp, true);
  }

  lemma RememberKeepsValid(s: State, callId: CallId)
    requires Valid(s)
    ensures Valid(Remember(s, callId))
  {
  }

  lemma RefuseBusyKeepsValid(s: State, from: Contact, callId: CallId)
    requires Valid(s) && s.call.Some?
    ensures Valid(RefuseBusy(s, from, callId))
  {
  }

  lemma OfferKeepsValid(s: State, from: Contact, callId: CallId, sdp: string, sentAt: int, now: int)
    requires Valid(s)
    ensures Valid(HandleOffer(s, from, callId, sdp, sentAt, now))
  {
    if callId in s.recentlyEnded {
    } else if s.call.None? {
      RememberKeepsValid(s, callId);
      AdoptIsValid(s, from, callId, sdp, false);
    } else if !GlareEligible(s, from) {
      RefuseBusyKeepsValid(s, from, callId);
    } else if OfferWins(s.call.value.callId, callId) {
      RememberKeepsValid(s, callId);
    } else {
      LoseGlareIsValid(s, from, callId, sdp);
    }
  }

  lemma AcceptedKeepsValid(s: State, from: Contact, callId: CallId)
    requires Valid(s)
    ensures Valid(HandleAccepted(s, from, callId))
  {
    ClearKeepsAccounted(s.timers);
    ClearKeepsAccounted(s.timers.ClearRing());
  }

  lemma EnteringConnectingIsValid(s: State, c: ActiveCall)
    requires Valid(s) && s.call.Some? && c == s.call.value.(answerApplied := true) && c.direction == Out
    requires s.status == OutgoingRinging || s.status == Connecting
    ensures Valid(EnterConnecting(s.(call := Some(c)), c.serial))
  {
    ClearKeepsAccounted(s.timers);
    ClearKeepsAccounted(s.timers.ClearRing());
  }

  lemma LaunchApplyIsValid(s: State)
    requires Valid(s) && s.call.Some?
    ensures Valid(Launch(s, ApplyAnswer, s.call.value.serial))
  {
  }

  lemma AnswerSignalKeepsValid(s: State, from: Contact, callId: CallId)
    requires Valid(s)
    ensures Valid(HandleAnswer(s, from, callId))
  {
    var t := HandleAnswer(s, from, callId);
    if t != s {
      var c := s.call.value.(answerApplied := true);
      EnteringConnectingIsValid(s, c);
      LaunchApplyIsValid(EnterConnecting(s.(call := Some(c)), c.serial));
    }
  }

  // The peer's end of a ringing call, in and out.
  lemma EndOfIncomingIsValid(s: State, from: Contact, callId: CallId, reason: EndReason, now: int)
    requires Valid(s) && EndsLiveCall(s, from, callId) && s.status == IncomingRinging
    ensures Valid(HandleEnd(s, from, callId, reason, now))
  {
    FinishWithIsValid(s, Ended, Missed, NoBody, true);
  }

  lemma EndOfOutgoingIsValid(s: State, from: Contact, callId: CallId, reason: EndReason, now: int)
    requires Valid(s) && EndsLiveCall(s, from, callId) && s.status == OutgoingRinging
    ensures Valid(HandleEnd(s, from, callId, reason, now))
  {
    if reason == Decline {
      FinishWithIsValid(s, UiReason.Declined, DeclinedCall, NoBody, false);
    } else if reason == Busy {
      FinishWithIsValid(s, WasBusy, Missed, BusyMark, false);
    } else {
      FinishWithIsValid(s, Ended, Missed, NoBody, false);
    }
  }

  lemma EndWhileConnectingIsValid(s: State, from: Contact, callId: CallId, reason: EndReason, now: int)
    requires Valid(s) && EndsLiveCall(s, from, callId) && s.status == Connecting
    ensures Valid(HandleEnd(s, from, callId, reason, now))
  {
    FinishWithIsValid(s, Ended, Missed, ErrorMark, false);
  }

  lemma EndOfTalkIsValid(s: State, from: Contact, callId: CallId, reason: EndReason, now: int)
    requires Valid(s) && EndsLiveCall(s, from, callId) && (s.status == Active || s.status == Reconnecting)
    ensures Valid(HandleEnd(s, from, callId, reason, now))
  {
    FinishCompletedIsValid(s, Ended, now);
  }

  lemma StrayEndIsValid(s: State, from: Contact, callId: CallId, reason: EndReason, now: int)
    requires Valid(s)
    requires !EndsLiveCall(s, from, callId) || s.status == Idle || s.status == Ending || s.status == Starting
    ensures Valid(HandleEnd(s, from, callId, reason, now))
  {
  }

  lemma EndKeepsValid(s: State, from: Contact, callId: CallId, reason: EndReason, now: int)
    requires Valid(s)
    ensures Valid(HandleEnd(s, from, callId, reason, now))
  {
    if EndsLiveCall(s, from, callId) {
      match s.status
      case IncomingRinging => EndOfIncomingIsValid(s, from, callId, reason, now);
      case OutgoingRinging => EndOfOutgoingIsValid(s, from, callId, reason, now);
      case Connecting => EndWhileConnectingIsValid(s, from, callId, reason, now);
      case Active => EndOfTalkIsValid(s, from, callId, reason, now);
      case Reconnecting => EndOfTalkIsValid(s, from, callId, reason, now);
      case _ => StrayEndIsValid(s, from, callId, reason, now);
    } else {
      StrayEndIsValid(s, from, callId, reason, now);
    }
  }

  lemma ApplyKeepsValid(s: State, g: nat, applied: bool)
    requires Valid(s)
    ensures Valid(StepApplyAnswerDone(s, g, applied))
  {
    if Flight(ApplyAnswer, g) in s.flights && !applied && IsCurrent(s, g) {
      FinishWithIsValid(SendEnd(Land(s, ApplyAnswer, g), Error), ConnectionLost, Missed, ErrorMark, false);
    }
  }

  lemma MediaUpKeepsValid(s: State, now: int)
    requires Valid(s) && s.call.Some?
    ensures Valid(MediaUp(s, now))
  {
    ClearKeepsAccounted(s.timers);
  }

  lemma IceKeepsValid(s: State, g: nat, ice: IceState, now: int)
    requires Valid(s)
    ensures Valid(StepIce(s, g, ice, now))
  {
    if IsCurrent(s, g) {
      match ice
      case Connected => MediaUpKeepsValid(s, now);
      case Completed => MediaUpKeepsValid(s, now);
      case IceFailed =>
        if s.status == Connecting {
          FinishWithIsValid(SendEnd(s, Error), ConnectionLost, Missed, ErrorMark, false);
        } else {
          FinishCompletedIsValid(SendEnd(s, Error), ConnectionLost, now);
        }
      case _ =>
    }
  }

  lemma RingFireKeepsValid(s: State, g: nat, now: int)
    requires Valid(s)
    ensures Valid(StepFire(s, RingTimer(g), now))
  {
    if RingTimer(g) in s.timers.scheduled {
      var s1 := s.(timers := s.timers.Expire(RingTimer(g)));
      if s.status == OutgoingRinging {
        FinishWithIsValid(SendEnd(s1, Timeout), NoAnswer, Missed, NoBody, false);
      } else {
        FinishWithIsValid(s1, Ended, Missed, NoBody, true);
      }
    }
  }

  lemma ConnectFireKeepsValid(s: State, g: nat, now: int)
    requires Valid(s)
    ensures Valid(StepFire(s, ConnectTimer(g), now))
  {
    if ConnectTimer(g) in s.timers.scheduled {
      var s1 := s.(timers := s.timers.Expire(ConnectTimer(g)));
      if s.status == Connecting {
        FinishWithIsValid(SendEnd(s1, Error), ConnectionLost, Missed, ErrorMark, false);
      }
    }
  }

  lemma DisconnectFireKeepsValid(s: State, g: nat, now: int)
    requires Valid(s)
    ensures Valid(StepFire(s, DisconnectTimer(g), now))
  {
    if DisconnectTimer(g) in s.timers.scheduled {
      var s1 := s.(timers := s.timers.Expire(DisconnectTimer(g)));
      FinishCompletedIsValid(SendEnd(s1, Error), ConnectionLost, now);
    }
  }

  lemma FireKeepsValid(s: State, t: Timer, now: int)
    requires Valid(s)
    ensures Valid(StepFire(s, t, now))
  {
    match t
    case RingTimer(g) => RingFireKeepsValid(s, g, now);
    case ConnectTimer(g) => ConnectFireKeepsValid(s, g, now);
    case DisconnectTimer(g) => DisconnectFireKeepsValid(s, g, now);
    case LingerTimer(g) =>
  }

  lemma SwitchKeepsValid(s: State, on: bool)
    requires Valid(s)
    ensures Valid(StepSetMuted(s, on)) && Valid(StepSetSpeaker(s, on))
  {
  }

  lemma ReceiveKeepsValid(s: State, from: Contact, signal: Signal, sentAt: int, now: int)
    requires Valid(s)
    ensures Valid(StepReceive(s, from, signal, sentAt, now))
  {
    match signal
    case Offer(id, sdp) => OfferKeepsValid(s, from, id, sdp, sentAt, now);
    case Accept(id) => AcceptedKeepsValid(s, from, id);
    case Answer(id, sdp) => AnswerSignalKeepsValid(s, from, id);
    case End(id, reason) => EndKeepsValid(s, from, id, reason, now);
  }

  lemma ChainKeepsValid(s: State, e: Event)
    requires Valid(s)
    requires e.PlaceTurnDone? || e.PlaceEngineDone? || e.PlaceSendDone?
          || e.AnswerTurnDone? || e.AnswerEngineDone? || e.AnswerSendDone? || e.ApplyAnswerDone?
    ensures Valid(Step(s, e))
  {
    match e
    case PlaceTurnDone(g, r) => PlaceTurnKeepsValid(s, g, r);
    case PlaceEngineDone(g, r) => PlaceEngineKeepsValid(s, g, r);
    case PlaceSendDone(g, ok) => PlaceSendKeepsValid(s, g, ok);
    case AnswerTurnDone(g, r) => AnswerTurnKeepsValid(s, g, r);
    case AnswerEngineDone(g, r) => AnswerEngineKeepsValid(s, g, r);
    case AnswerSendDone(g, ok) => AnswerSendKeepsValid(s, g, ok);
    case ApplyAnswerDone(g, ok) => ApplyKeepsValid(s, g, ok);
  }

  lemma StepKeepsValid(s: State, e: Event)
    requires Valid(s)
    ensures Valid(Step(s, e))
  {
    match e
    case PlaceCall(contact, id) => PlaceCallKeepsValid(s, contact, id);
    case UserAnswer => AnswerKeepsValid(s);
    case UserDecline => DeclineKeepsValid(s);
    case UserHangUp(now) => HangUpKeepsValid(s, now);
    case SetMuted(m) => SwitchKeepsValid(s, m);
    case SetSpeaker(on) => SwitchKeepsValid(s, on);
    case AppLocking(now) => LockKeepsValid(s, now);
    case Receive(from, signal, sentAt, now) => ReceiveKeepsValid(s, from, signal, sentAt, now);
    case Ice(g, ice, now) => IceKeepsValid(s, g, ice, now);
    case Fire(t, now) => FireKeepsValid(s, t, now);
    case _ => ChainKeepsValid(s, e);
  }

  lemma {:induction false} RunKeepsValid(s: State, events: seq<Event>)
    requires Valid(s)
    ensures Valid(Run(s, events))
    decreases |events|
  {
    if events != [] {
      StepKeepsValid(s, events[0]);
      RunKeepsValid(Step(s, events[0]), events[1..]);
    }
  }
}
