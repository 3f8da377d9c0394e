// The call controller as a transition system: one event is one atomic segment between two
// awaits of src/calls/controller.ts. The object identity test `this.call !== call` is a
// comparison of serial numbers, given out once per call object.
module CallMachine {
  import opened Options
  import opened CallTypes

  const RECENT_CALL_IDS_MAX := 20
  const STALE_OFFER_MS := 120_000

  datatype ActiveCall = ActiveCall(
    serial: nat,
    callId: CallId,
    contact: Contact,
    direction: Direction,
    engine: Option<nat>,
    pendingOffer: Option<string>,
    offerSendStarted: bool,
    answerApplied: bool,
    activeSince: Option<int>,
    muted: bool,
    speaker: bool)

  datatype EndingView = EndingView(contactId: string, direction: Direction)

  // A scheduled timeout; it captured the call with this serial.
  datatype Timer =
    | RingTimer(serial: nat)
    | ConnectTimer(serial: nat)
    | DisconnectTimer(serial: nat)
    | LingerTimer(serial: nat)

  // An await in progress, and the call object its continuation will compare against.
  datatype Stage = PlaceTurn | PlaceEngine | PlaceSend | AnswerTurn | AnswerEngine | AnswerSend | ApplyAnswer

  datatype Flight = Flight(stage: Stage, serial: nat)

  // The four timer fields, and the timeouts the runtime holds for them.
  datatype Timers = Timers(
    ring: Option<nat>, connect: Option<nat>, disconnect: Option<nat>, linger: Option<nat>,
    scheduled: set<Timer>)
  {
    function ClearRing(): Timers {
      match ring
      case None => this
      case Some(g) => this.(ring := None, scheduled := scheduled - {RingTimer(g)})
    }

    function ClearConnect(): Timers {
      match connect
      case None => this
      case Some(g) => this.(connect := None, scheduled := scheduled - {ConnectTimer(g)})
    }

    function ClearDisconnect(): Timers {
      match disconnect
      case None => this
      case Some(g) => this.(disconnect := None, scheduled := scheduled - {DisconnectTimer(g)})
    }

    function ClearLinger(): Timers {
      match linger
      case None => this
      case Some(g) => this.(linger := None, scheduled := scheduled - {LingerTimer(g)})
    }

    function ClearCall(): Timers {
      ClearRing().ClearConnect().ClearDisconnect()
    }

    function ArmRing(g: nat): Timers {
      this.(ring := Some(g), scheduled := scheduled + {RingTimer(g)})
    }

    function RestartConnect(g: nat): Timers {
      var cleared := ClearConnect();
      cleared.(connect := Some(g), scheduled := cleared.scheduled + {ConnectTimer(g)})
    }

    function ArmDisconnect(g: nat): Timers {
      this.(disconnect := Some(g), scheduled := scheduled + {DisconnectTimer(g)})
    }

    function ArmLinger(g: nat): Timers {
      this.(linger := Some(g), scheduled := scheduled + {LingerTimer(g)})
    }

    // The timeout runs: it nulls the field of its kind before looking at anything.
    function Expire(t: Timer): Timers {
      var rest := scheduled - {t};
      match t
      case RingTimer(_) => this.(ring := None, scheduled := rest)
      case ConnectTimer(_) => this.(connect := None, scheduled := rest)
      case DisconnectTimer(_) => this.(disconnect := None, scheduled := rest)
      case LingerTimer(_) => this.(linger := None, scheduled := rest)
    }
  }

  const NO_TIMERS: Timers := Timers(None, None, None, None, {})

  // The controller's calls to sendSignal, writeCallRow and remember, in order.
  datatype Log = Log(sent: seq<Outgoing>, rows: seq<Row>, remembered: seq<CallId>)

  // `flights` and `openEngines` are what the runtime and the media layer hold for the
  // controller; the rest are its fields and its log.
  datatype State = State(
    status: Status,
    endReason: Option<UiReason>,
    call: Option<ActiveCall>,
    endingView: Option<EndingView>,
    recentlyEnded: seq<CallId>,
    timers: Timers,
    ringtone: bool,
    callAudio: bool,
    nextSerial: nat,
    nextEngine: nat,
    flights: set<Flight>,
    openEngines: set<nat>,
    log: Log)

  const INITIAL: State := State(
    Idle, None, None, None, [], NO_TIMERS, false, false, 0, 0, {}, {}, Log([], [], []))

  datatype EngineError = MicUnavailable | NoRelayCandidates | OtherError

  datatype TurnResult = TurnFailed | CreateThrew(error: EngineError) | EngineCreated

  datatype EngineResult = Threw(error: EngineError) | Sdp(sdp: string)

  datatype Event =
    | PlaceCall(contact: Contact, newId: CallId)
    | PlaceTurnDone(serial: nat, turn: TurnResult)
    | PlaceEngineDone(serial: nat, result: EngineResult)
    | PlaceSendDone(serial: nat, delivered: bool)
    | UserAnswer
    | AnswerTurnDone(serial: nat, turn: TurnResult)
    | AnswerEngineDone(serial: nat, result: EngineResult)
    | AnswerSendDone(serial: nat, delivered: bool)
    | ApplyAnswerDone(serial: nat, applied: bool)
    | UserDecline
    | UserHangUp(now: int)
    | SetMuted(muted: bool)
    | SetSpeaker(on: bool)
    | AppLocking(now: int)
    | Receive(from: Contact, signal: Signal, sentAt: int, now: int)
    | Ice(serial: nat, ice: IceState, now: int)
    | Fire(timer: Timer, now: int)

  // --- small steps, named after the controller's private methods ---

  predicate IsCurrent(s: State, serial: nat) {
    s.call.Some? && s.call.value.serial == serial
  }

  function ClearRing(s: State): State { s.(timers := s.timers.ClearRing()) }

  function ClearTimers(s: State): State { s.(timers := s.timers.ClearCall()) }

  function ClearLinger(s: State): State {
    s.(timers := s.timers.ClearLinger(), endingView := None,
       endReason := if s.status == Ending then None else s.endReason)
  }

  function StartConnectTimer(s: State, serial: nat): State {
    s.(timers := s.timers.RestartConnect(serial))
  }

  function Without(ids: seq<CallId>, id: CallId): seq<CallId> {
    if ids == [] then []
    else if ids[0] == id then Without(ids[1..], id)
    else [ids[0]] + Without(ids[1..], id)
  }

  // Insertion ordered set of at most RECENT_CALL_IDS_MAX ids: re-adding moves to the end.
  function Touch(ids: seq<CallId>, id: CallId): seq<CallId> {
    var moved := Without(ids, id) + [id];
    if |moved| > RECENT_CALL_IDS_MAX then moved[1..] else moved
  }

  function Remember(s: State, id: CallId): State {
    s.(recentlyEnded := Touch(s.recentlyEnded, id), log := s.log.(remembered := s.log.remembered + [id]))
  }

  function SendTo(s: State, to: Handle, signal: Signal): State {
    s.(log := s.log.(sent := s.log.sent + [Outgoing(to, signal)]))
  }

  function SendEnd(s: State, reason: EndReason): State {
    if s.call.None? then s
    else SendTo(s, s.call.value.contact.handle, End(s.call.value.callId, reason))
  }

  function WriteRow(s: State, row: Row): State {
    s.(log := s.log.(rows := s.log.rows + [row]))
  }

  function RowFor(c: ActiveCall, kind: RowKind, body: RowBody, unread: bool): Row {
    Row(c.callId, c.contact.id, kind, c.direction, body, unread)
  }

  // Whole seconds since media connected; a zero timestamp counts as absent, as `0` is falsy.
  function DurationSeconds(since: Option<int>, now: int): nat {
    if since.None? || since.value == 0 || now < since.value then 0
    else (now - since.value + 500) / 1000
  }

  function CompletedRow(c: ActiveCall, now: int): Row {
    RowFor(c, if c.direction == Out then OutgoingCall else IncomingCall,
           Seconds(DurationSeconds(c.activeSince, now)), false)
  }

  function MissedRow(from: Contact, callId: CallId): Row {
    Row(callId, from.id, Missed, In, NoBody, true)
  }

  function CloseEngine(s: State, c: ActiveCall): State {
    match c.engine
    case None => s
    case Some(e) => s.(openEngines := s.openEngines - {e})
  }

  function Teardown(s: State, c: ActiveCall): State {
    var s1 := ClearTimers(s).(ringtone := false, callAudio := false);
    Remember(CloseEngine(s1, c), c.callId).(call := None)
  }

  function EnterEnding(s: State, g: nat, reason: UiReason): State {
    s.(endReason := Some(reason), status := Ending, timers := s.timers.ArmLinger(g))
  }

  function Finish(s: State, reason: UiReason, row: Option<Row>): State {
    if s.call.None? then s
    else
      var c := s.call.value;
      var s1 := if row.Some? then WriteRow(s, row.value) else s;
      EnterEnding(Teardown(s1.(endingView := Some(EndingView(c.contact.id, c.direction))), c), c.serial, reason)
  }

  function FinishWith(s: State, reason: UiReason, kind: RowKind, body: RowBody, unread: bool): State {
    if s.call.None? then s else Finish(s, reason, Some(RowFor(s.call.value, kind, body, unread)))
  }

  function FinishCompleted(s: State, reason: UiReason, now: int): State {
    if s.call.None? then s else Finish(s, reason, Some(CompletedRow(s.call.value, now)))
  }

  function EngineReason(e: EngineError): UiReason {
    match e
    case MicUnavailable => MicFailed
    case NoRelayCandidates => NoTurn
    case OtherError => Failed
  }

  // --- the place chain ---

  function CheckAvailability(s: State, blocked: bool, connected: bool, session: bool): Availability {
    if s.call.Some? then Occupied
    else if blocked then Blocked
    else if !connected then Offline
    else if !session then NoSession
    else Available
  }

  function FreshCall(serial: nat, id: CallId, contact: Contact, dir: Direction, offer: Option<string>): ActiveCall {
    ActiveCall(serial, id, contact, dir, None, offer, false, false, None, false, false)
  }

  // placeCall from the second occupancy check to the TURN fetch.
  function StepPlaceCall(s: State, contact: Contact, newId: CallId): State {
    if s.call.Some? then s
    else
      var g := s.nextSerial;
      ClearLinger(s.(call := Some(FreshCall(g, newId, contact, Out, None)), nextSerial := g + 1))
        .(status := Starting, flights := s.flights + {Flight(PlaceTurn, g)})
  }

  function Land(s: State, stage: Stage, serial: nat): State {
    s.(flights := s.flights - {Flight(stage, serial)})
  }

  function Launch(s: State, stage: Stage, serial: nat): State {
    s.(flights := s.flights + {Flight(stage, serial)})
  }

  function AttachEngine(s: State): State
    requires s.call.Some?
  {
    s.(call := Some(s.call.value.(engine := Some(s.nextEngine))),
       nextEngine := s.nextEngine + 1, openEngines := s.openEngines + {s.nextEngine})
  }

  function StepPlaceTurnDone(s: State, g: nat, turn: TurnResult): State {
    if Flight(PlaceTurn, g) !in s.flights then s
    else
      var s1 := Land(s, PlaceTurn, g);
      if !IsCurrent(s1, g) then s1
      else match turn
        case TurnFailed => Finish(s1, NoTurn, None)
        case CreateThrew(err) => Finish(s1, EngineReason(err), None)
        case EngineCreated => Launch(AttachEngine(s1), PlaceEngine, g)
  }

  function StepPlaceEngineDone(s: State, g: nat, result: EngineResult): State {
    if Flight(PlaceEngine, g) !in s.flights then s
    else
      var s1 := Land(s, PlaceEngine, g);
      if !IsCurrent(s1, g) then s1
      else match result
        case Threw(err) => Finish(s1, EngineReason(err), None)
        case Sdp(sdp) =>
          var c := s1.call.value.(offerSendStarted := true);
          Launch(SendTo(s1.(call := Some(c)), c.contact.handle, Offer(c.callId, sdp)), PlaceSend, g)
  }

  function StepPlaceSendDone(s: State, g: nat, delivered: bool): State {
    if Flight(PlaceSend, g) !in s.flights then s
    else
      var s1 := Land(s, PlaceSend, g);
      if !IsCurrent(s1, g) then s1
      else if !delivered then Finish(SendEnd(s1, Hangup), Failed, None)
      else s1.(status := OutgoingRinging, timers := s1.timers.ArmRing(g))
  }

  // --- the answer chain ---

  function StepAnswer(s: State): State {
    if s.call.None? || s.call.value.direction != In || s.status != IncomingRinging then s
    else
      var c := s.call.value;
      var s1 := ClearRing(s.(ringtone := false)).(status := Connecting);
      Launch(SendTo(s1, c.contact.handle, Accept(c.callId)), AnswerTurn, c.serial)
  }

  function AnswerFailed(s: State, reason: UiReason): State {
    FinishWith(SendEnd(s, Error), reason, Missed, ErrorMark, false)
  }

  function StepAnswerTurnDone(s: State, g: nat, turn: TurnResult): State {
    if Flight(AnswerTurn, g) !in s.flights then s
    else
      var s1 := Land(s, AnswerTurn, g);
      if !IsCurrent(s1, g) then s1
      else match turn
        case TurnFailed => AnswerFailed(s1, NoTurn)
        case CreateThrew(err) => AnswerFailed(s1, EngineReason(err))
        case EngineCreated => Launch(AttachEngine(s1), AnswerEngine, g)
  }

  function StepAnswerEngineDone(s: State, g: nat, result: EngineResult): State {
    if Flight(AnswerEngine, g) !in s.flights then s
    else
      var s1 := Land(s, AnswerEngine, g);
      if !IsCurrent(s1, g) then s1
      else match result
        case Threw(err) => AnswerFailed(s1, EngineReason(err))
        case Sdp(sdp) =>
          var c := s1.call.value;
          Launch(SendTo(s1, c.contact.handle, Answer(c.callId, sdp)), AnswerSend, g)
  }

  function StepAnswerSendDone(s: State, g: nat, delivered: bool): State {
    if Flight(AnswerSend, g) !in s.flights then s
    else
      var s1 := Land(s, AnswerSend, g);
      if !IsCurrent(s1, g) then s1
      else if !delivered then AnswerFailed(s1, Failed)
      else StartConnectTimer(s1, g)
  }

  // --- the user ---

  function StepDecline(s: State): State {
    if s.call.None? || s.status != IncomingRinging then s
    else FinishWith(SendEnd(s, Decline), UiReason.Declined, DeclinedCall, NoBody, false)
  }

  function StepHangUp(s: State, now: int): State {
    if s.call.None? then s
    else
      var c := s.call.value;
      match s.status
      case Starting =>
        if c.offerSendStarted
        then FinishWith(SendEnd(s, Hangup), Canceled, Missed, CanceledMark, false)
        else Finish(s, Canceled, None)
      case OutgoingRinging => FinishWith(SendEnd(s, Hangup), Canceled, Missed, CanceledMark, false)
      case IncomingRinging => StepDecline(s)
      case Connecting =>
        if c.direction == Out
        then FinishWith(SendEnd(s, Hangup), Canceled, Missed, CanceledMark, false)
        else FinishWith(SendEnd(s, Hangup), Canceled, DeclinedCall, NoBody, false)
      case Active => FinishCompleted(SendEnd(s, Hangup), Ended, now)
      case Reconnecting => FinishCompleted(SendEnd(s, Hangup), Ended, now)
      case _ => s
  }

  function StepSetMuted(s: State, muted: bool): State {
    if s.call.None? || s.call.value.engine.None? then s
    else s.(call := Some(s.call.value.(muted := muted)))
  }

  function StepSetSpeaker(s: State, on: bool): State {
    if s.call.None? then s
    else s.(call := Some(s.call.value.(speaker := on)))
  }

  datatype Farewell = Farewell(reason: EndReason, row: Row)

  // What locking the app tells the peer and the timeline; nothing if the offer never left.
  function LockFarewell(s: State, now: int): Option<Farewell>
    requires s.call.Some?
  {
    var c := s.call.value;
    match s.status
    case Starting =>
      if c.offerSendStarted then Some(Farewell(Hangup, RowFor(c, Missed, CanceledMark, false))) else None
    case OutgoingRinging => Some(Farewell(Hangup, RowFor(c, Missed, CanceledMark, false)))
    case IncomingRinging => Some(Farewell(Decline, RowFor(c, DeclinedCall, NoBody, false)))
    case Connecting =>
      if c.direction == Out
      then Some(Farewell(Hangup, RowFor(c, Missed, CanceledMark, false)))
      else Some(Farewell(Hangup, RowFor(c, DeclinedCall, NoBody, false)))
    case Active => Some(Farewell(Hangup, CompletedRow(c, now)))
    case Reconnecting => Some(Farewell(Hangup, CompletedRow(c, now)))
    case _ => None
  }

  // onAppLocking, taken as one step: signal and row first, then teardown without lingering.
  function StepAppLocking(s: State, now: int): State {
    if s.call.None? then s
    else
      var farewell := LockFarewell(s, now);
      var s1 := if farewell.None? then s else WriteRow(SendEnd(s, farewell.value.reason), farewell.value.row);
      Teardown(s1, s.call.value).(status := Idle, endReason := None, endingView := None)
  }

  // --- inbound signals ---

  predicate GlareEligible(s: State, from: Contact) {
    && s.call.Some?
    && s.call.value.contact.handle == from.handle
    && s.call.value.direction == Out
    && (s.status == OutgoingRinging || s.status == Starting)
  }

  function RingIncoming(s: State, from: Contact, callId: CallId, sdp: string): State {
    var g := s.nextSerial;
    var s1 := ClearLinger(s.(call := Some(FreshCall(g, callId, from, In, Some(sdp))), nextSerial := g + 1));
    s1.(status := IncomingRinging, timers := s1.timers.ArmRing(g))
  }

  function AdoptIncoming(s: State, from: Contact, callId: CallId, sdp: string, autoAnswer: bool): State {
    var s1 := RingIncoming(s, from, callId, sdp);
    if autoAnswer then StepAnswer(s1) else s1.(ringtone := true)
  }

  function LoseGlare(s: State, from: Contact, callId: CallId, sdp: string): State
    requires s.call.Some?
  {
    var c := s.call.value;
    var s1 := Remember(CloseEngine(ClearTimers(s), c), c.callId).(call := None);
    AdoptIncoming(s1, from, callId, sdp, true)
  }

  function RefuseBusy(s: State, from: Contact, callId: CallId): State
    requires s.call.Some?
  {
    var s1 := SendTo(Remember(s, callId), from.handle, End(callId, Busy));
    if s.call.value.contact.handle != from.handle then WriteRow(s1, MissedRow(from, callId)) else s1
  }

  function HandleOffer(s: State, from: Contact, callId: CallId, sdp: string, sentAt: int, now: int): State {
    if callId in s.recentlyEnded then s
    else if s.call.Some? then
      if GlareEligible(s, from) then
        if OfferWins(s.call.value.callId, callId) then Remember(s, callId)
        else LoseGlare(s, from, callId, sdp)
      else RefuseBusy(s, from, callId)
    else if now - sentAt >= STALE_OFFER_MS then WriteRow(Remember(s, callId), MissedRow(from, callId))
    else AdoptIncoming(s, from, callId, sdp, false)
  }

  // Ringing is over; the connect window starts, or starts again.
  function EnterConnecting(s: State, g: nat): State {
    StartConnectTimer(ClearRing(s).(status := Connecting), g)
  }

  function HandleAccepted(s: State, from: Contact, callId: CallId): State {
    if s.call.None? || s.call.value.direction != Out || s.call.value.callId != callId then s
    else if s.call.value.contact.handle != from.handle || s.status != OutgoingRinging then s
    else EnterConnecting(s, s.call.value.serial)
  }

  function HandleAnswer(s: State, from: Contact, callId: CallId): State {
    if s.call.None? || s.call.value.direction != Out || s.call.value.callId != callId then s
    else if s.call.value.contact.handle != from.handle || s.call.value.answerApplied then s
    else if s.status != OutgoingRinging && s.status != Connecting then s
    else
      var c := s.call.value.(answerApplied := true);
      var s1 := EnterConnecting(s.(call := Some(c)), c.serial);
      if c.engine.Some? then Launch(s1, ApplyAnswer, c.serial) else s1
  }

  predicate EndsLiveCall(s: State, from: Contact, callId: CallId) {
    s.call.Some? && s.call.value.callId == callId && s.call.value.contact.handle == from.handle
  }

  function HandleEnd(s: State, from: Contact, callId: CallId, reason: EndReason, now: int): State {
    if EndsLiveCall(s, from, callId) then
      match s.status
      case IncomingRinging => FinishWith(s, Ended, Missed, NoBody, true)
      case OutgoingRinging =>
        if reason == Decline then FinishWith(s, UiReason.Declined, DeclinedCall, NoBody, false)
        else if reason == Busy then FinishWith(s, WasBusy, Missed, BusyMark, false)
        else FinishWith(s, Ended, Missed, NoBody, false)
      case Connecting => FinishWith(s, Ended, Missed, ErrorMark, false)
      case Active => FinishCompleted(s, Ended, now)
      case Reconnecting => FinishCompleted(s, Ended, now)
      case _ => s
    else if callId in s.recentlyEnded then s
    else
      var s1 := Remember(s, callId);
      if reason == Hangup || reason == Timeout then WriteRow(s1, MissedRow(from, callId)) else s1
  }

  function StepReceive(s: State, from: Contact, signal: Signal, sentAt: int, now: int): State {
    match signal
    case Offer(id, sdp) => HandleOffer(s, from, id, sdp, sentAt, now)
    case Accept(id) => HandleAccepted(s, from, id)
    case Answer(id, sdp) => HandleAnswer(s, from, id)
    case End(id, reason) => HandleEnd(s, from, id, reason, now)
  }

  function StepApplyAnswerDone(s: State, g: nat, applied: bool): State {
    if Flight(ApplyAnswer, g) !in s.flights then s
    else
      var s1 := Land(s, ApplyAnswer, g);
      if applied || !IsCurrent(s1, g) then s1
      else FinishWith(SendEnd(s1, Error), ConnectionLost, Missed, ErrorMark, false)
  }

  // --- media and timers ---

  function StepIce(s: State, g: nat, ice: IceState, now: int): State {
    if !IsCurrent(s, g) then s
    else match ice
      case Connected => MediaUp(s, now)
      case Completed => MediaUp(s, now)
      case Disconnected =>
        if s.status == Active
        then s.(status := Reconnecting, timers := s.timers.ArmDisconnect(g))
        else s
      case IceFailed =>
        if s.status == Connecting then FinishWith(SendEnd(s, Error), ConnectionLost, Missed, ErrorMark, false)
        else if s.status == Active || s.status == Reconnecting
            then FinishCompleted(SendEnd(s, Error), ConnectionLost, now)
        else s
      case _ => s
  }

  function MediaUp(s: State, now: int): State
    requires s.call.Some?
  {
    if s.status == Connecting
    then s.(timers := s.timers.ClearConnect(), call := Some(s.call.value.(activeSince := Some(now))),
            callAudio := true, status := Active)
    else if s.status == Reconnecting then s.(timers := s.timers.ClearDisconnect(), status := Active)
    else s
  }

  function StepFire(s: State, t: Timer, now: int): State {
    if t !in s.timers.scheduled then s
    else
      var s1 := s.(timers := s.timers.Expire(t));
      match t
      case RingTimer(g) =>
        if !IsCurrent(s1, g) then s1
        else if s1.call.value.direction == Out then
          if s1.status != OutgoingRinging then s1
          else FinishWith(SendEnd(s1, Timeout), NoAnswer, Missed, NoBody, false)
        else
          if s1.status != IncomingRinging then s1
          else FinishWith(s1, Ended, Missed, NoBody, true)
      case ConnectTimer(g) =>
        if !IsCurrent(s1, g) || s1.status != Connecting then s1
        else FinishWith(SendEnd(s1, Error), ConnectionLost, Missed, ErrorMark, false)
      case DisconnectTimer(g) =>
        if !IsCurrent(s1, g) || s1.status != Reconnecting then s1
        else FinishCompleted(SendEnd(s1, Error), ConnectionLost, now)
      case LingerTimer(_) =>
        if s1.status != Ending then s1
        else s1.(endReason := None, endingView := None, status := Idle)
  }

  function Step(s: State, e: Event): State {
    match e
    case PlaceCall(contact, id) => StepPlaceCall(s, contact, id)
    case PlaceTurnDone(g, r) => StepPlaceTurnDone(s, g, r)
    case PlaceEngineDone(g, r) => StepPlaceEngineDone(s, g, r)
    case PlaceSendDone(g, ok) => StepPlaceSendDone(s, g, ok)
    case UserAnswer => StepAnswer(s)
    case AnswerTurnDone(g, r) => StepAnswerTurnDone(s, g, r)
    case AnswerEngineDone(g, r) => StepAnswerEngineDone(s, g, r)
    case AnswerSendDone(g, ok) => StepAnswerSendDone(s, g, ok)
    case ApplyAnswerDone(g, ok) => StepApplyAnswerDone(s, g, ok)
    case UserDecline => StepDecline(s)
    case UserHangUp(now) => StepHangUp(s, now)
    case SetMuted(m) => StepSetMuted(s, m)
    case SetSpeaker(on) => StepSetSpeaker(s, on)
    case AppLocking(now) => StepAppLocking(s, now)
    case Receive(from, signal, sentAt, now) => StepReceive(s, from, signal, sentAt, now)
    case Ice(g, ice, now) => StepIce(s, g, ice, now)
    case Fire(t, now) => StepFire(s, t, now)
  }

  function Run(s: State, events: seq<Event>): State
    decreases |events|
  {
    if events == [] then s else Run(Step(s, events[0]), events[1..])
  }
}
