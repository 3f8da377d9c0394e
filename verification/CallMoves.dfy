// What an event that does not end a live call makes of it, and what becomes of signals that
// are not about it.
module CallMoves {
  import opened Options
  import opened CallTypes
  import opened CallMachine
  import opened CallInvariant
  import opened CallOutline
  import opened CallOutcomes

  // The contact's answer, heard for the first time.
  predicate Answered(s: State, e: Event) {
    && HeardFor(s, e) && e.signal.Answer? && s.call.value.direction == Out && !s.call.value.answerApplied
    && (s.status == OutgoingRinging || s.status == Connecting)
  }

  predicate MediaUp(s: State, e: Event) {
    e.Ice? && IsCurrent(s, e.serial) && (e.ice == Connected || e.ice == Completed)
  }

  // Rings once the offer is acknowledged; connects on the contact's consent, or on one's own;
  // is up while media is.
  function NextStatus(s: State, e: Event): Status {
    if e.PlaceSendDone? && Due(s, PlaceSend, e.serial) && e.delivered then OutgoingRinging
    else if e.UserAnswer? && s.status == IncomingRinging then Connecting
    else if HeardFor(s, e) && e.signal.Accept? && s.status == OutgoingRinging then Connecting
    else if Answered(s, e) then Connecting
    else if MediaUp(s, e) && (s.status == Connecting || s.status == Reconnecting) then Active
    else if e.Ice? && IsCurrent(s, e.serial) && e.ice == Disconnected && s.status == Active then Reconnecting
    else s.status
  }

  // What goes out to the contact for the call's own sake.
  function Says(s: State, e: Event): Option<Signal>
    requires s.call.Some?
  {
    var id := s.call.value.callId;
    match e
    case PlaceEngineDone(g, Sdp(sdp)) => if Due(s, PlaceEngine, g) then Some(Offer(id, sdp)) else None
    case UserAnswer => if s.status == IncomingRinging then Some(Accept(id)) else None
    case AnswerEngineDone(g, Sdp(sdp)) => if Due(s, AnswerEngine, g) then Some(Answer(id, sdp)) else None
    case _ => None
  }

  // The await the event leads to.
  function Leads(s: State, e: Event): Option<Stage>
    requires s.call.Some?
  {
    match e
    case PlaceTurnDone(g, EngineCreated) => if Due(s, PlaceTurn, g) then Some(PlaceEngine) else None
    case PlaceEngineDone(g, Sdp(_)) => if Due(s, PlaceEngine, g) then Some(PlaceSend) else None
    case UserAnswer => if s.status == IncomingRinging then Some(AnswerTurn) else None
    case AnswerTurnDone(g, EngineCreated) => if Due(s, AnswerTurn, g) then Some(AnswerEngine) else None
    case AnswerEngineDone(g, Sdp(_)) => if Due(s, AnswerEngine, g) then Some(AnswerSend) else None
    case Receive(_, _, _, _) => if Answered(s, e) && s.call.value.engine.Some? then Some(ApplyAnswer) else None
    case _ => None
  }

  predicate GetsEngine(s: State, e: Event) {
    || (e.PlaceTurnDone? && Due(s, PlaceTurn, e.serial) && e.turn.EngineCreated?)
    || (e.AnswerTurnDone? && Due(s, AnswerTurn, e.serial) && e.turn.EngineCreated?)
  }

  // The call object after the event.
  predicate CallIs(s: State, e: Event, t: State)
    requires s.call.Some? && t.call.Some?
  {
    var c, d := s.call.value, t.call.value;
    && d.engine == (if GetsEngine(s, e) then Some(s.nextEngine) else c.engine)
    && d.pendingOffer == c.pendingOffer
    && d.offerSendStarted == (c.offerSendStarted || (Says(s, e).Some? && Says(s, e).value.Offer?))
    && d.answerApplied == (c.answerApplied || Answered(s, e))
    && d.activeSince == (if MediaUp(s, e) && s.status == Connecting then Some(e.now) else c.activeSince)
    && d.muted == (if e.SetMuted? && c.engine.Some? then e.muted else c.muted)
    && d.speaker == (if e.SetSpeaker? then e.on else c.speaker)
  }

  // The await that the event is the outcome of.
  function Landing(e: Event): set<Flight> {
    match e
    case PlaceTurnDone(g, _) => {Flight(PlaceTurn, g)}
    case PlaceEngineDone(g, _) => {Flight(PlaceEngine, g)}
    case PlaceSendDone(g, _) => {Flight(PlaceSend, g)}
    case AnswerTurnDone(g, _) => {Flight(AnswerTurn, g)}
    case AnswerEngineDone(g, _) => {Flight(AnswerEngine, g)}
    case AnswerSendDone(g, _) => {Flight(AnswerSend, g)}
    case ApplyAnswerDone(g, _) => {Flight(ApplyAnswer, g)}
    case _ => {}
  }

  predicate FlightsAre(s: State, e: Event, t: State)
    requires s.call.Some?
  {
    var led := match Leads(s, e) case None => {} case Some(stage) => {Flight(stage, s.call.value.serial)};
    t.flights == s.flights - Landing(e) + led
  }

  predicate SaidAs(s: State, e: Event, t: State)
    requires s.call.Some?
  {
    match Says(s, e)
    case None => t.log.sent == s.log.sent
    case Some(signal) => SentOne(s, t, s.call.value.contact.handle, signal)
  }

  // Not a new call for someone, nor the end of some other call.
  predicate AboutTheCall(s: State, e: Event) {
    e.Receive? ==> !e.signal.Offer? && (e.signal.End? ==> HeardFor(s, e))
  }

  predicate CallGoesOn(s: State, e: Event, t: State)
    requires s.call.Some?
  {
    KeyOf(t) == KeyOf(s) && t.call.Some? && t.status == NextStatus(s, e) && CallIs(s, e, t)
  }

  predicate TracesAre(s: State, e: Event, t: State)
    requires s.call.Some?
  {
    FlightsAre(s, e, t) && SaidAs(s, e, t) && t.log.rows == s.log.rows && t.recentlyEnded == s.recentlyEnded
  }

  predicate GoesOnAs(s: State, e: Event, t: State)
    requires s.call.Some?
  {
    CallGoesOn(s, e, t) && TracesAre(s, e, t)
  }

  lemma AcceptGoesOn(s: State, e: Event)
    requires Valid(s) && s.call.Some? && CauseOf(s, e).None? && e.Receive? && e.signal.Accept?
    ensures GoesOnAs(s, e, Step(s, e))
  {
  }

  lemma AnswerMoves(s: State, e: Event)
    requires Valid(s) && s.call.Some? && CauseOf(s, e).None? && e.Receive? && e.signal.Answer?
    ensures CallGoesOn(s, e, Step(s, e))
  {
  }

  lemma AnswerLeaves(s: State, e: Event)
    requires Valid(s) && s.call.Some? && CauseOf(s, e).None? && e.Receive? && e.signal.Answer?
    ensures TracesAre(s, e, Step(s, e))
  {
  }

  lemma EndGoesOn(s: State, e: Event)
    requires Valid(s) && s.call.Some? && CauseOf(s, e).None? && e.Receive? && e.signal.End? && HeardFor(s, e)
    ensures GoesOnAs(s, e, Step(s, e))
  {
  }

  lemma PlaceTurnMoves(s: State, e: Event)
    requires Valid(s) && s.call.Some? && CauseOf(s, e).None? && e.PlaceTurnDone?
    ensures CallGoesOn(s, e, Step(s, e))
  {
  }

  lemma PlaceTurnLeaves(s: State, e: Event)
    requires Valid(s) && s.call.Some? && CauseOf(s, e).None? && e.PlaceTurnDone?
    ensures TracesAre(s, e, Step(s, e))
  {
  }

  lemma PlaceEngineMoves(s: State, e: Event)
    requires Valid(s) && s.call.Some? && CauseOf(s, e).None? && e.PlaceEngineDone?
    ensures CallGoesOn(s, e, Step(s, e))
  {
  }

  lemma PlaceEngineLeaves(s: State, e: Event)
    requires Valid(s) && s.call.Some? && CauseOf(s, e).None? && e.PlaceEngineDone?
    ensures TracesAre(s, e, Step(s, e))
  {
  }

  lemma PlaceSendMoves(s: State, e: Event)
    requires Valid(s) && s.call.Some? && CauseOf(s, e).None? && e.PlaceSendDone?
    ensures CallGoesOn(s, e, Step(s, e))
  {
  }

  lemma PlaceSendLeaves(s: State, e: Event)
    requires Valid(s) && s.call.Some? && CauseOf(s, e).None? && e.PlaceSendDone?
    ensures TracesAre(s, e, Step(s, e))
  {
  }

  lemma AnswerTurnMoves(s: State, e: Event)
    requires Valid(s) && s.call.Some? && CauseOf(s, e).None? && e.AnswerTurnDone?
    ensures CallGoesOn(s, e, Step(s, e))
  {
  }

  lemma AnswerTurnLeaves(s: State, e: Event)
    requires Valid(s) && s.call.Some? && CauseOf(s, e).None? && e.AnswerTurnDone?
    ensures TracesAre(s, e, Step(s, e))
  {
  }

  lemma AnswerEngineMoves(s: State, e: Event)
    requires Valid(s) && s.call.Some? && CauseOf(s, e).None? && e.AnswerEngineDone?
    ensures CallGoesOn(s, e, Step(s, e))
  {
  }

  lemma AnswerEngineLeaves(s: State, e: Event)
    requires Valid(s) && s.call.Some? && CauseOf(s, e).None? && e.AnswerEngineDone?
    ensures TracesAre(s, e, Step(s, e))
  {
  }

  lemma AnswerSendMoves(s: State, e: Event)
    requires Valid(s) && s.call.Some? && CauseOf(s, e).None? && e.AnswerSendDone?
    ensures CallGoesOn(s, e, Step(s, e))
  {
  }

  lemma AnswerSendLeaves(s: State, e: Event)
    requires Valid(s) && s.call.Some? && CauseOf(s, e).None? && e.AnswerSendDone?
    ensures TracesAre(s, e, Step(s, e))
  {
  }

  lemma ApplyAnswerMoves(s: State, e: Event)
    requires Valid(s) && s.call.Some? && CauseOf(s, e).None? && e.ApplyAnswerDone?
    ensures CallGoesOn(s, e, Step(s, e))
  {
  }

  lemma ApplyAnswerLeaves(s: State, e: Event)
    requires Valid(s) && s.call.Some? && CauseOf(s, e).None? && e.ApplyAnswerDone?
    ensures TracesAre(s, e, Step(s, e))
  {
  }

  lemma SwitchMoves(s: State, e: Event)
    requires Valid(s) && s.call.Some? && CauseOf(s, e).None? && (e.SetMuted? || e.SetSpeaker?)
    ensures CallGoesOn(s, e, Step(s, e))
  {
  }

  lemma SwitchLeaves(s: State, e: Event)
    requires Valid(s) && s.call.Some? && CauseOf(s, e).None? && (e.SetMuted? || e.SetSpeaker?)
    ensures TracesAre(s, e, Step(s, e))
  {
  }

  lemma RefusedCallGoesOn(s: State, e: Event)
    requires Valid(s) && s.call.Some? && CauseOf(s, e).None? && (e.PlaceCall? || e.UserDecline?)
    ensures GoesOnAs(s, e, Step(s, e))
  {
  }

  lemma UserAnswerGoesOn(s: State, e: Event)
    requires Valid(s) && s.call.Some? && CauseOf(s, e).None? && e.UserAnswer?
    ensures GoesOnAs(s, e, Step(s, e))
  {
  }

  lemma MediaUpMoves(s: State, e: Event)
    requires Valid(s) && s.call.Some? && CauseOf(s, e).None? && MediaUp(s, e)
    ensures CallGoesOn(s, e, Step(s, e))
  {
  }

  lemma MediaDownMoves(s: State, e: Event)
    requires Valid(s) && s.call.Some? && CauseOf(s, e).None? && e.Ice? && !MediaUp(s, e)
    ensures CallGoesOn(s, e, Step(s, e))
  {
  }

  lemma MediaLeaves(s: State, e: Event)
    requires Valid(s) && s.call.Some? && CauseOf(s, e).None? && e.Ice?
    ensures TracesAre(s, e, Step(s, e))
  {
  }

  lemma TimerGoesOn(s: State, e: Event)
    requires Valid(s) && s.call.Some? && CauseOf(s, e).None? && e.Fire?
    ensures GoesOnAs(s, e, Step(s, e))
  {
  }

  // An event that is about the live call, and no cause of its end, moves it as its kind says.
  lemma GoingOnIsExact(s: State, e: Event)
    requires Valid(s) && s.call.Some? && AboutTheCall(s, e) && CauseOf(s, e).None?
    ensures GoesOnAs(s, e, Step(s, e))
  {
    match e {
      case Receive(_, Accept(_), _, _) => AcceptGoesOn(s, e);
      case Receive(_, Answer(_, _), _, _) => AnswerMoves(s, e); AnswerLeaves(s, e);
      case Receive(_, End(_, _), _, _) => EndGoesOn(s, e);
      case PlaceTurnDone(_, _) => PlaceTurnMoves(s, e); PlaceTurnLeaves(s, e);
      case PlaceEngineDone(_, _) => PlaceEngineMoves(s, e); PlaceEngineLeaves(s, e);
      case PlaceSendDone(_, _) => PlaceSendMoves(s, e); PlaceSendLeaves(s, e);
      case AnswerTurnDone(_, _) => AnswerTurnMoves(s, e); AnswerTurnLeaves(s, e);
      case AnswerEngineDone(_, _) => AnswerEngineMoves(s, e); AnswerEngineLeaves(s, e);
      case AnswerSendDone(_, _) => AnswerSendMoves(s, e); AnswerSendLeaves(s, e);
      case ApplyAnswerDone(_, _) => ApplyAnswerMoves(s, e); ApplyAnswerLeaves(s, e);
      case UserAnswer => UserAnswerGoesOn(s, e);
      case Ice(_, _, _) =>
        if MediaUp(s, e) { MediaUpMoves(s, e); } else { MediaDownMoves(s, e); }
        MediaLeaves(s, e);
      case Fire(_, _) => TimerGoesOn(s, e);
      case PlaceCall(_, _) => RefusedCallGoesOn(s, e);
      case UserDecline => RefusedCallGoesOn(s, e);
      case SetMuted(_) => SwitchMoves(s, e); SwitchLeaves(s, e);
      case SetSpeaker(_) => SwitchMoves(s, e); SwitchLeaves(s, e);
      case _ =>
    }
  }

  // Why a call cannot be placed: one's own other call first, then what the contact is, then
  // what the line is.
  lemma RefusalIsExact(s: State, blocked: bool, connected: bool, session: bool)
    ensures var r := CheckAvailability(s, blocked, connected, session);
      && (r == Occupied <==> s.call.Some?)
      && (r == Blocked <==> s.call.None? && blocked)
      && (r == Offline <==> s.call.None? && !blocked && !connected)
      && (r == NoSession <==> s.call.None? && !blocked && connected && !session)
  {
  }

  // --- signals about other calls ---

  // Ids that ended recently are not heard again.
  lemma RecentIsIgnored(s: State, e: Event)
    requires e.Receive? && e.signal.callId in s.recentlyEnded && !HeardFor(s, e)
    requires e.signal.Offer? || e.signal.End?
    ensures Step(s, e) == s
  {
  }

  // An unheard missed call of the peer.
  predicate MissedIs(s: State, e: Event, t: State, missed: bool)
    requires e.Receive?
  {
    if missed then t.log.rows == s.log.rows + [Row(e.signal.callId, e.from.id, Missed, In, NoBody, true)]
    else t.log.rows == s.log.rows
  }

  predicate Aside(s: State, e: Event, t: State)
    requires e.Receive?
  {
    && KeyOf(t) == KeyOf(s) && t.status == s.status && t.recentlyEnded == Touch(s.recentlyEnded, e.signal.callId)
  }

  // An offer that is not taken up: to someone in another call it is busy, and missed if it is
  // from someone else; one's own winning offer settles a glare without a word; a late offer
  // is missed.
  lemma UntakenOfferIsExact(s: State, e: Event)
    requires Valid(s) && OfferHeard(s, e)
    requires s.call.Some? ==> !GlareEligible(s, e.from) || OfferWins(s.call.value.callId, e.signal.callId)
    requires s.call.None? ==> e.now - e.sentAt >= 120_000
    ensures var t := Step(s, e);
      && Aside(s, e, t)
      && MissedIs(s, e, t, s.call.None? || s.call.value.contact.handle != e.from.handle)
      && (if s.call.Some? && !GlareEligible(s, e.from)
          then SentOne(s, t, e.from.handle, End(e.signal.callId, Busy)) else t.log.sent == s.log.sent)
  {
  }

  // The call object of an offer that is taken.
  predicate FromOffer(s: State, e: Event, t: State)
    requires e.Receive? && e.signal.Offer?
  {
    && t.call == Some(ActiveCall(s.nextSerial, e.signal.callId, e.from, In, None, Some(e.signal.sdp), false, false,
                                 None, false, false))
    && t.nextSerial == s.nextSerial + 1 && t.log.rows == s.log.rows && t.endReason.None? && t.endingView.None?
  }

  // A recent offer to someone free rings; an offer that wins a glare is answered at once and
  // the own call dropped, engine and all, without a word about it.
  lemma TakenOfferIsExact(s: State, e: Event)
    requires Valid(s) && OfferHeard(s, e)
    ensures s.call.None? && e.now - e.sentAt < 120_000 ==>
      var t := Step(s, e);
      && FromOffer(s, e, t) && t.status == IncomingRinging && t.log.sent == s.log.sent
      && t.recentlyEnded == s.recentlyEnded
    ensures GlareEligible(s, e.from) && !OfferWins(s.call.value.callId, e.signal.callId) ==>
      var t := Step(s, e);
      && FromOffer(s, e, t) && t.status == Connecting && SentOne(s, t, e.from.handle, Accept(e.signal.callId))
      && t.recentlyEnded == Touch(s.recentlyEnded, s.call.value.callId)
      && Flight(AnswerTurn, s.nextSerial) in t.flights && t.openEngines == {}
  {
    if GlareEligible(s, e.from) && !OfferWins(s.call.value.callId, e.signal.callId) {
      YieldIsExact(s, e);
    }
  }

  lemma YieldIsExact(s: State, e: Event)
    requires Valid(s) && OfferHeard(s, e) && GlareEligible(s, e.from)
    requires !OfferWins(s.call.value.callId, e.signal.callId)
    ensures var t := Step(s, e);
      && FromOffer(s, e, t) && t.status == Connecting && SentOne(s, t, e.from.handle, Accept(e.signal.callId))
      && t.recentlyEnded == Touch(s.recentlyEnded, s.call.value.callId)
      && Flight(AnswerTurn, s.nextSerial) in t.flights && t.openEngines == {}
  {
  }

  // With media up the connect window is over.
  lemma MediaEndsTheWindow(s: State, e: Event)
    requires Valid(s) && MediaUp(s, e) && s.status == Connecting
    ensures Step(s, e).timers.connect.None?
  {
  }

  // The end of a call that is not the live one: missed if the caller hung up or gave up.
  lemma StrayEndIsExact(s: State, e: Event)
    requires Valid(s) && e.Receive? && e.signal.End? && !HeardFor(s, e) && e.signal.callId !in s.recentlyEnded
    ensures var t := Step(s, e);
      && Aside(s, e, t) && t.log.sent == s.log.sent
      && MissedIs(s, e, t, e.signal.reason == Hangup || e.signal.reason == Timeout)
  {
  }
}
