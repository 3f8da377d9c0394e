// Consequences of the controller invariant: every waiting call has something pending that
// moves it on, and stale work changes nothing.
module CallProgress {
  import opened Options
  import opened CallTypes
  import opened CallMachine
  import opened CallInvariant
  import opened CallOutline

  lemma ReachableIsValid(events: seq<Event>)
    ensures Valid(Run(INITIAL, events))
  {
    RunKeepsValid(INITIAL, events);
  }

  // The runtime owes the controller this event about its current call: a timeout that is
  // scheduled, or the outcome (any outcome) of an await of the chain the status waits for.
  predicate Owed(s: State, e: Event) {
    && s.call.Some?
    && var g := s.call.value.serial;
       match e
       case PlaceTurnDone(h, _) => h == g && Flight(PlaceTurn, g) in s.flights
       case PlaceEngineDone(h, _) => h == g && Flight(PlaceEngine, g) in s.flights
       case PlaceSendDone(h, _) => h == g && Flight(PlaceSend, g) in s.flights
       case AnswerTurnDone(h, _) => s.status == Connecting && h == g && Flight(AnswerTurn, g) in s.flights
       case AnswerEngineDone(h, _) => s.status == Connecting && h == g && Flight(AnswerEngine, g) in s.flights
       case AnswerSendDone(h, _) => s.status == Connecting && h == g && Flight(AnswerSend, g) in s.flights
       case Fire(RingTimer(h), _) => h == g && RingTimer(g) in s.timers.scheduled
       case Fire(ConnectTimer(h), _) => s.status == Connecting && h == g && ConnectTimer(g) in s.timers.scheduled
       case Fire(DisconnectTimer(h), _) => h == g && DisconnectTimer(g) in s.timers.scheduled
       case _ => false
  }

  // How many owed events a call can still absorb before it is up or over.
  function Rank(s: State): nat {
    if s.call.None? then 0
    else
      var g := s.call.value.serial;
      match s.status
      case Starting =>
        if Flight(PlaceTurn, g) in s.flights then 9 else if Flight(PlaceEngine, g) in s.flights then 8 else 7
      case OutgoingRinging => 6
      case IncomingRinging => 6
      case Connecting =>
        if Flight(AnswerTurn, g) in s.flights then 5
        else if Flight(AnswerEngine, g) in s.flights then 4
        else if Flight(AnswerSend, g) in s.flights then 3
        else 2
      case _ => 1
  }

  lemma SomethingIsOwed(s: State)
    requires Valid(s) && s.call.Some? && s.status != Active
    ensures exists e :: Owed(s, e)
  {
    var g := s.call.value.serial;
    var e :=
      if Flight(PlaceTurn, g) in s.flights then PlaceTurnDone(g, TurnFailed)
      else if Flight(PlaceEngine, g) in s.flights then PlaceEngineDone(g, Threw(OtherError))
      else if Flight(PlaceSend, g) in s.flights then PlaceSendDone(g, false)
      else if Ringing(s.status) then Fire(RingTimer(g), 0)
      else if s.status == Reconnecting then Fire(DisconnectTimer(g), 0)
      else if Flight(AnswerTurn, g) in s.flights then AnswerTurnDone(g, TurnFailed)
      else if Flight(AnswerEngine, g) in s.flights then AnswerEngineDone(g, Threw(OtherError))
      else if Flight(AnswerSend, g) in s.flights then AnswerSendDone(g, false)
      else Fire(ConnectTimer(g), 0);
    assert Owed(s, e);
  }

  lemma OwedEventsMoveOn(s: State, e: Event)
    requires Valid(s) && Owed(s, e)
    ensures Rank(Step(s, e)) < Rank(s)
  {
  }

  // An event that is not owed may help, but never sets a live call back: a call that yields
  // to a glare is followed by one that is further along.
  lemma RankNeverRises(s: State, e: Event)
    requires Valid(s) && s.call.Some?
    ensures Rank(Step(s, e)) <= Rank(s)
  {
    if e.Receive? && e.signal.Offer? {
      OfferNeverSetsBack(s, e);
    } else if e.Fire? {
      TimerNeverSetsBack(s, e);
    } else if e.Ice? {
      MediaNeverSetsBack(s, e);
    } else if e.Receive? {
      SignalNeverSetsBack(s, e);
    } else if IsContinuation(e) {
      ContinuationNeverSetsBack(s, e);
    } else {
      UserNeverSetsBack(s, e);
    }
  }

  lemma OfferNeverSetsBack(s: State, e: Event)
    requires Valid(s) && s.call.Some? && e.Receive? && e.signal.Offer?
    ensures Rank(Step(s, e)) <= Rank(s)
  {
    if OfferHeard(s, e) && GlareEligible(s, e.from) && !OfferWins(s.call.value.callId, e.signal.callId) {
      YieldOutline(s, e);
    }
  }

  lemma TimerNeverSetsBack(s: State, e: Event)
    requires Valid(s) && s.call.Some? && e.Fire?
    ensures Rank(Step(s, e)) <= Rank(s)
  {
  }

  lemma MediaNeverSetsBack(s: State, e: Event)
    requires Valid(s) && s.call.Some? && e.Ice?
    ensures Rank(Step(s, e)) <= Rank(s)
  {
  }

  lemma SignalNeverSetsBack(s: State, e: Event)
    requires Valid(s) && s.call.Some? && e.Receive? && !e.signal.Offer?
    ensures Rank(Step(s, e)) <= Rank(s)
  {
    match e.signal
    case Accept(id) => AcceptNeverSetsBack(s, e.from, id);
    case Answer(id, _) => AnswerNeverSetsBack(s, e.from, id);
    case End(id, reason) => EndNeverSetsBack(s, e.from, id, reason, e.now);
  }

  lemma AcceptNeverSetsBack(s: State, from: Contact, id: CallId)
    requires Valid(s) && s.call.Some?
    ensures Rank(HandleAccepted(s, from, id)) <= Rank(s)
  {
  }

  lemma AnswerNeverSetsBack(s: State, from: Contact, id: CallId)
    requires Valid(s) && s.call.Some?
    ensures Rank(HandleAnswer(s, from, id)) <= Rank(s)
  {
  }

  lemma EndNeverSetsBack(s: State, from: Contact, id: CallId, reason: EndReason, now: int)
    requires Valid(s) && s.call.Some?
    ensures Rank(HandleEnd(s, from, id, reason, now)) <= Rank(s)
  {
  }

  predicate IsContinuation(e: Event) {
    || e.PlaceTurnDone? || e.PlaceEngineDone? || e.PlaceSendDone? || e.ApplyAnswerDone?
    || e.AnswerTurnDone? || e.AnswerEngineDone? || e.AnswerSendDone?
  }

  lemma ContinuationNeverSetsBack(s: State, e: Event)
    requires Valid(s) && s.call.Some? && IsContinuation(e)
    ensures Rank(Step(s, e)) <= Rank(s)
  {
    if !IsCurrent(s, Target(e).value) { StaleContinuationIsInert(s, e); }
  }

  lemma UserNeverSetsBack(s: State, e: Event)
    requires Valid(s) && s.call.Some? && !e.Fire? && !e.Ice? && !e.Receive? && !IsContinuation(e)
    ensures Rank(Step(s, e)) <= Rank(s)
  {
  }

  // No live call can hang: unless media is up, something is owed to the call, whatever is
  // owed moves it on whichever way it turns out, nothing else sets it back, and so at most
  // nine owed events bring it up or end it.
  lemma NoLiveCallHangs(events: seq<Event>)
    ensures var s := Run(INITIAL, events);
            s.call.Some? ==>
              && (s.status != Active ==> exists e :: Owed(s, e))
              && (forall e :: Owed(s, e) ==> Rank(Step(s, e)) < Rank(s))
              && (forall e :: Rank(Step(s, e)) <= Rank(s) <= 9)
  {
    var s := Run(INITIAL, events);
    ReachableIsValid(events);
    if s.call.Some? {
      if s.status != Active { SomethingIsOwed(s); }
      forall e | Owed(s, e) ensures Rank(Step(s, e)) < Rank(s) { OwedEventsMoveOn(s, e); }
      forall e ensures Rank(Step(s, e)) <= Rank(s) <= 9 { RankNeverRises(s, e); }
    }
  }

  // The call object an asynchronous event belongs to.
  function Target(e: Event): Option<nat> {
    match e
    case PlaceTurnDone(g, _) => Some(g)
    case PlaceEngineDone(g, _) => Some(g)
    case PlaceSendDone(g, _) => Some(g)
    case AnswerTurnDone(g, _) => Some(g)
    case AnswerEngineDone(g, _) => Some(g)
    case AnswerSendDone(g, _) => Some(g)
    case ApplyAnswerDone(g, _) => Some(g)
    case Ice(g, _, _) => Some(g)
    case Fire(RingTimer(g), _) => Some(g)
    case Fire(ConnectTimer(g), _) => Some(g)
    case Fire(DisconnectTimer(g), _) => Some(g)
    case _ => None
  }

  // Work of a call that is no longer current at most uses up its own await; nothing the user,
  // the peer, the timeline or a newer call can see changes.
  lemma StaleWorkIsInert(s: State, e: Event)
    requires Valid(s) && Target(e).Some? && !IsCurrent(s, Target(e).value)
    ensures OnlyLands(s, Step(s, e), Target(e).value)
  {
    match e {
      case Fire(t, now) => StaleTimerIsInert(s, t, now);
      case Ice(g, ice, now) =>
      case _ => StaleContinuationIsInert(s, e);
    }
  }

  predicate OnlyLands(s: State, t: State, g: nat) {
    && t == s.(flights := t.flights) && t.flights <= s.flights
    && forall f :: f in s.flights && f.serial != g ==> f in t.flights
  }

  // A timeout is scheduled for the current call only.
  lemma StaleTimerIsInert(s: State, t: Timer, now: int)
    requires Valid(s) && !t.LingerTimer? && !IsCurrent(s, t.serial)
    ensures StepFire(s, t, now) == s
  {
  }

  lemma StaleContinuationIsInert(s: State, e: Event)
    requires Target(e).Some? && !IsCurrent(s, Target(e).value) && !e.Fire? && !e.Ice?
    ensures OnlyLands(s, Step(s, e), Target(e).value)
  {
  }

  // Current work signals, records and ends only the call it was created for.
  lemma CurrentWorkKeepsToItsCall(s: State, e: Event)
    requires Valid(s) && Target(e).Some? && IsCurrent(s, Target(e).value)
    ensures var t := Step(s, e); Quiet(s, e, t) || Spoke(s, e, t) || Over(s, e, t)
  {
    StepIsPermitted(s, e);
  }
}
