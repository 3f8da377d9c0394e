// How a call ends, and what it was: for each cause of an ending, what is shown, what is
// recorded and what the peer is told; and what every other event makes of a call.
module CallOutcomes {
  import opened Options
  import opened CallTypes
  import opened CallMachine
  import opened CallInvariant
  import opened CallOutline

  // Why a live call is over.
  datatype Cause =
    | Heard(reason: EndReason)      // the contact ended it
    | HungUp                        // the user did
    | Refused                       // the user turned an incoming call down
    | Locked                        // the app locks
    | RangOut                       // nobody answered in time
    | MediaLost                     // the media did not come up, or went for good
    | BadAnswer                     // the contact's answer could not be applied
    | NotSetUp(shown: UiReason)     // a step of placing or answering failed

  predicate Talking(status: Status) { status == Active || status == Reconnecting }

  // The offer of this call has not left.
  predicate Unspoken(s: State) { s.status == Starting && !Offered(s) }

  function EngineCause(err: EngineError): Cause {
    match err
    case MicUnavailable => NotSetUp(MicFailed)
    case NoRelayCandidates => NotSetUp(NoTurn)
    case OtherError => NotSetUp(Failed)
  }

  function TurnCause(turn: TurnResult): Option<Cause> {
    match turn
    case TurnFailed => Some(NotSetUp(NoTurn))
    case CreateThrew(err) => Some(EngineCause(err))
    case EngineCreated => None
  }

  predicate Due(s: State, stage: Stage, g: nat) {
    IsCurrent(s, g) && Flight(stage, g) in s.flights
  }

  // The cause an event is for the live call, if it is one.
  function CauseOf(s: State, e: Event): Option<Cause> {
    match e
    case Receive(_, signal, _, _) =>
      if HeardFor(s, e) && signal.End? && s.status != Starting then Some(Heard(signal.reason)) else None
    case UserDecline => if s.status == IncomingRinging then Some(Refused) else None
    case UserHangUp(_) => Some(if s.status == IncomingRinging then Refused else HungUp)
    case AppLocking(_) => Some(Locked)
    case Fire(RingTimer(g), _) => if RingTimer(g) in s.timers.scheduled then Some(RangOut) else None
    case Fire(ConnectTimer(g), _) =>
      if ConnectTimer(g) in s.timers.scheduled && s.status == Connecting then Some(MediaLost) else None
    case Fire(DisconnectTimer(g), _) => if DisconnectTimer(g) in s.timers.scheduled then Some(MediaLost) else None
    case Ice(g, ice, _) =>
      if IsCurrent(s, g) && ice == IceFailed && PastRinging(s.status) then Some(MediaLost) else None
    case ApplyAnswerDone(g, applied) => if Due(s, ApplyAnswer, g) && !applied then Some(BadAnswer) else None
    case PlaceTurnDone(g, turn) => if Due(s, PlaceTurn, g) then TurnCause(turn) else None
    case PlaceEngineDone(g, Threw(err)) => if Due(s, PlaceEngine, g) then Some(EngineCause(err)) else None
    case PlaceSendDone(g, delivered) => if Due(s, PlaceSend, g) && !delivered then Some(NotSetUp(Failed)) else None
    case AnswerTurnDone(g, turn) => if Due(s, AnswerTurn, g) then TurnCause(turn) else None
    case AnswerEngineDone(g, Threw(err)) => if Due(s, AnswerEngine, g) then Some(EngineCause(err)) else None
    case AnswerSendDone(g, delivered) => if Due(s, AnswerSend, g) && !delivered then Some(NotSetUp(Failed)) else None
    case _ => None
  }

  // What the screen shows for a while; nothing when the app locks.
  function Shown(cause: Cause, status: Status, direction: Direction): Option<UiReason> {
    match cause
    case Heard(reason) =>
      if status != OutgoingRinging then Some(Ended)
      else if reason == Decline then Some(UiReason.Declined)
      else if reason == Busy then Some(WasBusy)
      else Some(Ended)
    case HungUp => Some(if Talking(status) then Ended else Canceled)
    case Refused => Some(UiReason.Declined)
    case Locked => None
    case RangOut => Some(if direction == Out then NoAnswer else Ended)
    case MediaLost => Some(ConnectionLost)
    case BadAnswer => Some(ConnectionLost)
    case NotSetUp(reason) => Some(reason)
  }

  // What the peer is told: nothing about a call it ended, never heard of, or never answered.
  function Told(cause: Cause, s: State, direction: Direction): Option<EndReason> {
    match cause
    case Heard(_) => None
    case HungUp => if Unspoken(s) then None else Some(Hangup)
    case Refused => Some(Decline)
    case Locked => if Unspoken(s) then None else Some(if s.status == IncomingRinging then Decline else Hangup)
    case RangOut => if direction == Out then Some(Timeout) else None
    case MediaLost => Some(Error)
    case BadAnswer => Some(Error)
    case NotSetUp(_) => if direction == In then Some(Error) else if Unspoken(s) then None else Some(Hangup)
  }

  // Whole seconds between two times, rounded, half a second up; none without a start.
  predicate Lasted(since: Option<int>, now: int, seconds: nat) {
    if since.None? || since == Some(0) || now < since.value then seconds == 0
    else 1000 * seconds - 500 <= now - since.value < 1000 * seconds + 500
  }

  // The row of a call that was never up.
  function NeverUp(cause: Cause, s: State, direction: Direction): Option<(RowKind, RowBody, bool)> {
    match cause
    case Heard(reason) =>
      if s.status == IncomingRinging then Some((Missed, NoBody, true))
      else if s.status != OutgoingRinging then Some((Missed, ErrorMark, false))
      else if reason == Decline then Some((DeclinedCall, NoBody, false))
      else if reason == Busy then Some((Missed, BusyMark, false))
      else Some((Missed, NoBody, false))
    case RangOut => Some((Missed, NoBody, direction == In))
    case MediaLost => Some((Missed, ErrorMark, false))
    case BadAnswer => Some((Missed, ErrorMark, false))
    case NotSetUp(_) => if direction == In then Some((Missed, ErrorMark, false)) else None
    case _ =>
      if Unspoken(s) then None
      else if direction == Out then Some((Missed, CanceledMark, false))
      else Some((DeclinedCall, NoBody, false))
  }

  function TimeOf(e: Event): int {
    match e
    case UserHangUp(now) => now
    case AppLocking(now) => now
    case Receive(_, _, _, now) => now
    case Ice(_, _, now) => now
    case Fire(_, now) => now
    case _ => 0
  }

  predicate IsRow(row: Row, c: ActiveCall, kind: RowKind, body: RowBody, unread: bool) {
    row == Row(c.callId, c.contact.id, kind, c.direction, body, unread)
  }

  // A call that was up is recorded by its direction with the time it lasted.
  predicate TalkRow(row: Row, c: ActiveCall, now: int) {
    && row.body.Seconds? && Lasted(c.activeSince, now, row.body.n)
    && IsRow(row, c, if c.direction == Out then OutgoingCall else IncomingCall, row.body, false)
  }

  // These count as missed even when media was up before the step failed.
  predicate OfSetup(cause: Cause) { cause.BadAnswer? || cause.NotSetUp? }

  predicate RowsAre(s: State, t: State, cause: Cause, now: int)
    requires s.call.Some?
  {
    var c, n := s.call.value, |s.log.rows|;
    if Talking(s.status) && !OfSetup(cause) then
      |t.log.rows| == n + 1 && t.log.rows == s.log.rows + [t.log.rows[n]] && TalkRow(t.log.rows[n], c, now)
    else
      match NeverUp(cause, s, c.direction)
      case None => t.log.rows == s.log.rows
      case Some((kind, body, unread)) =>
        t.log.rows == s.log.rows + [Row(c.callId, c.contact.id, kind, c.direction, body, unread)]
  }

  predicate SignalsAre(s: State, t: State, cause: Cause)
    requires s.call.Some?
  {
    var c := s.call.value;
    match Told(cause, s, c.direction)
    case None => t.log.sent == s.log.sent
    case Some(reason) => SentOne(s, t, c.contact.handle, End(c.callId, reason))
  }

  predicate EndsAs(s: State, t: State, cause: Cause, now: int)
    requires s.call.Some?
  {
    && t.call.None? && t.status == (if cause.Locked? then Idle else Ending)
    && t.endReason == Shown(cause, s.status, s.call.value.direction)
    && (if cause.Locked? then t.endingView.None?
        else t.endingView == Some(EndingView(s.call.value.contact.id, s.call.value.direction)))
    && RowsAre(s, t, cause, now) && SignalsAre(s, t, cause)
  }

  predicate EndsExactly(s: State, e: Event, t: State)
    requires s.call.Some?
  {
    && (t.call.None? <==> CauseOf(s, e).Some?)
    && (CauseOf(s, e).Some? ==> EndsAs(s, t, CauseOf(s, e).value, TimeOf(e)))
  }

  lemma RoundingLasts(since: Option<int>, now: int)
    ensures Lasted(since, now, DurationSeconds(since, now))
  {
  }

  lemma TalkIsRecorded(c: ActiveCall, now: int)
    ensures TalkRow(CompletedRow(c, now), c, now)
  {
    RoundingLasts(c.activeSince, now);
  }

  // The row to write for a cause.
  predicate RowFits(s: State, cause: Cause, now: int, row: Option<Row>)
    requires s.call.Some?
  {
    var c := s.call.value;
    if Talking(s.status) && !OfSetup(cause) then row.Some? && TalkRow(row.value, c, now)
    else
      match NeverUp(cause, s, c.direction)
      case None => row.None?
      case Some((kind, body, unread)) => row == Some(Row(c.callId, c.contact.id, kind, c.direction, body, unread))
  }

  // mid is s with an await landed or a timeout spent.
  predicate Midway(s: State, mid: State) {
    && s.call.Some? && mid.call.Some? && mid.log == s.log
    && mid.call.value.callId == s.call.value.callId && mid.call.value.contact == s.call.value.contact
    && mid.call.value.direction == s.call.value.direction
  }

  function Parting(mid: State, told: Option<EndReason>): State {
    match told
    case None => mid
    case Some(end) => SendEnd(mid, end)
  }

  lemma PartingSays(s: State, mid: State, cause: Cause)
    requires Midway(s, mid)
    ensures var t := Parting(mid, Told(cause, s, s.call.value.direction));
      SignalsAre(s, t, cause) && t.log.rows == s.log.rows && t.call == mid.call
  {
  }

  lemma FinishWrites(s: State, left: State, t: State, cause: Cause, shown: UiReason, row: Option<Row>, now: int)
    requires s.call.Some? && left.call.Some? && left.log.rows == s.log.rows && SignalsAre(s, left, cause)
    requires left.call.value.contact == s.call.value.contact && left.call.value.direction == s.call.value.direction
    requires RowFits(s, cause, now, row) && t == Finish(left, shown, row)
    ensures RowsAre(s, t, cause, now) && SignalsAre(s, t, cause)
    ensures t.call.None? && t.status == Ending && t.endReason == Some(shown)
    ensures t.endingView == Some(EndingView(s.call.value.contact.id, s.call.value.direction))
  {
    FinishLog(left, shown, row);
  }

  lemma FinishEnds(s: State, e: Event, mid: State, t: State, cause: Cause, shown: UiReason, row: Option<Row>)
    requires Midway(s, mid) && RowFits(s, cause, TimeOf(e), row) && CauseOf(s, e) == Some(cause) && !cause.Locked?
    requires Shown(cause, s.status, s.call.value.direction) == Some(shown)
    requires t == Finish(Parting(mid, Told(cause, s, s.call.value.direction)), shown, row)
    ensures EndsExactly(s, e, t)
  {
    var left := Parting(mid, Told(cause, s, s.call.value.direction));
    PartingSays(s, mid, cause);
    FinishWrites(s, left, t, cause, shown, row, TimeOf(e));
  }

  lemma HeardEndsExactly(s: State, e: Event)
    requires Valid(s) && s.call.Some? && e.Receive? && e.signal.End?
    ensures EndsExactly(s, e, Step(s, e))
  {
    if HeardFor(s, e) && s.status != Starting {
      var c, cause := s.call.value, Heard(e.signal.reason);
      TalkIsRecorded(c, e.now);
      var row := if Talking(s.status) then CompletedRow(c, e.now)
                 else var (kind, body, unread) := NeverUp(cause, s, c.direction).value; RowFor(c, kind, body, unread);
      FinishEnds(s, e, s, Step(s, e), cause, Shown(cause, s.status, c.direction).value, Some(row));
    }
  }

  lemma OtherSignalsEndNothing(s: State, e: Event)
    requires Valid(s) && s.call.Some? && e.Receive? && !e.signal.End?
    ensures Step(s, e).call.Some?
  {
  }

  lemma DeclineEndsExactly(s: State, e: Event)
    requires Valid(s) && s.call.Some? && e.UserDecline?
    ensures EndsExactly(s, e, Step(s, e))
  {
    if s.status == IncomingRinging {
      var row := RowFor(s.call.value, DeclinedCall, NoBody, false);
      FinishEnds(s, e, s, Step(s, e), Refused, UiReason.Declined, Some(row));
    }
  }

  // Hanging up an incoming call that rings declines it.
  lemma QuickHangUpEndsExactly(s: State, e: Event)
    requires Valid(s) && s.call.Some? && e.UserHangUp? && (s.status == IncomingRinging || Unspoken(s))
    ensures EndsExactly(s, e, Step(s, e))
  {
    if s.status == IncomingRinging {
      var row := RowFor(s.call.value, DeclinedCall, NoBody, false);
      FinishEnds(s, e, s, Step(s, e), Refused, UiReason.Declined, Some(row));
    } else {
      FinishEnds(s, e, s, Step(s, e), HungUp, Canceled, None);
    }
  }

  lemma HangUpFits(s: State, now: int)
    requires Valid(s) && s.call.Some? && s.status != IncomingRinging && !Unspoken(s)
    ensures RowFits(s, HungUp, now, Some(HangUpRow(s, now)))
    ensures Shown(HungUp, s.status, s.call.value.direction) == Some(HangUpReason(s))
  {
    TalkIsRecorded(s.call.value, now);
  }

  lemma HangUpEndsExactly(s: State, e: Event)
    requires Valid(s) && s.call.Some? && e.UserHangUp?
    ensures EndsExactly(s, e, Step(s, e))
  {
    if s.status == IncomingRinging || Unspoken(s) {
      QuickHangUpEndsExactly(s, e);
    } else {
      HangUpIsLoud(s, e.now);
      HangUpFits(s, e.now);
      FinishEnds(s, e, s, StepHangUp(s, e.now), HungUp, HangUpReason(s), Some(HangUpRow(s, e.now)));
    }
  }

  lemma FarewellFits(s: State, now: int)
    requires Valid(s) && s.call.Some?
    ensures var farewell := LockFarewell(s, now);
      && (farewell.None? ==> Unspoken(s) && RowFits(s, Locked, now, None))
      && (farewell.Some? ==> Told(Locked, s, s.call.value.direction) == Some(farewell.value.reason)
                             && RowFits(s, Locked, now, Some(farewell.value.row)))
  {
    TalkIsRecorded(s.call.value, now);
  }

  lemma LockedAway(s: State, row: Option<Row>, now: int)
    requires s.call.Some? && RowFits(s, Locked, now, row)
    ensures var left := Parting(s, Told(Locked, s, s.call.value.direction));
      var written := if row.Some? then WriteRow(left, row.value) else left;
      EndsAs(s, Teardown(written, s.call.value).(status := Idle, endReason := None, endingView := None), Locked, now)
  {
  }

  lemma LockEndsExactly(s: State, e: Event)
    requires Valid(s) && s.call.Some? && e.AppLocking?
    ensures EndsExactly(s, e, Step(s, e))
  {
    FarewellFits(s, e.now);
    var farewell := LockFarewell(s, e.now);
    LockedAway(s, if farewell.Some? then Some(farewell.value.row) else None, e.now);
  }

  lemma RingTimerOfCaller(s: State, e: Event)
    requires Valid(s) && s.call.Some? && e.Fire? && e.timer.RingTimer? && e.timer in s.timers.scheduled
    requires s.call.value.direction == Out
    ensures EndsExactly(s, e, Step(s, e))
  {
    var row := RowFor(s.call.value, Missed, NoBody, false);
    FinishEnds(s, e, s.(timers := s.timers.Expire(e.timer)), Step(s, e), RangOut, NoAnswer, Some(row));
  }

  lemma RingTimerOfCallee(s: State, e: Event)
    requires Valid(s) && s.call.Some? && e.Fire? && e.timer.RingTimer? && e.timer in s.timers.scheduled
    requires s.call.value.direction == In
    ensures EndsExactly(s, e, Step(s, e))
  {
    var row := RowFor(s.call.value, Missed, NoBody, true);
    FinishEnds(s, e, s.(timers := s.timers.Expire(e.timer)), Step(s, e), RangOut, Ended, Some(row));
  }

  lemma RingTimerEndsExactly(s: State, e: Event)
    requires Valid(s) && s.call.Some? && e.Fire? && e.timer.RingTimer?
    ensures EndsExactly(s, e, Step(s, e))
  {
    if e.timer !in s.timers.scheduled {
      assert Step(s, e) == s;
    } else if s.call.value.direction == Out {
      RingTimerOfCaller(s, e);
    } else {
      RingTimerOfCallee(s, e);
    }
  }

  lemma ConnectTimerEndsExactly(s: State, e: Event)
    requires Valid(s) && s.call.Some? && e.Fire? && e.timer.ConnectTimer?
    ensures EndsExactly(s, e, Step(s, e))
  {
    if e.timer in s.timers.scheduled && s.status == Connecting {
      var mid := s.(timers := s.timers.Expire(e.timer));
      FinishEnds(s, e, mid, Step(s, e), MediaLost, ConnectionLost, MissedByError(s));
    }
  }

  lemma DisconnectTimerEndsExactly(s: State, e: Event)
    requires Valid(s) && s.call.Some? && e.Fire? && e.timer.DisconnectTimer?
    ensures EndsExactly(s, e, Step(s, e))
  {
    if e.timer in s.timers.scheduled {
      var mid := s.(timers := s.timers.Expire(e.timer));
      TalkIsRecorded(s.call.value, e.now);
      FinishEnds(s, e, mid, Step(s, e), MediaLost, ConnectionLost, Some(CompletedRow(s.call.value, e.now)));
    }
  }

  lemma LingerTimerEndsNothing(s: State, e: Event)
    requires Valid(s) && s.call.Some? && e.Fire? && e.timer.LingerTimer?
    ensures Step(s, e).call.Some?
  {
  }

  lemma MediaNeverCame(s: State, e: Event)
    requires Valid(s) && s.call.Some? && e.Ice? && CauseOf(s, e).Some? && s.status == Connecting
    ensures EndsExactly(s, e, Step(s, e))
  {
    FinishEnds(s, e, s, Step(s, e), MediaLost, ConnectionLost, MissedByError(s));
  }

  lemma MediaWentAway(s: State, e: Event)
    requires Valid(s) && s.call.Some? && e.Ice? && CauseOf(s, e).Some? && s.status != Connecting
    ensures EndsExactly(s, e, Step(s, e))
  {
    TalkIsRecorded(s.call.value, e.now);
    FinishEnds(s, e, s, Step(s, e), MediaLost, ConnectionLost, Some(CompletedRow(s.call.value, e.now)));
  }

  lemma MediaEndsExactly(s: State, e: Event)
    requires Valid(s) && s.call.Some? && e.Ice?
    ensures EndsExactly(s, e, Step(s, e))
  {
    if CauseOf(s, e).Some? {
      if s.status == Connecting { MediaNeverCame(s, e); } else { MediaWentAway(s, e); }
    } else {
      assert Step(s, e).call.Some?;
    }
  }

  lemma PlaceTurnEndsExactly(s: State, e: Event)
    requires Valid(s) && s.call.Some? && e.PlaceTurnDone?
    ensures EndsExactly(s, e, Step(s, e))
  {
    if CauseOf(s, e).Some? {
      var cause := CauseOf(s, e).value;
      FinishEnds(s, e, Land(s, PlaceTurn, e.serial), Step(s, e), cause, cause.shown, None);
    }
  }

  lemma PlaceEngineEndsExactly(s: State, e: Event)
    requires Valid(s) && s.call.Some? && e.PlaceEngineDone?
    ensures EndsExactly(s, e, Step(s, e))
  {
    if CauseOf(s, e).Some? {
      var cause := CauseOf(s, e).value;
      FinishEnds(s, e, Land(s, PlaceEngine, e.serial), Step(s, e), cause, cause.shown, None);
    }
  }

  lemma SendingEndsExactly(s: State, e: Event)
    requires Valid(s) && s.call.Some? && e.PlaceSendDone?
    ensures EndsExactly(s, e, Step(s, e))
  {
    if CauseOf(s, e).Some? {
      FinishEnds(s, e, Land(s, PlaceSend, e.serial), Step(s, e), NotSetUp(Failed), Failed, None);
    }
  }

  lemma AnswerTurnEndsExactly(s: State, e: Event)
    requires Valid(s) && s.call.Some? && e.AnswerTurnDone?
    ensures EndsExactly(s, e, Step(s, e))
  {
    if CauseOf(s, e).Some? {
      var cause := CauseOf(s, e).value;
      FinishEnds(s, e, Land(s, AnswerTurn, e.serial), Step(s, e), cause, cause.shown, MissedByError(s));
    }
  }

  lemma AnswerEngineEndsExactly(s: State, e: Event)
    requires Valid(s) && s.call.Some? && e.AnswerEngineDone?
    ensures EndsExactly(s, e, Step(s, e))
  {
    if CauseOf(s, e).Some? {
      var cause := CauseOf(s, e).value;
      FinishEnds(s, e, Land(s, AnswerEngine, e.serial), Step(s, e), cause, cause.shown, MissedByError(s));
    }
  }

  lemma AnswerSendEndsExactly(s: State, e: Event)
    requires Valid(s) && s.call.Some? && e.AnswerSendDone?
    ensures EndsExactly(s, e, Step(s, e))
  {
    if CauseOf(s, e).Some? {
      var cause := CauseOf(s, e).value;
      FinishEnds(s, e, Land(s, AnswerSend, e.serial), Step(s, e), cause, cause.shown, MissedByError(s));
    }
  }

  lemma ApplyEndsExactly(s: State, e: Event)
    requires Valid(s) && s.call.Some? && e.ApplyAnswerDone?
    ensures EndsExactly(s, e, Step(s, e))
  {
    if CauseOf(s, e).Some? {
      FinishEnds(s, e, Land(s, ApplyAnswer, e.serial), Step(s, e), BadAnswer, ConnectionLost, MissedByError(s));
    }
  }

  // A live call ends exactly by one of these causes, and with what the cause gives.
  lemma EndingIsExact(s: State, e: Event)
    requires Valid(s) && s.call.Some?
    ensures EndsExactly(s, e, Step(s, e))
  {
    match e {
      case Receive(_, signal, _, _) => if signal.End? { HeardEndsExactly(s, e); } else { OtherSignalsEndNothing(s, e); }
      case UserDecline => DeclineEndsExactly(s, e);
      case UserHangUp(_) => HangUpEndsExactly(s, e);
      case AppLocking(_) => LockEndsExactly(s, e);
      case Fire(RingTimer(_), _) => RingTimerEndsExactly(s, e);
      case Fire(ConnectTimer(_), _) => ConnectTimerEndsExactly(s, e);
      case Fire(DisconnectTimer(_), _) => DisconnectTimerEndsExactly(s, e);
      case Fire(LingerTimer(_), _) => LingerTimerEndsNothing(s, e);
      case Ice(_, _, _) => MediaEndsExactly(s, e);
      case PlaceTurnDone(_, _) => PlaceTurnEndsExactly(s, e);
      case PlaceEngineDone(_, _) => PlaceEngineEndsExactly(s, e);
      case PlaceSendDone(_, _) => SendingEndsExactly(s, e);
      case AnswerTurnDone(_, _) => AnswerTurnEndsExactly(s, e);
      case AnswerEngineDone(_, _) => AnswerEngineEndsExactly(s, e);
      case AnswerSendDone(_, _) => AnswerSendEndsExactly(s, e);
      case ApplyAnswerDone(_, _) => ApplyEndsExactly(s, e);
      case _ =>
    }
  }
}
