// The two timelines of a pair: an end in transit tells the truth about what its sender
// recorded, so what the reader shows and records of it fits.
module CallRecords {
  import opened Options
  import opened CallTypes
  import opened CallMachine
  import opened CallInvariant
  import opened CallOutline
  import opened CallOutcomes
  import opened CallPair

  predicate IsQuietRow(row: Row, c: CallId, kind: RowKind, direction: Direction) {
    row.callId == c && row.kind == kind && row.direction == direction && row.body == NoBody && !row.unread
  }

  predicate Recorded(s: State, c: CallId, kind: RowKind, direction: Direction) {
    exists i :: 0 <= i < |s.log.rows| && IsQuietRow(s.log.rows[i], c, kind, direction)
  }

  // A decline was recorded as one by the callee, a timeout as unanswered by the caller, and a
  // busy call has been noted.
  predicate Meant(s: State, c: CallId, reason: EndReason) {
    && (reason == Decline ==> Recorded(s, c, DeclinedCall, In))
    && (reason == Timeout ==> Recorded(s, c, Missed, Out))
    && (reason == Busy ==> c in s.log.remembered)
  }

  predicate Truthful(s: State, channel: seq<Signal>) {
    forall i :: 0 <= i < |channel| && channel[i].End? ==> Meant(s, channel[i].callId, channel[i].reason)
  }

  predicate Records(p: Pair) {
    Backed(p) && Truthful(p.x, p.xy) && Truthful(p.y, p.yx)
  }

  predicate Later(s: State, t: State) {
    s.log.rows <= t.log.rows && s.log.remembered <= t.log.remembered
  }

  lemma LaterKeepsTruth(s: State, t: State, channel: seq<Signal>)
    requires Later(s, t) && Truthful(s, channel)
    ensures Truthful(t, channel)
  {
    forall i | 0 <= i < |channel| && channel[i].End? ensures Meant(t, channel[i].callId, channel[i].reason) {
      RecordsStay(s, t, channel[i].callId, DeclinedCall, In);
      RecordsStay(s, t, channel[i].callId, Missed, Out);
    }
  }

  lemma RecordsStay(s: State, t: State, c: CallId, kind: RowKind, direction: Direction)
    requires Later(s, t)
    ensures Recorded(s, c, kind, direction) ==> Recorded(t, c, kind, direction)
  {
    if i :| 0 <= i < |s.log.rows| && IsQuietRow(s.log.rows[i], c, kind, direction) {
      assert t.log.rows[i] == s.log.rows[i];
    }
  }

  lemma PermittedIsLater(s: State, e: Event, t: State)
    requires Permitted(s, e, t)
    ensures Later(s, t)
  {
  }

  // An end that is sent is meant.
  predicate SaysTruly(s: State, t: State) {
    || t.log.sent == s.log.sent
    || (|t.log.sent| > 0 && var last := t.log.sent[|t.log.sent| - 1];
        SentOne(s, t, last.to, last.signal) && (last.signal.End? ==> Meant(t, last.signal.callId, last.signal.reason)))
  }

  // Only a ringing incoming call is declined, and only a call nobody took runs out.
  predicate CauseFits(s: State, cause: Cause)
    requires s.call.Some?
  {
    && (Told(cause, s, s.call.value.direction) == Some(Decline) ==>
          s.status == IncomingRinging && s.call.value.direction == In && (cause.Refused? || cause.Locked?))
    && (Told(cause, s, s.call.value.direction) == Some(Timeout) ==>
          cause.RangOut? && s.call.value.direction == Out && !Talking(s.status))
  }

  lemma CausesFit(s: State, e: Event)
    requires Valid(s) && s.call.Some? && CauseOf(s, e).Some?
    ensures CauseFits(s, CauseOf(s, e).value)
  {
  }

  lemma EndsTruly(s: State, t: State, cause: Cause, now: int)
    requires s.call.Some? && EndsAs(s, t, cause, now) && CauseFits(s, cause)
    requires Told(cause, s, s.call.value.direction) != Some(Busy)
    ensures SaysTruly(s, t)
  {
    var told := Told(cause, s, s.call.value.direction);
    if told == Some(Decline) || told == Some(Timeout) {
      var n := |s.log.rows|;
      assert IsQuietRow(t.log.rows[n], s.call.value.callId, if told == Some(Decline) then DeclinedCall else Missed,
                        s.call.value.direction);
    }
  }

  lemma EndingSaysTruly(s: State, e: Event)
    requires Valid(s) && s.call.Some? && CauseOf(s, e).Some?
    ensures SaysTruly(s, Step(s, e))
  {
    EndingIsExact(s, e);
    CausesFit(s, e);
    EndsTruly(s, Step(s, e), CauseOf(s, e).value, TimeOf(e));
  }

  // What is sent but by an ending: the end of a call that is refused as busy, or no end at all.
  lemma PermittedSaysTruly(s: State, e: Event, t: State)
    requires Permitted(s, e, t) && !Over(s, e, t)
    ensures SaysTruly(s, t)
  {
    if t.log.sent != s.log.sent {
      var last := t.log.sent[|t.log.sent| - 1];
      assert t.log.sent == s.log.sent + [last];
      if last.signal.End? {
        assert Noted(s, e, t);
        assert e.signal.callId in t.log.remembered;
      }
    }
  }

  lemma OtherStepsSayTruly(s: State, e: Event)
    requires Valid(s) && (s.call.Some? ==> CauseOf(s, e).None?)
    ensures SaysTruly(s, Step(s, e))
  {
    StepIsPermitted(s, e);
    if s.call.Some? {
      EndingIsExact(s, e);
    }
    PermittedSaysTruly(s, e, Step(s, e));
  }

  lemma StepSaysTruly(s: State, e: Event)
    requires Valid(s)
    ensures SaysTruly(s, Step(s, e)) && Later(s, Step(s, e))
  {
    StepIsPermitted(s, e);
    PermittedIsLater(s, e, Step(s, e));
    if s.call.Some? && CauseOf(s, e).Some? {
      EndingSaysTruly(s, e);
    } else {
      OtherStepsSayTruly(s, e);
    }
  }

  lemma MoveKeepsTruth(s: State, e: Event, h: Handle, channel: seq<Signal>)
    requires Valid(s) && Truthful(s, channel)
    ensures Truthful(Step(s, e), channel + NewFor(s, Step(s, e), h))
  {
    var t := Step(s, e);
    StepSaysTruly(s, e);
    LaterKeepsTruth(s, t, channel);
    if t.log.sent == s.log.sent {
      NewForNothing(s, t, h);
    } else {
      var last := t.log.sent[|t.log.sent| - 1];
      NewForOne(s, t, last.to, last.signal, h);
    }
  }

  lemma StepKeepsRecords(p: Pair, e: PairEvent)
    requires Records(p) && Enabled(p, e)
    ensures Records(PairStep(p, e))
  {
    StepKeepsBacked(p, e);
    match e
    case AtX(ev) => MoveKeepsTruth(p.x, ev, Y, p.xy);
    case AtY(ev) => MoveKeepsTruth(p.y, ev, X, p.yx);
    case DeliverToX(id, at, now) => MoveKeepsTruth(p.x, Receive(Contact(id, Y), p.yx[0], at, now), Y, p.xy);
    case DeliverToY(id, at, now) => MoveKeepsTruth(p.y, Receive(Contact(id, X), p.xy[0], at, now), X, p.yx);
  }

  lemma {:induction false} RunKeepsRecords(p: Pair, events: seq<PairEvent>, q: Pair)
    requires Records(p) && PairRun(p, events, q)
    ensures Records(q)
    decreases |events|
  {
    if events != [] {
      StepKeepsRecords(p, events[0]);
      RunKeepsRecords(PairStep(p, events[0]), events[1..], q);
    }
  }

  // --- what the two sides see ---

  predicate LastRow(s: State, t: State, c: ActiveCall, kind: RowKind, body: RowBody, unread: bool) {
    t.log.rows == s.log.rows + [Row(c.callId, c.contact.id, kind, c.direction, body, unread)]
  }

  // The callee declines: it shows and records that, and the caller is told.
  lemma DeclineIsSent(p: Pair, c: CallId)
    requires Valid(p.y) && p.y.status == IncomingRinging && InFrom(p.y, c, X)
    ensures var q := PairStep(p, AtY(UserDecline));
      && q.yx == p.yx + [End(c, Decline)] && q.y.endReason == Some(UiReason.Declined)
      && LastRow(p.y, q.y, p.y.call.value, DeclinedCall, NoBody, false)
  {
    EndingIsExact(p.y, UserDecline);
    NewForOne(p.y, Step(p.y, UserDecline), X, End(c, Decline), X);
  }

  // What the ringing caller makes of the end when it reads it.
  predicate CallerShows(s: State, t: State, reason: EndReason)
    requires s.call.Some?
  {
    var c := s.call.value;
    if reason == Decline then t.endReason == Some(UiReason.Declined) && LastRow(s, t, c, DeclinedCall, NoBody, false)
    else if reason == Busy then t.endReason == Some(WasBusy) && LastRow(s, t, c, Missed, BusyMark, false)
    else t.endReason == Some(Ended) && LastRow(s, t, c, Missed, NoBody, false)
  }

  lemma RingingCallerReads(s: State, e: Event, c: CallId, peer: Handle)
    requires Valid(s) && s.status == OutgoingRinging && OutTo(s, c, peer)
    requires e.Receive? && e.from.handle == peer && IsEnd(e.signal, c)
    ensures CallerShows(s, Step(s, e), e.signal.reason) && Step(s, e).status == Ending
  {
    EndingIsExact(s, e);
  }

  // In every run: a ringing caller that reads the end of its call shows it declined exactly
  // when the callee says so, and then the callee has recorded it as declined, too; it shows it
  // busy exactly when the callee says so, and then the callee has noted the call.
  lemma CallerShowsWhatCalleeMeant(events: seq<PairEvent>, q: Pair, c: CallId, contactId: string, sentAt: int, now: int)
    requires PairRun(START, events, q) && q.x.status == OutgoingRinging && OutTo(q.x, c, Y)
    requires |q.yx| > 0 && IsEnd(q.yx[0], c)
    ensures var t := PairStep(q, DeliverToX(contactId, sentAt, now)).x;
      && CallerShows(q.x, t, q.yx[0].reason)
      && (t.endReason == Some(UiReason.Declined) ==> Recorded(q.y, c, DeclinedCall, In))
      && (t.endReason == Some(WasBusy) ==> c in q.y.log.remembered)
  {
    RunKeepsRecords(START, events, q);
    RingingCallerReads(q.x, Receive(Contact(contactId, Y), q.yx[0], sentAt, now), c, Y);
  }

  lemma RingingCalleeReads(s: State, e: Event, c: CallId, peer: Handle)
    requires Valid(s) && s.status == IncomingRinging && InFrom(s, c, peer)
    requires e.Receive? && e.from.handle == peer && IsEnd(e.signal, c)
    ensures var t := Step(s, e); t.endReason == Some(Ended) && LastRow(s, t, s.call.value, Missed, NoBody, true)
  {
    EndingIsExact(s, e);
  }

  // And the other way: a call given up by its caller is missed by the ringing callee; if the
  // caller says nobody answered, it stands so in the caller's timeline.
  lemma CalleeMissesWhatCallerGaveUp(events: seq<PairEvent>, q: Pair, c: CallId, contactId: string, sentAt: int,
                                     now: int)
    requires PairRun(START, events, q) && q.y.status == IncomingRinging && InFrom(q.y, c, X)
    requires |q.xy| > 0 && IsEnd(q.xy[0], c)
    ensures var t := PairStep(q, DeliverToY(contactId, sentAt, now)).y;
      && t.endReason == Some(Ended) && LastRow(q.y, t, q.y.call.value, Missed, NoBody, true)
      && (q.xy[0].reason == Timeout ==> Recorded(q.x, c, Missed, Out))
  {
    RunKeepsRecords(START, events, q);
    CalleeMisses(q, c, contactId, sentAt, now);
  }

  lemma CalleeMisses(q: Pair, c: CallId, contactId: string, sentAt: int, now: int)
    requires Valid(q.y) && q.y.status == IncomingRinging && InFrom(q.y, c, X) && |q.xy| > 0 && IsEnd(q.xy[0], c)
    ensures var t := PairStep(q, DeliverToY(contactId, sentAt, now)).y;
      t.endReason == Some(Ended) && LastRow(q.y, t, q.y.call.value, Missed, NoBody, true)
  {
    RingingCalleeReads(q.y, Receive(Contact(contactId, X), q.xy[0], sentAt, now), c, X);
  }
}
