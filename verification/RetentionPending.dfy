// The pending change over runs: when it is opened and closed, what the timelines say about
// it, and when the two of them name the same event.
module RetentionPending {
  import opened Options
  import opened Retention

  function SideOf(p: Pair, side: Side): Convo {
    if side == A then p.a else p.b
  }

  function InboxOf(p: Pair, side: Side): seq<Msg> {
    if side == A then p.ba else p.ab
  }

  // --- what stands pending ---

  datatype Touch = Keeps | Opens(pending: Pending) | Closes

  // A request opens: one's own unless one stands already, the peer's always. Whatever answers
  // or withdraws closes: an accept, a decline, a cancel, from either side.
  function TouchOf(p: Pair, e: Event, side: Side): Touch {
    match e
    case Acts(s, act, _) =>
      if s != side then Keeps
      else (match act
            case Request(v) => if OwnPending(SideOf(p, side)) then Keeps else Opens(Pending(v, false))
            case Accept(_) => if PeerPending(SideOf(p, side)) then Closes else Keeps
            case Cancel => Closes)
    case Delivers(s) =>
      if s != side || InboxOf(p, side) == [] then Keeps
      else if InboxOf(p, side)[0].RequestMsg? then Opens(Pending(InboxOf(p, side)[0].value, true))
      else Closes
  }

  lemma PendingMoves(p: Pair, e: Event, side: Side)
    ensures SideOf(Step(p, e), side).pending ==
      match TouchOf(p, e, side)
      case Keeps => SideOf(p, side).pending
      case Opens(x) => Some(x)
      case Closes => None
  {
  }

  function TouchAt(p: Pair, events: seq<Event>, side: Side, i: nat): Touch
    requires i < |events|
  {
    TouchOf(Run(p, events[..i]), events[i], side)
  }

  predicate KeptFrom(p: Pair, events: seq<Event>, side: Side, i: nat) {
    forall j :: i <= j < |events| ==> TouchAt(p, events, side, j) == Keeps
  }

  // Opened by event i, and nothing after it touched it.
  predicate Stands(p: Pair, events: seq<Event>, side: Side, i: nat, x: Pending) {
    i < |events| && TouchAt(p, events, side, i) == Opens(x) && KeptFrom(p, events, side, i + 1)
  }

  lemma TouchOfPrefix(p: Pair, events: seq<Event>, side: Side, n: nat, i: nat)
    requires i < n <= |events|
    ensures TouchAt(p, events[..n], side, i) == TouchAt(p, events, side, i)
  {
    assert events[..n][..i] == events[..i];
  }

  lemma LastStep(p: Pair, events: seq<Event>, side: Side)
    requires events != []
    ensures SideOf(Run(p, events), side).pending ==
      match TouchAt(p, events, side, |events| - 1)
      case Keeps => SideOf(Run(p, events[..|events| - 1]), side).pending
      case Opens(x) => Some(x)
      case Closes => None
  {
    PendingMoves(Run(p, events[..|events| - 1]), events[|events| - 1], side);
  }

  lemma {:induction false} StandingIsPending(p: Pair, events: seq<Event>, side: Side, i: nat, x: Pending)
    requires Stands(p, events, side, i, x)
    ensures SideOf(Run(p, events), side).pending == Some(x)
  {
    var n := |events| - 1;
    LastStep(p, events, side);
    if i < n {
      assert TouchAt(p, events, side, n) == Keeps;
      forall j | i <= j < n ensures TouchAt(p, events[..n], side, j) == TouchAt(p, events, side, j) {
        TouchOfPrefix(p, events, side, n, j);
      }
      StandingIsPending(p, events[..n], side, i, x);
    }
  }

  lemma {:induction false} PendingWasOpened(p: Pair, events: seq<Event>, side: Side) returns (i: nat)
    requires SideOf(p, side).pending.None? && SideOf(Run(p, events), side).pending.Some?
    ensures Stands(p, events, side, i, SideOf(Run(p, events), side).pending.value)
  {
    var n := |events| - 1;
    LastStep(p, events, side);
    if TouchAt(p, events, side, n).Opens? {
      i := n;
    } else {
      i := PendingWasOpened(p, events[..n], side);
      forall j | i <= j < n ensures TouchAt(p, events[..n], side, j) == TouchAt(p, events, side, j) {
        TouchOfPrefix(p, events, side, n, j);
      }
    }
  }

  // In every run: a change is pending exactly while the request that opened it has not been
  // answered, withdrawn or overtaken, and its value and side are that request's.
  lemma PendingIsExact(p: Pair, events: seq<Event>, side: Side, x: Pending)
    requires SideOf(p, side).pending.None?
    ensures SideOf(Run(p, events), side).pending == Some(x) <==>
              exists i :: 0 <= i < |events| && Stands(p, events, side, i, x)
  {
    if SideOf(Run(p, events), side).pending == Some(x) {
      var i := PendingWasOpened(p, events, side);
    }
    if i :| 0 <= i < |events| && Stands(p, events, side, i, x) {
      StandingIsPending(p, events, side, i, x);
    }
  }

  predicate ReadsAt(p: Pair, events: seq<Event>, side: Side, i: nat) {
    i < |events| && events[i] == Delivers(side) && InboxOf(Run(p, events[..i]), side) != []
  }

  // So an accept takes effect only if the last message read was a request, with the value that
  // is pending, and one has not declined it since: a cancel that was read ends it until a newer
  // request is read.
  lemma AcceptNeedsAStandingRequest(p: Pair, events: seq<Event>, side: Side, v: int) returns (i: nat)
    requires SideOf(p, side).pending.None? && Effective(SideOf(Run(p, events), side), Accept(v))
    ensures ReadsAt(p, events, side, i) && InboxOf(Run(p, events[..i]), side)[0].RequestMsg?
    ensures SideOf(Run(p, events), side).pending.value.value == InboxOf(Run(p, events[..i]), side)[0].value
    ensures forall j :: i < j < |events| ==> !ReadsAt(p, events, side, j)
    ensures forall j :: i < j < |events| && events[j].Acts? && events[j].side == side ==> !events[j].act.Cancel?
  {
    i := PendingWasOpened(p, events, side);
    forall j | i < j < |events|
      ensures !ReadsAt(p, events, side, j)
      ensures events[j].Acts? && events[j].side == side ==> !events[j].act.Cancel?
    {
      assert TouchAt(p, events, side, j) == Keeps;
    }
  }

  // A cancel that is read leaves nothing pending: there is nothing to accept, and one's own
  // request can be made again.
  lemma ReadCancelClears(p: Pair, side: Side, v: int)
    requires InboxOf(p, side) != [] && InboxOf(p, side)[0].CancelMsg?
    ensures var c := SideOf(Step(p, Delivers(side)), side);
      c.pending.None? && !Effective(c, Accept(v)) && Effective(c, Request(v))
  {
    PendingMoves(p, Delivers(side), side);
  }

  // --- the timeline rows ---

  // The row that tells of an action or a message, if it has one. Rows of the peer are unread,
  // but for a request it withdrew; a cancel is told by whose request it was about.
  function Tells(p: Pair, e: Event, side: Side): Option<(NoteKind, bool, Option<int>, bool)> {
    var c := SideOf(p, side);
    match e
    case Acts(s, act, _) =>
      if s != side then None
      else (match act
            case Request(v) => if OwnPending(c) then None else Some((Requested, true, Some(v), true))
            case Accept(v) => if PeerPending(c) then Some((Changed, true, Some(v), true)) else None
            case Cancel =>
              if c.pending.None? then None
              else Some((if c.pending.value.incoming then Declined else Canceled, true, None, true)))
    case Delivers(s) =>
      if s != side || InboxOf(p, side) == [] then None
      else (match InboxOf(p, side)[0]
            case RequestMsg(v) => Some((Requested, false, Some(v), false))
            case AcceptMsg(v) => Some((Changed, false, Some(v), false))
            case CancelMsg =>
              if c.pending.None? then None
              else if c.pending.value.incoming then Some((Canceled, false, None, true))
              else Some((Declined, false, None, false)))
  }

  lemma TimelineIsExact(p: Pair, e: Event, side: Side)
    ensures var before, after := SideOf(p, side), SideOf(Step(p, e), side);
      match Tells(p, e, side)
      case None => after.notes == before.notes
      case Some((kind, outgoing, value, read)) =>
        after.notes == before.notes + [Note(kind, outgoing, value, after.retention, read)]
  {
  }

  // --- one event, two timelines ---

  // Nothing pending on either side, or the same request as seen from its two ends.
  predicate Mirrored(x: Option<Pending>, y: Option<Pending>) {
    if x.None? then y.None? else y.Some? && y.value.incoming != x.value.incoming
  }

  // The rows an event adds to the canceling and to the reading side.
  predicate SameStory(c: Convo, c': Convo, d: Convo, d': Convo) {
    || (c'.notes == c.notes && d'.notes == d.notes)
    || (&& |c'.notes| == |c.notes| + 1 && |d'.notes| == |d.notes| + 1
        && var (n, m) := (c'.notes[|c.notes|], d'.notes[|d.notes|]);
           n.kind == m.kind && n.outgoing && !m.outgoing)
  }

  // A cancel tells the same story on both sides, declined or canceled, exactly when the reader
  // then holds the counterpart of what the sender held.
  lemma SameStoryExactly(c: Convo, d: Convo)
    ensures SameStory(c, Act(c, Cancel), d, Receive(d, CancelMsg)) <==> Mirrored(c.pending, d.pending)
  {
    if c.pending.Some? { assert (c.notes + [CancelNote(c)])[|c.notes|] == CancelNote(c); }
  }

  // It does when the request had been read and nothing else was under way: withdrawn or
  // declined, both sides log the same, and nothing stays pending.
  lemma SettledCancelAgrees(p: Pair, v: int)
    requires p.ab == [] && p.ba == [] && p.a.pending == Some(Pending(v, false)) && p.b.pending == Some(Pending(v, true))
    ensures var q := Step(Step(p, Acts(A, Cancel, true)), Delivers(B));
      && q.a.pending.None? && q.b.pending.None? && q.ab == [] && q.ba == []
      && SameStory(p.a, q.a, p.b, q.b) && q.a.notes[|p.a.notes|].kind == Canceled
    ensures var q := Step(Step(p, Acts(B, Cancel, true)), Delivers(A));
      && q.a.pending.None? && q.b.pending.None? && q.ab == [] && q.ba == []
      && SameStory(p.b, q.b, p.a, q.a) && q.b.notes[|p.b.notes|].kind == Declined
  {
    SameStoryExactly(p.a, p.b);
    SameStoryExactly(p.b, p.a);
  }

  // A withdrawal and a decline that cross leave two different stories.
  lemma CrossedCancelsDiffer(p: Pair, v: int)
    requires p.ab == [] && p.ba == [] && p.a.pending == Some(Pending(v, false)) && p.b.pending == Some(Pending(v, true))
    ensures var q := Step(Step(Step(Step(p, Acts(A, Cancel, true)), Acts(B, Cancel, true)), Delivers(A)), Delivers(B));
      && q.a.notes == p.a.notes + [Note(Canceled, true, None, p.a.retention, true)]
      && q.b.notes == p.b.notes + [Note(Declined, true, None, p.b.retention, true)]
  {
    CrossingRound(p, Cancel, Cancel);
  }
}
