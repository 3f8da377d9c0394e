// The retention negotiation: a change is requested by one side and applied when the other
// side accepts it. Two conversation rows and two FIFO channels.
module Retention {
  import opened Options

  datatype Pending = Pending(value: int, incoming: bool)

  datatype NoteKind = Requested | Changed | Declined | Canceled

  // A system row of the timeline.
  datatype Note = Note(kind: NoteKind, outgoing: bool, value: Option<int>, retentionSeconds: int, read: bool)

  datatype Convo = Convo(retention: int, pending: Option<Pending>, notes: seq<Note>)

  datatype Msg = RequestMsg(value: int) | AcceptMsg(value: int) | CancelMsg

  datatype Action = Request(value: int) | Accept(value: int) | Cancel

  // --- one side ---

  function WithNote(c: Convo, note: Note): Convo {
    c.(notes := c.notes + [note])
  }

  function SetRetention(c: Convo, seconds: int): Convo {
    c.(retention := seconds, pending := None)
  }

  function SetPending(c: Convo, value: int, incoming: bool): Convo {
    c.(pending := Some(Pending(value, incoming)))
  }

  function ClearPending(c: Convo): Convo {
    c.(pending := None)
  }

  predicate OwnPending(c: Convo) {
    c.pending.Some? && !c.pending.value.incoming
  }

  predicate PeerPending(c: Convo) {
    c.pending.Some? && c.pending.value.incoming
  }

  // The action takes effect: a repeated request and an accept of nothing are ignored.
  predicate Effective(c: Convo, act: Action) {
    match act
    case Request(_) => !OwnPending(c)
    case Accept(_) => PeerPending(c)
    case Cancel => true
  }

  function CancelNote(c: Convo): Note {
    Note(if PeerPending(c) then Declined else Canceled, true, None, c.retention, true)
  }

  // requestRetention, acceptRetention and cancelRetention. The accepted value is the
  // caller's, which need not be the pending one.
  function Act(c: Convo, act: Action): Convo {
    if !Effective(c, act) then c
    else
      match act
      case Request(v) => WithNote(SetPending(c, v, false), Note(Requested, true, Some(v), c.retention, true))
      case Accept(v) => WithNote(SetRetention(c, v), Note(Changed, true, Some(v), v, true))
      case Cancel => if c.pending.Some? then WithNote(ClearPending(c), CancelNote(c)) else ClearPending(c)
  }

  function MsgOf(act: Action): Msg {
    match act
    case Request(v) => RequestMsg(v)
    case Accept(v) => AcceptMsg(v)
    case Cancel => CancelMsg
  }

  function Receive(c: Convo, msg: Msg): Convo {
    match msg
    case RequestMsg(v) => WithNote(SetPending(c, v, true), Note(Requested, false, Some(v), c.retention, false))
    case AcceptMsg(v) => WithNote(SetRetention(c, v), Note(Changed, false, Some(v), v, false))
    case CancelMsg =>
      if c.pending.Some? then
        var declined := OwnPending(c);
        WithNote(ClearPending(c), Note(if declined then Declined else Canceled, false, None, c.retention, !declined))
      else c
  }

  // --- the pair ---

  datatype Pair = Pair(a: Convo, b: Convo, ab: seq<Msg>, ba: seq<Msg>)

  datatype Side = A | B

  // A send is best effort: `sent` says whether this one got through.
  datatype Event = Acts(side: Side, act: Action, sent: bool) | Delivers(side: Side)

  function Mirror(p: Pair): Pair {
    Pair(p.b, p.a, p.ba, p.ab)
  }

  function ActsA(p: Pair, act: Action, sent: bool): Pair {
    p.(a := Act(p.a, act), ab := if sent && Effective(p.a, act) then p.ab + [MsgOf(act)] else p.ab)
  }

  function DeliversA(p: Pair): Pair {
    if p.ba == [] then p else p.(a := Receive(p.a, p.ba[0]), ba := p.ba[1..])
  }

  function Step(p: Pair, e: Event): Pair {
    match e
    case Acts(A, act, sent) => ActsA(p, act, sent)
    case Acts(B, act, sent) => Mirror(ActsA(Mirror(p), act, sent))
    case Delivers(A) => DeliversA(p)
    case Delivers(B) => Mirror(DeliversA(Mirror(p)))
  }

  function Run(p: Pair, events: seq<Event>): Pair {
    if events == [] then p else Step(Run(p, events[..|events| - 1]), events[|events| - 1])
  }

  // --- agreement ---

  function Accepts(ch: seq<Msg>): seq<int> {
    if ch == [] then [] else (if ch[0].AcceptMsg? then [ch[0].value] else []) + Accepts(ch[1..])
  }

  function Last(values: seq<int>, otherwise: int): int {
    if values == [] then otherwise else values[|values| - 1]
  }

  // What a side holds once everything in transit to it has arrived.
  function Settles(ch: seq<Msg>, retention: int): int {
    Last(Accepts(ch), retention)
  }

  predicate WillAgree(p: Pair) {
    Settles(p.ba, p.a.retention) == Settles(p.ab, p.b.retention)
  }

  lemma {:induction false} AcceptsAppend(ch: seq<Msg>, m: Msg)
    ensures Accepts(ch + [m]) == Accepts(ch) + if m.AcceptMsg? then [m.value] else []
  {
    if ch != [] {
      AcceptsAppend(ch[1..], m);
      assert (ch + [m])[1..] == ch[1..] + [m];
    }
  }

  // Delivery never changes what either side ends up with.
  lemma DeliveryKeepsOutcome(p: Pair)
    ensures var q := DeliversA(p);
      Settles(q.ba, q.a.retention) == Settles(p.ba, p.a.retention) && q.b == p.b && q.ab == p.ab
  {
  }

  // The exact effect of an action on agreement. Requests and cancels never endanger it. An
  // effective accept of v leads to agreement if and only if nothing in transit will overwrite
  // v here and the other side will hold v too: the send got through, or it holds v anyway.
  lemma ActionAgreesExactly(p: Pair, act: Action, sent: bool)
    ensures !act.Accept? || !Effective(p.a, act) ==> (WillAgree(ActsA(p, act, sent)) <==> WillAgree(p))
    ensures act.Accept? && Effective(p.a, act) ==>
        (WillAgree(ActsA(p, act, sent)) <==>
         Settles(p.ba, act.value) == if sent then act.value else Settles(p.ab, p.b.retention))
  {
    AcceptsAppend(p.ab, MsgOf(act));
  }

  // With a send that gets through: exactly when no other accept value is on its way here.
  lemma SentAcceptAgreesExactly(p: Pair, v: int)
    requires Effective(p.a, Accept(v))
    ensures WillAgree(ActsA(p, Accept(v), true)) <==> Accepts(p.ba) == [] || Last(Accepts(p.ba), v) == v
  {
    ActionAgreesExactly(p, Accept(v), true);
  }

  // --- one proposer ---

  // Side A alone asks; nothing it has sent is an accept, and B has sent no request.
  predicate OneProposer(p: Pair) {
    && !PeerPending(p.a) && !OwnPending(p.b)
    && Accepts(p.ab) == [] && forall m :: m in p.ba ==> !m.RequestMsg?
  }

  predicate OnlyAProposes(events: seq<Event>) {
    forall e :: e in events && e.Acts? && e.side == B ==> !e.act.Request?
  }

  // What an event adds to the accepts that reached the wire.
  function Adds(p: Pair, e: Event): seq<int> {
    if e.Acts? && e.side == B && e.act.Accept? && e.sent && Effective(p.b, e.act) then [e.act.value] else []
  }

  // The accepts that reached the wire, oldest first, from a run in which A alone proposes.
  function SentAccepts(p: Pair, events: seq<Event>): seq<int> {
    if events == [] then []
    else
      var before, e := events[..|events| - 1], events[|events| - 1];
      SentAccepts(p, before) + Adds(Run(p, before), e)
  }

  predicate AcceptsGetThrough(events: seq<Event>) {
    forall e :: e in events && e.Acts? && e.act.Accept? ==> e.sent
  }

  lemma StepKeepsOneProposer(p: Pair, e: Event)
    requires OneProposer(p) && (e.Acts? && e.side == B ==> !e.act.Request?)
    ensures OneProposer(Step(p, e))
  {
    if e.Acts? && e.side == A { AcceptsAppend(p.ab, MsgOf(e.act)); }
  }

  // The proposer's own accept never does anything.
  lemma ProposerNeverAccepts(p: Pair, v: int, sent: bool)
    requires OneProposer(p)
    ensures Step(p, Acts(A, Accept(v), sent)) == p
  {
  }

  // The accepts still in transit are the last ones sent, in order, and the requester holds
  // the value of the accept just before them.
  predicate TrailOf(accepts: seq<int>, value: int, initial: int, sent: seq<int>) {
    var done := |sent| - |accepts|;
    && done >= 0
    && (forall i :: 0 <= i < |accepts| ==> accepts[i] == sent[done + i])
    && value == if done == 0 then initial else sent[done - 1]
  }

  predicate Trails(p: Pair, initial: int, sent: seq<int>) {
    TrailOf(Accepts(p.ba), p.a.retention, initial, sent)
  }

  lemma TrailShrinks(v: int, rest: seq<int>, value: int, initial: int, sent: seq<int>)
    requires TrailOf([v] + rest, value, initial, sent)
    ensures TrailOf(rest, v, initial, sent)
  {
    var all := [v] + rest;
    assert all[0] == v;
    forall i | 0 <= i < |rest| ensures rest[i] == sent[|sent| - |rest| + i] {
      assert all[i + 1] == rest[i];
    }
  }

  lemma DeliveryKeepsTrail(p: Pair, initial: int, sent: seq<int>)
    requires Trails(p, initial, sent)
    ensures Trails(DeliversA(p), initial, sent)
  {
    if p.ba != [] {
      if p.ba[0].AcceptMsg? {
        TrailShrinks(p.ba[0].value, Accepts(p.ba[1..]), p.a.retention, initial, sent);
      } else {
        assert [] + Accepts(p.ba[1..]) == Accepts(p.ba[1..]);
      }
    }
  }

  lemma TrailGrows(accepts: seq<int>, value: int, initial: int, sent: seq<int>, v: int)
    requires TrailOf(accepts, value, initial, sent)
    ensures TrailOf(accepts + [v], value, initial, sent + [v])
  {
  }

  // Only an accept adds to the accepts in transit, and nothing the responder does moves the
  // requester.
  lemma ResponderActs(p: Pair, act: Action, ok: bool)
    ensures var q := Step(p, Acts(B, act, ok));
      && q.a == p.a
      && (act.Accept? && ok && Effective(p.b, act) ==> q.ba == p.ba + [AcceptMsg(act.value)])
      && (!(act.Accept? && ok && Effective(p.b, act)) ==> Accepts(q.ba) == Accepts(p.ba))
  {
    AcceptsAppend(p.ba, MsgOf(act));
  }

  lemma ProposerActKeepsTrail(p: Pair, act: Action, ok: bool, initial: int, sent: seq<int>)
    requires OneProposer(p) && Trails(p, initial, sent)
    ensures Trails(Step(p, Acts(A, act, ok)), initial, sent)
  {
  }

  lemma ResponderActKeepsTrail(p: Pair, act: Action, ok: bool, initial: int, sent: seq<int>)
    requires Trails(p, initial, sent)
    ensures Trails(Step(p, Acts(B, act, ok)), initial, sent + Adds(p, Acts(B, act, ok)))
  {
    ResponderActs(p, act, ok);
    if act.Accept? && ok && Effective(p.b, act) {
      AcceptsAppend(p.ba, AcceptMsg(act.value));
      TrailGrows(Accepts(p.ba), p.a.retention, initial, sent, act.value);
    } else {
      assert sent + Adds(p, Acts(B, act, ok)) == sent;
    }
  }

  lemma ReceiptByResponderKeepsTrail(p: Pair, initial: int, sent: seq<int>)
    requires Trails(p, initial, sent)
    ensures Trails(Step(p, Delivers(B)), initial, sent)
  {
  }

  lemma StepKeepsTrail(p: Pair, e: Event, initial: int, sent: seq<int>)
    requires OneProposer(p) && Trails(p, initial, sent) && (e.Acts? && e.side == B ==> !e.act.Request?)
    ensures Trails(Step(p, e), initial, sent + Adds(p, e))
  {
    assert sent + [] == sent;
    match e {
      case Acts(A, act, ok) => ProposerActKeepsTrail(p, act, ok, initial, sent);
      case Acts(B, act, ok) =>
        ResponderActKeepsTrail(p, act, ok, initial, sent);
      case Delivers(A) => DeliveryKeepsTrail(p, initial, sent);
      case Delivers(B) => ReceiptByResponderKeepsTrail(p, initial, sent);
    }
  }

  // In every reachable state, for any mix of requests, cancels, declines, repeated and stale
  // accepts: the requester holds the responder's last sent value as it stood before the
  // accepts still in transit.
  lemma {:induction false} RequesterTrails(p: Pair, events: seq<Event>)
    requires OneProposer(p) && Accepts(p.ba) == [] && OnlyAProposes(events)
    ensures OneProposer(Run(p, events)) && Trails(Run(p, events), p.a.retention, SentAccepts(p, events))
  {
    if events != [] {
      var before, e := events[..|events| - 1], events[|events| - 1];
      assert forall f :: f in before ==> f in events;
      RequesterTrails(p, before);
      assert e in events;
      StepKeepsOneProposer(Run(p, before), e);
      StepKeepsTrail(Run(p, before), e, p.a.retention, SentAccepts(p, before));
    }
  }

  predicate AcceptsHere(p: Pair, e: Event) {
    e.Acts? && e.side == B && e.act.Accept? && Effective(p.b, e.act)
  }

  // With one proposer the responder's retention changes by its own accepts alone.
  lemma ResponderMovesByAccepting(p: Pair, e: Event)
    requires OneProposer(p) && (e.Acts? && e.side == B ==> !e.act.Request?)
    ensures Step(p, e).b.retention == if AcceptsHere(p, e) then e.act.value else p.b.retention
  {
    if e.Delivers? && e.side == B && p.ab != [] { assert !p.ab[0].AcceptMsg?; }
  }

  lemma {:induction false} ResponderHoldsLast(p: Pair, events: seq<Event>)
    requires OneProposer(p) && OnlyAProposes(events) && AcceptsGetThrough(events)
    ensures Run(p, events).b.retention == Last(SentAccepts(p, events), p.b.retention)
    ensures OneProposer(Run(p, events))
  {
    if events != [] {
      var before, e := events[..|events| - 1], events[|events| - 1];
      assert forall f :: f in before ==> f in events;
      ResponderHoldsLast(p, before);
      assert e in events;
      StepKeepsOneProposer(Run(p, before), e);
      ResponderMovesByAccepting(Run(p, before), e);
    }
  }

  // Agreement with one proposer: both sides hold the same value whenever no accept is in
  // transit.
  lemma OneProposerAgrees(p: Pair, events: seq<Event>)
    requires OneProposer(p) && Accepts(p.ba) == [] && p.a.retention == p.b.retention
    requires OnlyAProposes(events) && AcceptsGetThrough(events)
    ensures var q := Run(p, events);
      WillAgree(q) && (Accepts(q.ba) == [] ==> q.a.retention == q.b.retention)
  {
    RequesterTrails(p, events);
    ResponderHoldsLast(p, events);
    var q, sent := Run(p, events), SentAccepts(p, events);
    if Accepts(q.ba) == [] {
      assert sent[..|sent|] == sent;
    } else {
      var k := |Accepts(q.ba)|;
      assert sent[|sent| - k..][k - 1] == sent[|sent| - 1];
    }
  }

  // --- what agreement does not survive ---

  const FRESH := Convo(86_400, None, [])

  const QUIET := Pair(FRESH, FRESH, [], [])

  lemma {:induction false} Unroll(p: Pair, events: seq<Event>, e: Event)
    ensures Run(p, events + [e]) == Step(Run(p, events), e)
  {
    assert (events + [e])[..|events|] == events;
  }

  const CROSSED_REQUESTS := [Acts(A, Request(10), true), Acts(B, Request(20), true), Delivers(A), Delivers(B)]

  const CROSSED_ACCEPTS := [Acts(A, Accept(20), true), Acts(B, Accept(10), true), Delivers(A), Delivers(B)]

  lemma OneByOne(before: seq<Event>, e: seq<Event>)
    requires |e| == 4
    ensures before + e == before + [e[0]] + [e[1]] + [e[2]] + [e[3]]
  {
    assert e == [e[0]] + [e[1]] + [e[2]] + [e[3]];
  }

  lemma FourSteps(p: Pair, before: seq<Event>, e: seq<Event>)
    requires |e| == 4
    ensures Run(p, before + e) == Step(Step(Step(Step(Run(p, before), e[0]), e[1]), e[2]), e[3])
  {
    var b1 := before + [e[0]];
    var b2 := b1 + [e[1]];
    var b3 := b2 + [e[2]];
    Unroll(p, before, e[0]);
    Unroll(p, b1, e[1]);
    Unroll(p, b2, e[2]);
    Unroll(p, b3, e[3]);
    OneByOne(before, e);
  }

  // Each side sends a message of its own, then both are delivered.
  lemma CrossingRound(p: Pair, f: Action, g: Action)
    requires p.ab == [] && p.ba == [] && Effective(p.a, f) && Effective(p.b, g)
    ensures var q := Step(Step(Step(Step(p, Acts(A, f, true)), Acts(B, g, true)), Delivers(A)), Delivers(B));
      q == Pair(Receive(Act(p.a, f), MsgOf(g)), Receive(Act(p.b, g), MsgOf(f)), [], [])
  {
    var q := Step(Step(p, Acts(A, f, true)), Acts(B, g, true));
    assert q.ab == [MsgOf(f)] && q.ba == [MsgOf(g)];
  }

  // Requests that cross: each side accepts the other's, and the accepts cross as well.
  lemma CrossedRequestsDisagree()
    ensures var q := Run(QUIET, CROSSED_REQUESTS + CROSSED_ACCEPTS);
      q.ab == [] && q.ba == [] && q.a.retention == 10 && q.b.retention == 20
  {
    FourSteps(QUIET, [], CROSSED_REQUESTS);
    assert [] + CROSSED_REQUESTS == CROSSED_REQUESTS;
    CrossingRound(QUIET, Request(10), Request(20));
    FourSteps(QUIET, CROSSED_REQUESTS, CROSSED_ACCEPTS);
    CrossingRound(Run(QUIET, CROSSED_REQUESTS), Accept(20), Accept(10));
  }

  // --- the timeline ---

  function LastChange(notes: seq<Note>, initial: int): int {
    if notes == [] then initial
    else
      var n := notes[|notes| - 1];
      if n.kind == Changed && n.value.Some? then n.value.value else LastChange(notes[..|notes| - 1], initial)
  }

  predicate TimelineTells(c: Convo, initial: int) {
    LastChange(c.notes, initial) == c.retention
  }

  lemma LastChangeOf(c: Convo, n: Note, initial: int)
    ensures LastChange(WithNote(c, n).notes, initial) ==
      if n.kind == Changed && n.value.Some? then n.value.value else LastChange(c.notes, initial)
  {
    assert (c.notes + [n])[..|c.notes|] == c.notes;
  }

  lemma ActKeepsTimeline(c: Convo, act: Action, initial: int)
    requires TimelineTells(c, initial)
    ensures TimelineTells(Act(c, act), initial)
  {
    match act {
      case Request(v) =>
        LastChangeOf(SetPending(c, v, false), Note(Requested, true, Some(v), c.retention, true), initial);
      case Accept(v) => LastChangeOf(SetRetention(c, v), Note(Changed, true, Some(v), v, true), initial);
      case Cancel => LastChangeOf(ClearPending(c), CancelNote(c), initial);
    }
  }

  lemma ReceiveKeepsTimeline(c: Convo, msg: Msg, initial: int)
    requires TimelineTells(c, initial)
    ensures TimelineTells(Receive(c, msg), initial)
  {
    match msg {
      case RequestMsg(v) =>
        LastChangeOf(SetPending(c, v, true), Note(Requested, false, Some(v), c.retention, false), initial);
      case AcceptMsg(v) => LastChangeOf(SetRetention(c, v), Note(Changed, false, Some(v), v, false), initial);
      case CancelMsg =>
        var kind := if OwnPending(c) then Declined else Canceled;
        LastChangeOf(ClearPending(c), Note(kind, false, None, c.retention, !OwnPending(c)), initial);
    }
  }

  // Whatever the two sides do, the retention in force is the one of the last "changed" row.
  lemma {:induction false} TimelineAlwaysTells(p: Pair, events: seq<Event>, forA: int, forB: int)
    requires TimelineTells(p.a, forA) && TimelineTells(p.b, forB)
    ensures TimelineTells(Run(p, events).a, forA) && TimelineTells(Run(p, events).b, forB)
  {
    if events != [] {
      var q, e := Run(p, events[..|events| - 1]), events[|events| - 1];
      TimelineAlwaysTells(p, events[..|events| - 1], forA, forB);
      match e {
        case Acts(A, act, _) => ActKeepsTimeline(q.a, act, forA);
        case Acts(B, act, _) => ActKeepsTimeline(q.b, act, forB);
        case Delivers(A) => if q.ba != [] { ReceiveKeepsTimeline(q.a, q.ba[0], forA); }
        case Delivers(B) => if q.ab != [] { ReceiveKeepsTimeline(q.b, q.ab[0], forB); }
      }
    }
  }
}
