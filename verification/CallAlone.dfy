// The other half of the pair: a callee and its caller. A caller that loses a glare drops its
// own call without a word, so a callee can be left alone, and it is left alone in no other way.
module CallAlone {
  import opened Options
  import opened CallTypes
  import opened CallMachine
  import opened CallInvariant
  import opened CallOutline
  import opened CallPair

  // A glare lost to an offer of the peer: the own call is given up for theirs.
  predicate GivesUp(s: State, e: Event, peer: Handle) {
    && e.Receive? && e.from.handle == peer && OfferHeard(s, e) && GlareEligible(s, e.from)
    && !OfferWins(s.call.value.callId, e.signal.callId)
  }

  function GivenUp(s: State, e: Event, peer: Handle): set<CallId> {
    if GivesUp(s, e, peer) then {s.call.value.callId} else {}
  }

  // The pair, and the calls to the other side that each side has given up so far.
  datatype Watch = Watch(pair: Pair, gaveX: set<CallId>, gaveY: set<CallId>)

  const WATCH_START: Watch := Watch(START, {}, {})

  function ReadByX(p: Pair, id: string, at: int, now: int): Event
    requires |p.yx| > 0
  {
    Receive(Contact(id, Y), p.yx[0], at, now)
  }

  function ReadByY(p: Pair, id: string, at: int, now: int): Event
    requires |p.xy| > 0
  {
    Receive(Contact(id, X), p.xy[0], at, now)
  }

  function WatchStep(w: Watch, e: PairEvent): Watch
    requires Enabled(w.pair, e)
  {
    var q := PairStep(w.pair, e);
    match e
    case DeliverToX(id, at, now) =>
      w.(pair := q, gaveX := w.gaveX + GivenUp(w.pair.x, ReadByX(w.pair, id, at, now), Y))
    case DeliverToY(id, at, now) =>
      w.(pair := q, gaveY := w.gaveY + GivenUp(w.pair.y, ReadByY(w.pair, id, at, now), X))
    case _ => w.(pair := q)
  }

  predicate IsOffer(signal: Signal, c: CallId) { signal.Offer? && signal.callId == c }

  predicate HasOffer(channel: seq<Signal>, c: CallId) {
    exists i :: 0 <= i < |channel| && IsOffer(channel[i], c)
  }

  // The call c has its caller, or an end behind, or was given up.
  predicate Kept(x: State, behind: seq<Signal>, gave: set<CallId>, c: CallId, callee: Handle) {
    OutTo(x, c, callee) || HasEnd(behind, c) || c in gave
  }

  // The offer of c is in transit at most once, and is kept.
  predicate OfferKept(x: State, fwd: seq<Signal>, gave: set<CallId>, c: CallId, callee: Handle) {
    forall i :: 0 <= i < |fwd| && IsOffer(fwd[i], c) ==>
      !HasOffer(fwd[i + 1..], c) && Kept(x, fwd[i + 1..], gave, c, callee)
  }

  // Where a call that x placed can be: not offered yet, offered, at the callee, or over there.
  predicate Stages(x: State, y: State, fwd: seq<Signal>, back: seq<Signal>, c: CallId, caller: Handle, callee: Handle) {
    && (InFrom(y, c, caller) ==> !HasOffer(fwd, c))
    && (HasEnd(back, c) ==> !HasOffer(fwd, c) && !InFrom(y, c, caller))
    && (OutTo(x, c, callee) && !Offered(x) ==> !HasOffer(fwd, c) && !InFrom(y, c, caller) && !HasEnd(back, c))
  }

  predicate Life(x: State, y: State, fwd: seq<Signal>, back: seq<Signal>, gave: set<CallId>, c: CallId,
                 caller: Handle, callee: Handle)
  {
    && Stages(x, y, fwd, back, c, caller, callee)
    && OfferKept(x, fwd, gave, c, callee)
    && (InFrom(y, c, caller) ==> Kept(x, fwd, gave, c, callee))
    && (c in gave ==> !OutTo(x, c, callee) && !HasEnd(fwd, c))
  }

  predicate Lives(x: State, y: State, fwd: seq<Signal>, back: seq<Signal>, minted: set<CallId>, gave: set<CallId>,
                  caller: Handle, callee: Handle)
  {
    gave <= minted && forall c :: c in minted ==> Life(x, y, fwd, back, gave, c, caller, callee)
  }

  predicate Watched(w: Watch) {
    && Backed(w.pair)
    && Lives(w.pair.x, w.pair.y, w.pair.xy, w.pair.yx, w.pair.mintedX, w.gaveX, X, Y)
    && Lives(w.pair.y, w.pair.x, w.pair.yx, w.pair.xy, w.pair.mintedY, w.gaveY, Y, X)
  }

  // --- channels ---

  lemma HasOfferAppend(channel: seq<Signal>, sent: seq<Signal>, c: CallId)
    ensures HasOffer(channel + sent, c) <==> HasOffer(channel, c) || HasOffer(sent, c)
  {
    var all := channel + sent;
    if i :| 0 <= i < |channel| && IsOffer(channel[i], c) {
      assert IsOffer(all[i], c);
    }
    if i :| 0 <= i < |sent| && IsOffer(sent[i], c) {
      assert IsOffer(all[|channel| + i], c);
    }
    if i :| 0 <= i < |all| && IsOffer(all[i], c) {
      assert IsOffer(if i < |channel| then channel[i] else sent[i - |channel|], c);
    }
  }

  lemma HasOfferDrop(channel: seq<Signal>, c: CallId)
    requires |channel| > 0
    ensures HasOffer(channel, c) <==> IsOffer(channel[0], c) || HasOffer(channel[1..], c)
  {
    assert channel == [channel[0]] + channel[1..];
    HasOfferAppend([channel[0]], channel[1..], c);
  }

  lemma OfferKeptDrop(x: State, fwd: seq<Signal>, gave: set<CallId>, c: CallId, callee: Handle)
    requires |fwd| > 0 && OfferKept(x, fwd, gave, c, callee)
    ensures OfferKept(x, fwd[1..], gave, c, callee)
    ensures IsOffer(fwd[0], c) ==> !HasOffer(fwd[1..], c) && Kept(x, fwd[1..], gave, c, callee)
  {
    var rest := fwd[1..];
    forall i | 0 <= i < |rest| && IsOffer(rest[i], c)
      ensures !HasOffer(rest[i + 1..], c) && Kept(x, rest[i + 1..], gave, c, callee)
    {
      assert IsOffer(fwd[i + 1], c) && rest[i + 1..] == fwd[i + 2..];
    }
  }

  // The caller moved from x to t and said `sent`.
  lemma OfferKeptAppend(x: State, t: State, fwd: seq<Signal>, sent: seq<Signal>, gave: set<CallId>, more: set<CallId>,
                        c: CallId, callee: Handle)
    requires OfferKept(x, fwd, gave, c, callee) && gave <= more && |sent| <= 1
    requires HasOffer(fwd, c) && OutTo(x, c, callee) ==> OutTo(t, c, callee) || HasEnd(sent, c) || c in more
    requires HasOffer(sent, c) ==> !HasOffer(fwd, c) && OutTo(t, c, callee)
    ensures OfferKept(t, fwd + sent, more, c, callee)
  {
    var all := fwd + sent;
    forall i | 0 <= i < |all| && IsOffer(all[i], c)
      ensures !HasOffer(all[i + 1..], c) && Kept(t, all[i + 1..], more, c, callee)
    {
      if i < |fwd| {
        assert IsOffer(fwd[i], c) && all[i + 1..] == fwd[i + 1..] + sent;
        HasOfferAppend(fwd[i + 1..], sent, c);
        HasEndAppend(fwd[i + 1..], sent, c);
      } else {
        assert IsOffer(sent[i - |fwd|], c) && all[i + 1..] == [];
      }
    }
  }

  // --- the caller moves ---

  // What the caller's move means for its call c.
  predicate CallerMove(x: State, e: Event, t: State, sent: seq<Signal>, c: CallId, callee: Handle) {
    && |sent| <= 1
    && (HasOffer(sent, c) ==> OutTo(x, c, callee) && !Offered(x) && OutTo(t, c, callee) && Offered(t))
    && (HasEnd(sent, c) ==> OutTo(x, c, callee))
    && (OutTo(t, c, callee) ==> OutTo(x, c, callee) && (Offered(x) ==> Offered(t)) && !HasEnd(sent, c))
    && (OutTo(t, c, callee) && Offered(t) != Offered(x) ==> HasOffer(sent, c))
    && (OutTo(x, c, callee) && !OutTo(t, c, callee) && Offered(x) ==>
          || HasEnd(sent, c) || GivesUp(x, e, callee)
          || (e.Receive? && e.from.handle == callee && IsEnd(e.signal, c)))
    && (GivesUp(x, e, callee) && OutTo(x, c, callee) ==> !OutTo(t, c, callee) && !HasEnd(sent, c))
  }

  // The ids the caller's side and its inbox name belong to the one or the other.
  predicate CallerNames(x: State, e: Event, c: CallId, minted: set<CallId>, others: set<CallId>, callee: Handle) {
    && Valid(x) && c in minted && c !in others && FreshFor(e, minted, others) && AdoptedFrom(x, callee, others)
    && (e.Receive? && e.from.handle == callee && e.signal.Offer? ==> e.signal.callId in others)
  }

  lemma OneSignal(signal: Signal, c: CallId)
    ensures HasOffer([signal], c) <==> IsOffer(signal, c)
    ensures HasEnd([signal], c) <==> IsEnd(signal, c)
  {
    assert [signal][0] == signal;
  }

  lemma CallerSpeaks(x: State, e: Event, t: State, c: CallId, minted: set<CallId>, others: set<CallId>, callee: Handle)
    requires CallerNames(x, e, c, minted, others, callee) && Spoke(x, e, t)
    ensures CallerMove(x, e, t, NewFor(x, t, callee), c, callee)
  {
    var last := t.log.sent[|t.log.sent| - 1].signal;
    NewForOne(x, t, x.call.value.contact.handle, last, callee);
    OneSignal(last, c);
  }

  lemma CallerIsOver(x: State, e: Event, t: State, c: CallId, minted: set<CallId>, others: set<CallId>, callee: Handle)
    requires CallerNames(x, e, c, minted, others, callee) && Over(x, e, t) && !GivesUp(x, e, callee)
    ensures CallerMove(x, e, t, NewFor(x, t, callee), c, callee)
  {
    if t.log.sent == x.log.sent {
      NewForNothing(x, t, callee);
    } else {
      var last := t.log.sent[|t.log.sent| - 1].signal;
      NewForOne(x, t, x.call.value.contact.handle, last, callee);
      OneSignal(last, c);
    }
  }

  lemma CallerNotes(x: State, e: Event, t: State, c: CallId, minted: set<CallId>, others: set<CallId>, callee: Handle)
    requires CallerNames(x, e, c, minted, others, callee) && Noted(x, e, t) && !GivesUp(x, e, callee)
    ensures CallerMove(x, e, t, NewFor(x, t, callee), c, callee)
  {
    if t.log.sent == x.log.sent {
      NewForNothing(x, t, callee);
    } else {
      NewForOne(x, t, e.from.handle, End(e.signal.callId, Busy), callee);
      OneSignal(End(e.signal.callId, Busy), c);
    }
  }

  lemma CallerYields(x: State, e: Event, t: State, c: CallId, minted: set<CallId>, others: set<CallId>, callee: Handle)
    requires CallerNames(x, e, c, minted, others, callee) && Yielded(x, e, t)
    ensures CallerMove(x, e, t, NewFor(x, t, callee), c, callee)
  {
    NewForOne(x, t, e.from.handle, Accept(e.signal.callId), callee);
    OneSignal(Accept(e.signal.callId), c);
  }

  lemma CallerKeepsQuiet(x: State, e: Event, t: State, c: CallId, minted: set<CallId>, others: set<CallId>,
                         callee: Handle)
    requires CallerNames(x, e, c, minted, others, callee) && !GivesUp(x, e, callee)
    requires Quiet(x, e, t) || Placed(x, e, t) || Adopted(x, e, t)
    ensures CallerMove(x, e, t, NewFor(x, t, callee), c, callee)
  {
    NewForNothing(x, t, callee);
  }

  lemma GivingUpYields(x: State, e: Event, callee: Handle)
    requires Valid(x) && GivesUp(x, e, callee)
    ensures Yielded(x, e, Step(x, e))
  {
    YieldOutline(x, e);
  }

  lemma CallerMoves(x: State, e: Event, c: CallId, minted: set<CallId>, others: set<CallId>, callee: Handle)
    requires CallerNames(x, e, c, minted, others, callee)
    ensures var t := Step(x, e); CallerMove(x, e, t, NewFor(x, t, callee), c, callee)
  {
    var t := Step(x, e);
    StepIsPermitted(x, e);
    if GivesUp(x, e, callee) {
      GivingUpYields(x, e, callee);
    }
    if Yielded(x, e, t) {
      CallerYields(x, e, t, c, minted, others, callee);
    } else if Spoke(x, e, t) {
      CallerSpeaks(x, e, t, c, minted, others, callee);
    } else if Over(x, e, t) {
      CallerIsOver(x, e, t, c, minted, others, callee);
    } else if Noted(x, e, t) {
      CallerNotes(x, e, t, c, minted, others, callee);
    } else {
      CallerKeepsQuiet(x, e, t, c, minted, others, callee);
    }
  }

  lemma CallerMoveKeepsLife(
      x: State, e: Event, t: State, y: State, fwd: seq<Signal>, back: seq<Signal>, rest: seq<Signal>,
      gave: set<CallId>, c: CallId, caller: Handle, callee: Handle)
    requires var sent := NewFor(x, t, callee); CallerMove(x, e, t, sent, c, callee)
    requires InboxStep(e, callee, back, rest) && Life(x, y, fwd, back, gave, c, caller, callee)
    requires OutTo(x, c, callee) ==> !HasEnd(fwd, c)
    ensures Life(t, y, fwd + NewFor(x, t, callee), rest, gave + GivenUp(x, e, callee), c, caller, callee)
  {
    var sent, more := NewFor(x, t, callee), gave + GivenUp(x, e, callee);
    HasOfferAppend(fwd, sent, c);
    HasEndAppend(fwd, sent, c);
    if rest != back {
      HasEndDrop(back, c);
    }
    OfferKeptAppend(x, t, fwd, sent, gave, more, c, callee);
  }

  // A call placed in this very step is nowhere yet.
  lemma FreshLife(x: State, y: State, fwd: seq<Signal>, back: seq<Signal>, minted: set<CallId>, others: set<CallId>,
                  gave: set<CallId>, c: CallId, caller: Handle, callee: Handle)
    requires c !in minted && c !in others && gave <= minted
    requires OffersFrom(fwd, minted) && EndsFrom(fwd, minted + others) && EndsFrom(back, minted + others)
    requires AdoptedFrom(y, caller, minted)
    ensures Life(x, y, fwd, back, gave, c, caller, callee)
  {
    assert !HasOffer(fwd, c) && !HasEnd(fwd, c) && !HasEnd(back, c);
  }

  lemma CallerMoveKeepsLives(
      x: State, e: Event, y: State, fwd: seq<Signal>, back: seq<Signal>, rest: seq<Signal>,
      minted: set<CallId>, others: set<CallId>, gave: set<CallId>, caller: Handle, callee: Handle)
    requires Valid(x) && InboxStep(e, callee, back, rest) && FreshFor(e, minted, others) && minted !! others
    requires IdsOwned(x, y, fwd, back, minted, others, caller)
    requires IdsOwned(y, x, back, fwd, others, minted, callee)
    requires CallBacked(x, y, fwd, back, caller, callee)
    requires Lives(x, y, fwd, back, minted, gave, caller, callee)
    ensures var t := Step(x, e);
      Lives(t, y, fwd + NewFor(x, t, callee), rest, minted + MintedBy(x, e), gave + GivenUp(x, e, callee),
            caller, callee)
  {
    var t := Step(x, e);
    var sent, more, given := NewFor(x, t, callee), minted + MintedBy(x, e), GivenUp(x, e, callee);
    forall c | c in more
      ensures Life(t, y, fwd + sent, rest, gave + given, c, caller, callee)
    {
      if c in minted {
        CallerMoves(x, e, c, minted, others, callee);
        CallerMoveKeepsLife(x, e, t, y, fwd, back, rest, gave, c, caller, callee);
      } else {
        NewForNothing(x, t, callee);
        assert fwd + [] == fwd && rest == back;
        FreshLife(t, y, fwd, back, minted, others, gave, c, caller, callee);
      }
    }
  }

  // --- the callee moves ---

  // What the callee's move means for the peer's call c.
  predicate CalleeMove(y: State, e: Event, t: State, sent: seq<Signal>, c: CallId, caller: Handle) {
    var heard := e.Receive? && e.from.handle == caller;
    && (InFrom(t, c, caller) ==> !HasEnd(sent, c) && (InFrom(y, c, caller) || (heard && IsOffer(e.signal, c))))
    && (InFrom(t, c, caller) && InFrom(y, c, caller) ==> !(heard && IsEnd(e.signal, c)))
    && (HasEnd(sent, c) ==> InFrom(y, c, caller) || (heard && IsOffer(e.signal, c)))
  }

  // Whoever is offered its own call again has it no longer.
  predicate CalleeNames(y: State, e: Event, c: CallId, others: set<CallId>, caller: Handle) {
    && Valid(y) && c !in others && PlacedFrom(y, others)
    && (e.Receive? && e.from.handle == caller && IsOffer(e.signal, c) ==> !InFrom(y, c, caller))
  }

  lemma CalleeMovesQuietly(y: State, e: Event, t: State, c: CallId, others: set<CallId>, caller: Handle)
    requires CalleeNames(y, e, c, others, caller) && Permitted(y, e, t) && t.log.sent == y.log.sent
    ensures CalleeMove(y, e, t, NewFor(y, t, caller), c, caller)
  {
    NewForNothing(y, t, caller);
  }

  lemma CalleeSpeaks(y: State, e: Event, t: State, c: CallId, others: set<CallId>, caller: Handle)
    requires CalleeNames(y, e, c, others, caller) && Spoke(y, e, t)
    ensures CalleeMove(y, e, t, NewFor(y, t, caller), c, caller)
  {
    var last := t.log.sent[|t.log.sent| - 1].signal;
    NewForOne(y, t, y.call.value.contact.handle, last, caller);
    OneSignal(last, c);
  }

  lemma CalleeIsOver(y: State, e: Event, t: State, c: CallId, others: set<CallId>, caller: Handle)
    requires CalleeNames(y, e, c, others, caller) && Over(y, e, t) && t.log.sent != y.log.sent
    ensures CalleeMove(y, e, t, NewFor(y, t, caller), c, caller)
  {
    var last := t.log.sent[|t.log.sent| - 1].signal;
    NewForOne(y, t, y.call.value.contact.handle, last, caller);
    OneSignal(last, c);
  }

  lemma CalleeAnswersOffer(y: State, e: Event, t: State, c: CallId, others: set<CallId>, caller: Handle)
    requires CalleeNames(y, e, c, others, caller) && t.log.sent != y.log.sent && (Yielded(y, e, t) || Noted(y, e, t))
    ensures CalleeMove(y, e, t, NewFor(y, t, caller), c, caller)
  {
    var said := if Yielded(y, e, t) then Accept(e.signal.callId) else End(e.signal.callId, Busy);
    NewForOne(y, t, e.from.handle, said, caller);
    OneSignal(said, c);
  }

  lemma CalleeMoves(y: State, e: Event, c: CallId, others: set<CallId>, caller: Handle)
    requires CalleeNames(y, e, c, others, caller)
    ensures var t := Step(y, e); CalleeMove(y, e, t, NewFor(y, t, caller), c, caller)
  {
    var t := Step(y, e);
    StepIsPermitted(y, e);
    if t.log.sent == y.log.sent {
      CalleeMovesQuietly(y, e, t, c, others, caller);
    } else if Spoke(y, e, t) {
      CalleeSpeaks(y, e, t, c, others, caller);
    } else if Over(y, e, t) {
      CalleeIsOver(y, e, t, c, others, caller);
    } else {
      CalleeAnswersOffer(y, e, t, c, others, caller);
    }
  }

  lemma CalleeMoveKeepsLife(
      y: State, e: Event, t: State, x: State, fwd: seq<Signal>, back: seq<Signal>, rest: seq<Signal>,
      gave: set<CallId>, c: CallId, caller: Handle, callee: Handle)
    requires CalleeMove(y, e, t, NewFor(y, t, caller), c, caller)
    requires InboxStep(e, caller, fwd, rest) && Life(x, y, fwd, back, gave, c, caller, callee)
    ensures Life(x, t, rest, back + NewFor(y, t, caller), gave, c, caller, callee)
  {
    HasEndAppend(back, NewFor(y, t, caller), c);
    if rest != fwd {
      HasEndDrop(fwd, c);
      HasOfferDrop(fwd, c);
      OfferKeptDrop(x, fwd, gave, c, callee);
    }
  }

  lemma CalleeMoveKeepsLives(
      y: State, e: Event, x: State, fwd: seq<Signal>, back: seq<Signal>, rest: seq<Signal>,
      minted: set<CallId>, others: set<CallId>, gave: set<CallId>, caller: Handle, callee: Handle)
    requires Valid(y) && InboxStep(e, caller, fwd, rest) && minted !! others && PlacedFrom(y, others)
    requires Lives(x, y, fwd, back, minted, gave, caller, callee)
    ensures var t := Step(y, e); Lives(x, t, rest, back + NewFor(y, t, caller), minted, gave, caller, callee)
  {
    var t := Step(y, e);
    forall c | c in minted
      ensures Life(x, t, rest, back + NewFor(y, t, caller), gave, c, caller, callee)
    {
      assert Life(x, y, fwd, back, gave, c, caller, callee);
      if e.Receive? && e.from.handle == caller && IsOffer(e.signal, c) {
        HasOfferDrop(fwd, c);
      }
      CalleeMoves(y, e, c, others, caller);
      CalleeMoveKeepsLife(y, e, t, x, fwd, back, rest, gave, c, caller, callee);
    }
  }

  // --- whole runs ---

  lemma MoveOfXKeepsWatched(w: Watch, e: Event, rest: seq<Signal>)
    requires Watched(w) && InboxStep(e, Y, w.pair.yx, rest) && FreshFor(e, w.pair.mintedX, w.pair.mintedY)
    ensures Watched(w.(pair := StepX(w.pair, e, Y, rest), gaveX := w.gaveX + GivenUp(w.pair.x, e, Y)))
  {
    var p := w.pair;
    MoveOfXKeepsBacked(p, e, rest);
    CallerMoveKeepsLives(p.x, e, p.y, p.xy, p.yx, rest, p.mintedX, p.mintedY, w.gaveX, X, Y);
    CalleeMoveKeepsLives(p.x, e, p.y, p.yx, p.xy, rest, p.mintedY, p.mintedX, w.gaveY, Y, X);
  }

  lemma MoveOfYKeepsWatched(w: Watch, e: Event, rest: seq<Signal>)
    requires Watched(w) && InboxStep(e, X, w.pair.xy, rest) && FreshFor(e, w.pair.mintedY, w.pair.mintedX)
    ensures Watched(w.(pair := Flip(StepX(Flip(w.pair), e, X, rest)), gaveY := w.gaveY + GivenUp(w.pair.y, e, X)))
  {
    var p := w.pair;
    MoveOfYKeepsBacked(p, e, rest);
    CallerMoveKeepsLives(p.y, e, p.x, p.yx, p.xy, rest, p.mintedY, p.mintedX, w.gaveY, Y, X);
    CalleeMoveKeepsLives(p.y, e, p.x, p.xy, p.yx, rest, p.mintedX, p.mintedY, w.gaveX, X, Y);
  }

  // Nothing is given up but on a delivery.
  lemma LocalStepOfXKeepsWatched(w: Watch, e: Event)
    requires Watched(w) && Enabled(w.pair, AtX(e))
    ensures Watched(WatchStep(w, AtX(e)))
  {
    MoveOfXKeepsWatched(w, e, w.pair.yx);
    assert w.gaveX + GivenUp(w.pair.x, e, Y) == w.gaveX;
  }

  lemma LocalStepOfYKeepsWatched(w: Watch, e: Event)
    requires Watched(w) && Enabled(w.pair, AtY(e))
    ensures Watched(WatchStep(w, AtY(e)))
  {
    MoveOfYKeepsWatched(w, e, w.pair.xy);
    assert w.gaveY + GivenUp(w.pair.y, e, X) == w.gaveY;
  }

  lemma StepKeepsWatched(w: Watch, e: PairEvent)
    requires Watched(w) && Enabled(w.pair, e)
    ensures Watched(WatchStep(w, e))
  {
    var p := w.pair;
    match e
    case AtX(ev) => LocalStepOfXKeepsWatched(w, ev);
    case AtY(ev) => LocalStepOfYKeepsWatched(w, ev);
    case DeliverToX(id, at, now) => MoveOfXKeepsWatched(w, ReadByX(p, id, at, now), p.yx[1..]);
    case DeliverToY(id, at, now) => MoveOfYKeepsWatched(w, ReadByY(p, id, at, now), p.xy[1..]);
  }

  predicate WatchRun(w: Watch, events: seq<PairEvent>, v: Watch)
    decreases |events|
  {
    if events == [] then v == w
    else Enabled(w.pair, events[0]) && WatchRun(WatchStep(w, events[0]), events[1..], v)
  }

  lemma {:induction false} RunKeepsWatched(w: Watch, events: seq<PairEvent>, v: Watch)
    requires Watched(w) && WatchRun(w, events, v)
    ensures Watched(v)
    decreases |events|
  {
    if events != [] {
      StepKeepsWatched(w, events[0]);
      RunKeepsWatched(WatchStep(w, events[0]), events[1..], v);
    }
  }

  // Whatever happens: a callee has its caller, or the end of the call in its inbox, unless and
  // only unless the caller gave that call up to an offer of the callee.
  lemma CalleeIsAloneExactly(events: seq<PairEvent>, v: Watch, c: CallId)
    requires WatchRun(WATCH_START, events, v)
    ensures InFrom(v.pair.y, c, X) ==> (OutTo(v.pair.x, c, Y) || HasEnd(v.pair.xy, c) <==> c !in v.gaveX)
    ensures InFrom(v.pair.x, c, Y) ==> (OutTo(v.pair.y, c, X) || HasEnd(v.pair.yx, c) <==> c !in v.gaveY)
  {
    RunKeepsWatched(WATCH_START, events, v);
    var p := v.pair;
    assert InFrom(p.y, c, X) ==> c in p.mintedX && Life(p.x, p.y, p.xy, p.yx, v.gaveX, c, X, Y);
    assert InFrom(p.x, c, Y) ==> c in p.mintedY && Life(p.y, p.x, p.yx, p.xy, v.gaveY, c, Y, X);
  }

  // And that end does its work at the callee, too.
  lemma DeliveredEndEndsTheCallee(p: Pair, c: CallId, contactId: string, sentAt: int, now: int)
    requires Valid(p.y) && InFrom(p.y, c, X) && |p.xy| > 0 && IsEnd(p.xy[0], c)
    ensures PairStep(p, DeliverToY(contactId, sentAt, now)).y.call.None?
  {
    var e := ReadByY(p, contactId, sentAt, now);
    StepIsPermitted(p.y, e);
    assert HeardFor(p.y, e) && e.signal.End?;
  }

  // --- how it comes about ---

  // An offer that turns the reader into a callee: it is free and the offer recent, or it
  // loses the glare.
  predicate Takes(s: State, e: Event, peer: Handle) {
    && e.Receive? && e.from.handle == peer && OfferHeard(s, e)
    && ((s.call.None? && e.now - e.sentAt < STALE_OFFER_MS) || GivesUp(s, e, peer))
  }

  lemma OnlyOffersMakeCallees(s: State, e: Event, t: State, c: CallId, peer: Handle)
    requires Permitted(s, e, t) && InFrom(t, c, peer) && !InFrom(s, c, peer)
    ensures e.Receive? && e.from.handle == peer && OfferHeard(s, e) && e.signal.callId == c
    ensures GivesUp(s, e, peer) || Adopted(s, e, t)
  {
  }

  lemma TakenIsIncoming(s: State, e: Event, peer: Handle)
    requires Valid(s) && Takes(s, e, peer)
    ensures InFrom(Step(s, e), e.signal.callId, peer)
  {
    if GivesUp(s, e, peer) {
      GivingUpYields(s, e, peer);
    }
  }

  lemma TakenExactly(s: State, e: Event, c: CallId, peer: Handle)
    requires Valid(s) && !InFrom(s, c, peer)
    ensures InFrom(Step(s, e), c, peer) <==> Takes(s, e, peer) && e.signal.callId == c
  {
    if Takes(s, e, peer) {
      TakenIsIncoming(s, e, peer);
    }
    if InFrom(Step(s, e), c, peer) {
      StepIsPermitted(s, e);
      OnlyOffersMakeCallees(s, e, Step(s, e), c, peer);
    }
  }

  predicate LeftAlone(s: State, given: set<CallId>, peer: Handle) {
    s.call.Some? && InFrom(s, s.call.value.callId, peer) && s.call.value.callId in given
  }

  // It begins when the caller gives up the call that the other side is already callee of, or
  // when an offer is taken whose call was given up before.
  predicate AloneBegins(w: Watch, e: PairEvent)
    requires Enabled(w.pair, e)
  {
    var p := w.pair;
    match e
    case DeliverToX(id, at, now) =>
      GivesUp(p.x, ReadByX(p, id, at, now), Y) && InFrom(p.y, p.x.call.value.callId, X)
    case DeliverToY(id, at, now) =>
      Takes(p.y, ReadByY(p, id, at, now), X) && p.xy[0].callId in w.gaveX
    case _ => false
  }

  lemma AloneBeginsExactly(w: Watch, e: PairEvent)
    requires Valid(w.pair.y) && Enabled(w.pair, e) && !LeftAlone(w.pair.y, w.gaveX, X)
    ensures var v := WatchStep(w, e); LeftAlone(v.pair.y, v.gaveX, X) <==> AloneBegins(w, e)
  {
    var p, v := w.pair, WatchStep(w, e);
    if v.pair.y.call.Some? && (e.AtY? || e.DeliverToY?) {
      var c := v.pair.y.call.value.callId;
      var ev := if e.AtY? then e.event else ReadByY(p, e.contactId, e.sentAt, e.now);
      if !InFrom(p.y, c, X) {
        TakenExactly(p.y, ev, c, X);
      }
    }
    if e.DeliverToY? && AloneBegins(w, e) {
      TakenExactly(p.y, ReadByY(p, e.contactId, e.sentAt, e.now), p.xy[0].callId, X);
    }
  }
}
