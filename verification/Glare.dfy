// Both users press call. Without hang ups, locks, timeouts or failures in between, the two
// controllers settle on the smaller call id, one as caller and one as callee.
module Glare {
  import opened Options
  import opened CallTypes
  import opened CallMachine
  import opened CallInvariant
  import opened CallOutline
  import opened CallPair

  // Progress only: the user places this one call or answers, every await succeeds, media
  // does not fail, no timeout fires.
  predicate Gentle(e: Event, peer: Handle, id: CallId) {
    match e
    case PlaceCall(contact, newId) => contact.handle == peer && newId == id
    case PlaceTurnDone(_, turn) => turn.EngineCreated?
    case PlaceEngineDone(_, result) => result.Sdp?
    case PlaceSendDone(_, delivered) => delivered
    case UserAnswer => true
    case AnswerTurnDone(_, turn) => turn.EngineCreated?
    case AnswerEngineDone(_, result) => result.Sdp?
    case AnswerSendDone(_, delivered) => delivered
    case ApplyAnswerDone(_, applied) => applied
    case SetMuted(_) => true
    case SetSpeaker(_) => true
    case Ice(_, ice, _) => ice != IceFailed
    case _ => false
  }

  predicate GentleStep(p: Pair, e: PairEvent, idX: CallId, idY: CallId) {
    && Enabled(p, e)
    && match e
       case AtX(ev) => Gentle(ev, Y, idX)
       case AtY(ev) => Gentle(ev, X, idY)
       case DeliverToX(_, sentAt, now) => now - sentAt < STALE_OFFER_MS
       case DeliverToY(_, sentAt, now) => now - sentAt < STALE_OFFER_MS
  }

  lemma GentleKeepsTheCall(s: State, e: Event, peer: Handle, id: CallId)
    requires Valid(s) && Gentle(e, peer, id) && s.call.Some?
    ensures Step(s, e).call.Some?
  {
  }

  lemma ConsentKeepsTheCall(s: State, e: Event)
    requires Valid(s) && e.Receive? && IsConsent(e.signal) && s.call.Some?
    ensures Step(s, e).call.Some?
  {
  }

  lemma OfferWhileIdle(s: State, e: Event)
    requires Valid(s) && OfferHeard(s, e) && s.call.None? && e.now - e.sentAt < STALE_OFFER_MS
    ensures Adopted(s, e, Step(s, e))
  {
  }

  lemma OfferAtWinner(s: State, e: Event)
    requires Valid(s) && e.Receive? && e.signal.Offer? && GlareEligible(s, e.from)
    requires OfferWins(s.call.value.callId, e.signal.callId)
    ensures var t := Step(s, e);
            KeyOf(t) == KeyOf(s) && t.status == s.status && Offered(t) == Offered(s) && t.log.sent == s.log.sent
  {
  }

  lemma OfferAtLoser(s: State, e: Event)
    requires Valid(s) && OfferHeard(s, e) && GlareEligible(s, e.from)
        && !OfferWins(s.call.value.callId, e.signal.callId)
    ensures Yielded(s, e, Step(s, e))
  {
    YieldOutline(s, e);
  }

  // The two sides by role: w carries the winning id a, l the losing id b.
  datatype Duel = Duel(
    w: State, l: State, wl: seq<Signal>, lw: seq<Signal>, mintedW: set<CallId>, mintedL: set<CallId>,
    hw: Handle, hl: Handle, a: CallId, b: CallId)

  predicate IsOfferOf(channel: seq<Signal>, id: CallId) {
    |channel| == 1 && channel[0].Offer? && channel[0].callId == id
  }

  predicate OnlyConsents(channel: seq<Signal>, id: CallId) {
    forall i :: 0 <= i < |channel| ==> IsConsent(channel[i]) && channel[i].callId == id
  }

  predicate Untouched(s: State, out: seq<Signal>, minted: set<CallId>) {
    s.call.None? && out == [] && minted == {} && s.recentlyEnded == []
  }

  // Out on its own call and still before the peer's consent.
  predicate Calling(s: State, minted: set<CallId>, id: CallId, peer: Handle) {
    OutTo(s, id, peer) && minted == {id} && (s.status == Starting || s.status == OutgoingRinging)
  }

  predicate OfferPending(s: State, out: seq<Signal>, id: CallId) {
    if Offered(s) then IsOfferOf(out, id) else out == []
  }

  predicate WinnerCalls(d: Duel) {
    && Calling(d.w, d.mintedW, d.a, d.hl) && OfferPending(d.w, d.wl, d.a)
    && Untouched(d.l, d.lw, d.mintedL)
  }

  predicate LoserCalls(d: Duel) {
    && Calling(d.l, d.mintedL, d.b, d.hw) && OfferPending(d.l, d.lw, d.b) && d.l.recentlyEnded == []
    && Untouched(d.w, d.wl, d.mintedW)
  }

  // Crossed offers: the losing one may already have been read and set aside.
  predicate BothCall(d: Duel) {
    && Calling(d.w, d.mintedW, d.a, d.hl) && OfferPending(d.w, d.wl, d.a)
    && Calling(d.l, d.mintedL, d.b, d.hw) && d.l.recentlyEnded == []
    && (OfferPending(d.l, d.lw, d.b) || (Offered(d.l) && d.lw == []))
  }

  predicate WinnerPrevails(d: Duel) {
    && OutTo(d.w, d.a, d.hl) && d.mintedW == {d.a} && Offered(d.w) && d.wl == []
    && InFrom(d.l, d.a, d.hw) && d.mintedL <= {d.b}
    && (OnlyConsents(d.lw, d.a)
        || (|d.lw| > 0 && IsOfferOf(d.lw[..1], d.b) && OnlyConsents(d.lw[1..], d.a) && !PastRinging(d.w.status)))
  }

  predicate LoserPrevails(d: Duel) {
    && OutTo(d.l, d.b, d.hw) && d.mintedL == {d.b} && Offered(d.l) && d.lw == []
    && InFrom(d.w, d.b, d.hl) && d.mintedW == {} && OnlyConsents(d.wl, d.b)
  }

  predicate Fair(d: Duel) {
    && d.a != d.b && OfferWins(d.a, d.b) && !OfferWins(d.b, d.a) && Valid(d.w) && Valid(d.l)
    && (|| (Untouched(d.w, d.wl, d.mintedW) && Untouched(d.l, d.lw, d.mintedL))
        || WinnerCalls(d) || LoserCalls(d) || BothCall(d) || WinnerPrevails(d) || LoserPrevails(d))
  }

  // What a gentle event of one side amounts to.
  predicate GentleMove(s: State, e: Event, t: State, minted: set<CallId>, peer: Handle, id: CallId) {
    && Permitted(s, e, t) && Gentle(e, peer, id) && (s.call.Some? ==> t.call.Some?)
    && (e.PlaceCall? ==> id !in minted)
  }

  predicate IdleMoved(t: State, sent: seq<Signal>, minted: set<CallId>, peer: Handle, id: CallId) {
    sent == [] && t.recentlyEnded == [] && ((Calling(t, minted, id, peer) && !Offered(t)) || Untouched(t, [], minted))
  }

  predicate CallerMoved(s: State, t: State, sent: seq<Signal>, peer: Handle, id: CallId) {
    && OutTo(t, id, peer) && t.recentlyEnded == s.recentlyEnded && (PastRinging(t.status) <==> PastRinging(s.status))
    && (if Offered(s) then Offered(t) && sent == [] else if Offered(t) then IsOfferOf(sent, id) else sent == [])
  }

  predicate CalleeMoved(s: State, t: State, sent: seq<Signal>, peer: Handle, c: CallId) {
    InFrom(t, c, peer) && t.recentlyEnded == s.recentlyEnded && OnlyConsents(sent, c)
  }

  lemma IdleMoves(s: State, e: Event, t: State, minted: set<CallId>, peer: Handle, id: CallId)
    requires GentleMove(s, e, t, minted, peer, id) && Untouched(s, [], minted)
    ensures IdleMoved(t, NewFor(s, t, peer), minted + MintedBy(s, e), peer, id)
  {
    NewForNothing(s, t, peer);
  }

  lemma CallerMoves(s: State, e: Event, t: State, minted: set<CallId>, peer: Handle, id: CallId)
    requires GentleMove(s, e, t, minted, peer, id) && OutTo(s, id, peer)
    ensures MintedBy(s, e) == {} && CallerMoved(s, t, NewFor(s, t, peer), peer, id)
  {
    if t.log.sent == s.log.sent {
      NewForNothing(s, t, peer);
    } else {
      var last := t.log.sent[|t.log.sent| - 1];
      NewForOne(s, t, last.to, last.signal, peer);
    }
  }

  lemma CalleeMoves(s: State, e: Event, t: State, minted: set<CallId>, peer: Handle, id: CallId, c: CallId)
    requires GentleMove(s, e, t, minted, peer, id) && InFrom(s, c, peer)
    ensures MintedBy(s, e) == {} && CalleeMoved(s, t, NewFor(s, t, peer), peer, c)
  {
    if t.log.sent == s.log.sent {
      NewForNothing(s, t, peer);
    } else {
      var last := t.log.sent[|t.log.sent| - 1];
      NewForOne(s, t, last.to, last.signal, peer);
    }
  }

  lemma WinnerMovedIsFair(d: Duel, t: State, sent: seq<Signal>, minted: set<CallId>)
    requires Fair(d) && Valid(t)
    requires Untouched(d.w, [], d.mintedW) ==> IdleMoved(t, sent, minted, d.hl, d.a)
    requires OutTo(d.w, d.a, d.hl) ==> minted == d.mintedW && CallerMoved(d.w, t, sent, d.hl, d.a)
    requires InFrom(d.w, d.b, d.hl) ==> minted == d.mintedW && CalleeMoved(d.w, t, sent, d.hl, d.b)
    ensures Fair(d.(w := t, wl := d.wl + sent, mintedW := minted))
  {
  }

  // The loser answers a call of the winner, which may follow its own set-aside offer.
  lemma CalleeLoserMovedIsFair(d: Duel, t: State, sent: seq<Signal>)
    requires WinnerPrevails(d) && CalleeMoved(d.l, t, sent, d.hw, d.a)
    ensures WinnerPrevails(d.(l := t, lw := d.lw + sent))
  {
    if |d.lw| > 0 {
      assert (d.lw + sent)[..1] == d.lw[..1] && (d.lw + sent)[1..] == d.lw[1..] + sent;
    }
  }

  lemma CallerLoserMovedIsFair(d: Duel, t: State, sent: seq<Signal>)
    requires Valid(d.l) && Valid(t)
    requires CallerMoved(d.l, t, sent, d.hw, d.b) && (LoserCalls(d) || BothCall(d) || LoserPrevails(d))
    ensures var r := d.(l := t, lw := d.lw + sent); LoserCalls(r) || BothCall(r) || LoserPrevails(r)
  {
  }

  lemma LoserMovedIsFair(d: Duel, t: State, sent: seq<Signal>, minted: set<CallId>)
    requires Fair(d) && Valid(t)
    requires Untouched(d.l, [], d.mintedL) ==> IdleMoved(t, sent, minted, d.hw, d.b)
    requires OutTo(d.l, d.b, d.hw) ==> minted == d.mintedL && CallerMoved(d.l, t, sent, d.hw, d.b)
    requires InFrom(d.l, d.a, d.hw) ==> minted == d.mintedL && CalleeMoved(d.l, t, sent, d.hw, d.a)
    ensures Fair(d.(l := t, lw := d.lw + sent, mintedL := minted))
  {
    if WinnerPrevails(d) {
      CalleeLoserMovedIsFair(d, t, sent);
    } else if LoserCalls(d) || BothCall(d) || LoserPrevails(d) {
      CallerLoserMovedIsFair(d, t, sent);
    }
  }

  lemma WinnerMoves(d: Duel, e: Event, t: State)
    requires Fair(d) && Valid(t) && GentleMove(d.w, e, t, d.mintedW, d.hl, d.a)
    ensures Fair(d.(w := t, wl := d.wl + NewFor(d.w, t, d.hl), mintedW := d.mintedW + MintedBy(d.w, e)))
  {
    if Untouched(d.w, [], d.mintedW) {
      IdleMoves(d.w, e, t, d.mintedW, d.hl, d.a);
    } else if InFrom(d.w, d.b, d.hl) {
      CalleeMoves(d.w, e, t, d.mintedW, d.hl, d.a, d.b);
    } else {
      CallerMoves(d.w, e, t, d.mintedW, d.hl, d.a);
    }
    WinnerMovedIsFair(d, t, NewFor(d.w, t, d.hl), d.mintedW + MintedBy(d.w, e));
  }

  lemma LoserMoves(d: Duel, e: Event, t: State)
    requires Fair(d) && Valid(t) && GentleMove(d.l, e, t, d.mintedL, d.hw, d.b)
    ensures Fair(d.(l := t, lw := d.lw + NewFor(d.l, t, d.hw), mintedL := d.mintedL + MintedBy(d.l, e)))
  {
    if Untouched(d.l, [], d.mintedL) {
      IdleMoves(d.l, e, t, d.mintedL, d.hw, d.b);
    } else if InFrom(d.l, d.a, d.hw) {
      CalleeMoves(d.l, e, t, d.mintedL, d.hw, d.b, d.a);
    } else {
      CallerMoves(d.l, e, t, d.mintedL, d.hw, d.b);
    }
    LoserMovedIsFair(d, t, NewFor(d.l, t, d.hw), d.mintedL + MintedBy(d.l, e));
  }

  // --- deliveries ---

  predicate Delivers(e: Event, peer: Handle, signal: Signal) {
    e.Receive? && e.from.handle == peer && e.signal == signal && e.now - e.sentAt < STALE_OFFER_MS
  }

  lemma ConsentMoves(s: State, e: Event, t: State, peer: Handle, id: CallId)
    requires Valid(s) && t == Step(s, e) && OutTo(s, id, peer) && e.Receive? && IsConsent(e.signal)
    ensures OutTo(t, id, peer) && Offered(t) == Offered(s) && t.recentlyEnded == s.recentlyEnded
    ensures NewFor(s, t, peer) == []
  {
    StepIsPermitted(s, e);
    ConsentKeepsTheCall(s, e);
    assert Quiet(s, e, t);
    NewForNothing(s, t, peer);
  }

  lemma AdoptedIsFair(d: Duel, e: Event, t: State)
    requires Fair(d) && Valid(t)
    ensures (LoserCalls(d) && |d.lw| > 0 && Delivers(e, d.hl, d.lw[0]) && Adopted(d.w, e, t)) ==>
              LoserPrevails(d.(w := t, lw := d.lw[1..]))
    ensures (WinnerCalls(d) && |d.wl| > 0 && Delivers(e, d.hw, d.wl[0]) && Adopted(d.l, e, t)) ==>
              WinnerPrevails(d.(l := t, wl := d.wl[1..]))
  {
  }

  lemma YieldedIsFair(d: Duel, e: Event, t: State)
    requires Fair(d) && BothCall(d) && Valid(t) && |d.wl| > 0 && Delivers(e, d.hw, d.wl[0]) && Yielded(d.l, e, t)
    ensures WinnerPrevails(d.(l := t, wl := d.wl[1..], lw := d.lw + NewFor(d.l, t, d.hw)))
  {
    NewForOne(d.l, t, d.hw, Accept(d.a), d.hw);
    var lw := d.lw + [Accept(d.a)];
    assert |d.lw| > 0 ==> lw[..1] == d.lw && lw[1..] == [Accept(d.a)];
  }

  lemma SetAsideIsFair(d: Duel, t: State)
    requires Fair(d) && (BothCall(d) || WinnerPrevails(d)) && Valid(t) && |d.lw| > 0 && d.lw[0].Offer?
    requires KeyOf(t) == KeyOf(d.w) && t.status == d.w.status && Offered(t) == Offered(d.w)
    ensures Fair(d.(w := t, lw := d.lw[1..]))
  {
    var d' := d.(w := t, lw := d.lw[1..]);
    assert BothCall(d) ==> BothCall(d');
    assert WinnerPrevails(d) ==> WinnerPrevails(d');
  }

  // With nothing said in reply, the move is fair if its outcome is.
  lemma SilentReadIsFair(d: Duel, t: State)
    requires |d.lw| > 0 && NewFor(d.w, t, d.hl) == [] && Fair(d.(w := t, lw := d.lw[1..]))
    ensures Fair(d.(w := t, lw := d.lw[1..], wl := d.wl + NewFor(d.w, t, d.hl)))
  {
    assert d.wl + [] == d.wl;
  }

  lemma OfferAtWinnerIsDue(d: Duel, e: Event)
    requires Fair(d) && |d.lw| > 0 && Delivers(e, d.hl, d.lw[0]) && e.signal.Offer? && !LoserCalls(d)
    ensures (BothCall(d) || WinnerPrevails(d)) && GlareEligible(d.w, e.from)
    ensures e.signal.callId == d.b && d.w.call.value.callId == d.a
  {
    assert d.lw[0] == d.lw[..1][0];
  }

  lemma WinnerReadsOffer(d: Duel, e: Event, t: State)
    requires Fair(d) && |d.lw| > 0 && Delivers(e, d.hl, d.lw[0]) && e.signal.Offer? && !LoserCalls(d)
    requires t == Step(d.w, e) && Valid(t)
    ensures Fair(d.(w := t, lw := d.lw[1..])) && NewFor(d.w, t, d.hl) == []
  {
    OfferAtWinnerIsDue(d, e);
    OfferAtWinner(d.w, e);
    NewForNothing(d.w, t, d.hl);
    SetAsideIsFair(d, t);
  }

  lemma WinnerReads(d: Duel, e: Event)
    requires Fair(d) && |d.lw| > 0 && Delivers(e, d.hl, d.lw[0])
    ensures var t := Step(d.w, e);
            Fair(d.(w := t, lw := d.lw[1..], wl := d.wl + NewFor(d.w, t, d.hl)))
  {
    var t := Step(d.w, e);
    StepKeepsValid(d.w, e);
    if LoserCalls(d) {
      OfferWhileIdle(d.w, e);
      NewForNothing(d.w, t, d.hl);
      AdoptedIsFair(d, e, t);
    } else if e.signal.Offer? {
      WinnerReadsOffer(d, e, t);
    } else {
      WinnerHearsConsent(d, e, t);
    }
    SilentReadIsFair(d, t);
  }

  lemma WinnerHearsConsent(d: Duel, e: Event, t: State)
    requires WinnerPrevails(d) && Valid(d.w) && t == Step(d.w, e)
    requires |d.lw| > 0 && Delivers(e, d.hl, d.lw[0]) && !e.signal.Offer?
    ensures WinnerPrevails(d.(w := t, lw := d.lw[1..])) && NewFor(d.w, t, d.hl) == []
  {
    ConsentMoves(d.w, e, t, d.hl, d.a);
  }

  lemma LoserReads(d: Duel, e: Event)
    requires Fair(d) && |d.wl| > 0 && Delivers(e, d.hw, d.wl[0])
    ensures var t := Step(d.l, e);
            Fair(d.(l := t, wl := d.wl[1..], lw := d.lw + NewFor(d.l, t, d.hw)))
  {
    var t := Step(d.l, e);
    StepKeepsValid(d.l, e);
    if WinnerCalls(d) {
      OfferWhileIdle(d.l, e);
      NewForNothing(d.l, t, d.hw);
      AdoptedIsFair(d, e, t);
    } else if BothCall(d) {
      OfferAtLoser(d.l, e);
      YieldedIsFair(d, e, t);
    } else {
      ConsentMoves(d.l, e, t, d.hw, d.b);
      assert LoserPrevails(d.(l := t, wl := d.wl[1..]));
    }
  }

  // --- runs of the pair ---

  // x's id is idX, y's is idY; whoever holds the smaller one is the winner.
  function Roles(p: Pair, idX: CallId, idY: CallId): Duel {
    if OfferWins(idX, idY)
    then Duel(p.x, p.y, p.xy, p.yx, p.mintedX, p.mintedY, X, Y, idX, idY)
    else Duel(p.y, p.x, p.yx, p.xy, p.mintedY, p.mintedX, Y, X, idY, idX)
  }

  lemma XMovesIsFair(p: Pair, e: Event, idX: CallId, idY: CallId)
    requires Fair(Roles(p, idX, idY)) && GentleStep(p, AtX(e), idX, idY)
    ensures Fair(Roles(PairStep(p, AtX(e)), idX, idY))
  {
    var d, t := Roles(p, idX, idY), Step(p.x, e);
    StepKeepsValid(p.x, e);
    StepIsPermitted(p.x, e);
    if p.x.call.Some? {
      GentleKeepsTheCall(p.x, e, Y, idX);
    }
    assert GentleMove(p.x, e, t, p.mintedX, Y, idX);
    if OfferWins(idX, idY) {
      WinnerMoves(d, e, t);
    } else {
      LoserMoves(d, e, t);
    }
  }

  lemma YMovesIsFair(p: Pair, e: Event, idX: CallId, idY: CallId)
    requires Fair(Roles(p, idX, idY)) && GentleStep(p, AtY(e), idX, idY)
    ensures Fair(Roles(PairStep(p, AtY(e)), idX, idY))
  {
    var d, t := Roles(p, idX, idY), Step(p.y, e);
    StepKeepsValid(p.y, e);
    StepIsPermitted(p.y, e);
    if p.y.call.Some? {
      GentleKeepsTheCall(p.y, e, X, idY);
    }
    assert GentleMove(p.y, e, t, p.mintedY, X, idY);
    if OfferWins(idX, idY) {
      LoserMoves(d, e, t);
    } else {
      WinnerMoves(d, e, t);
    }
  }

  // The pair after a side read the head of its inbox.
  function AfterRead(p: Pair, t: State, peer: Handle, rest: seq<Signal>): Pair {
    p.(x := t, xy := p.xy + NewFor(p.x, t, peer), yx := rest)
  }

  lemma ReadMintsNothing(p: Pair, e: Event, peer: Handle, rest: seq<Signal>)
    requires e.Receive?
    ensures StepX(p, e, peer, rest) == AfterRead(p, Step(p.x, e), peer, rest)
  {
    assert p.mintedX + {} == p.mintedX;
  }

  lemma XReadsIsFair(p: Pair, e: Event, idX: CallId, idY: CallId)
    requires Fair(Roles(p, idX, idY)) && |p.yx| > 0 && Delivers(e, Y, p.yx[0])
    ensures Fair(Roles(AfterRead(p, Step(p.x, e), Y, p.yx[1..]), idX, idY))
  {
    if OfferWins(idX, idY) {
      WinnerReads(Roles(p, idX, idY), e);
    } else {
      LoserReads(Roles(p, idX, idY), e);
    }
  }

  lemma YReadsIsFair(p: Pair, e: Event, idX: CallId, idY: CallId)
    requires Fair(Roles(p, idX, idY)) && |p.xy| > 0 && Delivers(e, X, p.xy[0])
    ensures Fair(Roles(Flip(AfterRead(Flip(p), Step(p.y, e), X, p.xy[1..])), idX, idY))
  {
    if OfferWins(idX, idY) {
      LoserReads(Roles(p, idX, idY), e);
    } else {
      WinnerReads(Roles(p, idX, idY), e);
    }
  }

  lemma GentleStepIsFair(p: Pair, e: PairEvent, idX: CallId, idY: CallId)
    requires Fair(Roles(p, idX, idY)) && GentleStep(p, e, idX, idY)
    ensures Fair(Roles(PairStep(p, e), idX, idY))
  {
    match e
    case AtX(ev) => XMovesIsFair(p, ev, idX, idY);
    case AtY(ev) => YMovesIsFair(p, ev, idX, idY);
    case DeliverToX(id, at, now) =>
      var ev := Receive(Contact(id, Y), p.yx[0], at, now);
      ReadMintsNothing(p, ev, Y, p.yx[1..]);
      XReadsIsFair(p, ev, idX, idY);
    case DeliverToY(id, at, now) =>
      var ev := Receive(Contact(id, X), p.xy[0], at, now);
      ReadMintsNothing(Flip(p), ev, X, p.xy[1..]);
      YReadsIsFair(p, ev, idX, idY);
  }

  predicate GentleRun(p: Pair, events: seq<PairEvent>, q: Pair, idX: CallId, idY: CallId)
    decreases |events|
  {
    if events == [] then q == p
    else GentleStep(p, events[0], idX, idY) && GentleRun(PairStep(p, events[0]), events[1..], q, idX, idY)
  }

  lemma {:induction false} GentleRunIsFair(p: Pair, events: seq<PairEvent>, q: Pair, idX: CallId, idY: CallId)
    requires Fair(Roles(p, idX, idY)) && GentleRun(p, events, q, idX, idY)
    ensures Fair(Roles(q, idX, idY))
    decreases |events|
  {
    if events != [] {
      GentleStepIsFair(p, events[0], idX, idY);
      GentleRunIsFair(PairStep(p, events[0]), events[1..], q, idX, idY);
    }
  }

  // No offer is in transit, and none is still to come from a side that is out.
  predicate OffersSettled(p: Pair) {
    && (forall i :: 0 <= i < |p.xy| ==> !p.xy[i].Offer?)
    && (forall i :: 0 <= i < |p.yx| ==> !p.yx[i].Offer?)
    && (p.x.call.Some? && p.x.call.value.direction == Out ==> Offered(p.x))
    && (p.y.call.Some? && p.y.call.value.direction == Out ==> Offered(p.y))
  }

  predicate NoOffers(channel: seq<Signal>) {
    forall i :: 0 <= i < |channel| ==> !channel[i].Offer?
  }

  // The same of a duel, by role.
  lemma FairDuelAgrees(d: Duel)
    requires Fair(d)
    ensures !(d.w.call.Some? && d.w.call.value.direction == In && d.l.call.Some? && d.l.call.value.direction == In)
    ensures d.mintedW == {d.a} && d.mintedL == {d.b} && NoOffers(d.wl) && NoOffers(d.lw)
            && (d.w.call.Some? && d.w.call.value.direction == Out ==> Offered(d.w)) ==>
              OutTo(d.w, d.a, d.hl) && InFrom(d.l, d.a, d.hw)
  {
  }

  // Never both callees; and once both have called and the offers are settled, the smaller
  // id is the one call, its owner the caller.
  lemma GlareAgrees(events: seq<PairEvent>, q: Pair, idX: CallId, idY: CallId)
    requires idX != idY && GentleRun(START, events, q, idX, idY)
    ensures !(q.x.call.Some? && q.x.call.value.direction == In && q.y.call.Some? && q.y.call.value.direction == In)
    ensures q.mintedX == {idX} && q.mintedY == {idY} && OffersSettled(q) ==>
              if OfferWins(idX, idY)
              then OutTo(q.x, idX, Y) && InFrom(q.y, idX, X)
              else OutTo(q.y, idY, X) && InFrom(q.x, idY, Y)
  {
    OfferWinsIsTotal(idX, idY);
    StartIsFair(idX, idY);
    GentleRunIsFair(START, events, q, idX, idY);
    FairDuelAgrees(Roles(q, idX, idY));
  }

  lemma StartIsFair(idX: CallId, idY: CallId)
    requires idX != idY
    ensures Fair(Roles(START, idX, idY))
  {
    OfferWinsIsTotal(idX, idY);
  }
}
