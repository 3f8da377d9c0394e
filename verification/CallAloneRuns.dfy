// A glare broken by a hang up, from two new controllers to a callee that rings for nobody.
module CallAloneRuns {
  import opened Options
  import opened CallTypes
  import opened CallMachine
  import opened CallInvariant
  import opened CallOutline
  import opened CallPair
  import opened CallAlone

  // Both ring each other, and neither has read the other's offer.
  predicate Crossed(w: Watch, idX: CallId, idY: CallId) {
    var p := w.pair;
    && idX != idY && Watched(w) && p.x.status == OutgoingRinging == p.y.status
    && OutTo(p.x, idX, Y) && OutTo(p.y, idY, X)
    && |p.xy| == 1 && IsOffer(p.xy[0], idX) && |p.yx| == 1 && IsOffer(p.yx[0], idY)
    && p.x.recentlyEnded == [] && p.y.recentlyEnded == []
  }

  // --- the events, one side at a time ---

  lemma RingingHangsUp(s: State, c: CallId, peer: Handle, now: int)
    requires Valid(s) && s.status == OutgoingRinging && OutTo(s, c, peer) && s.recentlyEnded == []
    ensures var t := Step(s, UserHangUp(now));
      t.call.None? && t.recentlyEnded == [c] && SentOne(s, t, peer, End(c, Hangup))
  {
    HangUpIsLoud(s, now);
    FinishLog(SendEnd(s, Hangup), HangUpReason(s), Some(HangUpRow(s, now)));
    assert Touch([], c) == [c];
  }

  lemma FreeTakes(s: State, e: Event, peer: Handle)
    requires Valid(s) && s.call.None? && Takes(s, e, peer)
    ensures var t := Step(s, e); InFrom(t, e.signal.callId, peer) && t.log.sent == s.log.sent
  {
  }

  lemma RingingReadsOffer(s: State, e: Event, c: CallId, peer: Handle)
    requires Valid(s) && s.status == OutgoingRinging && OutTo(s, c, peer)
    requires OfferHeard(s, e) && e.from.handle == peer
    ensures var t := Step(s, e);
      if GivesUp(s, e, peer)
      then InFrom(t, e.signal.callId, peer) && t.status == Connecting && SentOne(s, t, peer, Accept(e.signal.callId))
      else KeyOf(t) == KeyOf(s) && t.status == s.status && t.log.sent == s.log.sent
  {
    if GivesUp(s, e, peer) {
      GivingUpYields(s, e, peer);
    }
  }

  lemma ConnectingReadsEnd(s: State, e: Event, c: CallId, peer: Handle)
    requires Valid(s) && s.status == Connecting && InFrom(s, c, peer)
    requires e.Receive? && e.from.handle == peer && IsEnd(e.signal, c)
    ensures var t := Step(s, e); t.call.None? && t.log.sent == s.log.sent
  {
    EndWhileConnectingIsSilent(s, e);
  }

  lemma EndWhileConnectingIsSilent(s: State, e: Event)
    requires s.status == Connecting && HeardFor(s, e) && e.signal.End?
    ensures Step(s, e).call.None? && Step(s, e).log.sent == s.log.sent
  {
  }

  // --- the pair ---

  predicate XGone(w: Watch, v: Watch, idX: CallId) {
    && Watched(v) && v.gaveX == w.gaveX && v.gaveY == w.gaveY
    && v.pair.x.call.None? && v.pair.x.recentlyEnded == [idX]
    && v.pair.y == w.pair.y && v.pair.yx == w.pair.yx && v.pair.xy == w.pair.xy + [End(idX, Hangup)]
  }

  lemma RingingSideHangsUp(w: Watch, idX: CallId, idY: CallId, now: int)
    requires Crossed(w, idX, idY)
    ensures XGone(w, WatchStep(w, AtX(UserHangUp(now))), idX)
  {
    var s, e := w.pair.x, UserHangUp(now);
    StepKeepsWatched(w, AtX(e));
    RingingHangsUp(s, idX, Y, now);
    NewForOne(s, Step(s, e), Y, End(idX, Hangup), Y);
  }

  // What a delivery changes, when the reader stands at t after it and says `sent`.
  lemma XReads(w: Watch, contact: string, now: int, t: State, sent: seq<Signal>)
    requires Watched(w) && |w.pair.yx| > 0
    requires var e := ReadByX(w.pair, contact, now, now); t == Step(w.pair.x, e) && sent == NewFor(w.pair.x, t, Y)
    ensures var v := WatchStep(w, DeliverToX(contact, now, now));
      && Watched(v) && v.pair.x == t && v.pair.y == w.pair.y
      && v.pair.xy == w.pair.xy + sent && v.pair.yx == w.pair.yx[1..]
      && v.gaveX == w.gaveX + GivenUp(w.pair.x, ReadByX(w.pair, contact, now, now), Y) && v.gaveY == w.gaveY
  {
    StepKeepsWatched(w, DeliverToX(contact, now, now));
  }

  lemma YReads(w: Watch, contact: string, now: int, t: State, sent: seq<Signal>)
    requires Watched(w) && |w.pair.xy| > 0
    requires var e := ReadByY(w.pair, contact, now, now); t == Step(w.pair.y, e) && sent == NewFor(w.pair.y, t, X)
    ensures var v := WatchStep(w, DeliverToY(contact, now, now));
      && Watched(v) && v.pair.y == t && v.pair.x == w.pair.x
      && v.pair.yx == w.pair.yx + sent && v.pair.xy == w.pair.xy[1..]
      && v.gaveY == w.gaveY + GivenUp(w.pair.y, ReadByY(w.pair, contact, now, now), X) && v.gaveX == w.gaveX
  {
    StepKeepsWatched(w, DeliverToY(contact, now, now));
  }

  // Then x reads y's offer, and is callee of it.
  predicate XTook(w: Watch, v: Watch, idX: CallId, idY: CallId) {
    && Watched(v) && v.gaveX == w.gaveX && v.gaveY == w.gaveY
    && InFrom(v.pair.x, idY, Y) && v.pair.y == w.pair.y && v.pair.yx == []
    && |w.pair.xy| == 1 && v.pair.xy == [w.pair.xy[0], End(idX, Hangup)]
  }

  lemma HungUpSideTakesOffer(u: Watch, w: Watch, idX: CallId, idY: CallId, contact: string, now: int)
    requires Crossed(w, idX, idY) && XGone(w, u, idX)
    ensures XTook(w, WatchStep(u, DeliverToX(contact, now, now)), idX, idY)
  {
    var e := ReadByX(u.pair, contact, now, now);
    var t := Step(u.pair.x, e);
    FreeTakes(u.pair.x, e, Y);
    NewForNothing(u.pair.x, t, Y);
    XReads(u, contact, now, t, []);
    assert u.pair.xy + [] == [w.pair.xy[0], End(idX, Hangup)];
  }

  // And y reads the offer of x, whose call is over: it yields, or keeps its own call.
  predicate YRead(w: Watch, v: Watch, idX: CallId, idY: CallId) {
    && Watched(v) && InFrom(v.pair.x, idY, Y) && v.pair.xy == [End(idX, Hangup)]
    && if OfferWins(idY, idX)
       then OutTo(v.pair.y, idY, X) && v.pair.y.status == OutgoingRinging && v.pair.yx == [] && v.gaveY == w.gaveY
       else InFrom(v.pair.y, idX, X) && v.pair.y.status == Connecting && v.pair.yx == [Accept(idX)]
            && v.gaveY == w.gaveY + {idY}
  }

  lemma RingingSideReadsOffer(u: Watch, w: Watch, idX: CallId, idY: CallId, contact: string, now: int)
    requires Crossed(w, idX, idY) && XTook(w, u, idX, idY)
    ensures YRead(w, WatchStep(u, DeliverToY(contact, now, now)), idX, idY)
  {
    var s, e := u.pair.y, ReadByY(u.pair, contact, now, now);
    var t := Step(s, e);
    RingingReadsOffer(s, e, idY, X);
    if GivesUp(s, e, X) {
      NewForOne(s, t, X, Accept(idX), X);
    } else {
      NewForNothing(s, t, X);
    }
    YReads(u, contact, now, t, NewFor(s, t, X));
    assert u.pair.xy[1..] == [End(idX, Hangup)];
  }

  // At last y reads that x hung up.
  predicate YHeard(v: Watch, idX: CallId, idY: CallId) {
    && Watched(v) && InFrom(v.pair.x, idY, Y) && v.pair.xy == []
    && if OfferWins(idY, idX)
       then OutTo(v.pair.y, idY, X)
       else v.pair.y.call.None? && v.pair.yx == [Accept(idX)] && idY in v.gaveY
  }

  lemma RingingSideReadsStrayEnd(s: State, e: Event, c: CallId, peer: Handle)
    requires s.status == OutgoingRinging && OutTo(s, c, peer) && e.Receive? && e.signal.End? && e.signal.callId != c
    ensures KeyOf(Step(s, e)) == KeyOf(s) && Step(s, e).log.sent == s.log.sent
  {
  }

  lemma HangUpIsHeard(u: Watch, w: Watch, idX: CallId, idY: CallId, contact: string, now: int)
    requires idX != idY && YRead(w, u, idX, idY)
    ensures YHeard(WatchStep(u, DeliverToY(contact, now, now)), idX, idY)
  {
    var s, e := u.pair.y, ReadByY(u.pair, contact, now, now);
    if OfferWins(idY, idX) {
      RingingSideReadsStrayEnd(s, e, idY, X);
    } else {
      ConnectingReadsEnd(s, e, idX, X);
    }
    NewForNothing(s, Step(s, e), X);
    YReads(u, contact, now, Step(s, e), []);
  }

  predicate BothCallees(p: Pair, idX: CallId, idY: CallId) { InFrom(p.x, idY, Y) && InFrom(p.y, idX, X) }

  lemma OneStep(w: Watch, a: PairEvent, v: Watch)
    requires Enabled(w.pair, a) && v == WatchStep(w, a)
    ensures WatchRun(w, [a], v)
  {
    assert [a][1..] == [];
  }

  lemma RunOn(w: Watch, e: PairEvent, m: Watch, events: seq<PairEvent>, v: Watch)
    requires Enabled(w.pair, e) && m == WatchStep(w, e) && WatchRun(m, events, v)
    ensures WatchRun(w, [e] + events, v)
  {
    assert ([e] + events)[1..] == events;
  }

  lemma TwoSteps(w: Watch, a: PairEvent, m: Watch, b: PairEvent, v: Watch)
    requires Enabled(w.pair, a) && m == WatchStep(w, a) && Enabled(m.pair, b) && v == WatchStep(m, b)
    ensures WatchRun(w, [a, b], v)
  {
    OneStep(m, b, v);
    RunOn(w, a, m, [b], v);
    assert [a] + [b] == [a, b];
  }

  // Crossed offers, and one side hangs up before it reads the other's. Both end up callees if
  // and only if the call that was hung up has the smaller id; then the one that hung up is
  // left ringing for a caller that is gone. Otherwise the other call goes on as one.
  lemma HangUpBreaksGlare(w: Watch, idX: CallId, idY: CallId, contact: string, now: int)
    returns (n: Watch, u: Watch, v: Watch)
    requires Crossed(w, idX, idY)
    ensures WatchRun(w, [AtX(UserHangUp(now)), DeliverToX(contact, now, now)], n)
    ensures WatchRun(n, [DeliverToY(contact, now, now)], u) && WatchRun(u, [DeliverToY(contact, now, now)], v)
    ensures BothCallees(u.pair, idX, idY) <==> OfferWins(idX, idY)
    ensures LeftAlone(v.pair.x, v.gaveY, Y) && v.pair.y.call.None? && !HasEnd(v.pair.yx, idY) <==> OfferWins(idX, idY)
    ensures InFrom(v.pair.x, idY, Y) && (!OfferWins(idX, idY) ==> OutTo(v.pair.y, idY, X))
  {
    OfferWinsIsTotal(idX, idY);
    var (hangUp, toX, toY) := (AtX(UserHangUp(now)), DeliverToX(contact, now, now), DeliverToY(contact, now, now));
    var m := WatchStep(w, hangUp);
    RingingSideHangsUp(w, idX, idY, now);
    n := WatchStep(m, toX);
    TwoSteps(w, hangUp, m, toX, n);
    HungUpSideTakesOffer(m, w, idX, idY, contact, now);
    u := WatchStep(n, toY);
    OneStep(n, toY, u);
    RingingSideReadsOffer(n, w, idX, idY, contact, now);
    v := WatchStep(u, toY);
    OneStep(u, toY, v);
    HangUpIsHeard(u, w, idX, idY, contact, now);
  }

  // --- and crossed offers are reached ---

  const OFFER_SDP := "offer"

  // A call placed, up to the acknowledged offer.
  function Dialling(peer: Contact, id: CallId): seq<Event> {
    [PlaceCall(peer, id), PlaceTurnDone(0, EngineCreated), PlaceEngineDone(0, Sdp(OFFER_SDP)), PlaceSendDone(0, true)]
  }

  function Dialled(peer: Contact, id: CallId, k: nat): State
    requires k <= 4
  {
    if k == 0 then INITIAL else Step(Dialled(peer, id, k - 1), Dialling(peer, id)[k - 1])
  }

  predicate IsDialled(s: State, peer: Handle, id: CallId, offered: bool) {
    && OutTo(s, id, peer) && s.recentlyEnded == [] && s.call.value.serial == 0
    && s.log.sent == if offered then [Outgoing(peer, Offer(id, OFFER_SDP))] else []
  }

  lemma DiallingStarts(peer: Contact, id: CallId)
    ensures var s := Dialled(peer, id, 1);
      IsDialled(s, peer.handle, id, false) && s.flights == {Flight(PlaceTurn, 0)} && s.status == Starting
  {
    assert Dialled(peer, id, 0) == INITIAL;
  }

  lemma DiallingAttaches(peer: Contact, id: CallId)
    ensures var s := Dialled(peer, id, 2);
      IsDialled(s, peer.handle, id, false) && s.flights == {Flight(PlaceEngine, 0)} && s.status == Starting
  {
    DiallingStarts(peer, id);
  }

  lemma DiallingOffers(peer: Contact, id: CallId)
    ensures var s := Dialled(peer, id, 3);
      IsDialled(s, peer.handle, id, true) && s.flights == {Flight(PlaceSend, 0)} && s.status == Starting
  {
    DiallingAttaches(peer, id);
  }

  lemma DiallingRings(peer: Contact, id: CallId)
    ensures var s := Dialled(peer, id, 4); IsDialled(s, peer.handle, id, true) && s.status == OutgoingRinging
  {
    DiallingOffers(peer, id);
  }

  function OfferedIf(offered: bool, id: CallId): seq<Signal> {
    if offered then [Offer(id, OFFER_SDP)] else []
  }

  // x has dialled k steps, or y has, with nothing delivered.
  predicate BothDialled(w: Watch, idX: CallId, idY: CallId, kx: nat, ky: nat) {
    && kx <= 4 && ky <= 4
    && w.pair.x == Dialled(Contact("to y", Y), idX, kx) && w.pair.y == Dialled(Contact("to x", X), idY, ky)
    && w.pair.xy == OfferedIf(kx >= 3, idX) && w.pair.yx == OfferedIf(ky >= 3, idY)
    && w.pair.mintedX == (if kx > 0 then {idX} else {}) && w.pair.mintedY == (if ky > 0 then {idY} else {})
  }

  lemma DialledSends(peer: Contact, id: CallId, k: nat)
    requires k < 4
    ensures var s, e := Dialled(peer, id, k), Dialling(peer, id)[k];
      && NewFor(s, Step(s, e), peer.handle) == (if k == 2 then [Offer(id, OFFER_SDP)] else [])
      && MintedBy(s, e) == (if k == 0 then {id} else {})
  {
    DiallingStarts(peer, id);
    DiallingAttaches(peer, id);
    DiallingOffers(peer, id);
    DiallingRings(peer, id);
    var s, e := Dialled(peer, id, k), Dialling(peer, id)[k];
    var t := Step(s, e);
    assert t == Dialled(peer, id, k + 1);
    if k == 2 {
      NewForOne(s, t, peer.handle, Offer(id, OFFER_SDP), peer.handle);
    } else {
      NewForNothing(s, t, peer.handle);
    }
  }

  // What a local event changes, when the side stands at t after it.
  lemma XActs(w: Watch, e: Event, t: State)
    requires Enabled(w.pair, AtX(e)) && t == Step(w.pair.x, e)
    ensures var v := WatchStep(w, AtX(e));
      && v.pair.x == t && v.pair.y == w.pair.y
      && v.pair.xy == w.pair.xy + NewFor(w.pair.x, t, Y) && v.pair.yx == w.pair.yx
      && v.pair.mintedX == w.pair.mintedX + MintedBy(w.pair.x, e) && v.pair.mintedY == w.pair.mintedY
  {
  }

  lemma YActs(w: Watch, e: Event, t: State)
    requires Enabled(w.pair, AtY(e)) && t == Step(w.pair.y, e)
    ensures var v := WatchStep(w, AtY(e));
      && v.pair.y == t && v.pair.x == w.pair.x
      && v.pair.yx == w.pair.yx + NewFor(w.pair.y, t, X) && v.pair.xy == w.pair.xy
      && v.pair.mintedY == w.pair.mintedY + MintedBy(w.pair.y, e) && v.pair.mintedX == w.pair.mintedX
  {
  }

  lemma XDials(w: Watch, idX: CallId, idY: CallId, kx: nat, ky: nat) returns (e: PairEvent)
    requires BothDialled(w, idX, idY, kx, ky) && kx < 4 && idX != idY
    ensures Enabled(w.pair, e) && BothDialled(WatchStep(w, e), idX, idY, kx + 1, ky)
  {
    var to := Contact("to y", Y);
    var ev := Dialling(to, idX)[kx];
    e := AtX(ev);
    DialledSends(to, idX, kx);
    XActs(w, ev, Dialled(to, idX, kx + 1));
  }

  lemma YDials(w: Watch, idX: CallId, idY: CallId, kx: nat, ky: nat) returns (e: PairEvent)
    requires BothDialled(w, idX, idY, kx, ky) && ky < 4 && idX != idY
    ensures Enabled(w.pair, e) && BothDialled(WatchStep(w, e), idX, idY, kx, ky + 1)
  {
    var to := Contact("to x", X);
    var ev := Dialling(to, idY)[ky];
    e := AtY(ev);
    DialledSends(to, idY, ky);
    YActs(w, ev, Dialled(to, idY, ky + 1));
  }

  // x dials first, then y.
  lemma {:induction false} YDialsOn(w: Watch, idX: CallId, idY: CallId, ky: nat)
    returns (events: seq<PairEvent>, v: Watch)
    requires BothDialled(w, idX, idY, 4, ky) && idX != idY
    ensures WatchRun(w, events, v) && BothDialled(v, idX, idY, 4, 4)
    decreases 4 - ky
  {
    if ky == 4 {
      return [], w;
    }
    var e := YDials(w, idX, idY, 4, ky);
    var rest;
    rest, v := YDialsOn(WatchStep(w, e), idX, idY, ky + 1);
    RunOn(w, e, WatchStep(w, e), rest, v);
    events := [e] + rest;
  }

  lemma {:induction false} XDialsOn(w: Watch, idX: CallId, idY: CallId, kx: nat)
    returns (events: seq<PairEvent>, v: Watch)
    requires BothDialled(w, idX, idY, kx, 0) && idX != idY
    ensures WatchRun(w, events, v) && BothDialled(v, idX, idY, 4, 4)
    decreases 4 - kx
  {
    if kx == 4 {
      events, v := YDialsOn(w, idX, idY, 0);
      return;
    }
    var e := XDials(w, idX, idY, kx, 0);
    var rest;
    rest, v := XDialsOn(WatchStep(w, e), idX, idY, kx + 1);
    RunOn(w, e, WatchStep(w, e), rest, v);
    events := [e] + rest;
  }

  lemma CrossedIsReached(idX: CallId, idY: CallId) returns (events: seq<PairEvent>, w: Watch)
    requires idX != idY
    ensures WatchRun(WATCH_START, events, w) && Crossed(w, idX, idY)
  {
    events, w := XDialsOn(WATCH_START, idX, idY, 0);
    RunKeepsWatched(WATCH_START, events, w);
    DiallingRings(Contact("to y", Y), idX);
    DiallingRings(Contact("to x", X), idY);
  }
}
