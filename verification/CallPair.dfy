// Two controllers joined by channels that keep order and neither lose nor duplicate, among
// any number of other parties that may signal anything at any time.
module CallPair {
  import opened Options
  import opened CallTypes
  import opened CallMachine
  import opened CallInvariant
  import opened CallOutline

  const X: Handle := "x"
  const Y: Handle := "y"

  // `xy` is in transit from x to y; `mintedX` are the ids x gave to its own calls.
  datatype Pair = Pair(x: State, y: State, xy: seq<Signal>, yx: seq<Signal>, mintedX: set<CallId>, mintedY: set<CallId>)

  datatype PairEvent =
    | AtX(event: Event)
    | AtY(event: Event)
    | DeliverToX(contactId: string, sentAt: int, now: int)
    | DeliverToY(contactId: string, sentAt: int, now: int)

  const START: Pair := Pair(INITIAL, INITIAL, [], [], {}, {})

  function AddressedTo(out: seq<Outgoing>, h: Handle): seq<Signal> {
    if out == [] then []
    else (if out[0].to == h then [out[0].signal] else []) + AddressedTo(out[1..], h)
  }

  function NewFor(s: State, t: State, h: Handle): seq<Signal> {
    if |t.log.sent| < |s.log.sent| then [] else AddressedTo(t.log.sent[|s.log.sent|..], h)
  }

  // A placed call takes a new id only once the slot is seen to be free.
  function MintedBy(s: State, e: Event): set<CallId> {
    if e.PlaceCall? && s.call.None? then {e.newId} else {}
  }

  // An event of one controller that is not a delivery from the other one; new ids are fresh.
  predicate LocalEvent(p: Pair, e: Event, peer: Handle) {
    && (e.Receive? ==> e.from.handle != peer)
    && (e.PlaceCall? ==> e.newId !in p.mintedX && e.newId !in p.mintedY)
  }

  predicate Enabled(p: Pair, e: PairEvent) {
    match e
    case AtX(ev) => LocalEvent(p, ev, Y)
    case AtY(ev) => LocalEvent(p, ev, X)
    case DeliverToX(_, _, _) => |p.yx| > 0
    case DeliverToY(_, _, _) => |p.xy| > 0
  }

  function Flip(p: Pair): Pair {
    Pair(p.y, p.x, p.yx, p.xy, p.mintedY, p.mintedX)
  }

  function StepX(p: Pair, e: Event, peer: Handle, yx: seq<Signal>): Pair {
    var t := Step(p.x, e);
    p.(x := t, xy := p.xy + NewFor(p.x, t, peer), yx := yx, mintedX := p.mintedX + MintedBy(p.x, e))
  }

  function PairStep(p: Pair, e: PairEvent): Pair
    requires Enabled(p, e)
  {
    match e
    case AtX(ev) => StepX(p, ev, Y, p.yx)
    case AtY(ev) => Flip(StepX(Flip(p), ev, X, p.xy))
    case DeliverToX(id, at, now) => StepX(p, Receive(Contact(id, Y), p.yx[0], at, now), Y, p.yx[1..])
    case DeliverToY(id, at, now) => Flip(StepX(Flip(p), Receive(Contact(id, X), p.xy[0], at, now), X, p.xy[1..]))
  }

  predicate OutTo(s: State, c: CallId, peer: Handle) {
    s.call.Some? && s.call.value.callId == c && s.call.value.direction == Out && s.call.value.contact.handle == peer
  }

  predicate InFrom(s: State, c: CallId, peer: Handle) {
    s.call.Some? && s.call.value.callId == c && s.call.value.direction == In && s.call.value.contact.handle == peer
  }

  predicate IsEnd(signal: Signal, c: CallId) { signal.End? && signal.callId == c }

  predicate HasEnd(channel: seq<Signal>, c: CallId) {
    exists i :: 0 <= i < |channel| && IsEnd(channel[i], c)
  }

  predicate IsConsent(signal: Signal) { signal.Accept? || signal.Answer? }

  predicate CalleeCarriesOn(y: State, c: CallId, caller: Handle) {
    InFrom(y, c, caller) && PastRinging(y.status)
  }

  predicate OffersFrom(channel: seq<Signal>, ids: set<CallId>) {
    forall i :: 0 <= i < |channel| ==> channel[i].Offer? ==> channel[i].callId in ids
  }

  predicate ConsentsFrom(channel: seq<Signal>, ids: set<CallId>) {
    forall i :: 0 <= i < |channel| ==> IsConsent(channel[i]) ==> channel[i].callId in ids
  }

  predicate EndsFrom(channel: seq<Signal>, ids: set<CallId>) {
    forall i :: 0 <= i < |channel| ==> channel[i].End? ==> channel[i].callId in ids
  }

  predicate PlacedFrom(x: State, ids: set<CallId>) {
    x.call.Some? && x.call.value.direction == Out ==> x.call.value.callId in ids
  }

  predicate AdoptedFrom(y: State, caller: Handle, ids: set<CallId>) {
    y.call.Some? && y.call.value.direction == In && y.call.value.contact.handle == caller ==> y.call.value.callId in ids
  }

  // Who may name which id, for the calls x places to y.
  predicate IdsOwned(
      x: State, y: State, fwd: seq<Signal>, back: seq<Signal>, minted: set<CallId>, others: set<CallId>, caller: Handle)
  {
    && PlacedFrom(x, minted) && AdoptedFrom(y, caller, minted)
    && OffersFrom(fwd, minted) && ConsentsFrom(back, minted) && EndsFrom(fwd, minted + others)
  }

  // Each consent to c in the channel has its end behind it, unless the callee carries on.
  predicate ConsentsBacked(back: seq<Signal>, c: CallId, carriesOn: bool) {
    forall i :: 0 <= i < |back| && IsConsent(back[i]) && back[i].callId == c ==> carriesOn || HasEnd(back[i + 1..], c)
  }

  // The caller's view of its call c is backed by the callee, or by an end on its way.
  predicate CallBacked(x: State, y: State, fwd: seq<Signal>, back: seq<Signal>, caller: Handle, callee: Handle) {
    x.call.Some? && OutTo(x, x.call.value.callId, callee) ==>
      var c := x.call.value.callId;
      && !HasEnd(fwd, c)
      && (PastRinging(x.status) ==> CalleeCarriesOn(y, c, caller) || HasEnd(back, c))
      && ConsentsBacked(back, c, CalleeCarriesOn(y, c, caller))
  }

  predicate Backed(p: Pair) {
    && Valid(p.x) && Valid(p.y) && p.mintedX !! p.mintedY
    && IdsOwned(p.x, p.y, p.xy, p.yx, p.mintedX, p.mintedY, X)
    && IdsOwned(p.y, p.x, p.yx, p.xy, p.mintedY, p.mintedX, Y)
    && CallBacked(p.x, p.y, p.xy, p.yx, X, Y)
    && CallBacked(p.y, p.x, p.yx, p.xy, Y, X)
  }

  // --- one event sends at most one signal ---

  lemma NewForNothing(s: State, t: State, h: Handle)
    requires t.log.sent == s.log.sent
    ensures NewFor(s, t, h) == []
  {
  }

  lemma NewForOne(s: State, t: State, to: Handle, signal: Signal, h: Handle)
    requires SentOne(s, t, to, signal)
    ensures NewFor(s, t, h) == if to == h then [signal] else []
  {
    var delta := t.log.sent[|s.log.sent|..];
    assert delta == [Outgoing(to, signal)];
    assert AddressedTo(delta[1..], h) == [];
  }

  // The signal an event sends to the other side, read off the outline.
  predicate SendsFor(s: State, e: Event, t: State, h: Handle, sent: seq<Signal>) {
    && |sent| <= 1
    && (|sent| == 1 ==>
          || (s.call.Some? && s.call.value.contact.handle == h && sent[0].callId == s.call.value.callId
              && match sent[0]
                 case Offer(_, _) => s.call.value.direction == Out && KeyOf(t) == KeyOf(s)
                 case Accept(_) => s.call.value.direction == In && KeyOf(t) == KeyOf(s) && PastRinging(t.status)
                 case Answer(_, _) => s.call.value.direction == In && KeyOf(t) == KeyOf(s) && PastRinging(t.status)
                 case End(_, _) => t.call.None?)
          || (Yielded(s, e, t) && e.from.handle == h && sent[0] == Accept(e.signal.callId))
          || (e.Receive? && e.signal.Offer? && e.from.handle == h && KeyOf(t) == KeyOf(s)
              && sent[0] == End(e.signal.callId, Busy)))
  }

  // A call past ringing ends, and not because its contact said so.
  predicate LeavesLoudly(s: State, e: Event, t: State, h: Handle) {
    Over(s, e, t) && s.call.value.contact.handle == h && PastRinging(s.status) && !(HeardFor(s, e) && e.signal.End?)
  }

  lemma SpokeSends(s: State, e: Event, t: State, h: Handle)
    requires Spoke(s, e, t)
    ensures SendsFor(s, e, t, h, NewFor(s, t, h))
  {
    NewForOne(s, t, s.call.value.contact.handle, t.log.sent[|t.log.sent| - 1].signal, h);
  }

  lemma OverSends(s: State, e: Event, t: State, h: Handle)
    requires Over(s, e, t)
    ensures SendsFor(s, e, t, h, NewFor(s, t, h))
    ensures LeavesLoudly(s, e, t, h) ==> |NewFor(s, t, h)| == 1 && IsEnd(NewFor(s, t, h)[0], s.call.value.callId)
  {
    if t.log.sent == s.log.sent {
      NewForNothing(s, t, h);
    } else {
      NewForOne(s, t, s.call.value.contact.handle, t.log.sent[|t.log.sent| - 1].signal, h);
    }
  }

  lemma YieldedSends(s: State, e: Event, t: State, h: Handle)
    requires Yielded(s, e, t)
    ensures SendsFor(s, e, t, h, NewFor(s, t, h))
  {
    NewForOne(s, t, e.from.handle, Accept(e.signal.callId), h);
  }

  lemma NotedSends(s: State, e: Event, t: State, h: Handle)
    requires Noted(s, e, t)
    ensures SendsFor(s, e, t, h, NewFor(s, t, h))
  {
    if t.log.sent == s.log.sent {
      NewForNothing(s, t, h);
    } else {
      NewForOne(s, t, e.from.handle, End(e.signal.callId, Busy), h);
    }
  }

  lemma SendsForIsNewFor(s: State, e: Event, t: State, h: Handle)
    requires Permitted(s, e, t)
    ensures SendsFor(s, e, t, h, NewFor(s, t, h))
    ensures LeavesLoudly(s, e, t, h) ==> |NewFor(s, t, h)| == 1 && IsEnd(NewFor(s, t, h)[0], s.call.value.callId)
  {
    if Over(s, e, t) {
      OverSends(s, e, t, h);
    } else if Spoke(s, e, t) {
      SpokeSends(s, e, t, h);
    } else if Yielded(s, e, t) {
      YieldedSends(s, e, t, h);
    } else if Noted(s, e, t) {
      NotedSends(s, e, t, h);
    } else {
      NewForNothing(s, t, h);
    }
  }

  // --- one controller moves; what it promised the other one still holds ---

  // The event as the moving side sees it: either not from the peer, or the head of its inbox.
  predicate InboxStep(e: Event, peer: Handle, inbox: seq<Signal>, rest: seq<Signal>) {
    if e.Receive? && e.from.handle == peer
    then |inbox| > 0 && e.signal == inbox[0] && rest == inbox[1..]
    else rest == inbox
  }

  predicate FreshFor(e: Event, minted: set<CallId>, others: set<CallId>) {
    e.PlaceCall? ==> e.newId !in minted && e.newId !in others
  }

  lemma RestKeepsOrigins(e: Event, peer: Handle, inbox: seq<Signal>, rest: seq<Signal>, ids: set<CallId>)
    requires InboxStep(e, peer, inbox, rest)
    ensures OffersFrom(inbox, ids) ==> OffersFrom(rest, ids)
    ensures ConsentsFrom(inbox, ids) ==> ConsentsFrom(rest, ids)
    ensures EndsFrom(inbox, ids) ==> EndsFrom(rest, ids)
  {
  }

  lemma OriginsAppend(channel: seq<Signal>, sent: seq<Signal>, ids: set<CallId>)
    ensures OffersFrom(channel, ids) && OffersFrom(sent, ids) ==> OffersFrom(channel + sent, ids)
    ensures ConsentsFrom(channel, ids) && ConsentsFrom(sent, ids) ==> ConsentsFrom(channel + sent, ids)
    ensures EndsFrom(channel, ids) && EndsFrom(sent, ids) ==> EndsFrom(channel + sent, ids)
  {
  }

  lemma OriginsWiden(channel: seq<Signal>, ids: set<CallId>, more: set<CallId>)
    requires ids <= more
    ensures OffersFrom(channel, ids) ==> OffersFrom(channel, more)
    ensures ConsentsFrom(channel, ids) ==> ConsentsFrom(channel, more)
    ensures EndsFrom(channel, ids) ==> EndsFrom(channel, more)
  {
  }

  // The calls this side placed or adopted, and what it may have sent about them.
  lemma MoverKeepsOrigins(s: State, e: Event, t: State, peer: Handle, placed: set<CallId>, adopted: set<CallId>,
                          inbox: seq<Signal>, rest: seq<Signal>)
    requires Permitted(s, e, t) && InboxStep(e, peer, inbox, rest)
    requires PlacedFrom(s, placed) && AdoptedFrom(s, peer, adopted) && OffersFrom(inbox, adopted)
    ensures PlacedFrom(t, placed + MintedBy(s, e)) && AdoptedFrom(t, peer, adopted)
  {
  }

  lemma MoverSendsOwn(s: State, e: Event, t: State, peer: Handle, placed: set<CallId>, adopted: set<CallId>,
                      inbox: seq<Signal>, rest: seq<Signal>, sent: seq<Signal>)
    requires SendsFor(s, e, t, peer, sent) && InboxStep(e, peer, inbox, rest)
    requires PlacedFrom(s, placed) && AdoptedFrom(s, peer, adopted) && OffersFrom(inbox, adopted)
    ensures OffersFrom(sent, placed) && ConsentsFrom(sent, adopted) && EndsFrom(sent, placed + adopted)
  {
  }

  lemma CallerMoveKeepsIds(
      x: State, e: Event, t: State, y: State, fwd: seq<Signal>, back: seq<Signal>,
      rest: seq<Signal>, minted: set<CallId>, others: set<CallId>, caller: Handle, callee: Handle)
    requires Permitted(x, e, t) && InboxStep(e, callee, back, rest)
    requires IdsOwned(x, y, fwd, back, minted, others, caller)
    requires IdsOwned(y, x, back, fwd, others, minted, callee)
    ensures IdsOwned(t, y, fwd + NewFor(x, t, callee), rest, minted + MintedBy(x, e), others, caller)
  {
    var sent, more := NewFor(x, t, callee), minted + MintedBy(x, e);
    SendsForIsNewFor(x, e, t, callee);
    MoverKeepsOrigins(x, e, t, callee, minted, others, back, rest);
    MoverSendsOwn(x, e, t, callee, minted, others, back, rest, sent);
    RestKeepsOrigins(e, callee, back, rest, minted);
    OriginsAppend(fwd, sent, minted);
    OriginsAppend(fwd, sent, minted + others);
    OriginsWiden(fwd + sent, minted, more);
    OriginsWiden(fwd + sent, minted + others, more + others);
    OriginsWiden(rest, minted, more);
  }

  lemma CalleeMoveKeepsIds(
      y: State, e: Event, t: State, x: State, fwd: seq<Signal>, back: seq<Signal>,
      rest: seq<Signal>, minted: set<CallId>, others: set<CallId>, caller: Handle, callee: Handle)
    requires Permitted(y, e, t) && InboxStep(e, caller, fwd, rest)
    requires IdsOwned(x, y, fwd, back, minted, others, caller) && PlacedFrom(y, others)
    ensures IdsOwned(x, t, rest, back + NewFor(y, t, caller), minted, others + MintedBy(y, e), caller)
  {
    var sent := NewFor(y, t, caller);
    SendsForIsNewFor(y, e, t, caller);
    MoverKeepsOrigins(y, e, t, caller, others, minted, fwd, rest);
    MoverSendsOwn(y, e, t, caller, others, minted, fwd, rest, sent);
    RestKeepsOrigins(e, caller, fwd, rest, minted);
    RestKeepsOrigins(e, caller, fwd, rest, minted + others);
    OriginsAppend(back, sent, minted);
    OriginsWiden(rest, minted + others, minted + (others + MintedBy(y, e)));
  }

  lemma HasEndAppend(channel: seq<Signal>, sent: seq<Signal>, c: CallId)
    ensures HasEnd(channel + sent, c) <==> HasEnd(channel, c) || HasEnd(sent, c)
  {
    var all := channel + sent;
    if i :| 0 <= i < |channel| && IsEnd(channel[i], c) {
      assert IsEnd(all[i], c);
    }
    if i :| 0 <= i < |sent| && IsEnd(sent[i], c) {
      assert IsEnd(all[|channel| + i], c);
    }
    if i :| 0 <= i < |all| && IsEnd(all[i], c) {
      assert IsEnd(if i < |channel| then channel[i] else sent[i - |channel|], c);
    }
  }

  lemma HasEndDrop(channel: seq<Signal>, c: CallId)
    requires |channel| > 0
    ensures HasEnd(channel, c) <==> IsEnd(channel[0], c) || HasEnd(channel[1..], c)
  {
    assert channel == [channel[0]] + channel[1..];
    HasEndAppend([channel[0]], channel[1..], c);
  }

  lemma ConsentsBackedDrop(back: seq<Signal>, c: CallId, carriesOn: bool)
    requires |back| > 0 && ConsentsBacked(back, c, carriesOn)
    ensures ConsentsBacked(back[1..], c, carriesOn)
  {
    forall i | 0 <= i < |back[1..]| && IsConsent(back[1..][i]) && back[1..][i].callId == c
      ensures carriesOn || HasEnd(back[1..][i + 1..], c)
    {
      assert back[1..][i] == back[i + 1] && back[1..][i + 1..] == back[i + 2..];
    }
  }

  lemma ConsentsBackedAppend(back: seq<Signal>, sent: seq<Signal>, c: CallId, before: bool, after: bool)
    requires ConsentsBacked(back, c, before)
    requires (before ==> after) || HasEnd(sent, c)
    requires forall i :: 0 <= i < |sent| && IsConsent(sent[i]) && sent[i].callId == c ==> after
    ensures ConsentsBacked(back + sent, c, after)
  {
    var all := back + sent;
    forall i | 0 <= i < |all| && IsConsent(all[i]) && all[i].callId == c
      ensures after || HasEnd(all[i + 1..], c)
    {
      if i < |back| {
        assert all[i + 1..] == back[i + 1..] + sent;
        assert back[i] == all[i];
        HasEndAppend(back[i + 1..], sent, c);
      } else {
        assert sent[i - |back|] == all[i];
      }
    }
  }

  // A call still placed to the peer after the step was there before, or is new to everyone.
  lemma CallerCallIsOldOrNew(x: State, e: Event, t: State, c: CallId, callee: Handle, sent: seq<Signal>)
    requires Permitted(x, e, t) && SendsFor(x, e, t, callee, sent) && OutTo(t, c, callee)
    requires e.Receive? && e.signal.Offer? && e.from.handle == callee ==> e.signal.callId != c
    ensures !HasEnd(sent, c) && (KeyOf(t) == KeyOf(x) || (Placed(x, e, t) && c == e.newId && t.status == Starting))
    ensures KeyOf(t) != KeyOf(x) ==> sent == []
  {
  }

  // Hearing past ringing about it takes a consent from the callee.
  lemma CallerHearsConsent(x: State, e: Event, t: State, c: CallId, callee: Handle, back: seq<Signal>,
      rest: seq<Signal>)
    requires Permitted(x, e, t) && InboxStep(e, callee, back, rest) && OutTo(x, c, callee) && KeyOf(t) == KeyOf(x)
    ensures PastRinging(t.status) && !PastRinging(x.status) ==>
        rest != back && IsConsent(back[0]) && back[0].callId == c
    ensures rest != back && IsEnd(back[0], c) ==> !PastRinging(x.status) && !PastRinging(t.status)
  {
  }

  lemma CallerMoveKeepsBacked(
      x: State, e: Event, t: State, y: State, fwd: seq<Signal>, back: seq<Signal>,
      rest: seq<Signal>, minted: set<CallId>, others: set<CallId>, caller: Handle, callee: Handle)
    requires Permitted(x, e, t) && InboxStep(e, callee, back, rest) && FreshFor(e, minted, others) && minted !! others
    requires IdsOwned(x, y, fwd, back, minted, others, caller)
    requires IdsOwned(y, x, back, fwd, others, minted, callee)
    requires CallBacked(x, y, fwd, back, caller, callee)
    ensures CallBacked(t, y, fwd + NewFor(x, t, callee), rest, caller, callee)
  {
    if t.call.Some? && OutTo(t, t.call.value.callId, callee) {
      var c, sent := t.call.value.callId, NewFor(x, t, callee);
      var carries := CalleeCarriesOn(y, c, caller);
      SendsForIsNewFor(x, e, t, callee);
      MoverKeepsOrigins(x, e, t, callee, minted, others, back, rest);
      assert c in minted + MintedBy(x, e) && c !in others;
      CallerCallIsOldOrNew(x, e, t, c, callee, sent);
      HasEndAppend(fwd, sent, c);
      if KeyOf(t) == KeyOf(x) {
        CallerHearsConsent(x, e, t, c, callee, back, rest);
        if rest != back {
          HasEndDrop(back, c);
          ConsentsBackedDrop(back, c, carries);
        }
      } else {
        assert !HasEnd(fwd, c);
        assert forall i :: 0 <= i < |rest| ==> rest[i] in back;
      }
    }
  }

  // A callee past ringing with no end for its call in its inbox goes on or says so.
  lemma CalleeLeavesLoudly(y: State, e: Event, t: State, c: CallId, caller: Handle, fwd: seq<Signal>, rest: seq<Signal>)
    requires Permitted(y, e, t) && InboxStep(e, caller, fwd, rest) && !HasEnd(fwd, c)
    ensures CalleeCarriesOn(y, c, caller) && !CalleeCarriesOn(t, c, caller) ==> LeavesLoudly(y, e, t, caller)
  {
    if e.Receive? && e.from.handle == caller { assert !IsEnd(fwd[0], c); }
  }

  // It consents only to a call it carries on with.
  lemma CalleeConsentsToItsCall(y: State, e: Event, t: State, c: CallId, caller: Handle, sent: seq<Signal>)
    requires Permitted(y, e, t) && SendsFor(y, e, t, caller, sent)
    ensures forall i :: 0 <= i < |sent| && IsConsent(sent[i]) && sent[i].callId == c ==> CalleeCarriesOn(t, c, caller)
  {
  }

  lemma CalleeMoveKeepsBacked(
      y: State, e: Event, t: State, x: State, fwd: seq<Signal>, back: seq<Signal>,
      rest: seq<Signal>, caller: Handle, callee: Handle)
    requires Permitted(y, e, t) && InboxStep(e, caller, fwd, rest)
    requires CallBacked(x, y, fwd, back, caller, callee)
    ensures CallBacked(x, t, rest, back + NewFor(y, t, caller), caller, callee)
  {
    if x.call.Some? && OutTo(x, x.call.value.callId, callee) {
      var c, sent := x.call.value.callId, NewFor(y, t, caller);
      SendsForIsNewFor(y, e, t, caller);
      CalleeLeavesLoudly(y, e, t, c, caller, fwd, rest);
      CalleeConsentsToItsCall(y, e, t, c, caller, sent);
      HasEndAppend(back, sent, c);
      if rest != fwd { HasEndDrop(fwd, c); }
      var before, after := CalleeCarriesOn(y, c, caller), CalleeCarriesOn(t, c, caller);
      if before && !after { assert IsEnd(sent[0], c); }
      ConsentsBackedAppend(back, sent, c, before, after);
    }
  }

  // --- whole runs ---

  lemma MoveOfXKeepsBacked(p: Pair, e: Event, rest: seq<Signal>)
    requires Backed(p) && InboxStep(e, Y, p.yx, rest) && FreshFor(e, p.mintedX, p.mintedY)
    ensures Backed(StepX(p, e, Y, rest))
  {
    var t := Step(p.x, e);
    StepKeepsValid(p.x, e);
    StepIsPermitted(p.x, e);
    CallerMoveKeepsIds(p.x, e, t, p.y, p.xy, p.yx, rest, p.mintedX, p.mintedY, X, Y);
    CalleeMoveKeepsIds(p.x, e, t, p.y, p.yx, p.xy, rest, p.mintedY, p.mintedX, Y, X);
    CallerMoveKeepsBacked(p.x, e, t, p.y, p.xy, p.yx, rest, p.mintedX, p.mintedY, X, Y);
    CalleeMoveKeepsBacked(p.x, e, t, p.y, p.yx, p.xy, rest, Y, X);
  }

  // The same with the names exchanged.
  lemma MoveOfYKeepsBacked(p: Pair, e: Event, rest: seq<Signal>)
    requires Backed(p) && InboxStep(e, X, p.xy, rest) && FreshFor(e, p.mintedY, p.mintedX)
    ensures Backed(Flip(StepX(Flip(p), e, X, rest)))
  {
    var t := Step(p.y, e);
    StepKeepsValid(p.y, e);
    StepIsPermitted(p.y, e);
    CallerMoveKeepsIds(p.y, e, t, p.x, p.yx, p.xy, rest, p.mintedY, p.mintedX, Y, X);
    CalleeMoveKeepsIds(p.y, e, t, p.x, p.xy, p.yx, rest, p.mintedX, p.mintedY, X, Y);
    CallerMoveKeepsBacked(p.y, e, t, p.x, p.yx, p.xy, rest, p.mintedY, p.mintedX, Y, X);
    CalleeMoveKeepsBacked(p.y, e, t, p.x, p.xy, p.yx, rest, X, Y);
  }

  lemma StepKeepsBacked(p: Pair, e: PairEvent)
    requires Backed(p) && Enabled(p, e)
    ensures Backed(PairStep(p, e))
  {
    match e
    case AtX(ev) => MoveOfXKeepsBacked(p, ev, p.yx);
    case AtY(ev) => MoveOfYKeepsBacked(p, ev, p.xy);
    case DeliverToX(id, at, now) => MoveOfXKeepsBacked(p, Receive(Contact(id, Y), p.yx[0], at, now), p.yx[1..]);
    case DeliverToY(id, at, now) => MoveOfYKeepsBacked(p, Receive(Contact(id, X), p.xy[0], at, now), p.xy[1..]);
  }

  predicate PairRun(p: Pair, events: seq<PairEvent>, q: Pair)
    decreases |events|
  {
    if events == [] then q == p
    else Enabled(p, events[0]) && PairRun(PairStep(p, events[0]), events[1..], q)
  }

  lemma {:induction false} RunKeepsBacked(p: Pair, events: seq<PairEvent>, q: Pair)
    requires Backed(p) && PairRun(p, events, q)
    ensures Backed(q)
    decreases |events|
  {
    if events != [] {
      StepKeepsBacked(p, events[0]);
      RunKeepsBacked(PairStep(p, events[0]), events[1..], q);
    }
  }

  // Whatever either user, the timers, failures and third parties do: a caller past ringing
  // has a callee past ringing on the same call, or the end of it in its inbox.
  lemma CallerIsNeverAlone(events: seq<PairEvent>, q: Pair, c: CallId)
    requires PairRun(START, events, q)
    ensures OutTo(q.x, c, Y) && PastRinging(q.x.status) ==> CalleeCarriesOn(q.y, c, X) || HasEnd(q.yx, c)
    ensures OutTo(q.y, c, X) && PastRinging(q.y.status) ==> CalleeCarriesOn(q.x, c, Y) || HasEnd(q.xy, c)
  {
    RunKeepsBacked(START, events, q);
  }

  // And that end does its work: on delivery the caller's call is over.
  lemma DeliveredEndEndsTheCall(p: Pair, c: CallId, contactId: string, sentAt: int, now: int)
    requires Valid(p.x) && OutTo(p.x, c, Y) && PastRinging(p.x.status)
    requires |p.yx| > 0 && IsEnd(p.yx[0], c)
    ensures PairStep(p, DeliverToX(contactId, sentAt, now)).x.call.None?
  {
    var e := Receive(Contact(contactId, Y), p.yx[0], sentAt, now);
    StepIsPermitted(p.x, e);
    assert HeardFor(p.x, e) && e.signal.End?;
  }
}
