// When a pair ends up verified on both sides, and that the exchange does not fall quiet.
module VerificationConverges {
  import opened ContactCard
  import opened Options
  import opened Verification

  // This person has pressed for the peer's current card and can be reached.
  predicate Ready(p: Person, peer: Card) {
    && p.contact.Some? && !p.contact.value.blocked && p.session && p.own.handle != peer.handle
    && p.contact.value.localConfirmedAt.Some? && Held(p.contact.value) == Some(peer)
  }

  predicate BothReady(p: Pair) {
    Ready(p.a, p.b.own) && Ready(p.b, p.a.own)
  }

  predicate HasPeer(p: Person) {
    p.contact.Some? && IsMutuallyVerified(p.contact.value)
  }

  // The row is still as it was read.
  predicate Current(p: Person, s: Sight) {
    p.contact == Some(s.row)
  }

  predicate SendsFor(p: Person, card: Card) {
    exists x :: x in p.sends && x.proof.card == card
  }

  // An answer for this card has yet to be taken up.
  predicate OwesFor(p: Person, card: Card) {
    exists d :: d in p.dues && d.again && Held(d.sight.row) == Some(card)
  }

  predicate Underway(p: Person, card: Card) {
    SendsFor(p, card) || OwesFor(p, card)
  }

  // Everything but resets, blocks, sends that get lost and reads overtaken by a write.
  predicate SteadyAct(p: Person, peer: Card, act: Action) {
    match act
    case Look => true
    case Scan(card, _, existing) => card == peer && existing.Some? && Current(p, existing.value)
    case Press(s, _) => Current(p, s)
    case Receive(s, _, _) => Current(p, s)
    case Proceed(_) => true
    case Resend(s) => Current(p, s)
    case Flush(s) => Current(p, s)
    case Retry(s) => Current(p, s)
    case Seal(_, works) => works
    case Finish(_, arrives, _) => arrives
    case SessionArrives => true
    case Restart => p.sends == [] && p.dues == []
    case _ => false
  }

  predicate Steady(e: Event, p: Pair) {
    match e
    case Acts(A, act) => SteadyAct(p.a, p.b.own, act)
    case Acts(B, act) => SteadyAct(p.b, p.a.own, act)
    case Delivers(A, s, _) => Current(p.a, s)
    case Delivers(B, s, _) => Current(p.b, s)
    case Loses(_) => false
  }

  predicate SteadyRun(h: CardHash, p: Pair, events: seq<Event>, q: Pair)
    decreases |events|
  {
    if events == [] then q == p
    else Possible(p, events[0]) && Steady(events[0], p) && SteadyRun(h, Step(h, p, events[0]), events[1..], q)
  }

  lemma ScanKeepsReady(p: Person, peer: Card, starts: bool, s: Sight)
    requires Ready(p, peer) && Current(p, s)
    ensures var q := OnScan(p, peer, starts, Some(s));
      q.contact == p.contact && q.session && q.own == p.own && q.sends == p.sends
  {
    assert !MustStart(p, peer, Some(s)) && !Changed(Some(s), peer);
  }

  lemma ServiceKeepsReady(h: CardHash, p: Person, peer: Card, s: Sight, hash: Hash, now: int)
    requires Ready(p, peer) && Current(p, s)
    ensures var q := OnPress(p, s, now); Ready(q, peer) && q.own == p.own && (HasPeer(p) ==> HasPeer(q))
    ensures var q := OnConfirm(h, p, s, hash, now); Ready(q, peer) && q.own == p.own && (HasPeer(p) ==> HasPeer(q))
  {
  }

  lemma SteadyKeepsReady(h: CardHash, p: Person, peer: Card, act: Action)
    requires Ready(p, peer) && Enabled(p, act) && SteadyAct(p, peer, act)
    ensures var q := Act(h, p, act).0; Ready(q, peer) && q.own == p.own && (HasPeer(p) ==> HasPeer(q))
  {
    match act {
      case Scan(_, starts, existing) => ScanKeepsReady(p, peer, starts, existing.value);
      case Press(s, now) => ServiceKeepsReady(h, p, peer, s, [], now);
      case Receive(s, hash, now) => ServiceKeepsReady(h, p.(session := true), peer, s, hash, now);
      case _ =>
    }
  }

  lemma OthersStay<T>(s: seq<T>, i: nat, x: T)
    requires i < |s| && x in s && x != s[i]
    ensures x in s[..i] + s[i + 1..]
  {
    var k :| 0 <= k < |s| && s[k] == x;
    assert k < i ==> (s[..i] + s[i + 1..])[k] == x;
    assert k > i ==> (s[..i] + s[i + 1..])[k - 1] == x;
  }

  // Sends are added at the end, marked as sealed, or go out.
  lemma SendStaysOrGoesOut(h: CardHash, p: Person, peer: Card, act: Action)
    requires Ready(p, peer) && Enabled(p, act) && SteadyAct(p, peer, act) && SendsFor(p, peer)
    ensures var (q, out) := Act(h, p, act); SendsFor(q, peer) || out == Some(h(peer))
  {
    var q := Act(h, p, act).0;
    var x :| x in p.sends && x.proof.card == peer;
    match act {
      case Seal(i, _) =>
        var k :| 0 <= k < |p.sends| && p.sends[k] == x;
        assert q.sends[k] in q.sends && q.sends[k].proof == x.proof;
      case Finish(i, _, _) => if x != p.sends[i] { OthersStay(p.sends, i, x); assert x in q.sends; }
      case _ => assert x in q.sends;
    }
  }

  // An answer that is due stays so until it is taken up.
  lemma DueStaysOrIsTaken(h: CardHash, p: Person, peer: Card, act: Action)
    requires Ready(p, peer) && Enabled(p, act) && SteadyAct(p, peer, act) && OwesFor(p, peer)
    ensures Underway(Act(h, p, act).0, peer)
  {
    var q := Act(h, p, act).0;
    var d :| d in p.dues && d.again && Held(d.sight.row) == Some(peer);
    match act {
      case Proceed(i) =>
        if d == p.dues[i] {
          assert q.sends[|p.sends|] in q.sends && q.sends[|p.sends|].proof.card == peer;
        } else {
          OthersStay(p.dues, i, d);
          assert d in q.dues;
        }
      case _ => assert d in q.dues;
    }
  }

  lemma UnderwayStaysOrGoesOut(h: CardHash, p: Person, peer: Card, act: Action)
    requires Ready(p, peer) && Enabled(p, act) && SteadyAct(p, peer, act) && Underway(p, peer)
    ensures var (q, out) := Act(h, p, act); Underway(q, peer) || out == Some(h(peer))
  {
    if SendsFor(p, peer) { SendStaysOrGoesOut(h, p, peer, act); } else { DueStaysOrIsTaken(h, p, peer, act); }
  }

  // A proof of one's own card records the peer and makes an answer due.
  lemma ReceiptIsAnswered(h: CardHash, p: Person, peer: Card, s: Sight, now: int)
    requires Ready(p, peer) && s in p.seen && Current(p, s)
    ensures var q := Act(h, p, Receive(s, h(p.own), now)).0;
      && HasPeer(q) && q.seen == p.seen && q.sends == p.sends && q.dues == p.dues + [Due(s, true)]
      && OwesFor(q, peer)
  {
    var q := Act(h, p, Receive(s, h(p.own), now)).0;
    assert Due(s, true) in q.dues && Held(s.row) == Some(peer);
  }

  // B has the peer's confirm, and A has too or will when what is under way to it arrives.
  predicate Answered(h: CardHash, p: Pair) {
    BothReady(p) && HasPeer(p.b) && (HasPeer(p.a) || h(p.a.own) in p.ba || Underway(p.b, p.a.own))
  }

  lemma ActsOfBKeepAnswered(h: CardHash, p: Pair, act: Action)
    requires Answered(h, p) && Enabled(p.b, act) && SteadyAct(p.b, p.a.own, act)
    ensures Answered(h, Mirror(ActsA(h, Mirror(p), act)))
  {
    SteadyKeepsReady(h, p.b, p.a.own, act);
    if Underway(p.b, p.a.own) { UnderwayStaysOrGoesOut(h, p.b, p.a.own, act); }
  }

  lemma SteadyKeepsAnswered(h: CardHash, p: Pair, e: Event)
    requires Answered(h, p) && Possible(p, e) && Steady(e, p)
    ensures Answered(h, Step(h, p, e))
  {
    match e {
      case Acts(A, act) => SteadyKeepsReady(h, p.a, p.b.own, act);
      case Acts(B, act) => ActsOfBKeepAnswered(h, p, act);
      case Delivers(A, s, now) =>
        if p.ba != [] {
          SteadyKeepsReady(h, p.a, p.b.own, Receive(s, p.ba[0], now));
          if p.ba[0] == h(p.a.own) { ReceiptIsAnswered(h, p.a, p.b.own, s, now); }
          assert forall x :: x in p.ba && x != p.ba[0] ==> x in p.ba[1..];
        }
      case Delivers(B, s, now) =>
        if p.ab != [] { ActsOfBKeepAnswered(h, p.(ab := p.ab[1..]), Receive(s, p.ab[0], now)); }
    }
  }

  lemma {:induction false} SteadyRunAnswered(h: CardHash, p: Pair, events: seq<Event>, q: Pair)
    requires Answered(h, p) && SteadyRun(h, p, events, q)
    ensures Answered(h, q)
    decreases |events|
  {
    if events != [] {
      SteadyKeepsAnswered(h, p, events[0]);
      SteadyRunAnswered(h, Step(h, p, events[0]), events[1..], q);
    }
  }

  // Both have pressed with the other's current card: a delivered confirm is answered, and from
  // then on, whatever else happens short of a reset or a loss, the receiver stays verified and
  // the other side is verified once every answer has gone out and what is in transit to it has
  // arrived.
  lemma ConfirmAndReplyVerify(h: CardHash, p: Pair, s: Sight, now: int, events: seq<Event>, q: Pair)
    requires BothReady(p) && p.ab != [] && p.ab[0] == h(p.b.own) && s in p.b.seen && Current(p.b, s)
    requires SteadyRun(h, Step(h, p, Delivers(B, s, now)), events, q)
    ensures HasPeer(q.b) && (q.ba == [] && q.b.sends == [] && q.b.dues == [] ==> HasPeer(q.a))
  {
    var r := Step(h, p, Delivers(B, s, now));
    ReceiptIsAnswered(h, p.b, p.a.own, s, now);
    SteadyKeepsReady(h, p.b, p.a.own, Receive(s, h(p.b.own), now));
    SteadyRunAnswered(h, r, events, q);
  }

  // --- the echo ---

  // Two verified people with nothing under way but one confirm to B.
  predicate Echoing(h: CardHash, p: Pair, s: Sight, t: Sight) {
    && BothReady(p) && HasPeer(p.a) && HasPeer(p.b)
    && p.ab == [h(p.b.own)] && p.ba == [] && Still(p.a) && Still(p.b)
    && s in p.b.seen && Current(p.b, s) && t in p.a.seen && Current(p.a, t)
  }

  predicate Still(p: Person) {
    p.sends == [] && p.dues == []
  }

  // B's answer: received, taken up, sealed, sent.
  function Answer(s: Sight, now: int): seq<Event> {
    [Delivers(B, s, now), Acts(B, Proceed(0)), Acts(B, Seal(0, true)), Acts(B, Finish(0, true, true))]
  }

  lemma PersonTakesUp(h: CardHash, p: Person, peer: Card, s: Sight, now: int) returns (q: Person)
    requires Ready(p, peer) && HasPeer(p) && Still(p) && s in p.seen && Current(p, s)
    ensures q == p.(sentThisRun := true, sends := [Sending(Proof(peer, s.press, s.era), false)])
    ensures var p1 := Act(h, p, Receive(s, h(p.own), now)).0;
      && Act(h, p, Receive(s, h(p.own), now)).1 == None && Enabled(p1, Proceed(0))
      && Act(h, p1, Proceed(0)) == (q, None)
  {
    var p1 := Act(h, p, Receive(s, h(p.own), now)).0;
    ReceiptIsAnswered(h, p, peer, s, now);
    assert p1 == p.(dues := [Due(s, true)]);
    assert p1.dues[..0] + p1.dues[1..] == [];
    q := Act(h, p1, Proceed(0)).0;
  }

  lemma PersonSends(h: CardHash, p: Person, pr: Proof) returns (q: Person)
    requires p.sends == [Sending(pr, false)] && p.session
    ensures q == p.(sends := [], confirmError := false, vouched := p.vouched + {pr})
    ensures Enabled(p, Seal(0, true))
    ensures var p1 := Act(h, p, Seal(0, true)).0;
      && Act(h, p, Seal(0, true)).1 == None && Enabled(p1, Finish(0, true, true))
      && Act(h, p1, Finish(0, true, true)) == (q, Some(h(pr.card)))
  {
    var p1 := Act(h, p, Seal(0, true)).0;
    assert p1.sends == [Sending(pr, true)];
    assert p1.sends[..0] + p1.sends[1..] == [];
    q := Act(h, p1, Finish(0, true, true)).0;
  }

  // The exchange does not fall quiet by itself: between two verified people one confirm in
  // transit is answered by another, and that one again, for ever.
  lemma ConfirmsEcho(h: CardHash, p: Pair, s: Sight, t: Sight, now: int) returns (q: Pair)
    requires Echoing(h, p, s, t)
    ensures Runs(h, p, Answer(s, now), q) && Echoing(h, Mirror(q), t, s)
  {
    var taken := PersonTakesUp(h, p.b, p.a.own, s, now);
    var b := PersonSends(h, taken, Proof(p.a.own, s.press, s.era));
    var e := Answer(s, now);
    var p1 := Step(h, p, e[0]);
    var p2 := Step(h, p1, e[1]);
    var p3 := Step(h, p2, e[2]);
    q := Step(h, p3, e[3]);
    assert q == p.(b := b, ab := [], ba := [h(p.a.own)]);
    assert e[1..][1..] == e[2..] && e[2..][1..] == [e[3]] && [e[3]][1..] == [];
    assert Runs(h, q, [], q) && Runs(h, p3, [e[3]], q) && Runs(h, p2, e[2..], q) && Runs(h, p1, e[1..], q);
  }
}
