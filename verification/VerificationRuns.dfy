// Where a proof and the press behind it part: a card with other prekeys scanned under a
// standing confirm, and a press overtaken by a reset.
module VerificationRuns {
  import opened ContactCard
  import opened Options
  import opened Verification
  import opened VerificationProofs

  // --- whenever it happens ---

  function SightOf(p: Person): Sight
    requires p.contact.Some?
  {
    Sight(p.contact.value, p.era, p.press)
  }

  // A proof of one's own card, received on a confirmed row, is answered with a proof from it.
  lemma ReceiptAnswersFrom(h: CardHash, p: Person, t: Sight, now: int)
    requires t in p.seen && !t.row.blocked && t.row.localConfirmedAt.Some? && Held(t.row).Some?
    ensures var p1 := Act(h, p, Receive(t, h(p.own), now)).0;
      && Enabled(p1, Proceed(|p.dues|))
      && var p2 := Act(h, p1, Proceed(|p.dues|)).0;
      p2.sends == p.sends + [Sending(Proof(Held(t.row).value, t.press, t.era), false)]
  {
    var p1 := Act(h, p, Receive(t, h(p.own), now)).0;
    assert p1.dues[|p.dues|] == Due(t, true);
  }

  // The row after a scan of other prekeys under a confirm, unblocked and read again.
  lemma RescannedSight(h: CardHash, p: Person, card: Card, starts: bool, s: Sight) returns (q: Person)
    requires Fits(p, SameCard) && Enabled(p, Scan(card, starts, Some(s)))
    requires s.era == p.era && SpoilsScan(p, card, starts, Some(s), SameCard)
    ensures q == Act(h, Act(h, p, Scan(card, starts, Some(s))).0, Block(false)).0
    ensures q.contact.Some? && q.own == p.own && q.sends == p.sends && q.dues == p.dues
    ensures var t := SightOf(q);
      && !t.row.blocked && t.row.localConfirmedAt.Some? && Held(t.row) == Some(card)
      && ProofRests(Proof(card, t.press, t.era), SinceReset) && !ProofRests(Proof(card, t.press, t.era), SameCard)
  {
    assert SightHolds(p, s, SameCard);
    assert Held(ScannedRow(p, card, Some(s))) == Some(card);
    q := Act(h, Act(h, p, Scan(card, starts, Some(s))).0, Block(false)).0;
  }

  // Whoever scans other prekeys under a confirm answers the peer's next confirm with a proof
  // of a card that was not the one pressed for.
  lemma RescanVouchesUnpressed(h: CardHash, p: Person, card: Card, starts: bool, s: Sight, now: int)
    requires Fits(p, SameCard) && Enabled(p, Scan(card, starts, Some(s)))
    requires s.era == p.era && SpoilsScan(p, card, starts, Some(s), SameCard)
    ensures var p2 := Act(h, Act(h, p, Scan(card, starts, Some(s))).0, Block(false)).0;
      && p2.contact.Some?
      && var p3, t := Act(h, p2, Look).0, SightOf(p2);
      && Enabled(p3, Receive(t, h(p.own), now))
      && var p4 := Act(h, p3, Receive(t, h(p.own), now)).0;
      && Enabled(p4, Proceed(|p.dues|))
      && var p5 := Act(h, p4, Proceed(|p.dues|)).0;
      && |p5.sends| == |p.sends| + 1
      && var pr := p5.sends[|p.sends|].proof;
      pr.card == card && ProofRests(pr, SinceReset) && !ProofRests(pr, SameCard)
  {
    var p2 := RescannedSight(h, p, card, starts, s);
    ReceiptAnswersFrom(h, Act(h, p2, Look).0, SightOf(p2), now);
  }

  // A resend lists the row, a reset and a new session come first, and the proof goes out over
  // a row that is no longer confirmed.
  lemma ResendOvertakenByReset(h: CardHash, p: Person)
    requires p.contact.Some? && AwaitsPeer(p.contact.value) && !p.contact.value.blocked
    requires Held(p.contact.value).Some?
    ensures var s := SightOf(p);
      var p1 := Act(h, p, Look).0;
      && Enabled(p1, IdentityReset(s))
      && var p2 := Act(h, Act(h, p1, IdentityReset(s)).0, SessionArrives).0;
      && Enabled(p2, Resend(s))
      && var p3 := Act(h, p2, Resend(s)).0;
      && |p3.sends| == |p.sends| + 1 && Some(p3.sends[|p.sends|].proof.card) == Held(p.contact.value)
      && p3.contact.Some? && p3.contact.value.localConfirmedAt.None?
  {
  }

  // A press on a screen that a reset has overtaken confirms the row after the reset.
  lemma PressOvertakenByReset(h: CardHash, p: Person, now: int)
    requires p.contact.Some?
    ensures var s := SightOf(p);
      var p1 := Act(h, p, Look).0;
      && Enabled(p1, IdentityReset(s))
      && var p2 := Act(h, p1, IdentityReset(s)).0;
      && Enabled(p2, Press(s, now))
      && var p3 := Act(h, p2, Press(s, now)).0;
      && p3.contact.Some? && p3.contact.value.localConfirmedAt == Some(now) && !ContactFits(p3, SinceReset)
  {
  }

  // --- a run ---

  lemma {:induction false} RunsOn(h: CardHash, p: Pair, events: seq<Event>, mid: Pair, e: Event)
    requires Runs(h, p, events, mid) && Possible(mid, e)
    ensures Runs(h, p, events + [e], Step(h, mid, e))
    decreases |events|
  {
    if events == [] {
      assert [e][1..] == [];
      assert Runs(h, Step(h, p, e), [], Step(h, mid, e));
    } else {
      RunsOn(h, Step(h, p, events[0]), events[1..], mid, e);
      assert (events + [e])[1..] == events[1..] + [e];
    }
  }

  // The same card but for its prekeys.
  predicate Renewed(card: Card, other: Card) {
    other.handle == card.handle && other.identityKey == card.identityKey && PrekeysOf(other) != PrekeysOf(card)
  }

  function RowFor(card: Card, confirmed: Option<int>): Contact {
    Contact(0, card.handle, card.identityKey, Some(PrekeysOf(card)), ConnectedOnly, None, confirmed, None, false)
  }

  // Someone who scanned a card, and who then pressed for it.
  function HasScanned(own: Card, card: Card, seen: set<Sight>): Person {
    Newcomer(own).(contact := Some(RowFor(card, None)), made := 1, seen := seen)
  }

  function PressFor(card: Card): Pressed {
    Pressed(RowFor(card, None), 0, 0)
  }

  function HasPressed(own: Card, scanned: Card, pressed: Card, seen: set<Sight>): Person {
    Newcomer(own).(contact := Some(RowFor(scanned, Some(7))), made := 1, seen := seen, press := Some(PressFor(pressed)))
  }

  function SightBefore(card: Card): Sight {
    Sight(RowFor(card, None), 0, None)
  }

  function SightAfter(scanned: Card, pressed: Card): Sight {
    Sight(RowFor(scanned, Some(7)), 0, Some(PressFor(pressed)))
  }

  lemma ScanOfStranger(own: Card, card: Card)
    requires own.handle != card.handle && !Precedes(own.identityKey, card.identityKey)
    ensures OnScan(Newcomer(own), card, true, None) == HasScanned(own, card, {})
  {
  }

  lemma RescanSwaps(own: Card, was: Card, card: Card)
    requires own.handle != card.handle && !Precedes(own.identityKey, card.identityKey) && Renewed(was, card)
    ensures var seen := {SightBefore(was), SightAfter(was, was)};
      OnScan(HasPressed(own, was, was, seen), card, true, Some(SightAfter(was, was))) ==
          HasPressed(own, card, was, seen)
  {
  }

  // Up to the press.
  lemma PressesForOld(h: CardHash, a: Card, was: Card, b: Person) returns (events: seq<Event>)
    requires a.handle != was.handle && !Precedes(a.identityKey, was.identityKey) && Proper(was)
    ensures Runs(h, Pair(Newcomer(a), b, [], []), events, Pair(HasPressed(a, was, was, {SightBefore(was)}), b, [], []))
  {
    var p0 := Pair(Newcomer(a), b, [], []);
    ScanOfStranger(a, was);
    var e1, e2, e3 := Acts(A, Scan(was, true, None)), Acts(A, Look), Acts(A, Press(SightBefore(was), 7));
    var e4 := Acts(A, Proceed(0));
    var p1 := Pair(HasScanned(a, was, {}), b, [], []);
    assert Step(h, p0, e1) == p1;
    var p2 := Pair(HasScanned(a, was, {SightBefore(was)}), b, [], []);
    assert Step(h, p1, e2) == p2;
    var p4 := Pair(HasPressed(a, was, was, {SightBefore(was)}), b, [], []);
    var p3 := p4.(a := p4.a.(dues := [Due(SightAfter(was, was), false)]));
    assert Step(h, p2, e3) == p3;
    assert p3.a.dues[..0] + p3.a.dues[1..] == [];
    assert Step(h, p3, e4) == p4;
    RunsOn(h, p0, [], p0, e1);
    RunsOn(h, p0, [] + [e1], p1, e2);
    RunsOn(h, p0, [] + [e1] + [e2], p2, e3);
    RunsOn(h, p0, [] + [e1] + [e2] + [e3], p3, e4);
    events := [] + [e1] + [e2] + [e3] + [e4];
  }

  // On to the scan of the renewed card.
  lemma RescansRenewed(h: CardHash, a: Card, was: Card, card: Card, b: Person)
      returns (events: seq<Event>, seen: set<Sight>)
    requires a.handle != was.handle && !Precedes(a.identityKey, was.identityKey) && Proper(was)
    requires Renewed(was, card) && Proper(card)
    ensures Runs(h, Pair(Newcomer(a), b, [], []), events, Pair(HasPressed(a, card, was, seen), b, [], []))
    ensures SightAfter(card, was) in seen
  {
    var p0 := Pair(Newcomer(a), b, [], []);
    events := PressesForOld(h, a, was, b);
    var p3 := Pair(HasPressed(a, was, was, {SightBefore(was)}), b, [], []);
    seen := {SightBefore(was), SightAfter(was, was)};
    var p4 := Pair(HasPressed(a, was, was, seen), b, [], []);
    assert {SightBefore(was)} + {SightAfter(was, was)} == seen;
    assert Step(h, p3, Acts(A, Look)) == p4;
    RunsOn(h, p0, events, p3, Acts(A, Look));
    events := events + [Acts(A, Look)];
    RescanSwaps(a, was, card);
    var p5 := Pair(HasPressed(a, card, was, seen), b, [], []);
    var e5 := Acts(A, Scan(card, true, Some(SightAfter(was, was))));
    assert Step(h, p4, e5) == p5;
    RunsOn(h, p0, events, p4, e5);
    events := events + [e5];
    var p6 := Pair(HasPressed(a, card, was, seen + {SightAfter(card, was)}), b, [], []);
    assert Step(h, p5, Acts(A, Look)) == p6;
    RunsOn(h, p0, events, p5, Acts(A, Look));
    events := events + [Acts(A, Look)];
    seen := seen + {SightAfter(card, was)};
  }

  function Swapped(card: Card, was: Card): Proof {
    Proof(card, Some(PressFor(was)), 0)
  }

  // A's resend after the relay connected: taken up, sealed and sent.
  lemma ResendGoesOut(h: CardHash, p: Pair, a: Card, card: Card, was: Card, seen: set<Sight>)
      returns (events: seq<Event>, q: Pair)
    requires p.a == HasPressed(a, card, was, seen) && SightAfter(card, was) in seen && p.ab == []
    ensures Runs(h, p, events, q) && q.b == p.b && q.ba == p.ba && q.ab == [h(card)]
    ensures q.a.vouched == {Swapped(card, was)}
  {
    var e1, e2 := Acts(A, SessionArrives), Acts(A, Resend(SightAfter(card, was)));
    var p1 := p.(a := p.a.(session := true));
    assert Step(h, p, e1) == p1;
    var p2 := p1.(a := p1.a.(sentThisRun := true, sends := [Sending(Swapped(card, was), false)]));
    assert Held(RowFor(card, Some(7))) == Some(card);
    assert Step(h, p1, e2) == p2;
    var p3 := p2.(a := p2.a.(sends := [Sending(Swapped(card, was), true)]));
    assert Step(h, p2, Acts(A, Seal(0, true))) == p3;
    q := Step(h, p3, Acts(A, Finish(0, true, true)));
    RunsOn(h, p, [], p, e1);
    RunsOn(h, p, [] + [e1], p1, e2);
    RunsOn(h, p, [] + [e1] + [e2], p2, Acts(A, Seal(0, true)));
    RunsOn(h, p, [] + [e1] + [e2] + [Acts(A, Seal(0, true))], p3, Acts(A, Finish(0, true, true)));
    events := [] + [e1] + [e2] + [Acts(A, Seal(0, true))] + [Acts(A, Finish(0, true, true))];
  }

  lemma {:induction false} RunsJoin(h: CardHash, p: Pair, events: seq<Event>, mid: Pair, more: seq<Event>, q: Pair)
    requires Runs(h, p, events, mid) && Runs(h, mid, more, q)
    ensures Runs(h, p, events + more, q)
    decreases |events|
  {
    if events == [] {
      assert events + more == more;
    } else {
      RunsJoin(h, Step(h, p, events[0]), events[1..], mid, more, q);
      assert (events + more)[1..] == events[1..] + more;
    }
  }

  // B scans A's card and takes what arrives.
  lemma PeerRecords(h: CardHash, p: Pair, a: Card, b: Card) returns (events: seq<Event>, q: Pair)
    requires p.b == Newcomer(b) && p.ab == [h(b)] && a.handle != b.handle && Proper(a)
    ensures Runs(h, p, events, q) && q.a == p.a && q.b.own == b
    ensures q.b.contact.Some? && q.b.contact.value.peerConfirmedAt.Some?
  {
    var e1, e2, e3 := Acts(B, Scan(a, true, None)), Acts(B, Look), Delivers(B, SightBefore(a), 9);
    var p1 := Step(h, p, e1);
    assert p1.b.contact == Some(RowFor(a, None)) && p1.b.press == None && p1.b.era == 0;
    var p2 := Step(h, p1, e2);
    q := Step(h, p2, e3);
    RunsOn(h, p, [], p, e1);
    RunsOn(h, p, [] + [e1], p1, e2);
    RunsOn(h, p, [] + [e1] + [e2], p2, e3);
    events := [] + [e1] + [e2] + [e3];
  }

  // From strangers: A scans a card of B, presses, scans B's card again with other prekeys, and
  // sends the confirm it owes. B records it, though A never pressed with B's card held.
  lemma RescanConfirmsOtherCard(h: CardHash, a: Card, b: Card, was: Card) returns (events: seq<Event>, q: Pair)
    requires Proper(a) && Proper(b) && Proper(was) && Renewed(was, b)
    requires a.handle != b.handle && !Precedes(a.identityKey, b.identityKey)
    ensures Runs(h, Strangers(a, b), events, q)
    ensures ConfirmIsSound(q.b, q.a, Ever) && !ConfirmIsSound(q.b, q.a, SameCard)
  {
    var first, seen := RescansRenewed(h, a, was, b, Newcomer(b));
    var p1 := Pair(HasPressed(a, b, was, seen), Newcomer(b), [], []);
    var second, p2 := ResendGoesOut(h, p1, a, b, was, seen);
    var third, p3 := PeerRecords(h, p2, a, b);
    q := p3;
    RunsJoin(h, Strangers(a, b), first, p1, second, p2);
    RunsJoin(h, Strangers(a, b), first + second, p2, third, q);
    events := first + second + third;
    assert Swapped(b, was) in q.a.vouched && ProofRests(Swapped(b, was), Ever);
    forall pr | pr in q.a.vouched ensures !ProofRests(pr, SameCard) {
      assert pr == Swapped(b, was);
    }
  }
}
