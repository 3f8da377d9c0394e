// What a proof of verification rests on: in every run, in runs where no read goes stale, and
// in runs where no card is scanned over a standing confirm.
module VerificationProofs {
  import opened ContactCard
  import opened Options
  import opened Verification

  // Different proper cards have different hashes.
  ghost predicate CollisionFree(h: CardHash) {
    forall c, d :: Proper(c) && Proper(d) && h(c) == h(d) ==> c == d
  }

  // The card hash inherits this from the hash function, the layout being injective.
  lemma CardHashIsCollisionFree(hash: Bytes -> Bytes)
    requires forall x, y :: hash(x) == hash(y) ==> x == y
    ensures CollisionFree(c => hash(Preimage(c)))
  {
    var h := (c: Card) => hash(Preimage(c));
    forall c, d | Proper(c) && Proper(d) && h(c) == h(d) ensures c == d { PreimageIsInjective(c, d); }
  }

  // --- what a confirm rests on ---

  // A press at some time; a press since the last reset for this identity key; such a press
  // with these prekeys held.
  datatype Level = Ever | SinceReset | SameCard

  // What a press has to match.
  datatype Told = Told(handle: seq<Text.Unit>, identity: Bytes, prekeys: Option<Prekeys>)

  function ToldByRow(c: Contact): Told {
    Told(c.handle, c.identity, c.prekeys)
  }

  function ToldByCard(c: Card): Told {
    Told(c.handle, c.identityKey, Some(PrekeysOf(c)))
  }

  predicate Rests(press: Option<Pressed>, told: Told, era: nat, level: Level) {
    && press.Some?
    && (level != Ever ==>
          && press.value.seen == era && press.value.landed == era
          && press.value.row.handle == told.handle && press.value.row.identity == told.identity)
    && (level == SameCard ==> press.value.row.prekeys == told.prekeys)
  }

  predicate ProofRests(pr: Proof, level: Level) {
    Proper(pr.card) && Rests(pr.press, ToldByCard(pr.card), pr.era, level)
  }

  predicate RowRests(c: Contact, press: Option<Pressed>, era: nat, level: Level) {
    c.localConfirmedAt.Some? ==> Rests(press, ToldByRow(c), era, level)
  }

  // --- one person ---

  // Verified exactly with both timestamps, and dated exactly then.
  predicate StatusFits(c: Contact) {
    && (c.status == Verified <==> IsMutuallyVerified(c))
    && (c.verifiedAt.Some? <==> c.status == Verified)
  }

  // What a proof may be taken up from.
  predicate Yields(c: Contact, press: Option<Pressed>, era: nat, level: Level) {
    RowRests(c, press, era, level) && (Held(c).Some? ==> Proper(Held(c).value))
  }

  // A read of this era still tells of the row as it is, but for prekeys and what was added.
  predicate StillTells(contact: Option<Contact>, row: Contact) {
    && contact.Some? && contact.value.id == row.id
    && contact.value.handle == row.handle && contact.value.identity == row.identity
    && (row.localConfirmedAt.Some? ==> contact.value.localConfirmedAt.Some?)
  }

  predicate SightHolds(p: Person, s: Sight, level: Level) {
    && Yields(s.row, s.press, s.era, level)
    && s.row.id < p.made && s.era <= p.era && (s.era == p.era ==> StillTells(p.contact, s.row))
  }

  predicate SightsFit(p: Person, level: Level) {
    forall s :: s in p.seen ==> SightHolds(p, s, level) && StatusFits(s.row)
  }

  predicate DuesFit(p: Person, level: Level) {
    forall i :: 0 <= i < |p.dues| ==>
      SightHolds(p, p.dues[i].sight, level) && p.dues[i].sight.row.localConfirmedAt.Some?
  }

  predicate SendsFit(sends: seq<Sending>, level: Level) {
    forall i :: 0 <= i < |sends| ==> ProofRests(sends[i].proof, level)
  }

  predicate VouchedFit(vouched: set<Proof>, level: Level) {
    forall pr :: pr in vouched ==> ProofRests(pr, level)
  }

  predicate ContactFits(p: Person, level: Level) {
    p.contact.Some? ==>
      && StatusFits(p.contact.value) && p.contact.value.id < p.made
      && Yields(p.contact.value, p.press, p.era, level)
  }

  predicate Fits(p: Person, level: Level) {
    && Proper(p.own) && ContactFits(p, level) && SightsFit(p, level) && DuesFit(p, level)
    && SendsFit(p.sends, level) && VouchedFit(p.vouched, level)
  }

  // --- the exact condition ---

  // The press comes from a screen whose read is of an earlier era; or it is written to a row
  // that holds other prekeys by now.
  predicate SpoilsPress(p: Person, s: Sight, level: Level) {
    s.era != p.era || (level == SameCard && Finds(p, s) && s.row.prekeys != p.contact.value.prekeys)
  }

  // The scan stores back a confirm that it read in an earlier era; or it puts other prekeys
  // under a confirm.
  predicate SpoilsScan(p: Person, card: Card, starts: bool, existing: Option<Sight>, level: Level) {
    && Stores(p, card, starts, existing) && existing.Some? && !Changed(existing, card)
    && existing.value.row.localConfirmedAt.Some?
    && (existing.value.era != p.era || (level == SameCard && existing.value.row.prekeys != Some(PrekeysOf(card))))
  }

  predicate Spoils(p: Person, act: Action, level: Level) {
    match act
    case Press(s, _) => level != Ever && SpoilsPress(p, s, level)
    case Scan(card, starts, existing) => level != Ever && SpoilsScan(p, card, starts, existing, level)
    case _ => false
  }

  // --- what carries the reads over ---

  // Eras only pass; within one the row stays the one that was read.
  predicate Carries(p: Person, q: Person) {
    && p.made <= q.made && p.era <= q.era
    && (p.era == q.era && p.contact.Some? ==> StillTells(q.contact, p.contact.value))
  }

  lemma CarriesSight(p: Person, q: Person, s: Sight, level: Level)
    requires Carries(p, q) && SightHolds(p, s, level)
    ensures SightHolds(q, s, level)
  {
  }

  lemma CarriesReads(p: Person, q: Person, level: Level)
    requires Carries(p, q) && SightsFit(p, level) && DuesFit(p, level)
    ensures q.seen <= p.seen ==> SightsFit(q, level)
    ensures q.dues == p.dues ==> DuesFit(q, level)
  {
    forall s | s in p.seen ensures SightHolds(q, s, level) { CarriesSight(p, q, s, level); }
    forall i | 0 <= i < |p.dues| ensures SightHolds(q, p.dues[i].sight, level) {
      CarriesSight(p, q, p.dues[i].sight, level);
    }
  }

  // Sessions and guards are no part of it.
  lemma GuardsDoNotMatter(p: Person, q: Person, level: Level)
    requires q == p.(session := q.session, sentThisRun := q.sentThisRun, confirmError := q.confirmError)
    ensures Fits(p, level) <==> Fits(q, level)
  {
    assert forall s :: SightHolds(p, s, level) <==> SightHolds(q, s, level);
  }

  // --- one lemma an action ---

  lemma HeldTells(c: Contact)
    requires Held(c).Some?
    ensures ToldByCard(Held(c).value) == ToldByRow(c)
  {
  }

  // From a row that is locally confirmed.
  lemma SendKeepsFits(p: Person, s: Sight, level: Level)
    requires Fits(p, level) && Yields(s.row, s.press, s.era, level) && s.row.localConfirmedAt.Some?
    ensures Fits(SendConfirm(p, s.row, s.press, s.era), level)
  {
    var q := SendConfirm(p, s.row, s.press, s.era);
    if Held(s.row).Some? { HeldTells(s.row); }
    assert p.contact.Some? ==> StillTells(q.contact, p.contact.value);
    CarriesReads(p, q, level);
  }

  lemma SendAgainKeepsFits(p: Person, s: Sight, level: Level)
    requires Fits(p, level) && Yields(s.row, s.press, s.era, level) && s.row.localConfirmedAt.Some?
    ensures Fits(SendAgain(p, s), level)
  {
    GuardsDoNotMatter(p, p.(sentThisRun := false), level);
    SendKeepsFits(p.(sentThisRun := false), s, level);
  }

  lemma LookKeepsFits(h: CardHash, p: Person, level: Level)
    requires Fits(p, level)
    ensures Fits(Act(h, p, Look).0, level)
  {
    if p.contact.Some? {
      var q := Act(h, p, Look).0;
      CarriesReads(p, q.(seen := p.seen), level);
      assert SightHolds(q, Sight(p.contact.value, p.era, p.press), level);
      forall s | s in q.seen ensures SightHolds(q, s, level) && StatusFits(s.row) {
        if s in p.seen { CarriesSight(p, q, s, level); }
      }
    }
  }

  function PressDue(p: Person, s: Sight, now: int): Due {
    Due(Sight(SetLocalConfirmed(s.row, now), s.era, Some(Pressed(s.row, s.era, p.era))), false)
  }

  lemma PressDueIsExact(p: Person, s: Sight, now: int, level: Level)
    requires Fits(p, level) && s in p.seen
    ensures SightHolds(OnPress(p, s, now), PressDue(p, s, now).sight, level) <==> level == Ever || s.era == p.era
    ensures PressDue(p, s, now).sight.row.localConfirmedAt.Some?
  {
    assert SightHolds(p, s, level);
    assert Held(SetLocalConfirmed(s.row, now)) == Held(s.row);
  }

  lemma PressedRowIsExact(p: Person, s: Sight, now: int, level: Level)
    requires Fits(p, level) && s in p.seen
    ensures ContactFits(OnPress(p, s, now), level) <==> level == Ever || !Finds(p, s) || !SpoilsPress(p, s, level)
  {
    assert SightHolds(p, s, level);
    if Finds(p, s) { assert Held(SetLocalConfirmed(p.contact.value, now)) == Held(p.contact.value); }
  }

  lemma DueAdded(p: Person, d: Due, level: Level)
    requires DuesFit(p, level) && SightHolds(p, d.sight, level) && d.sight.row.localConfirmedAt.Some?
    ensures DuesFit(p.(dues := p.dues + [d]), level)
  {
    var q := p.(dues := p.dues + [d]);
    forall i | 0 <= i < |q.dues| ensures SightHolds(q, q.dues[i].sight, level) {
      CarriesSame(p, q, if i < |p.dues| then p.dues[i].sight else d.sight, level);
    }
  }

  lemma CarriesSame(p: Person, q: Person, s: Sight, level: Level)
    requires SightHolds(p, s, level) && q.made == p.made && q.era == p.era && q.contact == p.contact
    ensures SightHolds(q, s, level)
  {
  }

  lemma PressCarries(p: Person, s: Sight, now: int)
    ensures Carries(p, OnPress(p, s, now))
  {
  }

  lemma PressKeepsReads(p: Person, s: Sight, now: int, level: Level)
    requires Fits(p, level) && s in p.seen
    ensures SightsFit(OnPress(p, s, now), level)
    ensures level == Ever || s.era == p.era ==> DuesFit(OnPress(p, s, now), level)
  {
    var mid, d := OnPress(p, s, now).(dues := p.dues), PressDue(p, s, now);
    PressCarries(p, s, now);
    CarriesReads(p, mid, level);
    assert OnPress(p, s, now) == mid.(dues := mid.dues + [d]);
    forall t | t in p.seen ensures SightHolds(OnPress(p, s, now), t, level) {
      CarriesSame(mid, OnPress(p, s, now), t, level);
    }
    if level == Ever || s.era == p.era {
      PressDueIsExact(p, s, now, level);
      CarriesSame(OnPress(p, s, now), mid, d.sight, level);
      DueAdded(mid, d, level);
    }
  }

  lemma PressIsExact(p: Person, s: Sight, now: int, level: Level)
    requires Fits(p, level) && s in p.seen
    ensures Fits(OnPress(p, s, now), level) <==> level == Ever || !SpoilsPress(p, s, level)
  {
    var q := OnPress(p, s, now);
    PressKeepsReads(p, s, now, level);
    PressDueIsExact(p, s, now, level);
    PressedRowIsExact(p, s, now, level);
    if level != Ever && s.era != p.era {
      assert q.dues[|p.dues|] == PressDue(p, s, now);
      assert !DuesFit(q, level);
    }
  }

  lemma ConfirmWrites(p: Person, s: Sight, now: int, level: Level)
    requires Fits(p, level) && Finds(p, s)
    ensures Fits(WithContact(p, SetPeerConfirmed(p.contact.value, now)), level)
  {
    var q := WithContact(p, SetPeerConfirmed(p.contact.value, now));
    assert Held(q.contact.value) == Held(p.contact.value);
    CarriesReads(p, q, level);
  }

  lemma AnswerIsDue(p: Person, s: Sight, level: Level)
    requires Fits(p, level) && SightHolds(p, s, level) && s.row.localConfirmedAt.Some?
    ensures Fits(p.(dues := p.dues + [Due(s, true)]), level)
  {
    var q := p.(dues := p.dues + [Due(s, true)]);
    DueAdded(p, Due(s, true), level);
    forall t | t in p.seen ensures SightHolds(q, t, level) { CarriesSame(p, q, t, level); }
  }

  lemma ConfirmKeepsFits(h: CardHash, p: Person, s: Sight, hash: Hash, now: int, level: Level)
    requires Fits(p, level) && s in p.seen
    ensures Fits(OnConfirm(h, p, s, hash, now), level)
  {
    if hash == h(p.own) {
      var news := s.row.peerConfirmedAt.None? && Finds(p, s);
      if news { ConfirmWrites(p, s, now, level); }
      var p1 := if news then WithContact(p, SetPeerConfirmed(p.contact.value, now)) else p;
      assert SightHolds(p1, s, level);
      if s.row.localConfirmedAt.Some? { AnswerIsDue(p1, s, level); }
    }
  }

  lemma DueIsTaken(p: Person, i: nat, level: Level)
    requires Fits(p, level) && i < |p.dues|
    ensures Fits(p.(dues := p.dues[..i] + p.dues[i + 1..]), level)
  {
    var q := p.(dues := p.dues[..i] + p.dues[i + 1..]);
    assert p.contact.Some? ==> StillTells(q.contact, p.contact.value);
    CarriesReads(p, q.(dues := p.dues), level);
    forall k | 0 <= k < |q.dues|
      ensures SightHolds(q, q.dues[k].sight, level) && q.dues[k].sight.row.localConfirmedAt.Some?
    {
      var j := if k < i then k else k + 1;
      assert q.dues[k] == p.dues[j];
      CarriesSight(p, q, p.dues[j].sight, level);
    }
  }

  lemma ProceedKeepsFits(p: Person, i: nat, level: Level)
    requires Fits(p, level) && i < |p.dues|
    ensures Fits(OnProceed(p, i), level)
  {
    var d, p1 := p.dues[i], p.(dues := p.dues[..i] + p.dues[i + 1..]);
    DueIsTaken(p, i, level);
    assert SightHolds(p, d.sight, level);
    if d.again {
      SendAgainKeepsFits(p1, d.sight, level);
    } else if p.session {
      SendKeepsFits(p1, d.sight, level);
    }
  }

  lemma ResetKeepsFits(p: Person, s: Sight, level: Level)
    requires Fits(p, level)
    ensures Fits(OnIdentityReset(p, s), level)
  {
    var q := OnIdentityReset(p, s);
    assert q.era == p.era && p.contact.Some? ==> StillTells(q.contact, p.contact.value);
    CarriesReads(p, q, level);
  }

  // The row a scan stores fits exactly when the scan does not spoil it.
  lemma ScannedRowFits(p: Person, card: Card, starts: bool, existing: Option<Sight>, level: Level)
    requires Fits(p, level) && Enabled(p, Scan(card, starts, existing)) && Stores(p, card, starts, existing)
    ensures var q := Upsert(p, card, existing);
      ContactFits(q, level) <==> (level == Ever || !SpoilsScan(p, card, starts, existing, level))
  {
    var row := ScannedRow(p, card, existing);
    assert Held(row) == Some(Card(card.handle, row.identity, card.signedPreKey, card.kyberPreKey));
    if existing.Some? { assert SightHolds(p, existing.value, level); }
  }

  lemma UpsertCarries(p: Person, card: Card, existing: Option<Sight>)
    requires !Clashes(p, existing) && ForPeer(p, card)
    requires existing.Some? ==> existing.value.row.handle == card.handle
    ensures Carries(p, Upsert(p, card, existing))
  {
  }

  lemma ScanIsExact(p: Person, card: Card, starts: bool, existing: Option<Sight>, level: Level)
    requires Fits(p, level) && Enabled(p, Scan(card, starts, existing)) && ForPeer(p, card)
    ensures Fits(OnScan(p, card, starts, existing), level) <==>
      (level == Ever || !SpoilsScan(p, card, starts, existing, level))
  {
    var q := OnScan(p, card, starts, existing);
    if Stores(p, card, starts, existing) {
      var up := Upsert(p, card, existing);
      ScannedRowFits(p, card, starts, existing, level);
      UpsertCarries(p, card, existing);
      CarriesReads(p, up, level);
      assert Fits(up, level) <==> ContactFits(up, level);
      GuardsDoNotMatter(up, q, level);
    } else {
      GuardsDoNotMatter(p, q, level);
    }
  }

  lemma SealKeepsFits(p: Person, i: nat, works: bool, level: Level)
    requires Fits(p, level) && i < |p.sends|
    ensures Fits(OnSeal(p, i, works), level) && Fits(Dropped(p, i), level)
  {
    var sealed := p.(sends := p.sends[i := p.sends[i].(sealed := true)]);
    assert p.contact.Some? ==> StillTells(p.contact, p.contact.value);
    CarriesReads(p, Dropped(p, i), level);
    CarriesReads(p, sealed, level);
    assert Fits(Dropped(p, i), level);
    GuardsDoNotMatter(Dropped(p, i), Failed(Dropped(p, i)), level);
  }

  lemma FinishKeepsFits(h: CardHash, p: Person, i: nat, arrives: bool, ok: bool, level: Level)
    requires Fits(p, level) && i < |p.sends|
    ensures Fits(OnFinish(h, p, i, arrives, ok).0, level)
  {
    SealKeepsFits(p, i, true, level);
    var p1 := Dropped(p, i);
    var p2 := if arrives then p1.(vouched := p1.vouched + {p.sends[i].proof}) else p1;
    assert p.contact.Some? ==> StillTells(p.contact, p.contact.value);
    CarriesReads(p1, p2, level);
    GuardsDoNotMatter(p2, OnFinish(h, p, i, arrives, ok).0, level);
  }

  // The rest: a row that goes, or only its block flag.
  lemma QuietKeepsFits(h: CardHash, p: Person, act: Action, level: Level)
    requires Fits(p, level) && Enabled(p, act)
    requires act.SessionArrives? || act.Block? || act.Remove? || act.Restart? || act.Reonboard?
    ensures Fits(Act(h, p, act).0, level)
  {
    var q := Act(h, p, act).0;
    assert q.era == p.era && p.contact.Some? ==> StillTells(q.contact, p.contact.value);
    assert q.contact.Some? ==> Held(q.contact.value) == Held(p.contact.value);
    CarriesReads(p, q, level);
  }

  lemma ReadsKeepFits(h: CardHash, p: Person, act: Action, level: Level)
    requires Fits(p, level) && Enabled(p, act) && (act.Resend? || act.Flush? || act.Retry?)
    ensures Fits(Act(h, p, act).0, level)
  {
    var s := act.sight;
    assert SightHolds(p, s, level);
    if s.row.localConfirmedAt.Some? {
      SendKeepsFits(p, s, level);
      SendAgainKeepsFits(p, s, level);
      GuardsDoNotMatter(p, Forget(p), level);
      SendKeepsFits(Forget(p), s, level);
    }
  }

  // What every confirm and every proof of a person rests on is kept by an action exactly when
  // the action does not spoil it: a press from before a reset that is recorded after it, a
  // scan that stores back a confirm read before one, and, for the card itself, other prekeys
  // scanned under a confirm or found by a press.
  lemma ActIsExact(h: CardHash, p: Person, act: Action, level: Level)
    requires Fits(p, level) && Enabled(p, act)
    ensures Fits(Act(h, p, act).0, level) <==> !Spoils(p, act, level)
  {
    match act {
      case Look => LookKeepsFits(h, p, level);
      case Scan(card, starts, existing) => if ForPeer(p, card) { ScanIsExact(p, card, starts, existing, level); }
      case Press(s, now) => PressIsExact(p, s, now, level);
      case Receive(s, hash, now) =>
        GuardsDoNotMatter(p, p.(session := true), level);
        ConfirmKeepsFits(h, p.(session := true), s, hash, now, level);
      case Proceed(i) => ProceedKeepsFits(p, i, level);
      case Resend(s) => ReadsKeepFits(h, p, act, level);
      case Flush(s) => ReadsKeepFits(h, p, act, level);
      case Retry(s) => ReadsKeepFits(h, p, act, level);
      case Seal(i, works) => SealKeepsFits(p, i, works, level);
      case Finish(i, arrives, ok) => FinishKeepsFits(h, p, i, arrives, ok, level);
      case IdentityReset(s) => ResetKeepsFits(p, s, level);
      case _ => QuietKeepsFits(h, p, act, level);
    }
  }

  // --- when a proof is taken up ---

  // The read that an action takes a proof up from.
  function Source(p: Person, act: Action): Sight
    requires Enabled(p, act) && TakesUp(act)
  {
    if act.Proceed? then p.dues[act.due].sight else act.sight
  }

  predicate TakesUp(act: Action) {
    act.Proceed? || act.Resend? || act.Flush? || act.Retry?
  }

  // A proof is taken up while the row is still locally confirmed, for the identity key it
  // holds, since the last reset, exactly when no reset lies between the read and the send.
  lemma TakenUpWhileConfirmed(h: CardHash, p: Person, act: Action)
    requires Fits(p, SinceReset) && Enabled(p, act) && TakesUp(act)
    requires |Act(h, p, act).0.sends| > |p.sends|
    ensures var q, s := Act(h, p, act).0, Source(p, act);
      var pr := q.sends[|p.sends|].proof;
      && s.row.localConfirmedAt.Some? && Held(s.row) == Some(pr.card)
      && pr.press.Some? && pr.press.value.seen == pr.press.value.landed == pr.era
      && pr.press.value.row.identity == pr.card.identityKey
      && (s.era == p.era <==>
            q.contact.Some? && q.contact.value.localConfirmedAt.Some? && q.era == pr.press.value.landed
            && q.contact.value.identity == pr.card.identityKey)
  {
    var q, s := Act(h, p, act).0, Source(p, act);
    TakenUpFromSource(h, p, act);
    assert SightHolds(p, s, SinceReset);
  }

  lemma TakenUpFromSource(h: CardHash, p: Person, act: Action)
    requires Fits(p, SinceReset) && Enabled(p, act) && TakesUp(act)
    requires |Act(h, p, act).0.sends| > |p.sends|
    ensures var q, s := Act(h, p, act).0, Source(p, act);
      && s.row.localConfirmedAt.Some? && Held(s.row).Some?
      && q.sends[|p.sends|].proof == Proof(Held(s.row).value, s.press, s.era)
      && q.contact == p.contact && q.era == p.era
  {
    if act.Proceed? { assert SightHolds(p, p.dues[act.due].sight, SinceReset); }
  }

  // The guard of the screen matters: without a press, a retry would send a proof that rests on
  // none.
  lemma UncalledRetryVouches(p: Person, s: Sight)
    requires s.row.localConfirmedAt.None? && s.press.None? && Held(s.row).Some?
    ensures !Offered(p, s)
    ensures var q := SendConfirm(Forget(p), s.row, s.press, s.era); !SendsFit(q.sends, Ever)
  {
    var q := SendConfirm(Forget(p), s.row, s.press, s.era);
    assert !ProofRests(q.sends[|p.sends|].proof, Ever);
  }

  // --- soundness ---

  predicate Vouches(h: CardHash, sender: Person, hash: Hash) {
    exists pr :: pr in sender.vouched && h(pr.card) == hash
  }

  // Every confirm in transit is a proof its sender sent.
  predicate AllVouched(h: CardHash, sender: Person, ch: seq<Hash>) {
    forall i :: 0 <= i < |ch| ==> Vouches(h, sender, ch[i])
  }

  predicate VouchedFor(peer: Person, card: Card) {
    exists pr :: pr in peer.vouched && pr.card == card
  }

  // A peer confirm, recorded or read and about to be stored back, means that the peer sent a
  // proof of this very card.
  predicate Recorded(p: Person) {
    || (p.contact.Some? && p.contact.value.peerConfirmedAt.Some?)
    || (exists s :: s in p.seen && s.row.peerConfirmedAt.Some?)
  }

  predicate RecordSound(p: Person, peer: Person) {
    Recorded(p) ==> VouchedFor(peer, p.own)
  }

  ghost predicate PairFits(h: CardHash, p: Pair, level: Level) {
    && Fits(p.a, level) && Fits(p.b, level)
    && AllVouched(h, p.a, p.ab) && AllVouched(h, p.b, p.ba)
    && RecordSound(p.a, p.b) && RecordSound(p.b, p.a)
  }

  // Nothing forgotten, and what goes out is the proof of a card now vouched for.
  lemma ActVouches(h: CardHash, p: Person, act: Action)
    requires Enabled(p, act)
    ensures var (q, out) := Act(h, p, act);
      p.vouched <= q.vouched && (out.Some? ==> Vouches(h, q, out.value))
  {
    if act.Finish? && act.arrives {
      var (q, out) := Act(h, p, act);
      assert p.sends[act.send].proof in q.vouched;
    }
  }

  lemma VouchedGrows(h: CardHash, before: Person, after: Person, ch: seq<Hash>, out: Option<Hash>)
    requires AllVouched(h, before, ch) && before.vouched <= after.vouched
    requires out.Some? ==> Vouches(h, after, out.value)
    ensures AllVouched(h, after, if out.Some? then ch + [out.value] else ch)
  {
    forall i | 0 <= i < |ch| ensures Vouches(h, after, ch[i]) {
      assert Vouches(h, before, ch[i]);
      var pr :| pr in before.vouched && h(pr.card) == ch[i];
      assert pr in after.vouched && h(pr.card) == ch[i];
    }
  }

  lemma SameRowRecordsNothing(p: Person, q: Person)
    requires q.own == p.own && q.seen <= p.seen
    requires q.contact.Some? && q.contact.value.peerConfirmedAt.Some? ==>
      Recorded(p)
    ensures Recorded(q) ==> Recorded(p)
  {
  }

  lemma ConfirmRecordsOwnProof(h: CardHash, p: Person, s: Sight, hash: Hash, now: int)
    ensures var q := OnConfirm(h, p, s, hash, now); q.own == p.own && (Recorded(q) ==> Recorded(p) || hash == h(p.own))
  {
    var q := OnConfirm(h, p, s, hash, now);
    if hash != h(p.own) { assert q == p; }
  }

  lemma ScanRecordsNothing(p: Person, card: Card, starts: bool, existing: Option<Sight>)
    requires existing.Some? ==> existing.value in p.seen
    ensures var q := OnScan(p, card, starts, existing); q.own == p.own && (Recorded(q) ==> Recorded(p))
  {
    SameRowRecordsNothing(p, OnScan(p, card, starts, existing));
  }

  lemma LookRecordsNothing(h: CardHash, p: Person)
    ensures var q := Act(h, p, Look).0; q.own == p.own && (Recorded(q) ==> Recorded(p))
  {
  }

  lemma PressRecordsNothing(p: Person, s: Sight, now: int)
    ensures var q := OnPress(p, s, now); q.own == p.own && (Recorded(q) ==> Recorded(p))
  {
    SameRowRecordsNothing(p, OnPress(p, s, now));
  }

  // Nothing but receiving a proof of one's own card records a peer confirm that was not
  // recorded or read before.
  lemma RecordsOnlyOwnProof(h: CardHash, p: Person, act: Action)
    requires Enabled(p, act)
    ensures var q := Act(h, p, act).0;
      Recorded(q) ==> q.own == p.own && (Recorded(p) || (act.Receive? && act.hash == h(p.own)))
  {
    match act {
      case Look => LookRecordsNothing(h, p);
      case Scan(card, starts, existing) => ScanRecordsNothing(p, card, starts, existing);
      case Press(s, now) => PressRecordsNothing(p, s, now);
      case Receive(s, hash, now) => ConfirmRecordsOwnProof(h, p.(session := true), s, hash, now);
      case Reonboard(_) =>
      case _ => SameRowRecordsNothing(p, Act(h, p, act).0);
    }
  }

  lemma ActsKeepsPair(h: CardHash, p: Pair, act: Action, level: Level)
    requires PairFits(h, p, level) && CollisionFree(h) && Enabled(p.a, act) && !Spoils(p.a, act, level)
    requires act.Receive? ==> Vouches(h, p.b, act.hash)
    ensures PairFits(h, ActsA(h, p, act), level)
  {
    var (a, out) := Act(h, p.a, act);
    ActIsExact(h, p.a, act, level);
    ActVouches(h, p.a, act);
    VouchedGrows(h, p.a, a, p.ab, out);
    RecordsOnlyOwnProof(h, p.a, act);
    if act.Receive? && act.hash == h(p.a.own) {
      var pr :| pr in p.b.vouched && h(pr.card) == act.hash;
      assert ProofRests(pr, level);
      assert pr.card == p.a.own;
    }
    if VouchedFor(p.a, p.b.own) {
      var pr :| pr in p.a.vouched && pr.card == p.b.own;
      assert pr in a.vouched;
    }
  }

  predicate SpoilsPair(p: Pair, e: Event, level: Level) {
    e.Acts? && Spoils(if e.side == A then p.a else p.b, e.act, level)
  }

  lemma StepKeepsPairOnA(h: CardHash, p: Pair, e: Event, level: Level)
    requires PairFits(h, p, level) && CollisionFree(h) && Possible(p, e) && !SpoilsPair(p, e, level) && e.side == A
    ensures PairFits(h, Step(h, p, e), level)
  {
    match e {
      case Acts(A, act) => ActsKeepsPair(h, p, act, level);
      case Delivers(A, s, now) =>
        if p.ba != [] {
          assert AllVouched(h, p.b, p.ba[1..]);
          ActsKeepsPair(h, p.(ba := p.ba[1..]), Receive(s, p.ba[0], now), level);
        }
      case Loses(A) => assert PairFits(h, LosesA(p), level);
    }
  }

  function OnA(e: Event): Event {
    e.(side := A)
  }

  lemma StepKeepsPair(h: CardHash, p: Pair, e: Event, level: Level)
    requires PairFits(h, p, level) && CollisionFree(h) && Possible(p, e) && !SpoilsPair(p, e, level)
    ensures PairFits(h, Step(h, p, e), level)
  {
    if e.side == A {
      StepKeepsPairOnA(h, p, e, level);
    } else {
      StepKeepsPairOnA(h, Mirror(p), OnA(e), level);
      assert Step(h, p, e) == Mirror(Step(h, Mirror(p), OnA(e)));
    }
  }

  // Any run at level Ever; at the other levels a run in which nothing spoils.
  predicate CleanRun(h: CardHash, p: Pair, events: seq<Event>, q: Pair, level: Level)
    decreases |events|
  {
    if events == [] then q == p
    else
      && Possible(p, events[0]) && !SpoilsPair(p, events[0], level)
      && CleanRun(h, Step(h, p, events[0]), events[1..], q, level)
  }

  lemma {:induction false} AnyRunIsClean(h: CardHash, p: Pair, events: seq<Event>, q: Pair)
    requires Runs(h, p, events, q)
    ensures CleanRun(h, p, events, q, Ever)
    decreases |events|
  {
    if events != [] { AnyRunIsClean(h, Step(h, p, events[0]), events[1..], q); }
  }

  lemma {:induction false} RunKeepsPair(h: CardHash, p: Pair, events: seq<Event>, q: Pair, level: Level)
    requires PairFits(h, p, level) && CollisionFree(h) && CleanRun(h, p, events, q, level)
    ensures PairFits(h, q, level)
    decreases |events|
  {
    if events != [] {
      StepKeepsPair(h, p, events[0], level);
      RunKeepsPair(h, Step(h, p, events[0]), events[1..], q, level);
    }
  }

  function Newcomer(own: Card): Person {
    Person(own, None, false, false, false, {}, [], [], 0, 0, None, {})
  }

  function Strangers(a: Card, b: Card): Pair {
    Pair(Newcomer(a), Newcomer(b), [], [])
  }

  // The peer of this person sent a proof of this person's current card, and it rests on a
  // press as the level says.
  predicate ConfirmIsSound(p: Person, peer: Person, level: Level) {
    p.contact.Some? && p.contact.value.peerConfirmedAt.Some? ==>
      exists pr :: pr in peer.vouched && pr.card == p.own && ProofRests(pr, level)
  }

  // In every run in which nothing spoils, a side that recorded the peer's confirm was sent a
  // proof of its current card that rests on a press: at level SinceReset on one made and
  // written since the peer's last reset before the read behind the proof, for this side's
  // identity key; at level SameCard with this very card held. And a contact is verified exactly
  // when both timestamps are set.
  lemma RecordedConfirmIsSound(h: CardHash, a: Card, b: Card, events: seq<Event>, q: Pair, level: Level)
    requires CollisionFree(h) && Proper(a) && Proper(b)
    requires CleanRun(h, Strangers(a, b), events, q, level)
    ensures ConfirmIsSound(q.a, q.b, level) && ConfirmIsSound(q.b, q.a, level)
    ensures q.a.contact.Some? ==> (q.a.contact.value.status == Verified <==> IsMutuallyVerified(q.a.contact.value))
    ensures q.b.contact.Some? ==> (q.b.contact.value.status == Verified <==> IsMutuallyVerified(q.b.contact.value))
  {
    RunKeepsPair(h, Strangers(a, b), events, q, level);
    SoundNow(h, q, level);
    SoundNow(h, Mirror(q), level);
  }

  lemma SoundNow(h: CardHash, p: Pair, level: Level)
    requires PairFits(h, p, level)
    ensures ConfirmIsSound(p.a, p.b, level)
  {
    if p.a.contact.Some? && p.a.contact.value.peerConfirmedAt.Some? {
      assert VouchedFor(p.b, p.a.own);
      var pr :| pr in p.b.vouched && pr.card == p.a.own;
      assert ProofRests(pr, level);
    }
  }
}
