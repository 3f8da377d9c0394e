// What a scan leaves: the session, the row and the guards, by who goes first and by whether
// the card shows another identity key than the row that was read.
module VerificationScans {
  import opened ContactCard
  import opened Options
  import opened Verification

  predicate OtherKey(existing: Option<Sight>, card: Card) {
    existing.Some? && existing.value.row.identity != card.identityKey
  }

  // The row that is there now is not the one that was read.
  predicate Overtaken(p: Person, existing: Option<Sight>) {
    p.contact.Some? && (existing.None? || existing.value.row.id != p.contact.value.id)
  }

  // A session is begun by the side with the smaller key if it has none, or had one for
  // another identity.
  predicate Begins(p: Person, card: Card, existing: Option<Sight>) {
    Precedes(p.own.identityKey, card.identityKey) && (OtherKey(existing, card) || !p.session)
  }

  predicate SessionIs(p: Person, card: Card, starts: bool, existing: Option<Sight>, q: Person) {
    q.session == ((p.session && !OtherKey(existing, card)) || (Begins(p, card, existing) && starts))
  }

  // The row after a scan that stored: the card's keys, and what was confirmed of the same key.
  predicate RowIs(p: Person, card: Card, existing: Option<Sight>, row: Contact) {
    && row.handle == card.handle && row.identity == card.identityKey
    && row.prekeys == Some(Prekeys(card.signedPreKey, card.kyberPreKey))
    && (match existing
        case None =>
          row.id == p.made && !row.blocked && row.status == ConnectedOnly && row.verifiedAt.None?
              && row.localConfirmedAt.None? && row.peerConfirmedAt.None?
        case Some(s) =>
          && row.id == s.row.id && row.blocked == s.row.blocked
          && (if OtherKey(existing, card)
              then row.status == ConnectedOnly && row.verifiedAt.None?
                   && row.localConfirmedAt.None? && row.peerConfirmedAt.None?
              else row.status == s.row.status && row.verifiedAt == s.row.verifiedAt
                   && row.localConfirmedAt == s.row.localConfirmedAt && row.peerConfirmedAt == s.row.peerConfirmedAt))
  }

  // The scan reached its store: of a card of the peer, with the session it needed, over the row
  // it read.
  predicate Stored(p: Person, card: Card, starts: bool, existing: Option<Sight>) {
    && card.handle != p.own.handle && (p.contact.Some? ==> p.contact.value.handle == card.handle)
    && (Begins(p, card, existing) ==> starts) && !Overtaken(p, existing)
  }

  lemma ScannedRowIs(p: Person, card: Card, existing: Option<Sight>)
    requires existing.Some? ==> existing.value.row.handle == card.handle
    ensures RowIs(p, card, existing, ScannedRow(p, card, existing))
  {
  }

  lemma UpsertLeavesTheRest(p: Person, card: Card, existing: Option<Sight>)
    ensures var q := Upsert(p, card, existing);
      && q.session == p.session && q.sentThisRun == p.sentThisRun && q.confirmError == p.confirmError
      && q.sends == p.sends && q.dues == p.dues && q.seen == p.seen && q.vouched == p.vouched
  {
  }

  lemma ScanLeavesSession(p: Person, card: Card, starts: bool, existing: Option<Sight>)
    requires ForPeer(p, card)
    ensures var q := OnScan(p, card, starts, existing);
      && SessionIs(p, card, starts, existing, q)
      && q.sends == p.sends && q.dues == p.dues && q.seen == p.seen && q.vouched == p.vouched
      && (OtherKey(existing, card) ==> !q.sentThisRun && !q.confirmError)
      && (!OtherKey(existing, card) ==> q.sentThisRun == p.sentThisRun && q.confirmError == p.confirmError)
  {
    var p1 := if Changed(existing, card) then Forget(p).(session := false) else p;
    var p2 := p1.(session := p1.session || (MustStart(p, card, existing) && starts));
    UpsertLeavesTheRest(p2, card, existing);
  }

  lemma ScanLeavesRow(p: Person, card: Card, starts: bool, existing: Option<Sight>)
    requires ForPeer(p, card)
    ensures OnScan(p, card, starts, existing).contact ==
      if Stored(p, card, starts, existing) then Some(ScannedRow(p, card, existing)) else p.contact
  {
  }

  // Every scan, stored or not: the session is forgotten with the old key and begun by whose
  // turn it is; the row is the card's or stays as it was.
  lemma ScanIsExact(h: CardHash, p: Person, card: Card, starts: bool, existing: Option<Sight>)
    requires Enabled(p, Scan(card, starts, existing)) && ForPeer(p, card)
    ensures var (q, out) := Act(h, p, Scan(card, starts, existing));
      && out.None? && SessionIs(p, card, starts, existing, q)
      && (if Stored(p, card, starts, existing)
          then q.contact.Some? && RowIs(p, card, existing, q.contact.value) else q.contact == p.contact)
  {
    ScanLeavesSession(p, card, starts, existing);
    ScanLeavesRow(p, card, starts, existing);
    ScannedRowIs(p, card, existing);
  }

  // One's own card, and that of someone who is not the peer, changes nothing.
  lemma OtherCardsAreIgnored(h: CardHash, p: Person, card: Card, starts: bool, existing: Option<Sight>)
    requires Enabled(p, Scan(card, starts, existing))
    requires card.handle == p.own.handle || (p.contact.Some? && p.contact.value.handle != card.handle)
    ensures Act(h, p, Scan(card, starts, existing)) == (p, None)
  {
  }

  // After any scan that was stored, the side with the smaller key has a session with the peer.
  lemma StoredScanHasSession(h: CardHash, p: Person, card: Card, starts: bool, existing: Option<Sight>)
    requires Enabled(p, Scan(card, starts, existing)) && Stored(p, card, starts, existing)
    requires Precedes(p.own.identityKey, card.identityKey)
    ensures Act(h, p, Scan(card, starts, existing)).0.session
  {
    ScanIsExact(h, p, card, starts, existing);
  }
}
