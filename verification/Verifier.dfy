// The verification service for one contact, changing the row and the run-time guards in
// place. Each method is the action of Verification it is named after; one that sends stops
// where the source awaits the seal, and goes on in Sealed and Sent.
module Verifier {
  import opened ContactCard
  import opened Options
  import V = Verification
  import opened Verification
  import opened VerificationProofs

  // What a scan comes to. A write that the row clashes with throws.
  datatype ScanOutcome =
    | Added(alreadyExisted: bool)
    | Invalid
    | Self
    | WrongServer(cardServer: string, localServer: string)
    | MaybeWrongServer(localServer: string)
    | Threw

  // The relays a scan compares: the card's, if it names one with a socket scheme, the one in
  // use and the default, with the canonical form they are compared in.
  datatype Servers = Servers(
    card: Option<string>, here: string, standard: string, normalize: string -> string, ignoreMismatch: bool)

  predicate SameServer(s: Servers, a: string, b: string) {
    s.normalize(a) == s.normalize(b)
  }

  // The refusal over relays, if any: a named relay must be the one in use, and a card that
  // names none is suspect away from the default relay.
  function Mismatch(s: Servers): Option<ScanOutcome> {
    if s.ignoreMismatch then None
    else if s.card.Some? && !SameServer(s, s.card.value, s.here)
    then Some(WrongServer(s.normalize(s.card.value), s.normalize(s.here)))
    else if s.card.None? && !SameServer(s, s.here, s.standard) then Some(MaybeWrongServer(s.normalize(s.here)))
    else None
  }

  function OutcomeOf(p: Person, card: Card, starts: bool, existing: Option<Sight>, servers: Servers): ScanOutcome {
    if card.handle == p.own.handle then Self
    else if Mismatch(servers).Some? then Mismatch(servers).value
    else if MustStart(p, card, existing) && !starts then Invalid
    else if Clashes(p, existing) then Threw
    else Added(existing.Some?)
  }

  lemma ActKeepsFits(h: CardHash, p: Person, act: Action)
    requires Enabled(p, act)
    ensures Fits(p, Ever) ==> Fits(Act(h, p, act).0, Ever)
  {
    if Fits(p, Ever) { ActIsExact(h, p, act, Ever); }
  }

  class Service {
    const hash: Bytes -> Bytes
    var own: Card
    var contact: Option<Contact>
    var session: bool
    var sentThisRun: bool
    var confirmError: bool
    var made: nat
    ghost var seen: set<Sight>
    ghost var dues: seq<Due>
    ghost var sends: seq<Sending>
    ghost var era: nat
    ghost var press: Option<Pressed>
    ghost var vouched: set<Proof>

    ghost function Model(): Person
      reads this
    {
      Person(own, contact, session, sentThisRun, confirmError, seen, dues, sends, made, era, press, vouched)
    }

    // Status and timestamps agree, cards are proper, and every confirm and proof rests on a
    // press; every service keeps it.
    ghost predicate Valid()
      reads this
    {
      Fits(Model(), Ever)
    }

    function Hashed(): CardHash {
      c => hash(Preimage(c))
    }

    constructor (hash: Bytes -> Bytes, own: Card)
      ensures this.hash == hash && Model() == Person(own, None, false, false, false, {}, [], [], 0, 0, None, {})
    {
      this.hash, this.own := hash, own;
      contact, session, sentThisRun, confirmError, made := None, false, false, false, 0;
      seen, dues, sends, era, press, vouched := {}, [], [], 0, None, {};
    }

    // --- the repository ---

    // Each update is by id: it does nothing when the row is another by now.
    method SetLocalConfirmed(id: nat, at: int)
      modifies this`contact
      ensures contact == if old(contact).Some? && old(contact).value.id == id
                         then Some(V.SetLocalConfirmed(old(contact).value, at)) else old(contact)
    {
      if contact.None? || contact.value.id != id {
        return;
      }
      var c := contact.value.(localConfirmedAt := Some(at));
      if c.peerConfirmedAt.Some? {
        c := c.(status := Verified, verifiedAt := Some(at));
      }
      contact := Some(c);
    }

    method SetPeerConfirmed(id: nat, at: int)
      modifies this`contact
      ensures contact == if old(contact).Some? && old(contact).value.id == id
                         then Some(V.SetPeerConfirmed(old(contact).value, at)) else old(contact)
    {
      if contact.None? || contact.value.id != id {
        return;
      }
      var c := contact.value.(peerConfirmedAt := Some(at));
      if c.localConfirmedAt.Some? {
        c := c.(status := Verified, verifiedAt := Some(at));
      }
      contact := Some(c);
    }

    method ResetVerification(id: nat)
      modifies this`contact
      ensures contact == if old(contact).Some? && old(contact).value.id == id
                         then Some(V.ResetVerification(old(contact).value)) else old(contact)
    {
      if contact.None? || contact.value.id != id {
        return;
      }
      contact := Some(contact.value.(status := ConnectedOnly, verifiedAt := None));
      contact := Some(contact.value.(localConfirmedAt := None, peerConfirmedAt := None, prekeys := None));
    }

    // --- the service ---

    method ForgetConfirmState()
      modifies this`sentThisRun, this`confirmError
      ensures !sentThisRun && !confirmError
    {
      sentThisRun := false;
      confirmError := false;
    }

    // Up to the await: the guard is taken and the card hash computed from the row given.
    method SendConfirm(row: Contact, ghost rests: Option<Pressed>, ghost readIn: nat) returns (out: Option<Hash>)
      modifies this`sentThisRun, this`sends
      ensures Model() == V.SendConfirm(old(Model()), row, rests, readIn)
      ensures out == if !old(sentThisRun) && Held(row).Some? then Some(Hashed()(Held(row).value)) else None
    {
      if sentThisRun || row.prekeys.None? {
        return None;
      }
      sentThisRun := true;
      var card := Card(row.handle, row.identity, row.prekeys.value.signed, row.prekeys.value.kyber);
      var cardHash := ComputeCardHash(hash, card);
      sends := sends + [Sending(Proof(card, rests, readIn), false)];
      out := Some(cardHash);
    }

    // The seal is back.
    method Sealed(ghost i: nat, works: bool) returns (ok: bool)
      requires i < |sends| && !sends[i].sealed
      modifies this`sends, this`sentThisRun, this`confirmError
      ensures Model() == Act(Hashed(), old(Model()), Seal(i, works)).0
      ensures ok <==> session && works
      ensures old(Valid()) ==> Valid()
    {
      ActKeepsFits(Hashed(), Model(), Seal(i, works));
      ok := session && works;
      if ok {
        sends := sends[i := sends[i].(sealed := true)];
      } else {
        sends := sends[..i] + sends[i + 1..];
        sentThisRun := false;
        confirmError := true;
      }
    }

    // The relay has answered, or has not; either way the envelope may have reached it.
    method Sent(ghost i: nat, cardHash: Hash, arrives: bool, ok: bool) returns (out: Option<Hash>)
      requires i < |sends| && sends[i].sealed && (ok ==> arrives) && cardHash == Hashed()(sends[i].proof.card)
      modifies this`sends, this`sentThisRun, this`confirmError, this`vouched
      ensures (Model(), out) == Act(Hashed(), old(Model()), Finish(i, arrives, ok))
      ensures old(Valid()) ==> Valid()
    {
      ActKeepsFits(Hashed(), Model(), Finish(i, arrives, ok));
      if arrives {
        vouched := vouched + {sends[i].proof};
      }
      sends := sends[..i] + sends[i + 1..];
      if ok {
        confirmError := false;
      } else {
        sentThisRun := false;
        confirmError := true;
      }
      out := if arrives then Some(cardHash) else None;
    }

    // The press up to its await: recorded by id, the send still due.
    method ConfirmVerification(row: Contact, ghost s: Sight, now: int)
      requires s in seen && s.row == row
      modifies this`contact, this`press, this`dues
      ensures Model() == Act(Hashed(), old(Model()), Press(s, now)).0
      ensures old(Valid()) ==> Valid()
    {
      ActKeepsFits(Hashed(), Model(), Press(s, now));
      ghost var made := Some(Pressed(row, s.era, era));
      press := if contact.Some? && contact.value.id == row.id then made else press;
      dues := dues + [Due(Sight(V.SetLocalConfirmed(row, now), s.era, made), false)];
      SetLocalConfirmed(row.id, now);
    }

    // A decrypted confirm, the session therefore in place; a blocked sender never gets here.
    // Up to the write; `answer` says that a send is due.
    method HandleInboundConfirm(row: Contact, ghost s: Sight, cardHash: Hash, now: int) returns (answer: bool)
      requires s in seen && s.row == row && session && !row.blocked
      modifies this`contact, this`dues
      ensures Model() == Act(Hashed(), old(Model()), Receive(s, cardHash, now)).0
      ensures answer <==> cardHash == Hashed()(own) && row.localConfirmedAt.Some?
      ensures old(Valid()) ==> Valid()
    {
      ActKeepsFits(Hashed(), Model(), Receive(s, cardHash, now));
      var ownHash := ComputeCardHash(hash, own);
      if cardHash != ownHash {
        return false;
      }
      if row.peerConfirmedAt.None? {
        SetPeerConfirmed(row.id, now);
      }
      answer := row.localConfirmedAt.Some?;
      dues := if answer then dues + [Due(s, true)] else dues;
    }

    // Past that await: a press sends if there is a session, an answer clears the guard first.
    method GoOn(row: Contact, again: bool, ghost i: nat) returns (out: Option<Hash>)
      requires i < |dues| && dues[i].again == again && dues[i].sight.row == row
      modifies this`sentThisRun, this`sends, this`dues
      ensures Model() == Act(Hashed(), old(Model()), Proceed(i)).0
      ensures old(Valid()) ==> Valid()
    {
      ActKeepsFits(Hashed(), Model(), Proceed(i));
      ghost var s := dues[i].sight;
      dues := dues[..i] + dues[i + 1..];
      out := None;
      if again {
        sentThisRun := false;
        out := SendConfirm(row, s.press, s.era);
      } else if session {
        out := SendConfirm(row, s.press, s.era);
      }
    }

    // This contact's turn in resendPendingConfirms.
    method ResendTurn(row: Contact, ghost s: Sight) returns (out: Option<Hash>)
      requires s in seen && s.row == row
      modifies this`sentThisRun, this`sends
      ensures Model() == Act(Hashed(), old(Model()), Resend(s)).0
      ensures |sends| <= |old(sends)| + 1 && (out.Some? <==> |sends| == |old(sends)| + 1)
      ensures out.Some? ==> !sends[|sends| - 1].sealed && out.value == Hashed()(sends[|sends| - 1].proof.card)
      ensures old(Valid()) ==> Valid()
    {
      ActKeepsFits(Hashed(), Model(), Resend(s));
      if row.blocked || row.localConfirmedAt.None? || row.peerConfirmedAt.Some? || !session {
        return None;
      }
      sentThisRun := false;
      out := SendConfirm(row, s.press, s.era);
    }

    method FlushDeferredConfirm(row: Contact, ghost s: Sight) returns (out: Option<Hash>)
      requires s in seen && s.row == row
      modifies this`sentThisRun, this`sends
      ensures Model() == Act(Hashed(), old(Model()), Flush(s)).0
      ensures old(Valid()) ==> Valid()
    {
      ActKeepsFits(Hashed(), Model(), Flush(s));
      if row.localConfirmedAt.None? || row.peerConfirmedAt.Some? {
        return None;
      }
      out := SendConfirm(row, s.press, s.era);
    }

    method RetryConfirm(row: Contact, ghost s: Sight) returns (out: Option<Hash>)
      requires s in seen && s.row == row && Offered(Model(), s)
      modifies this`sentThisRun, this`confirmError, this`sends
      ensures Model() == Act(Hashed(), old(Model()), Retry(s)).0
      ensures old(Valid()) ==> Valid()
    {
      ActKeepsFits(Hashed(), Model(), Retry(s));
      ForgetConfirmState();
      out := SendConfirm(row, s.press, s.era);
    }

    method EndRow(id: nat)
      modifies this`contact, this`era
      ensures contact == if old(contact).Some? && old(contact).value.id == id
                         then Some(V.ResetVerification(old(contact).value)) else old(contact)
      ensures era == if old(contact).Some? && old(contact).value.id == id then old(era) + 1 else old(era)
    {
      era := if contact.Some? && contact.value.id == id then era + 1 else era;
      ResetVerification(id);
    }

    method ForgetPeer(row: Contact, ghost s: Sight)
      requires s.row == row
      modifies this`contact, this`era, this`sentThisRun, this`confirmError, this`session
      ensures Model() == OnIdentityReset(old(Model()), s)
    {
      EndRow(row.id);
      ForgetConfirmState();
      session := false;
    }

    method HandleIdentityChange(row: Contact, ghost s: Sight)
      requires s in seen && s.row == row
      modifies this
      ensures Model() == Act(Hashed(), old(Model()), IdentityReset(s)).0
      ensures old(Valid()) ==> Valid()
    {
      ActKeepsFits(Hashed(), Model(), IdentityReset(s));
      ForgetPeer(row, s);
    }

    // The card is checked for its relay, the session made fit for it, and the row stored with
    // what of the row read before is to be kept.
    method AddContactFromCard(
        card: Card, row: Option<Contact>, ghost existing: Option<Sight>, starts: bool, servers: Servers)
        returns (outcome: ScanOutcome)
      requires Enabled(Model(), Scan(card, starts, existing))
      requires row == if existing.Some? then Some(existing.value.row) else None
      requires contact.Some? ==> contact.value.handle == card.handle
      modifies this
      ensures outcome == OutcomeOf(old(Model()), card, starts, existing, servers)
      ensures Model() == if old(own).handle != card.handle && Mismatch(servers).None?
                         then Act(Hashed(), old(Model()), Scan(card, starts, existing)).0 else old(Model())
      ensures outcome.Added? <==>
          old(own).handle != card.handle && Mismatch(servers).None? && Stores(old(Model()), card, starts, existing)
      ensures outcome.Added? && Precedes(old(own).identityKey, card.identityKey) ==> session
      ensures old(Valid()) ==> Valid()
    {
      ActKeepsFits(Hashed(), Model(), Scan(card, starts, existing));
      if card.handle == own.handle {
        return Self;
      }
      if !servers.ignoreMismatch {
        if servers.card.Some? && !SameServer(servers, servers.card.value, servers.here) {
          return WrongServer(servers.normalize(servers.card.value), servers.normalize(servers.here));
        }
        if servers.card.None? && !SameServer(servers, servers.here, servers.standard) {
          return MaybeWrongServer(servers.normalize(servers.here));
        }
      }
      outcome := Enter(card, row, existing, starts);
    }

    method Enter(card: Card, row: Option<Contact>, ghost existing: Option<Sight>, starts: bool)
        returns (outcome: ScanOutcome)
      requires row == if existing.Some? then Some(existing.value.row) else None
      requires (row.Some? ==> row.value.handle == card.handle) && ForPeer(Model(), card)
      modifies this
      ensures Model() == OnScan(old(Model()), card, starts, existing)
      ensures outcome == if MustStart(old(Model()), card, existing) && !starts then Invalid
                         else if Clashes(old(Model()), existing) then Threw else Added(existing.Some?)
      ensures outcome.Added? && Precedes(old(own).identityKey, card.identityKey) ==> session
    {
      var ok := FitSession(card, row, existing, starts);
      assert Clashes(Model(), existing) <==> Clashes(old(Model()), existing);
      if !ok {
        return Invalid;
      }
      outcome := StoreScanned(card, row, existing);
    }

    method FitSession(card: Card, row: Option<Contact>, ghost existing: Option<Sight>, starts: bool) returns (ok: bool)
      requires row == if existing.Some? then Some(existing.value.row) else None
      modifies this`session, this`sentThisRun, this`confirmError
      ensures ok <==> (MustStart(old(Model()), card, existing) ==> starts)
      ensures session == ((old(session) && !Changed(existing, card))
          || (MustStart(old(Model()), card, existing) && starts))
      ensures sentThisRun == (old(sentThisRun) && !Changed(existing, card))
      ensures confirmError == (old(confirmError) && !Changed(existing, card))
    {
      var changed := row.Some? && row.value.identity != card.identityKey;
      if changed {
        session := false;
        ForgetConfirmState();
      }
      var order := CompareBytes(own.identityKey, card.identityKey);
      if order < 0 && (changed || !session) {
        if !starts {
          return false;
        }
        session := true;
      }
      ok := true;
    }

    method StoreScanned(card: Card, row: Option<Contact>, ghost existing: Option<Sight>) returns (outcome: ScanOutcome)
      requires row == if existing.Some? then Some(existing.value.row) else None
      requires row.Some? ==> row.value.handle == card.handle
      modifies this`contact, this`made, this`era, this`press
      ensures outcome == if Clashes(old(Model()), existing) then Threw else Added(existing.Some?)
      ensures Model() == if Clashes(old(Model()), existing) then old(Model()) else Upsert(old(Model()), card, existing)
    {
      if contact.Some? && (row.None? || contact.value.id != row.value.id) {
        return Threw;
      }
      var prekeys := Some(Prekeys(card.signedPreKey, card.kyberPreKey));
      var stored: Contact;
      if row.Some? && row.value.identity == card.identityKey {
        stored := row.value.(handle := card.handle, prekeys := prekeys);
      } else {
        var id := if row.Some? then row.value.id else made;
        var blocked := row.Some? && row.value.blocked;
        stored := Contact(id, card.handle, card.identityKey, prekeys, ConnectedOnly, None, None, None, blocked);
      }
      era := if EndsEra(contact, stored) then era + 1 else era;
      press := if stored.localConfirmedAt.Some? then existing.value.press else press;
      if row.None? {
        made := made + 1;
      }
      contact := Some(stored);
      outcome := Added(row.Some?);
    }

    method RemoveContact()
      modifies this
      ensures Model() == Act(Hashed(), old(Model()), Remove).0
      ensures old(Valid()) ==> Valid()
    {
      ActKeepsFits(Hashed(), Model(), Remove);
      session := false;
      ForgetConfirmState();
      contact := None;
      era := era + 1;
    }
  }

  // --- every contact ---

  // How a contact's turn ends: whether sealing works, the relay gets it, and says so.
  datatype Fate = Fate(works: bool, arrives: bool, ok: bool)

  // A turn of the resend loop run to its end: what the send that it took up comes to.
  ghost function TurnOf(h: CardHash, p: Person, s: Sight, fate: Fate): (Person, Option<Hash>)
    requires s in p.seen && (fate.ok ==> fate.arrives)
  {
    var p1 := Act(h, p, Resend(s)).0;
    if |p1.sends| <= |p.sends| || p1.sends[|p1.sends| - 1].sealed then (p1, None)
    else
      var i := |p1.sends| - 1;
      var p2 := Act(h, p1, Seal(i, fate.works)).0;
      if |p2.sends| <= i || !p2.sends[i].sealed then (p2, None) else Act(h, p2, Finish(i, fate.arrives, fate.ok))
  }

  method OneTurn(c: Service, row: Contact, ghost s: Sight, fate: Fate) returns (out: Option<Hash>)
    requires s in c.seen && s.row == row && (fate.ok ==> fate.arrives)
    modifies c`sends, c`sentThisRun, c`confirmError, c`vouched
    ensures (c.Model(), out) == TurnOf(c.Hashed(), old(c.Model()), s, fate)
  {
    out := c.ResendTurn(row, s);
    if out.Some? {
      ghost var i := |c.sends| - 1;
      var cardHash := out.value;
      var sealed := c.Sealed(i, fate.works);
      if sealed {
        out := c.Sent(i, cardHash, fate.arrives, fate.ok);
      } else {
        out := None;
      }
    }
  }

  // The loop over the contacts as it runs when nothing comes between: nothing while the app is
  // locked, else each contact's turn in the order listed, on the row listed.
  method ResendPendingConfirms(unlocked: bool, contacts: seq<Service>, rows: seq<Contact>, ghost sights: seq<Sight>,
      fates: seq<Fate>)
      returns (outs: seq<Option<Hash>>)
    requires |rows| == |sights| == |fates| == |contacts|
    requires forall i, j :: 0 <= i < j < |contacts| ==> contacts[i] != contacts[j]
    requires forall i :: 0 <= i < |contacts| ==> sights[i] in contacts[i].seen && sights[i].row == rows[i]
    requires forall i :: 0 <= i < |contacts| ==> (fates[i].ok ==> fates[i].arrives)
    modifies set c | c in contacts
    ensures !unlocked ==> outs == [] && forall c :: c in contacts ==> c.Model() == old(c.Model())
    ensures unlocked ==> |outs| == |contacts|
    ensures unlocked ==> forall i :: 0 <= i < |contacts| ==>
      sights[i] in old(contacts[i].Model()).seen
      && (contacts[i].Model(), outs[i]) == TurnOf(contacts[i].Hashed(), old(contacts[i].Model()), sights[i], fates[i])
  {
    outs := [];
    if !unlocked {
      return;
    }
    var k := 0;
    while k < |contacts|
      invariant 0 <= k <= |contacts| && |outs| == k
      invariant forall i :: k <= i < |contacts| ==> contacts[i].Model() == old(contacts[i].Model())
      invariant forall i :: 0 <= i < k ==>
        (contacts[i].Model(), outs[i]) == TurnOf(contacts[i].Hashed(), old(contacts[i].Model()), sights[i], fates[i])
    {
      var out := OneTurn(contacts[k], rows[k], sights[k], fates[k]);
      outs := outs + [out];
      k := k + 1;
    }
  }
}
