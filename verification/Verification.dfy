// Mutual verification: what each press, confirm, scan and reset does to a contact row, for
// the two people of a pair and the confirms in transit between them. Every service works on
// the row as it was read some time before, and a confirm is sealed and sent over two awaits.
module Verification {
  import opened ContactCard
  import opened Options
  import opened Text

  type Hash = Bytes

  type CardHash = Card -> Hash

  datatype Status = ConnectedOnly | Verified

  datatype Prekeys = Prekeys(signed: Bytes, kyber: Bytes)

  datatype Contact = Contact(
    id: nat, handle: seq<Unit>, identity: Bytes, prekeys: Option<Prekeys>,
    status: Status, verifiedAt: Option<int>, localConfirmedAt: Option<int>, peerConfirmedAt: Option<int>, blocked: bool)

  // --- history ---

  // A recorded press: the row the user saw, and the eras in which it was read and written. An
  // era ends when the row's local confirm is taken back, its identity key changes, or it goes.
  datatype Pressed = Pressed(row: Contact, seen: nat, landed: nat)

  // A row as read, with the press its local confirm rested on.
  datatype Sight = Sight(row: Contact, era: nat, press: Option<Pressed>)

  // A proof taken up for a card, with the press it rests on and the era of the row it came from.
  datatype Proof = Proof(card: Card, press: Option<Pressed>, era: nat)

  // A send that a press or a received confirm has yet to take up, from the row it worked on; an
  // answer clears the guard first.
  datatype Due = Due(sight: Sight, again: bool)

  datatype Sending = Sending(proof: Proof, sealed: bool)

  // One person's side of a pair: their own card, their row about the peer, whether a session
  // exists, the run-time guards, the reads, dues and sends in progress, and what became of them.
  datatype Person = Person(
    own: Card, contact: Option<Contact>, session: bool, sentThisRun: bool, confirmError: bool,
    seen: set<Sight>, dues: seq<Due>, sends: seq<Sending>, made: nat, era: nat, press: Option<Pressed>,
    vouched: set<Proof>)

  predicate IsMutuallyVerified(c: Contact) {
    c.localConfirmedAt.Some? && c.peerConfirmedAt.Some?
  }

  // --- the contact row ---

  function SetLocalConfirmed(c: Contact, at: int): Contact {
    var done := c.peerConfirmedAt.Some?;
    c.(localConfirmedAt := Some(at), status := if done then Verified else c.status,
       verifiedAt := if done then Some(at) else c.verifiedAt)
  }

  function SetPeerConfirmed(c: Contact, at: int): Contact {
    var done := c.localConfirmedAt.Some?;
    c.(peerConfirmedAt := Some(at), status := if done then Verified else c.status,
       verifiedAt := if done then Some(at) else c.verifiedAt)
  }

  function ResetVerification(c: Contact): Contact {
    c.(status := ConnectedOnly, verifiedAt := None, localConfirmedAt := None, peerConfirmedAt := None, prekeys := None)
  }

  // The peer's card as the row holds it; a row without both prekeys proves nothing.
  function Held(c: Contact): Option<Card> {
    if c.prekeys.None? then None else Some(Card(c.handle, c.identity, c.prekeys.value.signed, c.prekeys.value.kyber))
  }

  function PrekeysOf(card: Card): Prekeys {
    Prekeys(card.signedPreKey, card.kyberPreKey)
  }

  // --- one person ---

  datatype Action =
    | Look                                    // some service or screen reads the row
    | Scan(card: Card, starts: bool, existing: Option<Sight>)
    | Press(sight: Sight, now: int)            // the press on the verify screen
    | Receive(sight: Sight, hash: Hash, now: int)
    | Proceed(due: nat)                       // a press or a received confirm goes on to its send
    | Resend(sight: Sight)                    // this contact's turn after a connect
    | Flush(sight: Sight)                     // something else from the peer decrypted
    | Retry(sight: Sight)
    | Seal(send: nat, works: bool)
    | Finish(send: nat, arrives: bool, ok: bool)
    | SessionArrives
    | IdentityReset(sight: Sight)             // a message under another identity key
    | Block(on: bool)
    | Remove
    | Restart
    | Reonboard(card: Card)

  function Forget(p: Person): Person {
    p.(sentThisRun := false, confirmError := false)
  }

  function WithContact(p: Person, c: Contact): Person {
    p.(contact := Some(c))
  }

  // An update by id finds the row it was meant for.
  predicate Finds(p: Person, sight: Sight) {
    p.contact.Some? && p.contact.value.id == sight.row.id
  }

  // sendConfirm up to its await: the guard is taken, the proof computed from the row given.
  function SendConfirm(p: Person, row: Contact, press: Option<Pressed>, era: nat): Person {
    var card := Held(row);
    if p.sentThisRun || card.None? then p
    else p.(sentThisRun := true, sends := p.sends + [Sending(Proof(card.value, press, era), false)])
  }

  function SendAgain(p: Person, s: Sight): Person {
    SendConfirm(p.(sentThisRun := false), s.row, s.press, s.era)
  }

  function Dropped(p: Person, i: nat): Person
    requires i < |p.sends|
  {
    p.(sends := p.sends[..i] + p.sends[i + 1..])
  }

  function Failed(p: Person): Person {
    p.(sentThisRun := false, confirmError := true)
  }

  // Sealing needs a session; the relay's answer comes later, and a send it did not
  // acknowledge may have reached it all the same.
  function OnSeal(p: Person, i: nat, works: bool): Person
    requires i < |p.sends|
  {
    if p.session && works then p.(sends := p.sends[i := p.sends[i].(sealed := true)]) else Failed(Dropped(p, i))
  }

  function OnFinish(h: CardHash, p: Person, i: nat, arrives: bool, ok: bool): (Person, Option<Hash>)
    requires i < |p.sends|
  {
    var proof := p.sends[i].proof;
    var p1 := Dropped(p, i);
    var p2 := if arrives then p1.(vouched := p1.vouched + {proof}) else p1;
    (if ok then p2.(confirmError := false) else Failed(p2), if arrives then Some(h(proof.card)) else None)
  }

  // Not one's own card, and not that of some third person.
  predicate ForPeer(p: Person, card: Card) {
    card.handle != p.own.handle && (p.contact.Some? ==> p.contact.value.handle == card.handle)
  }

  predicate Changed(existing: Option<Sight>, card: Card) {
    existing.Some? && existing.value.row.identity != card.identityKey
  }

  // The scanning side starts the session when it goes first and has none, or must renew it.
  predicate MustStart(p: Person, card: Card, existing: Option<Sight>) {
    Precedes(p.own.identityKey, card.identityKey) && (Changed(existing, card) || !p.session)
  }

  // The upsert is by id and the handle is unique: it fails over a row it does not know.
  predicate Clashes(p: Person, existing: Option<Sight>) {
    p.contact.Some? && (existing.None? || p.contact.value.id != existing.value.row.id)
  }

  predicate Stores(p: Person, card: Card, starts: bool, existing: Option<Sight>) {
    ForPeer(p, card) && (MustStart(p, card, existing) ==> starts) && !Clashes(p, existing)
  }

  // What the scan writes: the row it read with the card's keys, the confirms kept only under
  // the same identity key.
  function ScannedRow(p: Person, card: Card, existing: Option<Sight>): Contact {
    var id := if existing.Some? then existing.value.row.id else p.made;
    var blocked := existing.Some? && existing.value.row.blocked;
    if existing.None? || Changed(existing, card)
    then Contact(id, card.handle, card.identityKey, Some(PrekeysOf(card)), ConnectedOnly, None, None, None, blocked)
    else existing.value.row.(handle := card.handle, prekeys := Some(PrekeysOf(card)))
  }

  // The row's confirm goes, or its identity key moves.
  predicate EndsEra(before: Option<Contact>, after: Contact) {
    before.Some? && (before.value.identity != after.identity
                     || (before.value.localConfirmedAt.Some? && after.localConfirmedAt.None?))
  }

  function Upsert(p: Person, card: Card, existing: Option<Sight>): Person {
    var row := ScannedRow(p, card, existing);
    WithContact(p, row).(
      made := if existing.None? then p.made + 1 else p.made,
      era := if EndsEra(p.contact, row) then p.era + 1 else p.era,
      press := if row.localConfirmedAt.Some? then existing.value.press else p.press)
  }

  function OnScan(p: Person, card: Card, starts: bool, existing: Option<Sight>): Person {
    var p1 := if Changed(existing, card) then Forget(p).(session := false) else p;
    var p2 := p1.(session := p1.session || (MustStart(p, card, existing) && starts));
    if Stores(p, card, starts, existing) then Upsert(p2, card, existing) else p2
  }

  // The press is written to the row if it is still there; the send, later, uses the row as seen.
  function OnPress(p: Person, s: Sight, now: int): Person {
    var press := Some(Pressed(s.row, s.era, p.era));
    var p1 := p.(dues := p.dues + [Due(Sight(SetLocalConfirmed(s.row, now), s.era, press), false)]);
    if Finds(p, s) then WithContact(p1, SetLocalConfirmed(p.contact.value, now)).(press := press) else p1
  }

  function OnConfirm(h: CardHash, p: Person, s: Sight, hash: Hash, now: int): Person {
    if hash != h(p.own) then p
    else
      var news := s.row.peerConfirmedAt.None? && Finds(p, s);
      var p1 := if news then WithContact(p, SetPeerConfirmed(p.contact.value, now)) else p;
      if s.row.localConfirmedAt.Some? then p1.(dues := p1.dues + [Due(s, true)]) else p1
  }

  function OnProceed(p: Person, i: nat): Person
    requires i < |p.dues|
  {
    var d := p.dues[i];
    var p1 := p.(dues := p.dues[..i] + p.dues[i + 1..]);
    if d.again then SendAgain(p1, d.sight)
    else if p.session then SendConfirm(p1, d.sight.row, d.sight.press, d.sight.era)
    else p1
  }

  predicate AwaitsPeer(c: Contact) {
    c.localConfirmedAt.Some? && c.peerConfirmedAt.None?
  }

  function OnIdentityReset(p: Person, s: Sight): Person {
    var p1 := Forget(p).(session := false);
    if Finds(p, s) then WithContact(p1, ResetVerification(p.contact.value)).(era := p.era + 1) else p1
  }

  function Act(h: CardHash, p: Person, act: Action): (Person, Option<Hash>)
    requires Enabled(p, act)
  {
    match act
    case Look => (if p.contact.Some? then p.(seen := p.seen + {Sight(p.contact.value, p.era, p.press)}) else p, None)
    case Scan(card, starts, existing) => (if ForPeer(p, card) then OnScan(p, card, starts, existing) else p, None)
    case Press(s, now) => (OnPress(p, s, now), None)
    case Receive(s, hash, now) => (if s.row.blocked then p else OnConfirm(h, p.(session := true), s, hash, now), None)
    case Proceed(i) => (OnProceed(p, i), None)
    case Resend(s) => (if s.row.blocked || !AwaitsPeer(s.row) || !p.session then p else SendAgain(p, s), None)
    case Flush(s) => (if AwaitsPeer(s.row) then SendConfirm(p, s.row, s.press, s.era) else p, None)
    case Retry(s) => (SendConfirm(Forget(p), s.row, s.press, s.era), None)
    case Seal(i, works) => (OnSeal(p, i, works), None)
    case Finish(i, arrives, ok) => OnFinish(h, p, i, arrives, ok)
    case SessionArrives => (p.(session := true), None)
    case IdentityReset(s) => (OnIdentityReset(p, s), None)
    case Block(on) => (if p.contact.None? then p else WithContact(p, p.contact.value.(blocked := on)), None)
    case Remove => (Forget(p).(contact := None, session := false, era := p.era + 1), None)
    case Restart => (Forget(p).(seen := {}, dues := [], sends := []), None)
    case Reonboard(card) =>
      (Forget(p).(own := card, contact := None, session := false, seen := {}, dues := [], sends := [],
                  era := p.era + 1), None)
  }

  // The screen offers a retry on a row that waits for the peer, while an error is shown.
  predicate Offered(p: Person, s: Sight) {
    s.row.localConfirmedAt.Some? && !IsMutuallyVerified(s.row) && p.confirmError
  }

  predicate Proper(c: Card) {
    Sized(c) && WellFormed(c.handle)
  }

  // Services work on rows that were read, and cards carry keys of the protocol's sizes.
  predicate Enabled(p: Person, act: Action) {
    match act
    case Scan(card, _, existing) =>
      Proper(card) && (existing.Some? ==> existing.value in p.seen && existing.value.row.handle == card.handle)
    case Press(s, _) => s in p.seen
    case Receive(s, _, _) => s in p.seen
    case Proceed(i) => i < |p.dues|
    case Resend(s) => s in p.seen
    case Flush(s) => s in p.seen
    case Retry(s) => s in p.seen && Offered(p, s)
    case Seal(i, _) => i < |p.sends| && !p.sends[i].sealed
    case Finish(i, arrives, ok) => i < |p.sends| && p.sends[i].sealed && (ok ==> arrives)
    case IdentityReset(s) => s in p.seen
    case Reonboard(card) => Proper(card)
    case _ => true
  }

  // --- the pair ---

  datatype Pair = Pair(a: Person, b: Person, ab: seq<Hash>, ba: seq<Hash>)

  datatype Side = A | B

  datatype Event =
    | Acts(side: Side, act: Action)
    | Delivers(side: Side, sight: Sight, now: int)
    | Loses(side: Side)                       // the head of what is in transit to this side expires

  function Mirror(p: Pair): Pair {
    Pair(p.b, p.a, p.ba, p.ab)
  }

  function ActsA(h: CardHash, p: Pair, act: Action): Pair
    requires Enabled(p.a, act)
  {
    var (a, out) := Act(h, p.a, act);
    p.(a := a, ab := if out.Some? then p.ab + [out.value] else p.ab)
  }

  function DeliversA(h: CardHash, p: Pair, s: Sight, now: int): Pair
    requires s in p.a.seen
  {
    if p.ba == [] then p else ActsA(h, p.(ba := p.ba[1..]), Receive(s, p.ba[0], now))
  }

  function LosesA(p: Pair): Pair {
    if p.ba == [] then p else p.(ba := p.ba[1..])
  }

  // Confirms come only from the wire. One from someone not yet a contact stays unacked at the
  // relay, so it is delivered only where a row was read.
  predicate Possible(p: Pair, e: Event) {
    var self := if e.side == A then p.a else p.b;
    match e
    case Acts(_, act) => !act.Receive? && Enabled(self, act)
    case Delivers(_, s, _) => s in self.seen
    case Loses(_) => true
  }

  function Step(h: CardHash, p: Pair, e: Event): Pair
    requires Possible(p, e)
  {
    match e
    case Acts(A, act) => ActsA(h, p, act)
    case Acts(B, act) => Mirror(ActsA(h, Mirror(p), act))
    case Delivers(A, s, now) => DeliversA(h, p, s, now)
    case Delivers(B, s, now) => Mirror(DeliversA(h, Mirror(p), s, now))
    case Loses(A) => LosesA(p)
    case Loses(B) => Mirror(LosesA(Mirror(p)))
  }

  predicate Runs(h: CardHash, p: Pair, events: seq<Event>, q: Pair)
    decreases |events|
  {
    if events == [] then q == p else Possible(p, events[0]) && Runs(h, Step(h, p, events[0]), events[1..], q)
  }
}
