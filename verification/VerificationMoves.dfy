// What each action does to a person: to the session, to the guard and the error shown, to the
// sends, to the row and to the sends still due. Scans have their own module.
module VerificationMoves {
  import opened ContactCard
  import opened Options
  import opened Verification
  import opened VerificationScans

  // --- the session ---

  // Anything received under a session shows there is one; it goes with the identity, the
  // contact or the account.
  function SessionAfter(p: Person, act: Action): bool {
    match act
    case Receive(s, _, _) => p.session || !s.row.blocked
    case SessionArrives => true
    case IdentityReset(_) => false
    case Remove => false
    case Reonboard(_) => false
    case _ => p.session
  }

  // --- sends ---

  // Confirmed here, not yet by the peer.
  predicate Unanswered(row: Contact) { row.localConfirmedAt.Some? && row.peerConfirmedAt.None? }

  // Whose proof is to go out, if any, and whether it may go a second time in a run: a press
  // needs a session, a resend one and an unblocked row, a deferred one only the confirm; an
  // answer, a resend and a retry go again.
  function Asks(p: Person, act: Action): Option<(Sight, bool)> {
    match act
    case Proceed(i) =>
      if i < |p.dues| && (p.dues[i].again || p.session) then Some((p.dues[i].sight, p.dues[i].again)) else None
    case Resend(s) => if !s.row.blocked && Unanswered(s.row) && p.session then Some((s, true)) else None
    case Flush(s) => if Unanswered(s.row) then Some((s, false)) else None
    case Retry(s) => Some((s, true))
    case _ => None
  }

  // A proof of the card as that row holds it; none without its prekeys.
  predicate ProofOf(row: Contact, card: Card) {
    && row.prekeys.Some? && card.handle == row.handle && card.identityKey == row.identity
    && card.signedPreKey == row.prekeys.value.signed && card.kyberPreKey == row.prekeys.value.kyber
  }

  // The guard lets a send through once a run, or again for one that may go again.
  predicate Starts(p: Person, act: Action) {
    Asks(p, act).Some? && Asks(p, act).value.0.row.prekeys.Some? && (Asks(p, act).value.1 || !p.sentThisRun)
  }

  // The sends before a new one: those in progress, without the one that failed or got through.
  predicate Left(p: Person, act: Action, left: seq<Sending>) {
    match act
    case Seal(i, works) =>
      i < |p.sends| && left == if p.session && works then p.sends[i := Sending(p.sends[i].proof, true)]
                               else p.sends[..i] + p.sends[i + 1..]
    case Finish(i, _, _) => i < |p.sends| && left == p.sends[..i] + p.sends[i + 1..]
    case Restart => left == []
    case Reonboard(_) => left == []
    case _ => left == p.sends
  }

  predicate NewSend(before: seq<Sending>, after: seq<Sending>, s: Sight) {
    && |after| == |before| + 1 && after[..|before|] == before
    && var sending := after[|before|];
       !sending.sealed && ProofOf(s.row, sending.proof.card)
       && sending.proof.press == s.press && sending.proof.era == s.era
  }

  predicate SendsAre(p: Person, act: Action, q: Person) {
    if Starts(p, act) then
      NewSend(p.sends, q.sends, Asks(p, act).value.0)
    else Left(p, act, q.sends)
  }

  // The guard is held by a send that started and was not given back: by a failure, by what
  // forgets the peer, or by a restart.
  function GuardAfter(p: Person, act: Action): bool {
    if Starts(p, act) then true
    else if Asks(p, act).Some? && Asks(p, act).value.1 then false
    else
      match act
      case Seal(_, works) => p.sentThisRun && p.session && works
      case Finish(_, _, ok) => p.sentThisRun && ok
      case IdentityReset(_) => false
      case Remove => false
      case Restart => false
      case Reonboard(_) => false
      case _ => p.sentThisRun
  }

  // An error is shown from a send that failed until one is acknowledged or tried again.
  function ErrorAfter(p: Person, act: Action): bool {
    match act
    case Seal(_, works) => p.confirmError || !(p.session && works)
    case Finish(_, _, ok) => !ok
    case Retry(_) => false
    case IdentityReset(_) => false
    case Remove => false
    case Restart => false
    case Reonboard(_) => false
    case _ => p.confirmError
  }

  // What reaches the peer: the hash of the proof whose send arrived.
  predicate SaysIs(h: CardHash, p: Person, act: Action, out: Option<Hash>) {
    match act
    case Finish(i, arrives, _) =>
      i < |p.sends| && out == if arrives then Some(h(p.sends[i].proof.card)) else None
    case _ => out.None?
  }

  // --- the row ---

  predicate Hits(p: Person, s: Sight) { p.contact.Some? && p.contact.value.id == s.row.id }

  // Both confirms make it verified, dated by the later.
  predicate ConfirmsAre(before: Contact, after: Contact, local: Option<int>, peer: Option<int>, now: int) {
    && after.localConfirmedAt == local && after.peerConfirmedAt == peer
    && (if local.Some? && peer.Some? then after.status == Verified && after.verifiedAt == Some(now)
        else after.status == before.status && after.verifiedAt == before.verifiedAt)
    && after.id == before.id && after.handle == before.handle && after.identity == before.identity
    && after.prekeys == before.prekeys && after.blocked == before.blocked
  }

  // All that was confirmed is gone, and the prekeys with it.
  predicate Cleared(before: Contact, after: Contact) {
    && after.status == ConnectedOnly && after.verifiedAt.None? && after.prekeys.None?
    && after.localConfirmedAt.None? && after.peerConfirmedAt.None?
    && after.id == before.id && after.handle == before.handle && after.identity == before.identity
    && after.blocked == before.blocked
  }

  // A confirm counts if it is of one's own card, from someone not blocked.
  predicate Heeds(h: CardHash, p: Person, act: Action) {
    act.Receive? && !act.sight.row.blocked && act.hash == h(p.own)
  }

  predicate RowAfter(h: CardHash, p: Person, act: Action, q: Person) {
    match act
    case Press(s, now) =>
      if Hits(p, s)
      then q.contact.Some?
           && ConfirmsAre(p.contact.value, q.contact.value, Some(now), p.contact.value.peerConfirmedAt, now)
      else q.contact == p.contact
    case Receive(s, _, now) =>
      if Heeds(h, p, act) && s.row.peerConfirmedAt.None? && Hits(p, s)
      then q.contact.Some?
           && ConfirmsAre(p.contact.value, q.contact.value, p.contact.value.localConfirmedAt, Some(now), now)
      else q.contact == p.contact
    case IdentityReset(s) =>
      if Hits(p, s) then q.contact.Some? && Cleared(p.contact.value, q.contact.value) else q.contact == p.contact
    case Block(on) => q.contact == if p.contact.None? then None else Some(p.contact.value.(blocked := on))
    case Remove => q.contact.None?
    case Reonboard(_) => q.contact.None?
    case _ => q.contact == p.contact
  }

  // --- what is still due ---

  // A press and a confirm that was pressed for each leave a send due; taking one up ends it.
  predicate DuesAre(h: CardHash, p: Person, act: Action, q: Person) {
    match act
    case Press(s, now) =>
      && |q.dues| == |p.dues| + 1 && q.dues[..|p.dues|] == p.dues && !q.dues[|p.dues|].again
      && var row := q.dues[|p.dues|].sight.row;
         ConfirmsAre(s.row, row, Some(now), s.row.peerConfirmedAt, now)
    case Receive(s, _, _) =>
      q.dues == if Heeds(h, p, act) && s.row.localConfirmedAt.Some? then p.dues + [Due(s, true)] else p.dues
    case Proceed(i) => i < |p.dues| && q.dues == p.dues[..i] + p.dues[i + 1..]
    case Restart => q.dues == []
    case Reonboard(_) => q.dues == []
    case _ => q.dues == p.dues
  }

  // --- the laws ---

  lemma SessionIsExact(h: CardHash, p: Person, act: Action)
    requires Enabled(p, act) && !act.Scan?
    ensures Act(h, p, act).0.session == SessionAfter(p, act)
  {
  }

  lemma SendConfirmSends(p: Person, s: Sight)
    ensures var q := SendConfirm(p, s.row, s.press, s.era);
      if p.sentThisRun || s.row.prekeys.None? then q.sends == p.sends else NewSend(p.sends, q.sends, s)
  {
  }

  lemma ProceedSends(h: CardHash, p: Person, act: Action)
    requires Enabled(p, act) && act.Proceed?
    ensures SendsAre(p, act, Act(h, p, act).0)
  {
    var d := p.dues[act.due];
    var p1 := p.(dues := p.dues[..act.due] + p.dues[act.due + 1..]);
    SendConfirmSends(if d.again then p1.(sentThisRun := false) else p1, d.sight);
  }

  lemma AskedSends(h: CardHash, p: Person, act: Action)
    requires Enabled(p, act) && (act.Resend? || act.Flush? || act.Retry?)
    ensures SendsAre(p, act, Act(h, p, act).0)
  {
    SendConfirmSends(if act.Flush? then p else if act.Retry? then Forget(p) else p.(sentThisRun := false), act.sight);
  }

  lemma OthersKeepSends(h: CardHash, p: Person, act: Action)
    requires Enabled(p, act) && !act.Scan? && !act.Proceed? && !act.Resend? && !act.Flush? && !act.Retry?
    ensures SendsAre(p, act, Act(h, p, act).0)
  {
  }

  lemma SendsAreExact(h: CardHash, p: Person, act: Action)
    requires Enabled(p, act) && !act.Scan?
    ensures SendsAre(p, act, Act(h, p, act).0)
  {
    if act.Proceed? {
      ProceedSends(h, p, act);
    } else if act.Resend? || act.Flush? || act.Retry? {
      AskedSends(h, p, act);
    } else {
      OthersKeepSends(h, p, act);
    }
  }

  lemma SaysExactly(h: CardHash, p: Person, act: Action)
    requires Enabled(p, act)
    ensures SaysIs(h, p, act, Act(h, p, act).1)
  {
  }

  lemma GuardIsExact(h: CardHash, p: Person, act: Action)
    requires Enabled(p, act) && !act.Scan?
    ensures Act(h, p, act).0.sentThisRun == GuardAfter(p, act)
  {
  }

  lemma ErrorIsExact(h: CardHash, p: Person, act: Action)
    requires Enabled(p, act) && !act.Scan?
    ensures Act(h, p, act).0.confirmError == ErrorAfter(p, act)
  {
  }

  lemma LocalConfirmWrites(c: Contact, now: int)
    ensures ConfirmsAre(c, SetLocalConfirmed(c, now), Some(now), c.peerConfirmedAt, now)
  {
  }

  lemma PressWrites(h: CardHash, p: Person, act: Action)
    requires Enabled(p, act) && act.Press?
    ensures RowAfter(h, p, act, Act(h, p, act).0)
  {
    if Hits(p, act.sight) { LocalConfirmWrites(p.contact.value, act.now); }
  }

  lemma PressLeavesDue(h: CardHash, p: Person, act: Action)
    requires Enabled(p, act) && act.Press?
    ensures DuesAre(h, p, act, Act(h, p, act).0)
  {
    LocalConfirmWrites(act.sight.row, act.now);
  }

  lemma ConfirmWrites(h: CardHash, p: Person, act: Action)
    requires Enabled(p, act) && act.Receive?
    ensures var q := Act(h, p, act).0; RowAfter(h, p, act, q) && DuesAre(h, p, act, q)
  {
  }

  lemma OthersWrite(h: CardHash, p: Person, act: Action)
    requires Enabled(p, act) && !act.Scan? && !act.Press? && !act.Receive?
    ensures RowAfter(h, p, act, Act(h, p, act).0)
  {
  }

  lemma OthersLeaveDue(h: CardHash, p: Person, act: Action)
    requires Enabled(p, act) && !act.Scan? && !act.Press? && !act.Receive?
    ensures DuesAre(h, p, act, Act(h, p, act).0)
  {
  }

  lemma RowIsExact(h: CardHash, p: Person, act: Action)
    requires Enabled(p, act) && !act.Scan?
    ensures var q := Act(h, p, act).0; RowAfter(h, p, act, q) && DuesAre(h, p, act, q)
  {
    if act.Press? {
      PressWrites(h, p, act);
      PressLeavesDue(h, p, act);
    } else if act.Receive? {
      ConfirmWrites(h, p, act);
    } else {
      OthersWrite(h, p, act);
      OthersLeaveDue(h, p, act);
    }
  }

  // --- what follows ---

  // No confirm is forgotten: whatever failed before, a person whose row waits for the peer
  // sends again when the contact's turn comes, and is offered a retry while an error shows.
  lemma UnansweredIsSentAgain(h: CardHash, p: Person, s: Sight)
    requires s in p.seen && p.contact == Some(s.row) && Unanswered(s.row) && s.row.prekeys.Some?
    ensures !s.row.blocked && p.session ==> |Act(h, p, Resend(s)).0.sends| == |p.sends| + 1
    ensures p.confirmError ==> Enabled(p, Retry(s)) && |Act(h, p, Retry(s)).0.sends| == |p.sends| + 1
    ensures !p.sentThisRun ==> |Act(h, p, Flush(s)).0.sends| == |p.sends| + 1
  {
    SendsAreExact(h, p, Resend(s));
    SendsAreExact(h, p, Flush(s));
    if p.confirmError { SendsAreExact(h, p, Retry(s)); }
  }

  // A send that failed gives its guard back, so that the next one goes out.
  lemma FailureIsNotFinal(h: CardHash, p: Person, i: nat, arrives: bool)
    requires i < |p.sends|
    ensures !p.sends[i].sealed ==>
      var q := Act(h, p, Seal(i, false)).0; !q.sentThisRun && q.confirmError && |q.sends| == |p.sends| - 1
    ensures p.sends[i].sealed ==>
      var q := Act(h, p, Finish(i, arrives, false)).0; !q.sentThisRun && q.confirmError && |q.sends| == |p.sends| - 1
  {
    if p.sends[i].sealed {
      GuardIsExact(h, p, Finish(i, arrives, false));
      ErrorIsExact(h, p, Finish(i, arrives, false));
      SendsAreExact(h, p, Finish(i, arrives, false));
    } else {
      GuardIsExact(h, p, Seal(i, false));
      ErrorIsExact(h, p, Seal(i, false));
      SendsAreExact(h, p, Seal(i, false));
    }
  }
}
