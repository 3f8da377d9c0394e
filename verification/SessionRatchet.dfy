// What the operations do to a peer's records, said of the cipher itself: which record is
// stored, which identity pinned, what is returned; and what a run of them leaves.
module SessionRatchet {
  import opened Options
  import opened Sessions
  import opened SessionProofs

  // The plaintext of an opened message, or the complaint about its padding.
  predicate Reads(b: Backend, padded: Bytes, r: Outcome) {
    match b.unpad(padded)
    case None => r == Err(BadPadding)
    case Some(bytes) => r == Ok(Opened(bytes))
  }

  // Nothing happens but that the caller is told why.
  predicate Refuses(p: Peer, q: Peer, r: Outcome, why: Failure) {
    q == p && r == Err(why)
  }

  // The cipher takes one step from the stored record: what it returns is stored, the pin stays.
  predicate Encrypts(b: Backend, p: Peer, plaintext: Bytes, q: Peer, r: Outcome) {
    if p.session.None? then Refuses(p, q, r, NoSession)
    else
      match b.encrypt(p.session.value, plaintext)
      case Err(why) => Refuses(p, q, r, why)
      case Ok((record, cipher)) => q.session == Some(record) && q.pin == p.pin && r == Ok(Sealed(cipher))
  }

  predicate OpensWhisper(b: Backend, p: Peer, cipher: Cipher, q: Peer, r: Outcome) {
    if p.session.None? then Refuses(p, q, r, NoSession)
    else
      match b.decryptWhisper(p.session.value, cipher)
      case Err(why) => Refuses(p, q, r, why)
      case Ok((record, padded)) => q.session == Some(record) && q.pin == p.pin && Reads(b, padded, r)
  }

  // A message of another identity than the pinned one changes nothing; the first one pins.
  predicate OpensPreKey(b: Backend, local: Local, p: Peer, cipher: Cipher, q: Peer, r: Outcome) {
    if !local.prekeys then Refuses(p, q, r, NoPreKeys)
    else
      match b.decryptPreKey(p.session, cipher)
      case Err(why) => Refuses(p, q, r, why)
      case Ok((record, identity, padded)) =>
        if p.pin.Some? && p.pin.value != identity then Refuses(p, q, r, IdentityChanged(identity))
        else q.session == Some(record) && q.pin == Some(identity) && Reads(b, padded, r)
  }

  // The scanned identity is pinned whatever was pinned before.
  predicate Starts(b: Backend, p: Peer, bundle: Bundle, q: Peer, r: Outcome) {
    match b.processPreKeyBundle(p.session, bundle)
    case Err(why) => Refuses(p, q, r, why)
    case Ok(record) => q.session == Some(record) && q.pin == Some(bundle.identityKey) && r == Ok(Nothing)
  }

  // The operation takes a peer from p to q and returns r.
  predicate Does(b: Backend, local: Local, p: Peer, op: Op, q: Peer, r: Outcome) {
    if op.DeleteSession? then q.session.None? && q.pin.None? && r == Ok(Nothing)
    else if !local.provisioned then Refuses(p, q, r, NotProvisioned)
    else
      match op
      case Encrypt(plaintext) => Encrypts(b, p, plaintext, q, r)
      case DecryptPreKey(cipher) => OpensPreKey(b, local, p, cipher, q, r)
      case DecryptWhisper(cipher) => OpensWhisper(b, p, cipher, q, r)
      case StartSession(bundle) => Starts(b, p, bundle, q, r)
  }

  lemma AppliedDoes(b: Backend, local: Local, p: Peer, op: Op)
    ensures Does(b, local, p, op, Apply(b, local, p, op).0, Apply(b, local, p, op).1)
  {
  }

  lemma DoesOneThing(b: Backend, local: Local, p: Peer, op: Op, q: Peer, r: Outcome)
    requires Does(b, local, p, op, q, r)
    ensures Apply(b, local, p, op) == (q, r)
  {
  }

  // --- over runs ---

  // The records a handle goes through, from one finished call to the next.
  predicate GoesThrough(b: Backend, local: Local, calls: seq<Call>, h: Handle, states: seq<Peer>) {
    && |states| == |calls| + 1
    && forall t :: 0 <= t < |calls| ==>
         if calls[t].handle == h && calls[t].pc.Done?
         then Does(b, local, states[t], calls[t].op, states[t + 1], calls[t].pc.outcome)
         else states[t + 1] == states[t]
  }

  function StatesOf(b: Backend, local: Local, p: Peer, calls: seq<Call>, h: Handle): seq<Peer> {
    seq(|calls| + 1, k requires 0 <= k <= |calls| => Folded(b, local, p, calls, h, k))
  }

  lemma StateStep(b: Backend, local: Local, p: Peer, calls: seq<Call>, h: Handle, k: nat)
    requires k < |calls| && OutcomesFit(b, local, p, calls, h)
    ensures var before, after := Folded(b, local, p, calls, h, k), Folded(b, local, p, calls, h, k + 1);
      if calls[k].handle == h && calls[k].pc.Done?
      then Does(b, local, before, calls[k].op, after, calls[k].pc.outcome)
      else after == before
  {
    AppliedDoes(b, local, Folded(b, local, p, calls, h, k), calls[k].op);
  }

  lemma FoldGoesThrough(b: Backend, local: Local, p: Peer, calls: seq<Call>, h: Handle)
    requires OutcomesFit(b, local, p, calls, h)
    ensures GoesThrough(b, local, calls, h, StatesOf(b, local, p, calls, h))
  {
    var states := StatesOf(b, local, p, calls, h);
    forall k | 0 <= k < |calls|
      ensures if calls[k].handle == h && calls[k].pc.Done?
              then Does(b, local, states[k], calls[k].op, states[k + 1], calls[k].pc.outcome)
              else states[k + 1] == states[k]
    {
      StateStep(b, local, p, calls, h, k);
    }
  }

  // In every run, however the calls of all handles interleave: the finished calls of a handle
  // take its records from the first state to the last, each doing to the cipher's own records
  // what its kind says, in call order; with none in flight the last state is the stored one.
  lemma EveryCallDoes(b: Backend, kv: Kv, events: seq<Event>, t: State, h: Handle) returns (states: seq<Peer>)
    requires Runs(b, SessionProofs.Start(kv), events, t)
    ensures GoesThrough(b, LocalAt(kv), t.calls, h, states) && states[0] == PeerAt(kv, h)
    ensures NoneActive(t.calls, h) ==> PeerAt(t.kv, h) == states[|t.calls|]
  {
    PerPeerLinearizable(b, kv, events, t, h);
    states := StatesOf(b, LocalAt(kv), PeerAt(kv, h), t.calls, h);
    FoldGoesThrough(b, LocalAt(kv), PeerAt(kv, h), t.calls, h);
  }

  // --- consecutive encrypts ---

  // The cipher's own iteration from a record; a step that fails leaves the record.
  function Iterated(b: Backend, record: Record, plaintexts: seq<Bytes>): Record {
    if plaintexts == [] then record
    else
      var n := |plaintexts| - 1;
      var before := Iterated(b, record, plaintexts[..n]);
      match b.encrypt(before, plaintexts[n])
      case Err(_) => before
      case Ok((after, _)) => after
  }

  // What a handle was asked to encrypt by the first n calls.
  function Asked(calls: seq<Call>, h: Handle, n: nat): seq<Bytes>
    requires n <= |calls|
  {
    if n == 0 then []
    else Asked(calls, h, n - 1) +
           if calls[n - 1].handle == h && calls[n - 1].op.Encrypt? then [calls[n - 1].op.plaintext] else []
  }

  predicate OnlyEncrypts(calls: seq<Call>, h: Handle) {
    forall t :: 0 <= t < |calls| && calls[t].handle == h ==> calls[t].op.Encrypt? && calls[t].pc.Done?
  }

  // What the cipher returned for a plaintext at its record.
  predicate SealedFrom(b: Backend, record: Record, plaintext: Bytes, r: Outcome) {
    match b.encrypt(record, plaintext)
    case Err(why) => r == Err(why)
    case Ok((_, cipher)) => r == Ok(Sealed(cipher))
  }

  lemma {:induction false} StatesIterate(b: Backend, local: Local, calls: seq<Call>, h: Handle, states: seq<Peer>,
                                         record: Record, n: nat)
    requires GoesThrough(b, local, calls, h, states) && OnlyEncrypts(calls, h) && local.provisioned && n <= |calls|
    requires states[0].session == Some(record)
    ensures states[n].session == Some(Iterated(b, record, Asked(calls, h, n))) && states[n].pin == states[0].pin
  {
    if n > 0 {
      StatesIterate(b, local, calls, h, states, record, n - 1);
      var asked := Asked(calls, h, n - 1);
      if calls[n - 1].handle == h {
        assert (asked + [calls[n - 1].op.plaintext])[..|asked|] == asked;
      } else {
        assert asked + [] == asked;
      }
    }
  }

  lemma StepSeals(b: Backend, local: Local, calls: seq<Call>, h: Handle, states: seq<Peer>, record: Record, k: nat)
    requires GoesThrough(b, local, calls, h, states) && OnlyEncrypts(calls, h) && local.provisioned
    requires k < |calls| && calls[k].handle == h && states[k].session == Some(record)
    ensures SealedFrom(b, record, calls[k].op.plaintext, calls[k].pc.outcome)
  {
    assert Does(b, local, states[k], calls[k].op, states[k + 1], calls[k].pc.outcome);
  }

  // However the calls of other handles interleave: encrypts of a handle leave the record that
  // the cipher reaches by itself over their plaintexts in call order, with the pin untouched,
  // and each returned what the cipher sealed at its own record.
  lemma EncryptsIterate(b: Backend, kv: Kv, events: seq<Event>, t: State, h: Handle, record: Record)
    requires Runs(b, SessionProofs.Start(kv), events, t) && LocalAt(kv).provisioned
    requires PeerAt(kv, h).session == Some(record) && OnlyEncrypts(t.calls, h)
    ensures PeerAt(t.kv, h) == Peer(Some(Iterated(b, record, Asked(t.calls, h, |t.calls|))), PeerAt(kv, h).pin)
    ensures forall k :: 0 <= k < |t.calls| && t.calls[k].handle == h ==>
              SealedFrom(b, Iterated(b, record, Asked(t.calls, h, k)), t.calls[k].op.plaintext, t.calls[k].pc.outcome)
  {
    var states := EveryCallDoes(b, kv, events, t, h);
    StatesIterate(b, LocalAt(kv), t.calls, h, states, record, |t.calls|);
    EachSeals(b, LocalAt(kv), t.calls, h, states, record);
  }

  lemma EachSeals(b: Backend, local: Local, calls: seq<Call>, h: Handle, states: seq<Peer>, record: Record)
    requires GoesThrough(b, local, calls, h, states) && OnlyEncrypts(calls, h) && local.provisioned
    requires states[0].session == Some(record)
    ensures forall k :: 0 <= k < |calls| && calls[k].handle == h ==>
              SealedFrom(b, Iterated(b, record, Asked(calls, h, k)), calls[k].op.plaintext, calls[k].pc.outcome)
  {
    forall k | 0 <= k < |calls| && calls[k].handle == h
      ensures SealedFrom(b, Iterated(b, record, Asked(calls, h, k)), calls[k].op.plaintext, calls[k].pc.outcome)
    {
      StatesIterate(b, local, calls, h, states, record, k);
      StepSeals(b, local, calls, h, states, Iterated(b, record, Asked(calls, h, k)), k);
    }
  }
}
