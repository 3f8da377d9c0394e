// Per peer linearizability: for any interleaving, the operations on one handle take effect
// one after another in call order, each as if it had run alone.
module SessionProofs {
  import opened Options
  import opened Sessions

  // --- keys ---

  lemma KeysAreApart(h: Handle, g: Handle)
    ensures SessionKey(h) == SessionKey(g) ==> h == g
    ensures IdentityKey(h) == IdentityKey(g) ==> h == g
    ensures SessionKey(h) != IdentityKey(g)
    ensures SessionKey(h) !in LOCAL_KEYS && IdentityKey(h) !in LOCAL_KEYS
  {
    assert SessionKey(h)[0] == 's' && SessionKey(h)[1] == 'e' && IdentityKey(g)[0] == 'i';
    assert IdentityKey(h)[0] == 'i' && IdentityKey(h)[2] == 'e';
    assert IDENTITY_KEY_PAIR[2] == 'k' && SIGNED_PREKEY[1] == 'i' && STORE_FORMAT[1] == 't';
    if SessionKey(h) == SessionKey(g) { Middle("session:", h, ".1"); Middle("session:", g, ".1"); }
    if IdentityKey(h) == IdentityKey(g) { Middle("identity:", h, ""); Middle("identity:", g, ""); }
  }

  lemma Middle(before: string, h: string, after: string)
    ensures var s := before + h + after; |s| >= |before| + |after| && s[|before|..|s| - |after|] == h
  {
  }

  // --- what one operation does ---

  // A failed operation leaves both records alone, except that the padding is checked only
  // after the session record was stored.
  lemma FailureChangesNothing(b: Backend, local: Local, p: Peer, op: Op)
    ensures var (q, outcome) := Apply(b, local, p, op); outcome.Err? && outcome.error != BadPadding ==> q == p
  {
  }

  // That exception, in full: the record has moved on although the plaintext is refused, and a
  // first contact is pinned by a message whose plaintext was refused.
  lemma BadPaddingAdvances(b: Backend, local: Local, p: Peer, cipher: Cipher, record: Record, padded: Bytes)
    requires local.provisioned && p.session.Some?
    requires b.decryptWhisper(p.session.value, cipher) == Ok((record, padded)) && b.unpad(padded).None?
    ensures Apply(b, local, p, DecryptWhisper(cipher)) == (Peer(Some(record), p.pin), Err(BadPadding))
  {
    assert Decide(b, local, DecryptWhisper(cipher), None, p.session) == Write(record, None, Err(BadPadding));
  }

  lemma BadPaddingPins(
      b: Backend, local: Local, p: Peer, cipher: Cipher, record: Record, identity: Identity, padded: Bytes)
    requires local.provisioned && local.prekeys
    requires b.decryptPreKey(p.session, cipher) == Ok((record, identity, padded)) && b.unpad(padded).None?
    ensures p.pin.None? || p.pin == Some(identity) ==>
      Apply(b, local, p, DecryptPreKey(cipher)) == (Peer(Some(record), Some(identity)), Err(BadPadding))
    ensures p.pin.Some? && p.pin != Some(identity) ==>
      Apply(b, local, p, DecryptPreKey(cipher)) == (p, Err(IdentityChanged(identity)))
  {
    var pin := if p.pin.None? then Some(identity) else None;
    if p.pin.None? || p.pin == Some(identity) {
      assert Decide(b, local, DecryptPreKey(cipher), p.pin, p.session) == Write(record, pin, Err(BadPadding));
    }
  }

  // Session and pin are present together, before and after.
  lemma SessionAndPinTogether(b: Backend, local: Local, p: Peer, op: Op)
    requires p.session.Some? <==> p.pin.Some?
    ensures var q := Apply(b, local, p, op).0; q.session.Some? <==> q.pin.Some?
  {
  }

  // A key change never moves the ratchet or the pin: only a fresh scan replaces a pin.
  lemma PinMovesOnlyByScan(b: Backend, local: Local, p: Peer, op: Op)
    requires p.pin.Some? && !op.StartSession? && !op.DeleteSession?
    ensures Apply(b, local, p, op).0.pin == p.pin
  {
  }

  // --- the calls of one handle ---

  predicate Started(c: Call) {
    !c.pc.Waiting?
  }

  predicate Active(c: Call) {
    Started(c) && !c.pc.Done?
  }

  // The latest of the first t calls that is for h.
  function Previous(calls: seq<Call>, h: Handle, t: nat): Option<nat>
    requires t <= |calls|
  {
    if t == 0 then None else if calls[t - 1].handle == h then Some(t - 1) else Previous(calls, h, t - 1)
  }

  predicate Chained(calls: seq<Call>, h: Handle) {
    forall t :: 0 <= t < |calls| && calls[t].handle == h ==> calls[t].after == Previous(calls, h, t)
  }

  // A call starts only when the one it was chained on is done.
  predicate InTurn(calls: seq<Call>, h: Handle) {
    forall t :: 0 <= t < |calls| && calls[t].handle == h && Started(calls[t]) && calls[t].after.Some? ==>
      calls[t].after.value < t && calls[calls[t].after.value].pc.Done?
  }

  lemma {:induction false} PreviousIs(calls: seq<Call>, h: Handle, t: nat)
    requires t <= |calls|
    ensures match Previous(calls, h, t)
      case None => forall u :: 0 <= u < t ==> calls[u].handle != h
      case Some(p) => p < t && calls[p].handle == h && forall u :: p < u < t ==> calls[u].handle != h
  {
    if t > 0 { PreviousIs(calls, h, t - 1); }
  }

  predicate SameHandles(calls: seq<Call>, others: seq<Call>, t: nat)
    requires t <= |calls| && t <= |others|
  {
    forall u :: 0 <= u < t ==> calls[u].handle == others[u].handle
  }

  lemma {:induction false} PreviousSame(calls: seq<Call>, others: seq<Call>, h: Handle, t: nat)
    requires t <= |calls| && t <= |others| && SameHandles(calls, others, t)
    ensures Previous(calls, h, t) == Previous(others, h, t)
  {
    if t > 0 { PreviousSame(calls, others, h, t - 1); }
  }

  // A call that has started has every earlier call for its handle behind it.
  lemma {:induction false} EarlierAreDone(calls: seq<Call>, h: Handle, t: nat, u: nat)
    requires Chained(calls, h) && InTurn(calls, h)
    requires t < u < |calls| && calls[t].handle == h && calls[u].handle == h && Started(calls[u])
    ensures calls[t].pc.Done?
    decreases u
  {
    PreviousIs(calls, h, u);
    var p := Previous(calls, h, u);
    assert p.Some? && t <= p.value;
    if t < p.value { EarlierAreDone(calls, h, t, p.value); }
  }

  // Operations on one handle never overlap.
  lemma NeverTwoActive(calls: seq<Call>, h: Handle, t: nat, u: nat)
    requires Chained(calls, h) && InTurn(calls, h) && t < u < |calls| && calls[t].handle == h && calls[u].handle == h
    ensures !(Active(calls[t]) && Active(calls[u]))
  {
    if Active(calls[u]) { EarlierAreDone(calls, h, t, u); }
  }

  // --- the fold ---

  // The operations done on a handle among the first n calls, folded in call order.
  function Folded(b: Backend, local: Local, p: Peer, calls: seq<Call>, h: Handle, n: nat): Peer
    requires n <= |calls|
  {
    if n == 0 then p
    else
      var before := Folded(b, local, p, calls, h, n - 1);
      if calls[n - 1].handle == h && calls[n - 1].pc.Done? then Apply(b, local, before, calls[n - 1].op).0 else before
  }

  lemma {:induction false} FoldedSkips(b: Backend, local: Local, p: Peer, calls: seq<Call>, h: Handle, t: nat, n: nat)
    requires t <= n <= |calls| && forall u :: t <= u < n && calls[u].handle == h ==> !calls[u].pc.Done?
    ensures Folded(b, local, p, calls, h, n) == Folded(b, local, p, calls, h, t)
    decreases n
  {
    if t < n { FoldedSkips(b, local, p, calls, h, t, n - 1); }
  }

  predicate SameDone(calls: seq<Call>, others: seq<Call>, h: Handle, n: nat)
    requires n <= |calls| && n <= |others|
  {
    forall u :: 0 <= u < n ==>
      && calls[u].handle == others[u].handle
      && (calls[u].handle == h ==> calls[u].op == others[u].op && (calls[u].pc.Done? <==> others[u].pc.Done?))
  }

  lemma {:induction false} FoldedSame(b: Backend, local: Local, p: Peer, calls: seq<Call>, others: seq<Call>,
      h: Handle, n: nat)
    requires n <= |calls| && n <= |others| && SameDone(calls, others, h, n)
    ensures Folded(b, local, p, calls, h, n) == Folded(b, local, p, others, h, n)
  {
    if n > 0 { FoldedSame(b, local, p, calls, others, h, n - 1); }
  }

  // What a running call has read is what the records held when it began, and it has written
  // at most its session record.
  predicate PcFits(b: Backend, local: Local, base: Peer, op: Op, pc: Pc, now: Peer) {
    match pc
    case Begun => now == base
    case HaveParty => now == base && local.provisioned && !op.DeleteSession?
    case HavePin(pinned) => now == base && local.provisioned && op.DecryptPreKey? && pinned == base.pin
    case HaveRecords(pinned, existing) =>
      && now == base && local.provisioned && !op.DeleteSession? && existing == base.session
      && pinned == if op.DecryptPreKey? then base.pin else None
    case ToStore(record, pin, outcome) =>
      && now == base && Apply(b, local, base, op) == (Peer(Some(record), if pin.Some? then pin else base.pin), outcome)
    case ToPin(identity, outcome) =>
      && now.session.Some? && now.pin == base.pin
          && Apply(b, local, base, op) == (Peer(now.session, Some(identity)), outcome)
    case ToUnpin => op.DeleteSession? && now == Peer(None, base.pin)
    case Done(outcome) => Apply(b, local, base, op) == (now, outcome)
    case Waiting => now == base
  }

  lemma SegmentFits(b: Backend, kv: Kv, h: Handle, op: Op, pc: Pc, base: Peer)
    requires !pc.Done? && PcFits(b, LocalAt(kv), base, op, pc, PeerAt(kv, h))
    ensures var (kv1, pc1) := Segment(b, kv, h, op, pc);
      PcFits(b, LocalAt(kv), base, op, pc1, PeerAt(kv1, h)) && !pc1.Waiting?
  {
    KeysAreApart(h, h);
  }

  // A segment writes only keys of its own handle.
  lemma SegmentIsLocal(b: Backend, kv: Kv, h: Handle, op: Op, pc: Pc, g: Handle)
    requires !pc.Done?
    ensures var kv1 := Segment(b, kv, h, op, pc).0;
      LocalAt(kv1) == LocalAt(kv) && (g != h ==> PeerAt(kv1, g) == PeerAt(kv, g))
  {
    KeysAreApart(h, g);
    KeysAreApart(g, h);
  }

  // --- linearizability, one handle at a time ---

  // Every finished call returned what it returns after the calls before it.
  predicate OutcomesFit(b: Backend, local: Local, p: Peer, calls: seq<Call>, h: Handle) {
    forall t :: 0 <= t < |calls| && calls[t].handle == h && calls[t].pc.Done? ==>
      calls[t].pc.outcome == Apply(b, local, Folded(b, local, p, calls, h, t), calls[t].op).1
  }

  predicate NoneActive(calls: seq<Call>, h: Handle) {
    forall t :: 0 <= t < |calls| && calls[t].handle == h ==> !Active(calls[t])
  }

  // The records are those of the finished calls folded in call order, with at most the
  // running call's own write on top.
  predicate RecordsFit(b: Backend, local: Local, base: Peer, calls: seq<Call>, h: Handle, now: Peer) {
    && (NoneActive(calls, h) ==> now == base)
    && forall t :: 0 <= t < |calls| && calls[t].handle == h && Active(calls[t]) ==>
        PcFits(b, local, base, calls[t].op, calls[t].pc, now)
  }

  predicate LastInChain(s: State, h: Handle) {
    Previous(s.calls, h, |s.calls|) == if h in s.chains then Some(s.chains[h]) else None
  }

  predicate Linear(b: Backend, local: Local, p: Peer, s: State, h: Handle) {
    && LocalAt(s.kv) == local && LastInChain(s, h)
    && Chained(s.calls, h) && InTurn(s.calls, h) && OutcomesFit(b, local, p, s.calls, h)
    && RecordsFit(b, local, Folded(b, local, p, s.calls, h, |s.calls|), s.calls, h, PeerAt(s.kv, h))
  }

  // --- a new call ---

  lemma EnterKeepsChains(s: State, g: Handle, op: Op, h: Handle)
    requires LastInChain(s, h) && Chained(s.calls, h) && InTurn(s.calls, h)
    ensures var t := StepEnter(s, g, op); LastInChain(t, h) && Chained(t.calls, h) && InTurn(t.calls, h)
  {
    var t := StepEnter(s, g, op);
    PreviousSame(t.calls, s.calls, h, |s.calls|);
    forall k | 0 <= k < |t.calls| && t.calls[k].handle == h ensures t.calls[k].after == Previous(t.calls, h, k) {
      PreviousSame(t.calls, s.calls, h, k);
    }
  }

  lemma EnterKeepsOutcomes(b: Backend, local: Local, p: Peer, calls: seq<Call>, c: Call, h: Handle)
    requires OutcomesFit(b, local, p, calls, h) && c.pc.Waiting?
    ensures OutcomesFit(b, local, p, calls + [c], h)
    ensures Folded(b, local, p, calls + [c], h, |calls| + 1) == Folded(b, local, p, calls, h, |calls|)
  {
    var more := calls + [c];
    FoldedSame(b, local, p, more, calls, h, |calls|);
    forall t | 0 <= t < |more| && more[t].handle == h && more[t].pc.Done?
      ensures more[t].pc.outcome == Apply(b, local, Folded(b, local, p, more, h, t), more[t].op).1 {
      FoldedSame(b, local, p, more, calls, h, t);
    }
  }

  lemma EnterKeepsRecords(b: Backend, local: Local, base: Peer, calls: seq<Call>, c: Call, h: Handle, now: Peer)
    requires RecordsFit(b, local, base, calls, h, now) && c.pc.Waiting?
    ensures RecordsFit(b, local, base, calls + [c], h, now)
  {
    var more := calls + [c];
    if NoneActive(more, h) {
      forall t | 0 <= t < |calls| && calls[t].handle == h ensures !Active(calls[t]) { assert more[t] == calls[t]; }
    }
  }

  lemma EnterKeepsLinear(b: Backend, local: Local, p: Peer, s: State, g: Handle, op: Op, h: Handle)
    requires Linear(b, local, p, s, h)
    ensures Linear(b, local, p, StepEnter(s, g, op), h)
  {
    var c := StepEnter(s, g, op).calls[|s.calls|];
    EnterKeepsChains(s, g, op, h);
    EnterKeepsOutcomes(b, local, p, s.calls, c, h);
    EnterKeepsRecords(b, local, Folded(b, local, p, s.calls, h, |s.calls|), s.calls, c, h, PeerAt(s.kv, h));
  }

  // --- one segment of a call ---

  lemma TickKeepsChains(s: State, t: nat, pc: Pc, h: Handle)
    requires LastInChain(s, h) && Chained(s.calls, h) && InTurn(s.calls, h)
    requires Enabled(s, Tick(t)) && !pc.Waiting?
    ensures var r := s.(calls := s.calls[t := s.calls[t].(pc := pc)]);
      LastInChain(r, h) && Chained(r.calls, h) && InTurn(r.calls, h)
  {
    var calls := s.calls[t := s.calls[t].(pc := pc)];
    PreviousSame(calls, s.calls, h, |s.calls|);
    PreviousIs(s.calls, s.calls[t].handle, t);
    forall k | 0 <= k < |calls| && calls[k].handle == h ensures calls[k].after == Previous(calls, h, k) {
      PreviousSame(calls, s.calls, h, k);
    }
  }

  // A call about to move: the earlier ones of its handle are done, the later ones wait.
  lemma MovingCallStandsAlone(s: State, t: nat, h: Handle, u: nat)
    requires Chained(s.calls, h) && InTurn(s.calls, h) && Enabled(s, Tick(t)) && s.calls[t].handle == h
    requires u < |s.calls| && u != t && s.calls[u].handle == h
    ensures if u < t then s.calls[u].pc.Done? else s.calls[u].pc.Waiting?
  {
    if u > t {
      if Started(s.calls[u]) { EarlierAreDone(s.calls, h, t, u); }
    } else if Started(s.calls[t]) {
      EarlierAreDone(s.calls, h, u, t);
    } else {
      PreviousIs(s.calls, h, t);
      var p := s.calls[t].after.value;
      if u < p { EarlierAreDone(s.calls, h, u, p); }
    }
  }

  lemma MovingCallFits(b: Backend, local: Local, p: Peer, s: State, t: nat, h: Handle)
    requires Linear(b, local, p, s, h) && Enabled(s, Tick(t)) && s.calls[t].handle == h
    ensures PcFits(b, local, Folded(b, local, p, s.calls, h, |s.calls|), s.calls[t].op, s.calls[t].pc, PeerAt(s.kv, h))
    ensures Folded(b, local, p, s.calls, h, |s.calls|) == Folded(b, local, p, s.calls, h, t)
  {
    forall u | 0 <= u < |s.calls| && u != t && s.calls[u].handle == h
      ensures if u < t then s.calls[u].pc.Done? else s.calls[u].pc.Waiting? {
      MovingCallStandsAlone(s, t, h, u);
    }
    FoldedSkips(b, local, p, s.calls, h, t, |s.calls|);
    if s.calls[t].pc.Waiting? { assert NoneActive(s.calls, h); }
  }

  // The outcomes and the fold after the call at t has moved to pc.
  lemma TickKeepsOutcomes(b: Backend, local: Local, p: Peer, s: State, t: nat, pc: Pc, h: Handle)
    requires Linear(b, local, p, s, h) && Enabled(s, Tick(t)) && s.calls[t].handle == h
    requires pc.Done? ==> pc.outcome == Apply(b, local, Folded(b, local, p, s.calls, h, t), s.calls[t].op).1
    ensures var calls := s.calls[t := s.calls[t].(pc := pc)];
      && OutcomesFit(b, local, p, calls, h)
      && Folded(b, local, p, calls, h, |calls|) ==
         if pc.Done? then Apply(b, local, Folded(b, local, p, s.calls, h, t), s.calls[t].op).0
             else Folded(b, local, p, s.calls, h, t)
  {
    var calls := s.calls[t := s.calls[t].(pc := pc)];
    forall u | 0 <= u < |calls| && u != t && calls[u].handle == h
      ensures if u < t then calls[u].pc.Done? else calls[u].pc.Waiting? {
      MovingCallStandsAlone(s, t, h, u);
    }
    FoldedSkips(b, local, p, calls, h, t + 1, |calls|);
    FoldedSame(b, local, p, calls, s.calls, h, t);
    forall u | 0 <= u < |calls| && calls[u].handle == h && calls[u].pc.Done?
      ensures calls[u].pc.outcome == Apply(b, local, Folded(b, local, p, calls, h, u), calls[u].op).1 {
      FoldedSame(b, local, p, calls, s.calls, h, u);
    }
  }

  lemma TickKeepsRecords(b: Backend, local: Local, s: State, t: nat, pc: Pc, h: Handle, base: Peer, now: Peer)
    requires Chained(s.calls, h) && InTurn(s.calls, h) && Enabled(s, Tick(t)) && s.calls[t].handle == h
    requires !pc.Waiting? && if pc.Done? then now == base else PcFits(b, local, base, s.calls[t].op, pc, now)
    ensures RecordsFit(b, local, base, s.calls[t := s.calls[t].(pc := pc)], h, now)
  {
    var calls := s.calls[t := s.calls[t].(pc := pc)];
    forall u | 0 <= u < |calls| && u != t && calls[u].handle == h ensures !Active(calls[u]) {
      MovingCallStandsAlone(s, t, h, u);
    }
    if !pc.Done? { assert Active(calls[t]); }
  }

  lemma OwnTickKeepsLinear(b: Backend, local: Local, p: Peer, s: State, t: nat, h: Handle)
    requires Linear(b, local, p, s, h) && Enabled(s, Tick(t)) && s.calls[t].handle == h
    ensures Linear(b, local, p, StepTick(b, s, t), h)
  {
    var c := s.calls[t];
    var (kv, pc) := Segment(b, s.kv, h, c.op, c.pc);
    var base := Folded(b, local, p, s.calls, h, |s.calls|);
    MovingCallFits(b, local, p, s, t, h);
    SegmentFits(b, s.kv, h, c.op, c.pc, base);
    SegmentIsLocal(b, s.kv, h, c.op, c.pc, h);
    TickKeepsChains(s, t, pc, h);
    TickKeepsOutcomes(b, local, p, s, t, pc, h);
    TickKeepsRecords(b, local, s, t, pc, h, if pc.Done? then Apply(b, local, base, c.op).0 else base, PeerAt(kv, h));
  }

  lemma OtherTickKeepsLinear(b: Backend, local: Local, p: Peer, s: State, t: nat, h: Handle)
    requires Linear(b, local, p, s, h) && Enabled(s, Tick(t)) && s.calls[t].handle != h
    ensures Linear(b, local, p, StepTick(b, s, t), h)
  {
    var c := s.calls[t];
    var (kv, pc) := Segment(b, s.kv, c.handle, c.op, c.pc);
    var calls := s.calls[t := c.(pc := pc)];
    SegmentIsLocal(b, s.kv, c.handle, c.op, c.pc, h);
    SegmentStarts(b, s.kv, c.handle, c.op, c.pc);
    TickKeepsChains(s, t, pc, h);
    FoldedSame(b, local, p, calls, s.calls, h, |calls|);
    OtherOutcomesStay(b, local, p, s.calls, calls, h);
    OtherRecordsStay(b, local, Folded(b, local, p, s.calls, h, |s.calls|), s.calls, calls, h, PeerAt(s.kv, h));
  }

  lemma SegmentStarts(b: Backend, kv: Kv, h: Handle, op: Op, pc: Pc)
    requires !pc.Done?
    ensures !Segment(b, kv, h, op, pc).1.Waiting?
  {
  }

  predicate OnlyOthersMoved(calls: seq<Call>, after: seq<Call>, h: Handle) {
    && |after| == |calls|
    && forall u :: 0 <= u < |calls| ==>
        after[u].handle == calls[u].handle && (calls[u].handle == h ==> after[u] == calls[u])
  }

  lemma OtherOutcomesStay(b: Backend, local: Local, p: Peer, calls: seq<Call>, after: seq<Call>, h: Handle)
    requires OutcomesFit(b, local, p, calls, h) && OnlyOthersMoved(calls, after, h)
    ensures OutcomesFit(b, local, p, after, h)
  {
    forall u | 0 <= u < |after| && after[u].handle == h && after[u].pc.Done?
      ensures after[u].pc.outcome == Apply(b, local, Folded(b, local, p, after, h, u), after[u].op).1 {
      FoldedSame(b, local, p, after, calls, h, u);
    }
  }

  lemma OtherRecordsStay(b: Backend, local: Local, base: Peer, calls: seq<Call>, after: seq<Call>, h: Handle, now: Peer)
    requires RecordsFit(b, local, base, calls, h, now) && OnlyOthersMoved(calls, after, h)
    ensures RecordsFit(b, local, base, after, h, now)
  {
    if NoneActive(after, h) {
      forall u | 0 <= u < |calls| && calls[u].handle == h ensures !Active(calls[u]) { assert after[u] == calls[u]; }
    }
  }

  lemma StepKeepsLinear(b: Backend, local: Local, p: Peer, s: State, e: Event, h: Handle)
    requires Linear(b, local, p, s, h) && Enabled(s, e)
    ensures Linear(b, local, p, Step(b, s, e), h)
  {
    match e {
      case Enter(g, op) => EnterKeepsLinear(b, local, p, s, g, op, h);
      case Tick(t) =>
        if s.calls[t].handle == h {
          OwnTickKeepsLinear(b, local, p, s, t, h);
        } else {
          OtherTickKeepsLinear(b, local, p, s, t, h);
        }
    }
  }

  lemma {:induction false} RunKeepsLinear(b: Backend, local: Local, p: Peer, s: State, events: seq<Event>, t: State,
      h: Handle)
    requires Linear(b, local, p, s, h) && Runs(b, s, events, t)
    ensures Linear(b, local, p, t, h)
    decreases |events|
  {
    if events != [] {
      StepKeepsLinear(b, local, p, s, events[0], h);
      RunKeepsLinear(b, local, p, Step(b, s, events[0]), events[1..], t, h);
    }
  }

  function Start(kv: Kv): State {
    State(kv, [], map[])
  }

  // For any interleaving of calls on any handles: the finished calls of h returned, and left
  // the records of h, as if each had run alone in call order; at most one is in flight.
  lemma PerPeerLinearizable(b: Backend, kv: Kv, events: seq<Event>, t: State, h: Handle)
    requires Runs(b, Start(kv), events, t)
    ensures OutcomesFit(b, LocalAt(kv), PeerAt(kv, h), t.calls, h)
    ensures NoneActive(t.calls, h) ==> PeerAt(t.kv, h) == Folded(b, LocalAt(kv), PeerAt(kv, h), t.calls, h, |t.calls|)
    ensures forall u, v :: 0 <= u < v < |t.calls| && t.calls[u].handle == h && t.calls[v].handle == h ==>
        !(Active(t.calls[u]) && Active(t.calls[v]))
    ensures LocalAt(t.kv) == LocalAt(kv)
  {
    RunKeepsLinear(b, LocalAt(kv), PeerAt(kv, h), Start(kv), events, t, h);
    forall u, v | 0 <= u < v < |t.calls| && t.calls[u].handle == h && t.calls[v].handle == h
      ensures !(Active(t.calls[u]) && Active(t.calls[v])) {
      NeverTwoActive(t.calls, h, u, v);
    }
  }

  lemma {:induction false} FoldedTogether(b: Backend, local: Local, p: Peer, calls: seq<Call>, h: Handle, n: nat)
    requires n <= |calls| && (p.session.Some? <==> p.pin.Some?)
    ensures var q := Folded(b, local, p, calls, h, n); q.session.Some? <==> q.pin.Some?
  {
    if n > 0 {
      FoldedTogether(b, local, p, calls, h, n - 1);
      SessionAndPinTogether(b, local, Folded(b, local, p, calls, h, n - 1), calls[n - 1].op);
    }
  }

  // Between operations a peer has both records or neither.
  lemma TogetherBetweenOperations(b: Backend, kv: Kv, events: seq<Event>, t: State, h: Handle)
    requires Runs(b, Start(kv), events, t) && (PeerAt(kv, h).session.Some? <==> PeerAt(kv, h).pin.Some?)
    requires NoneActive(t.calls, h)
    ensures PeerAt(t.kv, h).session.Some? <==> PeerAt(t.kv, h).pin.Some?
  {
    PerPeerLinearizable(b, kv, events, t, h);
    FoldedTogether(b, LocalAt(kv), PeerAt(kv, h), t.calls, h, |t.calls|);
  }

  // --- nothing wedges ---

  // Segments left at most.
  function Rank(pc: Pc): nat {
    match pc
    case Waiting => 7
    case Begun => 6
    case HaveParty => 5
    case HavePin(_) => 4
    case HaveRecords(_, _) => 3
    case ToStore(_, _, _) => 2
    case ToPin(_, _) => 1
    case ToUnpin => 1
    case Done(_) => 0
  }

  // A failure does not stop the chain: every call ends within seven segments, and while one
  // is unfinished, it or an earlier call of its handle can move.
  lemma {:induction false} SomethingCanMove(s: State, h: Handle, t: nat) returns (u: nat)
    requires Chained(s.calls, h) && t < |s.calls| && s.calls[t].handle == h && !s.calls[t].pc.Done?
    ensures u <= t && s.calls[u].handle == h && Enabled(s, Tick(u))
    decreases t
  {
    u := t;
    if !MayRun(s, s.calls[t]) {
      PreviousIs(s.calls, h, t);
      u := SomethingCanMove(s, h, s.calls[t].after.value);
    }
  }

  lemma EachSegmentAdvances(b: Backend, kv: Kv, h: Handle, op: Op, pc: Pc)
    requires !pc.Done?
    ensures Rank(Segment(b, kv, h, op, pc).1) < Rank(pc)
  {
  }
}
