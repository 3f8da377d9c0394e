// Which event loses a text, exactly, and what must be outstanding when the lock is taken off.
module ChatLockWindow {
  import opened ChatLock
  import opened ChatLockProofs
  import opened Options

  predicate Readable(id: Id, s: State) {
    id in s.disk.rows && s.disk.rows[id].body.Some? ==>
      id in s.said && Recovered(id, s.disk.rows[id], s.disk.keys, s.disk.flags) == Some(s.said[id])
  }

  lemma ValidIsReadable(s: State, id: Id)
    requires Valid(s)
    ensures Readable(id, s)
    ensures id in s.disk.rows && Sealed(s.disk.rows[id]) ==>
        s.disk.keys.code.Some? && s.disk.keys.code == s.disk.flags.pubkey
    ensures id in s.disk.rows && Sealed(s.disk.rows[id]) ==> s.disk.rows[id].body.Some?
  {
    if id in s.disk.rows { assert RowSafe(id, s.disk.rows[id], s.said, s.disk.keys.code, s.disk.flags.pubkey); }
  }

  // --- one event ---

  // The row an unsound event spoils.
  lemma UnsoundLoses(s: State, e: Event) returns (id: Id)
    requires Valid(s) && Enabled(s, e) && !Sound(s, e)
    ensures !Readable(id, Step(s, e))
  {
    match e {
      case Advance(_) =>
        id :| id in s.disk.rows && Sealed(s.disk.rows[id]);
        ValidIsReadable(s, id);
      case HealStep(i, _) =>
        id := s.heals[i].texts[0].0;
        assert HealTells(s.heals[i], s.disk.rows, s.said);
      case Store(d) => id := d.id;
    }
  }

  // Text is lost exactly when a body sealed with a key lands while that key is not the
  // conversation's public key, or when the public key is cleared over sealed rows.
  lemma LossIsExact(s: State, e: Event)
    requires Valid(s) && Enabled(s, e)
    ensures (forall id :: Readable(id, Step(s, e))) <==> Sound(s, e)
  {
    if Sound(s, e) {
      StepKeepsValid(s, e);
      forall id ensures Readable(id, Step(s, e)) { ValidIsReadable(Step(s, e), id); }
    } else {
      var id := UnsoundLoses(s, e);
    }
  }

  lemma SaidStays(s: State, e: Event, id: Id)
    requires Enabled(s, e) && id in s.said
    ensures id in Step(s, e).said && Step(s, e).said[id] == s.said[id]
  {
    if e.Advance? && s.pass.UnsealWrite? && s.pass.bodies != [] {
      assert StepUnsealWrite(s, s.pass.key, s.pass.bodies).said == s.said;
    }
  }

  // A sound event never changes what a row that stays tells.
  lemma RecoveredIsUnchanged(s: State, e: Event, id: Id)
    requires Valid(s) && Enabled(s, e) && Sound(s, e)
    requires id in s.disk.rows && id in Step(s, e).disk.rows && s.disk.rows[id].body.Some?
        && Step(s, e).disk.rows[id].body.Some?
    ensures var t := Step(s, e);
      Recovered(id, t.disk.rows[id], t.disk.keys, t.disk.flags) ==
          Recovered(id, s.disk.rows[id], s.disk.keys, s.disk.flags)
  {
    StepKeepsValid(s, e);
    ValidIsReadable(s, id);
    ValidIsReadable(Step(s, e), id);
    SaidStays(s, e, id);
  }

  // The body cache agrees with opening the row.
  lemma CacheAgreesWithRow(s: State, id: Id)
    requires Valid(s) && id in s.mem.cache && id in s.disk.rows && Sealed(s.disk.rows[id])
    ensures s.disk.flags.pubkey.Some? && s.disk.rows[id].body.Some?
    ensures var row, key := s.disk.rows[id], s.disk.flags.pubkey.value;
      OpenBody(row.body.value, row.meta, key, key, id) == Some(s.mem.cache[id])
  {
    assert RowSafe(id, s.disk.rows[id], s.said, s.disk.keys.code, s.disk.flags.pubkey);
  }

  // --- whole runs ---

  predicate SoundRun(s: State, events: seq<Event>, t: State)
    decreases |events|
  {
    if events == [] then t == s
    else Enabled(s, events[0]) && Sound(s, events[0]) && SoundRun(Step(s, events[0]), events[1..], t)
  }

  lemma {:induction false} SoundRunKeepsValid(s: State, events: seq<Event>, t: State)
    requires Valid(s) && SoundRun(s, events, t)
    ensures Valid(t)
    decreases |events|
  {
    if events != [] {
      StepKeepsValid(s, events[0]);
      SoundRunKeepsValid(Step(s, events[0]), events[1..], t);
    }
  }

  // After any prefix of enable, disable, forget and any number of boot passes, with crashes,
  // arrivals, deletions, unlocks and code changes in between, all sound: every stored row
  // still tells its text, a sealed row has a body and a stored key that matches the
  // conversation's public key.
  lemma NothingIsLost(events: seq<Event>, t: State, id: Id)
    requires SoundRun(INITIAL, events, t)
    ensures Readable(id, t)
    ensures id in t.disk.rows && Sealed(t.disk.rows[id]) ==>
        t.disk.keys.code.Some? && t.disk.keys.code == t.disk.flags.pubkey && t.disk.rows[id].body.Some?
  {
    SoundRunKeepsValid(INITIAL, events, t);
    ValidIsReadable(t, id);
  }

  // --- the flip ---

  predicate Flips(s: State, e: Event) {
    e.Advance? && s.pass.FlagsOff?
  }

  // Everything that has read a public key has read the one in force.
  predicate Calm(s: State) {
    && (forall d :: d in s.drafts && d.seen.Some? ==> d.seen == s.disk.flags.pubkey)
    && (forall i :: 0 <= i < |s.heals| && !s.heals[i].HealDone? ==> s.disk.flags.pubkey == Some(s.heals[i].key))
  }

  // Nothing sealed is left, and nothing that could still seal.
  predicate CleanFlip(s: State) {
    && NothingSealed(s.disk.rows)
    && (forall d :: d in s.drafts ==> d.seen.None?)
    && (forall i :: 0 <= i < |s.heals| ==> s.heals[i].HealDone?)
  }

  lemma CalmIsSound(s: State, e: Event)
    requires Valid(s) && Calm(s) && Enabled(s, e) && (Flips(s, e) ==> CleanFlip(s))
    ensures Sound(s, e) && Calm(Step(s, e))
  {
    match e {
      case Advance(ids) => CalmAdvance(s, ids);
      case HealStep(i, ids) => CalmHeal(s, i, ids);
      case _ =>
    }
  }

  lemma CalmHeal(s: State, i: nat, ids: seq<Id>)
    requires Calm(s) && Enabled(s, HealStep(i, ids))
    ensures Sound(s, HealStep(i, ids)) && Calm(StepHeal(s, i, ids))
  {
    var t := StepHeal(s, i, ids);
    assert t.disk.flags == s.disk.flags && |t.heals| == |s.heals|;
    forall j | 0 <= j < |t.heals| && !t.heals[j].HealDone? ensures t.disk.flags.pubkey == Some(t.heals[j].key) {
      if j != i { assert t.heals[j] == s.heals[j]; }
    }
  }

  lemma CalmAdvance(s: State, ids: seq<Id>)
    requires Valid(s) && Calm(s) && Enabled(s, Advance(ids)) && (s.pass.FlagsOff? ==> CleanFlip(s))
    ensures Calm(StepAdvance(s, ids))
  {
    var t := StepAdvance(s, ids);
    if s.pass.UnsealWrite? && s.pass.bodies != [] {
      assert StepUnsealWrite(s, s.pass.key, s.pass.bodies).heals == s.heals;
    }
    assert t.drafts == s.drafts && t.heals == s.heals;
  }

  // Any events, but the lock is not taken off.
  predicate FliplessRun(s: State, events: seq<Event>, t: State)
    decreases |events|
  {
    if events == [] then t == s
    else Enabled(s, events[0]) && !Flips(s, events[0]) && FliplessRun(Step(s, events[0]), events[1..], t)
  }

  lemma {:induction false} FliplessRunKeepsValid(s: State, events: seq<Event>, t: State)
    requires Valid(s) && Calm(s) && FliplessRun(s, events, t)
    ensures Valid(t) && Calm(t)
    decreases |events|
  {
    if events != [] {
      CalmIsSound(s, events[0]);
      StepKeepsValid(s, events[0]);
      FliplessRunKeepsValid(Step(s, events[0]), events[1..], t);
    }
  }

  // Nothing that happens from here on, short of taking the lock off, loses a text.
  ghost predicate Harmless(s: State) {
    forall events, t, id :: FliplessRun(s, events, t) ==> Readable(id, t)
  }

  // The lock comes off without harm if and only if at that moment nothing sealed is left and
  // nothing outstanding has read the key: otherwise something that happens afterwards, short
  // of taking the lock off again, loses a text, if it is not lost at once.
  lemma FlipIsExact(s: State, ids: seq<Id>)
    requires Valid(s) && Calm(s) && s.pass.FlagsOff?
    ensures Harmless(StepAdvance(s, ids)) <==> CleanFlip(s)
  {
    var t0 := StepAdvance(s, ids);
    if CleanFlip(s) {
      CalmIsSound(s, Advance(ids));
      StepKeepsValid(s, Advance(ids));
      forall events, t, id | FliplessRun(t0, events, t) ensures Readable(id, t) {
        FliplessRunKeepsValid(t0, events, t);
        ValidIsReadable(t, id);
      }
    } else if !NothingSealed(s.disk.rows) {
      var id := UnsoundLoses(s, Advance(ids));
      assert FliplessRun(t0, [], t0);
    } else {
      StepKeepsValid(s, Advance(ids));
      assert t0.drafts == s.drafts && t0.heals == s.heals;
      var events, t, id := OutstandingLoses(t0);
      assert FliplessRun(t0, events, t) && !Readable(id, t);
    }
  }

  lemma Prepend(s: State, e: Event, rest: seq<Event>, t: State)
    requires Enabled(s, e) && !Flips(s, e) && FliplessRun(Step(s, e), rest, t)
    ensures FliplessRun(s, [e] + rest, t)
  {
    assert ([e] + rest)[1..] == rest;
  }

  // With the public key gone, a draft or a boot pass that had read it has something to spoil.
  lemma OutstandingLoses(s: State) returns (events: seq<Event>, t: State, id: Id)
    requires Valid(s) && s.disk.flags.pubkey.None? && s.pass.DropBio?
    requires (exists d :: d in s.drafts && d.seen.Some?) || (exists i :: 0 <= i < |s.heals| && !s.heals[i].HealDone?)
    ensures FliplessRun(s, events, t) && !Readable(id, t)
  {
    if d :| d in s.drafts && d.seen.Some? {
      events, t := StaleDraftLoses(s, d);
      id := d.id;
    } else {
      var i :| 0 <= i < |s.heals| && !s.heals[i].HealDone?;
      match s.heals[i] {
        case HealWrite(key, texts) => events, t, id := StaleHealWriteLoses(s, i);
        case HealRead(key) => events, t, id := StaleHealReadLoses(s, i);
      }
    }
  }

  lemma StaleDraftLoses(s: State, d: Draft) returns (events: seq<Event>, t: State)
    requires Valid(s) && s.disk.flags.pubkey.None? && d in s.drafts && d.seen.Some?
    ensures FliplessRun(s, events, t) && !Readable(d.id, t)
  {
    var s1 := Step(s, Delete({d.id}));
    StepKeepsValid(s, Delete({d.id}));
    t := Step(s1, Store(d));
    assert FliplessRun(t, [], t);
    Prepend(s1, Store(d), [], t);
    Prepend(s, Delete({d.id}), [Store(d)] + [], t);
    events := [Delete({d.id})] + ([Store(d)] + []);
    var lost := UnsoundLoses(s1, Store(d));
  }

  // A plaintext row under this id, stored with no key in force.
  lemma StoreClear(s: State, id: Id, text: Plaintext) returns (events: seq<Event>, t: State)
    requires Valid(s) && s.disk.flags.pubkey.None? && (id in s.said ==> s.said[id] == text)
    ensures forall rest, u :: FliplessRun(t, rest, u) ==> FliplessRun(s, events + rest, u)
    ensures Valid(t) && t.disk.flags == s.disk.flags && t.heals == s.heals && t.pass == s.pass
    ensures id in t.disk.rows && Sealable(t.disk.rows[id]) && TextOf(t.disk.rows[id]) == text
  {
    var e0, e1 := Delete({id}), Capture(id, text, 0);
    var d := Draft(id, text, 0, None);
    var s1 := Step(s, e0);
    StepKeepsValid(s, e0);
    var s2 := Step(s1, e1);
    StepKeepsValid(s1, e1);
    t := Step(s2, Store(d));
    StepKeepsValid(s2, Store(d));
    events := [e0, e1, Store(d)];
    forall rest, u | FliplessRun(t, rest, u) ensures FliplessRun(s, events + rest, u) {
      Prepend(s2, Store(d), rest, u);
      Prepend(s1, e1, [Store(d)] + rest, u);
      Prepend(s, e0, [e1] + ([Store(d)] + rest), u);
      assert [e0] + ([e1] + ([Store(d)] + rest)) == events + rest;
    }
  }

  lemma StaleHealWriteLoses(s: State, i: nat) returns (events: seq<Event>, t: State, id: Id)
    requires Valid(s) && s.disk.flags.pubkey.None? && i < |s.heals| && s.heals[i].HealWrite?
    ensures FliplessRun(s, events, t) && !Readable(id, t)
  {
    assert HealTells(s.heals[i], s.disk.rows, s.said);
    id := s.heals[i].texts[0].0;
    assert id in s.said;
    var before, s1 := StoreClear(s, id, s.said[id]);
    var e := HealStep(i, []);
    t := Step(s1, e);
    assert FliplessRun(t, [], t);
    Prepend(s1, e, [], t);
    events := before + ([e] + []);
    assert !Sound(s1, e);
    LossOfHealWrite(s1, i);
  }

  lemma LossOfHealWrite(s: State, i: nat)
    requires Valid(s) && i < |s.heals| && s.heals[i].HealWrite? && s.heals[i].texts != [] && s.disk.flags.pubkey.None?
    requires s.heals[i].texts[0].0 in s.disk.rows
    ensures !Readable(s.heals[i].texts[0].0, StepHeal(s, i, []))
  {
    assert HealTells(s.heals[i], s.disk.rows, s.said);
  }

  lemma StaleHealReadLoses(s: State, i: nat) returns (events: seq<Event>, t: State, id: Id)
    requires Valid(s) && s.disk.flags.pubkey.None? && i < |s.heals| && s.heals[i].HealRead?
    ensures FliplessRun(s, events, t) && !Readable(id, t)
  {
    id := "m";
    var before, s1 := StoreClear(s, id, if id in s.said then s.said[id] else "hello");
    var read, write := HealStep(i, [id]), HealStep(i, []);
    assert SealBatch(s1.disk.rows, [id]);
    var s2 := Step(s1, read);
    StepKeepsValid(s1, read);
    assert s2.heals[i].HealWrite? && s2.heals[i].texts[0].0 == id;
    t := Step(s2, write);
    assert FliplessRun(t, [], t);
    Prepend(s2, write, [], t);
    Prepend(s1, read, [write] + [], t);
    events := before + ([read] + ([write] + []));
    LossOfHealWrite(s2, i);
  }
}
