// The operations of the chat lock when nothing comes between their writes: what enabling,
// forgetting, the biometric switch, locking and unlocking leave; and what opens a sealed body.
module ChatLockOperations {
  import opened ChatLock
  import opened Options

  // A sealed body opens with the key pair and for the row it was sealed for, and not otherwise.
  lemma SealedOpensExactly(text: Plaintext, key: Key, row: Id, meta: Meta, priv: Key, pub: Key, at: Id)
    ensures OpenBody(SealBody(text, key, row), meta, priv, pub, at) ==
      if meta == GoodMeta && pub == key && priv == key && at == row then Some(text) else None
    ensures OpenBody(Clear(text), meta, priv, pub, at).None?
  {
  }

  // n writes in a row, none of them a read of a batch.
  predicate Writes(s: State, n: nat, t: State)
    decreases n
  {
    if n == 0 then t == s
    else !s.pass.NoPass? && !s.pass.SealRead? && !s.pass.UnsealRead? && Writes(StepAdvance(s, []), n - 1, t)
  }

  // --- enabling ---

  predicate Enabling(s: State, t: State, key: Key, bio: bool) {
    && t.disk.keys == Keystore(Some(key), if bio then Some(key) else s.disk.keys.bio, true)
    && t.disk.flags == Flags(bio, Some(key)) && t.mem.released == Some(key)
    && t.disk.rows == s.disk.rows && t.mem.cache == s.mem.cache && t.pass == SealRead(key)
  }

  // The keys are stored and indexed, the flags set and the key released before the history is
  // read for sealing.
  lemma EnablingLeaves(s: State, key: Key, bio: bool) returns (t: State)
    requires Enabled(s, Enable(key, bio))
    ensures Writes(Step(s, Enable(key, bio)), if bio then 5 else 4, t) && Enabling(s, t, key, bio)
  {
    var s1 := StepAdvance(Step(s, Enable(key, bio)), []);
    var s2 := if bio then StepAdvance(s1, []) else s1;
    var s3 := StepAdvance(s2, []);
    var s4 := StepAdvance(s3, []);
    t := StepAdvance(s4, []);
    assert Writes(t, 0, t) && Writes(s4, 1, t) && Writes(s3, 2, t) && Writes(s2, 3, t);
    if bio { assert Writes(s1, 4, t); }
  }

  // --- the end of a lock ---

  predicate Bare(t: State) {
    && t.disk.keys == Keystore(None, None, false) && t.disk.flags == Flags(false, None)
    && t.mem == Memory(None, map[]) && t.pass.NoPass?
  }

  // Flags first, then the keystore items, the index and the key in memory.
  lemma SecretsGo(s: State) returns (t: State)
    requires s.pass.FlagsOff?
    ensures Writes(s, 5, t) && Bare(t) && t.disk.rows == s.disk.rows
  {
    var s1 := StepAdvance(s, []);
    var s2 := StepAdvance(s1, []);
    var s3 := StepAdvance(s2, []);
    var s4 := StepAdvance(s3, []);
    t := StepAdvance(s4, []);
    assert Writes(t, 0, t) && Writes(s4, 1, t) && Writes(s3, 2, t) && Writes(s2, 3, t) && Writes(s1, 4, t);
  }

  // Deleting a locked chat's messages takes the rows first and then the lock.
  lemma ForgettingLeaves(s: State) returns (t: State)
    requires Enabled(s, Event.Forget)
    ensures Writes(Step(s, Event.Forget), 6, t) && Bare(t) && t.disk.rows == map[]
  {
    var s1 := StepAdvance(Step(s, Event.Forget), []);
    t := SecretsGo(s1);
  }

  // An unseal pass that finds nothing more goes on to the flags; one that meets a row it cannot
  // open stops there, with flags, keys and rows as they were.
  lemma UnsealingEnds(s: State, key: Key, bodies: seq<(Id, Blob)>)
    requires bodies != [] && OpenBody(bodies[0].1, GoodMeta, key, key, bodies[0].0).None?
    ensures StepUnsealWrite(s, key, bodies) == s.(pass := NoPass)
    ensures s.pass.UnsealRead? && UnsealBatch(s.disk.rows, []) ==> Step(s, Advance([])) == s.(pass := FlagsOff)
  {
  }

  // --- the biometric copy ---

  lemma BioSwitchLeaves(s: State, on: bool) returns (t: State)
    requires Enabled(s, SetBio(on))
    ensures Writes(Step(s, SetBio(on)), 1, t) && t.pass.NoPass?
    ensures t.disk.keys == s.disk.keys.(bio := if on then s.mem.released else None)
    ensures t.disk.flags == Flags(on, s.disk.flags.pubkey) && t.disk.rows == s.disk.rows && t.mem == s.mem
  {
    t := StepAdvance(Step(s, SetBio(on)), []);
    assert Writes(t, 0, t);
  }

  // --- locking and unlocking ---

  // After locking the chat again no sealed body is shown, neither opened nor from the cache.
  lemma RelockedShowsNothing(s: State, id: Id, row: Row, pubkey: Key)
    requires row.body.Some? && row.meta == GoodMeta
    ensures Shown(id, row, Step(s, Relock).mem, pubkey) == Err(ChatLocked)
    ensures Shown(id, row, Step(s, Crash).mem, pubkey) == Err(ChatLocked)
  {
  }

  // Unlocking releases what is stored, by the code or the biometric copy, and then a row that
  // was sealed under it is shown; changing the code stores the released key again.
  lemma UnlockingShows(s: State, text: Plaintext, id: Id, key: Key)
    ensures s.disk.keys.code == Some(key) ==>
      var mem := Step(s, UnlockCode).mem;
      && mem.released == Some(key) && mem.cache == s.mem.cache
      && (id !in mem.cache ==>
            Shown(id, Row(Chat, Some(SealBody(text, key, id)), GoodMeta, 0), mem, key) == Ok(Some(Clear(text))))
    ensures s.disk.keys.bio == Some(key) && s.disk.flags.bioEnabled ==>
      Step(s, UnlockBio).mem == s.mem.(released := Some(key))
    ensures s.disk.keys.code.None? ==> Step(s, UnlockCode) == s
    ensures Enabled(s, ChangeCode) ==>
      Step(s, ChangeCode).disk == s.disk.(keys := s.disk.keys.(code := s.mem.released))
  {
  }

  // --- messages ---

  // A stored message keeps its time and its first text: sealed exactly if a key was seen.
  lemma StoringIsExact(s: State, d: Draft)
    requires Enabled(s, Store(d))
    ensures var rows := Step(s, Store(d)).disk.rows;
      && (forall i :: i in s.disk.rows ==> i in rows && rows[i] == s.disk.rows[i])
      && d.id in rows && rows.Keys == s.disk.rows.Keys + {d.id}
      && (d.id !in s.disk.rows ==>
            && rows[d.id].kind == Chat && rows[d.id].sentAt == d.sentAt
            && (if d.seen.Some?
                then rows[d.id].body == Some(Cipher(d.seen.value, d.id, d.text)) && rows[d.id].meta == GoodMeta
                else rows[d.id].body == Some(Clear(d.text)) && rows[d.id].meta == NoMeta))
  {
  }
}
