// The history passes and the operations around them as they run when nothing interleaves:
// batch loops over the rows of one conversation, and what they leave.
module ChatLockPasses {
  import opened Arithmetic
  import opened ChatLock
  import opened Options

  // --- what a complete pass makes of a history ---

  function SealedRow(id: Id, row: Row, key: Key): Row {
    if Sealable(row) && row.body.value.Clear?
    then row.(body := Some(SealBody(row.body.value.text, key, id)), meta := GoodMeta)
    else row
  }

  function SealedRows(rows: map<Id, Row>, key: Key): map<Id, Row> {
    map i | i in rows :: SealedRow(i, rows[i], key)
  }

  function UnsealedRow(id: Id, row: Row, key: Key): Row {
    if Sealed(row) && row.body.Some? && OpenBody(row.body.value, row.meta, key, key, id).Some?
    then row.(body := Some(Clear(OpenBody(row.body.value, row.meta, key, key, id).value)), meta := NoMeta)
    else row
  }

  function UnsealedRows(rows: map<Id, Row>, key: Key): map<Id, Row> {
    map i | i in rows :: UnsealedRow(i, rows[i], key)
  }

  function Matching(rows: map<Id, Row>, sealed: bool): set<Id> {
    set i | i in rows && (if sealed then Sealed(rows[i]) else Sealable(rows[i]))
  }

  // meta NULL means a readable body, and a sealed row opens with this key.
  predicate PlainIsClear(rows: map<Id, Row>) {
    forall i :: i in rows && !Sealed(rows[i]) && rows[i].body.Some? ==> rows[i].body.value.Clear?
  }

  predicate SealedOpens(rows: map<Id, Row>, key: Key) {
    forall i :: i in rows && Sealed(rows[i]) ==>
      rows[i].kind == Chat && rows[i].body.Some? && OpenBody(rows[i].body.value, rows[i].meta, key, key, i).Some?
  }

  // One write of the crash model turns a row as the complete pass does.
  lemma WritesTurnRows(s: State, key: Key, id: Id, texts: seq<(Id, Plaintext)>, bodies: seq<(Id, Blob)>)
    requires id in s.disk.rows && s.disk.rows[id].body.Some?
    ensures Sealable(s.disk.rows[id]) && s.disk.rows[id].body.value == Clear(TextOf(s.disk.rows[id])) ==>
        StepSealWrite(s, key, [(id, TextOf(s.disk.rows[id]))] + texts).disk.rows ==
        s.disk.rows[id := SealedRow(id, s.disk.rows[id], key)]
    ensures s.disk.rows[id].meta == GoodMeta ==>
        StepUnsealWrite(s, key, [(id, s.disk.rows[id].body.value)] + bodies).disk.rows ==
        s.disk.rows[id := UnsealedRow(id, s.disk.rows[id], key)]
  {
    var row := s.disk.rows[id];
    assert s.disk.rows[id := row] == s.disk.rows;
  }

  // Turning the lock on and off again gives the history back, row for row.
  lemma UnsealInvertsSeal(rows: map<Id, Row>, key: Key)
    requires NothingSealed(rows)
    ensures UnsealedRows(SealedRows(rows, key), key) == rows
    ensures PlainIsClear(rows) ==> NothingSealable(SealedRows(rows, key)) && SealedOpens(SealedRows(rows, key), key)
  {
    forall i | i in rows ensures UnsealedRow(i, SealedRow(i, rows[i], key), key) == rows[i] {
    }
  }

  // Sealing again, or resuming after a crash in the middle, changes nothing more.
  lemma SealingResumes(rows: map<Id, Row>, key: Key, done: set<Id>)
    ensures SealedRows(SealedRows(rows, key), key) == SealedRows(rows, key)
    ensures var partly := map i | i in rows :: if i in done then SealedRow(i, rows[i], key) else rows[i];
      SealedRows(partly, key) == SealedRows(rows, key)
  {
  }

  // A row with sealing parameters but no body is in every batch and is skipped by each: the
  // unseal loop would never end.
  lemma BodilessRowBlocksUnseal(rows: map<Id, Row>, id: Id, batch: seq<Id>, key: Key)
    requires id in rows && Sealed(rows[id]) && rows[id].body.None?
    ensures var after := Unsealed(rows, batch, key); id in after && after[id] == rows[id]
    ensures !NothingSealed(Unsealed(rows, batch, key))
    decreases |batch|
  {
    if batch != [] { BodilessRowBlocksUnseal(rows, id, batch[..|batch| - 1], key); }
  }

  // One batch of the unseal loop.
  function Unsealed(rows: map<Id, Row>, batch: seq<Id>, key: Key): map<Id, Row> {
    if batch == [] then rows
    else
      var before, id := Unsealed(rows, batch[..|batch| - 1], key), batch[|batch| - 1];
      if id in before then before[id := UnsealedRow(id, before[id], key)] else before
  }

  function Rounds(n: nat, limit: nat): nat
    requires limit > 0
  {
    (n + limit - 1) / limit
  }

  predicate Batch(rows: map<Id, Row>, batch: seq<Id>, sealed: bool) {
    && (forall k :: 0 <= k < |batch| ==> batch[k] in Matching(rows, sealed))
    && forall j, k :: 0 <= j < k < |batch| ==> batch[j] != batch[k]
  }

  // By ascending sentAt, and nothing older is left out.
  predicate OldestFirst(rows: map<Id, Row>, batch: seq<Id>, sealed: bool)
    requires Batch(rows, batch, sealed)
  {
    && (forall j, k :: 0 <= j < k < |batch| ==> rows[batch[j]].sentAt <= rows[batch[k]].sentAt)
    && forall i, k :: i in Matching(rows, sealed) && i !in batch && 0 <= k < |batch| ==>
        rows[batch[k]].sentAt <= rows[i].sentAt
  }

  lemma {:induction false} OldestExists(rows: map<Id, Row>, ids: set<Id>)
    requires ids != {} && forall i :: i in ids ==> i in rows
    ensures exists id :: id in ids && forall i :: i in ids ==> rows[id].sentAt <= rows[i].sentAt
    decreases |ids|
  {
    var some :| some in ids;
    var rest := ids - {some};
    if rest == {} {
      assert ids == {some} + rest;
    } else {
      OldestExists(rows, rest);
      var best :| best in rest && forall i :: i in rest ==> rows[best].sentAt <= rows[i].sentAt;
      var id := if rows[some].sentAt <= rows[best].sentAt then some else best;
      assert forall i :: i in ids ==> i == some || i in rest;
      assert id in ids && forall i :: i in ids ==> rows[id].sentAt <= rows[i].sentAt;
    }
  }

  // Some rows have been sealed since.
  predicate PartlySealed(was: map<Id, Row>, rows: map<Id, Row>, key: Key) {
    rows.Keys == was.Keys && forall i :: i in rows ==> rows[i] == was[i] || rows[i] == SealedRow(i, was[i], key)
  }

  predicate SealedHasBody(rows: map<Id, Row>) {
    forall i :: i in rows && Sealed(rows[i]) ==> rows[i].body.Some?
  }

  predicate Opens(id: Id, row: Row, priv: Key, pub: Key) {
    row.body.Some? && OpenBody(row.body.value, row.meta, priv, pub, id).Some?
  }

  predicate AllOpen(rows: map<Id, Row>, priv: Key, pub: Key) {
    forall i :: i in rows && Sealed(rows[i]) ==> Opens(i, rows[i], priv, pub)
  }

  // Some sealed rows have been opened and stored back since.
  predicate PartlyUnsealed(was: map<Id, Row>, rows: map<Id, Row>, priv: Key, pub: Key) {
    && rows.Keys == was.Keys
    && forall i :: i in rows ==>
        rows[i] == was[i] || (Sealed(was[i]) && Opens(i, was[i], priv, pub) && rows[i] == UnsealedRow(i, was[i], pub))
  }

  lemma UnsealingComposes(was: map<Id, Row>, mid: map<Id, Row>, rows: map<Id, Row>, priv: Key, pub: Key)
    requires PartlyUnsealed(was, mid, priv, pub) && PartlyUnsealed(mid, rows, priv, pub)
    ensures PartlyUnsealed(was, rows, priv, pub)
    ensures !AllOpen(mid, priv, pub) ==> !AllOpen(was, priv, pub)
  {
    if i :| i in mid && Sealed(mid[i]) && !Opens(i, mid[i], priv, pub) {
      assert mid[i] == was[i];
    }
  }

  lemma NothingLeftToUnseal(was: map<Id, Row>, rows: map<Id, Row>, priv: Key, pub: Key)
    requires PartlyUnsealed(was, rows, priv, pub) && Matching(rows, true) == {}
    ensures rows == UnsealedRows(was, pub) && NothingSealed(rows) && AllOpen(was, priv, pub)
  {
    forall i | i in rows ensures rows[i] == UnsealedRow(i, was[i], pub) && !Sealed(rows[i]) {
      assert i !in Matching(rows, true);
    }
  }

  lemma NothingLeftToSeal(was: map<Id, Row>, rows: map<Id, Row>, key: Key)
    requires PlainIsClear(rows) && PartlySealed(was, rows, key) && Matching(rows, false) == {}
    ensures rows == SealedRows(was, key) && NothingSealable(rows)
  {
    forall i | i in rows ensures rows[i] == SealedRow(i, was[i], key) && !Sealable(rows[i]) {
      assert i !in Matching(rows, false);
    }
  }

  lemma {:induction false} SizeOfSet(batch: seq<Id>)
    requires forall j, k :: 0 <= j < k < |batch| ==> batch[j] != batch[k]
    ensures |set i | i in batch| == |batch|
  {
    if batch != [] {
      var n := |batch| - 1;
      SizeOfSet(batch[..n]);
      assert (set i | i in batch) == (set i | i in batch[..n]) + {batch[n]};
    }
  }

  // A batch that has been turned over no longer matches, and nothing else starts to.
  lemma MatchingShrinks(was: map<Id, Row>, rows: map<Id, Row>, batch: seq<Id>, sealed: bool)
    requires Batch(was, batch, sealed) && rows.Keys == was.Keys
    requires forall i :: i in rows ==> if i in batch then i !in Matching(rows, sealed) else rows[i] == was[i]
    ensures |Matching(rows, sealed)| == |Matching(was, sealed)| - |batch|
  {
    SizeOfSet(batch);
    var done := set i | i in batch;
    assert Matching(was, sealed) == Matching(rows, sealed) + done;
  }

  lemma OneRoundLess(n: nat, taken: nat, limit: nat)
    requires limit > 0 && taken == (if n < limit then n else limit) && n > 0
    ensures Rounds(n - taken, limit) + 1 == Rounds(n, limit)
  {
    if n < limit {
      DivUnique(n + limit - 1, limit, 1, n - 1);
      DivUnique(limit - 1, limit, 0, limit - 1);
    } else {
      var q, r := (n - limit + limit - 1) / limit, (n - limit + limit - 1) % limit;
      assert limit * (q + 1) == limit * q + limit;
      DivUnique(n + limit - 1, limit, q + 1, r);
    }
  }

  class Locks {
    var rows: map<Id, Row>
    var keys: Keystore
    var flags: Flags
    var released: Option<Key>
    var cache: map<Id, Plaintext>

    constructor (rows: map<Id, Row>)
      ensures this.rows == rows && keys == Keystore(None, None, false) && flags == Flags(false, None)
      ensures released == None && cache == map[]
    {
      this.rows := rows;
      keys, flags, released, cache := Keystore(None, None, false), Flags(false, None), None, map[];
    }

    // SELECT ... ORDER BY sent_at LIMIT: the oldest matching rows, as many as there are up to
    // the limit.
    method List(sealed: bool, limit: nat) returns (batch: seq<Id>)
      requires limit > 0
      ensures Batch(rows, batch, sealed) && OldestFirst(rows, batch, sealed)
      ensures |batch| == if |Matching(rows, sealed)| < limit then |Matching(rows, sealed)| else limit
    {
      batch := [];
      var rest := Matching(rows, sealed);
      while rest != {} && |batch| < limit
        invariant rest <= Matching(rows, sealed) && |rest| + |batch| == |Matching(rows, sealed)| && |batch| <= limit
        invariant forall i :: i in Matching(rows, sealed) ==> (i in batch <==> i !in rest)
        invariant Batch(rows, batch, sealed) && OldestFirst(rows, batch, sealed)
        decreases rest
      {
        OldestExists(rows, rest);
        var id :| id in rest && forall i :: i in rest ==> rows[id].sentAt <= rows[i].sentAt;
        batch := batch + [id];
        rest := rest - {id};
      }
    }

    method UpdateMessageBody(id: Id, body: Blob, meta: Meta)
      modifies this`rows
      ensures rows == UpdateBody(old(rows), id, body, meta)
    {
      if id in rows {
        rows := rows[id := rows[id].(body := Some(body), meta := meta)];
      }
    }

    // Ends for any history and any batch size, after one read more than it takes batches.
    method SealHistory(key: Key, limit: nat) returns (queries: nat)
      requires limit > 0 && PlainIsClear(rows)
      modifies this`rows
      ensures rows == SealedRows(old(rows), key) && NothingSealable(rows)
      ensures queries == Rounds(|Matching(old(rows), false)|, limit) + 1
    {
      queries := 0;
      while true
        invariant PlainIsClear(rows) && PartlySealed(old(rows), rows, key)
        invariant Rounds(|Matching(rows, false)|, limit) + queries == Rounds(|Matching(old(rows), false)|, limit)
        decreases |Matching(rows, false)|
      {
        var batch := List(false, limit);
        queries := queries + 1;
        if |batch| == 0 {
          NothingLeftToSeal(old(rows), rows, key);
          return;
        }
        ghost var before := rows;
        SealRows(key, batch);
        MatchingShrinks(before, rows, batch, false);
        OneRoundLess(|Matching(before, false)|, |batch|, limit);
      }
    }

    method SealRows(key: Key, batch: seq<Id>)
      requires PlainIsClear(rows) && Batch(rows, batch, false)
      modifies this`rows
      ensures rows.Keys == old(rows).Keys
      ensures forall i :: i in rows ==> rows[i] == if i in batch then SealedRow(i, old(rows)[i], key) else old(rows)[i]
    {
      var k := 0;
      while k < |batch|
        invariant 0 <= k <= |batch| && rows.Keys == old(rows).Keys
        invariant forall i :: i in rows ==> rows[i] == if i in batch[..k] then SealedRow(i, old(rows)[i], key)
            else old(rows)[i]
      {
        var id := batch[k];
        assert id !in batch[..k];
        if rows[id].body.Some? && rows[id].body.value.Clear? {
          UpdateMessageBody(id, SealBody(rows[id].body.value.text, key, id), GoodMeta);
        }
        assert batch[..k + 1] == batch[..k] + [id];
        k := k + 1;
      }
      assert batch[..|batch|] == batch;
    }

    // Opens every row of a batch and stores it back, or stops at the first that throws.
    method UnsealRows(priv: Key, pub: Key, batch: seq<Id>) returns (failed: bool)
      requires SealedHasBody(rows) && Batch(rows, batch, true)
      modifies this`rows
      ensures PartlyUnsealed(old(rows), rows, priv, pub) && SealedHasBody(rows)
      ensures !failed ==> forall i :: i in rows ==> if i in batch then !Sealed(rows[i]) else rows[i] == old(rows)[i]
      ensures failed ==> !AllOpen(old(rows), priv, pub)
    {
      failed := false;
      var k := 0;
      while k < |batch|
        invariant 0 <= k <= |batch| && PartlyUnsealed(old(rows), rows, priv, pub) && SealedHasBody(rows)
        invariant forall i :: i in rows ==> if i in batch[..k] then !Sealed(rows[i]) else rows[i] == old(rows)[i]
      {
        var id := batch[k];
        assert id !in batch[..k] && id in Matching(old(rows), true);
        var plain := OpenBody(rows[id].body.value, rows[id].meta, priv, pub, id);
        if plain.None? {
          failed := true;
          return;
        }
        UpdateMessageBody(id, Clear(plain.value), NoMeta);
        assert batch[..k + 1] == batch[..k] + [id];
        k := k + 1;
      }
      assert batch[..|batch|] == batch;
    }

    // Ends for any history in which sealed rows have bodies: either every sealed row opened
    // and the history is back in plaintext, after one read more than it takes batches, or
    // some row did not open.
    method UnsealHistory(priv: Key, pub: Key, limit: nat) returns (queries: nat, failed: bool)
      requires limit > 0 && SealedHasBody(rows)
      modifies this`rows
      ensures failed <==> !AllOpen(old(rows), priv, pub)
      ensures !failed ==> rows == UnsealedRows(old(rows), pub) && NothingSealed(rows)
      ensures !failed ==> queries == Rounds(|Matching(old(rows), true)|, limit) + 1
      ensures PartlyUnsealed(old(rows), rows, priv, pub)
    {
      queries, failed := 0, false;
      while true
        invariant SealedHasBody(rows) && PartlyUnsealed(old(rows), rows, priv, pub)
        invariant Rounds(|Matching(rows, true)|, limit) + queries == Rounds(|Matching(old(rows), true)|, limit)
        decreases |Matching(rows, true)|
      {
        var batch := List(true, limit);
        queries := queries + 1;
        if |batch| == 0 {
          NothingLeftToUnseal(old(rows), rows, priv, pub);
          return;
        }
        ghost var before := rows;
        failed := UnsealRows(priv, pub, batch);
        UnsealingComposes(old(rows), before, rows, priv, pub);
        if failed {
          return;
        }
        MatchingShrinks(before, rows, batch, true);
        OneRoundLess(|Matching(before, true)|, |batch|, limit);
      }
    }

    // Keys first, flags second, history last.
    method EnableChatLock(key: Key, bio: bool)
      requires PlainIsClear(rows)
      modifies this
      ensures keys == Keystore(Some(key), if bio then Some(key) else old(keys).bio, true)
      ensures flags == Flags(bio, Some(key)) && released == Some(key) && cache == old(cache)
      ensures rows == SealedRows(old(rows), key) && NothingSealable(rows)
    {
      keys := keys.(code := Some(key));
      if bio {
        keys := keys.(bio := Some(key));
      }
      keys := keys.(indexed := true);
      flags := Flags(bio, Some(key));
      released := Some(key);
      var _ := SealHistory(key, SEAL_BATCH);
    }

    // The history comes back before the flags flip; a row that does not open leaves the
    // flags, the keys and that row as they were.
    method DisableChatLock() returns (done: bool)
      requires SealedHasBody(rows)
      modifies this
      ensures done <==>
          old(released).Some? && old(flags).pubkey.Some?
          && AllOpen(old(rows), old(released).value, old(flags).pubkey.value)
      ensures done ==> rows == UnsealedRows(old(rows), old(flags).pubkey.value) && NothingSealed(rows)
      ensures done ==>
          flags == Flags(false, None) && keys == Keystore(None, None, false) && released == None && cache == map[]
      ensures !done ==> flags == old(flags) && keys == old(keys) && released == old(released) && cache == old(cache)
      ensures !done && (old(released).None? || old(flags).pubkey.None?) ==> rows == old(rows)
    {
      if released.None? || flags.pubkey.None? {
        return false;
      }
      var _, failed := UnsealHistory(released.value, flags.pubkey.value, SEAL_BATCH);
      if failed {
        return false;
      }
      flags := Flags(false, None);
      RemoveChatLockSecrets();
      done := true;
    }

    method RemoveChatLockSecrets()
      modifies this`keys, this`released, this`cache
      ensures keys == Keystore(None, None, false) && released == None && cache == map[]
    {
      keys := keys.(bio := None);
      keys := keys.(code := None);
      keys := keys.(indexed := false);
      RelockChat();
    }

    method RelockChat()
      modifies this`released, this`cache
      ensures released == None && cache == map[]
    {
      released := None;
      cache := map[];
    }

    method RemoveLockAndDeleteMessages()
      modifies this
      ensures rows == map[] && flags == Flags(false, None) && keys == Keystore(None, None, false)
      ensures released == None && cache == map[]
    {
      rows := map[];
      flags := Flags(false, None);
      RemoveChatLockSecrets();
    }

    // The boot pass: nothing to do unless the lock is on.
    method SealPending()
      requires PlainIsClear(rows)
      modifies this`rows
      ensures rows == if flags.pubkey.Some? then SealedRows(old(rows), flags.pubkey.value) else old(rows)
    {
      if flags.pubkey.Some? {
        var _ := SealHistory(flags.pubkey.value, SEAL_BATCH);
      }
    }

    // A null body and one without good sealing parameters pass through.
    method DecryptBodyCached(id: Id, pubkey: Key) returns (r: Result<Option<Blob>, ShowError>)
      requires id in rows
      modifies this`cache
      ensures r == Shown(id, rows[id], Memory(released, old(cache)), pubkey)
      ensures Memory(released, cache) == CacheShown(id, rows[id], Memory(released, old(cache)), pubkey)
    {
      var row := rows[id];
      if row.body.None? {
        return Ok(None);
      }
      if row.meta != GoodMeta {
        return Ok(row.body);
      }
      if id in cache {
        return Ok(Some(Clear(cache[id])));
      }
      if released.None? {
        return Err(ChatLocked);
      }
      var plain := OpenBody(row.body.value, row.meta, released.value, pubkey, id);
      if plain.None? {
        return Err(BadRow);
      }
      cache := cache[id := plain.value];
      r := Ok(Some(Clear(plain.value)));
    }
  }
}
