// What of a chat's history survives every crash and interleaving of the lock operations, and
// exactly which write loses a message.
module ChatLockProofs {
  import opened ChatLock
  import opened Options

  // A row tells what was said under its id; a sealed one rests on a stored key that matches
  // the public key of the conversation.
  predicate RowSafe(id: Id, row: Row, said: map<Id, Plaintext>, code: Option<Key>, pubkey: Option<Key>) {
    && id in said
    && match row.body
       case None => row.kind == System && row.meta == NoMeta
       case Some(Clear(t)) => row.meta == NoMeta && t == said[id]
       case Some(Cipher(k, r, t)) =>
         row.meta == GoodMeta && row.kind == Chat && r == id && t == said[id] && code == Some(k) && pubkey == Some(k)
  }

  predicate RowsSafe(rows: map<Id, Row>, said: map<Id, Plaintext>, code: Option<Key>, pubkey: Option<Key>) {
    forall i :: i in rows ==> RowSafe(i, rows[i], said, code, pubkey)
  }

  predicate KeysFit(keys: Keystore, flags: Flags) {
    && (flags.pubkey.Some? ==> keys.code == flags.pubkey)
    && (flags.bioEnabled ==> flags.pubkey.Some? && (keys.bio.Some? ==> keys.bio == flags.pubkey))
  }

  predicate CacheTells(cache: map<Id, Plaintext>, said: map<Id, Plaintext>) {
    forall i :: i in cache ==> i in said && cache[i] == said[i]
  }

  predicate MemoryFits(mem: Memory, pass: Pass, flags: Flags) {
    && (mem.released.Some? && flags.pubkey.Some? && !pass.EnableRelease? ==> mem.released == flags.pubkey)
    && (mem.cache != map[] ==> mem.released.Some?)
  }

  predicate PassFits(pass: Pass, keys: Keystore, flags: Flags) {
    match pass
    case EnableCode(k, bio) => flags.pubkey.None?
    case EnableBio(k) => flags.pubkey.None? && keys.code == Some(k)
    case EnableIndex(k, bio) => flags.pubkey.None? && keys.code == Some(k) && (bio ==> keys.bio == Some(k))
    case EnableFlags(k, bio) => flags.pubkey.None? && keys.code == Some(k) && (bio ==> keys.bio == Some(k))
    case EnableRelease(k) => flags.pubkey == Some(k)
    case SealRead(k) => flags.pubkey == Some(k)
    case SealWrite(k, texts) => flags.pubkey == Some(k)
    case UnsealRead(k) => flags.pubkey == Some(k)
    case UnsealWrite(k, bodies) => flags.pubkey == Some(k)
    case DropBio => flags.pubkey.None?
    case DropCode => flags.pubkey.None?
    case DropIndex => flags.pubkey.None?
    case DropKey => flags.pubkey.None?
    case BioFlag(on) => flags.pubkey.Some? && (on ==> keys.bio == flags.pubkey)
    case _ => true
  }

  // What a batch to seal holds in memory is what was said, and never a system row.
  predicate TextsTell(texts: seq<(Id, Plaintext)>, rows: map<Id, Row>, said: map<Id, Plaintext>) {
    forall i :: 0 <= i < |texts| ==>
      && texts[i].0 in said && texts[i].1 == said[texts[i].0]
      && (texts[i].0 in rows ==> rows[texts[i].0].kind == Chat)
  }

  predicate PassTells(pass: Pass, rows: map<Id, Row>, said: map<Id, Plaintext>) {
    match pass
    case SealWrite(k, texts) => TextsTell(texts, rows, said)
    case UnsealWrite(k, bodies) =>
      forall i :: 0 <= i < |bodies| ==> bodies[i].0 in said && bodies[i].1 == Cipher(k, bodies[i].0, said[bodies[i].0])
    case _ => true
  }

  predicate HealTells(heal: Heal, rows: map<Id, Row>, said: map<Id, Plaintext>) {
    heal.HealWrite? ==> heal.texts != [] && TextsTell(heal.texts, rows, said)
  }

  predicate HealsTell(heals: seq<Heal>, rows: map<Id, Row>, said: map<Id, Plaintext>) {
    forall i :: 0 <= i < |heals| ==> HealTells(heals[i], rows, said)
  }

  predicate DraftsTell(drafts: set<Draft>, said: map<Id, Plaintext>) {
    forall d :: d in drafts ==> d.id in said && d.text == said[d.id]
  }

  predicate Valid(s: State) {
    && RowsSafe(s.disk.rows, s.said, s.disk.keys.code, s.disk.flags.pubkey)
    && KeysFit(s.disk.keys, s.disk.flags)
    && CacheTells(s.mem.cache, s.said) && MemoryFits(s.mem, s.pass, s.disk.flags)
    && PassFits(s.pass, s.disk.keys, s.disk.flags)
    && PassTells(s.pass, s.disk.rows, s.said) && HealsTell(s.heals, s.disk.rows, s.said) && DraftsTell(s.drafts, s.said)
  }

  // --- the exact condition ---

  // A row sealed with this key lands while the conversation's public key is another or none.
  predicate SealsStale(key: Key, flags: Flags) {
    flags.pubkey != Some(key)
  }

  // What one event does wrong, seen before it: it stores a body sealed with a key that is not
  // the conversation's public key, or clears that key over sealed rows.
  predicate Sound(s: State, e: Event) {
    match e
    case Advance(_) => s.pass.FlagsOff? ==> NothingSealed(s.disk.rows)
    case HealStep(i, _) =>
      i < |s.heals| && s.heals[i].HealWrite? && s.heals[i].texts != [] && s.heals[i].texts[0].0 in s.disk.rows ==>
        !SealsStale(s.heals[i].key, s.disk.flags)
    case Store(d) => d.id !in s.disk.rows && d.seen.Some? ==> !SealsStale(d.seen.value, s.disk.flags)
    case _ => true
  }

  // --- one lemma an event family ---

  lemma CaptureKeepsValid(s: State, id: Id, text: Plaintext, sentAt: int)
    requires Valid(s) && (id in s.said ==> s.said[id] == text)
    ensures Valid(StepCapture(s, id, text, sentAt))
  {
    var said := s.said[id := text];
    forall i | i in s.disk.rows ensures RowSafe(i, s.disk.rows[i], said, s.disk.keys.code, s.disk.flags.pubkey) {
      assert RowSafe(i, s.disk.rows[i], s.said, s.disk.keys.code, s.disk.flags.pubkey);
    }
    SaidGrowsTells(s, said);
  }

  // More said under other ids leaves what batches hold as it was.
  lemma SaidGrowsTells(s: State, said: map<Id, Plaintext>)
    requires PassTells(s.pass, s.disk.rows, s.said) && HealsTell(s.heals, s.disk.rows, s.said)
    requires forall i :: i in s.said ==> i in said && said[i] == s.said[i]
    ensures PassTells(s.pass, s.disk.rows, said) && HealsTell(s.heals, s.disk.rows, said)
  {
    forall i | 0 <= i < |s.heals| ensures HealTells(s.heals[i], s.disk.rows, said) {
      assert HealTells(s.heals[i], s.disk.rows, s.said);
    }
  }

  // So do rows that change body, come or go, as long as no chat row turns into a system row.
  lemma RowsMoveTells(s: State, rows: map<Id, Row>)
    requires PassTells(s.pass, s.disk.rows, s.said) && HealsTell(s.heals, s.disk.rows, s.said)
    requires forall i :: i in rows && i in s.said ==>
        rows[i].kind == Chat || (i in s.disk.rows && s.disk.rows[i].kind == System)
    ensures PassTells(s.pass, rows, s.said) && HealsTell(s.heals, rows, s.said)
  {
    forall i | 0 <= i < |s.heals| ensures HealTells(s.heals[i], rows, s.said) {
      assert HealTells(s.heals[i], s.disk.rows, s.said);
    }
  }

  lemma StoreKeepsValid(s: State, d: Draft)
    requires Valid(s) && d in s.drafts && Sound(s, Store(d))
    ensures Valid(StepStore(s, d))
  {
    if d.id !in s.disk.rows {
      RowsMoveTells(s, s.disk.rows[d.id := NewRow(d)]);
      if d.seen.Some? { assert s.disk.keys.code == s.disk.flags.pubkey; }
    }
  }

  lemma InsertSystemKeepsValid(s: State, id: Id, body: Option<Plaintext>, sentAt: int)
    requires Valid(s) && id !in s.said
    ensures Valid(StepInsertSystem(s, id, body, sentAt))
  {
    if id !in s.disk.rows {
      var t := StepInsertSystem(s, id, body, sentAt);
      RowsMoveTells(s, t.disk.rows);
      SaidGrowsTells(WithRows(s, t.disk.rows), t.said);
      forall i | i in t.disk.rows ensures RowSafe(i, t.disk.rows[i], t.said, s.disk.keys.code, s.disk.flags.pubkey) {
        if i != id { assert RowSafe(i, s.disk.rows[i], s.said, s.disk.keys.code, s.disk.flags.pubkey); }
      }
    }
  }

  lemma UpdateKeepsRowsSafe(rows: map<Id, Row>, id: Id, body: Blob, meta: Meta, said: map<Id, Plaintext>,
                            code: Option<Key>, pubkey: Option<Key>)
    requires RowsSafe(rows, said, code, pubkey)
    requires id in rows ==> RowSafe(id, rows[id].(body := Some(body), meta := meta), said, code, pubkey)
    ensures RowsSafe(UpdateBody(rows, id, body, meta), said, code, pubkey)
  {
  }

  // Sealing one row with the key in force, by the pass in progress or a boot pass.
  lemma SealKeepsRows(s: State, key: Key, id: Id, text: Plaintext)
    requires Valid(s) && (id in s.disk.rows ==> s.disk.flags.pubkey == Some(key) && s.disk.rows[id].kind == Chat)
    requires id in s.said && text == s.said[id]
    ensures var rows := UpdateBody(s.disk.rows, id, SealBody(text, key, id), GoodMeta);
      && RowsSafe(rows, s.said, s.disk.keys.code, s.disk.flags.pubkey)
      && PassTells(s.pass, rows, s.said) && HealsTell(s.heals, rows, s.said)
  {
    var rows := UpdateBody(s.disk.rows, id, SealBody(text, key, id), GoodMeta);
    UpdateKeepsRowsSafe(s.disk.rows, id, SealBody(text, key, id), GoodMeta, s.said, s.disk.keys.code,
        s.disk.flags.pubkey);
    RowsMoveTells(s, rows);
  }

  lemma SealWriteKeepsValid(s: State, key: Key, texts: seq<(Id, Plaintext)>)
    requires Valid(s) && s.pass == SealWrite(key, texts) && texts != []
    ensures Valid(StepSealWrite(s, key, texts))
  {
    var (id, text) := texts[0];
    assert texts[0].0 in s.said && texts[0].1 == s.said[texts[0].0];
    SealKeepsRows(s, key, id, text);
  }

  lemma UnsealWriteKeepsValid(s: State, key: Key, bodies: seq<(Id, Blob)>)
    requires Valid(s) && s.pass == UnsealWrite(key, bodies) && bodies != []
    ensures Valid(StepUnsealWrite(s, key, bodies))
    ensures OpenBody(bodies[0].1, GoodMeta, key, key, bodies[0].0).Some?
  {
    var (id, body) := bodies[0];
    assert bodies[0].0 in s.said && bodies[0].1 == Cipher(key, bodies[0].0, s.said[bodies[0].0]);
    UpdateKeepsRowsSafe(s.disk.rows, id, Clear(s.said[id]), NoMeta, s.said, s.disk.keys.code, s.disk.flags.pubkey);
    RowsMoveTells(s, UpdateBody(s.disk.rows, id, Clear(s.said[id]), NoMeta));
  }

  lemma SealBatchTells(s: State, ids: seq<Id>)
    requires Valid(s) && SealBatch(s.disk.rows, ids)
    ensures TextsTell(Texts(s.disk.rows, ids), s.disk.rows, s.said)
  {
    forall k | 0 <= k < |ids| ensures ids[k] in s.said && TextOf(s.disk.rows[ids[k]]) == s.said[ids[k]] {
      assert Sealable(s.disk.rows[ids[k]]) && RowSafe(ids[k], s.disk.rows[ids[k]], s.said, s.disk.keys.code,
          s.disk.flags.pubkey);
    }
  }

  lemma ReadKeepsValid(s: State, ids: seq<Id>)
    requires Valid(s) && Enabled(s, Advance(ids)) && (s.pass.SealRead? || s.pass.UnsealRead?)
    ensures Valid(StepRead(s, ids))
  {
    if s.pass.SealRead? {
      SealBatchTells(s, ids);
    } else {
      forall k | 0 <= k < |ids| ensures ids[k] in s.said
          && s.disk.rows[ids[k]].body.GetOr(Clear("")) == Cipher(s.pass.key, ids[k], s.said[ids[k]]) {
        assert Sealed(s.disk.rows[ids[k]]) && RowSafe(ids[k], s.disk.rows[ids[k]], s.said, s.disk.keys.code,
            s.disk.flags.pubkey);
      }
    }
  }

  lemma HealKeepsValid(s: State, i: nat, ids: seq<Id>)
    requires Valid(s) && Enabled(s, HealStep(i, ids)) && Sound(s, HealStep(i, ids))
    ensures Valid(StepHeal(s, i, ids))
  {
    assert HealTells(s.heals[i], s.disk.rows, s.said);
    match s.heals[i] {
      case HealRead(key) => SealBatchTells(s, ids);
      case HealWrite(key, texts) =>
        var (id, text) := texts[0];
        assert texts[0].0 in s.said && texts[0].1 == s.said[texts[0].0];
        SealKeepsRows(s, key, id, text);
        HealGoesOn(s, i, key, texts);
    }
  }

  lemma HealGoesOn(s: State, i: nat, key: Key, texts: seq<(Id, Plaintext)>)
    requires i < |s.heals| && s.heals[i] == HealWrite(key, texts) && texts != []
    requires var rows := UpdateBody(s.disk.rows, texts[0].0, SealBody(texts[0].1, key, texts[0].0), GoodMeta);
      HealsTell(s.heals, rows, s.said)
    ensures HealsTell(StepHealWrite(s, i, key, texts).heals, StepHealWrite(s, i, key, texts).disk.rows, s.said)
  {
    var t := StepHealWrite(s, i, key, texts);
    assert HealTells(s.heals[i], t.disk.rows, s.said);
    forall j | 0 <= j < |t.heals| ensures HealTells(t.heals[j], t.disk.rows, s.said) {
      if j != i { assert t.heals[j] == s.heals[j]; }
    }
  }

  lemma FlagsOffKeepsValid(s: State)
    requires Valid(s) && s.pass.FlagsOff? && NothingSealed(s.disk.rows)
    ensures Valid(At(WithFlags(s, Flags(false, None)), DropBio))
  {
    forall i | i in s.disk.rows ensures RowSafe(i, s.disk.rows[i], s.said, s.disk.keys.code, None) {
      assert RowSafe(i, s.disk.rows[i], s.said, s.disk.keys.code, s.disk.flags.pubkey) && !Sealed(s.disk.rows[i]);
    }
  }

  // While no public key is set, no row is sealed, so the stored key may change.
  lemma CodeMayChange(rows: map<Id, Row>, said: map<Id, Plaintext>, code: Option<Key>, other: Option<Key>)
    requires RowsSafe(rows, said, code, None)
    ensures RowsSafe(rows, said, other, None)
  {
    forall i | i in rows ensures RowSafe(i, rows[i], said, other, None) {
      assert RowSafe(i, rows[i], said, code, None);
    }
  }

  lemma PubkeyMayAppear(rows: map<Id, Row>, said: map<Id, Plaintext>, code: Option<Key>, pubkey: Option<Key>)
    requires RowsSafe(rows, said, code, None)
    ensures RowsSafe(rows, said, code, pubkey)
  {
    forall i | i in rows ensures RowSafe(i, rows[i], said, code, pubkey) {
      assert RowSafe(i, rows[i], said, code, None);
    }
  }

  lemma EnableKeepsValid(s: State, ids: seq<Id>)
    requires Valid(s) && Enabled(s, Advance(ids))
    requires s.pass.EnableCode? || s.pass.EnableBio? || s.pass.EnableIndex? || s.pass.EnableFlags?
        || s.pass.EnableRelease?
    ensures Valid(StepAdvance(s, ids))
  {
    if s.pass.EnableCode? { CodeMayChange(s.disk.rows, s.said, s.disk.keys.code, Some(s.pass.key)); }
    if s.pass.EnableFlags? { PubkeyMayAppear(s.disk.rows, s.said, s.disk.keys.code, Some(s.pass.key)); }
  }

  lemma DropKeepsValid(s: State, ids: seq<Id>)
    requires Valid(s) && Enabled(s, Advance(ids))
    requires s.pass.DropBio? || s.pass.DropCode? || s.pass.DropIndex? || s.pass.DropKey? || s.pass.BioFlag?
        || s.pass.ForgetRows?
    ensures Valid(StepAdvance(s, ids))
  {
    if s.pass.DropCode? { CodeMayChange(s.disk.rows, s.said, s.disk.keys.code, None); }
    if s.pass.ForgetRows? { RowsMoveTells(s, map[]); }
  }

  lemma AdvanceKeepsValid(s: State, ids: seq<Id>)
    requires Valid(s) && Enabled(s, Advance(ids)) && Sound(s, Advance(ids))
    ensures Valid(StepAdvance(s, ids))
  {
    match s.pass {
      case SealRead(_) => ReadKeepsValid(s, ids);
      case UnsealRead(_) => ReadKeepsValid(s, ids);
      case SealWrite(k, texts) => if texts != [] { SealWriteKeepsValid(s, k, texts); }
      case UnsealWrite(k, bodies) => if bodies != [] { UnsealWriteKeepsValid(s, k, bodies); }
      case FlagsOff => FlagsOffKeepsValid(s);
      case EnableCode(_, _) => EnableKeepsValid(s, ids);
      case EnableBio(_) => EnableKeepsValid(s, ids);
      case EnableIndex(_, _) => EnableKeepsValid(s, ids);
      case EnableFlags(_, _) => EnableKeepsValid(s, ids);
      case EnableRelease(_) => EnableKeepsValid(s, ids);
      case _ => DropKeepsValid(s, ids);
    }
  }

  // What the screen shows of a row is what was said; with the chat unlocked it is shown.
  lemma ShownIsSaid(s: State, id: Id)
    requires Valid(s) && id in s.disk.rows && s.disk.flags.pubkey.Some? && s.disk.rows[id].body.Some?
    ensures var r := Shown(id, s.disk.rows[id], s.mem, s.disk.flags.pubkey.value);
      && (r.Ok? ==> r.value == Some(Clear(s.said[id])))
      && (s.mem.released.Some? && !s.pass.EnableRelease? ==> r.Ok?)
  {
    assert RowSafe(id, s.disk.rows[id], s.said, s.disk.keys.code, s.disk.flags.pubkey);
  }

  lemma ShowKeepsValid(s: State, id: Id)
    requires Valid(s)
    ensures Valid(StepShow(s, id))
  {
    if id in s.disk.rows && s.disk.flags.pubkey.Some? && s.disk.rows[id].body.Some? { ShownIsSaid(s, id); }
  }

  lemma StartHealKeepsValid(s: State, key: Key)
    requires Valid(s)
    ensures Valid(s.(heals := s.heals + [HealRead(key)]))
  {
  }

  lemma DeleteKeepsValid(s: State, gone: set<Id>)
    requires Valid(s)
    ensures Valid(WithRows(s, s.disk.rows - gone))
  {
    RowsMoveTells(s, s.disk.rows - gone);
  }

  // Every prefix of every operation, with boot passes beside it and messages coming and going
  // in between, keeps the invariant, as long as each event is sound.
  lemma StepKeepsValid(s: State, e: Event)
    requires Valid(s) && Enabled(s, e) && Sound(s, e)
    ensures Valid(Step(s, e))
  {
    match e {
      case Advance(ids) => AdvanceKeepsValid(s, ids);
      case HealStep(i, ids) => HealKeepsValid(s, i, ids);
      case StartHeal => StartHealKeepsValid(s, s.disk.flags.pubkey.value);
      case Capture(id, text, sentAt) => CaptureKeepsValid(s, id, text, sentAt);
      case Store(d) => StoreKeepsValid(s, d);
      case InsertSystem(id, body, sentAt) => InsertSystemKeepsValid(s, id, body, sentAt);
      case Delete(gone) => DeleteKeepsValid(s, gone);
      case Show(id) => ShowKeepsValid(s, id);
      case _ =>
    }
  }
}
