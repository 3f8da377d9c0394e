// The per chat lock of one conversation, one persistent write at a time: a crash may fall
// between any two of them, messages keep arriving meanwhile, each reading the lock some time
// before its row is stored, and boot passes run beside the operation in progress.
module ChatLock {
  import opened Options

  const SEAL_BATCH: nat := 50

  type Id = string
  type Plaintext = string

  // A chat keypair: the public and the private half go by the same number.
  type Key = nat

  // A stored body. Sealing binds the key pair and the row; opening needs both to match.
  datatype Blob = Clear(text: Plaintext) | Cipher(key: Key, row: Id, sealed: Plaintext)

  // ciphertext_meta: absent, sealing parameters, or something that does not parse as such.
  datatype Meta = NoMeta | GoodMeta | BadMeta

  // System rows never take part in sealing.
  datatype Kind = Chat | System

  datatype Row = Row(kind: Kind, body: Option<Blob>, meta: Meta, sentAt: int)

  datatype Keystore = Keystore(code: Option<Key>, bio: Option<Key>, indexed: bool)

  datatype Flags = Flags(bioEnabled: bool, pubkey: Option<Key>)

  datatype Disk = Disk(rows: map<Id, Row>, keys: Keystore, flags: Flags)

  datatype Memory = Memory(released: Option<Key>, cache: map<Id, Plaintext>)

  // Where the operation in flight stands: what its next write is.
  datatype Pass =
    | NoPass
    | EnableCode(key: Key, bio: bool)
    | EnableBio(key: Key)
    | EnableIndex(key: Key, bio: bool)
    | EnableFlags(key: Key, bio: bool)
    | EnableRelease(key: Key)
    | SealRead(key: Key)
    | SealWrite(key: Key, texts: seq<(Id, Plaintext)>)
    | UnsealRead(key: Key)
    | UnsealWrite(key: Key, bodies: seq<(Id, Blob)>)
    | ForgetRows
    | FlagsOff
    | DropBio
    | DropCode
    | DropIndex
    | DropKey
    | BioFlag(on: bool)

  // A boot pass over this conversation, with the public key it was started with.
  datatype Heal = HealRead(key: Key) | HealWrite(key: Key, texts: seq<(Id, Plaintext)>) | HealDone

  // A message on its way to the table: the public key was read, the row is not stored yet.
  datatype Draft = Draft(id: Id, text: Plaintext, sentAt: int, seen: Option<Key>)

  // `said` is what was to be stored under each id.
  datatype State = State(
    disk: Disk, mem: Memory, pass: Pass, heals: seq<Heal>, drafts: set<Draft>, said: map<Id, Plaintext>)

  const INITIAL := State(
    Disk(map[], Keystore(None, None, false), Flags(false, None)), Memory(None, map[]), NoPass, [], {}, map[])

  // --- rows ---

  function SealBody(text: Plaintext, pub: Key, id: Id): Blob {
    Cipher(pub, id, text)
  }

  function OpenBody(body: Blob, meta: Meta, priv: Key, pub: Key, id: Id): Option<Plaintext> {
    if meta == GoodMeta && body.Cipher? && body.key == pub && priv == pub && body.row == id then Some(body.sealed)
        else None
  }

  predicate Sealable(row: Row) {
    row.kind == Chat && row.meta == NoMeta && row.body.Some?
  }

  // What the query for sealed rows selects.
  predicate Sealed(row: Row) {
    row.meta != NoMeta
  }

  function UpdateBody(rows: map<Id, Row>, id: Id, body: Blob, meta: Meta): map<Id, Row> {
    if id in rows then rows[id := rows[id].(body := Some(body), meta := meta)] else rows
  }

  // What a chat row says to an owner who knows the code: the text itself, or what the stored
  // key opens, given the public key in the conversation row.
  function Recovered(id: Id, row: Row, keys: Keystore, flags: Flags): Option<Plaintext> {
    if row.body.None? then None
    else if row.meta == NoMeta then (if row.body.value.Clear? then Some(row.body.value.text) else None)
    else if flags.pubkey.Some? && keys.code.Some?
    then OpenBody(row.body.value, row.meta, keys.code.value, flags.pubkey.value, id)
    else None
  }

  predicate NothingSealed(rows: map<Id, Row>) {
    forall i :: i in rows ==> !Sealed(rows[i])
  }

  predicate NothingSealable(rows: map<Id, Row>) {
    forall i :: i in rows ==> !Sealable(rows[i])
  }

  // One result of listSealablePlaintext or listSealedRows: at most a batch, empty only when
  // nothing matches.
  predicate SealBatch(rows: map<Id, Row>, ids: seq<Id>) {
    && |ids| <= SEAL_BATCH
    && (forall k :: 0 <= k < |ids| ==> ids[k] in rows && Sealable(rows[ids[k]]))
    && (ids == [] ==> NothingSealable(rows))
  }

  predicate UnsealBatch(rows: map<Id, Row>, ids: seq<Id>) {
    && |ids| <= SEAL_BATCH
    && (forall k :: 0 <= k < |ids| ==> ids[k] in rows && Sealed(rows[ids[k]]))
    && (ids == [] ==> NothingSealed(rows))
  }

  function TextOf(row: Row): Plaintext {
    if row.body.Some? && row.body.value.Clear? then row.body.value.text else ""
  }

  function Texts(rows: map<Id, Row>, ids: seq<Id>): seq<(Id, Plaintext)>
    requires forall k :: 0 <= k < |ids| ==> ids[k] in rows
  {
    seq(|ids|, k requires 0 <= k < |ids| => (ids[k], TextOf(rows[ids[k]])))
  }

  function Bodies(rows: map<Id, Row>, ids: seq<Id>): seq<(Id, Blob)>
    requires forall k :: 0 <= k < |ids| ==> ids[k] in rows
  {
    seq(|ids|, k requires 0 <= k < |ids| => (ids[k], rows[ids[k]].body.GetOr(Clear(""))))
  }

  // --- events ---

  datatype Event =
    | Enable(key: Key, bio: bool)
    | Disable
    | Forget                                  // removeLockAndDeleteMessages
    | Advance(ids: seq<Id>)                   // the next write, or the batch a read returned
    | StartHeal                               // the boot pass lists this chat as locked
    | HealStep(heal: nat, ids: seq<Id>)
    | Crash
    | Capture(id: Id, text: Plaintext, sentAt: int)   // a text or image, sent or received
    | Store(draft: Draft)
    | InsertSystem(id: Id, body: Option<Plaintext>, sentAt: int)
    | Delete(gone: set<Id>)
    | Relock
    | UnlockCode
    | UnlockBio
    | Show(id: Id)                            // decryptBodyCached
    | ChangeCode
    | SetBio(on: bool)

  predicate Enabled(s: State, e: Event) {
    match e
    case Enable(_, _) => s.pass.NoPass? && s.disk.flags.pubkey.None?
    case Disable => s.pass.NoPass? && s.mem.released.Some? && s.disk.flags.pubkey.Some?
    case Forget => s.pass.NoPass?
    case Advance(ids) =>
      if s.pass.SealRead? then SealBatch(s.disk.rows, ids)
      else if s.pass.UnsealRead? then UnsealBatch(s.disk.rows, ids)
      else !s.pass.NoPass?
    case StartHeal => s.disk.flags.pubkey.Some?
    case HealStep(i, ids) => i < |s.heals| && !s.heals[i].HealDone?
        && (s.heals[i].HealRead? ==> SealBatch(s.disk.rows, ids))
    case Capture(id, text, _) => id in s.said ==> s.said[id] == text
    case Store(draft) => draft in s.drafts
    case InsertSystem(id, _, _) => id !in s.said
    case UnlockBio => s.disk.flags.bioEnabled
    case ChangeCode => s.pass.NoPass? && s.mem.released.Some? && s.disk.flags.pubkey.Some?
    case SetBio(on) => s.pass.NoPass? && s.disk.flags.pubkey.Some? && (on ==> s.mem.released.Some?)
    case _ => true
  }

  function WithRows(s: State, rows: map<Id, Row>): State {
    s.(disk := s.disk.(rows := rows))
  }

  function WithKeys(s: State, keys: Keystore): State {
    s.(disk := s.disk.(keys := keys))
  }

  function WithFlags(s: State, flags: Flags): State {
    s.(disk := s.disk.(flags := flags))
  }

  function At(s: State, pass: Pass): State {
    s.(pass := pass)
  }

  function AfterSeal(key: Key, rest: seq<(Id, Plaintext)>): Pass {
    if rest == [] then SealRead(key) else SealWrite(key, rest)
  }

  function AfterUnseal(key: Key, rest: seq<(Id, Blob)>): Pass {
    if rest == [] then UnsealRead(key) else UnsealWrite(key, rest)
  }

  function StepSealWrite(s: State, key: Key, texts: seq<(Id, Plaintext)>): State
    requires texts != []
  {
    var (id, text) := texts[0];
    At(WithRows(s, UpdateBody(s.disk.rows, id, SealBody(text, key, id), GoodMeta)), AfterSeal(key, texts[1..]))
  }

  // openBody throws when the row does not open, which ends the pass. A batch holds the rows
  // as they were read.
  function StepUnsealWrite(s: State, key: Key, bodies: seq<(Id, Blob)>): State
    requires bodies != []
  {
    var (id, body) := bodies[0];
    match OpenBody(body, GoodMeta, key, key, id)
    case None => At(s, NoPass)
    case Some(text) => At(WithRows(s, UpdateBody(s.disk.rows, id, Clear(text), NoMeta)), AfterUnseal(key, bodies[1..]))
  }

  function StepRead(s: State, ids: seq<Id>): State
    requires Enabled(s, Advance(ids)) && (s.pass.SealRead? || s.pass.UnsealRead?)
  {
    if s.pass.SealRead?
    then (if ids == [] then At(s, NoPass) else At(s, SealWrite(s.pass.key, Texts(s.disk.rows, ids))))
    else (if ids == [] then At(s, FlagsOff) else At(s, UnsealWrite(s.pass.key, Bodies(s.disk.rows, ids))))
  }

  function StepAdvance(s: State, ids: seq<Id>): State
    requires Enabled(s, Advance(ids))
  {
    var keys, flags := s.disk.keys, s.disk.flags;
    match s.pass
    case NoPass => s
    case EnableCode(k, bio) =>
      At(WithKeys(s, keys.(code := Some(k))), if bio then EnableBio(k) else EnableIndex(k, false))
    case EnableBio(k) => At(WithKeys(s, keys.(bio := Some(k))), EnableIndex(k, true))
    case EnableIndex(k, bio) => At(WithKeys(s, keys.(indexed := true)), EnableFlags(k, bio))
    case EnableFlags(k, bio) => At(WithFlags(s, Flags(bio, Some(k))), EnableRelease(k))
    case EnableRelease(k) => At(s.(mem := s.mem.(released := Some(k))), SealRead(k))
    case SealRead(_) => StepRead(s, ids)
    case UnsealRead(_) => StepRead(s, ids)
    case SealWrite(k, texts) => if texts == [] then At(s, SealRead(k)) else StepSealWrite(s, k, texts)
    case UnsealWrite(k, bodies) => if bodies == [] then At(s, UnsealRead(k)) else StepUnsealWrite(s, k, bodies)
    case ForgetRows => At(WithRows(s, map[]), FlagsOff)
    case FlagsOff => At(WithFlags(s, Flags(false, None)), DropBio)
    case DropBio => At(WithKeys(s, keys.(bio := None)), DropCode)
    case DropCode => At(WithKeys(s, keys.(code := None)), DropIndex)
    case DropIndex => At(WithKeys(s, keys.(indexed := false)), DropKey)
    case DropKey => At(s.(mem := Memory(None, map[])), NoPass)
    case BioFlag(on) => At(WithFlags(s, flags.(bioEnabled := on)), NoPass)
  }

  // --- boot passes ---

  function WithHeal(s: State, i: nat, heal: Heal): State
    requires i < |s.heals|
  {
    s.(heals := s.heals[i := heal])
  }

  function StepHealWrite(s: State, i: nat, key: Key, texts: seq<(Id, Plaintext)>): State
    requires i < |s.heals| && texts != []
  {
    var (id, text) := texts[0];
    var rest := if |texts| == 1 then HealRead(key) else HealWrite(key, texts[1..]);
    WithHeal(WithRows(s, UpdateBody(s.disk.rows, id, SealBody(text, key, id), GoodMeta)), i, rest)
  }

  function StepHeal(s: State, i: nat, ids: seq<Id>): State
    requires Enabled(s, HealStep(i, ids))
  {
    match s.heals[i]
    case HealRead(key) =>
      WithHeal(s, i, if ids == [] then HealDone else HealWrite(key, Texts(s.disk.rows, ids)))
    case HealWrite(key, texts) => if texts == [] then WithHeal(s, i, HealRead(key)) else StepHealWrite(s, i, key, texts)
    case HealDone => s
  }

  // --- messages ---

  // The row as stored: sealed when a public key was seen.
  function NewRow(d: Draft): Row {
    match d.seen
    case None => Row(Chat, Some(Clear(d.text)), NoMeta, d.sentAt)
    case Some(key) => Row(Chat, Some(SealBody(d.text, key, d.id)), GoodMeta, d.sentAt)
  }

  // The conversation row is read here; awaits lie between this and the store.
  function StepCapture(s: State, id: Id, text: Plaintext, sentAt: int): State {
    s.(drafts := s.drafts + {Draft(id, text, sentAt, s.disk.flags.pubkey)}, said := s.said[id := text])
  }

  function StepStore(s: State, d: Draft): State {
    var s1 := s.(drafts := s.drafts - {d});
    if d.id in s.disk.rows then s1 else WithRows(s1, s.disk.rows[d.id := NewRow(d)])
  }

  function StepInsertSystem(s: State, id: Id, body: Option<Plaintext>, sentAt: int): State {
    if id in s.disk.rows then s
    else
      var row := Row(System, if body.Some? then Some(Clear(body.value)) else None, NoMeta, sentAt);
      WithRows(s, s.disk.rows[id := row]).(said := s.said[id := body.GetOr("")])
  }

  // Why a body cannot be shown: the chat is locked, or the row does not open.
  datatype ShowError = ChatLocked | BadRow

  // decryptBodyCached: null for a null body; a row without good sealing parameters as it is; a
  // sealed one from the cache or opened with the released key.
  function Shown(id: Id, row: Row, mem: Memory, pubkey: Key): Result<Option<Blob>, ShowError> {
    if row.body.None? then Ok(None)
    else if row.meta != GoodMeta then Ok(row.body)
    else if id in mem.cache then Ok(Some(Clear(mem.cache[id])))
    else if mem.released.None? then Err(ChatLocked)
    else
      match OpenBody(row.body.value, row.meta, mem.released.value, pubkey, id)
      case None => Err(BadRow)
      case Some(text) => Ok(Some(Clear(text)))
  }

  // A sealed body that was shown stays in the cache.
  function CacheShown(id: Id, row: Row, mem: Memory, pubkey: Key): Memory {
    var r := Shown(id, row, mem, pubkey);
    if row.body.Some? && row.meta == GoodMeta && r.Ok? && r.value.Some? && r.value.value.Clear?
    then mem.(cache := mem.cache[id := r.value.value.text])
    else mem
  }

  function StepShow(s: State, id: Id): State {
    if id !in s.disk.rows || s.disk.flags.pubkey.None? then s
    else s.(mem := CacheShown(id, s.disk.rows[id], s.mem, s.disk.flags.pubkey.value))
  }

  function StepSetBio(s: State, on: bool): State {
    At(WithKeys(s, s.disk.keys.(bio := if on then s.mem.released else None)), BioFlag(on))
  }

  function Step(s: State, e: Event): State
    requires Enabled(s, e)
  {
    match e
    case Enable(k, bio) => At(s, EnableCode(k, bio))
    case Disable => At(s, UnsealRead(s.mem.released.value))
    case Forget => At(s, ForgetRows)
    case Advance(ids) => StepAdvance(s, ids)
    case StartHeal => s.(heals := s.heals + [HealRead(s.disk.flags.pubkey.value)])
    case HealStep(i, ids) => StepHeal(s, i, ids)
    case Crash => At(s.(mem := Memory(None, map[]), heals := [], drafts := {}), NoPass)
    case Capture(id, text, sentAt) => StepCapture(s, id, text, sentAt)
    case Store(draft) => StepStore(s, draft)
    case InsertSystem(id, body, sentAt) => StepInsertSystem(s, id, body, sentAt)
    case Delete(gone) => WithRows(s, s.disk.rows - gone)
    case Relock => s.(mem := Memory(None, map[]))
    case UnlockCode => if s.disk.keys.code.Some? then s.(mem := s.mem.(released := s.disk.keys.code)) else s
    case UnlockBio => if s.disk.keys.bio.Some? then s.(mem := s.mem.(released := s.disk.keys.bio)) else s
    case Show(id) => StepShow(s, id)
    case ChangeCode => WithKeys(s, s.disk.keys.(code := s.mem.released))
    case SetBio(on) => StepSetBio(s, on)
  }

  predicate Runs(s: State, events: seq<Event>, t: State)
    decreases |events|
  {
    if events == [] then t == s else Enabled(s, events[0]) && Runs(Step(s, events[0]), events[1..], t)
  }
}
