// Incoming images: the staging tables, and what one received content does to them.
module ImageTransfer {
  import opened ImageCodec
  import opened Options
  import opened Text

  type Id = string
  type Body = seq<Unit>

  // The announcement of an image. The id of its envelope is the ref of its chunks.
  datatype Announcement = Announcement(mime: string, width: nat, height: nat, bytes: int, sha256: Body, chunks: int)

  datatype Transfer = Transfer(conversation: Id, info: Announcement, sentAt: int, createdAt: int)

  // The stored body: as it came, or sealed for the chat lock of its conversation and its id.
  datatype Stored = Plain(text: Body) | SealedFor(key: nat, conversation: Id, id: Id, text: Body)

  // What a completing chunk takes from the conversation row: its retention, and the public key
  // of its lock, if on.
  datatype Settings = Settings(retention: int, lock: Option<nat>)

  datatype Kind = TextMessage | ImageMessage | SystemMessage

  datatype Row = Row(conversation: Id, incoming: bool, kind: Kind, body: Stored, sentAt: int, expiresAt: Option<int>)

  // image_transfers by ref, image_chunks by ref and seq, messages by id.
  datatype Db = Db(transfers: map<Id, Transfer>, chunks: map<Id, map<nat, Body>>, messages: map<Id, Row>)

  const EMPTY := Db(map[], map[], map[])

  // --- the repository operations ---

  function Staged(db: Db, ref: Id): map<nat, Body> {
    if ref in db.chunks then db.chunks[ref] else map[]
  }

  function CreateTransfer(db: Db, ref: Id, t: Transfer): Db {
    if ref in db.transfers then db else db.(transfers := db.transfers[ref := t])
  }

  function InsertChunk(db: Db, ref: Id, seq_: nat, data: Body): Db {
    if seq_ in Staged(db, ref) then db else db.(chunks := db.chunks[ref := Staged(db, ref)[seq_ := data]])
  }

  function InOrder(staged: map<nat, Body>, n: nat): seq<Body> {
    if n == 0 then []
    else if n - 1 in staged then InOrder(staged, n - 1) + [staged[n - 1]]
    else InOrder(staged, n - 1)
  }

  // ORDER BY seq. Received seqs stay below IMAGE_MAX_CHUNKS.
  function ListChunkData(db: Db, ref: Id): seq<Body> {
    InOrder(Staged(db, ref), IMAGE_MAX_CHUNKS)
  }

  // The chunk rows cascade from the transfer row.
  function DropTransfers(db: Db, refs: set<Id>): Db {
    db.(transfers := db.transfers - refs, chunks := db.chunks - refs)
  }

  function DeleteTransfer(db: Db, ref: Id): Db {
    DropTransfers(db, {ref})
  }

  function DeleteConversationTransfer(db: Db, ref: Id, conv: Id): Db {
    if ref in db.transfers && db.transfers[ref].conversation == conv then DeleteTransfer(db, ref) else db
  }

  function StaleTransfers(db: Db, cutoff: int): set<Id> {
    set r | r in db.transfers && db.transfers[r].createdAt < cutoff
  }

  function TransfersOf(db: Db, conv: Id): set<Id> {
    set r | r in db.transfers && db.transfers[r].conversation == conv
  }

  function InsertMessage(db: Db, id: Id, row: Row): Db {
    if id in db.messages then db else db.(messages := db.messages[id := row])
  }

  predicate PeerAuthored(row: Row, conv: Id) {
    row.conversation == conv && row.incoming && (row.kind == TextMessage || row.kind == ImageMessage)
  }

  function DeletePeerAuthored(db: Db, id: Id, conv: Id): Db {
    if id in db.messages && PeerAuthored(db.messages[id], conv) then db.(messages := db.messages - {id}) else db
  }

  function Expired(db: Db, now: int): set<Id> {
    set i | i in db.messages && db.messages[i].expiresAt.Some? && db.messages[i].expiresAt.value < now
  }

  function ExpiryFor(retention: int, now: int): Option<int> {
    if retention > 0 then Some(now + retention * 1000) else None
  }

  // --- events ---

  datatype Event =
    | Announce(conv: Id, id: Id, info: Announcement, sentAt: int, now: int)
    | Chunk(conv: Id, ref: Id, seq_: nat, data: Body, settings: Settings, now: int)
    | Retract(conv: Id, id: Id)               // message/delete from the peer
    | OtherMessage(id: Id, row: Row)           // any other insert into messages
    | DeleteForMe(id: Id)
    | SweepExpired(now: int)
    | SweepStaleTransfers(cutoff: int)
    | PurgeTransfers(conv: Id)                 // a contact is blocked

  // The bounds checked when content is decoded; anything else decodes as unknown content.
  predicate AnnouncementDecodes(info: Announcement) {
    1 <= info.bytes <= IMAGE_MAX_BYTES && info.chunks == ChunkCountFor(info.bytes)
  }

  predicate ChunkDecodes(seq_: nat, data: Body) {
    seq_ < IMAGE_MAX_CHUNKS && 0 < |data| <= IMAGE_CHUNK_DATA_B64_MAX && |data| % 4 == 0
  }

  function ReceiveAnnouncement(db: Db, conv: Id, id: Id, info: Announcement, sentAt: int, now: int): Db {
    if !AnnouncementDecodes(info) || id in db.messages then db
    else CreateTransfer(db, id, Transfer(conv, info, sentAt, now))
  }

  function StoredAs(lock: Option<nat>, conv: Id, id: Id, body: Body): Stored {
    match lock
    case None => Plain(body)
    case Some(key) => SealedFor(key, conv, id, body)
  }

  function ImageRow(t: Transfer, ref: Id, body: Body, settings: Settings, now: int): Row {
    Row(t.conversation, true, ImageMessage, StoredAs(settings.lock, t.conversation, ref, body), t.sentAt,
        ExpiryFor(settings.retention, now))
  }

  // The last chunk is in: assemble or discard, either way the staging rows go.
  function Complete(hash: Hash, db: Db, ref: Id, settings: Settings, now: int): Db
    requires ref in db.transfers
  {
    var t := db.transfers[ref];
    match Assembled(hash, ListChunkData(db, ref), t.info.bytes, t.info.sha256)
    case Ok(body) => DeleteTransfer(InsertMessage(db, ref, ImageRow(t, ref, body, settings, now)), ref)
    case Err(_) => DeleteTransfer(db, ref)
  }

  function ReceiveChunk(
      hash: Hash, db: Db, conv: Id, ref: Id, seq_: nat, data: Body, settings: Settings, now: int): Db
  {
    if !ChunkDecodes(seq_, data) || ref !in db.transfers then db
    else
      var t := db.transfers[ref];
      if t.conversation != conv || seq_ >= t.info.chunks then db
      else
        var db1 := InsertChunk(db, ref, seq_, data);
        if |Staged(db1, ref)| == t.info.chunks then Complete(hash, db1, ref, settings, now) else db1
  }

  function Step(hash: Hash, db: Db, e: Event): Db {
    match e
    case Announce(conv, id, info, sentAt, now) => ReceiveAnnouncement(db, conv, id, info, sentAt, now)
    case Chunk(conv, ref, seq_, data, settings, now) => ReceiveChunk(hash, db, conv, ref, seq_, data, settings, now)
    case Retract(conv, id) => DeleteConversationTransfer(DeletePeerAuthored(db, id, conv), id, conv)
    case OtherMessage(id, row) => InsertMessage(db, id, row)
    case DeleteForMe(id) => db.(messages := db.messages - {id})
    case SweepExpired(now) => db.(messages := db.messages - Expired(db, now))
    case SweepStaleTransfers(cutoff) => DropTransfers(db, StaleTransfers(db, cutoff))
    case PurgeTransfers(conv) => DropTransfers(db, TransfersOf(db, conv))
  }

  function Run(hash: Hash, db: Db, events: seq<Event>): Db {
    if events == [] then db else Step(hash, Run(hash, db, events[..|events| - 1]), events[|events| - 1])
  }
}
