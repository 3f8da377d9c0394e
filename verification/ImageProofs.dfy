// Exact reassembly of an honest sender's image, whatever else is received in between.
module ImageProofs {
  import opened Base64
  import opened ImageCodec
  import opened ImageTransfer
  import opened Options
  import opened Text

  // --- the tables seen from one ref ---

  datatype Cell = Cell(transfer: Option<Transfer>, staged: map<nat, Body>, row: Option<Row>)

  function At(db: Db, ref: Id): Cell {
    Cell(if ref in db.transfers then Some(db.transfers[ref]) else None,
         Staged(db, ref),
         if ref in db.messages then Some(db.messages[ref]) else None)
  }

  function Unstaged(c: Cell): Cell {
    c.(transfer := None, staged := map[])
  }

  predicate Takes(c: Cell, conv: Id, seq_: nat, data: Body) {
    ChunkDecodes(seq_, data) && c.transfer.Some? && c.transfer.value.conversation == conv
        && seq_ < c.transfer.value.info.chunks
  }

  function WithChunk(c: Cell, seq_: nat, data: Body): Cell {
    if seq_ in c.staged then c else c.(staged := c.staged[seq_ := data])
  }

  function CompleteCell(hash: Hash, ref: Id, c: Cell, settings: Settings, now: int): Cell
    requires c.transfer.Some?
  {
    var t := c.transfer.value;
    match Assembled(hash, InOrder(c.staged, IMAGE_MAX_CHUNKS), t.info.bytes, t.info.sha256)
    case Ok(body) => Unstaged(if c.row.Some? then c else c.(row := Some(ImageRow(t, ref, body, settings, now))))
    case Err(_) => Unstaged(c)
  }

  function CellChunk(hash: Hash, ref: Id, c: Cell, seq_: nat, data: Body, settings: Settings, now: int): Cell
    requires c.transfer.Some?
  {
    var c1 := WithChunk(c, seq_, data);
    if |c1.staged| == c.transfer.value.info.chunks then CompleteCell(hash, ref, c1, settings, now) else c1
  }

  predicate Owned(c: Cell, conv: Id) {
    c.transfer.Some? && c.transfer.value.conversation == conv
  }

  function CellStep(hash: Hash, ref: Id, c: Cell, e: Event): Cell {
    match e
    case Announce(conv, id, info, sentAt, now) =>
      if id == ref && AnnouncementDecodes(info) && c.row.None? && c.transfer.None?
      then c.(transfer := Some(Transfer(conv, info, sentAt, now))) else c
    case Chunk(conv, r, seq_, data, settings, now) =>
      if r == ref && Takes(c, conv, seq_, data) then CellChunk(hash, ref, c, seq_, data, settings, now) else c
    case Retract(conv, id) =>
      if id != ref then c
      else
        var c1 := if c.row.Some? && PeerAuthored(c.row.value, conv) then c.(row := None) else c;
        if Owned(c, conv) then Unstaged(c1) else c1
    case OtherMessage(id, row) => if id == ref && c.row.None? then c.(row := Some(row)) else c
    case DeleteForMe(id) => if id == ref then c.(row := None) else c
    case SweepExpired(now) =>
      if c.row.Some? && c.row.value.expiresAt.Some? && c.row.value.expiresAt.value < now then c.(row := None) else c
    case SweepStaleTransfers(cutoff) => if c.transfer.Some? && c.transfer.value.createdAt < cutoff
        then Unstaged(c) else c
    case PurgeTransfers(conv) => if Owned(c, conv) then Unstaged(c) else c
  }

  lemma ChunkIsLocal(hash: Hash, ref: Id, db: Db, e: Event)
    requires e.Chunk?
    ensures At(Step(hash, db, e), ref) == CellStep(hash, ref, At(db, ref), e)
  {
    if Takes(At(db, e.ref), e.conv, e.seq_, e.data) {
      var db1 := InsertChunk(db, e.ref, e.seq_, e.data);
      assert At(db1, e.ref) == WithChunk(At(db, e.ref), e.seq_, e.data);
      if e.ref != ref { assert At(db1, ref) == At(db, ref); }
      if |Staged(db1, e.ref)| == db.transfers[e.ref].info.chunks {
        CompleteIsLocal(hash, ref, db1, e.ref, e.settings, e.now);
      }
    }
  }

  lemma CompleteIsLocal(hash: Hash, ref: Id, db: Db, done: Id, settings: Settings, now: int)
    requires done in db.transfers
    ensures At(Complete(hash, db, done, settings, now), ref) ==
      if ref == done then CompleteCell(hash, ref, At(db, ref), settings, now) else At(db, ref)
  {
  }

  lemma RetractIsLocal(hash: Hash, ref: Id, db: Db, conv: Id, id: Id)
    ensures At(Step(hash, db, Retract(conv, id)), ref) == CellStep(hash, ref, At(db, ref), Retract(conv, id))
  {
    var db1 := DeletePeerAuthored(db, id, conv);
    assert db1.transfers == db.transfers && db1.chunks == db.chunks;
  }

  // What one event does to a ref depends on what the tables hold for that ref alone.
  lemma StepIsLocal(hash: Hash, ref: Id, db: Db, e: Event)
    ensures At(Step(hash, db, e), ref) == CellStep(hash, ref, At(db, ref), e)
  {
    match e {
      case Chunk(_, _, _, _, _, _) => ChunkIsLocal(hash, ref, db, e);
      case Retract(conv, id) => RetractIsLocal(hash, ref, db, conv, id);
      case _ =>
    }
  }

  function CellRun(hash: Hash, ref: Id, events: seq<Event>): Cell {
    if events == [] then Cell(None, map[], None)
    else CellStep(hash, ref, CellRun(hash, ref, events[..|events| - 1]), events[|events| - 1])
  }

  lemma {:induction false} RunIsLocal(hash: Hash, ref: Id, events: seq<Event>)
    ensures At(Run(hash, EMPTY, events), ref) == CellRun(hash, ref, events)
  {
    if events != [] {
      RunIsLocal(hash, ref, events[..|events| - 1]);
      StepIsLocal(hash, ref, Run(hash, EMPTY, events[..|events| - 1]), events[|events| - 1]);
    }
  }

  // --- staging stays bounded ---

  predicate Fits(c: Cell) {
    && (c.transfer.None? ==> c.staged == map[])
    && (c.transfer.Some? ==> AnnouncementDecodes(c.transfer.value.info) && |c.staged| < c.transfer.value.info.chunks)
    && (c.transfer.Some? ==> forall i :: i in c.staged ==> i < c.transfer.value.info.chunks)
  }

  lemma ChunksPositive(bytes: nat)
    requires bytes >= 1
    ensures ChunkCountFor(bytes) >= 1 && (bytes <= IMAGE_MAX_BYTES ==> ChunkCountFor(bytes) <= IMAGE_MAX_CHUNKS)
  {
  }

  lemma CellStepFits(hash: Hash, ref: Id, c: Cell, e: Event)
    requires Fits(c)
    ensures Fits(CellStep(hash, ref, c, e))
  {
    if e.Announce? && AnnouncementDecodes(e.info) { ChunksPositive(e.info.bytes); }
  }

  lemma {:induction false} CellRunFits(hash: Hash, ref: Id, events: seq<Event>)
    ensures Fits(CellRun(hash, ref, events))
  {
    if events != [] {
      CellRunFits(hash, ref, events[..|events| - 1]);
      CellStepFits(hash, ref, CellRun(hash, ref, events[..|events| - 1]), events[|events| - 1]);
    }
  }

  // Whatever is received: staged rows exist only for an announced ref, and are fewer than
  // its chunk count, itself at most IMAGE_MAX_CHUNKS.
  lemma StagingIsBounded(hash: Hash, events: seq<Event>, ref: Id)
    ensures ref !in Run(hash, EMPTY, events).transfers ==> Staged(Run(hash, EMPTY, events), ref) == map[]
    ensures ref in Run(hash, EMPTY, events).transfers ==>
        |Staged(Run(hash, EMPTY, events), ref)|
          < Run(hash, EMPTY, events).transfers[ref].info.chunks <= IMAGE_MAX_CHUNKS
  {
    RunIsLocal(hash, ref, events);
    CellRunFits(hash, ref, events);
    var c := CellRun(hash, ref, events);
    if c.transfer.Some? { ChunksPositive(c.transfer.value.info.bytes); }
  }

  // --- an honest image ---

  datatype Image = Image(ref: Id, conv: Id, raw: seq<Byte>)

  function BodyOf(m: Image): Body {
    Encoded(m.raw)
  }

  function Count(m: Image): nat {
    ChunkCountFor(|m.raw|)
  }

  predicate Announces(hash: Hash, m: Image, info: Announcement) {
    info.bytes == |m.raw| && info.sha256 == Encoded(hash(m.raw)) && info.chunks == Count(m)
  }

  // The slice under seq_ as the sender cuts it.
  predicate IsSlice(m: Image, seq_: nat, data: Body) {
    seq_ < |Slices(BodyOf(m))| && data == Slices(BodyOf(m))[seq_]
  }

  // What the sender's own device puts on the wire under this ref is its image, and nobody
  // else announces the ref or stores a row under it. Chunks and retractions under the ref
  // from other conversations are allowed, as is anything under any other ref.
  predicate Honest(hash: Hash, m: Image, e: Event) {
    match e
    case Announce(conv, id, info, _, _) => id == m.ref ==> conv == m.conv && Announces(hash, m, info)
    case Chunk(conv, ref, seq_, data, _, _) => ref == m.ref && conv == m.conv ==> IsSlice(m, seq_, data)
    case OtherMessage(id, _) => id != m.ref
    case _ => true
  }

  predicate HonestRun(hash: Hash, m: Image, events: seq<Event>) {
    1 <= |m.raw| <= IMAGE_MAX_BYTES && forall e :: e in events ==> Honest(hash, m, e)
  }

  predicate Delivers(m: Image, e: Event) {
    e.Chunk? && e.conv == m.conv && e.ref == m.ref
  }

  // The seqs of this image delivered so far.
  function Delivered(m: Image, events: seq<Event>): set<nat> {
    set e | e in events && Delivers(m, e) :: e.seq_
  }

  lemma DeliveredGrows(m: Image, events: seq<Event>, e: Event)
    ensures Delivered(m, events + [e]) ==
      if Delivers(m, e) then Delivered(m, events) + {e.seq_} else Delivered(m, events)
  {
    assert forall f :: f in events + [e] <==> f in events || f == e;
  }

  function Upto(n: nat): (s: set<nat>)
    ensures forall i: nat :: i in s <==> i < n
  {
    if n == 0 then {} else Upto(n - 1) + {n - 1}
  }

  // The body as it came, or sealed for this conversation and this id.
  predicate Holds(m: Image, stored: Stored) {
    match stored
    case Plain(text) => text == BodyOf(m)
    case SealedFor(_, conv, id, text) => conv == m.conv && id == m.ref && text == BodyOf(m)
  }

  predicate IsImageRow(m: Image, row: Row) {
    row.conversation == m.conv && row.incoming && row.kind == ImageMessage && Holds(m, row.body)
  }

  predicate StagedRight(m: Image, staged: map<nat, Body>) {
    forall i :: i in staged ==> IsSlice(m, i, staged[i])
  }

  // Only this image is staged or stored, from slices that were delivered.
  predicate OnlyThisImage(hash: Hash, m: Image, c: Cell, delivered: set<nat>) {
    && (c.transfer.None? ==> c.staged == map[])
    && (c.transfer.Some? ==> c.transfer.value.conversation == m.conv && Announces(hash, m, c.transfer.value.info))
    && StagedRight(m, c.staged) && c.staged.Keys <= delivered
    && (c.row.Some? ==> IsImageRow(m, c.row.value) && Upto(Count(m)) <= delivered)
  }

  lemma {:induction false} UptoSize(n: nat)
    ensures |Upto(n)| == n
  {
    if n > 0 {
      UptoSize(n - 1);
    }
  }

  lemma {:induction false} SubsetSize(a: set<nat>, b: set<nat>)
    requires a <= b
    ensures |a| <= |b| && (|a| == |b| ==> a == b)
    decreases |a|
  {
    if a != {} {
      var x :| x in a;
      SubsetSize(a - {x}, b - {x});
      assert a == (a - {x}) + {x} && b == (b - {x}) + {x};
    }
  }

  // As many staged seqs as chunks means every seq: none is beyond the last, none counts twice.
  lemma Pigeonhole(staged: map<nat, Body>, n: nat)
    requires |staged| == n && forall i :: i in staged ==> i < n
    ensures staged.Keys == Upto(n)
  {
    UptoSize(n);
    SubsetSize(staged.Keys, Upto(n));
  }

  lemma {:induction false} InOrderOfAll(staged: map<nat, Body>, slices: seq<Body>, n: nat)
    requires staged.Keys == Upto(|slices|) && forall i :: 0 <= i < |slices| ==> staged[i] == slices[i]
    ensures InOrder(staged, n) == slices[..Min(n, |slices|)]
  {
    if n > 0 {
      InOrderOfAll(staged, slices, n - 1);
      assert n - 1 in staged <==> n - 1 < |slices|;
    }
  }

  // A full staging area assembles to the body that was sent.
  lemma FullStagingAssembles(hash: Hash, m: Image, staged: map<nat, Body>)
    requires 1 <= |m.raw| <= IMAGE_MAX_BYTES && StagedRight(m, staged) && |staged| == Count(m)
    ensures staged.Keys == Upto(Count(m))
    ensures Assembled(hash, InOrder(staged, IMAGE_MAX_CHUNKS), |m.raw|, Encoded(hash(m.raw))) == Ok(BodyOf(m))
  {
    var slices := Slices(BodyOf(m));
    SliceCount(m.raw);
    Pigeonhole(staged, Count(m));
    ChunksPositive(|m.raw|);
    InOrderOfAll(staged, slices, IMAGE_MAX_CHUNKS);
    assert slices[..|slices|] == slices;
    HonestImageAssembles(hash, m.raw);
  }

  lemma ChunkKeepsOnlyThis(hash: Hash, m: Image, c: Cell, e: Event, delivered: set<nat>)
    requires 1 <= |m.raw| <= IMAGE_MAX_BYTES && OnlyThisImage(hash, m, c, delivered)
    requires Delivers(m, e) && IsSlice(m, e.seq_, e.data) && Takes(c, e.conv, e.seq_, e.data)
    ensures OnlyThisImage(hash, m, CellChunk(hash, m.ref, c, e.seq_, e.data, e.settings, e.now), delivered + {e.seq_})
  {
    var c1 := WithChunk(c, e.seq_, e.data);
    assert OnlyThisImage(hash, m, c1, delivered + {e.seq_});
    if |c1.staged| == Count(m) { FullStagingAssembles(hash, m, c1.staged); }
  }

  lemma StepKeepsOnlyThis(hash: Hash, m: Image, c: Cell, e: Event, delivered: set<nat>)
    requires 1 <= |m.raw| <= IMAGE_MAX_BYTES && Honest(hash, m, e) && OnlyThisImage(hash, m, c, delivered)
    ensures OnlyThisImage(
      hash, m, CellStep(hash, m.ref, c, e), if Delivers(m, e) then delivered + {e.seq_} else delivered)
  {
    if e.Chunk? && e.ref == m.ref && Takes(c, e.conv, e.seq_, e.data) { ChunkKeepsOnlyThis(hash, m, c, e, delivered); }
  }

  lemma {:induction false} RunKeepsOnlyThis(hash: Hash, m: Image, events: seq<Event>)
    requires HonestRun(hash, m, events)
    ensures OnlyThisImage(hash, m, CellRun(hash, m.ref, events), Delivered(m, events))
  {
    if events != [] {
      var before, e := events[..|events| - 1], events[|events| - 1];
      RunKeepsOnlyThis(hash, m, before);
      assert events == before + [e];
      DeliveredGrows(m, before, e);
      StepKeepsOnlyThis(hash, m, CellRun(hash, m.ref, before), e, Delivered(m, before));
    }
  }

  // A row appears under the ref only in the sender's conversation, with exactly the sent
  // body, and only once every slice was delivered.
  lemma ImageIsExact(hash: Hash, m: Image, events: seq<Event>)
    requires HonestRun(hash, m, events) && m.ref in Run(hash, EMPTY, events).messages
    ensures IsImageRow(m, Run(hash, EMPTY, events).messages[m.ref])
    ensures forall i: nat :: i < Count(m) ==> i in Delivered(m, events)
  {
    RunIsLocal(hash, m.ref, events);
    RunKeepsOnlyThis(hash, m, events);
    forall i: nat | i < Count(m) ensures i in Delivered(m, events) { assert i in Upto(Count(m)); }
  }

  // --- it does appear ---

  // Nothing here takes the image or its staging away.
  predicate Spares(m: Image, c: Cell, e: Event) {
    match e
    case Retract(conv, id) => conv != m.conv || id != m.ref
    case DeleteForMe(id) => id != m.ref
    case SweepExpired(now) => c.row.Some? && c.row.value.expiresAt.Some? ==> now <= c.row.value.expiresAt.value
    case SweepStaleTransfers(cutoff) => c.transfer.Some? ==> cutoff <= c.transfer.value.createdAt
    case PurgeTransfers(conv) => conv != m.conv
    case _ => true
  }

  predicate SparingRun(hash: Hash, m: Image, c: Cell, events: seq<Event>)
    decreases |events|
  {
    events == [] || (Honest(hash, m, events[0]) && Spares(m, c, events[0])
                     && SparingRun(hash, m, CellStep(hash, m.ref, c, events[0]), events[1..]))
  }

  function CellRunFrom(hash: Hash, ref: Id, c: Cell, events: seq<Event>): Cell
    decreases |events|
  {
    if events == [] then c else CellRunFrom(hash, ref, CellStep(hash, ref, c, events[0]), events[1..])
  }

  // The row is there, or the transfer is and has staged everything delivered so far.
  predicate Underway(hash: Hash, m: Image, c: Cell, delivered: set<nat>) {
    && Fits(c) && StagedRight(m, c.staged)
    && (c.row.Some? ==> IsImageRow(m, c.row.value))
    && (c.row.None? ==> c.transfer.Some? && delivered <= c.staged.Keys)
    && (c.transfer.Some? ==> c.transfer.value.conversation == m.conv && Announces(hash, m, c.transfer.value.info))
  }

  lemma SliceDecodes(m: Image, seq_: nat, data: Body)
    requires 1 <= |m.raw| <= IMAGE_MAX_BYTES && IsSlice(m, seq_, data)
    ensures ChunkDecodes(seq_, data) && seq_ < Count(m)
  {
    SliceCount(m.raw);
    ChunksPositive(|m.raw|);
    SliceIsEncodedPiece(m.raw, seq_);
    CeilDivCovers(|m.raw|, IMAGE_CHUNK_RAW_BYTES);
    assert |Piece(m.raw, IMAGE_CHUNK_RAW_BYTES, seq_)| > 0;
  }

  lemma StagingAdds(m: Image, c: Cell, seq_: nat, data: Body, delivered: set<nat>)
    requires StagedRight(m, c.staged) && IsSlice(m, seq_, data)
    ensures var c1 := WithChunk(c, seq_, data);
      StagedRight(m, c1.staged) && (delivered <= c.staged.Keys ==> delivered + {seq_} <= c1.staged.Keys)
  {
  }

  lemma ChunkStaysUnderway(hash: Hash, m: Image, c: Cell, e: Event, delivered: set<nat>)
    requires 1 <= |m.raw| <= IMAGE_MAX_BYTES && Underway(hash, m, c, delivered) && Delivers(m, e)
        && IsSlice(m, e.seq_, e.data)
    ensures Underway(hash, m, CellStep(hash, m.ref, c, e), delivered + {e.seq_})
  {
    SliceDecodes(m, e.seq_, e.data);
    CellStepFits(hash, m.ref, c, e);
    if c.transfer.Some? {
      var c1 := WithChunk(c, e.seq_, e.data);
      StagingAdds(m, c, e.seq_, e.data, delivered);
      assert CellStep(hash, m.ref, c, e) == CellChunk(hash, m.ref, c, e.seq_, e.data, e.settings, e.now);
      if |c1.staged| == Count(m) { CompletingStores(hash, m, c1, e.settings, e.now); }
    }
  }

  lemma CompletingStores(hash: Hash, m: Image, c: Cell, settings: Settings, now: int)
    requires 1 <= |m.raw| <= IMAGE_MAX_BYTES && StagedRight(m, c.staged) && |c.staged| == Count(m)
    requires c.transfer.Some? && c.transfer.value.conversation == m.conv && Announces(hash, m, c.transfer.value.info)
    requires c.row.Some? ==> IsImageRow(m, c.row.value)
    ensures var done := CompleteCell(hash, m.ref, c, settings, now);
      done.transfer.None? && done.staged == map[] && done.row.Some? && IsImageRow(m, done.row.value)
  {
    FullStagingAssembles(hash, m, c.staged);
  }

  lemma StepStaysUnderway(hash: Hash, m: Image, c: Cell, e: Event, delivered: set<nat>)
    requires 1 <= |m.raw| <= IMAGE_MAX_BYTES && Underway(hash, m, c, delivered) && Honest(hash, m, e) && Spares(m, c, e)
    ensures Underway(hash, m, CellStep(hash, m.ref, c, e), if Delivers(m, e) then delivered + {e.seq_} else delivered)
  {
    if Delivers(m, e) {
      ChunkStaysUnderway(hash, m, c, e, delivered);
    } else {
      CellStepFits(hash, m.ref, c, e);
    }
  }

  lemma {:induction false} RunStaysUnderway(hash: Hash, m: Image, c: Cell, events: seq<Event>, delivered: set<nat>)
    requires 1 <= |m.raw| <= IMAGE_MAX_BYTES && Underway(hash, m, c, delivered) && SparingRun(hash, m, c, events)
    ensures Underway(hash, m, CellRunFrom(hash, m.ref, c, events), delivered + Delivered(m, events))
    decreases |events|
  {
    if events == [] {
      assert delivered + Delivered(m, events) == delivered;
    } else {
      var e := events[0];
      var next := if Delivers(m, e) then delivered + {e.seq_} else delivered;
      StepStaysUnderway(hash, m, c, e, delivered);
      RunStaysUnderway(hash, m, CellStep(hash, m.ref, c, e), events[1..], next);
      DeliveredAdds(m, delivered, events);
    }
  }

  lemma DeliveredAdds(m: Image, delivered: set<nat>, events: seq<Event>)
    requires events != []
    ensures var next := if Delivers(m, events[0]) then delivered + {events[0].seq_} else delivered;
      delivered + Delivered(m, events) == next + Delivered(m, events[1..])
  {
    DeliveredSplits(m, events);
  }

  lemma DeliveredSplits(m: Image, events: seq<Event>)
    requires events != []
    ensures Delivered(m, events) ==
      (if Delivers(m, events[0]) then {events[0].seq_} else {}) + Delivered(m, events[1..])
  {
    assert events == [events[0]] + events[1..];
  }

  // After the announcement, every slice delivered at least once, in any order, with any
  // repetitions and anything else in between, leaves the image in the messages table.
  lemma AllSlicesComplete(hash: Hash, m: Image, c: Cell, events: seq<Event>)
    requires 1 <= |m.raw| <= IMAGE_MAX_BYTES && Underway(hash, m, c, {})
    requires SparingRun(hash, m, c, events) && forall i: nat :: i < Count(m) ==> i in Delivered(m, events)
    ensures var after := CellRunFrom(hash, m.ref, c, events); after.row.Some? && IsImageRow(m, after.row.value)
  {
    RunStaysUnderway(hash, m, c, events, {});
    var after := CellRunFrom(hash, m.ref, c, events);
    if after.row.None? {
      UptoSize(Count(m));
      assert Upto(Count(m)) <= {} + Delivered(m, events);
      SubsetSize(Upto(Count(m)), after.staged.Keys);
      assert false;
    }
  }

  predicate AnnouncesHere(m: Image, e: Event) {
    e.Announce? && e.id == m.ref && e.conv == m.conv
  }

  lemma AnnouncedIsUnderway(hash: Hash, m: Image, c: Cell, e: Event, delivered: set<nat>)
    requires 1 <= |m.raw| <= IMAGE_MAX_BYTES && Fits(c) && OnlyThisImage(hash, m, c, delivered)
    requires AnnouncesHere(m, e) && Honest(hash, m, e)
    ensures Underway(hash, m, CellStep(hash, m.ref, c, e), {})
  {
    CellStepFits(hash, m.ref, c, e);
  }

  // The same over a whole run: anything honest first, the announcement, then the slices.
  lemma ImageArrives(hash: Hash, m: Image, before: seq<Event>, announcement: Event, after: seq<Event>)
    requires HonestRun(hash, m, before + [announcement]) && AnnouncesHere(m, announcement)
    requires SparingRun(hash, m, CellRun(hash, m.ref, before + [announcement]), after)
    requires forall i: nat :: i < Count(m) ==> i in Delivered(m, after)
    ensures var messages := Run(hash, EMPTY, before + [announcement] + after).messages;
      m.ref in messages && IsImageRow(m, messages[m.ref])
  {
    var upto := before + [announcement];
    assert upto[..|upto| - 1] == before && announcement in upto;
    assert forall e :: e in before ==> e in upto;
    RunKeepsOnlyThis(hash, m, before);
    CellRunFits(hash, m.ref, before);
    AnnouncedIsUnderway(hash, m, CellRun(hash, m.ref, before), announcement, Delivered(m, before));
    AllSlicesComplete(hash, m, CellRun(hash, m.ref, upto), after);
    RunSplits(hash, m.ref, upto, after);
    RunIsLocal(hash, m.ref, upto + after);
  }

  // --- once, and not after a retraction ---

  // A stored image is never rewritten: an event keeps the row or removes it.
  lemma RowIsKeptOrRemoved(hash: Hash, db: Db, e: Event, id: Id)
    requires id in db.messages
    ensures var after := Step(hash, db, e).messages; id !in after || after[id] == db.messages[id]
  {
    StepIsLocal(hash, id, db, e);
  }

  lemma {:induction false} NothingUnannounced(hash: Hash, m: Image, c: Cell, events: seq<Event>)
    requires c.row.None? && c.transfer.None?
    requires forall e :: e in events ==> Honest(hash, m, e) && !(e.Announce? && e.id == m.ref)
    ensures var after := CellRunFrom(hash, m.ref, c, events); after.row.None? && after.transfer.None?
    decreases |events|
  {
    if events != [] { NothingUnannounced(hash, m, CellStep(hash, m.ref, c, events[0]), events[1..]); }
  }

  // The sender's retraction, before or after completion, removes row and staging; without a
  // later announcement the image does not come back, whatever chunks are still delivered.
  lemma RetractedStaysAway(hash: Hash, m: Image, before: seq<Event>, after: seq<Event>)
    requires HonestRun(hash, m, before)
    requires forall e :: e in after ==> Honest(hash, m, e) && !(e.Announce? && e.id == m.ref)
    ensures var events := before + [Retract(m.conv, m.ref)] + after;
      m.ref !in Run(hash, EMPTY, events).messages && m.ref !in Run(hash, EMPTY, events).transfers
  {
    var upto := before + [Retract(m.conv, m.ref)];
    RunKeepsOnlyThis(hash, m, before);
    assert upto[..|upto| - 1] == before;
    var c := CellRun(hash, m.ref, upto);
    assert c == CellStep(hash, m.ref, CellRun(hash, m.ref, before), Retract(m.conv, m.ref));
    NothingUnannounced(hash, m, c, after);
    RunSplits(hash, m.ref, upto, after);
    RunIsLocal(hash, m.ref, upto + after);
  }

  lemma {:induction false} RunSplits(hash: Hash, ref: Id, before: seq<Event>, after: seq<Event>)
    ensures CellRun(hash, ref, before + after) == CellRunFrom(hash, ref, CellRun(hash, ref, before), after)
    decreases |after|
  {
    if after == [] {
      assert before + after == before;
    } else {
      var upto := before + [after[0]];
      assert upto[..|upto| - 1] == before;
      assert upto + after[1..] == before + after;
      RunSplits(hash, ref, upto, after[1..]);
    }
  }
}
