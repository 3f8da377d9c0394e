// When a received image came and when it goes: its row is dated by its announcement and by
// the chunk that completed it; and exactly which events remove rows and staging.
module ImageTimes {
  import opened ImageCodec
  import opened ImageProofs
  import opened ImageTransfer
  import opened Options
  import opened Text

  // --- where a row comes from ---

  predicate AnnouncedAt(events: seq<Event>, ref: Id, conv: Id, sentAt: int, k: nat) {
    && k < |events| && events[k].Announce? && events[k].id == ref && events[k].conv == conv
    && events[k].sentAt == sentAt
  }

  // It disappears so many seconds after it was completed, or never.
  predicate Lives(row: Row, retention: int, completed: int) {
    if retention > 0 then row.expiresAt == Some(completed + 1000 * retention) else row.expiresAt.None?
  }

  // Sealed exactly if the chat was locked then, under that key, for this place.
  predicate LockedAs(row: Row, ref: Id, lock: Option<nat>) {
    match row.body
    case Plain(_) => lock.None?
    case SealedFor(key, conv, id, _) => lock == Some(key) && conv == row.conversation && id == ref
  }

  // Event i is the chunk that completed the row; it was announced before.
  predicate CompletedAt(events: seq<Event>, ref: Id, row: Row, i: nat) {
    && i < |events| && events[i].Chunk? && events[i].ref == ref && events[i].conv == row.conversation
    && row.incoming && row.kind == ImageMessage
    && Lives(row, events[i].settings.retention, events[i].now) && LockedAs(row, ref, events[i].settings.lock)
    && exists k :: 0 <= k < i && AnnouncedAt(events, ref, row.conversation, row.sentAt, k)
  }

  predicate InsertedAt(events: seq<Event>, ref: Id, row: Row, i: nat) {
    i < |events| && events[i] == OtherMessage(ref, row)
  }

  predicate RowIsDated(events: seq<Event>, ref: Id, row: Row) {
    exists i :: 0 <= i < |events| && (CompletedAt(events, ref, row, i) || InsertedAt(events, ref, row, i))
  }

  predicate TransferIsDated(events: seq<Event>, ref: Id, t: Transfer) {
    exists k :: 0 <= k < |events| && AnnouncedAt(events, ref, t.conversation, t.sentAt, k)
        && events[k].now == t.createdAt && events[k].info == t.info
  }

  predicate CellIsDated(events: seq<Event>, ref: Id, c: Cell) {
    && (c.transfer.Some? ==> TransferIsDated(events, ref, c.transfer.value))
    && (c.row.Some? ==> RowIsDated(events, ref, c.row.value))
  }

  lemma DatesStay(events: seq<Event>, e: Event, ref: Id, c: Cell)
    requires CellIsDated(events, ref, c)
    ensures CellIsDated(events + [e], ref, c)
  {
    var more := events + [e];
    if c.transfer.Some? {
      var t := c.transfer.value;
      var k :| 0 <= k < |events| && AnnouncedAt(events, ref, t.conversation, t.sentAt, k)
        && events[k].now == t.createdAt && events[k].info == t.info;
      assert AnnouncedAt(more, ref, t.conversation, t.sentAt, k);
    }
    if c.row.Some? { RowDateStays(events, e, ref, c.row.value); }
  }

  lemma RowDateStays(events: seq<Event>, e: Event, ref: Id, row: Row)
    requires RowIsDated(events, ref, row)
    ensures RowIsDated(events + [e], ref, row)
  {
    var more := events + [e];
    var i :| 0 <= i < |events| && (CompletedAt(events, ref, row, i) || InsertedAt(events, ref, row, i));
    if CompletedAt(events, ref, row, i) {
      var k :| 0 <= k < i && AnnouncedAt(events, ref, row.conversation, row.sentAt, k);
      assert AnnouncedAt(more, ref, row.conversation, row.sentAt, k);
      assert CompletedAt(more, ref, row, i);
    } else {
      assert InsertedAt(more, ref, row, i);
    }
  }

  // The row of a transfer that this chunk completes.
  lemma CompletionIsDated(hash: Hash, ref: Id, c: Cell, events: seq<Event>, e: Event)
    requires e.Chunk? && e.ref == ref && Takes(c, e.conv, e.seq_, e.data) && c.row.None? && CellIsDated(events, ref, c)
    ensures var d := CellChunk(hash, ref, c, e.seq_, e.data, e.settings, e.now);
      && (d.row.Some? ==> CompletedAt(events + [e], ref, d.row.value, |events|))
      && (d.transfer.Some? ==> d.transfer == c.transfer)
  {
    var more, t := events + [e], c.transfer.value;
    var k :| 0 <= k < |events| && AnnouncedAt(events, ref, t.conversation, t.sentAt, k);
    assert AnnouncedAt(more, ref, t.conversation, t.sentAt, k);
    assert more[|events|] == e;
  }

  lemma StepIsDated(hash: Hash, ref: Id, c: Cell, events: seq<Event>, e: Event)
    requires CellIsDated(events, ref, c)
    ensures CellIsDated(events + [e], ref, CellStep(hash, ref, c, e))
  {
    var more, d := events + [e], CellStep(hash, ref, c, e);
    DatesStay(events, e, ref, c);
    assert more[|events|] == e;
    if d.transfer.Some? && d.transfer != c.transfer {
      assert AnnouncedAt(more, ref, e.conv, e.sentAt, |events|);
    }
    if d.row.Some? && d.row != c.row {
      if e.Chunk? {
        CompletionIsDated(hash, ref, c, events, e);
      } else {
        assert InsertedAt(more, ref, d.row.value, |events|);
      }
    }
  }

  lemma {:induction false} RunIsDated(hash: Hash, ref: Id, events: seq<Event>)
    ensures CellIsDated(events, ref, CellRun(hash, ref, events))
  {
    if events != [] {
      var before, e := events[..|events| - 1], events[|events| - 1];
      RunIsDated(hash, ref, before);
      StepIsDated(hash, ref, CellRun(hash, ref, before), before, e);
      assert before + [e] == events;
    }
  }

  // In every run: a row under a ref was put there as it is, or completed by a chunk under that
  // ref after an announcement; then it carries the time of the announcement, and a sweep takes
  // it away exactly if a retention was set when it was completed and is over.
  lemma SweepIsExact(hash: Hash, events: seq<Event>, ref: Id, now: int) returns (i: nat)
    requires ref in Run(hash, EMPTY, events).messages
    ensures var db := Run(hash, EMPTY, events);
      var row := db.messages[ref];
      && i < |events|
      && (events[i] == OtherMessage(ref, row)
          || (&& CompletedAt(events, ref, row, i)
              && var retention := events[i].settings.retention;
                 (ref !in Step(hash, db, Event.SweepExpired(now)).messages <==>
                  retention > 0 && now > events[i].now + 1000 * retention)))
  {
    RunIsLocal(hash, ref, events);
    RunIsDated(hash, ref, events);
    var row := Run(hash, EMPTY, events).messages[ref];
    i :| 0 <= i < |events| && (CompletedAt(events, ref, row, i) || InsertedAt(events, ref, row, i));
  }

  // For an image of an honest sender only the second is possible.
  lemma HonestImageIsDated(hash: Hash, m: Image, events: seq<Event>, now: int) returns (i: nat)
    requires HonestRun(hash, m, events) && m.ref in Run(hash, EMPTY, events).messages
    ensures var db := Run(hash, EMPTY, events);
      && IsImageRow(m, db.messages[m.ref]) && i < |events| && CompletedAt(events, m.ref, db.messages[m.ref], i)
      && var retention := events[i].settings.retention;
         (m.ref !in Step(hash, db, Event.SweepExpired(now)).messages <==>
          retention > 0 && now > events[i].now + 1000 * retention)
  {
    i := SweepIsExact(hash, events, m.ref, now);
    ImageIsExact(hash, m, events);
    assert Honest(hash, m, events[i]);
  }

  // --- what removes rows and staging ---

  // The events that take a row away: its author's retraction in its own conversation, one's
  // own deletion, and a sweep after its expiry.
  predicate EndsRow(row: Row, id: Id, e: Event) {
    match e
    case Retract(conv, i) =>
      i == id && row.conversation == conv && row.incoming && (row.kind == TextMessage || row.kind == ImageMessage)
    case DeleteForMe(i) => i == id
    case SweepExpired(now) => row.expiresAt.Some? && row.expiresAt.value < now
    case _ => false
  }

  lemma ChunkKeepsRow(hash: Hash, id: Id, c: Cell, e: Event)
    requires e.Chunk? && c.row.Some?
    ensures CellStep(hash, id, c, e).row == c.row
  {
  }

  lemma CellEndsRow(hash: Hash, id: Id, c: Cell, e: Event)
    requires c.row.Some?
    ensures CellStep(hash, id, c, e).row == if EndsRow(c.row.value, id, e) then None else c.row
  {
    if e.Chunk? { ChunkKeepsRow(hash, id, c, e); }
  }

  // A row goes by those events; anything else leaves it as it is.
  lemma RowGoesExactly(hash: Hash, db: Db, e: Event, id: Id)
    requires id in db.messages
    ensures var row, after := db.messages[id], Step(hash, db, e).messages;
      if EndsRow(row, id, e) then id !in after else id in after && after[id] == row
  {
    StepIsLocal(hash, id, db, e);
    CellEndsRow(hash, id, At(db, id), e);
  }

  // The events that take the staging of an announced image away.
  predicate EndsStaging(t: Transfer, staged: map<nat, Body>, ref: Id, e: Event) {
    match e
    case Chunk(conv, r, i, data, _, _) =>
      && r == ref && conv == t.conversation && ChunkDecodes(i, data) && i < t.info.chunks
      && |staged.Keys + {i}| == t.info.chunks
    case Retract(conv, id) => id == ref && conv == t.conversation
    case SweepStaleTransfers(cutoff) => t.createdAt < cutoff
    case PurgeTransfers(conv) => conv == t.conversation
    case _ => false
  }

  // What is staged when nothing ends it: one chunk more if this is a new one; the first to
  // come under a number stays.
  predicate StagedIs(t: Transfer, staged: map<nat, Body>, ref: Id, e: Event, after: map<nat, Body>) {
    if e.Chunk? && e.ref == ref && e.conv == t.conversation && ChunkDecodes(e.seq_, e.data) && e.seq_ < t.info.chunks
       && e.seq_ !in staged
    then after == staged[e.seq_ := e.data]
    else after == staged
  }

  lemma ChunkEndsStaging(hash: Hash, ref: Id, c: Cell, e: Event)
    requires e.Chunk? && c.transfer.Some?
    ensures var d := CellStep(hash, ref, c, e);
      && (if EndsStaging(c.transfer.value, c.staged, ref, e) then d.transfer.None? && d.staged == map[]
          else d.transfer == c.transfer && StagedIs(c.transfer.value, c.staged, ref, e, d.staged))
  {
    if e.ref == ref && Takes(c, e.conv, e.seq_, e.data) {
      var c1 := WithChunk(c, e.seq_, e.data);
      assert c1.staged.Keys == c.staged.Keys + {e.seq_};
      assert |c1.staged| == |c1.staged.Keys|;
    }
  }

  lemma CellEndsStaging(hash: Hash, ref: Id, c: Cell, e: Event)
    requires c.transfer.Some?
    ensures var d := CellStep(hash, ref, c, e);
      && (if EndsStaging(c.transfer.value, c.staged, ref, e) then d.transfer.None? && d.staged == map[]
          else d.transfer == c.transfer && StagedIs(c.transfer.value, c.staged, ref, e, d.staged))
  {
    if e.Chunk? { ChunkEndsStaging(hash, ref, c, e); }
  }

  // Staging goes with its last chunk, by the announcing conversation's retraction or blocking,
  // or when it has been there too long, all of it; otherwise it stays, first chunks first.
  lemma StagingGoesExactly(hash: Hash, db: Db, e: Event, ref: Id)
    requires ref in db.transfers
    ensures var t, staged, after := db.transfers[ref], Staged(db, ref), Step(hash, db, e);
      if EndsStaging(t, staged, ref, e) then ref !in after.transfers && Staged(after, ref) == map[]
      else ref in after.transfers && after.transfers[ref] == t && StagedIs(t, staged, ref, e, Staged(after, ref))
  {
    StepIsLocal(hash, ref, db, e);
    CellEndsStaging(hash, ref, At(db, ref), e);
  }

  // And it comes by an announcement alone, of something not there yet.
  lemma StagingComesExactly(hash: Hash, db: Db, e: Event, ref: Id)
    requires ref !in db.transfers
    ensures ref in Step(hash, db, e).transfers <==>
              e.Announce? && e.id == ref && AnnouncementDecodes(e.info) && ref !in db.messages
  {
    StepIsLocal(hash, ref, db, e);
  }
}
