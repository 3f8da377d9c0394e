// The staging repository and the receive path over it, as objects that change in place. Each
// method is the operation of ImageTransfer it is named after.
module ImageStore {
  import opened ImageCodec
  import IT = ImageTransfer
  import opened ImageTransfer
  import opened Options

  class Store {
    const hash: Hash
    var transfers: map<Id, Transfer>
    var chunks: map<Id, map<nat, Body>>
    var messages: map<Id, Row>

    function Tables(): Db
      reads this
    {
      Db(transfers, chunks, messages)
    }

    constructor (hash: Hash)
      ensures this.hash == hash && Tables() == EMPTY
    {
      this.hash := hash;
      transfers, chunks, messages := map[], map[], map[];
    }

    // --- image-transfers ---

    method CreateTransfer(ref: Id, t: Transfer)
      modifies this
      ensures Tables() == IT.CreateTransfer(old(Tables()), ref, t)
    {
      if ref !in transfers {
        transfers := transfers[ref := t];
      }
    }

    method GetTransfer(ref: Id) returns (t: Option<Transfer>)
      ensures t == if ref in transfers then Some(transfers[ref]) else None
    {
      t := if ref in transfers then Some(transfers[ref]) else None;
    }

    method InsertChunk(ref: Id, seq_: nat, data: Body)
      modifies this
      ensures Tables() == IT.InsertChunk(old(Tables()), ref, seq_, data)
    {
      var staged := if ref in chunks then chunks[ref] else map[];
      if seq_ !in staged {
        chunks := chunks[ref := staged[seq_ := data]];
      }
    }

    method ChunkCount(ref: Id) returns (n: nat)
      ensures n == |Staged(Tables(), ref)|
    {
      n := if ref in chunks then |chunks[ref]| else 0;
    }

    method ListChunks(ref: Id) returns (data: seq<Body>)
      ensures data == ListChunkData(Tables(), ref)
    {
      var staged := if ref in chunks then chunks[ref] else map[];
      data := [];
      for i := 0 to IMAGE_MAX_CHUNKS
        invariant data == InOrder(staged, i)
      {
        if i in staged {
          data := data + [staged[i]];
        }
      }
    }

    method DropTransfers(refs: set<Id>)
      modifies this
      ensures Tables() == IT.DropTransfers(old(Tables()), refs)
    {
      transfers := transfers - refs;
      chunks := chunks - refs;
    }

    method DeleteTransfer(ref: Id)
      modifies this
      ensures Tables() == IT.DeleteTransfer(old(Tables()), ref)
    {
      DropTransfers({ref});
    }

    method DeleteConversationTransfer(ref: Id, conv: Id)
      modifies this
      ensures Tables() == IT.DeleteConversationTransfer(old(Tables()), ref, conv)
    {
      if ref in transfers && transfers[ref].conversation == conv {
        DropTransfers({ref});
      }
    }

    method SweepStaleTransfers(cutoff: int) returns (removed: nat)
      modifies this
      ensures Tables() == Step(hash, old(Tables()), Event.SweepStaleTransfers(cutoff))
      ensures removed == |StaleTransfers(old(Tables()), cutoff)|
    {
      var stale := StaleTransfers(Tables(), cutoff);
      removed := |stale|;
      DropTransfers(stale);
    }

    method PurgeTransfersForConversation(conv: Id)
      modifies this
      ensures Tables() == Step(hash, old(Tables()), PurgeTransfers(conv))
    {
      DropTransfers(TransfersOf(Tables(), conv));
    }

    // --- messages ---

    method InsertMessage(id: Id, row: Row)
      modifies this
      ensures Tables() == Step(hash, old(Tables()), OtherMessage(id, row))
    {
      if id !in messages {
        messages := messages[id := row];
      }
    }

    method DeletePeerAuthoredMessage(id: Id, conv: Id) returns (removed: nat)
      modifies this
      ensures Tables() == DeletePeerAuthored(old(Tables()), id, conv)
      ensures removed == |old(messages)| - |messages|
    {
      removed := 0;
      if id in messages && PeerAuthored(messages[id], conv) {
        ghost var before := messages;
        messages := messages - {id};
        removed := 1;
        assert before.Keys == messages.Keys + {id};
      }
    }

    method DeleteMessage(id: Id)
      modifies this
      ensures Tables() == Step(hash, old(Tables()), DeleteForMe(id))
    {
      messages := messages - {id};
    }

    method SweepExpired(now: int)
      modifies this
      ensures Tables() == Step(hash, old(Tables()), Event.SweepExpired(now))
    {
      messages := messages - Expired(Tables(), now);
    }

    // --- the receive path, after decryption and the gates ---

    method OnImage(conv: Id, id: Id, info: Announcement, sentAt: int, now: int)
      modifies this
      ensures Tables() == Step(hash, old(Tables()), Announce(conv, id, info, sentAt, now))
      ensures messages == old(messages)
    {
      if !AnnouncementDecodes(info) || id in messages {
        return;
      }
      CreateTransfer(id, Transfer(conv, info, sentAt, now));
    }

    method OnImageChunk(conv: Id, ref: Id, seq_: nat, data: Body, settings: Settings, now: int)
      modifies this
      ensures Tables() == Step(hash, old(Tables()), Chunk(conv, ref, seq_, data, settings, now))
    {
      var transfer := GetTransfer(ref);
      if !ChunkDecodes(seq_, data) || transfer.None? || transfer.value.conversation != conv
          || seq_ >= transfer.value.info.chunks {
        return;
      }
      InsertChunk(ref, seq_, data);
      var n := ChunkCount(ref);
      if n == transfer.value.info.chunks {
        var list := ListChunks(ref);
        var body := AssembleAndVerify(hash, list, transfer.value.info.bytes, transfer.value.info.sha256);
        if body.Ok? {
          InsertMessage(ref, ImageRow(transfer.value, ref, body.value, settings, now));
        }
        DeleteTransfer(ref);
      }
    }

    method OnMessageDelete(conv: Id, id: Id)
      modifies this
      ensures Tables() == Step(hash, old(Tables()), Retract(conv, id))
      ensures forall other :: other in old(messages) && other != id ==> other in messages
    {
      var _ := DeletePeerAuthoredMessage(id, conv);
      DeleteConversationTransfer(id, conv);
    }
  }
}
