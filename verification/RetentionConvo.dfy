// The conversation row and the three user operations on it, changed in place.
module RetentionConvo {
  import opened Options
  import R = Retention
  import opened Retention

  class Conversation {
    var retention: int
    var pending: Option<Pending>
    var notes: seq<Note>
    var outbox: seq<Msg>

    function Row(): Convo
      reads this
    {
      Convo(retention, pending, notes)
    }

    constructor (retention: int)
      ensures Row() == Convo(retention, None, []) && outbox == []
    {
      this.retention := retention;
      pending, notes, outbox := None, [], [];
    }

    // --- the repository ---

    method SetRetention(seconds: int)
      modifies this`retention, this`pending
      ensures Row() == R.SetRetention(old(Row()), seconds)
    {
      retention := seconds;
      pending := None;
    }

    method SetRetentionPending(value: int, incoming: bool)
      modifies this`pending
      ensures Row() == SetPending(old(Row()), value, incoming)
    {
      pending := Some(Pending(value, incoming));
    }

    method ClearRetentionPending()
      modifies this`pending
      ensures Row() == ClearPending(old(Row()))
    {
      pending := None;
    }

    method InsertSystemMessage(note: Note)
      modifies this`notes
      ensures Row() == WithNote(old(Row()), note)
    {
      notes := notes + [note];
    }

    // Best effort: a failed send changes nothing that was applied locally.
    method SendControl(msg: Msg, reachable: bool)
      modifies this`outbox
      ensures outbox == if reachable then old(outbox) + [msg] else old(outbox)
    {
      if reachable {
        outbox := outbox + [msg];
      }
    }

    // --- the service ---

    method RequestRetention(value: int, reachable: bool)
      modifies this
      ensures Row() == Act(old(Row()), Request(value))
      ensures outbox == if reachable && Effective(old(Row()), Request(value)) then old(outbox) + [RequestMsg(value)]
          else old(outbox)
    {
      if pending.Some? && !pending.value.incoming {
        return;
      }
      SetRetentionPending(value, false);
      InsertSystemMessage(Note(Requested, true, Some(value), retention, true));
      SendControl(RequestMsg(value), reachable);
    }

    method AcceptRetention(value: int, reachable: bool)
      modifies this
      ensures Row() == Act(old(Row()), Accept(value))
      ensures outbox == if reachable && Effective(old(Row()), Accept(value)) then old(outbox) + [AcceptMsg(value)]
          else old(outbox)
    {
      if pending.None? || !pending.value.incoming {
        return;
      }
      SetRetention(value);
      InsertSystemMessage(Note(Changed, true, Some(value), value, true));
      SendControl(AcceptMsg(value), reachable);
    }

    method CancelRetention(reachable: bool)
      modifies this
      ensures Row() == Act(old(Row()), Cancel)
      ensures outbox == if reachable then old(outbox) + [CancelMsg] else old(outbox)
    {
      var was := pending;
      ClearRetentionPending();
      if was.Some? {
        InsertSystemMessage(Note(if was.value.incoming then Declined else Canceled, true, None, retention, true));
      }
      SendControl(CancelMsg, reachable);
    }

    // The retention cases of doReceiveEnvelope.
    method ReceiveControl(msg: Msg)
      modifies this
      ensures Row() == Receive(old(Row()), msg) && outbox == old(outbox)
    {
      match msg {
        case RequestMsg(value) =>
          var seconds := retention;
          SetRetentionPending(value, true);
          InsertSystemMessage(Note(Requested, false, Some(value), seconds, false));
        case AcceptMsg(value) =>
          SetRetention(value);
          InsertSystemMessage(Note(Changed, false, Some(value), value, false));
        case CancelMsg =>
          if pending.Some? {
            var declined := !pending.value.incoming;
            InsertSystemMessage(Note(if declined then Declined else Canceled, false, None, retention, !declined));
          }
          ClearRetentionPending();
      }
    }
  }
}
