// The vocabulary of the call machine: src/calls/types.ts and the call content variants
// of the vendored protocol.
module CallTypes {
  import opened Options

  type CallId = string
  type Handle = string

  datatype Contact = Contact(id: string, handle: Handle)

  datatype Direction = In | Out

  datatype Status =
    | Idle | Starting | OutgoingRinging | IncomingRinging
    | Connecting | Active | Reconnecting | Ending

  // What the peer put into call/end; the wire keeps it an open string.
  datatype EndReason = Hangup | Decline | Busy | Timeout | Error | Unlisted(text: string)

  datatype Signal =
    | Offer(callId: CallId, sdp: string)
    | Accept(callId: CallId)
    | Answer(callId: CallId, sdp: string)
    | End(callId: CallId, reason: EndReason)

  datatype Outgoing = Outgoing(to: Handle, signal: Signal)

  datatype UiReason =
    | Ended | Declined | WasBusy | NoAnswer | Canceled | ConnectionLost | NoTurn | MicFailed | Failed

  datatype Availability = Available | Occupied | Blocked | NoSession | Offline

  datatype IceState = IceNew | Checking | Connected | Completed | Disconnected | IceFailed | Closed

  datatype RowKind = OutgoingCall | IncomingCall | Missed | DeclinedCall

  datatype RowBody = NoBody | BusyMark | CanceledMark | ErrorMark | Seconds(n: nat)

  datatype Row = Row(callId: CallId, contactId: string, kind: RowKind, direction: Direction, body: RowBody,
      unread: bool)

  // Code unit order on call ids, as the glare rule compares them.
  predicate OfferWins(local: CallId, remote: CallId) {
    if |remote| == 0 then false
    else if |local| == 0 then true
    else local[0] < remote[0] || (local[0] == remote[0] && OfferWins(local[1..], remote[1..]))
  }

  lemma {:induction false} OfferWinsIsTotal(a: CallId, b: CallId)
    ensures a != b ==> (OfferWins(a, b) <==> !OfferWins(b, a))
    ensures a == b ==> !OfferWins(a, b)
  {
    if |a| > 0 && |b| > 0 && a[0] == b[0] {
      OfferWinsIsTotal(a[1..], b[1..]);
      assert a == [a[0]] + a[1..] && b == [b[0]] + b[1..];
    }
  }

  lemma {:induction false} OfferWinsIsTransitive(a: CallId, b: CallId, c: CallId)
    requires OfferWins(a, b) && OfferWins(b, c)
    ensures OfferWins(a, c)
  {
    if |a| > 0 && |b| > 0 && |c| > 0 && a[0] == b[0] == c[0] {
      OfferWinsIsTransitive(a[1..], b[1..], c[1..]);
    }
  }

  // It is the order of the first character that differs, and of the length if none does.
  lemma {:induction false} OfferWinsBySmallerCharacter(shared: string, a: string, b: string)
    requires |a| > 0 && |b| > 0 ==> a[0] != b[0]
    ensures OfferWins(shared + a, shared + b) <==> |b| > 0 && (|a| == 0 || a[0] < b[0])
  {
    if shared == [] {
      assert shared + a == a && shared + b == b;
    } else {
      OfferWinsBySmallerCharacter(shared[1..], a, b);
      assert (shared + a)[1..] == shared[1..] + a && (shared + b)[1..] == shared[1..] + b;
    }
  }
}
