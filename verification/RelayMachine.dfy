// The relay client as a transition system. A drain loop suspended in its await is an entry
// of `loops`: the request it waits for, and the queue item it took before sending.
module RelayMachine {
  datatype Status = Disconnected | Connecting | Reconnecting | Connected

  // What the client's socket is: none, not open yet, open, or on its way to closed.
  datatype Socket = NoSocket | Opening | Open | Closing

  // The ticket stands for the promise sendEnvelope returned: its number in call order.
  datatype Item = Item(ticket: nat, to: string, envelope: string)

  datatype Frame = Frame(rid: nat, item: Item)

  // A call to the item's resolve or reject.
  datatype Outcome = Outcome(ticket: nat, resolved: bool)

  // What the client did: items enqueued, requests made for them, those of them that an open
  // socket took, ok replies, settled request ids, outcomes reported, items shifted off the queue.
  datatype Log = Log(
    enqueued: seq<Item>, built: seq<Frame>, transmitted: seq<Frame>, acked: set<nat>, settled: multiset<nat>,
    outcomes: seq<Outcome>, shifted: nat)

  // `thrown` are the loops whose request threw on its way to a socket that is not open yet:
  // they go on as soon as the program lets promise reactions run.
  datatype State = State(
    status: Status, socket: Socket, closedByUser: bool, reconnectArmed: bool, reconnectAttempts: nat,
    ridCounter: nat, pending: set<nat>, outbound: seq<Item>, loops: map<nat, Item>, thrown: set<nat>, log: Log)

  const INITIAL: State := State(
    Disconnected, NoSocket, false, false, 0, 0, {}, [], map[], {}, Log([], [], [], {}, multiset{}, [], 0))

  datatype Event =
    | Start
    | Stop
    | Authenticated
    | SendEnvelope(to: string, envelope: string)
    | OtherRequest                      // register, report, turnCredentials and the like
    | Reply(rid: nat, ok: bool)
    | RequestTimeout(rid: nat)
    | SocketOpens                       // the client's own socket
    | SocketFails                       // it errs, or the other end closes it
    | SocketClosed                      // the close handler of any socket, a replaced one included
    | Resume(rid: nat)                  // the loop of a request that threw
    | ReconnectFired

  // request(): a new id, its timer and resolver.
  function Request(s: State): State {
    s.(ridCounter := s.ridCounter + 1, pending := s.pending + {s.ridCounter + 1})
  }

  function Settle(s: State, rid: nat): State {
    s.(pending := s.pending - {rid}, log := s.log.(settled := s.log.settled + multiset{rid}))
  }

  // The head of the drain loop: request the first item and suspend, or leave. Only an open
  // socket takes the frame: without one, or with one that is closing, it goes nowhere, and one
  // not open yet throws.
  function Drain(s: State): State {
    if s.outbound == [] || s.status != Connected then s
    else
      var s1, item := Request(s), s.outbound[0];
      var f := Frame(s1.ridCounter, item);
      s1.(loops := s.loops[f.rid := item],
          thrown := if s.socket == Opening then s.thrown + {f.rid} else s.thrown,
          log := s.log.(built := s.log.built + [f],
                        transmitted := if s.socket == Open then s.log.transmitted + [f] else s.log.transmitted))
  }

  // outbound.shift(), which does nothing on an empty array.
  function Shift(s: State): State {
    if s.outbound == [] then s
    else s.(outbound := s.outbound[1..], log := s.log.(shifted := s.log.shifted + 1))
  }

  function Report(s: State, ticket: nat, resolved: bool): State {
    s.(log := s.log.(outcomes := s.log.outcomes + [Outcome(ticket, resolved)]))
  }

  // A drain loop wakes up: the request it awaited was answered ok, or failed.
  function Wake(s: State, rid: nat, ok: bool): State
    requires rid in s.loops
  {
    var item := s.loops[rid];
    var s1 := s.(loops := s.loops - {rid});
    if ok then Drain(Report(Shift(s1), item.ticket, true))
    else if s1.status != Connected then s1
    else Drain(Report(Shift(s1), item.ticket, false))
  }

  function Answered(s: State, rid: nat, ok: bool): State {
    if rid !in s.pending then s
    else
      var s1 := Settle(s, rid);
      if rid in s1.loops then Wake(s1, rid, ok) else s1
  }

  function StepSendEnvelope(s: State, to: string, envelope: string): State {
    var item := Item(|s.log.enqueued|, to, envelope);
    var s1 := s.(outbound := s.outbound + [item], log := s.log.(enqueued := s.log.enqueued + [item]));
    if s1.status == Connected then Drain(s1) else s1
  }

  function StepReply(s: State, rid: nat, ok: bool): State {
    var s1 := if ok then s.(log := s.log.(acked := s.log.acked + {rid})) else s;
    Answered(s1, rid, ok)
  }

  function StepAuthenticated(s: State): State {
    Drain(s.(status := Connected, reconnectAttempts := 0))
  }

  function OpenSocket(s: State): State {
    s.(reconnectArmed := false, socket := Opening,
       status := if s.reconnectAttempts > 0 then Reconnecting else Connecting)
  }

  function StepStop(s: State): State {
    s.(closedByUser := true, reconnectArmed := false, socket := NoSocket, status := Disconnected)
  }

  // onClose rejects every pending request; each suspended loop then sees that the client is
  // no longer connected and returns.
  function StepSocketClosed(s: State): State {
    var s1 := s.(pending := {}, socket := NoSocket, loops := s.loops - s.pending,
                 log := s.log.(settled := s.log.settled + multiset(s.pending)));
    if s.closedByUser then s1.(status := Disconnected)
    else s1.(status := Reconnecting, reconnectArmed := true, reconnectAttempts := s.reconnectAttempts + 1)
  }

  // The request stays pending, but its promise has been rejected already.
  function StepResume(s: State, rid: nat): State {
    if rid !in s.thrown || rid !in s.loops then s else Wake(s.(thrown := s.thrown - {rid}), rid, false)
  }

  function StepReconnectFired(s: State): State {
    if !s.reconnectArmed then s
    else
      var s1 := s.(reconnectArmed := false);
      if s1.closedByUser then s1 else OpenSocket(s1)
  }

  function Step(s: State, e: Event): State {
    match e
    case Start => OpenSocket(s.(closedByUser := false))
    case Stop => StepStop(s)
    case Authenticated => StepAuthenticated(s)
    case SendEnvelope(to, envelope) => StepSendEnvelope(s, to, envelope)
    case OtherRequest => Request(s)
    case Reply(rid, ok) => StepReply(s, rid, ok)
    case RequestTimeout(rid) => Answered(s, rid, false)
    case SocketOpens => if s.socket == Opening then s.(socket := Open) else s
    case SocketFails => if s.socket == NoSocket then s else s.(socket := Closing)
    case SocketClosed => StepSocketClosed(s)
    case Resume(rid) => StepResume(s, rid)
    case ReconnectFired => StepReconnectFired(s)
  }

  // Run by the runtime on its own: frames, timers and handlers of any socket the client ever
  // had, at any time. The rest are calls, which a promise reaction may make as well.
  predicate IsTask(e: Event) {
    match e
    case Start => false
    case Stop => false
    case SendEnvelope(_, _) => false
    case OtherRequest => false
    case Resume(_) => false
    case _ => true
  }

  predicate EverStarted(s: State) {
    s.status != Disconnected || s.closedByUser
  }

  // Promise reactions run before the next task, and a frame needs some socket to have been
  // opened once; nothing else is asked of the environment.
  predicate Enabled(s: State, e: Event) {
    && (IsTask(e) ==> s.thrown == {})
    && (e.Authenticated? ==> EverStarted(s))
    && (e.Resume? ==> e.rid in s.thrown)
  }

  predicate Runs(s: State, events: seq<Event>, t: State)
    decreases |events|
  {
    if events == [] then t == s
    else Enabled(s, events[0]) && Runs(Step(s, events[0]), events[1..], t)
  }
}
