// The relay client as a class. `loops` holds the drain loops suspended in their await, the
// ghost `log` what the client did; every method is one transition of RelayMachine.
module RelayClient {
  import RM = RelayMachine
  import opened RelayMachine
  import RelayProofs

  class Client {
    var status: Status
    var socket: Socket
    var closedByUser: bool
    var reconnectArmed: bool
    var reconnectAttempts: nat
    var ridCounter: nat
    var pending: set<nat>
    var outbound: seq<Item>
    var nextTicket: nat
    var loops: map<nat, Item>
    var thrown: set<nat>
    ghost var log: Log

    ghost function Model(): State
      reads this
    {
      State(status, socket, closedByUser, reconnectArmed, reconnectAttempts, ridCounter, pending, outbound, loops,
            thrown, log)
    }

    ghost predicate Counted()
      reads this
    {
      nextTicket == |log.enqueued|
    }

    // Queue, requests, loops and outcomes fit together; every event keeps it.
    ghost predicate Valid()
      reads this
    {
      Counted() && RelayProofs.Valid(Model())
    }

    constructor ()
      ensures Valid() && Model() == INITIAL
    {
      status, socket, closedByUser, reconnectArmed := Disconnected, NoSocket, false, false;
      reconnectAttempts, ridCounter, pending, outbound, nextTicket, loops, thrown := 0, 0, {}, [], 0, map[], {};
      log := Log([], [], [], {}, multiset{}, [], 0);
    }

    method Start()
      requires Counted()
      modifies this
      ensures Counted() && Model() == Step(old(Model()), Event.Start)
    {
      closedByUser := false;
      OpenSocket();
    }

    method Stop()
      requires Counted()
      modifies this
      ensures Counted() && Model() == Step(old(Model()), Event.Stop)
      ensures status == Disconnected && socket == NoSocket && !reconnectArmed && outbound == old(outbound)
    {
      closedByUser := true;
      CancelReconnect();
      socket := NoSocket;
      status := Disconnected;
    }

    method SendEnvelope(to: string, envelope: string)
      requires Counted()
      modifies this
      ensures Counted() && Model() == Step(old(Model()), Event.SendEnvelope(to, envelope))
      ensures outbound == old(outbound) + [Item(old(nextTicket), to, envelope)]
    {
      var item := Item(nextTicket, to, envelope);
      outbound := outbound + [item];
      nextTicket := nextTicket + 1;
      log := log.(enqueued := log.enqueued + [item]);
      if status == Connected {
        FlushOutbound();
      }
    }

    // register, report, turnCredentials: a request that no drain loop awaits.
    method OtherRequest() returns (rid: nat)
      requires Counted()
      modifies this
      ensures Counted() && Model() == Step(old(Model()), Event.OtherRequest) && rid == ridCounter
    {
      rid := Request();
    }

    // --- internals ---

    method OpenSocket()
      requires Counted()
      modifies this
      ensures Counted() && Model() == RM.OpenSocket(old(Model()))
    {
      CancelReconnect();
      status := if reconnectAttempts > 0 then Reconnecting else Connecting;
      socket := Opening;
    }

    method CancelReconnect()
      requires Counted()
      modifies this`reconnectArmed
      ensures Counted() && !reconnectArmed
    {
      reconnectArmed := false;
    }

    method Request() returns (rid: nat)
      requires Counted()
      modifies this
      ensures Counted() && Model() == RM.Request(old(Model())) && rid == ridCounter
    {
      ridCounter := ridCounter + 1;
      rid := ridCounter;
      pending := pending + {rid};
    }

    method SettleRid(rid: nat) returns (found: bool)
      requires Counted()
      modifies this
      ensures Counted() && found == (rid in old(pending))
      ensures Model() == if found then RM.Settle(old(Model()), rid) else old(Model())
    {
      found := rid in pending;
      if found {
        pending := pending - {rid};
        log := log.(settled := log.settled + multiset{rid});
      }
    }

    // One turn of the loop, from its test to the next await.
    method FlushOutbound()
      requires Counted()
      modifies this
      ensures Counted() && Model() == RM.Drain(old(Model()))
    {
      if |outbound| > 0 && status == Connected {
        var item := outbound[0];
        var rid := Request();
        loops := loops[rid := item];
        log := log.(built := log.built + [Frame(rid, item)]);
        var threw := SendFrame(Frame(rid, item));
        if threw {
          thrown := thrown + {rid};
        }
      }
    }

    // this.ws?.send: taken by an open socket, refused by one not open yet, else without effect.
    method SendFrame(f: Frame) returns (threw: bool)
      requires Counted()
      modifies this`log
      ensures Counted() && threw == (socket == Opening)
      ensures log == if socket == Open then old(log).(transmitted := old(log).transmitted + [f]) else old(log)
    {
      if socket == Open {
        log := log.(transmitted := log.transmitted + [f]);
      }
      threw := socket == Opening;
    }

    // The catch of the loop whose request threw.
    method OnThrown(rid: nat)
      requires Counted() && rid in thrown && rid in loops
      modifies this
      ensures Counted() && Model() == Step(old(Model()), Event.Resume(rid))
    {
      thrown := thrown - {rid};
      ResumeLoop(rid, false);
    }

    method Shift()
      requires Counted()
      modifies this
      ensures Counted() && Model() == RM.Shift(old(Model()))
    {
      if |outbound| > 0 {
        outbound := outbound[1..];
        log := log.(shifted := log.shifted + 1);
      }
    }

    method Report(item: Item, resolved: bool)
      requires Counted()
      modifies this
      ensures Counted() && Model() == RM.Report(old(Model()), item.ticket, resolved)
    {
      log := log.(outcomes := log.outcomes + [Outcome(item.ticket, resolved)]);
    }

    // The loop that awaited rid goes on: its request resolved, or it threw.
    method ResumeLoop(rid: nat, ok: bool)
      requires Counted() && rid in loops
      modifies this
      ensures Counted() && Model() == Wake(old(Model()), rid, ok)
    {
      var item := loops[rid];
      loops := loops - {rid};
      if ok {
        Shift();
        Report(item, true);
        FlushOutbound();
      } else {
        if status != Connected {
          return;
        }
        Shift();
        Report(item, false);
        FlushOutbound();
      }
    }

    method Settled(rid: nat, ok: bool)
      requires Counted()
      modifies this
      ensures Counted() && Model() == Answered(old(Model()), rid, ok)
    {
      var found := SettleRid(rid);
      if found && rid in loops {
        ResumeLoop(rid, ok);
      }
    }

    // onMessage, for the ok and the correlated error frame.
    method OnReply(rid: nat, ok: bool)
      requires Counted()
      modifies this
      ensures Counted() && Model() == Step(old(Model()), Event.Reply(rid, ok))
    {
      if ok {
        log := log.(acked := log.acked + {rid});
      }
      Settled(rid, ok);
    }

    method OnRequestTimeout(rid: nat)
      requires Counted()
      modifies this
      ensures Counted() && Model() == Step(old(Model()), Event.RequestTimeout(rid))
    {
      Settled(rid, false);
    }

    method OnAuthenticated()
      requires Counted()
      modifies this
      ensures Counted() && Model() == Step(old(Model()), Event.Authenticated)
    {
      reconnectAttempts := 0;
      status := Connected;
      FlushOutbound();
    }

    method ScheduleReconnect()
      requires Counted()
      modifies this
      ensures Counted()
      ensures var was := old(Model());
        Model() == was.(status := Reconnecting, reconnectArmed := true, reconnectAttempts := was.reconnectAttempts + 1)
    {
      status := Reconnecting;
      reconnectAttempts := reconnectAttempts + 1;
      CancelReconnect();
      reconnectArmed := true;
    }

    // Every pending request is rejected; the loops that awaited one go on after the status
    // has changed and return.
    method OnClose()
      requires Counted()
      modifies this
      ensures Counted() && Model() == Step(old(Model()), Event.SocketClosed)
      ensures pending == {} && status != Connected && outbound == old(outbound)
    {
      var rejected := pending;
      RejectAll();
      pending := {};
      socket := NoSocket;
      if closedByUser {
        status := Disconnected;
      } else {
        ScheduleReconnect();
      }
      ResumeRejected(rejected);
    }

    method RejectAll()
      requires Counted()
      modifies this`log
      ensures Counted() && log == old(log).(settled := old(log).settled + multiset(pending))
    {
      var rest := pending;
      while rest != {}
        invariant rest <= pending && Counted()
        invariant log == old(log).(settled := old(log).settled + multiset(pending - rest))
      {
        var rid :| rid in rest;
        assert pending - (rest - {rid}) == (pending - rest) + {rid};
        log := log.(settled := log.settled + multiset{rid});
        rest := rest - {rid};
      }
      assert pending - rest == pending;
    }

    method ResumeRejected(rejected: set<nat>)
      requires Counted() && status != Connected
      modifies this
      ensures Counted() && Model() == old(Model()).(loops := old(loops) - rejected)
    {
      var rest := rejected;
      while rest != {}
        invariant Counted() && rest <= rejected && status != Connected
        invariant Model() == old(Model()).(loops := old(loops) - (rejected - rest))
      {
        var rid :| rid in rest;
        assert rejected - (rest - {rid}) == (rejected - rest) + {rid};
        if rid in loops {
          ResumeLoop(rid, false);
        }
        rest := rest - {rid};
      }
      assert rejected - rest == rejected;
    }

    // The socket's own state, as the runtime moves it.
    method OnSocketOpens()
      requires Counted()
      modifies this`socket
      ensures Counted() && Model() == Step(old(Model()), Event.SocketOpens)
    {
      if socket == Opening {
        socket := Open;
      }
    }

    // onerror closes whatever socket the client has.
    method OnSocketFails()
      requires Counted()
      modifies this`socket
      ensures Counted() && Model() == Step(old(Model()), Event.SocketFails)
    {
      if socket != NoSocket {
        socket := Closing;
      }
    }

    method OnReconnectTimer()
      requires Counted()
      modifies this
      ensures Counted() && Model() == Step(old(Model()), Event.ReconnectFired)
    {
      if reconnectArmed {
        reconnectArmed := false;
        if !closedByUser {
          OpenSocket();
        }
      }
    }

    // --- what the application, the socket and the runtime call ---

    method Dispatch(e: Event)
      requires Valid() && Enabled(Model(), e)
      modifies this
      ensures Valid() && Model() == Step(old(Model()), e)
    {
      RelayProofs.StepKeepsValid(Model(), e);
      match e
      case Start => Start();
      case Stop => Stop();
      case Authenticated => OnAuthenticated();
      case SendEnvelope(to, envelope) => SendEnvelope(to, envelope);
      case OtherRequest => var _ := OtherRequest();
      case Reply(rid, ok) => OnReply(rid, ok);
      case RequestTimeout(rid) => OnRequestTimeout(rid);
      case SocketOpens => OnSocketOpens();
      case SocketFails => OnSocketFails();
      case SocketClosed => OnClose();
      case Resume(rid) => OnThrown(rid);
      case ReconnectFired => OnReconnectTimer();
    }
  }
}
