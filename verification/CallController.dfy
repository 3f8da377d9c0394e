// The controller object itself: the fields of src/calls/controller.ts, its methods cut at
// their awaits, each proved to be the transition of the call machine it stands for.
module CallController {
  import opened Options
  import opened CallTypes
  import opened CallMachine
  import CallInvariant

  lemma SegmentKeepsValid(s: State, e: Event)
    ensures CallInvariant.Valid(s) ==> CallInvariant.Valid(Step(s, e))
  {
    if CallInvariant.Valid(s) { CallInvariant.StepKeepsValid(s, e); }
  }

  class Controller {
    var status: Status
    var endReason: Option<UiReason>
    var call: Option<ActiveCall>
    var endingView: Option<EndingView>
    var recentlyEnded: seq<CallId>
    var ringTimer: Option<nat>
    var connectTimer: Option<nat>
    var disconnectTimer: Option<nat>
    var lingerTimer: Option<nat>
    var ringtone: bool
    var callAudio: bool
    var nextSerial: nat
    var nextEngine: nat

    // Held by the runtime and the media layer, and the record of outgoing calls.
    ghost var scheduled: set<Timer>
    ghost var flights: set<Flight>
    ghost var openEngines: set<nat>
    ghost var log: Log

    ghost function Model(): (s: State)
      reads this
    {
      State(status, endReason, call, endingView, recentlyEnded,
            Timers(ringTimer, connectTimer, disconnectTimer, lingerTimer, scheduled),
            ringtone, callAudio, nextSerial, nextEngine, flights, openEngines, log)
    }

    // Timers, call, chains and engine fit together; every segment keeps it.
    ghost predicate Valid()
      reads this
    {
      CallInvariant.Valid(Model())
    }

    constructor ()
      ensures Model() == INITIAL && Valid()
    {
      status, endReason, call, endingView, recentlyEnded := Idle, None, None, None, [];
      ringTimer, connectTimer, disconnectTimer, lingerTimer := None, None, None, None;
      ringtone, callAudio, nextSerial, nextEngine := false, false, 0, 0;
      scheduled, flights, openEngines, log := {}, {}, {}, Log([], [], []);
    }

    // --- private helpers ---

    method ClearRing()
      modifies this`ringTimer, this`scheduled
      ensures Model() == CallMachine.ClearRing(old(Model()))
    {
      if ringTimer.Some? {
        scheduled := scheduled - {RingTimer(ringTimer.value)};
        ringTimer := None;
      }
    }

    method ClearConnect()
      modifies this`connectTimer, this`scheduled
      ensures Model() == old(Model()).(timers := old(Model()).timers.ClearConnect())
    {
      if connectTimer.Some? {
        scheduled := scheduled - {ConnectTimer(connectTimer.value)};
        connectTimer := None;
      }
    }

    method ClearDisconnect()
      modifies this`disconnectTimer, this`scheduled
      ensures Model() == old(Model()).(timers := old(Model()).timers.ClearDisconnect())
    {
      if disconnectTimer.Some? {
        scheduled := scheduled - {DisconnectTimer(disconnectTimer.value)};
        disconnectTimer := None;
      }
    }

    method ClearLinger()
      modifies this
      ensures Model() == CallMachine.ClearLinger(old(Model()))
    {
      if lingerTimer.Some? {
        scheduled := scheduled - {LingerTimer(lingerTimer.value)};
        lingerTimer := None;
      }
      endingView := None;
      if status == Ending {
        endReason := None;
      }
    }

    method ClearTimers()
      modifies this`ringTimer, this`connectTimer, this`disconnectTimer, this`scheduled
      ensures Model() == CallMachine.ClearTimers(old(Model()))
    {
      ClearRing();
      ClearConnect();
      ClearDisconnect();
    }

    method StartConnectTimer(g: nat)
      modifies this`connectTimer, this`scheduled
      ensures Model() == CallMachine.StartConnectTimer(old(Model()), g)
    {
      ClearConnect();
      connectTimer := Some(g);
      scheduled := scheduled + {ConnectTimer(g)};
    }

    // What Set.delete leaves of the insertion ordered set.
    method Deleted(id: CallId) returns (kept: seq<CallId>)
      ensures kept == Without(recentlyEnded, id)
    {
      kept := [];
      var i := 0;
      while i < |recentlyEnded|
        invariant 0 <= i <= |recentlyEnded|
        invariant kept + Without(recentlyEnded[i..], id) == Without(recentlyEnded, id)
      {
        assert recentlyEnded[i..][1..] == recentlyEnded[i + 1..];
        if recentlyEnded[i] != id {
          kept := kept + [recentlyEnded[i]];
        }
        i := i + 1;
      }
    }

    // Set.delete then Set.add, then the eviction of the oldest.
    method Remember(id: CallId)
      modifies this`recentlyEnded, this`log
      ensures Model() == CallMachine.Remember(old(Model()), id)
    {
      var kept := Deleted(id);
      recentlyEnded := kept + [id];
      if |recentlyEnded| > RECENT_CALL_IDS_MAX {
        recentlyEnded := recentlyEnded[1..];
      }
      log := log.(remembered := log.remembered + [id]);
    }

    method SendSignal(to: Handle, signal: Signal)
      modifies this`log
      ensures Model() == SendTo(old(Model()), to, signal)
    {
      log := log.(sent := log.sent + [Outgoing(to, signal)]);
    }

    // A continuation is now awaited for the call with this serial.
    method Launch(stage: Stage, g: nat)
      modifies this`flights
      ensures Model() == CallMachine.Launch(old(Model()), stage, g)
    {
      flights := flights + {Flight(stage, g)};
    }

    method SendEnd(reason: EndReason)
      modifies this`log
      ensures Model() == CallMachine.SendEnd(old(Model()), reason)
    {
      if call.Some? {
        SendSignal(call.value.contact.handle, End(call.value.callId, reason));
      }
    }

    method WriteRow(row: Row)
      modifies this`log
      ensures Model() == CallMachine.WriteRow(old(Model()), row)
    {
      log := log.(rows := log.rows + [row]);
    }

    method CloseEngine(c: ActiveCall)
      modifies this`openEngines
      ensures Model() == CallMachine.CloseEngine(old(Model()), c)
    {
      if c.engine.Some? {
        openEngines := openEngines - {c.engine.value};
      }
    }

    method Teardown(c: ActiveCall)
      modifies this
      ensures Model() == CallMachine.Teardown(old(Model()), c)
    {
      ClearTimers();
      ringtone := false;
      callAudio := false;
      CloseEngine(c);
      Remember(c.callId);
      call := None;
    }

    method ArmLinger(g: nat)
      modifies this`lingerTimer, this`scheduled
      ensures Model() == old(Model()).(timers := old(Model()).timers.ArmLinger(g))
    {
      lingerTimer := Some(g);
      scheduled := scheduled + {LingerTimer(g)};
    }

    method ArmRing(g: nat)
      modifies this`ringTimer, this`scheduled
      ensures Model() == old(Model()).(timers := old(Model()).timers.ArmRing(g))
    {
      ringTimer := Some(g);
      scheduled := scheduled + {RingTimer(g)};
    }

    method EnterEnding(g: nat, reason: UiReason)
      modifies this`endReason, this`status, this`lingerTimer, this`scheduled
      ensures Model() == CallMachine.EnterEnding(old(Model()), g, reason)
    {
      endReason := Some(reason);
      status := Ending;
      ArmLinger(g);
    }

    method Finish(reason: UiReason, row: Option<Row>)
      modifies this
      ensures Model() == CallMachine.Finish(old(Model()), reason, row)
    {
      if call.None? {
        return;
      }
      var c := call.value;
      if row.Some? {
        WriteRow(row.value);
      }
      endingView := Some(EndingView(c.contact.id, c.direction));
      Teardown(c);
      EnterEnding(c.serial, reason);
    }

    method FinishWith(reason: UiReason, kind: RowKind, body: RowBody, unread: bool)
      requires call.Some?
      modifies this
      ensures Model() == CallMachine.FinishWith(old(Model()), reason, kind, body, unread)
    {
      Finish(reason, Some(RowFor(call.value, kind, body, unread)));
    }

    method FinishCompleted(reason: UiReason, now: int)
      requires call.Some?
      modifies this
      ensures Model() == CallMachine.FinishCompleted(old(Model()), reason, now)
    {
      Finish(reason, Some(CompletedRow(call.value, now)));
    }

    // --- placing ---

    method CheckAvailability(blocked: bool, connected: bool, session: bool) returns (r: Availability)
      ensures r == CallMachine.CheckAvailability(Model(), blocked, connected, session)
      ensures r == Available <==> call.None? && !blocked && connected && session
    {
      if call.Some? {
        return Occupied;
      }
      if blocked {
        return Blocked;
      }
      if !connected {
        return Offline;
      }
      if !session {
        return NoSession;
      }
      r := Available;
    }

    // `checked` is what CheckAvailability returned: an offer may have taken the slot since.
    method PlaceCall(contact: Contact, newId: CallId, checked: Availability) returns (r: Availability)
      modifies this
      ensures r == if checked != Available then checked else if old(call).Some? then Occupied else Available
      ensures Model() == if checked == Available then StepPlaceCall(old(Model()), contact, newId) else old(Model())
      ensures r == Available ==>
        call.Some? && call.value.contact == contact && call.value.callId == newId && status == Starting
      ensures r != Available ==> Model() == old(Model())
    {
      if checked != Available {
        return checked;
      }
      if call.Some? {
        return Occupied;
      }
      TakeSlot(contact, newId);
      r := Available;
    }

    method TakeSlot(contact: Contact, newId: CallId)
      requires call.None?
      modifies this
      ensures Model() == StepPlaceCall(old(Model()), contact, newId)
    {
      var c := FreshCall(nextSerial, newId, contact, Out, None);
      nextSerial := nextSerial + 1;
      call := Some(c);
      ClearLinger();
      status := Starting;
      flights := flights + {Flight(PlaceTurn, c.serial)};
    }

    method CreateEngine()
      requires call.Some?
      modifies this
      ensures Model() == AttachEngine(old(Model()))
    {
      var e := nextEngine;
      nextEngine := nextEngine + 1;
      openEngines := openEngines + {e};
      call := Some(call.value.(engine := Some(e)));
    }

    method PlaceTurnDone(g: nat, turn: TurnResult)
      requires Flight(PlaceTurn, g) in flights
      modifies this
      ensures Model() == StepPlaceTurnDone(old(Model()), g, turn)
    {
      flights := flights - {Flight(PlaceTurn, g)};
      if call.None? || call.value.serial != g {
        return;
      }
      match turn
      case TurnFailed => Finish(NoTurn, None);
      case CreateThrew(err) => Finish(EngineReason(err), None);
      case EngineCreated =>
        CreateEngine();
        flights := flights + {Flight(PlaceEngine, g)};
    }

    method PlaceEngineDone(g: nat, result: EngineResult)
      requires Flight(PlaceEngine, g) in flights
      modifies this
      ensures Model() == StepPlaceEngineDone(old(Model()), g, result)
    {
      flights := flights - {Flight(PlaceEngine, g)};
      if call.None? || call.value.serial != g {
        return;
      }
      match result
      case Threw(err) => Finish(EngineReason(err), None);
      case Sdp(sdp) =>
        call := Some(call.value.(offerSendStarted := true));
        SendSignal(call.value.contact.handle, Offer(call.value.callId, sdp));
        flights := flights + {Flight(PlaceSend, g)};
    }

    method PlaceSendDone(g: nat, delivered: bool)
      requires Flight(PlaceSend, g) in flights
      modifies this
      ensures Model() == StepPlaceSendDone(old(Model()), g, delivered)
    {
      flights := flights - {Flight(PlaceSend, g)};
      if call.None? || call.value.serial != g {
        return;
      }
      if !delivered {
        SendEnd(Hangup);
        Finish(Failed, None);
        return;
      }
      status := OutgoingRinging;
      ArmRing(g);
    }

    // --- answering ---

    method Answer()
      modifies this
      ensures Model() == StepAnswer(old(Model()))
      ensures old(call.Some? && call.value.direction == In && status == IncomingRinging) ==>
        call == old(call) && status == Connecting && !ringtone
    {
      if call.None? || call.value.direction != In || status != IncomingRinging {
        return;
      }
      ringtone := false;
      ClearRing();
      status := Connecting;
      SendSignal(call.value.contact.handle, Accept(call.value.callId));
      Launch(AnswerTurn, call.value.serial);
    }

    method AnswerFailed(reason: UiReason)
      requires call.Some?
      modifies this
      ensures Model() == CallMachine.AnswerFailed(old(Model()), reason)
    {
      SendEnd(Error);
      FinishWith(reason, Missed, ErrorMark, false);
    }

    method AnswerTurnDone(g: nat, turn: TurnResult)
      requires Flight(AnswerTurn, g) in flights
      modifies this
      ensures Model() == StepAnswerTurnDone(old(Model()), g, turn)
    {
      flights := flights - {Flight(AnswerTurn, g)};
      if call.None? || call.value.serial != g {
        return;
      }
      match turn
      case TurnFailed => AnswerFailed(NoTurn);
      case CreateThrew(err) => AnswerFailed(EngineReason(err));
      case EngineCreated =>
        CreateEngine();
        flights := flights + {Flight(AnswerEngine, g)};
    }

    method AnswerEngineDone(g: nat, result: EngineResult)
      requires Flight(AnswerEngine, g) in flights
      modifies this
      ensures Model() == StepAnswerEngineDone(old(Model()), g, result)
    {
      flights := flights - {Flight(AnswerEngine, g)};
      if call.None? || call.value.serial != g {
        return;
      }
      match result
      case Threw(err) => AnswerFailed(EngineReason(err));
      case Sdp(sdp) =>
        SendSignal(call.value.contact.handle, Signal.Answer(call.value.callId, sdp));
        flights := flights + {Flight(AnswerSend, g)};
    }

    method AnswerSendDone(g: nat, delivered: bool)
      requires Flight(AnswerSend, g) in flights
      modifies this
      ensures Model() == StepAnswerSendDone(old(Model()), g, delivered)
    {
      flights := flights - {Flight(AnswerSend, g)};
      if call.None? || call.value.serial != g {
        return;
      }
      if !delivered {
        AnswerFailed(Failed);
        return;
      }
      StartConnectTimer(g);
    }

    // --- the user ---

    method Decline()
      modifies this
      ensures Model() == StepDecline(old(Model()))
      ensures old(call.Some? && status == IncomingRinging) ==>
        call.None? && status == Ending && endReason == Some(UiReason.Declined)
    {
      if call.None? || status != IncomingRinging {
        return;
      }
      SendEnd(EndReason.Decline);
      FinishWith(UiReason.Declined, DeclinedCall, NoBody, false);
    }

    method HangUp(now: int)
      modifies this
      ensures Model() == StepHangUp(old(Model()), now)
      ensures old(call.Some? && status != Idle && status != Ending) ==> call.None? && status == Ending && !callAudio
    {
      if call.None? {
        return;
      }
      var c := call.value;
      match status
      case Starting =>
        if c.offerSendStarted {
          SendEnd(Hangup);
          FinishWith(Canceled, Missed, CanceledMark, false);
        } else {
          Finish(Canceled, None);
        }
      case OutgoingRinging =>
        SendEnd(Hangup);
        FinishWith(Canceled, Missed, CanceledMark, false);
      case IncomingRinging => Decline();
      case Connecting =>
        SendEnd(Hangup);
        if c.direction == Out {
          FinishWith(Canceled, Missed, CanceledMark, false);
        } else {
          FinishWith(Canceled, DeclinedCall, NoBody, false);
        }
      case Active =>
        SendEnd(Hangup);
        FinishCompleted(Ended, now);
      case Reconnecting =>
        SendEnd(Hangup);
        FinishCompleted(Ended, now);
      case _ =>
    }

    method SetMuted(muted: bool)
      modifies this
      ensures Model() == StepSetMuted(old(Model()), muted)
    {
      if call.Some? && call.value.engine.Some? {
        call := Some(call.value.(muted := muted));
      }
    }

    method SetSpeaker(on: bool)
      modifies this
      ensures Model() == StepSetSpeaker(old(Model()), on)
    {
      if call.Some? {
        call := Some(call.value.(speaker := on));
      }
    }

    method ComposeFarewell(now: int) returns (farewell: Option<Farewell>)
      requires call.Some?
      ensures farewell == LockFarewell(Model(), now)
    {
      var c := call.value;
      farewell := None;
      match status
      case Starting =>
        if c.offerSendStarted {
          farewell := Some(Farewell(Hangup, RowFor(c, Missed, CanceledMark, false)));
        }
      case OutgoingRinging => farewell := Some(Farewell(Hangup, RowFor(c, Missed, CanceledMark, false)));
      case IncomingRinging => farewell := Some(Farewell(EndReason.Decline, RowFor(c, DeclinedCall, NoBody, false)));
      case Connecting =>
        var row :=
          if c.direction == Out then RowFor(c, Missed, CanceledMark, false) else RowFor(c, DeclinedCall, NoBody, false);
        farewell := Some(Farewell(Hangup, row));
      case Active => farewell := Some(Farewell(Hangup, CompletedRow(c, now)));
      case Reconnecting => farewell := Some(Farewell(Hangup, CompletedRow(c, now)));
      case _ =>
    }

    method SayFarewell(now: int)
      requires call.Some?
      modifies this
      ensures var was, farewell := old(Model()), LockFarewell(old(Model()), now);
        Model() == if farewell.None? then was
                   else CallMachine.WriteRow(CallMachine.SendEnd(was, farewell.value.reason), farewell.value.row)
    {
      var farewell := ComposeFarewell(now);
      if farewell.Some? {
        SendEnd(farewell.value.reason);
        WriteRow(farewell.value.row);
      }
    }

    method OnAppLocking(now: int)
      modifies this
      ensures Model() == StepAppLocking(old(Model()), now)
      ensures call.None? && (old(call.Some?) ==> status == Idle && !ringtone && !callAudio)
    {
      if call.None? {
        return;
      }
      var c := call.value;
      SayFarewell(now);
      Teardown(c);
      status := Idle;
      endReason := None;
      endingView := None;
    }

    // --- inbound signals ---

    method RingIncoming(from: Contact, callId: CallId, sdp: string)
      modifies this
      ensures Model() == CallMachine.RingIncoming(old(Model()), from, callId, sdp)
    {
      var c := FreshCall(nextSerial, callId, from, In, Some(sdp));
      nextSerial := nextSerial + 1;
      call := Some(c);
      ClearLinger();
      status := IncomingRinging;
      ArmRing(c.serial);
    }

    method AdoptIncoming(from: Contact, callId: CallId, sdp: string, autoAnswer: bool)
      modifies this
      ensures Model() == CallMachine.AdoptIncoming(old(Model()), from, callId, sdp, autoAnswer)
    {
      RingIncoming(from, callId, sdp);
      if autoAnswer {
        Answer();
      } else {
        ringtone := true;
      }
    }

    // The own attempt gives way to the offer and is answered at once.
    method LoseGlare(from: Contact, callId: CallId, sdp: string)
      requires call.Some?
      modifies this
      ensures Model() == CallMachine.LoseGlare(old(Model()), from, callId, sdp)
    {
      var c := call.value;
      ClearTimers();
      CloseEngine(c);
      Remember(c.callId);
      call := None;
      AdoptIncoming(from, callId, sdp, true);
    }

    method RefuseBusy(from: Contact, callId: CallId)
      requires call.Some?
      modifies this`recentlyEnded, this`log
      ensures Model() == CallMachine.RefuseBusy(old(Model()), from, callId)
    {
      Remember(callId);
      SendSignal(from.handle, End(callId, Busy));
      if call.value.contact.handle != from.handle {
        WriteRow(MissedRow(from, callId));
      }
    }

    method HandleOffer(from: Contact, callId: CallId, sdp: string, sentAt: int, now: int)
      modifies this
      ensures Model() == CallMachine.HandleOffer(old(Model()), from, callId, sdp, sentAt, now)
    {
      if callId in recentlyEnded {
        return;
      }
      if call.Some? {
        var c := call.value;
        var eligible := c.contact.handle == from.handle && c.direction == Out
          && (status == OutgoingRinging || status == Starting);
        if eligible {
          if OfferWins(c.callId, callId) {
            Remember(callId);
            return;
          }
          LoseGlare(from, callId, sdp);
          return;
        }
        RefuseBusy(from, callId);
        return;
      }
      if now - sentAt >= STALE_OFFER_MS {
        Remember(callId);
        WriteRow(MissedRow(from, callId));
        return;
      }
      AdoptIncoming(from, callId, sdp, false);
    }

    method EnterConnecting(g: nat)
      modifies this
      ensures Model() == CallMachine.EnterConnecting(old(Model()), g)
    {
      ClearRing();
      status := Connecting;
      StartConnectTimer(g);
    }

    method HandleAccepted(from: Contact, callId: CallId)
      modifies this
      ensures Model() == CallMachine.HandleAccepted(old(Model()), from, callId)
    {
      if call.None? || call.value.direction != Out || call.value.callId != callId {
        return;
      }
      if call.value.contact.handle != from.handle || status != OutgoingRinging {
        return;
      }
      EnterConnecting(call.value.serial);
    }

    method HandleAnswer(from: Contact, callId: CallId)
      modifies this
      ensures Model() == CallMachine.HandleAnswer(old(Model()), from, callId)
    {
      if call.None? || call.value.direction != Out || call.value.callId != callId {
        return;
      }
      if call.value.contact.handle != from.handle || call.value.answerApplied {
        return;
      }
      if status != OutgoingRinging && status != Connecting {
        return;
      }
      call := Some(call.value.(answerApplied := true));
      EnterConnecting(call.value.serial);
      if call.value.engine.Some? {
        Launch(ApplyAnswer, call.value.serial);
      }
    }

    method FinishUnanswered(reason: EndReason)
      requires call.Some?
      modifies this
      ensures var was := old(Model());
        Model() == if reason == EndReason.Decline
                   then CallMachine.FinishWith(was, UiReason.Declined, DeclinedCall, NoBody, false)
                   else if reason == Busy then CallMachine.FinishWith(was, WasBusy, Missed, BusyMark, false)
                   else CallMachine.FinishWith(was, Ended, Missed, NoBody, false)
    {
      if reason == EndReason.Decline {
        FinishWith(UiReason.Declined, DeclinedCall, NoBody, false);
      } else if reason == Busy {
        FinishWith(WasBusy, Missed, BusyMark, false);
      } else {
        FinishWith(Ended, Missed, NoBody, false);
      }
    }

    method HandleEnd(from: Contact, callId: CallId, reason: EndReason, now: int)
      modifies this
      ensures Model() == CallMachine.HandleEnd(old(Model()), from, callId, reason, now)
    {
      if call.Some? && call.value.callId == callId && call.value.contact.handle == from.handle {
        match status {
          case IncomingRinging => FinishWith(Ended, Missed, NoBody, true);
          case OutgoingRinging => FinishUnanswered(reason);
          case Connecting => FinishWith(Ended, Missed, ErrorMark, false);
          case Active => FinishCompleted(Ended, now);
          case Reconnecting => FinishCompleted(Ended, now);
          case _ =>
        }
        return;
      }
      if callId !in recentlyEnded {
        Remember(callId);
        if reason == Hangup || reason == Timeout {
          WriteRow(MissedRow(from, callId));
        }
      }
    }

    method HandleCallSignal(from: Contact, signal: Signal, sentAt: int, now: int)
      modifies this
      ensures Model() == StepReceive(old(Model()), from, signal, sentAt, now)
    {
      match signal
      case Offer(id, sdp) => HandleOffer(from, id, sdp, sentAt, now);
      case Accept(id) => HandleAccepted(from, id);
      case Answer(id, sdp) => HandleAnswer(from, id);
      case End(id, reason) => HandleEnd(from, id, reason, now);
    }

    method ApplyAnswerDone(g: nat, applied: bool)
      requires Flight(ApplyAnswer, g) in flights
      modifies this
      ensures Model() == StepApplyAnswerDone(old(Model()), g, applied)
    {
      flights := flights - {Flight(ApplyAnswer, g)};
      if applied || call.None? || call.value.serial != g {
        return;
      }
      SendEnd(Error);
      FinishWith(ConnectionLost, Missed, ErrorMark, false);
    }

    // --- media and timers ---

    method OnIceState(g: nat, ice: IceState, now: int)
      modifies this
      ensures Model() == StepIce(old(Model()), g, ice, now)
    {
      if call.None? || call.value.serial != g {
        return;
      }
      if ice == Connected || ice == Completed {
        MediaUp(now);
      } else if ice == Disconnected {
        if status == Active {
          status := Reconnecting;
          disconnectTimer := Some(g);
          scheduled := scheduled + {DisconnectTimer(g)};
        }
      } else if ice == IceFailed {
        MediaFailed(g, now);
      }
    }

    method MediaFailed(g: nat, now: int)
      requires call.Some? && call.value.serial == g
      modifies this
      ensures Model() == StepIce(old(Model()), g, IceFailed, now)
    {
      if status == Connecting {
        SendEnd(Error);
        FinishWith(ConnectionLost, Missed, ErrorMark, false);
      } else if status == Active || status == Reconnecting {
        SendEnd(Error);
        FinishCompleted(ConnectionLost, now);
      }
    }

    method MediaUp(now: int)
      requires call.Some?
      modifies this
      ensures Model() == CallMachine.MediaUp(old(Model()), now)
    {
      if status == Connecting {
        ClearConnect();
        call := Some(call.value.(activeSince := Some(now)));
        callAudio := true;
        status := Active;
      } else if status == Reconnecting {
        ClearDisconnect();
        status := Active;
      }
    }

    method RingTimerFired(g: nat, now: int)
      requires RingTimer(g) in scheduled
      modifies this
      ensures Model() == StepFire(old(Model()), RingTimer(g), now)
    {
      scheduled := scheduled - {RingTimer(g)};
      ringTimer := None;
      if call.None? || call.value.serial != g {
        return;
      }
      var c := call.value;
      if c.direction == Out {
        if status == OutgoingRinging {
          SendEnd(Timeout);
          FinishWith(NoAnswer, Missed, NoBody, false);
        }
      } else if status == IncomingRinging {
        FinishWith(Ended, Missed, NoBody, true);
      }
    }

    method ConnectTimerFired(g: nat, now: int)
      requires ConnectTimer(g) in scheduled
      modifies this
      ensures Model() == StepFire(old(Model()), ConnectTimer(g), now)
    {
      scheduled := scheduled - {ConnectTimer(g)};
      connectTimer := None;
      if call.None? || call.value.serial != g || status != Connecting {
        return;
      }
      SendEnd(Error);
      FinishWith(ConnectionLost, Missed, ErrorMark, false);
    }

    method DisconnectTimerFired(g: nat, now: int)
      requires DisconnectTimer(g) in scheduled
      modifies this
      ensures Model() == StepFire(old(Model()), DisconnectTimer(g), now)
    {
      scheduled := scheduled - {DisconnectTimer(g)};
      disconnectTimer := None;
      if call.None? || call.value.serial != g || status != Reconnecting {
        return;
      }
      SendEnd(Error);
      FinishCompleted(ConnectionLost, now);
    }

    method LingerTimerFired(g: nat, now: int)
      requires LingerTimer(g) in scheduled
      modifies this
      ensures Model() == StepFire(old(Model()), LingerTimer(g), now)
    {
      scheduled := scheduled - {LingerTimer(g)};
      lingerTimer := None;
      if status == Ending {
        Settle();
      }
    }

    method Settle()
      modifies this`endReason, this`endingView, this`status
      ensures Model() == old(Model()).(endReason := None, endingView := None, status := Idle)
    {
      endReason := None;
      endingView := None;
      status := Idle;
    }

    // --- what the runtime calls ---

    // A continuation or a timeout is run only while it is pending.
    ghost predicate Pending(e: Event)
      reads this
    {
      match e
      case PlaceTurnDone(g, _) => Flight(PlaceTurn, g) in flights
      case PlaceEngineDone(g, _) => Flight(PlaceEngine, g) in flights
      case PlaceSendDone(g, _) => Flight(PlaceSend, g) in flights
      case AnswerTurnDone(g, _) => Flight(AnswerTurn, g) in flights
      case AnswerEngineDone(g, _) => Flight(AnswerEngine, g) in flights
      case AnswerSendDone(g, _) => Flight(AnswerSend, g) in flights
      case ApplyAnswerDone(g, _) => Flight(ApplyAnswer, g) in flights
      case Fire(t, _) => t in scheduled
      case _ => true
    }

    method Continue(e: Event)
      requires Pending(e)
      requires e.PlaceTurnDone? || e.PlaceEngineDone? || e.PlaceSendDone? || e.ApplyAnswerDone?
               || e.AnswerTurnDone? || e.AnswerEngineDone? || e.AnswerSendDone?
      modifies this
      ensures Model() == Step(old(Model()), e)
    {
      match e
      case PlaceTurnDone(g, r) => PlaceTurnDone(g, r);
      case PlaceEngineDone(g, r) => PlaceEngineDone(g, r);
      case PlaceSendDone(g, ok) => PlaceSendDone(g, ok);
      case AnswerTurnDone(g, r) => AnswerTurnDone(g, r);
      case AnswerEngineDone(g, r) => AnswerEngineDone(g, r);
      case AnswerSendDone(g, ok) => AnswerSendDone(g, ok);
      case ApplyAnswerDone(g, ok) => ApplyAnswerDone(g, ok);
    }

    method Fired(t: Timer, now: int)
      requires t in scheduled
      modifies this
      ensures Model() == StepFire(old(Model()), t, now)
    {
      match t
      case RingTimer(g) => RingTimerFired(g, now);
      case ConnectTimer(g) => ConnectTimerFired(g, now);
      case DisconnectTimer(g) => DisconnectTimerFired(g, now);
      case LingerTimer(g) => LingerTimerFired(g, now);
    }

    // Whatever the user, the peer, the media layer or the runtime calls, the object keeps its
    // invariant and moves as the call machine does.
    method Dispatch(e: Event)
      requires Valid() && Pending(e)
      modifies this
      ensures Valid() && Model() == Step(old(Model()), e)
    {
      SegmentKeepsValid(Model(), e);
      match e
      case PlaceCall(contact, id) => var _ := PlaceCall(contact, id, Available);
      case UserAnswer => Answer();
      case UserDecline => Decline();
      case UserHangUp(now) => HangUp(now);
      case SetMuted(m) => SetMuted(m);
      case SetSpeaker(on) => SetSpeaker(on);
      case AppLocking(now) => OnAppLocking(now);
      case Receive(from, signal, sentAt, now) => HandleCallSignal(from, signal, sentAt, now);
      case Ice(g, ice, now) => OnIceState(g, ice, now);
      case Fire(t, now) => Fired(t, now);
      case _ => Continue(e);
    }
  }
}
