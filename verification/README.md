# Nuco messenger: verified protocol models

A Dafny model of the protocol machines in the Nuco client and proofs of what they promise. The
project models:

* **Calls** (`CallTypes`, `CallMachine`, `CallInvariant`, `CallOutline`, `CallProgress`,
  `CallOutcomes`, `CallMoves`, `CallHistory`, `CallLocking`, `CallPair`, `CallRecords`, `CallAlone`,
  `CallAloneRuns`, `Glare`, `CallController`):
  the call controller with its eight statuses, four timers, place and answer chains, glare by call id
  and the set of recently ended calls; one controller alone, two controllers over ordered channels, and
  the class itself. An event is one segment of the program between two awaits; the test
  `this.call !== call` is a comparison of serial numbers given out once per call object.
* **Relay client** (`RelayMachine`, `RelayProofs`, `RelayRuns`, `RelayOnline`, `RelayConservation`,
  `RelayClient`): the outbound queue with any number of concurrent drain loops, request ids, reconnects
  and sockets that are missing, opening, open or closing; exactly which event breaks the order, what its
  starts and stops come to, and what exactly a single loop adds.
* **Images** (`Text`, `Arithmetic`, `Base64`, `Utf8`, `ImageCodec`, `ImageTransfer`, `ImageProofs`,
  `ImageTimes`, `ImageSend`, `ImageStore`): the byte codecs, slicing and sliced hashing, the staging tables, and
  exact reassembly from any delivery order.
* **Retention** (`Retention`, `RetentionPending`, `RetentionConvo`): the two-party negotiation of disappearing messages,
  with the exact condition under which an accept leads to agreement.
* **Chat lock** (`ChatLock`, `ChatLockProofs`, `ChatLockWindow`, `ChatLockRuns`, `ChatLockOperations`,
  `ChatLockPasses`):
  enabling, disabling and any number of boot passes one persistent write at a time, with crashes, and
  messages stored some time after they read the lock, in between; exactly which write loses a text;
  and the batch passes as loops.
* **Lockout** (`Lockout`, `LockController`): the attempt counters of the app PIN and of chat codes.
* **Sessions** (`Sessions`, `SessionProofs`, `SessionRatchet`, `Signal`): the per-handle promise chain over the record
  store, cut at its awaits, shown to be linearizable.
* **Verification** (`ContactCard`, `Verification`, `VerificationProofs`, `VerificationConverges`,
  `VerificationRuns`, `VerificationMoves`, `VerificationScans`, `Verifier`): the card hash, the confirm exchange of two people, whose services
  work on rows read some time before and send over two awaits, and the service itself. An era of a
  contact row ends when its local confirm is taken back, its identity key changes, or it goes; what a
  confirm or a proof rests on is the last recorded press.

Each machine is a state, a step function and lemmas over whole runs. Beside it stands a class with the
program's own fields; each of its methods is proved to be the step it implements, so a changed branch
in either breaks a proof (for the chat lock, whose steps are single writes, the class establishes the
outcome of whole operations). `Options` holds the two shared value types.

Foreign parts are parameters: the hash is a function on bytes, the cipher a record of step functions,
an engine an environment that emits ICE events, opening a sealed body inverts sealing it under the same
key pair and row. Clocks, random ids, availability answers and whether a send gets through are arguments
of the events.

`dafny verify dfyconfig.toml --verification-time-limit 0 --resource-limit 2000000` checks everything.

## Model

| member | source | states |
|---|---|---|
| `CallTypes.OfferWinsIsTotal` | vendor/protocol/dist/content.js:232-234 | the glare order is total and strict: of two different call ids exactly one wins, and none beats itself |
| `CallTypes.OfferWinsIsTransitive` | vendor/protocol/dist/content.js:232-234 | the glare order is transitive, so it is a strict total order on call ids |
| `CallTypes.OfferWinsBySmallerCharacter` | vendor/protocol/dist/content.js:227-234 | the smaller id wins: by the first character that differs, or by being shorter if none does |
| `CallInvariant.StepKeepsValid` | src/calls/controller.ts:146-715 | every event keeps the controller invariant: a call exists exactly outside idle and ending, each timer is armed exactly in its statuses and for the current call, an await is in flight exactly where the status waits for one, every open engine is the current call's |
| `CallInvariant.RunKeepsValid` | src/calls/controller.ts:146-715 | the invariant holds after every run of events, in any order and number |
| `CallOutline.StepIsPermitted` | src/calls/controller.ts:146-682 | every event of every valid state is one of seven outlined moves (quiet, one signal about the live call, the call over, placed, adopted, glare yielded, an id noted), which fix what is sent, recorded and remembered |
| `CallProgress.ReachableIsValid` | src/calls/controller.ts:95-116 | the invariant holds in every state reachable from a new controller |
| `CallProgress.SomethingIsOwed` | src/calls/controller.ts:146-268 | a live call that is not active always has a timeout or an await pending that concerns it |
| `CallProgress.OwedEventsMoveOn` | src/calls/controller.ts:146-268 | whatever such a pending event turns out to be, it lowers the rank of the call |
| `CallProgress.RankNeverRises` | src/calls/controller.ts:146-715 | no event at all raises the rank of a live call: what it has absorbed is not asked of it again |
| `CallProgress.NoLiveCallHangs` | src/calls/controller.ts:146-316 | in every reachable state a live call that is not active is owed some event; each owed event lowers its rank, no event raises it, and it never exceeds nine, so after at most nine owed events the call is up or over |
| `CallProgress.StaleWorkIsInert` | src/calls/controller.ts:173-212 | a continuation, ICE callback or timeout of a call that is no longer current changes nothing but its own pending await: no status, signal, row, timer or engine of a newer call |
| `CallProgress.CurrentWorkKeepsToItsCall` | src/calls/controller.ts:567-613 | asynchronous work of the current call only moves, signals about, or ends the call it was created for |
| `CallOutcomes.EndingIsExact` | src/calls/controller.ts:271-660 | a live call ends by exactly these causes (the contact's end, hang up, decline, lock, ring timeout, media lost, a bad answer, a failed step of placing or answering), and each fixes by status, direction and heard reason what is shown, what the peer is told, and the kind, body and unread flag of the row |
| `CallOutcomes.HeardEndsExactly` | src/calls/controller.ts:530-551 | the contact's end: a ringing caller shows declined with a declined row on a decline, busy with a busy mark on a busy, else ended and missed; a ringing callee has it missed and unread; while connecting it is missed with an error; a call that was up is recorded by its direction |
| `CallOutcomes.RoundingLasts` | src/calls/controller.ts:622-630 | the recorded time is the whole seconds since media was up, rounded half up, none without a start |
| `CallMoves.GoingOnIsExact` | src/calls/controller.ts:146-682 | every other event about a live call: the status it moves to, what is sent with which session description, the await that starts, the engine, answer, mute and time fields, with no row and no id noted |
| `CallMoves.TakenOfferIsExact` | src/calls/controller.ts:431-500 | an offer younger than two minutes rings if the slot is free; an offer that wins a glare replaces the own call, engine closed and id noted, and is accepted at once |
| `CallMoves.UntakenOfferIsExact` | src/calls/controller.ts:417-467 | any other offer is noted: busy for someone in another call, with a missed row if from someone else; set aside without a word if one's own wins; missed if it is old |
| `CallMoves.StrayEndIsExact` | src/calls/controller.ts:553-563 | the end of a call that is not the live one is noted, and missed if it was hung up or timed out |
| `CallMoves.RefusalIsExact` | src/calls/controller.ts:136-142 | why a call is not placed: one's own call, then a blocked contact, then no connection, then no session |
| `CallRecords.StepKeepsRecords` | src/calls/controller.ts:271-660 | over every event and delivery of a pair: a decline in transit was recorded as declined by its sender, a timeout as unanswered, a busy call was noted |
| `CallRecords.DeclineIsSent` | src/calls/controller.ts:271-276 | a callee that declines shows and records that, and the decline goes to the caller |
| `CallRecords.CallerShowsWhatCalleeMeant` | src/calls/controller.ts:530-551 | in every run: a ringing caller that reads the end of its call shows and records declined on a decline, and then the callee has recorded it as declined; busy on a busy, and then the callee has noted it; ended and missed otherwise |
| `CallRecords.CalleeMissesWhatCallerGaveUp` | src/calls/controller.ts:537-539 | in every run: a ringing callee that reads the end of its call has it missed and unread, and a caller that said nobody answered has recorded that |
| `CallHistory.TouchKeepsNewest` | src/calls/controller.ts:675-682 | delete, add and evict on the insertion ordered set keep the newest twenty distinct ids |
| `CallHistory.RecencyMembers` | src/calls/controller.ts:675-682 | the recency list of a log names each id of the log exactly once |
| `CallHistory.RecencyOrder` | src/calls/controller.ts:675-682 | it is ordered by last occurrence: every tail of it is the set of ids of some tail of the log |
| `CallHistory.RunKeepsRemembering` | src/calls/controller.ts:675-682 | after every run the recently ended set is the twenty most recent distinct ids ever remembered, in recency order |
| `CallHistory.OneRowEachExactlyWhileKept` | src/calls/controller.ts:530-563 | with ids unique to their initiator, a state cannot be led to a second row for an id by any next event if and only if every id with a row is still among the recently ended ones |
| `CallHistory.HonestRunKeepsOneRowEach` | src/calls/controller.ts:530-563 | in every run in which no id with a row is evicted each call id gets at most one row write, so an insert-or-ignore never hides a completed row behind a missed one |
| `CallHistory.CompleteWhileFew` | src/calls/controller.ts:675-682 | nothing has been evicted if and only if at most twenty distinct ids were remembered |
| `CallHistory.EvictionWritesARowTwice` | src/calls/controller.ts:557-562 | an instance from a new controller: twenty later ids evict one with a row, and a second row is written for it |
| `CallLocking.LockInOneGo` | src/calls/controller.ts:360-412 | the lock hook cut at its awaits, with nothing in between, is the one step the other call theorems take it as |
| `CallLocking.LockEndIsExact` | src/calls/controller.ts:392-412 | resumed after its awaits the hook keeps the controller invariant if and only if its call is still in the slot, or there is no call with a media engine and no ending on screen |
| `CallLocking.EndOvertakesLock` | src/calls/controller.ts:392-411 | the other case is reached from every ringing outgoing call: the peer's end arrives during the farewell, and the hook leaves the controller idle with the linger timer of that ending armed, which breaks the invariant |
| `CallLocking.StaleLockDropsAnother` | src/calls/controller.ts:408-411 | whatever other call is in the slot is taken down without a signal to its peer and without a row, whether the invariant holds afterwards or not |
| `CallLocking.OfferOvertakesLock` | src/calls/controller.ts:392-411 | that is reached as well: an end and another offer arriving during the farewell put a different ringing call there, which the hook drops with the invariant kept |
| `CallPair.StepKeepsBacked` | src/calls/controller.ts:218-269 | every event or delivery at either side of a pair keeps the cross-party invariant |
| `CallPair.CallerIsNeverAlone` | src/calls/controller.ts:502-563 | in every run of two controllers over ordered channels, with hang ups, locks, timers, failures and third parties: a caller past ringing has a callee past ringing on the same call, or the end of that call on its way |
| `CallPair.DeliveredEndEndsTheCall` | src/calls/controller.ts:530-551 | that end, once delivered, ends the caller's call |
| `Glare.GlareAgrees` | src/calls/controller.ts:417-446 | both place one call to each other, every await succeeds, no third party signals, and nothing hangs up, locks, declines or times out: never are both sides callees, and once both have called and the offers are settled both hold the smaller call id, its owner as caller |
| `CallAlone.StepKeepsWatched` | src/calls/controller.ts:417-446 | every event or delivery keeps, for each call one side placed to the other: its offer is in transit at most once, and a call that is offered, or has its callee, has its caller, an end behind the offer, or was given up in a glare |
| `CallAlone.CalleeIsAloneExactly` | src/calls/controller.ts:417-563 | in every run of two controllers, with hang ups, locks, timers, failures and third parties: a callee's caller is on the same call, or the end of that call is on its way to the callee, if and only if the caller did not give the call up to an offer of the callee |
| `CallAlone.TakenExactly` | src/calls/controller.ts:417-467 | an event makes a controller the callee of a call if and only if it is an offer of that call, not recently ended, that is recent and finds the slot free or wins a glare |
| `CallAlone.AloneBeginsExactly` | src/calls/controller.ts:417-446 | y as callee comes to be alone if and only if x now gives up the call that y is callee of, or y now takes an offer of a call that x gave up before |
| `CallAlone.DeliveredEndEndsTheCallee` | src/calls/controller.ts:530-551 | an end on its way to a callee, once delivered, ends its call |
| `CallAloneRuns.HangUpBreaksGlare` | src/calls/controller.ts:278-446 | offers crossed and one side hangs up before reading the other's: both become callees if and only if the call hung up has the smaller id; that is when, the end delivered too, the side that hung up is left ringing for a caller that is gone, and otherwise the other call stands |
| `CallAloneRuns.CrossedIsReached` | src/calls/controller.ts:146-214 | two new controllers reach such crossed offers, for any two different ids |
| `Glare.GentleRunIsFair` | src/calls/controller.ts:417-446 | every interleaving of such steps and deliveries stays within the six phases of the glare protocol |
| `CallController.Controller.constructor` | src/calls/controller.ts:108-116 | a new controller is the initial state |
| `CallController.Controller.ClearLinger` | src/calls/controller.ts:702-710 | drops the linger timer and the shown end state |
| `CallController.Controller.StartConnectTimer` | src/calls/controller.ts:605-615 | re-arms the connect window for one call |
| `CallController.Controller.Remember` | src/calls/controller.ts:675-682 | moves the id to the newest end, evicting the oldest beyond twenty; the loop computes the recursive removal |
| `CallController.Controller.Teardown` | src/calls/controller.ts:662-673 | timers, ring, audio and engine off, id remembered, call gone |
| `CallController.Controller.Finish` | src/calls/controller.ts:643-660 | row, teardown, end state and linger timer, in that order; nothing without a call |
| `CallController.Controller.CheckAvailability` | src/calls/controller.ts:136-142 | busy, blocked, offline, without a session, in that order, or available |
| `CallController.Controller.PlaceCall` | src/calls/controller.ts:146-169 | what the check returned, or busy when the slot was taken since; otherwise the slot taken with a fresh call object and the TURN await in flight |
| `CallController.Controller.PlaceTurnDone` | src/calls/controller.ts:169-183 | outcome of the TURN fetch: stale, failed, or engine created |
| `CallController.Controller.PlaceEngineDone` | src/calls/controller.ts:183-196 | outcome of the engine: stale, failed by cause, or the offer sent |
| `CallController.Controller.PlaceSendDone` | src/calls/controller.ts:195-214 | outcome of sending: stale, failed with a trailing end, or ringing with its timer |
| `CallController.Controller.Answer` | src/calls/controller.ts:218-230 | only an incoming ringing call: accept sent, ring off, TURN await in flight |
| `CallController.Controller.AnswerTurnDone` | src/calls/controller.ts:229-243 | outcome of the TURN fetch while answering |
| `CallController.Controller.AnswerEngineDone` | src/calls/controller.ts:240-258 | outcome of the engine while answering, answer sent |
| `CallController.Controller.AnswerSendDone` | src/calls/controller.ts:256-269 | outcome of sending the answer: error end, or the connect window |
| `CallController.Controller.Decline` | src/calls/controller.ts:271-276 | declines an incoming ringing call only |
| `CallController.Controller.HangUp` | src/calls/controller.ts:278-316 | per status: what is signaled, which row is written, or silence before the offer left |
| `CallController.Controller.SetMuted` | src/calls/controller.ts:318-324 | mutes only a call with an engine |
| `CallController.Controller.SetSpeaker` | src/calls/controller.ts:326-331 | routes audio of a live call |
| `CallController.Controller.ComposeFarewell` | src/calls/controller.ts:364-391 | what locking the app tells the peer and the timeline, by status |
| `CallController.Controller.OnAppLocking` | src/calls/controller.ts:360-412 | that farewell, then teardown straight to idle, when nothing comes between its awaits |
| `CallController.Controller.AdoptIncoming` | src/calls/controller.ts:469-500 | a new incoming call rings or is answered at once |
| `CallController.Controller.HandleOffer` | src/calls/controller.ts:417-467 | duplicate, glare by id order, busy, stale and fresh offers |
| `CallController.Controller.HandleAccepted` | src/calls/controller.ts:502-509 | leaves ringing on the callee's accept of this call only |
| `CallController.Controller.HandleAnswer` | src/calls/controller.ts:511-528 | applies one answer, from ringing or connecting, and restarts the window |
| `CallController.Controller.HandleEnd` | src/calls/controller.ts:530-563 | ends the live call as `CallOutcomes.HeardEndsExactly` lists by status and reason, or notes a stray end as `CallMoves.StrayEndIsExact` says |
| `CallController.Controller.HandleCallSignal` | src/calls/controller.ts:337-358 | each signal kind to its handler |
| `CallController.Controller.ApplyAnswerDone` | src/calls/controller.ts:523-527 | a failed answer application ends the call it was for, if still current |
| `CallController.Controller.OnIceState` | src/calls/controller.ts:567-603 | media up, lost and failed, for the current call only |
| `CallController.Controller.RingTimerFired` | src/calls/controller.ts:208-213 | ring timeout of a caller or a callee |
| `CallController.Controller.ConnectTimerFired` | src/calls/controller.ts:607-614 | connect window run out |
| `CallController.Controller.DisconnectTimerFired` | src/calls/controller.ts:585-590 | reconnect grace run out |
| `CallController.Controller.LingerTimerFired` | src/calls/controller.ts:653-659 | the shown end state expires to idle |
| `CallController.Controller.Dispatch` | src/calls/controller.ts:146-715 | whatever the user, the peer, the media layer or the runtime calls: the object keeps its invariant and moves as the call machine |
| `RelayProofs.StepKeepsValid` | src/transport/relay.ts:212-274 | any number of drain loops, with replies, authentications and closes of stopped or replaced sockets at any time: every event keeps the queue a tail of what was enqueued, a loop waiting while connected, and every resolve backed by an acknowledged request for its own item |
| `RelayProofs.OrderIsExact` | src/transport/relay.ts:290-303 | the order of first transmissions, nothing shifted unsent, and a connected client's head sent are kept by an event if and only if no ok reply wakes a drain loop while the client is not connected and the head has not been sent, and no drain takes up an unsent item while the socket is not open |
| `RelayProofs.FirstSentInOrder` | src/transport/relay.ts:398-414 | in runs whose events meet that condition: items are first transmitted in the order they were enqueued, with any number of loops and reconnects |
| `RelayProofs.ShiftedMeansSent` | src/transport/relay.ts:398-414 | in the same runs: nothing leaves the queue before an open socket took it at least once |
| `RelayRuns.LateRepliesShiftUnsent` | src/transport/relay.ts:290-303 | where replies are not timely: two loops left behind by a stop, both answered late, shift an item that was never sent |
| `RelayRuns.RestartsLeaveTwoBehind` | src/transport/relay.ts:104-116 | such a state is reached from a new client by two starts, a send and two stops |
| `RelayRuns.UncarriedLeavesUnsent` | src/transport/relay.ts:247-266 | whenever a drain takes up an unsent item while the socket is not open, the end of its request, by throwing or by timeout, takes the item off the queue unsent and rejects its promise |
| `RelayRuns.StoppedClientRejectsUnsent` | src/transport/relay.ts:388-414 | reached from a new client: a late authentication after a stop, with no socket at all |
| `RelayRuns.LateCloseRejectsUnsent` | src/transport/relay.ts:388-424 | reached by a client that is not stopped: the late close of a replaced socket drops the new one, which then authenticates |
| `RelayRuns.OpeningSocketRejectsUnsent` | src/transport/relay.ts:230-266 | reached with the new socket still opening, whose send throws: what is queued is rejected at once |
| `RelayRuns.ResolvedMeansSent` | src/transport/relay.ts:212-217 | with a relay that acknowledges only requests that went out over an open socket, a promise resolves only when such a socket took its envelope |
| `RelayProofs.ResolvedMeansAccepted` | src/transport/relay.ts:212-217 | a sendEnvelope promise resolves only after an ok reply to a request that carried its own envelope |
| `RelayProofs.EachRequestSettlesOnce` | src/transport/relay.ts:256-274 | each request id is unused, pending, or settled exactly once, by reply, timeout or close |
| `RelayOnline.StoppedIsExact` | src/transport/relay.ts:104-116 | in every run the client counts as closed by the user if and only if the last of its starts and stops is a stop; then it has no socket and no timer, and neither a late close nor a timer brings one back |
| `RelayOnline.NothingIsStranded` | src/transport/relay.ts:388-448 | in every run: while connected, with or without a socket, a non-empty queue has a loop waiting on a pending request; and with no stop behind the last start the client has either a socket or a reconnect timer, never both |
| `RelayOnline.DropReconnects` | src/transport/relay.ts:416-439 | with no stop behind the last start, the close of a socket arms the reconnect timer, and its firing opens a socket |
| `RelayOnline.OpeningIsShown` | src/transport/relay.ts:230-235 | a socket being opened shows as connecting, or as reconnecting if there was a drop since the last authentication |
| `RelayOnline.RequestsAreNumbered` | src/transport/relay.ts:251-266 | request ids number the requests of the queue and all others; each new one is pending |
| `RelayConservation.NothingLostWithOneLoop` | src/transport/relay.ts:398-429 | one loop at a time, late replies, closes and authentications included: the reported outcomes followed by the queue are exactly the enqueued items in order, so each is resolved, rejected or queued and only one of these |
| `RelayConservation.ExclusiveIsExact` | src/transport/relay.ts:215-216 | a state keeps to a single loop if and only if the event starts none beside a running one; any other such event can lead to a loss |
| `RelayConservation.SendLosesExactlyBesideALoop` | src/transport/relay.ts:212-217 | a sendEnvelope endangers an item if and only if it is made while connected with a loop waiting |
| `RelayConservation.TwoLoopsLose` | src/transport/relay.ts:398-414 | two loops on the same head, the socket not opening: however their two requests end, by reply or by timeout, a drop after them loses the item behind it |
| `RelayConservation.AuthenticatedBesideALoop` | src/transport/relay.ts:388-396 | an authentication beside a waiting loop leads to the same loss |
| `RelayConservation.LostForGood` | src/transport/relay.ts:398-414 | a lost item is never queued, resolved or rejected again |
| `RelayClient.Client.Start` | src/transport/relay.ts:104-107 | opens a socket and is no longer closed by the user, which `RelayOnline.StoppedIsExact` says over runs |
| `RelayClient.Client.Stop` | src/transport/relay.ts:109-116 | no socket, no reconnect, disconnected |
| `RelayClient.Client.SendEnvelope` | src/transport/relay.ts:212-217 | the item with the next ticket at the tail of the queue, nothing else of it touched, and a drain loop started when connected |
| `RelayClient.Client.OtherRequest` | src/transport/relay.ts:165-170 | a request that no drain loop awaits |
| `RelayClient.Client.FlushOutbound` | src/transport/relay.ts:398-403 | one turn of the loop up to its await |
| `RelayClient.Client.SendFrame` | src/transport/relay.ts:247-249 | an open socket takes the frame, one still opening throws, none or a closing one does nothing |
| `RelayClient.Client.OnThrown` | src/transport/relay.ts:405-412 | the loop whose send threw goes on as after any failed request, which stays pending |
| `RelayClient.Client.OnSocketOpens` | src/transport/relay.ts:242-242 | the client's own socket is open |
| `RelayClient.Client.OnSocketFails` | src/transport/relay.ts:245-245 | an error closes the client's own socket, its close still to be heard |
| `RelayClient.Client.ResumeLoop` | src/transport/relay.ts:402-413 | the loop after its await: shift and report, or stop when disconnected |
| `RelayClient.Client.OnReply` | src/transport/relay.ts:290-303 | an ok or correlated error frame settles its request |
| `RelayClient.Client.OnRequestTimeout` | src/transport/relay.ts:259-262 | a request that timed out settles as failed |
| `RelayClient.Client.OnAuthenticated` | src/transport/relay.ts:388-396 | connected, attempts reset, a drain loop started, whatever became of the socket |
| `RelayClient.Client.OnClose` | src/transport/relay.ts:416-429 | every pending request rejected, every awaiting loop ended with its item kept, reconnect scheduled unless closed by the user; the loops establish it for any number of requests |
| `RelayClient.Client.OnReconnectTimer` | src/transport/relay.ts:436-439 | opens a socket unless closed by the user meanwhile |
| `RelayClient.Client.Dispatch` | src/transport/relay.ts:104-448 | whatever the application, the socket and the runtime call: the object keeps its invariant and moves as the machine |
| `Base64.LookupInvertsAlphabet` | src/crypto/bytes.ts:17-22 | the lookup inverts the alphabet and knows no other character, '=' included |
| `Base64.BuildLookup` | src/crypto/bytes.ts:18-22 | the table built by the loop is the lookup, and both decoding loops read it |
| `Base64.BytesToBase64` | src/crypto/bytes.ts:24-41 | the loop over triples writes character k as bits 6k to 6k+5 of the input and pads the last group |
| `Base64.FillBytes` | src/crypto/bytes.ts:52-65 | the 32 bit shift accumulator yields byte p as bits 8p to 8p+7 of the valid characters, drops what exceeds the buffer and leaves zeros where nothing is left |
| `Base64.Base64ToBytes` | src/crypto/bytes.ts:43-66 | the output length by the count of clean characters and the padding, a negative one being the error, and those bytes |
| `Base64.ShiftInKeepsLowBits` | src/crypto/bytes.ts:58-62 | the wrap-around of the accumulator never reaches bits still needed |
| `Base64.RoundTrip` | src/crypto/bytes.ts:24-66 | decoding inverts encoding on every byte array (section 4 of RFC 4648) |
| `Base64.EncodedConcatenates` | src/crypto/bytes.ts:24-41 | a whole number of triples encodes on its own: texts concatenate as their bytes do |
| `Base64.DecodeFailsExactlyOnBarePadding` | src/crypto/bytes.ts:43-51 | decoding throws if and only if the text is bare padding: one or two final '=' and nothing else that counts |
| `Utf8.EncodeNext` | src/crypto/bytes.ts:106-129 | one turn of the encoder: the UTF-8 sequence of the next scalar value, a surrogate pair taken as one, a lone surrogate replaced |
| `Utf8.Utf8Encode` | src/crypto/bytes.ts:106-129 | the encoder loop over the whole string |
| `Utf8.DecodeOne` | src/crypto/bytes.ts:137-163 | one turn of the decoder: the units of one sequence, or a cut at the end |
| `Utf8.Utf8Decode` | src/crypto/bytes.ts:131-166 | the decoder loop concatenates those units and ends at a cut sequence with one U+FFFD |
| `Utf8.SequenceDecodes` | src/crypto/bytes.ts:106-166 | each scalar's sequence decodes to its one or two units (section 3 of RFC 3629) |
| `Utf8.RoundTrip` | src/crypto/bytes.ts:104-166 | decode after encode is the string with exactly its unpaired surrogates replaced by U+FFFD |
| `Utf8.WellFormedSurvives` | src/crypto/bytes.ts:104-166 | a string survives unchanged if and only if it has no unpaired surrogate |
| `ImageCodec.SplitB64` | src/services/image-codec.ts:59-65 | slice i is characters 64000i up to 64000(i+1) of the body, none missing |
| `ImageCodec.SliceCount` | src/services/image-codec.ts:48-50 | the base64 of n bytes splits into chunkCountFor(n) slices |
| `ImageCodec.SliceIsEncodedPiece` | src/services/image-codec.ts:6-10 | slice i is the base64 of the i-th 48000 bytes |
| `ImageCodec.SlicesDecode` | src/services/image-codec.ts:59-65 | the slices join to the body and decode independently to the original bytes |
| `ImageCodec.Sha256B64OfB64` | src/services/image-codec.ts:87-95 | the digest of the slices decoded one by one, or the first decoding error |
| `ImageCodec.SlicedDigestIsWhole` | src/services/image-codec.ts:85-95 | for the base64 of any bytes that is the digest of the whole |
| `ImageCodec.RawBytesOfEncoded` | src/services/image-codec.ts:53-57 | the byte count read off a base64 text is that of its bytes |
| `ImageCodec.AssembleAndVerify` | src/services/image-codec.ts:100-109 | joins the chunks and checks size bounds and digest, each failure told apart |
| `ImageCodec.HonestImageAssembles` | src/services/image-codec.ts:100-109 | the split of a body reassembles to it if and only if its size is within 1 and 3072000 bytes, and is refused for its size otherwise |
| `ImageCodec.AcceptedMatchesDigest` | src/services/image-codec.ts:100-109 | whatever chunks are accepted decode to bytes with the announced digest |
| `ImageProofs.StepIsLocal` | src/services/messaging.ts:676-738 | what one event does to a ref depends only on the rows under that ref |
| `ImageProofs.StagingIsBounded` | src/services/messaging.ts:696-706 | whatever is received, staged rows exist only for announced refs and stay below the chunk count, at most 64 |
| `ImageProofs.Pigeonhole` | src/services/messaging.ts:706-706 | as many distinct seqs below n as n are all of them |
| `ImageProofs.FullStagingAssembles` | src/services/messaging.ts:706-709 | a full staging area assembles to the sent body |
| `ImageProofs.ImageIsExact` | src/services/messaging.ts:676-738 | for an honest sender and any delivery sequence, a row under the ref holds the sent body, plain or sealed for this conversation and id, in the sender's conversation, and appears only when every slice was delivered |
| `ImageProofs.ImageArrives` | src/services/messaging.ts:676-738 | after the announcement, every slice at least once in any order with anything else between leaves the image stored, unless removed or swept |
| `ImageProofs.RowIsKeptOrRemoved` | src/services/messaging.ts:711-730 | a stored row is never rewritten: an event keeps it or removes it |
| `ImageProofs.RetractedStaysAway` | src/services/messaging.ts:853-866 | after the sender's delete and without a new announcement the image never appears, whatever chunks still come |
| `ImageTimes.SweepIsExact` | src/services/messaging.ts:66-68 | in every run a row was stored as it is or completed by a chunk after an announcement of its conversation; a completed one carries the time of the announcement, is sealed exactly if a lock was on, and is swept at a time if and only if the retention at completion is positive and that many seconds are over |
| `ImageTimes.HonestImageIsDated` | src/services/messaging.ts:709-730 | for an honest sender's image that is so of the row under its ref, together with the sent body |
| `ImageTimes.RowGoesExactly` | src/services/messaging.ts:853-866 | a row goes by the author's retraction in its own conversation, by deletion for oneself, or by its expiry, and by nothing else |
| `ImageTimes.StagingGoesExactly` | src/services/messaging.ts:696-738 | staging goes with its last chunk, by retraction or blocking in its conversation, or by age; otherwise it stays, the first chunk under each number kept |
| `ImageTimes.StagingComesExactly` | src/services/messaging.ts:676-695 | staging begins by an announcement within bounds of something neither stored nor staged |
| `ImageSend.ContentsAreExact` | src/services/messaging.ts:285-296 | what goes out for an image: its layout, size, digest and number of slices, then each 48000 bytes encoded on their own and numbered in order |
| `ImageSend.SendImageEnvelopes` | src/services/messaging.ts:285-296 | the announcement and the slices in order, stopping at the first send that fails |
| `ImageSend.ResendImage` | src/services/messaging.ts:301-307 | from any stored text and layout: nothing without a layout, below one byte or when a slice does not decode; otherwise size and digest recomputed from that text and everything sent up to the first failure |
| `ImageSend.StoredImageResends` | src/services/messaging.ts:301-307 | for the stored body of an image that is exactly what its first sending consisted of |
| `ImageSend.SentImageArrives` | src/services/messaging.ts:285-307 | any interrupted attempts followed by one complete sequence leave the image stored whole, for any retention and lock of the receiving conversation at each arrival |
| `ImageStore.Store.CreateTransfer` | src/db/repos/image-transfers.ts:51-57 | an insert that a present ref ignores |
| `ImageStore.Store.InsertChunk` | src/db/repos/image-transfers.ts:65-67 | an insert that a present (ref, seq) ignores |
| `ImageStore.Store.ListChunks` | src/db/repos/image-transfers.ts:75-78 | the staged data in ascending seq order |
| `ImageStore.Store.DeleteTransfer` | src/db/repos/image-transfers.ts:80-83 | the transfer row and, by cascade, its chunks |
| `ImageStore.Store.DeleteConversationTransfer` | src/db/repos/image-transfers.ts:87-89 | the same, only within the conversation |
| `ImageStore.Store.SweepStaleTransfers` | src/db/repos/image-transfers.ts:111-114 | every transfer older than the cutoff, and how many |
| `ImageStore.Store.PurgeTransfersForConversation` | src/db/repos/image-transfers.ts:118-120 | every transfer of the conversation |
| `ImageStore.Store.InsertMessage` | src/db/repos/messages.ts:103-109 | an insert that a present id ignores |
| `ImageStore.Store.DeletePeerAuthoredMessage` | src/db/repos/messages.ts:127-133 | removes an incoming text or image of that conversation only, and counts it |
| `ImageStore.Store.SweepExpired` | src/db/repos/messages.ts:277-280 | removes the rows whose expiry has passed |
| `ImageStore.Store.OnImage` | src/services/messaging.ts:676-695 | an announcement: ignored after completion, idempotent before |
| `ImageStore.Store.OnImageChunk` | src/services/messaging.ts:696-738 | a chunk: scoped, bounded, staged once, and the last one completes or discards; the row plain, or sealed when the chat is locked, dated as `ImageTimes.SweepIsExact` says |
| `ImageStore.Store.OnMessageDelete` | src/services/messaging.ts:853-866 | the peer's delete: message and staging, within the conversation |
| `Retention.ActionAgreesExactly` | src/services/messaging.ts:442-464 | requests and cancels never change whether the sides will agree; an effective accept leads to agreement if and only if no other value in transit overwrites it here and the other side will hold it too |
| `Retention.SentAcceptAgreesExactly` | src/services/messaging.ts:442-464 | for an accept that is sent: if and only if no different accept is on its way to the acceptor |
| `Retention.DeliveryKeepsOutcome` | src/services/messaging.ts:742-790 | delivering a message never changes what the sides will hold in the end |
| `Retention.ProposerNeverAccepts` | src/services/messaging.ts:445-448 | with one proposer its own accept is a no-op |
| `Retention.RequesterTrails` | src/services/messaging.ts:756-769 | with one proposer the requester holds the responder's last sent value as it stood before the accepts in transit, which are the latest in order |
| `Retention.OneProposerAgrees` | src/services/messaging.ts:418-487 | with one proposer and accepts that get through, both sides hold the same value whenever no accept is in transit |
| `Retention.CrossedRequestsDisagree` | src/services/messaging.ts:418-464 | crossed requests, each accepted, leave the two sides with different values and nothing in transit |
| `RetentionPending.PendingIsExact` | src/services/messaging.ts:418-487 | in every run a change is pending if and only if some request opened it and nothing has answered, withdrawn or overtaken it since, with that request's value and side |
| `RetentionPending.AcceptNeedsAStandingRequest` | src/services/messaging.ts:442-448 | in every run an accept takes effect only if the last message read was a request, whose value is the one pending, and it was not declined since: a cancel that was read ends it |
| `RetentionPending.ReadCancelClears` | src/services/messaging.ts:770-790 | a cancel that is read leaves nothing pending: nothing to accept, and a request can be made again |
| `RetentionPending.TimelineIsExact` | src/services/messaging.ts:418-487 | the row each action and each message adds, on the side it happens: kind, direction, value, retention in force and read flag; a cancel is a decline or a withdrawal by whose request it was about |
| `RetentionPending.SameStoryExactly` | src/services/messaging.ts:466-487 | a cancel is told as the same event on both sides, declined or canceled, if and only if the reader then holds the counterpart of what the sender held |
| `RetentionPending.SettledCancelAgrees` | src/services/messaging.ts:770-790 | with the request read and nothing under way it is: both log the same and nothing stays pending |
| `RetentionPending.CrossedCancelsDiffer` | src/services/messaging.ts:466-487 | a withdrawal and a decline that cross: one side logs canceled, the other declined |
| `Retention.TimelineAlwaysTells` | src/services/messaging.ts:449-487 | on either side the retention in force is the value of the last 'changed' row of the timeline |
| `RetentionConvo.Conversation.SendControl` | src/services/messaging.ts:410-416 | best effort: a failed send rolls nothing back |
| `RetentionConvo.Conversation.RequestRetention` | src/services/messaging.ts:418-440 | ignored while one's own request is pending, otherwise pending, logged and sent |
| `RetentionConvo.Conversation.AcceptRetention` | src/services/messaging.ts:442-464 | ignored unless the peer's request is pending, otherwise applied, logged and sent |
| `RetentionConvo.Conversation.CancelRetention` | src/services/messaging.ts:466-487 | cleared, logged as declined or canceled by whose request it was, and always sent |
| `RetentionConvo.Conversation.ReceiveControl` | src/services/messaging.ts:742-790 | the three inbound messages; a cancel clears what is pending and is logged by whose request it was |
| `ChatLockProofs.StepKeepsValid` | src/lock/chat-locks.ts:144-200 | every write of every operation, boot passes beside it, messages stored some time after the lock was read, deletions, unlocks and crashes anywhere, keeps each row's text and the keys it needs, as long as no body sealed with a key lands while that is not the conversation's public key and the flags flip with nothing sealed |
| `ChatLockWindow.LossIsExact` | src/lock/chat-locks.ts:144-329 | an event leaves every stored row telling its text if and only if it neither stores a body sealed with a key that is not the conversation's public key nor clears that key over sealed rows |
| `ChatLockWindow.NothingIsLost` | src/lock/chat-locks.ts:144-329 | in every run without such an event each stored row still tells its text, and a sealed row has a body and a stored key that matches the conversation's public key |
| `ChatLockWindow.RecoveredIsUnchanged` | src/lock/chat-locks.ts:286-329 | no other event changes what a row that stays tells |
| `ChatLockWindow.CacheAgreesWithRow` | src/lock/chat-locks.ts:263-276 | a cached body is what opening the row gives |
| `ChatLockProofs.ShownIsSaid` | src/lock/chat-locks.ts:263-276 | what is shown of a row is what was said; with the chat unlocked it is shown |
| `ChatLockWindow.FlipIsExact` | src/lock/chat-locks.ts:166-168 | taking the lock off is harmless, whatever happens afterwards short of taking it off again, if and only if at that moment no row is sealed, no message on its way has read the key and no boot pass is under way |
| `ChatLockRuns.LateStoreIsLost` | src/services/messaging.ts:653-714 | an instance from an empty chat: a message reads the key, the lock comes off, and the message is stored under the key that is gone |
| `ChatLockRuns.HealBesideDisableLoses` | src/services/boot.ts:71-72 | another: a boot pass still at work when the lock is taken off seals a row again before the flags flip |
| `ChatLockOperations.SealedOpensExactly` | src/crypto/chat-lock.ts:63-104 | a sealed body opens with its key pair and for its row, and not otherwise |
| `ChatLockOperations.EnablingLeaves` | src/lock/chat-locks.ts:144-157 | the writes of enabling, with nothing between: keys and index stored, flags set, key released, then the history is read |
| `ChatLockOperations.ForgettingLeaves` | src/lock/chat-locks.ts:174-180 | deleting a locked chat's messages leaves no row, no flag, no key item and nothing in memory |
| `ChatLockOperations.SecretsGo` | src/lock/chat-locks.ts:119-124 | the end of a lock: flags off, both key items, the index, the released key and the cache gone |
| `ChatLockOperations.UnsealingEnds` | src/lock/chat-locks.ts:299-310 | a row that does not open stops the pass with everything as it was; a pass with nothing left goes on to the flags |
| `ChatLockOperations.BioSwitchLeaves` | src/lock/chat-locks.ts:188-200 | the biometric switch leaves the copy and the flag on or off together |
| `ChatLockOperations.RelockedShowsNothing` | src/lock/chat-locks.ts:85-88 | after relocking, or a restart, no sealed body is shown |
| `ChatLockOperations.UnlockingShows` | src/lock/chat-locks.ts:204-240 | unlocking releases the stored key, under which a sealed row is shown; changing the code stores the released key |
| `ChatLockOperations.StoringIsExact` | src/services/messaging.ts:653-675 | a stored message keeps its text and time and never replaces a row; sealed exactly if a key was read |
| `ChatLockPasses.WritesTurnRows` | src/lock/chat-locks.ts:290-307 | one write of the crash model turns a row as the complete pass does |
| `ChatLockPasses.UnsealInvertsSeal` | src/lock/chat-locks.ts:284-310 | sealing and then unsealing a plaintext history gives it back row for row |
| `ChatLockPasses.SealingResumes` | src/lock/chat-locks.ts:284-297 | a pass resumed after any part of it ends where an uninterrupted one does |
| `ChatLockPasses.BodilessRowBlocksUnseal` | src/lock/chat-locks.ts:299-307 | a sealed row without a body survives every batch, so the unseal loop would never end |
| `ChatLockPasses.Locks.List` | src/db/repos/messages.ts:142-159 | the oldest matching rows by sending time, as many as there are up to the limit, each once |
| `ChatLockPasses.Locks.SealHistory` | src/lock/chat-locks.ts:286-297 | ends for any history and batch size after one query more than full batches, with every plaintext chat row sealed and no other row touched |
| `ChatLockPasses.Locks.UnsealHistory` | src/lock/chat-locks.ts:299-310 | ends likewise when sealed rows have bodies: all rows back in plaintext, or failed exactly when one does not open |
| `ChatLockPasses.Locks.EnableChatLock` | src/lock/chat-locks.ts:144-157 | keys stored, flags set, key released, history sealed |
| `ChatLockPasses.Locks.DisableChatLock` | src/lock/chat-locks.ts:162-169 | succeeds exactly when the chat is unlocked and every row opens; otherwise flags and keys stay |
| `ChatLockPasses.Locks.RemoveChatLockSecrets` | src/lock/chat-locks.ts:119-124 | no key item, no released key, no cached body |
| `ChatLockPasses.Locks.RelockChat` | src/lock/chat-locks.ts:85-88 | no released key and no cached body |
| `ChatLockPasses.Locks.RemoveLockAndDeleteMessages` | src/lock/chat-locks.ts:174-178 | no rows, no lock, no secrets |
| `ChatLockPasses.Locks.SealPending` | src/lock/chat-locks.ts:314-329 | the boot pass seals a locked chat and leaves an unlocked one |
| `ChatLockPasses.Locks.DecryptBodyCached` | src/lock/chat-locks.ts:263-276 | a null body and one without good sealing parameters as they are, a sealed one from the cache or opened and cached, else refused |
| `Lockout.GuessBound` | src/lock/lock-controller.ts:128-146 | between successes at most 5 * (floor(W / 300000) + 1) wrong codes are compared in any span of W ms, for the app PIN and a chat code |
| `Lockout.GuessBoundFrom` | src/lock/chat-locks.ts:222-242 | the same less the failures already counted when the span began |
| `Lockout.BoundIsReached` | src/lock/lock-controller.ts:136-141 | the bound is attained for every number of lockout periods |
| `Lockout.CountersStayBelow` | src/lock/lock-controller.ts:136-144 | five failures never stand: the fifth is traded for five minutes; any other is counted and locks nobody out; a success clears, a refusal changes nothing |
| `LockController.AppLock.LockoutRemainingMs` | src/lock/lock-controller.ts:97-99 | positive exactly during a lockout, and then the time to its end |
| `LockController.AppLock.OpenWithKey` | src/lock/lock-controller.ts:101-108 | opened: key held, counters cleared, unlocked; failed: nothing changed |
| `LockController.AppLock.UnlockWithPin` | src/lock/lock-controller.ts:128-146 | refused in a lockout, counted when the PIN or the database fails, cleared on success; the key is held only then |
| `LockController.AppLock.UnlockWithBiometrics` | src/lock/lock-controller.ts:110-126 | refused in a lockout, a failure not counted |
| `LockController.AppLock.Lock` | src/lock/lock-controller.ts:154-166 | no key in memory, counters kept |
| `LockController.ChatCodeLock.UnlockChatWithCode` | src/lock/chat-locks.ts:222-242 | the same rules on the persisted counters of the chat; nothing counted without a stored code |
| `SessionProofs.KeysAreApart` | src/crypto/store.ts:39-48 | session and identity keys are injective in the handle and apart from each other and from the local keys |
| `SessionProofs.PerPeerLinearizable` | src/crypto/signal.ts:79-91 | for any interleaving on any handles, the finished operations of a handle returned and left its records as if each had run alone in call order; at most one is in flight |
| `SessionProofs.NeverTwoActive` | src/crypto/signal.ts:86-91 | two operations on one handle never overlap |
| `SessionProofs.SegmentIsLocal` | src/crypto/store.ts:105-125 | a segment of an operation writes no record of another handle and no local key |
| `SessionRatchet.AppliedDoes` | src/crypto/signal.ts:118-224 | each operation said of the cipher itself: what the cipher returned for the stored record is stored and returned, the identity pinned or compared, or nothing changes and the reason is told |
| `SessionRatchet.EveryCallDoes` | src/crypto/signal.ts:86-224 | in every run, however the calls of all handles interleave, the finished calls of a handle take its records from the first to the stored state, each doing that, in call order |
| `SessionRatchet.EncryptsIterate` | src/crypto/signal.ts:155-170 | encrypts of a handle leave the record the cipher reaches by itself over their plaintexts in call order, the pin untouched, and each returned what the cipher sealed at its own record |
| `SessionProofs.FailureChangesNothing` | src/crypto/signal.ts:125-224 | a failed operation, an identity mismatch included, changes neither record, except for bad padding |
| `SessionProofs.BadPaddingAdvances` | src/crypto/signal.ts:212-223 | on a whisper message bad padding is reported after the session record was stored |
| `SessionProofs.BadPaddingPins` | src/crypto/signal.ts:177-211 | on a prekey message as well, and a first contact is pinned by it; a wrong identity is still refused before |
| `SessionProofs.SessionAndPinTogether` | src/crypto/signal.ts:118-211 | an operation leaves a peer with both records or neither |
| `SessionProofs.TogetherBetweenOperations` | src/crypto/signal.ts:118-224 | so between operations of any interleaving a peer has both or neither |
| `SessionProofs.PinMovesOnlyByScan` | src/crypto/signal.ts:203-209 | only a scan or a deletion changes a pinned identity |
| `SessionProofs.SomethingCanMove` | src/crypto/signal.ts:86-91 | a failure does not wedge the chain: while a call is unfinished, it or an earlier one of its handle can move |
| `SessionProofs.EachSegmentAdvances` | src/crypto/signal.ts:155-170 | each segment brings a call closer to its end, at most seven in all |
| `Signal.NucoSignal.HasSession` | src/crypto/signal.ts:109-111 | whether a session record exists |
| `Signal.NucoSignal.DeleteSession` | src/crypto/signal.ts:118-123 | both records gone, other handles untouched |
| `Signal.NucoSignal.StartSession` | src/crypto/signal.ts:129-152 | session from the card and the pin overwritten, or nothing on failure; other handles untouched |
| `Signal.NucoSignal.Encrypt` | src/crypto/signal.ts:155-170 | the record the cipher returned stored, the pin kept, and the sealed message returned, or nothing; other handles untouched |
| `Signal.NucoSignal.DecryptPreKey` | src/crypto/signal.ts:177-211 | identity compared before anything is stored; first contact pins; other handles untouched |
| `Signal.NucoSignal.DecryptWhisper` | src/crypto/signal.ts:212-223 | the ratchet advanced and the message opened, or nothing before the backend succeeded; other handles untouched |
| `ContactCard.ComputeCardHash` | src/crypto/verification.ts:21-39 | the buffer filled with a moving offset is handle, identity key, signed prekey and kyber prekey with a zero byte between |
| `ContactCard.PreimageLayout` | src/crypto/verification.ts:21-37 | where each field lies in what is hashed, for keys of the protocol's sizes |
| `ContactCard.PreimageIsInjective` | src/crypto/verification.ts:16-39 | with 33, 33 and 1569 byte keys that layout is injective on cards with well formed handles |
| `ContactCard.LayoutNeedsTheSizes` | src/crypto/verification.ts:21-37 | without the fixed sizes two different cards share a preimage |
| `ContactCard.CompareBytes` | src/crypto/bytes.ts:74-80 | the sign of the result is lexicographic byte order, zero exactly on equality |
| `ContactCard.ExactlyOneInitiates` | src/crypto/verification.ts:41-46 | of two different identity keys exactly one side initiates |
| `ContactCard.PrecedesIsTransitive` | src/crypto/bytes.ts:72-80 | the byte order is transitive |
| `VerificationProofs.CardHashIsCollisionFree` | src/crypto/verification.ts:21-39 | the card hash is collision free on proper cards when the hash is |
| `VerificationProofs.ActIsExact` | src/services/verification.ts:77-187 | what every confirm and proof of a person rests on is kept by an action if and only if it does not spoil it: a press read before a reset and recorded after it, a scan that stores back a confirm read before one, and, for the very card, other prekeys scanned under a confirm or found by a press |
| `VerificationProofs.TakenUpWhileConfirmed` | src/services/verification.ts:145-187 | a proof goes up for sending for the card of a row that was locally confirmed by a press since the last reset, for its identity key; the row still is so at that moment if and only if no reset lies between the read and the send |
| `VerificationProofs.RecordedConfirmIsSound` | src/services/verification.ts:97-132 | in every run a recorded peer confirm means the peer sent a proof of this side's current card that rests on a press; in runs without a spoiling action on one for this identity key, or with this very card held, that no reset of the peer had undone when the row behind the proof was read (one may lie between that read and the sending or recording, see `VerificationRuns.ResendOvertakenByReset`); verified means both timestamps, and they mean verified |
| `VerificationMoves.SendsAreExact` | src/services/verification.ts:88-187 | whose proof goes out, when, and at most once a run: for a press with a session, an answer, a contact's turn on a row that waits, a deferred confirm, a retry |
| `VerificationMoves.GuardIsExact` | src/services/verification.ts:160-187 | the guard of a run is taken by a send and given back by its failure, by an answer or retry, and by what forgets the peer |
| `VerificationMoves.ErrorIsExact` | src/services/verification.ts:168-187 | an error shows from a failed send until one is acknowledged or retried |
| `VerificationMoves.SessionIsExact` | src/crypto/signal.ts:109-123 | what begins and ends a session besides a scan |
| `VerificationMoves.RowIsExact` | src/db/repos/contacts.ts:127-163 | what a press, a confirm, a reset, a block and a removal write, and which sends they leave due; both confirms make it verified, dated by the later |
| `VerificationMoves.UnansweredIsSentAgain` | src/services/verification.ts:136-158 | no confirm is forgotten: a row that waits for the peer is sent for again at its turn, by a retry while an error shows, and deferred once a run |
| `VerificationMoves.FailureIsNotFinal` | src/services/verification.ts:168-187 | a failed send gives the guard back and shows |
| `VerificationScans.ScanIsExact` | src/services/contacts.ts:86-163 | every scan: the session forgotten with the old key and begun by the side with the smaller key, the row the card's with what was confirmed of the same key, or as it was |
| `VerificationScans.StoredScanHasSession` | src/services/contacts.ts:131-138 | after a stored scan the side with the smaller key has a session |
| `VerificationRuns.RescanVouchesUnpressed` | src/services/contacts.ts:148-161 | whenever other prekeys are scanned under a standing confirm, the next confirm received is answered with a proof of a card that was not pressed for |
| `VerificationRuns.RescanConfirmsOtherCard` | src/services/contacts.ts:154-157 | a run from two strangers: the peer records a confirm of its current card from someone who only ever pressed with another one held |
| `VerificationRuns.ResendOvertakenByReset` | src/services/verification.ts:136-151 | a reset between the listing and a contact's turn: a proof goes up over a row that is no longer confirmed |
| `VerificationRuns.PressOvertakenByReset` | src/services/verification.ts:77-82 | a press on a screen that a reset has overtaken confirms the row after the reset |
| `VerificationProofs.UncalledRetryVouches` | src/app/verify/[id].tsx:187-205 | without the guard of the screen, which offers a retry on a locally confirmed row that waits for the peer, a retry would send a proof that rests on no press |
| `VerificationProofs.RecordsOnlyOwnProof` | src/services/verification.ts:105-123 | nothing but a proof of one's own card records a peer confirm |
| `VerificationConverges.ConfirmAndReplyVerify` | src/services/verification.ts:112-131 | both pressed with current cards: one delivered confirm and its reply leave both verified once the reply has gone out and arrived, and they stay so until a reset, a loss, or a read overtaken by a write |
| `VerificationConverges.ConfirmsEcho` | src/services/verification.ts:112-120 | two verified people answer each other's confirm for ever: the exchange does not fall quiet |
| `Verifier.Service.SetLocalConfirmed` | src/db/repos/contacts.ts:145-153 | by id: the local timestamp, and verified when the peer's is there |
| `Verifier.Service.SetPeerConfirmed` | src/db/repos/contacts.ts:155-163 | by id: the peer's timestamp, and verified when the local one is there |
| `Verifier.Service.ResetVerification` | src/db/repos/contacts.ts:127-134 | by id: both timestamps, the status and the held prekeys cleared |
| `Verifier.Service.SendConfirm` | src/services/verification.ts:160-168 | up to its await: at most one per run unless it failed, only with a complete card, the proof computed from the row given |
| `Verifier.Service.Sealed` | src/services/verification.ts:168-180 | after sealing: on its way, or the guard given back and the error shown |
| `Verifier.Service.Sent` | src/services/verification.ts:180-187 | after the relay: acknowledged or not, and arrived either way or not |
| `Verifier.Service.ConfirmVerification` | src/services/verification.ts:77-88 | the press recorded, the send still due |
| `Verifier.Service.HandleInboundConfirm` | src/services/verification.ts:97-124 | checked against one's own card, recorded once, an answer due when pressed |
| `Verifier.Service.GoOn` | src/services/verification.ts:88-131 | past those awaits: a press sends if there is a session, an answer clears the guard first |
| `Verifier.Service.ResendTurn` | src/services/verification.ts:145-149 | a contact's turn, on the row as listed: sent again while the peer's confirm is missing and a session exists |
| `Verifier.Service.FlushDeferredConfirm` | src/services/verification.ts:155-158 | a deferred confirm goes out while the peer's is missing |
| `Verifier.Service.RetryConfirm` | src/services/verification.ts:48-53 | guard and error dropped, sent again |
| `Verifier.Service.HandleIdentityChange` | src/services/messaging.ts:909-912 | verification reset, session and guards forgotten |
| `Verifier.Service.AddContactFromCard` | src/services/contacts.ts:86-163 | own card refused; the relay compared unless told not to; a changed identity starts over; the initiator gets a session or the scan is invalid; the row stored with what was read of it, or the write clashes |
| `Verifier.Service.RemoveContact` | src/services/contacts.ts:179-184 | row, session and guards gone |
| `Verifier.ResendPendingConfirms` | src/services/verification.ts:136-151 | nothing while locked; otherwise every contact's turn in the order listed, each run to its end |

## Left out

General assumptions:

- Everything below the sockets, the database engine, the keystore, push, CallKit and the user interface.
- Numbers are unbounded integers; the 32 bit shift accumulator and the UTF-16 and byte ranges are explicit.
- A failing SQL statement or keystore call in the middle of an operation is not distinguished from a crash there.

Calls:

- CallController.Controller.OnAppLocking: one step, as it runs when nothing comes between its awaits; `CallLocking` says what it does otherwise, and the other call theorems are about runs in which nothing does.
- CallPair.CallerIsNeverAlone: the channels lose and duplicate nothing, ids are fresh, and other parties signal anything under their own handles only.
- CallAlone.CalleeIsAloneExactly: under the same assumptions on channels and ids.
- Glare.GlareAgrees: before the offers are settled each user places only this one call, every step of placing and answering succeeds, media does not fail, nobody else signals, and there is no hang up, decline, lock, timeout or stale offer; `CallAlone` says what holds of a callee without all that, and `CallAloneRuns` what a hang up does.
- CallHistory.HonestRunKeepsOneRowEach: assumes call ids unique to their initiator; a repeated offer for the live incoming call takes the busy branch as in the code.
- A state listener that answers from inside the change notification (auto answer from the system call screen), snapshots, the retry of signals and the timeout around sending beyond its outcome.
- Call ids are compared character by character in code point order; the order of UTF-16 units is the same for the ids in use.

Relay:

- RelayProofs.FirstSentInOrder: a frame handed to an open socket counts as sent, whether or not the client is authenticated on it and the relay reads it.
- RelayProofs.StepKeepsValid: promise reactions run before the next handler or timer, and no frame arrives before a first socket was made.
- RelayConservation.NothingLostWithOneLoop: the single-loop condition is not enforced by the code; `ExclusiveIsExact` says when it is left.
- Registration, attestation, heartbeat, backoff delays, waiters for readiness and the setting that turns reconnecting off.

Images and messages:

- ImageProofs.ImageIsExact: nobody but the sender announces the ref or stores a row under it; chunks and deletes under it from other conversations are covered.
- ImageSend.SentImageArrives: nothing is swept or retracted after the last announcement.
- The layout facts and read state of a stored row; what the key pair of a lock does is part of the chat lock model.
- Decryption, the sender gates and acknowledgements of the receive path, text and system messages, the serial receive chain, wake hints; a crash between decryption and the row insert loses the message in the program, and nothing here claims otherwise.
- ImageCodec.Sha256B64OfB64: the yields between slices change no state and are omitted.

Retention:

- RetentionConvo.Conversation.RequestRetention: the awaits inside a request, an accept, a cancel and the receipt of one (reading the row, writing it, logging, sending) are merged into one step; two of them interleaved on one device are not modelled.
- Retention.OneProposerAgrees: no conversation row is deleted and both rows exist with the same value at the start.
- Screenshot protection: the same negotiation on a flag.

Chat lock:

- ChatLockWindow.NothingIsLost: one of enabling, disabling, deleting everything, changing the code or the biometric copy at a time on a conversation, a repeated insert of an id carries the same text, and enabling starts from an unlocked chat.
- ChatLockPasses.Locks.UnsealHistory: sealed rows have bodies; `BodilessRowBlocksUnseal` says why the pass would not end otherwise.
- Other conversations (all state is per conversation), the keystore index beyond this conversation's flag, ephemeral keys and nonces.

Lockout:

- Lockout.GuessBound: attempts one after another, a monotone clock, and counters that reached storage before the app was killed.

Sessions:

- SessionProofs.PerPeerLinearizable: the backend is deterministic in the records it is given, and provisioning and wiping the store do not happen meanwhile.
- Safety numbers and emoji strings.

Verification:

- VerificationProofs.RecordedConfirmIsSound: the hash is taken to be collision free; nothing in progress outlives the deletion of the account.
- Verifier.Service.HandleIdentityChange: the awaits inside a reset, inside a removal, and inside a scan after it has read the row are merged.
- Verifier.ResendPendingConfirms: the loop as it runs when nothing comes between; the interleavings of one contact's turn are those of the machine.
- Display names, safety numbers and the muted flag of a contact.
- The timeline rows and change notifications of the exchange.
