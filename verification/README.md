# cpms, verified

cpms is a charge point management system for a single operator: stations connect to it over
OCPP 1.6 on WebSockets, it keeps their status and transactions, and it sends them commands. This
project models the concurrent core of that program in Dafny and proves what the core promises.

Concurrent parts are state machines. One step is one critical section or one channel operation, a
run is any sequence of enabled steps, and every theorem is about every run. Where the program is
an object whose methods change its fields there is also a class with those fields; its ghost
fields follow the machine, so what is proved of every run holds of the object.

| file | what it covers |
|---|---|
| `Text.dfy` | decimal numbers as text, blank strings |
| `Frame.dfy` | OCPP-J framing, sections 4.2.1 to 4.2.3 of the OCPP-J 1.6 specification, over JSON values |
| `Rpc.dfy` | one connection: callers, reader, handler, writer, pending map, two bounded queues, one close |
| `RpcCalls.dfy`, `RpcOrder.dfy`, `RpcDrain.dfy`, `RpcEnds.dfy` | outbound calls against any peer; inbound order; shutdown; how loops and calls end |
| `Duplex.dfy` | two connections joined by FIFO wires |
| `Conn.dfy` | the connection object |
| `Registry.dfy` | the server's registry of live connections, as a machine and as an object |
| `Config.dfy` | EVSE validation, lookups, uids |
| `Core.dfy`, `CoreStatus.dfy`, `CoreEvents.dfy`, `CoreTx.dfy`, `CoreLog.dfy`, `CoreList.dfy`, `CoreService.dfy` | the domain state, its laws and its object |
| `V16.dfy`, `V16Records.dfy` | the OCPP 1.6 adapter; what each message leaves behind in the core |
| `Bus.dfy`, `Follower.dfy` | the event bus, as a machine and as an object; what a subscriber can rebuild |
| `StateFile.dfy`, `Store.dfy` | the state file, crashes, the store and its objects on the heap |
| `Session.dfy`, `SessionLaws.dfy`, `Sessions.dfy`, `Reservations.dfy`, `Simulator.dfy` | the station simulator together with the core |
| `EndToEnd.dfy`, `Projection.dfy`, `Witness.dfy` | simulator, two connections, adapter and core as one system |
| `Watchdog.dfy` | the heartbeat watchdog over timed runs |

## What the proofs found

Where the program does not keep a law that one might expect, the project keeps the program as it
is, exhibits a run or an input, and proves exactly when the law does hold.

- Registry: the registry change and the note to the core are separate steps, so a station can be
  called offline while its new connection is registered, and online for good while none is
  (`Registry.OrderNeeded`, `Registry.StuckOnline`). With the notes in registry order and none
  outstanding the two agree (`Registry.OnlineMatchesRegistry`).
- Status cache: a transaction or meter reading adds an EVSE without re-deriving, so it reads
  UNKNOWN at a faulted station until the next change (`CoreStatus.PlainLawExactly`,
  `CoreStatus.PlainLawFails`).
- Addressing: a configured uid may spell the uid made up for an unmapped connector, and then, and
  only then, two connectors share a uid (`Config.SharedIffClash`; `Config.ValidatedYetShared` is a
  validated configuration that does it).
- Sessions: a start is checked before, not when, its answer arrives, so a second start can write
  over a running session, which then stays open in the core for ever (`Sessions.OverlapDisplaces`,
  `Sessions.StoppableExactly`, `Sessions.DisplacedNeverCloses`).
- Reservations: the comment in `internal/simulator/handlers.go:99` says an outlet already held
  cannot be reserved, but the code has no such check. Right after a reservation another is always
  accepted and the first is gone (`Reservations.HeldAgain`, `Reservations.FirstReservationLost`);
  a held outlet refuses, and a reservation is lost, exactly as `Reservations.HeldRefusesExactly`
  and `Reservations.HeldExactlyUntilDecided` say.
- Event order: publishes hold only a read lock, so two that overlap may reach a subscriber in
  either order (`Bus.ReversedRun`, `Bus.OverlapCanReverse`); those that do not overlap arrive in
  publish order (`Bus.BusConservation`, `Bus.PublishedInOrder`).
- Heartbeats: the station's loop ends for good with the first call that is not answered within
  its 30 seconds, so a slow network silences it (`Watchdog.SlowNetworkSilences`). The station also
  has a read deadline of 24 hours of its own: with an interval of a day or more, which validation
  accepts, it hangs up before it beats (`Watchdog.DayLongIntervalLoses`). `Watchdog.SafeExactly`
  says exactly when a station is never lost, `Watchdog.DroppedExactly` when the server is the one
  to drop it.
- Watchdog: a heartbeat interval below a second passes validation and is handed out as 0; the
  station then beats at its 60 second fallback and is dropped unless the timeout is longer
  (`Watchdog.ValidationSufficesExactly`, `Watchdog.SubSecondIntervalDrops`).
- Store: a copy turns the registration's empty lists into nil and its own nil lists into empty
  ones; it is the very same value exactly when there is neither (`StateFile.CloneKeepsContent`,
  `StateFile.CopyDiffers`).
- Framing: a CALL with an empty action is sent by the encoder and refused by the parser
  (`Frame.CallRoundTrip`); its caller is told of that refusal and of nothing else
  (`Duplex.EndToEndCorrelation`).

## Model

| member | source | states |
|---|---|---|
| `Text.DecimalInjective` | internal/ocpp/ocppj/conn.go:162-162 | different numbers have different decimal texts, so message ids made from a counter never collide |
| `Text.DecimalReads` | internal/ocpp/ocppj/conn.go:162-162 | a number is read back, digit by digit, from its text, which has no needless zero in front |
| `Text.IntTextInjective` | internal/core/service.go:198-205 | the same for signed connector numbers |
| `Frame.CallRoundTrip` | internal/ocpp/ocppj/frame.go:55-143 | an encoded CALL parses back to the same id, action and payload if and only if id and action are not empty |
| `Frame.CallResultRoundTrip` | internal/ocpp/ocppj/frame.go:100-157 | an encoded CALLRESULT parses back to the same id and payload, a nil payload as an empty object |
| `Frame.CallErrorRoundTrip` | internal/ocpp/ocppj/frame.go:108-172 | an encoded CALLERROR parses back to the same id, code and description |
| `Frame.ParseNormalises` | internal/ocpp/ocppj/frame.go:55-131 | whatever was accepted, nulls and odd members included, re-encodes and parses to the same frame; a refusal is answered under an id that is never empty |
| `Frame.ParsedExactly` | internal/ocpp/ocppj/frame.go:55-131 | which arrays are CALL, CALLRESULT and CALLERROR, by type, length and readable members, and what each is read as |
| `Frame.RefusedExactly` | internal/ocpp/ocppj/frame.go:55-131 | under which id and for which defect any other message is refused |
| `Frame.EncodedExactly` | internal/ocpp/ocppj/frame.go:134-172 | the array each encoder puts on the wire, nil as an empty object, and nothing exactly if a value has no encoding |
| `RpcCalls.PendingAccounting` | internal/ocpp/ocppj/conn.go:161-212 | in every reachable state the pending keys are exactly the ids of the calls between registration and return, so with none in flight the map is empty |
| `RpcCalls.AnsweredByFirstResponse` | internal/ocpp/ocppj/conn.go:161-309 | against any peer, an answer a call returns is the first response with its id looked up after it registered |
| `RpcCalls.CompletesOnce` | internal/ocpp/ocppj/conn.go:161-199 | a call's outcome, once decided, survives every continuation of the run |
| `RpcCalls.ResponsesDoNotCross` | internal/ocpp/ocppj/conn.go:282-309 | a response leaves every call with another id as it was; one with no pending call changes nothing |
| `RpcCalls.CallsAlways` | internal/ocpp/ocppj/conn.go:161-309 | every run keeps the invariant relating pending map, calls, answer slots and lookups |
| `RpcOrder.HandledInArrivalOrder` | internal/ocpp/ocppj/conn.go:261-363 | handled CALLs are a prefix of the well-formed CALLs received, the queues stay within 32 and 64, frames leave in the order queued |
| `RpcOrder.AnsweredInArrivalOrder` | internal/ocpp/ocppj/conn.go:313-363 | responses are queued in arrival order, never doubled, each with its CALL's id and its handler's answer; while open none is missing but the one being queued |
| `RpcOrder.OrderAlways` | internal/ocpp/ocppj/conn.go:261-397 | every run keeps the invariant relating messages received, handled and queued |
| `RpcDrain.StepDrains` | internal/ocpp/ocppj/conn.go:175-397 | every step of a closed connection but a new call strictly decreases the work left |
| `RpcDrain.NobodyStuck` | internal/ocpp/ocppj/conn.go:175-198 | once closed, every unfinished caller and loop has a step of its own, whatever the queues hold |
| `RpcDrain.ShutdownDrains` | internal/ocpp/ocppj/conn.go:216-235 | from any reachable closed state every continuation is bounded, and one that cannot go on has Run returned and no pending entry |
| `RpcDrain.QuietReached` | internal/ocpp/ocppj/conn.go:224-235 | from every reachable closed state some continuation does get there |
| `RpcEnds.EndsClosed` | internal/ocpp/ocppj/conn.go:175-397 | over every run, a loop that has ended, a frame that was not written and a CALL not handed on mean the connection is closed; a call says "closed" only if it is, times out or is answered only if it was sent, and fails to encode exactly if its payload has no encoding |
| `Duplex.EndToEndCorrelation` | internal/ocpp/ocppj/conn.go:161-345 | with the same code at both ends and both using the same numbers, an answered Call was told exactly what the peer's handler produced for that id, action and payload |
| `Duplex.HandledAtMostOnce` | internal/ocpp/ocppj/conn.go:313-333 | the peer's handler runs at most once for a Call |
| `Duplex.RespondedExactly` | internal/ocpp/ocppj/conn.go:319-354 | what each answer is sent back as, an internal error for a value without an encoding included, and that nothing is sent exactly for an error whose details have none |
| `Duplex.PairAlways` | internal/ocpp/ocppj/conn.go:261-397 | what reached one end is a prefix of what the other wrote, and both ends keep their own laws |
| `Conn.Conn.constructor` | internal/ocpp/ocppj/conn.go:122-144 | a new connection is the machine's initial state |
| `Conn.Conn.Meanwhile` | internal/ocpp/ocppj/conn.go:261-264 | a frame arriving, a failing read or a ping sent touches none of the fields |
| `Conn.Conn.PendingCount` | internal/ocpp/ocppj/conn.go:208-212 | the count is the number of calls in flight |
| `Conn.Conn.NextId` | internal/ocpp/ocppj/conn.go:162-162 | the id taken is not pending |
| `Conn.Conn.Register` | internal/ocpp/ocppj/conn.go:169-173 | the call's channel goes into the pending map and nothing else changes |
| `Conn.Conn.Submit` | internal/ocpp/ocppj/conn.go:175-181 | whichever ready case the select takes: queued if there is room, or ended by the close or the context; otherwise it waits |
| `Conn.Conn.GiveUp` | internal/ocpp/ocppj/conn.go:175-198 | a closed, cancelled or timed-out call is left with that outcome and its entry to forget |
| `Conn.Conn.RefuseToEncode` | internal/ocpp/ocppj/conn.go:164-167 | a payload that cannot be encoded ends the call before it registers |
| `Conn.Conn.Collect` | internal/ocpp/ocppj/conn.go:184-198 | what the call takes is the first response for its id since it registered |
| `Conn.Conn.Forget` | internal/ocpp/ocppj/conn.go:201-205 | the entry of this call, and only that, is removed |
| `Conn.Conn.Close` | internal/ocpp/ocppj/conn.go:216-221 | closing twice is closing once |
| `Conn.Conn.Waiting` | internal/ocpp/ocppj/conn.go:296-304 | finds the call in flight with that id, if and only if one is pending |
| `Conn.Conn.Offer` | internal/ocpp/ocppj/conn.go:305-309 | a call that already holds a response keeps it |
| `Conn.Conn.ReadMessage` | internal/ocpp/ocppj/conn.go:261-291 | sorts a message into a refusal under the right id, a CALL to queue or a response to deliver |
| `Conn.Conn.QueueCall` | internal/ocpp/ocppj/conn.go:274-281 | whichever ready case the select takes: queued behind fewer than 64, or the reader leaves because of the close; otherwise it waits |
| `Conn.Conn.Refuse` | internal/ocpp/ocppj/conn.go:268-272 | whichever ready case the select takes: the refusal of a malformed frame is queued, or dropped because of the close, and nothing else changes |
| `Conn.Conn.Leave` | internal/ocpp/ocppj/conn.go:230-232 | once the reader returns the connection is closed |
| `Conn.Conn.TakeCall` | internal/ocpp/ocppj/conn.go:313-319 | the handler takes the oldest CALL |
| `Conn.Conn.Answer` | internal/ocpp/ocppj/conn.go:319-333 | the response carries the CALL's id and the answer, or an error for an answer that cannot be encoded |
| `Conn.Conn.Respond` | internal/ocpp/ocppj/conn.go:358-363 | whichever ready case the select takes: the response is queued, or dropped because of the close, and nothing else changes; otherwise the handler waits with it |
| `Conn.Conn.Stop` | internal/ocpp/ocppj/conn.go:313-318 | handler and writer leave once the connection is closed |
| `Conn.Conn.PingFails` | internal/ocpp/ocppj/conn.go:387-394 | a ping that cannot be written closes the connection |
| `Conn.Conn.WriteNext` | internal/ocpp/ocppj/conn.go:374-385 | the writer takes the oldest frame; a failed write closes the connection and ends the writer, a good one puts the frame on the wire |
| `Registry.Supersession` | internal/ocpp/csms/server.go:255-299 | the registry holds the connection registered last or nothing, every registered connection it does not hold is closed, Disconnected is reported at most once and only by a connection current at its exit |
| `Registry.OnlineMatchesRegistry` | internal/ocpp/csms/server.go:264-298 | online agrees with registered if and only if the last note and the last registry change are of one kind, which notes in order with none outstanding ensure |
| `Registry.OrderNeeded` | internal/ocpp/csms/server.go:276-298 | runs with nothing outstanding in which the two differ, each way round |
| `Registry.StuckOnline` | internal/ocpp/csms/server.go:264-298 | a station wrongly online stays so until it registers again |
| `Registry.SettledInOrder` | internal/ocpp/csms/server.go:264-298 | with nothing outstanding, notes in registry order are all of the registry changes |
| `Registry.Server.Accept` | internal/ocpp/csms/server.go:255-262 | a new connection enters unregistered and open |
| `Registry.Server.Enter` | internal/ocpp/csms/server.go:255-276 | up to Run: the connection is the registered one, the one it replaces is closed, every other is as it was, and the core was told |
| `Registry.Reconnect` | internal/ocpp/csms/server.go:264-273 | of two connections entering for one identity the first is closed and the second registered and open |
| `Registry.Server.RunReturns` | internal/ocpp/csms/server.go:278-278 | the connection is closed and the registry as it was |
| `Registry.Server.Exit` | internal/ocpp/csms/server.go:278-299 | from Run on: entry removed and core told exactly if the connection is still the registered one |
| `Registry.Server.Register` | internal/ocpp/csms/server.go:264-273 | the old connection is closed and replaced, others stay |
| `Registry.Server.Deregister` | internal/ocpp/csms/server.go:280-291 | the entry goes exactly if this connection still holds it |
| `Registry.Server.CloseAll` | internal/ocpp/csms/server.go:140-163 | afterwards every registered connection is closed, and the registry itself is unchanged |
| `Config.ValidateEvses` | internal/config/validate.go:225-265 | reports exactly the indices with a missing key, a connector below 1 or an earlier equal key, naming the first such index |
| `Config.CleanIffAddressed` | internal/config/validate.go:225-265 | no problem is due if and only if uids, eMI3 ids and connectors are present and pairwise distinct |
| `Config.EvseByUid` | internal/config/config.go:140-147 | the first EVSE with the uid, if there is one |
| `Config.EvseByConnector` | internal/config/config.go:151-158 | the first EVSE with the connector, if there is one |
| `Config.LookupsInverse` | internal/config/config.go:140-158 | in a validated configuration the two lookups undo each other |
| `Config.CommandAndReportAgree` | internal/ocpp/v16/chargepoint.go:162-168 | the connector a command goes to reports under the uid the command named |
| `Config.SyntheticInjective` | internal/core/service.go:198-205 | made-up uids are injective in charge point and non-negative connector |
| `Config.SharedIffClash` | internal/core/service.go:198-205 | two connectors of the station share a uid if and only if a configured uid spells the made-up uid of an unmapped connector |
| `Config.ValidatedYetShared` | internal/config/validate.go:225-265 | charger "cp" with one EVSE "cp-2" on connector 1 passes, and connectors 1 and 2 share a uid |
| `Core.Recompute` | internal/core/service.go:161-181 | the loop leaves the effective map and the events that re-deriving each EVSE in order gives |
| `CoreStatus.CacheEqualsHistory` | internal/core/service.go:148-389 | after any history the cached status is effectiveStatus of the last connect, the last station status and the last report, unless the EVSE is newly known |
| `CoreStatus.ReadsExactly` | internal/core/status.go:37-49 | what a listed EVSE reads, case by case: UNKNOWN offline, the station's OUTOFORDER or INOPERATIVE, else exactly the status last reported for it |
| `CoreStatus.PlainLawExactly` | internal/core/service.go:320-389 | the cache differs from the derived status exactly for an EVSE added by a transaction or reading, not re-derived since, at a station online and faulted or inoperative |
| `CoreStatus.PlainLawFails` | internal/core/service.go:376-389 | a history in which it does differ |
| `CoreStatus.FreshIsUnreported` | internal/core/service.go:320-389 | a newly known EVSE has never reported |
| `CoreEvents.ReplayRebuilds` | internal/core/service.go:161-181 | per EVSE the committed changes chain from UNKNOWN, never from a status to itself, and folding them rebuilds the effective map |
| `CoreEvents.StreamMirrors` | internal/core/service.go:148-317 | after every operation the cached statuses are the replayed ones |
| `CoreTx.TableEqualsHistory` | internal/core/service.go:320-372 | ids are 1, 2, 3 in start order, each under the one charge point that started it, with that start's data, closed by exactly its first stop from there |
| `CoreTx.StartAndStopFinal` | internal/core/service.go:320-372 | in every continuation an id keeps its start, and its stop once it has one |
| `CoreTx.StopSucceedsExactly` | internal/core/service.go:348-372 | a stop succeeds if and only if this charge point started the id and has not stopped it |
| `CoreTx.RecordSays` | internal/core/service.go:320-372 | a record field by field: id, uid, connector, tag and reading of its start, timed by the station's report unless that is zero; reading, reason and time of its first stop, or none |
| `CoreLog.CommitsExactly` | internal/core/service.go:214-389 | what each operation publishes: the connection or station event first and then only EVSE changes with the last error code, one Started, one Stopped if a transaction was running, one Metered, or nothing |
| `CoreLog.LastNewsIsTrue` | internal/core/service.go:214-248 | after any history the last Connected or Disconnected event about a charge point says "connected" if and only if it is online |
| `CoreList.ListedOnce` | internal/core/service.go:148-155 | under a validated configuration each known EVSE is listed once, under a connector that goes by its uid, configured ones first, and the list only grows at its end |
| `CoreService.Service.constructor` | internal/core/service.go:108-146 | a new service is the empty history: configured EVSEs, all UNKNOWN |
| `CoreService.Service.Ensure` | internal/core/service.go:186-193 | gives the charge point's state after the history so far |
| `CoreService.Service.Connected` | internal/core/service.go:214-227 | extends the history by a connect and commits its events |
| `CoreService.Service.Disconnected` | internal/core/service.go:232-248 | extends the history by a disconnect; already offline commits nothing |
| `CoreService.Service.SetConnectorStatus` | internal/core/service.go:291-317 | extends the history by the report, connector 0 being the station |
| `CoreService.Service.StartTransaction` | internal/core/service.go:320-344 | returns an id no earlier start was given, records every field, the reported time unless it is zero, and commits Started |
| `CoreService.Service.StopTransaction` | internal/core/service.go:348-372 | returns the closed record, with reading, reason and time, exactly for a running transaction of this charge point, and commits Stopped for it and nothing otherwise |
| `CoreService.Service.RecordMeterValues` | internal/core/service.go:376-389 | extends the history by the reading |
| `CoreService.Service.Seen` | internal/core/service.go:251-284 | makes the charge point known and moves nothing |
| `V16.HandleCall` | internal/ocpp/v16/handler.go:54-250 | a refused message leaves the core untouched, any other performs exactly its one operation |
| `V16.Begin` | internal/ocpp/v16/handler.go:149-176 | a known tag is answered with a fresh id, any other with 0 and no transaction |
| `V16.AdvertisedAvailability` | internal/ocpp/v16/handler.go:111-122 | over all inputs, a reported EVSE reads AVAILABLE if and only if the station is connected, has not last called itself Faulted or Unavailable, and last called the connector Available, Preparing or Finishing |
| `V16.AdvertisedStatus` | internal/ocpp/v16/status.go:33-52 | over all inputs, the exact status a reported EVSE reads, for each of the nine connector statuses and for a faulted, unavailable or disconnected station |
| `V16.RefusedExactly` | internal/ocpp/v16/messages.go:79-155 | which messages are refused and with which error code |
| `V16Records.StartRecorded` | internal/ocpp/v16/handler.go:149-176 | a known tag opens exactly one transaction under the next id with the message's data and time, or the handling time if that did not parse; any other tag changes nothing |
| `V16Records.StopRecorded` | internal/ocpp/v16/handler.go:178-192 | closes the running transaction it names with the message's reading, reason and time, and changes nothing otherwise |
| `V16Records.ReadingRecorded` | internal/ocpp/v16/handler.go:194-202 | makes the EVSE known and commits exactly a Metered event |
| `V16Records.OthersRecorded` | internal/ocpp/v16/handler.go:79-141 | every other accepted message only makes the charge point known |
| `V16.ValidatedUnshared` | internal/core/service.go:198-205 | in a validated configuration without a uid clash no connector shares its uid, so the above applies |
| `V16.OtherMessagesMoveNothing` | internal/ocpp/v16/messages.go:114-125 | a refused message, or one that is no status report, changes no status |
| `V16.MappedAvailable` | internal/ocpp/v16/status.go:33-52 | which wire statuses mean available and which mean out of service |
| `Bus.BusConservation` | internal/core/event.go:115-145 | taken plus buffered is an in-order selection of the offers, accepted plus dropped is offered, the buffer is at most 256, with no publish under way that is the number published while subscribed, and an offer precedes that of an earlier publish only if the two publishes overlapped |
| `Bus.LostOnlyWhenFull` | internal/core/event.go:138-144 | an offer is buffered if fewer than 256 events are, else counted as a drop, and no other subscriber notices |
| `Bus.PublishedInOrder` | internal/core/event.go:134-145 | where no publishes overlap, taken plus buffered is a subsequence of the events published since subscribing, in publish order |
| `Bus.OverlapCanReverse` | internal/core/event.go:134-145 | from any reachable state two publishes that both owe a subscriber can be offered to it in reverse, and with room for both are buffered so |
| `Bus.ReversedRun` | internal/core/event.go:134-145 | the shortest run that leaves the second event buffered before the first |
| `Follower.NothingMissed` | internal/core/event.go:115-145 | without overlap and drops, taken plus buffered is exactly what was published since subscribing |
| `Follower.FollowerRebuilds` | internal/core/service.go:161-211 | if moreover events are published in commit order, folding them over the statuses at subscription gives every EVSE the status it has now |
| `Bus.NeverSendsOnClosed` | internal/core/event.go:115-145 | no interleaving of publish and cancel sends on a closed channel |
| `Bus.EventBus.Subscribe` | internal/core/event.go:115-123 | a new empty buffer, the others unchanged |
| `Bus.EventBus.Cancel` | internal/core/event.go:124-131 | unsubscribes and closes once; again does nothing |
| `Bus.EventBus.Publish` | internal/core/event.go:134-145 | every subscriber gets the event, or a drop is counted if its buffer is full |
| `Bus.EventBus.Receive` | internal/core/event.go:115-123 | the oldest buffered event leaves |
| `StateFile.NormalizeIdempotent` | internal/state/state.go:111-130 | normalising twice is normalising once; it keeps counters and every entry in order, changing only how instants are written |
| `StateFile.CloneKeepsContent` | internal/state/state.go:94-105 | a copy has the same content, and is the same value if and only if no list is nil or empty where the copy differs |
| `StateFile.CopyDiffers` | internal/state/state.go:94-105 | two states whose copies differ from them in a nil or empty list |
| `StateFile.WrittenIsRead` | internal/state/store.go:54-81 | an encodable normal state is read back as it was |
| `StateFile.OpensExactly` | internal/state/store.go:54-81 | a file opens if and only if it is JSON of version exactly 1 whose body decodes, and then as the normal form of that body; which error every other content gets |
| `StateFile.YearsExactly` | internal/state/store.go:137-140 | the instants the encoder accepts are those of the years 0 to 9999 |
| `Store.CrashConsistency` | internal/state/store.go:117-179 | after any updates, failures, crashes and restarts the file is the one found first or one complete committed state, and opening yields exactly the last commit or what was found |
| `Store.AtomicVariable` | internal/state/store.go:107-132 | only the rename changes the stored value; with no update under way memory, stored value and file agree |
| `Store.UnreadableKept` | internal/state/store.go:29-50 | a file that does not open is never overwritten |
| `Store.OtherVersionsKept` | internal/state/store.go:29-67 | over every run a file of a newer, an older or no version is still there unchanged |
| `Store.OnlyRenameTouches` | internal/state/store.go:136-179 | no other step touches the state file |
| `Store.RegistrationObject.CloneObject` | internal/state/state.go:98-103 | a deep copy of the registration on fresh objects |
| `Store.StateObject.Empty` | internal/state/state.go:89-91 | the empty state on fresh objects |
| `Store.StateObject.CloneObject` | internal/state/state.go:94-105 | a deep copy: everything the copy reaches is fresh |
| `Store.StateObject.NormalizeObject` | internal/state/state.go:111-130 | in place, the state becomes its normal form |
| `Store.NormalizeReservations` | internal/state/state.go:111-130 | the loop puts every reservation's times into normal form, in place |
| `Store.NormalizeTransactions` | internal/state/state.go:111-130 | likewise every transaction's start |
| `Store.StateStore.Get` | internal/state/store.go:107-111 | same content, sharing nothing with the store, which is as it was |
| `Store.StateStore.Write` | internal/state/store.go:136-179 | succeeds exactly when no operation fails, and then the file is the new state; otherwise the file is what it was; no other file changes, and the temporary one is gone unless removing it fails |
| `Store.StateStore.Update` | internal/state/store.go:117-132 | succeeds if and only if the change does, its normal form can be encoded and nothing up to the rename fails; then file and memory hold the normal form, memory on fresh objects; otherwise neither changed |
| `Store.ScribbleOverCopy` | internal/state/store.go:102-132 | a caller that keeps what Get gave it, lets the store change and writes to all its copy reaches does not change the store |
| `Store.OpenStore` | internal/state/store.go:32-50 | a store exactly if the read is not denied and there is no file or one of version 1 whose body decodes, holding what that file says; a newer version is reported as such |
| `Sessions.OneStopPerSession` | internal/simulator/handlers.go:394-415 | over all runs, concurrent stops included, at most one StopTransaction per id, each for a session the core opened at that connector |
| `Sessions.EveryStopCloses` | internal/ocpp/v16/handler.go:178-192 | every stop that arrives finds its transaction running and closes it with its own reading and reason |
| `Sessions.ClosedSessionsDeliver` | internal/simulator/handlers.go:344-425 | every closed transaction of the station has meterStop at least meterStart + 1000 and was closed by the stop sent for it |
| `Sessions.SessionsAccounted` | internal/simulator/handlers.go:344-425 | each of the station's transactions is in exactly one place: unheard of, on its connector, in a stop, or written over; it is open unless its stop arrived |
| `Sessions.MeterCountsSessions` | internal/simulator/handlers.go:401-406 | a connector's meter is 1000 times the sessions stopped there |
| `Sessions.StoppableExactly` | internal/simulator/handlers.go:382-386 | every session taken can still be stopped if and only if no accepted answer arrived at a busy connector |
| `Sessions.OverlapDisplaces` | internal/simulator/handlers.go:344-391 | two starts on one connector in which the first session is written over |
| `Sessions.DisplacedNeverCloses` | internal/simulator/handlers.go:382-406 | a session written over stays open in the core in every continuation |
| `Reservations.OutletEqualsHistory` | internal/simulator/handlers.go:93-154 | in every run an outlet's status, session, reservation and meter are what the last steps concerning it say |
| `Reservations.HeldRefusesExactly` | internal/simulator/handlers.go:99-113 | a held outlet refuses a reservation if and only if it is in a session or was last called Charging, Preparing, Faulted or Unavailable |
| `Reservations.HeldAgain` | internal/simulator/handlers.go:99-113 | after any reservation another is accepted at once and replaces it |
| `Reservations.FirstReservationLost` | internal/simulator/handlers.go:112-113 | a run in which no outlet carries the first of two accepted reservations |
| `Reservations.HeldExactlyUntilDecided` | internal/simulator/handlers.go:112-154 | unless it is made again, a reservation is still carried if and only if nothing was reserved, cancelled or started at that connector since |
| `Projection.StoryIsRun` | internal/simulator/handlers.go:344-425 | every story of simulator, connections, adapter and core is a run of the session model: each call is handled at most once and told its own answer |
| `Projection.SessionsEndToEnd` | internal/simulator/handlers.go:394-425 | over the wire too, no two stops are for one transaction, and every closed one was closed by a stop from its connector with at least 1000 delivered |
| `Projection.ServedStopCloses` | internal/ocpp/v16/handler.go:178-192 | every StopTransaction the server handles names a running transaction and closes it with its own reading and reason |
| `Projection.AnswersOneCall` | internal/ocpp/ocppj/conn.go:313-333 | the CALL being answered is one call of the station that was not answered before |
| `Witness.SessionHappens` | internal/simulator/handlers.go:344-391 | with a known tag and a connector, a start does travel through both connections and its id ends up on the outlet |
| `EndToEnd.StartRead` | internal/ocpp/v16/messages.go:138-144 | the server reads the start request the station encoded |
| `EndToEnd.PayloadNames` | internal/ocpp/v16/messages.go:138-175 | the field names of the start request, the stop request and the start answer |
| `EndToEnd.StopRead` | internal/ocpp/v16/messages.go:164-170 | the server reads the stop request the station encoded |
| `EndToEnd.ReplyRead` | internal/ocpp/v16/messages.go:158-161 | the station reads the id and the decision the server encoded |
| `SessionLaws.Always` | internal/simulator/handlers.go:344-425 | every run keeps the joint invariant of outlets, attempts, stops, meters and the core's table |
| `Session.AnswersExactly` | internal/simulator/handlers.go:99-111 | when a reservation is refused as occupied, faulted or unavailable, and when it is accepted |
| `Simulator.Simulator.constructor` | internal/simulator/simulator.go:192-210 | connectors 1 to n, idle, with the fallback heartbeat |
| `Simulator.Simulator.Boot` | internal/simulator/simulator.go:323-349 | the period becomes the interval handed out if that is positive, else stays |
| `Simulator.Simulator.SetConnectorStatus` | internal/simulator/simulator.go:416-435 | sets the station's or one outlet's status; an unknown connector changes nothing |
| `Simulator.Simulator.ReserveNow` | internal/simulator/handlers.go:93-122 | which answer each state of the outlet gets; only an accepted one changes it |
| `Simulator.Simulator.CancelReservation` | internal/simulator/handlers.go:131-153 | accepted if and only if some outlet carries the id, and then one such outlet is freed |
| `Simulator.Simulator.FirstFreeConnector` | internal/simulator/handlers.go:330-340 | the lowest-numbered outlet without a session, if there is one |
| `Simulator.Simulator.RemoteStart` | internal/simulator/handlers.go:162-176 | the outlet named, or the one found free earlier, or 1; accepted if and only if it has no session at the time of the check |
| `Simulator.Simulator.RemoteStartAnywhere` | internal/simulator/handlers.go:165-176 | with nothing between the search and the check, accepted if and only if some outlet is free |
| `Simulator.Simulator.RemoteStop` | internal/simulator/handlers.go:193-212 | accepted if and only if the session runs here, and then for the one outlet it runs on |
| `Simulator.Simulator.BeginStart` | internal/simulator/handlers.go:344-368 | records an attempt with the meter reading and the tag sent, an empty one being the station's own |
| `Simulator.Simulator.FinishStart` | internal/simulator/handlers.go:377-386 | an accepted id goes on the outlet and uses up its reservation; a refusal changes nothing |
| `Simulator.Simulator.BeginStop` | internal/simulator/handlers.go:395-406 | takes the id off the outlet with the meter moved on; the id is in no earlier stop |
| `Watchdog.HeartbeatProblems` | internal/config/validate.go:76-85 | no problem if and only if 0 < interval < timeout |
| `Watchdog.DroppedExactlyAtDeadline` | internal/ocpp/ocppj/conn.go:240-266 | over all timed runs the deadline is the last message plus the timeout, pings and pongs notwithstanding, and a drop happens at that moment |
| `Watchdog.SilentPeerDropped` | internal/ocpp/ocppj/conn.go:244-266 | a peer silent past that moment, and not gone by itself, was dropped at exactly it |
| `Watchdog.SafeExactly` | internal/simulator/simulator.go:253-398 | in no run, whatever else is said, is a station dropped, silenced or gone by itself, if and only if period plus longest way there and back is below the server's timeout and below the station's 24 hours, and the way there and back below its 30 seconds |
| `Watchdog.DroppedExactly` | internal/ocpp/ocppj/conn.go:240-266 | a station that says nothing but its calls is never dropped by the server if and only if no beat can be overdue, and no slow call silence it, while the station still listens |
| `Watchdog.DayLongIntervalLoses` | internal/simulator/simulator.go:256-260 | an interval of a day passes validation, the station's own reader gives up at 24 hours, and the server never drops it |
| `Watchdog.SlowNetworkSilences` | internal/simulator/simulator.go:253-262 | a round trip of 40 seconds ends the heartbeat loop at its first beat, and the server drops the station after its 150 seconds |
| `Watchdog.PunctualStationKept` | internal/ocpp/v16/handler.go:99-103 | under a validated configuration with an interval of a second or more, never lost while interval plus round trip is below the timeout and below a day, and the round trip below 30 seconds |
| `Watchdog.ValidationSufficesExactly` | internal/config/validate.go:80-85 | a validated configuration never loses a station on an instant network if and only if the interval is at least a second and below a day, or below a second with a timeout above 60 seconds |
| `Watchdog.SubSecondIntervalDrops` | internal/config/validate.go:76-85 | 500 ms with a timeout of 1 s passes validation and drops an ideal station |
| `Watchdog.WholeSeconds` | internal/simulator/simulator.go:342-346 | the station's period is the interval rounded down to seconds, or the fallback below one, and reaches a day exactly if the interval does |
| `Watchdog.PingPeriod` | internal/ocpp/ocppj/conn.go:367-370 | pings come before the deadline if and only if the timeout is above a second |

## Left out

- WebSocket, TCP, TLS, HTTP upgrade and listener code: the wire is a pair of FIFO sequences and a close.
- JSON and YAML as bytes: frames and states are values, and the state file's codec is taken to be an inverse on encodable normal states.
- Message ids after 2^64 calls: the counter is unbounded in the model, while the program's wraps around.
- CALLERROR details: parsed, and, as in the program, not delivered to the caller.
- Event timestamps, last-seen times, boot information, meter summaries, and the boot and heartbeat events: carried along by the program and read by no branch.
- A service built without a configuration, and the shape of core snapshots: easy members.
- `Bus.PublishedInOrder` is about the order in which publishes take the bus's read lock; events are published after the core's lock is released, so that order may differ from the commit order `CoreEvents.ReplayRebuilds` is about.
- Regular expressions, lengths, host names, coordinates, tokens and the rest of validation: single checks. The uniqueness loop and the heartbeat rule are modelled.
- Power-cut durability of the directory entry: depends on the operating system; process crashes are modelled.
- `Store.StateStore.Update` takes the change as a function of the copied value; a change that keeps a reference to its argument afterwards is not modelled.
- Which tags are known: a predicate; the program compares without regard to case.
- Clocks: readings are parameters. The transaction laws ask that a clock never returns the zero time; a process that restarts starts its ids at 1 again and is another run.
- `Watchdog.SafeExactly` takes the way to the server and the way back as two separate bounds, and readers that are not held up by a full call queue. `Watchdog.DroppedExactly` is about a station with no other traffic. A call counts as asked when it is queued. The rounding of very long intervals in floating-point seconds is not modelled.
- `Projection.StoryIsRun` takes it that nobody else sends transactions under the station's identity, that integers in payloads are unbounded and that field names match exactly.
- Simulator scenarios, UnlockConnector, TriggerMessage, GetConfiguration, ChangeAvailability and Reset: fixed replies. ChangeAvailability's effect is a SetConnectorStatus.
- The order in which Go ranges over a map: a parameter of the two searches that do.
- A registration that arrives while Shutdown runs: the loop closes the connections there are.
- MapCommandStatus and Capabilities: table lookups.
