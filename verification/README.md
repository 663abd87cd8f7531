# Majordomo and Paranoid Pirate patterns: a verification model

The repository implements several ZeroMQ patterns in C++. This project models the stateful ones
in Dafny and proves what they are for:

* the **Majordomo broker** (`mdbroker.cpp`) with its worker API (`mdwrkapi.hpp`) and client API
  (`mdcliapi.hpp`), which speak the ZeroMQ RFC 7/MDP protocol, and the 8/MMI service query;
* the **message class** `zmsg` (`zmsg.hpp`), its address envelopes, and the UUID text codec;
* the **Paranoid Pirate** queue and worker (`ppqueue.cpp`, `ppworker.cpp`);
* the **LRU load balancer** with its clients and workers (`lbbroker.cpp`).

## How the model is built

Code that changes fields in place is modelled by classes (`MajordomoBroker.Broker` with its
`Worker` and `Service` objects, `Zmsg.ZMsg`, `Mdwrk.Mdwrk`, `Mdcli.Mdcli`,
`PirateQueue.PirateQueue`, `PirateWorker.PirateWorker`, `LruBroker.LruBroker`). Each method is
proved to do to the fields what a function on values says (`BrokerSpec`, `MdwrkSpec`,
`PirateSpec`, `PirateWorker`, `LruSpec`), and the properties are proved of those functions, over
all runs. A failed assert, a null pointer that is followed, and `map::at` on a missing key are
outcomes of the functions (`Crash`, `Abort`, `Fails`, `Broken`), not preconditions, so that
"nothing fails" is a theorem.

A poll is what it brings, and a reading of the clock is a number; both are parameters. One turn of
an event loop takes a record of them, and a whole loop takes a list of such records.

| files | what they hold |
|---|---|
| `Bytes`, `Uuid`, `Frames`, `Zmsg`, `Mdp` | frames and C strings, the UUID codec, the message class, the protocol messages |
| `BrokerSpec`, `BrokerInvariants`, `BrokerRuns` | the broker on values, its invariants under any input, its runs |
| `BrokerConforming`, `BrokerWork`, `BrokerTimer` | the broker under input that mdwrk peers can send, who is given work, the heartbeat timer |
| `BrokerSends` | exactly which messages end the broker, and runs that end so |
| `BrokerCommands` | what each message does to the tables and what it makes the broker send, read off its frames |
| `MajordomoBroker` | the broker as linked objects |
| `MdwrkSpec`, `MdwrkRuns`, `Mdwrk`, `Mdcli` | the worker API, its messages and runs, and the client API |
| `Majordomo`, `MajordomoSafety`, `MajordomoAnswers`, `MajordomoRecovery` | the broker composed with any number of workers over FIFO channels |
| `EndToEnd` | one exchange over the frames of the REQ and ROUTER sockets |
| `PirateSpec`, `PirateRuns`, `PirateQueue`, `PirateWorker`, `PirateWorkerRuns` | the Paranoid Pirate queue and worker |
| `LruSpec`, `LruSafety`, `LruRuns`, `LruBroker`, `LruTurns` | the LRU protocol, and its broker's loop inside it |

## Main results

1. *Nothing fails, one piece of work per connection.* In every run of the broker composed with
   any number of mdwrk workers, with crashes, reconnects and losses, no assert fails and each
   connection has at most one request in flight, in work or in reply; an idle or unregistered
   identity has none (`MajordomoSafety.AtMostOneToken`).
2. *Answers fit questions.* In every such run in which the workers answer with a function f, the
   answers passed on from a connection are, in order, f of the requests given to it, each to the
   client that asked for that service, and only the last request given can lack an answer
   (`MajordomoAnswers.AnswersFitQuestions`).
3. *Conservation.* For every service, the requests accepted are those sent to workers, in order
   and unchanged, followed by those queued; no request waits beside a waiting worker
   (`BrokerRuns.RunFromStart`, `MajordomoAnswers.SystemConserves`).
4. *Which messages end the broker* is characterised exactly, for all messages and all tables a
   broker can have, by a condition on the message and the tables before it. It covers the asserts
   and null pointers of the handlers and the assert of zmsg::send, be it about a frame of the
   message itself or of a request queued long before (`BrokerSends.StepSurvivesExactly`).
5. *The linked objects do the same* (`MajordomoBroker.Broker.StartBrokering`).
6. *Framing.* A client gets back exactly f of its body, and no assert of the handlers or of
   zmsg::send fails on the way, if and only if neither the body nor the answer is empty and the
   request that waits longest for the worker meanwhile, if any, can be sent
   (`EndToEnd.EndToEnd`). This is for bodies and answers whose frames are not in the binary form
   of a UUID, and in its text form only in upper case.
7. *Paranoid Pirate.* The workers in the queue are exactly those that have come since their last
   request and are not too long silent; distinct identities, an assert in dequeue that cannot
   fail, bounded overtaking, exact purging, heartbeats and backoff (`PirateRuns`, `PirateSpec`,
   `PirateWorker`).
8. *LRU.* Every run is finite, nothing ever fails or deadlocks, and the loop ends exactly when
   every client has its one reply (`LruRuns.RunsAreBounded`, `LruRuns.RunsEndWithEveryReply`).
9. *Nobody is forgotten.* A worker the broker does not know is told so at its next heartbeat, opens
   a new connection and is taken up again (`MajordomoRecovery.ForgottenWorkersComeBack`); no
   heartbeat round that is due is missed, on either side (`MajordomoBroker.RoundsAreOnTime`,
   `MdwrkRuns.NoHeartbeatIsMissed`); a worker that hears from its broker keeps its connection
   (`MdwrkRuns.HeardWorkersStay`).

## Where the code differs from what it says

* The guard for internal services is meant for the prefix `mmi.`, but `find_first_of("mmi.") == 0`
  only looks at the first character (mdbroker.cpp:276, 378), so a service called `info` gets code
  501 and no worker (`BrokerRuns.ReservedIsWiderThanPrefix`, `BrokerCommands.ReservedIsAnswered`).
  In the READY handler the guard looks at the sender's identity instead of the service name.
* `mmi.service` about an unknown service does not answer 404: `map::at` throws
  (mdbroker.cpp:188; `BrokerSends.UnknownServiceThrows`). With `service::m_workers` never
  initialised (mdbroker.cpp:50-55), 0 is modelled.
* An unknown command leaves its sender registered with a null service; a REPLY from it then follows
  a null pointer (mdbroker.cpp:268, 292, 311; `BrokerSends.UnknownCommandThenReply`).
* A REPLY from an idle worker queues it twice (mdbroker.cpp:356-357). Nothing dangles even then
  (`BrokerInvariants.StepKeepsInv`); exactly when it happens is `BrokerConforming.ReplyKeepsTidyExactly`.
* `zmsg::send` asserts that a 33-byte part starting with '@' has no NUL (zmsg.hpp:91-92, 193). So a
  client can queue a request that ends the broker when the first worker for it comes
  (`BrokerSends.UnsendableRequestWaits`).
* After `mdcli::send` gives up, the socket still owes an answer. The next call's first transmission
  is refused, and if the first poll brings something, the call takes the answer to the earlier
  request for its own if the service is the same, and fails an assert if not; it takes its own
  exactly otherwise (`Mdcli.Mdcli.Send`).

## Model

| member | source | states |
|---|---|---|
| Bytes.CStrIsIdentityExactlyOnNulFree | Common/zmq/example/zmsg.hpp:143-150 | a part pushed as char* is kept whole exactly if it holds no NUL |
| Uuid.EncodeUuid | Common/zmq/example/zmsg.hpp:156-172 | the array loop computes the text form, with its terminating NUL |
| Uuid.DecodeUuid | Common/zmq/example/zmsg.hpp:179-204 | the array loop computes the binary form, table lookups with the top bit masked off included |
| Uuid.DecodeEncode | Common/zmq/example/zmsg.hpp:156-204 | decode(encode(d)) = d for every 17-byte d that starts with 0 |
| Uuid.EncodeDecode | Common/zmq/example/zmsg.hpp:156-204 | encode(decode(s)) is the upper case of s for '@' and 32 hex digits in either case |
| Uuid.EncodeDecodeExactly | Common/zmq/example/zmsg.hpp:156-204 | encode(decode(s)) = s exactly for the upper-case spelling |
| Zmsg.ZMsg.Recv | Common/zmq/example/zmsg.hpp:59-85 | the loop replaces the parts by the frames, binary UUIDs as text |
| Zmsg.ZMsg.Send | Common/zmq/example/zmsg.hpp:87-108 | the loop sends every part in order, text UUIDs as binary, and leaves the message empty |
| Zmsg.ZMsg.BodySet | Common/zmq/example/zmsg.hpp:114-119 | replaces the last part, or adds the first |
| Zmsg.ZMsg.PopFront | Common/zmq/example/zmsg.hpp:207-214 | returns the first part and keeps the others in order |
| Zmsg.ZMsg.Wrap | Common/zmq/example/zmsg.hpp:230-235 | puts address and, if given, delimiter in front |
| Zmsg.ZMsg.Unwrap | Common/zmq/example/zmsg.hpp:237-246 | takes off the address and one empty part after it |
| Frames.RelayExactly | Common/zmq/example/zmsg.hpp:59-108 | recv then send is the identity exactly on messages with no frame in UUID text form |
| Frames.DeliveryExactly | Common/zmq/example/zmsg.hpp:59-108 | send then recv is the identity exactly if text UUIDs are canonical and no part is in binary form |
| Frames.UnwrapUndoesWrap | Common/zmq/example/zmsg.hpp:230-246 | unwrap gives back the address up to its first NUL and the message, whatever its first part |
| Frames.EnvelopeStack | Common/zmq/example/zmsg.hpp:207-246 | k wraps and k unwraps return the addresses in reverse order and the original message |
| Frames.EnvelopeStackExactly | Common/zmq/example/zmsg.hpp:207-246 | the addresses come back unchanged exactly if none holds a NUL |
| Frames.BodySetIsLast | Common/zmq/example/zmsg.hpp:114-119 | the new body is the last part, and the parts before it are kept |
| Mdp.WorkerSendFrames | Common/zmq/example/mdbroker.cpp:324-346 | the frames of a message to a worker |
| Mdp.ClientSendFrames | Common/zmq/example/mdbroker.cpp:287-295 | the frames of an answer to a client |
| Mdp.EncodeIsSendable | Common/zmq/example/mdbroker.cpp:324-346 | the broker's own frames never make zmsg::send fail; only the payload can |
| Mdp.EncodedFrames | Common/zmq/example/mdp.h:9-19 | the four messages of the broker byte by byte |
| BrokerSpec.Best | Common/zmq/example/mdbroker.cpp:163-170 | the scan finds the latest expiry, and the earliest entry among equals |
| BrokerInvariants.DeleteTwice | Common/zmq/example/mdbroker.cpp:108-126 | deleting workers one after the other, in any order, is deleting them together |
| BrokerInvariants.DeleteAllKeepsInv | Common/zmq/example/mdbroker.cpp:230-254 | worker_delete removes every occurrence, keeps the counts exact and leaves nothing dangling |
| BrokerInvariants.AttachKeepsInv | Common/zmq/example/mdbroker.cpp:279-283 | a newly attached worker is counted once |
| BrokerInvariants.IdleKeepsInv | Common/zmq/example/mdbroker.cpp:351-358 | queueing a worker, idle or not, leaves nothing dangling |
| BrokerInvariants.SendOneKeepsInv | Common/zmq/example/mdbroker.cpp:161-178 | one round of the dispatch loop leaves nothing dangling |
| BrokerInvariants.DispatchBalances | Common/zmq/example/mdbroker.cpp:152-179 | after a dispatch no service has both a waiting worker and a waiting request, purges of other services included |
| BrokerInvariants.DispatchLoopOnce | Common/zmq/example/mdbroker.cpp:161-178 | with one worker or one request the loop body runs at most once |
| BrokerInvariants.StepKeepsInv | Common/zmq/example/mdbroker.cpp:388-440 | under any input: list entries and idle entries are registered workers of their service, idle ones are listed, counts are exact |
| BrokerInvariants.StepBalances | Common/zmq/example/mdbroker.cpp:388-440 | between events every service has an empty waiting list or an empty request queue |
| BrokerRuns.WorkerProcessSurvivesExactly | Common/zmq/example/mdbroker.cpp:261-318 | exactly which worker messages the handler cannot take, the asserts of zmsg::send apart |
| BrokerRuns.ClientProcessSurvivesExactly | Common/zmq/example/mdbroker.cpp:368-383 | exactly which client messages the handler cannot take, the asserts of zmsg::send apart |
| BrokerRuns.SurvivesExactly | Common/zmq/example/mdbroker.cpp:400-426 | exactly which messages off the socket a handler cannot take, the asserts of zmsg::send apart |
| BrokerSends.WorkerSendsExactly | Common/zmq/example/mdbroker.cpp:261-361 | exactly when zmsg::send refuses what a worker's message makes the broker send: the reply itself, or the oldest request queued for a worker that becomes idle and outlives the purge |
| BrokerSends.ClientSendsExactly | Common/zmq/example/mdbroker.cpp:368-383 | exactly when it refuses what a client's message makes the broker send: the request, if a worker is left after the purge, or all but the last frame, if the name is reserved |
| BrokerSends.StepSurvivesExactly | Common/zmq/example/mdbroker.cpp:400-426 | a message ends the process exactly if its handler cannot take it or zmsg::send refuses what it makes the broker send |
| BrokerSends.RunSurvivesExactly | Common/zmq/example/mdbroker.cpp:388-440 | a run goes through exactly if no message of it meets that condition; heartbeat rounds never fail |
| BrokerSends.UnknownServiceThrows | Common/zmq/example/mdbroker.cpp:187-188 | mmi.service about an unknown name ends a fresh broker in map::at |
| BrokerSends.UnknownCommandThenReply | Common/zmq/example/mdbroker.cpp:268-311 | an unknown command and a REPLY from the same sender end it at a null service |
| BrokerSends.UnsendableRequestWaits | Common/zmq/example/mdbroker.cpp:152-179 | a queued frame that zmsg::send refuses ends it when the first worker is ready |
| BrokerCommands.StrangersAreToldToDisconnect | Common/zmq/example/mdbroker.cpp:297-306 | a heartbeat or reply from an unregistered sender is answered by DISCONNECT and changes no table |
| BrokerCommands.ReadyAgainEndsTheSession | Common/zmq/example/mdbroker.cpp:270-278 | READY from a registered or reserved sender is answered by DISCONNECT, and the sender leaves every table |
| BrokerCommands.DisconnectLeaves | Common/zmq/example/mdbroker.cpp:308-309 | DISCONNECT takes the sender out of every table and sends nothing |
| BrokerCommands.HeartbeatMovesExpiry | Common/zmq/example/mdbroker.cpp:301-303 | a heartbeat of a registered worker sets its expiry and does nothing else |
| BrokerCommands.OtherCommandsRegister | Common/zmq/example/mdbroker.cpp:268-313 | an unknown command registers its sender without a service and does nothing else |
| BrokerCommands.ReadyTakesUp | Common/zmq/example/mdbroker.cpp:279-283 | a new worker is given the oldest request of its service, or waits last in its list, or is gone if the purge comes too late |
| BrokerCommands.ReplyTakesUp | Common/zmq/example/mdbroker.cpp:287-295 | the answer goes out first, to the address in the reply, and the worker is taken up again in the same way |
| BrokerCommands.RequestIsServedOrQueued | Common/zmq/example/mdbroker.cpp:152-179 | a request goes at once to the worker heard of most recently that is left after the purge, or is queued last |
| BrokerCommands.OtherHeadersDoNothing | Common/zmq/example/mdbroker.cpp:421-425 | a message with another header changes and sends nothing |
| BrokerCommands.RoundBeatsTheLiving | Common/zmq/example/mdbroker.cpp:430-435 | a round sends one heartbeat to each worker that stays idle, drops the expired idle ones and nobody else, and keeps every request |
| BrokerCommands.ReservedIsAnswered | Common/zmq/example/mdbroker.cpp:184-204 | a reserved name is answered in place of the last frame: mmi.service by 200 or 404, any other by 501 |
| BrokerCommands.ReservedIsFirstCharacter | Common/zmq/example/mdbroker.cpp:377-378 | the guard looks at the first of at least four characters and at nothing else |
| BrokerRuns.AcceptedRequest | Common/zmq/example/mdbroker.cpp:368-383 | a request is queued under the return address of its client, unless reserved or empty |
| BrokerRuns.HandleConserves | Common/zmq/example/mdbroker.cpp:152-179 | in each step, what waited and what arrives is what leaves, in order, and what waits |
| BrokerRuns.RunConserves | Common/zmq/example/mdbroker.cpp:152-179 | the same over a run from any state |
| BrokerRuns.RunFromStart | Common/zmq/example/mdbroker.cpp:388-440 | from the empty broker: accepted requests are those dispatched followed by those queued; invariants hold |
| BrokerRuns.DispatchLoopSendsToAttached | Common/zmq/example/mdbroker.cpp:161-178 | every request goes to a registered worker of its service |
| BrokerRuns.RunExpiry | Common/zmq/example/mdbroker.cpp:301-303 | in any run the expiry of an attached worker is its last READY, REPLY or HEARTBEAT plus 7500 |
| BrokerRuns.PurgeDeletesTheSilent | Common/zmq/example/mdbroker.cpp:108-126 | a purge deletes exactly the idle workers silent for 7500 ms or more, and keeps all else and every request |
| BrokerRuns.MmiServiceAnswers | Common/zmq/example/mdbroker.cpp:184-204 | mmi.service on a known service answers 200 exactly if some worker is registered for it |
| BrokerRuns.ReservedServicesGetNoRequests | Common/zmq/example/mdbroker.cpp:377-382 | no request for a reserved name is ever queued or sent on |
| BrokerRuns.ReservedIsWiderThanPrefix | Common/zmq/example/mdbroker.cpp:377-378 | the guard catches every mmi. name, and others |
| BrokerConforming.IdleSetIsDisjointUnion | Common/zmq/example/mdbroker.cpp:351-361 | the idle set is the disjoint union of duplicate-free service lists |
| BrokerConforming.RefusalIsNeutral | Common/zmq/example/mdbroker.cpp:297-306 | a worker created only to be refused leaves no trace |
| BrokerConforming.ConformingStepKeepsExact | Common/zmq/example/mdbroker.cpp:261-383 | conforming input never ends the broker and keeps the lists duplicate-free and covered by the idle set |
| BrokerConforming.ReplyKeepsTidyExactly | Common/zmq/example/mdbroker.cpp:351-361 | a REPLY keeps the lists duplicate-free exactly if its sender was not idle or the purge of the same step deletes it |
| BrokerConforming.BestIsMostRecent | Common/zmq/example/mdbroker.cpp:160-170 | after the purge the scan finds the arg-max of the unexpired part of the list |
| BrokerConforming.DispatchSends | Common/zmq/example/mdbroker.cpp:152-179 | a dispatch sends the oldest request to the most recently seen unexpired worker, or nothing |
| BrokerWork.DispatchEffect | Common/zmq/example/mdbroker.cpp:152-179 | a dispatch makes one idle worker busy at most, and deletes no busy one |
| BrokerWork.ConformingStepEffect | Common/zmq/example/mdbroker.cpp:388-440 | a step deletes no busy worker but its sender, gives one request at most, and that to a most recently seen unexpired worker of the service |
| BrokerTimer.HeartbeatGrid | Common/zmq/example/mdbroker.cpp:389-438 | heartbeat_at is t0 + 2500 (k+1) after k rounds, the poll timeout is in 0..2500, and there is at most one round per interval gone by |
| BrokerTimer.RoundsWhenDue | Common/zmq/example/mdbroker.cpp:429-437 | a turn has a round exactly if the next point of the grid is past |
| BrokerTimer.NoRoundIsMissed | Common/zmq/example/mdbroker.cpp:429-437 | if the loop looks at the clock once per interval, there is exactly one round per interval gone by |
| BrokerTimer.TimeoutCountsFromNow | Common/zmq/example/mdbroker.cpp:395-398 | the next poll lasts from the last reading of the clock to the next point of the grid |
| BrokerTimer.PollEndsWithTheRound | Common/zmq/example/mdbroker.cpp:395-430 | a poll that lasts its whole timeout, and none that ends sooner, ends with a round due |
| MajordomoBroker.RoundsFallDue | Common/zmq/example/mdbroker.cpp:429-437 | the inputs of the loop have a round after turn n exactly if the next point of the grid is past |
| MajordomoBroker.RoundsAreOnTime | Common/zmq/example/mdbroker.cpp:429-437 | and as many rounds as intervals gone by, if the loop looks at the clock that often |
| MajordomoBroker.Service.Erase | Common/zmq/example/mdbroker.cpp:239-247 | erasing while iterating removes every occurrence and keeps the order |
| MajordomoBroker.Socket.Transmit | Common/zmq/example/zmsg.hpp:87-108 | the message goes out, or the process ends |
| MajordomoBroker.Broker.WorkerSend | Common/zmq/example/mdbroker.cpp:324-346 | sends the command and payload to the worker |
| MajordomoBroker.Broker.ServiceRequire | Common/zmq/example/mdbroker.cpp:131-145 | the one service object of that name, made if missing |
| MajordomoBroker.Broker.WorkerRequire | Common/zmq/example/mdbroker.cpp:209-225 | the one worker object of that identity, made if missing |
| MajordomoBroker.Broker.WorkerDelete | Common/zmq/example/mdbroker.cpp:230-254 | takes the object out of its service's list and count, the idle set and the table |
| MajordomoBroker.Broker.Overdue | Common/zmq/example/mdbroker.cpp:111-117 | collects exactly the idle workers whose expiry is not after now, once each |
| MajordomoBroker.Broker.PurgeWorkers | Common/zmq/example/mdbroker.cpp:108-126 | deletes exactly those, whatever the order of the pointers |
| MajordomoBroker.Broker.MostRecent | Common/zmq/example/mdbroker.cpp:163-170 | the scan over pointers finds the entry BrokerSpec.Best finds |
| MajordomoBroker.Broker.SendNext | Common/zmq/example/mdbroker.cpp:161-178 | one round of the dispatch loop on the objects |
| MajordomoBroker.Broker.ServiceDispatch | Common/zmq/example/mdbroker.cpp:152-179 | queue, purge and dispatch loop: final tables and every message sent |
| MajordomoBroker.Broker.WorkerWaiting | Common/zmq/example/mdbroker.cpp:351-361 | the worker joins list and idle set, its expiry is set, then dispatch |
| MajordomoBroker.Broker.OnReady | Common/zmq/example/mdbroker.cpp:270-285 | READY: registration, or refusal, or the crash |
| MajordomoBroker.Broker.OnReply | Common/zmq/example/mdbroker.cpp:287-299 | REPLY: the answer goes out, the worker waits again, or refusal, or the crash |
| MajordomoBroker.Broker.OnHeartbeat | Common/zmq/example/mdbroker.cpp:301-306 | HEARTBEAT: the expiry moves, or refusal |
| MajordomoBroker.Broker.WorkerProcess | Common/zmq/example/mdbroker.cpp:261-318 | the whole of worker_process |
| MajordomoBroker.Broker.ServiceInternal | Common/zmq/example/mdbroker.cpp:184-204 | the 8/MMI answer, or the crash on an unknown service |
| MajordomoBroker.Broker.ClientProcess | Common/zmq/example/mdbroker.cpp:368-383 | the whole of client_process |
| MajordomoBroker.Broker.Receive | Common/zmq/example/mdbroker.cpp:400-426 | one message off the socket, from recv to the last send |
| MajordomoBroker.Broker.HeartbeatRound | Common/zmq/example/mdbroker.cpp:430-435 | purge, then one heartbeat to each idle worker |
| MajordomoBroker.Broker.StartBrokering | Common/zmq/example/mdbroker.cpp:388-440 | the loop is a run of BrokerSpec over the inputs it received: same tables, same frames sent, same crash; each heartbeat round goes to exactly the workers idle then; poll timeouts as BrokerTimer says |
| MdwrkSpec.LivenessStaysInRange | Common/zmq/example/mdwrkapi.hpp:133-191 | liveness is between 1 and 3 at the head of the loop |
| MdwrkSpec.SilenceReconnects | Common/zmq/example/mdwrkapi.hpp:179-185 | the worker reconnects exactly when its liveness runs out, with a READY for its service |
| MdwrkSpec.SendToBrokerFrames | Common/zmq/example/mdwrkapi.hpp:49-68 | the frames of a message without an option |
| MdwrkSpec.UpReadyFrames | Common/zmq/example/mdwrkapi.hpp:86-87 | READY carries the service name |
| MdwrkRuns.EncodedUpFrames | Common/zmq/example/mdwrkapi.hpp:49-68 | the three messages of a worker byte by byte |
| MdwrkRuns.DisconnectReconnects | Common/zmq/example/mdwrkapi.hpp:168-170 | DISCONNECT opens a new connection, on which READY comes first, and sets liveness and heartbeat time anew |
| MdwrkRuns.OthersKeepTheConnection | Common/zmq/example/mdwrkapi.hpp:165-175 | HEARTBEAT and unknown commands restore liveness and change nothing else |
| MdwrkRuns.RequestIsOwed | Common/zmq/example/mdwrkapi.hpp:159-164 | REQUEST hands over the body, after which a reply may and must be given |
| MdwrkRuns.AbortsExactly | Common/zmq/example/mdwrkapi.hpp:147-162 | an assert fails exactly on a message without the worker header or without the envelope of its request |
| MdwrkRuns.RecvTakesTurns | Common/zmq/example/mdwrkapi.hpp:118-131 | only the first call of recv goes without a reply, and an interrupted one leaves nobody to reply to |
| MdwrkRuns.HeardWorkersStay | Common/zmq/example/mdwrkapi.hpp:133-185 | a worker that hears something in any three polls and no DISCONNECT never changes its connection |
| MdwrkRuns.HeartbeatsFallDue | Common/zmq/example/mdwrkapi.hpp:187-190 | on one connection a turn sends a heartbeat exactly if the next time on the grid has come |
| MdwrkRuns.NoHeartbeatIsMissed | Common/zmq/example/mdwrkapi.hpp:187-190 | if the loop looks at the clock once per interval, the heartbeats sent are exactly those fallen due |
| Mdwrk.Mdwrk.constructor | Common/zmq/example/mdwrkapi.hpp:18-33 | a new worker has sent READY and is fully alive |
| Mdwrk.Mdwrk.SendToBroker | Common/zmq/example/mdwrkapi.hpp:49-68 | the message goes out in the protocol's frames |
| Mdwrk.Mdwrk.ConnectToBroker | Common/zmq/example/mdwrkapi.hpp:73-92 | a new identity, READY sent, liveness and heartbeat time reset |
| Mdwrk.Mdwrk.TurnOnce | Common/zmq/example/mdwrkapi.hpp:133-191 | one turn of the loop: fields, messages sent, request returned or assert failed |
| Mdwrk.Mdwrk.Recv | Common/zmq/example/mdwrkapi.hpp:117-195 | the reply goes out, then the loop until a request, a failed assert or an interrupt |
| Mdcli.RequestIsSendable | Common/zmq/example/mdcliapi.hpp:92-97 | the request goes out as header, service and body |
| Mdcli.FirstAnswerIsFirst | Common/zmq/example/mdcliapi.hpp:107-131 | the answer taken is that of the first poll that brings one |
| Mdcli.VerdictExactly | Common/zmq/example/mdcliapi.hpp:120-131 | an answer is taken exactly if its frames are the header, the service asked for and a non-empty reply |
| Mdcli.Mdcli.Converse | Common/zmq/example/mdcliapi.hpp:107-149 | the inner loop: resends on new sockets until an answer, no retries left, or an interrupt |
| Mdcli.Mdcli.Send | Common/zmq/example/mdcliapi.hpp:86-156 | at most m_retries identical transmissions, all but the first on sockets that owe nothing; the result is the reply in the first answer if its frames are the header, this service and a non-empty reply, and a failed assert otherwise; the answer is one to this request exactly if the socket owed none before or the first poll is silent; without interrupt there is none only after m_retries silent polls |
| Majordomo.StartIsGood | Common/zmq/example/mdbroker.cpp:456-467 | the empty system satisfies the invariant |
| Majordomo.DownIsEncoded | Common/zmq/example/mdbroker.cpp:324-346 | what lies on the channel of a worker is what the broker sends it, without the identity |
| MajordomoSafety.ArrivalConforms | Common/zmq/example/mdwrkapi.hpp:117-131 | what an mdwrk sends is conforming input for the broker |
| MajordomoSafety.ActionKeepsGood | Common/zmq/example/mdwrkapi.hpp:73-195 | no action of anybody fails an assert, in a handler, in recv or in zmsg::send, and each keeps the invariant of the system |
| MajordomoSafety.RunsAreGood | Common/zmq/example/mdwrkapi.hpp:73-195 | so in every run |
| MajordomoSafety.AtMostOneToken | Common/zmq/example/mdbroker.cpp:152-361 | at most one request in flight, in work or in reply per connection, none while idle or unregistered |
| MajordomoSafety.BusyWorkersStay | Common/zmq/example/mdbroker.cpp:108-126 | a busy worker stays registered and busy until its own REPLY arrives |
| MajordomoAnswers.StepKeepsServices | Common/zmq/example/mdbroker.cpp:261-318 | a worker keeps its service while registered |
| MajordomoAnswers.ArrivalAnswers | Common/zmq/example/mdbroker.cpp:287-295 | a REPLY is passed on as one answer, to the address in its envelope, under the worker's service; other messages pass on none |
| MajordomoAnswers.ActionTraced | Common/zmq/example/mdbroker.cpp:152-361 | every action keeps requests given and answers passed on in step on every connection |
| MajordomoAnswers.AnswersFitQuestions | Common/zmq/example/mdbroker.cpp:152-383 | the answers from a connection are f of the requests given to it, in order, for the client that asked for that service; at most the last is missing |
| MajordomoAnswers.BrokerRunsInside | Common/zmq/example/mdbroker.cpp:388-440 | the broker in the system makes a run of its own that never crashes |
| MajordomoAnswers.SystemConserves | Common/zmq/example/mdbroker.cpp:152-179 | in every run of the system, what the clients ask of a service, in order, is what is sent to its workers followed by what still waits |
| MajordomoRecovery.ForgottenWorkerIsTold | Common/zmq/example/mdbroker.cpp:301-306 | a heartbeat on a connection the broker does not know brings DISCONNECT back, and nothing else happens |
| MajordomoRecovery.ToldWorkerComesBack | Common/zmq/example/mdwrkapi.hpp:168-170 | the worker leaves that connection and opens another, on which READY for its service is first |
| MajordomoRecovery.ComesBackIntoService | Common/zmq/example/mdbroker.cpp:279-283 | that READY makes it available again |
| MajordomoRecovery.ForgottenWorkersComeBack | Common/zmq/example/mdbroker.cpp:261-361 | the three together, from heartbeat to service |
| EndToEnd.AskIsQueued | Common/zmq/example/mdbroker.cpp:368-383 | the broker, in any state, gets through a client's request and has it last in line with its body whole, unless the body is empty |
| EndToEnd.HandIsTaken | Common/zmq/example/mdwrkapi.hpp:138-164 | the worker's caller gets the body, and the worker keeps the client's address |
| EndToEnd.ReplyIsSent | Common/zmq/example/mdwrkapi.hpp:120-131 | the reply leaves in the envelope of its request |
| EndToEnd.ReplyIsPassedOn | Common/zmq/example/mdbroker.cpp:287-295 | the broker, in any state with that worker attached, sends the reply to the client, exactly unless the request that waits for the worker cannot be sent |
| EndToEnd.AnswerIsCollected | Common/zmq/example/mdcliapi.hpp:114-131 | the client that asked accepts it unless it is empty |
| EndToEnd.EndToEnd | Common/zmq/example/mdcliapi.hpp:86-131 | the whole exchange, with every handler and every send, returns exactly f of the body to the asking client if and only if neither is empty and no unsendable request waits for the worker |
| PirateSpec.PurgeOne | Common/zmq/example/ppqueue.cpp:87-91 | one step of erasing while iterating, with the iterator set back |
| PirateSpec.BackendKeepsSome | Common/zmq/example/ppqueue.cpp:124-147 | no backend message empties the queue |
| PirateSpec.RunsKeepDistinct | Common/zmq/example/ppqueue.cpp:23-166 | identities are pairwise distinct in every reachable state |
| PirateSpec.OnlyUnsendablePartsCrash | Common/zmq/example/ppqueue.cpp:111-154 | the assert in dequeue never fails; a turn crashes exactly on a part zmsg::send refuses |
| PirateSpec.NeverMovesBack | Common/zmq/example/ppqueue.cpp:111-166 | a turn never moves a worker back, and each request for another brings it one nearer |
| PirateSpec.BoundedOvertaking | Common/zmq/example/ppqueue.cpp:111-166 | a worker at place i gets one of the next i+1 requests unless purged or registered again |
| PirateSpec.PurgedExactlyWhenSilent | Common/zmq/example/ppqueue.cpp:83-92 | a worker given no request is dropped exactly if its expiry is before the clock |
| PirateSpec.RunExpiry | Common/zmq/example/ppqueue.cpp:23-70 | in every run an entry's expiry is 3000 after the worker's last READY, HEARTBEAT or queueing reply |
| PirateSpec.SilentWorkersGo | Common/zmq/example/ppqueue.cpp:83-92 | in every run a worker given no request is dropped exactly if that was more than 3000 ms ago |
| PirateSpec.HeartbeatsAreSpaced | Common/zmq/example/ppqueue.cpp:156-164 | rounds of heartbeats are more than an interval apart |
| PirateSpec.RequestForwardedExactly | Common/zmq/example/ppqueue.cpp:148-154 | a request goes to the front worker with its frames unchanged exactly if none is a UUID in text form |
| PirateRuns.ReadyJoinsLast | Common/zmq/example/ppqueue.cpp:126-133 | READY puts a worker last, with 3000 ms to live; the others keep order and time |
| PirateRuns.ReplyRejoins | Common/zmq/example/ppqueue.cpp:143-146 | a reply is forwarded as it is, and puts its sender last if it was not in the queue |
| PirateRuns.HeartbeatProlongs | Common/zmq/example/ppqueue.cpp:134-137 | HEARTBEAT gives its sender 3000 ms more if it is in the queue, and moves nobody |
| PirateRuns.OtherWordsDoNothing | Common/zmq/example/ppqueue.cpp:137-141 | any other single word does nothing |
| PirateRuns.TheQueueIsTheLine | Common/zmq/example/ppqueue.cpp:111-166 | in every run the queue holds exactly the workers that have said READY or replied since their last request and are not too long silent at a purge |
| PirateRuns.RequestsAreServed | Common/zmq/example/ppqueue.cpp:116-154 | a turn gives a request away exactly if a worker was there at the poll and a client has asked |
| PirateRuns.RequestGoesToTaken | Common/zmq/example/ppqueue.cpp:148-154 | the worker it is given to is sent the client's message under its own identity |
| PirateRuns.EveryoneIsHeartened | Common/zmq/example/ppqueue.cpp:156-164 | a turn sends HEARTBEAT to every worker in the queue exactly if more than an interval has gone by since the last round |
| PirateQueue.PirateQueue.Append | Common/zmq/example/ppqueue.cpp:23-40 | joins the end unless already present |
| PirateQueue.PirateQueue.Remove | Common/zmq/example/ppqueue.cpp:43-52 | takes out the first entry of that identity |
| PirateQueue.PirateQueue.Refresh | Common/zmq/example/ppqueue.cpp:55-70 | sets its expiry anew where it stands |
| PirateQueue.PirateQueue.Dequeue | Common/zmq/example/ppqueue.cpp:73-80 | takes the first entry |
| PirateQueue.PirateQueue.Purge | Common/zmq/example/ppqueue.cpp:83-92 | the erasing loop is the order-preserving filter of the unexpired entries |
| PirateQueue.PirateQueue.Handle | Common/zmq/example/ppqueue.cpp:111-154 | the two handlers behind the gated poll |
| PirateQueue.PirateQueue.TurnOnce | Common/zmq/example/ppqueue.cpp:111-166 | one turn: queue, heartbeat time and every message sent |
| PirateQueue.PirateQueue.Loop | Common/zmq/example/ppqueue.cpp:111-166 | the loop is a run of PirateSpec |
| PirateWorker.LivenessStaysInRange | Common/zmq/example/ppworker.cpp:56-109 | liveness is between 1 and 3 at the head of the loop, so it never wraps |
| PirateWorker.BackoffExactly | Common/zmq/example/ppworker.cpp:98-109 | after k reconnects with no message since, the interval is min(32000, 1000 * 2^k) |
| PirateWorker.SilentRun | Common/zmq/example/ppworker.cpp:56-116 | in silence the worker reconnects at every third poll; all sleeps together in closed form |
| PirateWorker.EchoExactly | Common/zmq/example/ppworker.cpp:62-84 | a request through queue, worker and queue comes back unchanged exactly if the client's identity does not look empty and neither frame is a UUID in text form |
| PirateWorkerRuns.OneFrame | Common/zmq/example/ppworker.cpp:85-95 | one frame restores liveness exactly if it is HEARTBEAT |
| PirateWorkerRuns.OtherCounts | Common/zmq/example/ppworker.cpp:85-95 | a message of neither one nor three frames only resets the interval |
| PirateWorkerRuns.ThreeFrames | Common/zmq/example/ppworker.cpp:66-84 | a request goes back as it came, unless the worker crashes on purpose or the message cannot be sent |
| PirateWorkerRuns.ComesBackReady | Common/zmq/example/ppworker.cpp:98-109 | a new socket starts with READY |
| PirateWorkerRuns.CyclesCountRequests | Common/zmq/example/ppworker.cpp:66-73 | the worker counts its requests, so it serves three before it can crash on purpose |
| PirateWorkerRuns.BeatsAreSent | Common/zmq/example/ppworker.cpp:111-116 | a turn ends with HEARTBEAT exactly if more than an interval has gone by since the last |
| PirateWorker.PirateWorker.OnMessage | Common/zmq/example/ppworker.cpp:60-96 | request, heartbeat or other: fields and what is sent |
| PirateWorker.PirateWorker.OnQuiet | Common/zmq/example/ppworker.cpp:97-109 | the countdown, the sleep, the doubling and the new socket |
| PirateWorker.PirateWorker.TurnOnce | Common/zmq/example/ppworker.cpp:56-117 | one turn of the loop |
| PirateWorker.PirateWorker.Loop | Common/zmq/example/ppworker.cpp:56-117 | the loop is a run of the turns |
| LruSpec.OnlyOnePlace | Common/zmq/example/lbbroker.cpp:47-67 | a worker is in one place only: starting, announcing, queued, called, working or replying |
| LruSafety.ActionKeepsGood | Common/zmq/example/lbbroker.cpp:105-173 | in every interleaving nothing fails and everybody stays in one place |
| LruRuns.HandlingCountsDown | Common/zmq/example/lbbroker.cpp:119-172 | each message the broker handles lowers the count of those left by one; nothing else changes it |
| LruRuns.WorkDecreases | Common/zmq/example/lbbroker.cpp:105-173 | every step of anybody uses up work |
| LruRuns.ExitExactly | Common/zmq/example/lbbroker.cpp:147-148 | client_nbr is the number of unanswered clients; the loop is over exactly if every client has one reply |
| LruRuns.RunsAreBounded | Common/zmq/example/lbbroker.cpp:105-173 | with N clients and M workers: at most M + 2N messages handled, at most 10N + 5M + 1 steps, no failure |
| LruRuns.LeastRecentlyUsed | Common/zmq/example/lbbroker.cpp:119-172 | workers are called in the order in which the broker heard from them |
| LruRuns.StuckIsDone | Common/zmq/example/lbbroker.cpp:105-173 | there is no deadlock before the exit |
| LruRuns.RunsEndWithEveryReply | Common/zmq/example/lbbroker.cpp:105-175 | a run that cannot go on has left the loop with a reply at every client |
| LruBroker.LruBroker.OnBackend | Common/zmq/example/lbbroker.cpp:119-150 | the backend handler on the fields |
| LruBroker.LruBroker.OnFrontend | Common/zmq/example/lbbroker.cpp:151-172 | the frontend handler on the fields |
| LruBroker.LruBroker.Loop | Common/zmq/example/lbbroker.cpp:105-173 | the loop on the fields, with its exit |
| LruBroker.OnlyWrongFramesFail | Common/zmq/example/lbbroker.cpp:114-117 | the gated poll keeps front() off an empty queue; only a malformed message makes a turn fail |
| LruTurns.TurnIsSteps | Common/zmq/example/lbbroker.cpp:105-173 | a turn of the loop is the poll and handler steps of the protocol: same queue, same count, same messages on the same channels, same end |

## Left out

- Mdcli.Mdcli.Send: `m_retries` must not be negative; a negative one counts away from zero in the original and the call would go on for as long as nobody answers.
- BrokerRuns.MmiServiceAnswers: is about known services; what happens for an unknown one is in BrokerSends.UnknownServiceThrows.
- MajordomoSafety.AtMostOneToken: identities are fresh and NUL-free, and clients do not ask mmi.service about unknown services.
- LruRuns.RunsAreBounded: no client is called READY; `s_set_id` makes identities of another form.
- LruSpec.OnlyOnePlace: a message with a number of frames other than the expected leaves the original reading across message boundaries; the model calls that a failure and shows that it does not occur.
- PirateWorker.PirateWorker.OnQuiet: the sleep is a number added up, not a delay; the doubling is below 64000, so its wrap-around is not modelled.
- The method `worker_send` has an option parameter that is the empty string in every call; it is not modelled.
- One method of the original is several here where a proof needs one change of the heap at a time (`worker_delete`, `service_dispatch`, `worker_waiting`, `worker_process`).
- Messages waiting in a service's queue are values, not `zmsg` objects; who deletes which message is not modelled.
- The members `m_reconnect`, `m_timeout` and `m_verbose`, console output, dumps and signals; an interrupt ends the list of turns.
- Sockets, high-water marks, failing `recv` and `send` calls, random identities, and time-outs of poll as durations.
- Messages get lost only on the connections of workers that have gone; a live connection is a FIFO channel without loss.
- A ROUTER socket that drops a message it cannot route is modelled for workers that have gone, not for clients.
- `zmsg::set_part`, `body_fmt`, `append` and the self-test, which add nothing to the round trips.
- The other ZeroMQ examples, `Common/zmq/officialMajordomo`, the socket code under `LinuxSocket`, and the vendored headers.
- EndToEnd.EndToEnd: bodies and answers with frames in the binary form of a UUID, or in lower-case text form, arrive changed (Frames.DeliveryExactly); they are outside its statement.
- MajordomoRecovery.ForgottenWorkersComeBack: the new identity does not look reserved; `s_set_id` makes none that does.
