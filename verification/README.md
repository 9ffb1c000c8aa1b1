# ESP32 websocket device: command pipeline

A Dafny model of a device that takes commands over a websocket, hands them through a
one-slot mailbox to endpoint tasks, drives GPIO pins and answers every command with a
three-byte status frame. Three parts are concurrent or stateful, and each is modelled as
the code behaves:

- **Mailbox.** The websocket task's event handler is the one producer; any number of
  endpoint tasks with distinct ids are the consumers of a queue of length one. A new
  message evicts a waiting one, which is answered "not received".
- **Websocket client task.** A connection state machine with reconnect and ping timers,
  its event trace, the application's connected bit, and the start/stop handshake with a
  controlling task.
- **Sender.** A loop that pushes a message through a bounded transmit buffer with partial
  writes, under a mutex shared by several tasks.

The configuration strings that one URI after another replaces are modelled as well.

## Files

| file | content |
|---|---|
| Bytes, Frames | `char` and `int` conversions; the frame format and its round trips |
| MailboxProtocol | the mailbox as a step system: every queue call, reply and `free` is a step |
| MailboxOrder | what every interleaving keeps |
| MailboxAnswers | every frame answered exactly once: when, and exactly when |
| MailboxRace | a concrete run in which the peek-then-reset race strikes |
| MailboxMemory | ownership and release of message memory: when it is safe, and exactly when |
| MailboxEffects | what the commands do to the pins |
| MailboxStatus | what the status byte of each reply says |
| MailboxAtomic | the coarse system (peek, compare and reset in one step) and its refinement |
| Device, MailboxCalls | the code as methods on objects, and the proof that calls are runs |
| ClientSession, ClientTask | one session of the client task, as functions and as an object |
| SessionProperties, SessionCalls, SessionTiming | what every session keeps: transport and events, what it makes of each answer of the transport, clocks |
| StopHandshake, StopSessions | start and stop interleaved with the loop |
| ConnectedBit | the application's connected bit from session to session |
| ChunkedSend, Senders | the send loop, and many senders at once |
| Pipeline, PipelineProgress | the mailbox's tasks and their senders as one system, down to the wire |
| ConfigStore | ownership and contents of the configuration strings |

A run of a step system is any sequence of steps; a step its task cannot take changes
nothing, so statements about all sequences are statements about all interleavings.

## What the proofs found in the code

- **The mailbox race** (src/include/mailbox.c:13-15). Between the peek and the reset the
  producer can evict the peeked message and enqueue another. `PeekThenResetRace` gives the
  run: one command is answered both "not received" and "ok" and still moves its pin, its
  memory is used and freed after it was freed, and the next command is lost.
  `ExactlyOnceIffUndisturbed` says precisely when the code does meet its promise: every
  frame has one owner or one answer throughout a run if and only if each reset finds in
  the queue the message that was peeked. `MemorySafeIffHarmless` says the same of memory,
  which also stays safe when a message is only compared after it left the queue, as long
  as someone still has it. With peek, compare and reset as one step both always hold
  (`AtomicRunsAreSafe`).
- **The stale connected bit** (src/protocols/websocket_client/websocket_client.c:494-497).
  Leaving the loop dispatches no event, so a session stopped while connected leaves
  `statusCONNECTED_TO_SERVER` set: `StaleBit` is the run start, connect, stop. At a loop
  head the bit is right if and only if the session found it clear or has had an event
  (`BitAgreesIffEvent`); a session leaves it set if and only if it was connected when it
  left its loop or found it set and had no event (`BitIsLeftSetIff`); and only stop ends
  a session that is connected (`OnlyStopLeavesConnected`).
- **A leak on the way out** (src/protocols/websocket_client/websocket_client.c:385-401). When
  the temporary copy of the userinfo was made and then the password or the user name
  cannot be copied, the temporary copy is not freed; `SetUri` states that one string leaks
  exactly then, and `LeakUserInfo` gives the userinfo "u:p" and shows the string still
  allocated after the configuration is destroyed.
- **An unfilled message** (src/tasks/communication/communication.task.c:61-76). When only the
  copy of the body fails, `parseMessage` returns a record with no field stored, and it is
  queued like any other; `ParseMessage` and `SendDataToMailboxIncoming` state it.

## Hypotheses

- Frames are longer than three bytes; one DATA event is one frame. In the step systems a
  message body can be allocated when its record can.
- A dispatched event is delivered before the dispatch returns; the transport returns from
  a write a value no larger than what it was offered; the clock never goes back and, where
  times are compared, its reading fits 64 bits.
- Setting the stopped bit, setting the state to UNKNOW and deleting the websocket task
  (src/protocols/websocket_client/websocket_client.c:495-497) are one step, and one task
  controls the client and does not call start again before the websocket task it started
  has set the state to INIT (line 424).
- A copy that finds no memory leaves a null pointer. Only the tasks of the mailbox send,
  and each has one thread, the websocket task's being another than the endpoints'.
- Whether `char` is signed is left open; every statement holds for both.

## Model

| member | source | states |
|---|---|---|
| Frames.EncodeParse | src/tasks/communication/communication.task.c:15-30 | re-encoding the parsed fields and body gives back the frame, for every frame |
| Frames.ParseEncode | src/tasks/communication/communication.task.c:59-77 | a message survives the wire if and only if its header fields fit a char |
| Frames.StatusNamesFrame | src/tasks/communication/communication.task.c:43-50 | a status sent for a parsed frame has the frame's endpoint byte first, its message-id byte last and the status between |
| MailboxOrder.RunIsOrdered | src/tasks/communication/communication.task.c:79-100 | the invariant of every interleaving of the producer with any endpoint tasks |
| MailboxOrder.QueueNeverLosesAMessage | src/tasks/communication/communication.task.c:90-99 | in every interleaving the enqueue finds the queue empty and the fallback reset discards nothing |
| MailboxOrder.QueueHoldsTheNewest | src/tasks/communication/communication.task.c:99 | what the queue holds was put there by the last enqueue of the whole run |
| MailboxOrder.HandlersRunInArrivalOrder | src/include/mailbox.c:9-19 | a task's handler runs only on genuine messages addressed to that task, in strictly increasing order of arrival |
| MailboxOrder.RepliesNameTheirFrames | src/tasks/communication/communication.task.c:43-100 | every reply on every path (handled, unsupported, evicted, no memory) carries its frame's endpoint and message-id bytes |
| MailboxAnswers.ProducerKeepsPlace | src/tasks/communication/communication.task.c:79-100 | a producer step moves a message that is in one place to exactly one place |
| MailboxAnswers.ConsumerKeepsPlace | src/include/mailbox.c:9-19 | so does an endpoint task's step, if its reset finds the peeked message |
| MailboxAnswers.DisturbedBreaksExactlyOnce | src/include/mailbox.c:13-15 | a reset that finds another queue content breaks the promise at once |
| MailboxAnswers.ExactlyOnceIffUndisturbed | src/include/mailbox.c:13-15 | every frame has one owner or one answer throughout a run if and only if no reset finds the queue changed since its peek |
| MailboxAnswers.IdleMeansAnswered | src/tasks/communication/communication.task.c:79-100 | with every task idle the queued frame is unanswered and every other has exactly one answer |
| MailboxRace.PeekThenResetRace | src/include/mailbox.c:12-16 | a concrete run with a double answer, a use after free, a double free and a lost command |
| MailboxMemory.MemorySafeIffHarmless | src/include/mailbox.c:12-16 | throughout a run no freed memory is read or freed, live memory is owned and the rest was freed once, if and only if each compared message still has an owner and each reset finds the peeked one |
| MailboxMemory.HarmfulBreaksMemory | src/include/mailbox.c:13-15 | a comparison of a message without owner, or a reset of another queue content, breaks this at once |
| MailboxMemory.RunIsMemorySafe | src/tasks/communication/communication.task.c:52-100 | in particular memory is safe in every run that interrupts no task between its peek and its reset |
| MailboxMemory.EachPartIsFreedOnce | src/tasks/communication/communication.task.c:52-57 | each allocated record and body is owned or was freed exactly once, never both; a refused frame frees nothing |
| MailboxMemory.AtRestOnlyQueueIsLive | src/tasks/communication/communication.task.c:52-100 | with every task at rest only the queued message is still in memory |
| MailboxMemory.LiveMessagesAreBounded | src/tasks/communication/communication.task.c:61-99 | with n endpoint tasks at most n + 2 messages are ever in memory |
| MailboxStatus.EveryStepTells | src/tasks/communication/communication.task.c:43-97 | step by step: a frame without memory is answered with status byte 1, an evicted message with 2, a GPIO command carried out with 0 for type bytes 1, 2, 3 and 5 and 3 for any other, another handler's message with its status; nothing else is answered |
| MailboxStatus.EveryReplyTells | src/tasks/communication/communication.task.c:43-100 | in every interleaving each reply has its frame's endpoint and message-id bytes and says 1 exactly for a refused frame, otherwise 2 or what a handler answered |
| MailboxStatus.GpioRepliesTell | src/tasks/endpoints/gpio/gpio.c:37-73 | if no reset was disturbed, a reply to a GPIO frame is 1 without memory, 2 when evicted, and else 0 or 3 by the frame's type byte |
| MailboxEffects.FoldAppends | src/tasks/endpoints/gpio/gpio.c:43-61 | a command newer than all carried out comes last in the arrival-order fold |
| MailboxEffects.PinsAreTheAnsweredCommands | src/tasks/endpoints/gpio/gpio.c:29-73 | in every interleaving the pins equal the arrival-order fold of exactly the commands answered MSG_OK |
| MailboxEffects.LastCommandWins | src/tasks/endpoints/gpio/gpio.c:43-61 | in the fold a pin is high or low as the last command byte for it says (2 or 3), and undriven without one |
| MailboxEffects.PinsShowTheLastAnswered | src/tasks/endpoints/gpio/gpio.c:29-73 | so each pin has the level of the last command for it answered MSG_OK |
| MailboxEffects.RejectedCommandsTouchNothing | src/tasks/endpoints/gpio/gpio.c:66-69 | commands answered otherwise never touched a pin, if no reset was disturbed |
| MailboxAtomic.AtomicIsFine | src/include/mailbox.c:13-15 | a run with peek, compare and reset in one step is a run of the fine-grained system |
| MailboxAtomic.AtomicRunIsUninterrupted | src/include/mailbox.c:13-15 | and one in which no peek is interrupted |
| MailboxAtomic.AtomicRunsAreSafe | src/include/mailbox.c:9-19 | such runs answer every frame exactly once, keep memory safe and bound it by n + 2 |
| MailboxAtomic.AtomicRunsCarryOutTheAnswered | src/tasks/endpoints/gpio/gpio.c:37-73 | their pins are the fold of the answered commands, and no rejected command is among them |
| Device.MailboxDevice.Clone | src/tasks/communication/communication.task.c:34-41 | a fresh copy of the bytes or null, counted as allocated |
| Device.MailboxDevice.ParseMessage | src/tasks/communication/communication.task.c:59-77 | null without memory; otherwise a fresh record holding the parsed frame, or one of which nothing is known when only the body copy fails |
| Device.MailboxDevice.OnMessageReceived | src/tasks/communication/communication.task.c:52-57 | answers the message and frees its body and record, both allocated until then |
| Device.MailboxDevice.SendDataToMailboxIncoming | src/tasks/communication/communication.task.c:79-100 | slot, replies and memory are those of a delivery on the old ones, a refusal's status byte 1 and an eviction's 2; when only the body copy fails, the previous message is answered and freed and the unfilled record queued |
| Device.MailboxDevice.MessageHandler | src/tasks/endpoints/gpio/gpio.c:37-73 | pins, reply and memory after one GPIO command, with status byte 0 for types 1, 2, 3 and 5 and 3 for any other |
| Device.MailboxDevice.MailboxReceive | src/include/mailbox.c:9-19 | for any endpoint and handler: takes, has carried out, answered and freed exactly a message of that endpoint, and leaves any other |
| Device.MailboxDevice.EndpointPassGpio | src/tasks/endpoints/gpio/gpio.c:75-81 | one pass of the GPIO task does so for endpoint 1 and the GPIO commands |
| MailboxCalls.CallsAreRuns | src/tasks/communication/communication.task.c:79-100 | any sequence of deliveries and passes of any endpoint tasks has the outcome of a run of the coarse step system on the same frames |
| MailboxCalls.CallsKeepThePromises | src/tasks/endpoints/gpio/gpio.c:75-81 | so any sequence of calls answers each frame once and GPIO frames with the byte that tells what became of them, keeps memory safe and leaves the pins the answered commands ask for |
| SessionProperties.TransportIsPaired | src/protocols/websocket_client/websocket_client.c:424-496 | connect only on a closed transport, poll, read and ping only on an open one, closed at the end, only INIT, CONNECTED and WAIT_TIMEOUT at loop heads |
| SessionProperties.EventsFollowGrammar | src/protocols/websocket_client/websocket_client.c:427-492 | the events of every session are a prefix of (DISCONNECTED or CONNECTED DATA* DISCONNECTED)* |
| SessionProperties.WithoutReconnectOneAttempt | src/protocols/websocket_client/websocket_client.c:478-483 | without auto_reconnect one connect attempt at most, and nothing after the first DISCONNECTED |
| SessionProperties.BitAgreesIffStartsClear | src/tasks/communication/communication.task.c:102-117 | the connected bit agrees with CONNECTED at every loop head if and only if the session starts with the bit clear |
| SessionProperties.EndedSessionLeavesBit | src/protocols/websocket_client/websocket_client.c:478-497 | a session that ends by itself is not connected, and leaves the bit set only if it found it set and had no event |
| ConnectedBit.BitAgreesIffEvent | src/tasks/communication/communication.task.c:102-117 | under any start and stop, at a loop head the bit agrees with CONNECTED if and only if this session found it clear or has had an event |
| ConnectedBit.BitIsLeftSetIff | src/protocols/websocket_client/websocket_client.c:494-497 | a session leaves the bit set if and only if it left its loop connected, or found it set and had no event |
| ConnectedBit.OnlyStopLeavesConnected | src/protocols/websocket_client/websocket_client.c:525-527 | a session leaves its loop connected only while stop waits for it |
| ConnectedBit.StaleBit | src/protocols/websocket_client/websocket_client.c:517-530 | start, one pass that connects, stop: ESP_OK is returned with the bit still set |
| SessionCalls.EventsAreOfTheAnswers | src/protocols/websocket_client/websocket_client.c:427-492 | the events are, in order, CONNECTED for each successful connect, DISCONNECTED for each failed connect, poll or read, and DATA with just the bytes of each non-empty read; each answer leads to the next call (read on a positive poll, close on a failure, connect after a close); connected exactly while the last answer says so |
| SessionCalls.PassAsksTheTransport | src/protocols/websocket_client/websocket_client.c:429-490 | a pass in INIT connects, one in CONNECTED polls, one in WAIT_TIMEOUT makes no call, and what is logged are the transport's answers in that pass |
| SessionCalls.LoopEndsIff | src/protocols/websocket_client/websocket_client.c:430-483 | a pass ends the loop if and only if it is in INIT without a transport or in WAIT_TIMEOUT without auto_reconnect |
| SessionCalls.NoTransportNoPass | src/protocols/websocket_client/websocket_client.c:412-427 | without a transport no pass is made and no call or event follows |
| SessionTiming.SubtractionsNeverWrap | src/protocols/websocket_client/websocket_client.c:457-484 | stored ticks are never in the future, so the unsigned subtractions are true distances |
| SessionTiming.TimesAreOfTheCalls | src/protocols/websocket_client/websocket_client.c:436-468 | the recorded times are one for each connect call, each ping and each contact the session made |
| SessionTiming.ReconnectRateIsBounded | src/protocols/websocket_client/websocket_client.c:120-129 | the n-th connect attempt is at least 1001 * (n - 1) ms after the first |
| SessionTiming.PingRateIsBounded | src/protocols/websocket_client/websocket_client.c:457-461 | n pings span at least 10001 * (n - 1) ms |
| SessionTiming.PingsAreTimely | src/protocols/websocket_client/websocket_client.c:451-466 | a check pings exactly when the last ping or data is over 10000 ms old, and with checks d ms apart no later than 10000 + d ms |
| SessionTiming.EachPollIsChecked | src/protocols/websocket_client/websocket_client.c:457-461 | one ping check for each poll that does not fail |
| SessionTiming.TimesAreReadings | src/protocols/websocket_client/websocket_client.c:436-468 | the recorded times are the clock readings of the pass, and a ping is sent when the reading is over 10000 ms past the stored tick |
| SessionTiming.WaitIsLeftIff | src/protocols/websocket_client/websocket_client.c:478-490 | the wait is left for INIT exactly when the reading is more than 1000 ms past the moment the connection was given up |
| SessionTiming.WaitEnds | src/protocols/websocket_client/websocket_client.c:478-490 | with delays of at least d ms the wait phase reaches INIT within floor(1000 / d) + 2 passes |
| ClientTask.WebsocketClient.AbortConnection | src/protocols/websocket_client/websocket_client.c:120-129 | the whole client state after an aborted connection |
| ClientTask.WebsocketClient.DispatchEvent | src/protocols/websocket_client/websocket_client.c:100-118 | the event is on the trace and the application's bit follows it |
| ClientTask.WebsocketClient.ConnectInInit | src/protocols/websocket_client/websocket_client.c:429-449 | the whole client state after a pass in INIT |
| ClientTask.WebsocketClient.PollInConnected | src/protocols/websocket_client/websocket_client.c:450-477 | the whole client state after a pass in CONNECTED |
| ClientTask.WebsocketClient.WaitToReconnect | src/protocols/websocket_client/websocket_client.c:478-490 | the whole client state after a pass in WAIT_TIMEOUT |
| ClientTask.WebsocketClient.Task | src/protocols/websocket_client/websocket_client.c:406-498 | the websocket task's loop yields the session about which the lemmas speak; ended, its transport is closed and was used only when open, and its events follow the grammar |
| StopHandshake.RunKeepsHandshake | src/protocols/websocket_client/websocket_client.c:500-530 | the invariant of every interleaving of one controller with the websocket task |
| StopHandshake.StopMeansEnded | src/protocols/websocket_client/websocket_client.c:517-530 | when stop returns ESP_OK the websocket task is gone and the transport closed |
| StopHandshake.StoppedBitIsNeverStale | src/protocols/websocket_client/websocket_client.c:513-527 | a stopped bit that stop can see was set by a websocket task that is over |
| StopHandshake.NoWakeUpIsLost | src/protocols/websocket_client/websocket_client.c:526-527 | while stop waits the bit is set or yet to be set, and no pass has begun since run was cleared |
| StopHandshake.StartRefusesIff | src/protocols/websocket_client/websocket_client.c:505-508 | start refuses exactly while the earlier websocket task has set INIT and is not gone |
| StopHandshake.LoopHeadsAreSound | src/protocols/websocket_client/websocket_client.c:427-428 | the pairing of transport and state holds at every loop head under any interleaving |
| StopHandshake.StopIsAnswered | src/protocols/websocket_client/websocket_client.c:494-527 | a waiting stop is answered within six further steps of the websocket task |
| StopSessions.InterleavedSessionsAreSessions | src/protocols/websocket_client/websocket_client.c:406-530 | every interleaved session is, but for run, a session of the websocket task alone, and its events follow the grammar |
| StopSessions.InterleavedEvents | src/protocols/websocket_client/websocket_client.c:427-492 | under any interleaving the events are those of the transport's answers, and each answer leads to the next call |
| StopSessions.InterleavedReconnectRate | src/protocols/websocket_client/websocket_client.c:120-129 | the reconnect rate bound under any interleaving with start and stop |
| StopSessions.InterleavedPingRate | src/protocols/websocket_client/websocket_client.c:457-461 | so the ping rate bound |
| StopSessions.InterleavedPingsAreTimely | src/protocols/websocket_client/websocket_client.c:451-466 | so the exact condition and the latest time of pings |
| StopSessions.InterleavedOneAttempt | src/protocols/websocket_client/websocket_client.c:478-483 | so the one attempt without auto_reconnect |
| ChunkedSend.EachWriteMoves | src/protocols/websocket_client/websocket_client.c:556-571 | each successful write moves the message on by one byte at least and a buffer at most |
| ChunkedSend.WriteCount | src/protocols/websocket_client/websocket_client.c:556-571 | a whole message takes between ceil(len / buffer) and len writes, and the fewest when every write is full |
| ChunkedSend.Sender.SendChunks | src/protocols/websocket_client/websocket_client.c:556-573 | terminates; writes are in-order chunks of at most a buffer; success means all was taken, failure a strict prefix |
| ChunkedSend.Sender.Send | src/protocols/websocket_client/websocket_client.c:532-574 | writes only if admitted, releases the lock on every path, returns len or a failure |
| Senders.RunKeepsAll | src/protocols/websocket_client/websocket_client.c:552-573 | the invariant of any number of concurrent senders |
| Senders.SendersLinearise | src/protocols/websocket_client/websocket_client.c:552-573 | data on the wire is the callers' prefixes in lock order; each call's writes are chunks from the front, on after every write that took something, and its result is the length or that of the write that failed |
| Senders.EveryWaiterCanSend | src/protocols/websocket_client/websocket_client.c:552-573 | from every reachable state a caller that waits can still get the lock and have all its data taken |
| Senders.BufferIsTheWritersChunk | src/protocols/websocket_client/websocket_client.c:560-564 | from the copy to the write the transmit buffer keeps the writer's chunk |
| Senders.AllSentMeansWholeMessages | src/protocols/websocket_client/websocket_client.c:572-573 | when every call succeeded the wire is the messages, whole, in lock order |
| Pipeline.RunKeepsJoint | src/tasks/communication/communication.task.c:43-57 | the invariant of the mailbox's tasks and their senders run together: each turn at the lock carries the bytes of the reply its task handed over |
| Pipeline.WireIsReplies | src/tasks/communication/communication.task.c:43-57 | in every such run the wire is, in lock order, a piece of one reply per turn, no reply twice, each naming its frame, whole exactly when its call succeeded |
| Pipeline.StepsAreSent | src/tasks/communication/communication.task.c:43-50 | a mailbox step that makes a reply leaves its task waiting for the lock with just the reply's three bytes and gives nothing up; other steps leave the senders alone |
| Pipeline.DroppedWasGivenUp | src/tasks/communication/communication.task.c:46-49 | a reply is given up only by its own task, at a moment when it waited for the lock with it |
| PipelineProgress.EveryReplyCanBeSent | src/tasks/communication/communication.task.c:43-50 | from every reachable state a reply that waits can still be put on the wire whole |
| PipelineProgress.CommandIsAnsweredOnTheWire | src/tasks/endpoints/gpio/gpio.c:75-81 | a run in which a set-high command moves its pin and its answer, status byte 0, is on the wire, for any buffer size |
| Pipeline.EveryReplyHasOneFate | src/tasks/communication/communication.task.c:46-49 | every reply is in one turn, or given up, or still waiting for the lock, and only one of these |
| Pipeline.NoFrameIsAnsweredTwice | src/tasks/communication/communication.task.c:43-100 | if no reset was disturbed, no two turns answer the same frame |
| Pipeline.WireAnswersEachFrameOnce | src/tasks/communication/communication.task.c:43-100 | with nothing in progress and no call failed, the wire is three bytes per reply, and each frame but the queued one has its answer there whole and exactly once |
| ConfigStore.UpdateSupplied | src/protocols/websocket_client/websocket_client.c:352-402 | a field the URI supplies is stored; user name and password are what stands before and after the first colon |
| ConfigStore.LastUriWins | src/protocols/websocket_client/websocket_client.c:340-404 | after any sequence of URIs each field is that of the last URI that supplied it |
| ConfigStore.UnsuppliedStays | src/protocols/websocket_client/websocket_client.c:383-402 | a field no URI supplied stays; a userinfo without a colon keeps the password |
| ConfigStore.LastPortWins | src/protocols/websocket_client/websocket_client.c:379-381 | the port is that of the last URI naming one, or as it was |
| ConfigStore.ClientConfig.SetUserInfo | src/protocols/websocket_client/websocket_client.c:383-402 | for every outcome of the three copies: what is stored, the status, and that the temporary copy leaks exactly when it was made and a later copy fails |
| ConfigStore.FittingUpdates | src/protocols/websocket_client/websocket_client.c:352-404 | with memory for every copy it needs, a URI leaves the update of what it supplies |
| ConfigStore.ShortOfMemory | src/protocols/websocket_client/websocket_client.c:352-404 | without, at most one field is lost, one the URI supplies, and every other has its old or its new value; the port is new exactly if scheme, host and path were stored |
| ConfigStore.ClientConfig.SetUri | src/protocols/websocket_client/websocket_client.c:340-404 | live strings are the fields' strings and at most one leaked, which leaks exactly when a part of a copied userinfo cannot be copied; texts and status for every outcome of the copies |
| ConfigStore.LeakUserInfo | src/protocols/websocket_client/websocket_client.c:385-401 | a userinfo and a failing copy after which one string outlives the configuration |
| ConfigStore.ClientConfig.DestroyConfig | src/protocols/websocket_client/websocket_client.c:187-206 | frees every string once, each live until then |

## Left out

- MailboxCalls.CallsAreRuns: assumes that the body copy succeeds when the record was allocated; what the tasks do with an unfilled record is not modelled, as its fields hold whatever the memory held.
- Device.MailboxDevice.MailboxReceive: the function pointer is a choice between the GPIO handler and one that only answers a status.
- SessionProperties.EventsFollowGrammar: a failed event post or a handler cut off by the event loop's time limit is not modelled.
- Senders.SendersLinearise: says nothing about which connection a byte goes to, as the client can reconnect between two chunks; a send refused by the checks before the lock appears as one that gave up waiting, the checks themselves are in ChunkedSend.Sender.Send only.
- Frames of three bytes or fewer, for which the code computes a body length of zero or less.
- Splitting one server message over several DATA events.
- Delivery of status replies: a failed send is only logged, so the mailbox's statements are about answer attempts; which of them reach the wire is in Pipeline.
- The second-byte read in the GPIO handler's log line, other logging, and the unused outgoing queue.
- Resetting the pin, selecting its pad and setting its direction: a driven pin is its level only.
- Client initialisation and its failure paths, the configuration entry point with an explicit host, the default port and the transports' path setting.
- The transport, event loop, queue, semaphore and URL parser libraries: they appear as inputs or as contracts. WebSocket framing (RFC 6455) is inside the transport; a zero-length write stands for the ping of section 5.5.2 of RFC 6455. User information is read as section 3.2.1 of RFC 3986 has it.
- Wi-Fi bring-up, storage, the heartbeat and the creation of the tasks.
