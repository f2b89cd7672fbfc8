# QuQuChat: a verified model

A Dafny model of the protocols in QuQuChat, a chat backend in Go with an Electron client in TypeScript, and
proofs of what those protocols keep. Check it with `dafny verify dfyconfig.toml`.

Each module follows one component.

- `Basics`, `Text`: shared types; trimming, searching and splitting of text as Go and JavaScript do them.
- `TaskStore`, `TaskSystem`, `TaskInvariant`, `TaskRuns`, `TaskResults`, `Compensation`, `LostClaims`, `Submissions`,
  `WorkerPool`: the task lifecycle. The store's status machine in both of its implementations; the system of workers
  and producers as steps over one store and one queue, with duplicate deliveries, crashes and ambiguous database
  answers; what its steps keep and what its runs do; and the worker's and the producer's code, proved to follow
  those steps.
- `StreamHub`, `AgentStream`, `Sse`: agent events from the hub that splits a request's history into replay and
  live events, through the server-sent-events printer, to the client's incremental parser (section 9.2 of the
  WHATWG HTML Standard).
- `RequestId`: request identifiers with base64url (section 5 of RFC 4648), UUID (section 4 of RFC 9562) and
  base-36 fields.
- `DoneEvents`, `DoneFates`: the done-event consumer, its retries, counted in a message header, and how events end.
- `ConnectionHub`, `HubRouter`, `Delivery`: the clients of one server node, the routing between nodes over shared
  sets, and the two put together.
- `RoomLog`: concurrent transactions that give the messages of a room their sequence ids and parents.
- `PostingPermission`, `Membership`, `Readmission`: the cached permission to post, who can change the members of a
  room, and how long a removed user stays out.
- `TokenRefresh`, `Resends`, `MessageLists`, `MessageSources`: the client's token refresh, how often it sends a
  request, its message lists, and where their messages come from.
- `Thumbnail`: scaling of images.

The components that change state are classes or methods with loops; each is proved equal to a step of a value
model (`View()` gives the value of an object), and the theorems are about all runs of those steps from the
start, `Run(EMPTY, actions)`, over any list of actions. An action that cannot happen in a state changes nothing,
so a list of actions stands for any interleaving. Everything outside the code's control (answers of databases,
caches, brokers and handlers, times and fresh ids) is part of the action or a parameter.

Some of what one might expect of the code does not hold, and the model says exactly when it does:

- At-most-once execution rests on the store returning no task with an error. With the map-based store's
  convention a duplicate delivery is executed twice (`TaskRuns.AtMostOnceIffNilOnError`).
- A retry limit of 2^31 or more is never reached, because the counter is written as a 32-bit integer
  (`DoneEvents.RetriesAreBoundedIff`); and a failing finaliser has its delivery acknowledged twice
  (`DoneEvents.AcksOfLoop`).
- A room's local member count is exact only while each connect lists the room once and newly; a second
  connection of a user leaves the node registered for the room for good (`HubRouter.ConnectKeepsExact`,
  `HubRouter.SecondConnectionLeaks`).
- The compensating mark after unanswered pushes fails a running task when one of the pushes did reach the queue
  (`Compensation.FailsRunningTaskIff`, with a run in `Compensation.MeetsRunningTask`). The mark of a worker whose
  claims were all answered by errors fails a running task too, which another worker may be executing or nobody will
  (`LostClaims.LostClaimFailsIff`, with runs in `LostClaims.AnotherExecutes` and `LostClaims.OwnClaimIsLost`).
- A caller can be answered with the id of a task that never enters the queue
  (`Submissions.AnsweredTaskIsQueuedIff`, with a run in `Submissions.AnsweredNeverQueued`).
- A removed user stays out exactly until somebody with an owner's or administrator's row adds him, and that may be
  himself (`Readmission.RemovedStaysOutIff`, with a run in `Readmission.RemovedAdminReturns`).
- The cached and the stored mute differ in the last second of the mute. Cached permissions outlive the dismissal of
  their room when the members cannot be read at that moment, and the cached list of a direct room misses a user
  whose row comes late (`PostingPermission.CachedAnswersAsStored`, with runs in `PostingPermission.DismissedMayPost`
  and `PostingPermission.DirectListMisses`).
- Two optimistic sends in one millisecond give a list with a repeated id; and an index kept across awaits can
  overwrite a message that is not the optimistic copy (`MessageLists.DistinctThroughoutIff`,
  `MessageLists.StaleIndexOverwrites`, with runs in `MessageLists.SameMillisecond` and
  `MessageLists.PageBetweenOverwrites`).
- Only the request that starts a token refresh is limited to one retry. A request that is parked stays unmarked, and
  nothing bounds how often an unmarked request is sent (`Resends.SendsAreBoundedIff`, with runs of every length in
  `Resends.SentAnyNumberOfTimes`).

## Model

| member | source | states |
|---|---|---|
| `TaskRuns.AtMostOnce` | internal/taskservice/task/pool.go:77-146 | over every interleaving of workers, duplicate deliveries, crashes and lost or ambiguous database answers, a task is executed at most once and handed to onFinish at most as often as it was executed, when the store returns no task with an error |
| `TaskRuns.AtMostOnceIffNilOnError` | internal/taskservice/task/pool.go:101-103 | at-most-once execution holds on all runs if and only if the store returns nil together with an error |
| `TaskRuns.DuplicateExecution` | internal/taskservice/task/store.go:75-80 | a concrete run with two deliveries of one message on which the map-based store's refusal, which carries the task, leads to a second execution |
| `TaskRuns.HistoriesAreLifecycles` | internal/taskservice/task/db_store.go:83-132 | every stored task's status history is a prefix of Pending, Running and one of Succeeded or Failed, and ends in its stored status |
| `TaskRuns.HandedTasksAreFinal` | internal/taskservice/task_service.go:216-221 | a task handed to onFinish is terminal and is the stored one, and every later run leaves that stored task unchanged, including the marks made after exhausted publishing |
| `TaskRuns.SettledForever` | internal/taskservice/task/db_store.go:83-132 | a settled task stays in the store with the same status, result and error message on every continuation |
| `TaskResults.ResultsAreTheExecutions` | internal/taskservice/task/pool.go:106-145 | on every run a task stored as Succeeded, and so every such task handed to onFinish, was executed once and carries exactly the text that execution returned, with no error message; a worker about to mark a task with a result or an error carries what the execution returned |
| `TaskRuns.SameRequestSameTask` | internal/service/producer.go:319-338 | two calls with one request id that both succeed return the same task id, and no other stored task has that request id |
| `TaskRuns.PushesAreBounded` | internal/service/producer.go:340-363 | a task is pushed at most the configured number of times and accepted at most once |
| `TaskRuns.ExhaustedPushLeavesPending` | internal/service/producer.go:333-336 | when all pushes failed and none was delivered the task is still Pending, and the compensating MarkFailed changes nothing, whatever the database does |
| `Compensation.FailsRunningTaskIff` | internal/service/producer.go:333-336 | on every run the compensating MarkFailed changes the store if and only if the task is Running, which takes an unanswered push that reached the queue and a worker that claimed it, and the database does not break before the mark; it then fails that task |
| `Compensation.MeetsRunningTask` | internal/service/producer.go:340-363 | for every number of attempts, a run on which no push is answered, yet a worker executes the task while the producer is about to mark it failed |
| `LostClaims.LostClaimFailsIff` | internal/taskservice/task/pool.go:84-100 | on every run, the mark of a worker whose claims were all answered by errors changes the store if and only if the task is Running and the database does not break before the mark; the task is then Failed on every continuation, whoever executes it, and is not executed any more if nobody held it |
| `LostClaims.UnexecutedFailures` | internal/taskservice/task/pool.go:84-146 | on every run, a step that fails a task never executed is the mark of a lost claim or the producer's compensating mark |
| `LostClaims.AnotherExecutes` | internal/taskservice/task/pool.go:84-100 | for every number of attempts, a run on which a worker executes the task while another is about to mark it failed |
| `LostClaims.OwnClaimIsLost` | internal/taskservice/task/pool.go:84-100 | for every number of attempts, a run on which the only worker's claim was stored and its answer lost, and it is about to fail the task that nobody executed |
| `LostClaims.DeathAbandonsTask` | internal/taskservice/task/pool.go:77-146 | on every run, a task whose holder dies is not executed again on any continuation |
| `Submissions.ReachesQueueIff` | internal/service/producer.go:320-363 | in every reachable state a stored task is in the queue on some continuation if and only if it was delivered already or its own call still pushes it; otherwise it stays Pending and unexecuted on all continuations |
| `Submissions.AnsweredTaskIsQueuedIff` | internal/service/producer.go:320-338 | a successful answer names a stored task with the caller's request id: the caller's own task was delivered, and that condition says when another caller's is or will be |
| `Submissions.AnsweredNeverQueued` | internal/service/producer.go:325-332 | a run on which an insert is stored but answered by an error, the request is submitted again, and the second caller gets the id of the task, which never enters the queue |
| `Submissions.InsertStoresIff` | internal/service/producer.go:320-332 | on every run an insert stores its task if and only if no stored task has its request id and the database does not break before; then the call pushes it, or looks the stored one up, or fails |
| `Submissions.CallFollows` | internal/service/producer.go:320-363 | every other step of a call: the looked-up answer, the push with its count and its limit, and the compensating mark |
| `TaskStore.MarkMovesForward` | internal/taskservice/task/db_store.go:134-174 | one mark keeps a task's identity and moves its status at most one step along Pending, Running, terminal |
| `TaskStore.MarkFacts` | internal/taskservice/task/db_store.go:83-132 | a pending task can only become running, a terminal one never changes, and an answer without an error means the mark is in the store |
| `TaskStore.MarkWrites` | internal/taskservice/task/db_store.go:83-132 | a success on a Running row stores the result and clears the message, a failure stores the message, a claim of a Pending row makes it Running; every other mark changes nothing and is answered by the named error |
| `TaskStore.TerminalIsFinal` | internal/taskservice/task/db_store.go:97-132 | no sequence of later marks changes the status, result or error message of a terminal task |
| `TaskStore.GormStore.Create` | internal/taskservice/task/db_store.go:24-39 | the row is inserted if neither its id nor its request id is taken and the database does not break before; a taken request id is answered as a duplicate, a taken id as any other error |
| `TaskStore.GormStore.UpdateStatus` | internal/taskservice/task/db_store.go:134-174 | the row transaction: the new rows and the answer are those of the mark, for each way the database can end it; a Running row gets the given result and an empty message, or the given message |
| `TaskStore.MemoryStore.MarkRunning` | internal/taskservice/task/store.go:68-84 | the same transition on the map, with a clone of the task next to the error |
| `TaskStore.MemoryStore.MarkSucceeded` | internal/taskservice/task/store.go:86-107 | the same transition on the map, with a clone of the task next to the error; a Running task gets the given result and an empty message |
| `TaskStore.MemoryStore.MarkFailed` | internal/taskservice/task/store.go:109-130 | the same transition on the map, with a clone of the task next to the error; a Running task gets the given message |
| `TaskStore.MemoryStore.Create` | internal/taskservice/task/store.go:32-44 | stores a copy unless a task with the same non-empty request id exists |
| `TaskStore.FindTaken` | internal/taskservice/task/store.go:35-41 | the scan finds a task with the same non-empty request id if and only if there is one |
| `TaskStore.FindByRequest` | internal/taskservice/task/store.go:56-66 | answers some task with the request id, and none exactly when there is none |
| `TaskStore.RepliesAreWellformed` | internal/taskservice/task/db_store.go:170-172 | the convention of the two stores about tasks next to errors, for every reply |
| `WorkerPool.HandleMessage` | internal/taskservice/task/pool.go:77-146 | the worker's handling of one message, from the claim to the acknowledgement, emits only events that the worker automaton allows and ends idle |
| `WorkerPool.Claim` | internal/taskservice/task/pool.go:84-110 | the claim with its retries ends either with the right to execute or idle |
| `WorkerPool.RetryInputOperation` | internal/taskservice/task/pool.go:157-173 | the operation is repeated up to the configured number of attempts with a pause between them; the result is what the last call answered: the task, the error of the last attempt after all of them, or the interrupted pause |
| `WorkerPool.PublishDone` | internal/taskservice/task/pool.go:150-155 | nothing is published for a nil task; otherwise the finished task is handed over first |
| `WorkerPool.OneMessageOneExecution` | internal/taskservice/task/pool.go:77-146 | any event log the worker automaton allows for one message holds at most one execution, and at most one publication after it |
| `WorkerPool.OneMessageOneAck` | internal/taskservice/task/pool.go:77-146 | any event log the worker automaton allows acknowledges its message exactly once, at its end; a first refusal that carries a task leads to a second acknowledgement |
| `WorkerPool.RefusedClaimIsDropped` | internal/taskservice/task/pool.go:78-103 | a message whose first claim is refused without a task is acknowledged, and nothing else is done with it |
| `WorkerPool.NextCall` | internal/taskservice/task/pool.go:77-173 | in any allowed log, what comes right after an execution, a claim, a pause, a publication and a failing mark: in particular the mark with the execution's result or error |
| `WorkerPool.FinishedTaskIsHandedOver` | internal/taskservice/task/pool.go:106-145 | a finished task that the store answers, to the mark after the execution or to the read, is handed to onFinish at once |
| `WorkerPool.EnqueueWithRetry` | internal/service/producer.go:340-363 | the number of tries is the first accepted attempt, or all of them when none is accepted; a non-positive setting still tries once |
| `WorkerPool.CreateAndEnqueue` | internal/service/producer.go:319-338 | the caller's answer, the pushes made and the rows left behind, for every combination of database and queue failures |
| `WorkerPool.CompensationWritesNothing` | internal/service/producer.go:333-336 | MarkFailed on a task just stored as Pending is refused and writes nothing |
| `StreamHub.EverySubscriptionSeesAStretch` | internal/service/agent_stream_hub.go:43-102 | on every run a subscription's replay followed by the events offered to its channel is one contiguous stretch of the request's history, up to the present while it is open; recent is the last min(200, n) events; without a drop all offered events are received in order |
| `StreamHub.HistoryIsWhatWasPublished` | internal/service/agent_stream_hub.go:70-90 | on every run the history of a request is what was published for it, in order: the given type and content, the given id or a generated one, the trimmed request, and the given or present time |
| `StreamHub.PublishCounts` | internal/service/agent_stream_hub.go:78-82 | a publish counts up, and a blank event id is generated from the new count |
| `StreamHub.KeepLast` | internal/service/agent_stream_hub.go:87-90 | trimming after each append keeps exactly the last n of everything ever appended |
| `StreamHub.AgentStreamHub.Subscribe` | internal/service/agent_stream_hub.go:43-68 | the new channel, its replay and the whole new state |
| `StreamHub.AgentStreamHub.Unsubscribe` | internal/service/agent_stream_hub.go:54-66 | the channel leaves its request's subscribers and is closed, and an empty subscriber map goes |
| `StreamHub.AgentStreamHub.Publish` | internal/service/agent_stream_hub.go:70-102 | the event with its defaults is appended to the recent buffer and offered to every subscriber of the request |
| `StreamHub.AgentStreamHub.Remember` | internal/service/agent_stream_hub.go:87-90 | the recent buffer is the last 200 of what it held and the event |
| `StreamHub.AgentStreamHub.SendToAll` | internal/service/agent_stream_hub.go:96-101 | a non-blocking send to each subscriber: a full channel loses the event and no other is affected |
| `AgentStream.Stream` | internal/api/handler/agent_stream_handler.go:22-93 | the response body is the start event, the replay and the live events up to the end of the stream, with heartbeats where the ticker fired |
| `AgentStream.ClientSeesStream` | frontend/src/stores/chatStore.ts:793-826 | however the response is cut into chunks, the client sees the start event, the replay and the live events in order, and no heartbeat |
| `AgentStream.ClientSeesHistory` | internal/api/handler/agent_stream_handler.go:43-92 | from the hub's history to the client's events: what a client without drops sees is the start event and one stretch of the history |
| `AgentStream.FollowedUntilEnd` | internal/api/handler/agent_stream_handler.go:71-92 | the live events followed are those up to the first agent.done or agent.error, the closing of the channel or the end of the request |
| `Sse.RoundTrip` | internal/api/handler/agent_stream_handler.go:95-116 | printing any list of events and heartbeats, cutting the text anywhere and reading it with the buffer loop gives back every event in order: its data, and its type under the two trims, which is the type given when neither changes it, and agent.step for a blank one |
| `Sse.ChunksAreInvisible` | frontend/src/stores/chatStore.ts:800-811 | the events read do not depend on the chunk boundaries |
| `Sse.CutStreamShowsPrefix` | frontend/src/stores/chatStore.ts:800-811 | a stream cut short has shown a prefix of the events of the whole |
| `Sse.TypeSurvives` | internal/api/handler/agent_stream_handler.go:96-101 | the client reads back exactly the type and data given if and only if the type is not empty and neither trim changes it |
| `Sse.PrintedLines` | internal/api/handler/agent_stream_handler.go:95-116 | the lines of a printed event: its id unless blank, its type or agent.step, its data |
| `Sse.ResponseWriter.WriteSSEEvent` | internal/api/handler/agent_stream_handler.go:95-116 | the bytes appended for one event |
| `Sse.ResponseWriter.WriteHeartbeat` | internal/api/handler/agent_stream_handler.go:85-90 | the bytes appended for one heartbeat |
| `Sse.ParseSSEChunk` | frontend/src/stores/chatStore.ts:103-125 | the parser's loops compute the events of the blocks of a chunk |
| `Sse.ReadStream` | frontend/src/stores/chatStore.ts:800-811 | the split-and-pop loop computes the events of all completed parts |
| `Text.SplitAppend` | frontend/src/stores/chatStore.ts:807-808 | splitting a text and then more text gives the pieces of the whole: only the last, open piece matters for what follows |
| `Text.TrimCutsSpaces` | internal/service/done_event_mq.go:580-600 | trimming cuts only white space, off the two ends |
| `RequestId.BuildThenParse` | internal/service/done_event_mq.go:511-578 | for all texts, parsing a built id gives the canonical user and room, the canonical parent or the empty text, and max(sequence, 0), when user and room are UUIDs, and is rejected otherwise |
| `RequestId.Rebuild` | internal/service/done_event_mq.go:533-578 | whatever id is accepted, building from its fields and parsing again gives the same fields |
| `RequestId.Decode64Inverts` | internal/service/done_event_mq.go:580-606 | base64url decoding inverts encoding on every byte sequence (section 5 of RFC 4648) |
| `RequestId.UuidRoundTrip` | internal/service/done_event_mq.go:580-606 | parsing the printed form of 16 bytes gives the bytes back (section 4 of RFC 9562) |
| `RequestId.SpellingsAgree` | internal/service/done_event_mq.go:580-606 | the spellings with a URN prefix, between braces and without dashes parse to the same bytes |
| `RequestId.UuidLetters` | internal/service/done_event_mq.go:592-606 | a printed UUID has 36 characters: dashes at four places, lower-case digits at all others |
| `RequestId.UuidTexts` | internal/service/done_event_mq.go:580-590 | a text is read as a UUID if and only if it is the dashed form, alone, after the URN prefix or between two ASCII characters, or 32 digits, in letters of either case |
| `RequestId.UnHexIgnoresCase` | internal/service/done_event_mq.go:580-590 | texts that differ in the case of their letters are read alike |
| `RequestId.DecodesIff` | internal/service/done_event_mq.go:592-600 | text is decoded if and only if it consists of letters of the alphabet and leaves no lone one |
| `RequestId.LineBreaksAreSkipped` | internal/service/done_event_mq.go:592-600 | line breaks anywhere in the encoded text make no difference |
| `RequestId.BuiltFields` | internal/service/done_event_mq.go:511-531 | a built id splits into the prefix, the compact user, room and parent, the clamped sequence in base 36, and the nonce, in this order |
| `RequestId.Parse36Inverts` | internal/service/done_event_mq.go:528-557 | base-36 parsing inverts formatting on every non-negative 64-bit integer |
| `RequestId.SignsAndRange` | internal/service/done_event_mq.go:553-557 | base-36 digits may carry a sign, and are read if and only if the number fits in 64 bits |
| `RequestId.FormatShape` | internal/service/done_event_mq.go:515-531 | a formatted number has lower-case digits, no sign and no leading zero |
| `RequestId.SixFields` | internal/service/done_event_mq.go:524-534 | six fields without the separator split back into themselves |
| `DoneEvents.OneCopyOrOneEnd` | internal/service/done_event_mq.go:181-242 | on every run, whatever the retry limit, a published event has exactly one waiting copy or exactly one end; with a limit that fits the counter it is handled no more often than its first header allows, and is given up only when all those handlings are used |
| `DoneFates.FatesAreAnswers` | internal/service/done_event_mq.go:181-242 | on every run an event ended in a way exactly when its last delivery says so: Handled when the handler succeeded, Ignored without a handler, Finalised when the last attempt failed and the finaliser did not, dead-lettered or dropped when it was unreadable, its retry was cut short or its finaliser failed; otherwise its next copy waits |
| `DoneEvents.LoopFates` | internal/service/done_event_mq.go:190-241 | each turn of the loop ends its message in this way, or puts the copy counted once more at the back of the queue |
| `DoneEvents.HandledAtMost` | internal/service/done_event_mq.go:410-437 | an event published without a counter is handled at most retryMaxAttempts + 1 times, and exactly that often when it is finalised |
| `DoneEvents.RetrySpendsFuel` | internal/service/done_event_mq.go:424-437 | a republished copy has exactly one handling fewer left, whatever the type and value of its header |
| `DoneEvents.RetriesAreBoundedIff` | internal/service/done_event_mq.go:414-425 | some number of deliveries always ends an event if and only if retryMaxAttempts is below 2^31, since the counter is written as a 32-bit integer |
| `DoneEvents.WideLimitNeverEnds` | internal/service/done_event_mq.go:411-437 | with a larger limit a failing handler is given the event again at every delivery, for ever |
| `DoneEvents.TextCounts` | internal/service/done_event_mq.go:439-463 | a counter given as decimal text counts as its number, with or without a sign, and as 0 outside the range of 64 bits |
| `DoneEvents.FloatCounts` | internal/service/done_event_mq.go:439-463 | a counter given as a float counts as its whole part, towards zero |
| `DoneEvents.LoopDrains` | internal/service/done_event_mq.go:190-240 | however handler, timer and broker behave, as many deliveries as the messages have handlings left empty the queue |
| `DoneEvents.LoopConserves` | internal/service/done_event_mq.go:181-242 | however the loop goes, every message it started with is still waiting or has ended, once |
| `DoneEvents.AcksOfLoop` | internal/service/done_event_mq.go:410-437 | the loop acknowledges each delivery once, and once more for every finaliser that fails after the last attempt |
| `DoneEvents.DoneEventConsumer.RetryOrFinalize` | internal/service/done_event_mq.go:410-437 | the queue, the acknowledgements and the end it leaves, and whether it failed |
| `DoneEvents.DoneEventConsumer.Deliver` | internal/service/done_event_mq.go:195-239 | one turn of the loop: the queue, the acknowledgements, and the end that the handler, the timer and the broker's answers call for |
| `DoneEvents.DoneEventConsumer.Start` | internal/service/done_event_mq.go:181-242 | the whole loop: the queue, the acknowledgements, and one end for each delivery that is not put back, as the answers call for |
| `ConnectionHub.IndexesAgree` | internal/api/handler/ws_handler.go:185-211 | in every reachable state a client is registered exactly when it is in its own user's set, no set is empty and no set holds another user's client |
| `ConnectionHub.ClosedOnceNeverSentTo` | internal/api/handler/ws_handler.go:143-211 | a send channel is closed at most once, and every client that the hub would send to has an open one |
| `ConnectionHub.StatusTellsPresence` | internal/api/handler/ws_handler.go:185-211 | a user's status updates strictly alternate from active, and the last is active exactly while a client of the user remains |
| `ConnectionHub.SecondRegistrationClosesTwice` | internal/api/handler/ws_handler.go:198-211 | registering a client again after its removal would let its channel be closed twice |
| `ConnectionHub.RegisterOnce` | internal/api/handler/ws_handler.go:185-196 | registering keeps the invariant if and only if the client was never registered before, or is registered at present next to another client of its user |
| `ConnectionHub.OneMore` | internal/api/handler/ws_handler.go:150-159 | sending to one more client extends the set sent to, with full clients dropped, in any order of the range loop |
| `ConnectionHub.DirectReaches` | internal/api/handler/ws_handler.go:150-168 | a direct message is sent once to each client of the recipient and once to each of the sender, twice for one who writes to himself, and to no other client; a full channel ends its client |
| `ConnectionHub.BroadcastReaches` | internal/api/handler/ws_handler.go:169-180 | a broadcast is sent to each listed user's clients once for each time the user is listed, and to no other client |
| `ConnectionHub.ReadsInOrder` | internal/api/handler/ws_handler.go:143-211 | on every run a client's writer reads, in order, what was put into its channel; the rest still waits there |
| `ConnectionHub.LineFollows` | internal/api/handler/ws_handler.go:143-211 | over all events, when a client is registered and what waits in its channel: registration, removal, reading, and one send for each copy due |
| `ConnectionHub.Hub.HandleRegister` | internal/api/handler/ws_handler.go:185-196 | the whole new state of a registration |
| `ConnectionHub.Hub.RemoveClient` | internal/api/handler/ws_handler.go:198-211 | the whole new state of a removal |
| `ConnectionHub.Hub.SendToUser` | internal/api/handler/ws_handler.go:150-158 | each of the user's clients gets the data or, when its channel is full, is removed |
| `ConnectionHub.Hub.HandleDirect` | internal/api/handler/ws_handler.go:149-168 | the recipient's clients, and then the sender's |
| `ConnectionHub.Hub.HandleBroadcast` | internal/api/handler/ws_handler.go:169-180 | the clients of each listed user, in list order |
| `HubRouter.UserNodesAreHolders` | internal/api/handler/hub_router.go:45-91 | in every reachable cluster a node is in the shared set of a user if and only if its local count of the user is positive, and if and only if it holds an open connection of the user |
| `HubRouter.ConnectionTables` | internal/api/handler/hub_router.go:58-87 | the shared connection set of a user and the connection table list exactly the open connections, with their nodes |
| `HubRouter.ConnectionsFollow` | internal/api/handler/hub_router.go:45-101 | over all steps, which connections are open, and the rooms a user is listed in at a node: added by a connect, dropped with the last connection |
| `HubRouter.RoomCountsCover` | internal/api/handler/hub_router.go:45-101 | a room's local count is at least the number of local users that list the room, and the node is registered for the room exactly while the count is positive |
| `HubRouter.WithdrawalIsSafe` | internal/api/handler/hub_router.go:77-100 | a disconnect withdraws its node from a room only when no local user lists it any more |
| `HubRouter.TidyRunsCountExactly` | internal/api/handler/hub_router.go:45-101 | when no user opens a second connection on a node and no room list has repeats, the count equals the number of listing users on the whole run |
| `HubRouter.ConnectKeepsExact` | internal/api/handler/hub_router.go:51-54 | one connect keeps an exact count if and only if its list names the room once and newly, or not at all |
| `HubRouter.ConnectExcess` | internal/api/handler/hub_router.go:45-56 | by how much a connect makes the count exceed the number of listing users |
| `HubRouter.SecondConnectionLeaks` | internal/api/handler/hub_router.go:45-101 | two connections of one user leave their node registered for the room after both are closed |
| `HubRouter.CopiesAreOwed` | internal/api/handler/hub_router.go:103-193 | on every run, with failing reads and publishes, the copies of messages a node was handed or has waiting grow by exactly one for each message routed there or to a connection or counted room it holds, and by none for others |
| `HubRouter.DeliveredExactlyOnce` | internal/api/handler/hub_router.go:103-193 | a node whose channel is drained was handed exactly one copy of each message it was owed and nothing else |
| `HubRouter.NetRunMoves` | internal/api/handler/hub_router.go:103-193 | routing and receiving leave the connections alone: a run's cluster is that of its connects and disconnects |
| `Delivery.ClientsGetTheirDue` | internal/api/handler/hub_router.go:103-193 | from routing to channels: once a node's channel is drained, a registered client there with room has got exactly the copies its user was due from the messages routed there, or routed while a recipient was connected or the room counted there |
| `Delivery.EachTakesItsCopies` | internal/api/handler/ws_handler.go:143-183 | whatever a hub is handed, each of its clients takes exactly the copies for its user, in order, until its channel is full |
| `HubRouter.Router.OnConnect` | internal/api/handler/hub_router.go:45-67 | the node's maps and the shared sets after a connect |
| `HubRouter.Router.OnDisconnect` | internal/api/handler/hub_router.go:69-101 | the node's maps and the shared sets after a disconnect |
| `HubRouter.Router.CountOut` | internal/api/handler/hub_router.go:70-86 | the counts go down and exactly the rooms whose count reaches zero are collected |
| `HubRouter.Router.RouteDirectMessage` | internal/api/handler/hub_router.go:103-126 | one copy to the local hub in every case, and one payload to each other listed node |
| `HubRouter.Router.RouteBroadcast` | internal/api/handler/hub_router.go:128-150 | one copy to the local hub in every case, and one payload to each other listed node |
| `HubRouter.Router.Subscriber` | internal/api/handler/hub_router.go:163-193 | a payload of another node goes to the hub, one of this node is skipped, and no channel gains a payload |
| `RoomLog.SequenceIsContiguous` | internal/api/handler/ws_handler.go:1122-1172 | with any number of concurrent saves and any failures, the sequence ids stored for a room are 1, 2, up to the number of its messages, in order |
| `RoomLog.StaleReaderFails` | internal/api/handler/ws_handler.go:1147-1161 | a row with a new id meets the unique index if and only if a message was stored in its room since the last one was read |
| `RoomLog.AttemptSucceedsIff` | internal/api/handler/ws_handler.go:1140-1164 | an attempt succeeds if and only if its reads succeed, the request replies to nothing or to a message of its room, the room exists, the commit is reported, the id is new, and no message entered the room between the read and the insert |
| `RoomLog.SaveIsBounded` | internal/api/handler/ws_handler.go:1128-1172 | a save makes at most three attempts, and returns a stored message of its room or an error after the third; a request that names no stored room, such as one with white space around the name, gets no message |
| `RoomLog.RowsAreAccountedFor` | internal/api/handler/ws_handler.go:1162-1171 | every stored row was returned to one call only, or to none, and to none exactly when its commit was answered by an error |
| `RoomLog.SaveKeeps` | internal/api/handler/ws_handler.go:1122-1172 | a save only appends, keeps the log in order, and returns the stored row that answers its request, parent included |
| `RoomLog.FirstSuccessWins` | internal/api/handler/ws_handler.go:1126-1174 | a save makes up to three attempts, each on the log the others left, and answers what the first that succeeds returns, or nothing when all fail |
| `RoomLog.ReferencesNameOneRow` | internal/api/handler/ws_handler.go:1174-1199 | on every run a stored parent id and parent sequence denote the same stored row, of the same room and with a smaller sequence id |
| `RoomLog.RepliesFindTheirParents` | internal/api/handler/ws_handler.go:1126-1199 | on every run what a call returns answers its request: the message of its room with the given id, or else the given number, is its parent by both references, and it has none exactly when the request gives neither; every stored row answers some call's request in this way |
| `RoomLog.PreparedAnswers` | internal/api/handler/ws_handler.go:1176-1200 | a row is prepared if and only if the request gives no reference, or there is a message of its room that fits all it gives; and it then answers the request |
| `RoomLog.RepliesAreAForest` | internal/api/handler/ws_handler.go:1174-1199 | on every run the walk to the parents of any message stays in its room, strictly descends in sequence id, avoids the message and ends at one that replies to nothing |
| `RoomLog.MessageTable.SaveMessage` | internal/api/handler/ws_handler.go:1122-1172 | the retry loop computes the attempts one after the other and stops at the first success |
| `RoomLog.MessageTable.Create` | internal/api/handler/ws_handler.go:1161 | the insert, refused for an unknown room and for a taken id or sequence, for each way the database can end it |
| `PostingPermission.CachedAnswersAsStored` | internal/api/handler/ws_handler.go:792-835 | on every run a cached permission belongs to a stored member; it agrees with the row on having left if and only if it did not outlive the dismissal of its room; then a cached mute is a mute, and the two differ exactly while a mute ends within the present second |
| `PostingPermission.OnlyBlindDismissals` | internal/api/handler/group_handler.go:55-68 | entries outlive a dismissal only on runs with a dismissal that marks the rows as left and then fails to read the members |
| `PostingPermission.DismissalKeepsIff` | internal/api/handler/group_handler.go:268-307 | a dismissal keeps the entries of other rooms, and those of its own room exactly when it cannot read the members |
| `PostingPermission.DismissedMayPost` | internal/api/handler/group_handler.go:55-68 | a run that creates a group, checks its owner and dismisses the group without reading its members: the owner may still post by the cache, though the row says left |
| `PostingPermission.CacheAgainstRow` | internal/api/handler/ws_handler.go:816-834 | the same comparison for any entry made from a row, at any time |
| `PostingPermission.RowVerdict` | internal/api/handler/ws_handler.go:808-835 | without an entry a check answers by the row's times: left, still muted, or allowed |
| `PostingPermission.ChecksFillTheCache` | internal/api/handler/ws_handler.go:792-859 | a check or query leaves an entry if and only if there was one, or what was read could be cached |
| `PostingPermission.CachedListIsActive` | internal/api/handler/ws_handler.go:837-859 | on every run a cached member list of a group is exactly the set of members who have not left, and one of a direct room holds only such members |
| `PostingPermission.EnsureKeepsListIff` | internal/api/handler/ws_handler.go:1237-1256 | completing the rows of a direct room keeps its cached list right if and only if no row was missing, since the list is not dropped |
| `PostingPermission.DirectListMisses` | internal/api/handler/ws_handler.go:1237-1256 | a run on which a direct room's second row is inserted late and its cached list goes on missing that user |
| `PostingPermission.DepartedIsRefused` | internal/api/handler/ws_handler.go:792-835 | a check answers for the row of the trimmed names: it says that this user left only if the row does, always does so unless the entry outlived a dismissal, and fails exactly when the cache has no entry and the database no row under the names as given |
| `Readmission.RemovedStaysOutIff` | internal/api/handler/group_handler.go:357-405 | after a kick on any run, over all later actions: the user is out at every moment if and only if no owner's or administrator's row, left or not, takes the user back; until then the user is not active and no check under any spelling of the names lets the user post |
| `Readmission.RemovedAdminReturns` | internal/api/handler/group_handler.go:357-405 | a run on which a group's owner removes an administrator, who adds himself back and may post |
| `PostingPermission.AddActivates` | internal/api/handler/group_handler.go:370-409 | an add makes exactly the listed stored users active whose lookup, insert and update succeed |
| `PostingPermission.AddedIdsAre` | internal/api/handler/group_handler.go:370-405 | the loop reports exactly the listed users who had no active row, as far as the database does not fail for them |
| `Membership.LosesMembershipIff` | internal/api/handler/group_handler.go:268-560 | over all actions, a member stops being active if and only if an owner kicks him, or an administrator does and he is a plain member, or he leaves and is not the owner, or the owner dismisses the group |
| `Membership.GainsMembershipIff` | internal/api/handler/group_handler.go:85-409 | over all actions, a user becomes active if and only if he founds the group or is listed at its founding, an owner's or administrator's row lists him, or a direct room's rows are completed; the founder as owner, others as plain members |
| `Membership.RoleChangesIff` | internal/api/handler/group_handler.go:666-719 | over all actions, the role of a stored row changes if and only if the group's owner makes an active member other than himself an administrator, and its mute never changes |
| `PostingPermission.RoomsFollow` | internal/api/handler/group_handler.go:85-307 | over all actions, rooms come only by a founding or a direct chat, and a room changes only by its owner's dismissal |
| `PostingPermission.CreateActivates` | internal/api/handler/group_handler.go:85-161 | a new group's active members are its creator as owner and the listed users as plain members, blanks and repeats ignored; only the creator when a listed user is unknown or their insert fails, nobody when the owner's insert fails |
| `PostingPermission.GroupService.CheckGroupPostingPermission` | internal/api/handler/ws_handler.go:792-835 | the verdict and the cache after a check, with the cache asked under trimmed names |
| `PostingPermission.GroupService.GetGroupMemberIDs` | internal/api/handler/ws_handler.go:837-859 | the list and the cache after a query |
| `PostingPermission.GroupService.InvalidatePermission` | internal/api/handler/group_handler.go:28-53 | exactly the entries under the trimmed names of the room and its listed, non-blank users are dropped |
| `PostingPermission.GroupService.InvalidatePermissionByRoom` | internal/api/handler/group_handler.go:55-68 | the entries of all users with a row in the room are dropped, and none when the rows cannot be read |
| `PostingPermission.GroupService.AddRows` | internal/api/handler/group_handler.go:370-405 | the rows after the loop and the users it reports as added |
| `PostingPermission.GroupService.Add` | internal/api/handler/group_handler.go:327-409 | the rows and both caches after an add |
| `PostingPermission.GroupService.Remove` | internal/api/handler/group_handler.go:444-495 | the rows and both caches after a kick |
| `PostingPermission.GroupService.Leave` | internal/api/handler/group_handler.go:523-556 | the rows and both caches after a departure |
| `PostingPermission.GroupService.Promote` | internal/api/handler/group_handler.go:666-719 | the rows after the owner makes the listed, active members administrators |
| `PostingPermission.GroupService.Dismiss` | internal/api/handler/group_handler.go:268-307 | the rows and both caches after a dismissal, also when the rows could not be updated or the members not be read |
| `PostingPermission.GroupService.Create` | internal/api/handler/group_handler.go:85-147 | the room and its rows after a creation, with the inserts of the room, of the owner and of the others failing separately |
| `PostingPermission.GroupService.EnsureDirectRoomMembers` | internal/api/handler/ws_handler.go:1237-1256 | the rows after the loop: one for each stored, non-blank user without one whose lookup and insert succeed |
| `PostingPermission.GroupService.Invited` | internal/api/handler/group_handler.go:124-140 | the collected users are distinct, and are the listed ones without blanks and the owner |
| `TokenRefresh.OneRefreshAtATime` | frontend/src/api/apiClient.ts:72-122 | between events at most one refresh call is in flight, exactly while isRefreshing, and a non-empty queue implies isRefreshing |
| `TokenRefresh.SettledExactlyOnce` | frontend/src/api/apiClient.ts:40-49 | each parked promise is settled once, by the refresh it was parked behind and with its outcome, and none is left when no refresh is in flight |
| `TokenRefresh.InitiatorRetriesOnce` | frontend/src/api/apiClient.ts:82-112 | the request that started a refresh is sent again at most once, and a request waits only while a refresh is in flight |
| `TokenRefresh.AnswerReachesEveryone` | frontend/src/api/apiClient.ts:92-122 | the answer to a refresh wakes every parked request with its outcome, resends or fails the initiator, touches no other request, and stores both new tokens or clears both |
| `TokenRefresh.PhasesFollowReplies` | frontend/src/api/apiClient.ts:52-122 | over all events, a request succeeds if and only if it gets a success; fails with any other error, an expiry when marked or without a refresh token, or a refused refresh; is parked by an expiry during a refresh, and marked and starts one by an expiry outside |
| `TokenRefresh.DoneStaysDone` | frontend/src/api/apiClient.ts:52-122 | no event changes a request that has ended |
| `TokenRefresh.TokensFollowAnswers` | frontend/src/api/apiClient.ts:86-117 | over all events, the tokens change exactly with a login, the answer to a refresh, and an expiry that finds no refresh token |
| `TokenRefresh.ApiClient.ProcessQueue` | frontend/src/api/apiClient.ts:40-49 | the loop settles every parked promise in order and empties the queue |
| `TokenRefresh.ApiClient.OnReply` | frontend/src/api/apiClient.ts:52-91 | the whole client state after a response |
| `TokenRefresh.ApiClient.OnResume` | frontend/src/api/apiClient.ts:73-79 | a woken request is sent again, or fails with the refresh |
| `TokenRefresh.ApiClient.OnRefreshAnswer` | frontend/src/api/apiClient.ts:92-122 | the whole client state after the answer to a refresh |
| `Resends.SendsAreBoundedIff` | frontend/src/api/apiClient.ts:52-122 | in every reachable state, some number bounds the further sends of a request over all continuations if and only if it is marked, done, or woken by a failed refresh, and that number is then 1 |
| `Resends.SentAnyNumberOfTimes` | frontend/src/api/apiClient.ts:72-79 | for every number, a run from the start on which one request is sent exactly that often |
| `MessageLists.IdsStayDistinct` | frontend/src/stores/chatStore.ts:515-721 | on every run with increasing send times and server ids, the ids in each list are pairwise distinct, however incoming messages, sends, streams and loads interleave at their awaits |
| `MessageLists.DistinctThroughoutIff` | frontend/src/stores/chatStore.ts:487-510 | at every moment of a run with server ids all lists are free of repeated ids if and only if no send goes to a list that has a message sent at the same millisecond |
| `MessageLists.SameMillisecond` | frontend/src/stores/chatStore.ts:487-510 | a run of two sends to one room in one millisecond, after which its list has one id twice |
| `MessageLists.IncomingKeepsDistinctIff` | frontend/src/stores/chatStore.ts:643-720 | an incoming message keeps the ids distinct if and only if it has an id, or is the first without one, or replaces that one |
| `MessageLists.StaleIndexOverwrites` | frontend/src/stores/chatStore.ts:582-691 | an index taken before the awaits replaces the optimistic copy and loses nothing else if and only if the copy still stands there; otherwise it overwrites another message |
| `MessageLists.PageBetweenOverwrites` | frontend/src/stores/chatStore.ts:582-691 | a run on which an older page is prepended between the first and the last step of an own message: a stored message is gone from the list and the optimistic copy stays |
| `MessageLists.IncomingArrives` | frontend/src/stores/chatStore.ts:643-720 | a finished incoming message is in its own list and no other list changes |
| `MessageLists.ReplyEndsStream` | frontend/src/stores/chatStore.ts:532-580 | the robot's reply removes the placeholder and the session of the first stream it answers, and nothing else |
| `MessageLists.PrependAddsMissing` | frontend/src/stores/chatStore.ts:1027-1036 | a prepend keeps the list as a suffix and adds exactly the loaded messages it lacked |
| `MessageLists.ReplaceShowsStored` | frontend/src/stores/chatStore.ts:1037-1060 | a replacing load shows the loaded messages, then exactly the placeholders of the room's open streams |
| `MessageLists.FindCopy` | frontend/src/stores/chatStore.ts:584-599 | the reversed search finds the newest unsent copy of the same kind and text within ten seconds, or none when there is none |
| `MessageSources.EveryMessageHasASource` | frontend/src/stores/chatStore.ts:484-1060 | on every run with server ids, every message a list shows is the copy of a send to that conversation, a received message marked sent, a stored message, or the placeholder of an acknowledged stream, which shows that work goes on or an end of that stream with its text |
| `MessageLists.EventShows` | frontend/src/stores/chatStore.ts:840-915 | a stream event changes its placeholder in place: content, status and time by the kind of event, and nothing else of any list; an end is noted in the session |
| `MessageLists.SessionsFollow` | frontend/src/stores/chatStore.ts:532-771 | over all events, sessions are opened, closed and marked exactly by acknowledgements, the robot's replies, stream ends and a disconnection |
| `MessageLists.BeginRemembers` | frontend/src/stores/chatStore.ts:582-617 | an incoming message remembers the newest unsent copy of itself, of the same kind and text and within ten seconds, if it is one's own, and none otherwise |
| `MessageLists.ChatStore.SendOptimistic` | frontend/src/stores/chatStore.ts:484-510 | the optimistic copy is appended to its room's list |
| `MessageLists.ChatStore.BeginLoading` | frontend/src/stores/chatStore.ts:947-1000 | the messages of the queried rows, in order, wait for the end of the load |
| `MessageLists.ChatStore.BeginIncoming` | frontend/src/stores/chatStore.ts:515-600 | the state at the first await of an incoming message |
| `MessageLists.ChatStore.FinishIncoming` | frontend/src/stores/chatStore.ts:643-720 | the state after the last await of an incoming message |
| `MessageLists.ChatStore.HandleAck` | frontend/src/stores/chatStore.ts:723-771 | the placeholder and the session of a stream, once each |
| `MessageLists.ChatStore.HandleStreamEvent` | frontend/src/stores/chatStore.ts:829-926 | a stream event changes its placeholder in place and, at its end, its session |
| `MessageLists.ChatStore.FinishLoading` | frontend/src/stores/chatStore.ts:1026-1060 | the list after a prepend or a replacing load |
| `Thumbnail.ScaledIsFloor` | internal/service/file/file_service.go:133-139 | the scaled side is the exact integer floor of the proportional value, for any rounding that keeps integers below 2^53 and errs by at most one part in 2^53 between 2^-53 and 2^53 |
| `Thumbnail.Binary64IsRounding` | internal/service/file/file_service.go:135-138 | the arithmetic of float64, with its subnormal grain, is such a rounding |
| `Thumbnail.NearestIsNearest` | internal/service/file/file_service.go:135-138 | rounding to an integer gives the nearest, and the even one of two |
| `Thumbnail.ScaledSizeFits` | internal/service/file/file_service.go:124-147 | a scaled image measures 1 to the maximum on both axes and never more than the source; the long side is the maximum, the short side that floor or 1 |
| `Thumbnail.SampleFacts` | internal/service/file/file_service.go:115-120 | the sampled coordinate is the only one k with k times the target at most i times the source and less than (k + 1) times the target |
| `Thumbnail.SamplesIncrease` | internal/service/file/file_service.go:115-120 | sampled rows and columns strictly increase when the target is not larger |
| `Thumbnail.ResizeNearest` | internal/service/file/file_service.go:106-122 | the nested loops set every target pixel to the source pixel it falls on when the target is stretched over the source, or leave it clear for an empty source |
| `Thumbnail.ResizeToMax` | internal/service/file/file_service.go:124-147 | an image is returned as it is exactly when it fits; any other becomes an image of the size that float64 arithmetic gives, each pixel the one it falls on; the size is the exact one as long as sides times the maximum stay below 2^53 |

## Left out

- Libraries and transports: AMQP, Redis, GORM, SQLite, HTTP, WebSocket and object storage are queues, sets, maps and steps that can fail; nothing of their own behaviour is modelled.
- Text encodings: JSON is a text without line breaks that starts with `{` and ends with `}`; streams are cut between characters, not bytes.
- Other modules of the repository: authentication, the agent node graph, prompts, tools, retrieval, configuration, migrations, user interface and demo pages.
- Duplicated code under internal/service/task and internal/taskservice/done_event_mq.go: it repeats code that is modelled once.
- RequestId.BuildThenParse: the older `ws_command` form, which is parsed but no longer built, is not modelled; UUIDs are parsed as github.com/google/uuid 1.6 does.
- WorkerPool.PublishDone: onFinish is one step that may fail; its own loop of publish attempts, and the mark it makes when they are used up, appear as a MarkFailed at any later time.
- WorkerPool.CreateAndEnqueue: priorities and payloads do not influence the outcome and are not carried.
- TaskStore.MemoryStore.MarkRunning: clones are values, so aliasing between a returned task and the stored one cannot occur in the model.
- StreamHub.AgentStreamHub.SendToAll: the sends follow the lock's release at once; a publish that races with an unsubscribe, and so may send on a closed channel, is not modelled.
- StreamHub.EverySubscriptionSeesAStretch: two publishes of one request at the same time could send in the reverse of the order they were stored in, and a channel would then not receive in order; the model takes one publish at a time, as one goroutine publishes for a subscribed request.
- AgentStream.Stream: writing never fails, and the checks of the request before the stream starts are left out; the client's abort after agent.done only stops its reading.
- DoneEvents.OneCopyOrOneEnd: acknowledgements succeed and a publish either reaches the queue or fails; redelivery by the broker, its length limit and its message expiry are left out.
- DoneEvents.RetrySpendsFuel: a float header outside the 64-bit range converts to the smallest integer, as on amd64; Go leaves it open.
- DoneEvents.DoneEventConsumer.Start: the loop ends with the given deliveries; cancellation and a closed channel are its end, and logging is left out.
- ConnectionHub.StatusTellsPresence: updates are recorded in the order the hub issues them; the database writes and friend notifications they start in goroutines are not modelled.
- ConnectionHub.ClosedOnceNeverSentTo: sends from outside the hub's loop, such as the pong reply, are not modelled.
- HubRouter.UserNodesAreHolders: connects and disconnects are whole steps and their writes to the shared sets succeed; expiry of the connection table's entries is left out.
- HubRouter.RoomCountsCover: the nodes added to a room's set when members are added to a group, and its removal when a group is dismissed, are left out; they do not touch the local counts.
- Delivery.ClientsGetTheirDue: which clients are registered with the hub is given, not derived from the router's connects, and the hub handles what it is handed without registrations, removals or reads of the channel in between; `Delivery.EachTakesItsCopies` says what happens when a channel fills.
- HubRouter.DeliveredExactlyOnce: every node listens on its channel, and a payload that was published reaches it.
- RoomLog.SequenceIsContiguous: messages are never deleted, as nothing in the repository deletes them; attachments, payloads and times are not carried, and the row lock of the last message is not relied on. Names compare as given, as in PostgreSQL; MySQL ignores white space after a name.
- PostingPermission.CachedAnswersAsStored: each handler is one step, so a cache write that follows an older read of the row is left out; deletes from the cache succeed, clocks read later than the first second of 1970, and expiry is the removal of an entry. Users are not deleted, and nobody writes mutes.
- PostingPermission.CachedListIsActive: a list is asked for only of a stored room, as every caller has just stored a message there.
- PostingPermission.GroupService.Remove: answers are success or failure; status codes, notifications and the refresh of room nodes are left out. Cache keys are pairs of trimmed names, so that no name holds the separator of the key.
- TokenRefresh.ApiClient.OnReply: the allow list of addresses and the headers of requests are left out.
- MessageLists.IdsStayDistinct: ids are given by their origin, so that no server id looks like a temporary one; conversation lookup is a parameter, and attachments, cache paths, stream steps and unread counts are not carried.
- MessageLists.ChatStore.BeginLoading: the paged query answers with any rows of the room, none twice; its order is not used.
- The sync cursor: live messages overwrite it unguarded, so no completeness of the local store is claimed.
- Thumbnail.ResizeToMax: results beyond the largest float64 are not infinite in the model; conversion between colour models, JPEG encoding and storage are left out.
