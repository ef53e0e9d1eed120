# Real-time delivery, verified

A model in Dafny of the protocols of this repository that promise not to lose, repeat or reorder anything, and proofs of
what they promise. The state machines take every step of every goroutine or handler separately; a run is any sequence of
steps, so the theorems cover every interleaving. Calls to Redis, the broker and Telegram may be done, not done, or done
although the caller sees a failure.

| files | what they model |
|---|---|
| `SaveQueue`, `TaskStreams`, `YjsSaveQueue` | the bounded queue of Yjs deltas and its flushes to the task streams, as values and as the class that updates them in place |
| `YjsRoom`, `YjsFifo`, `YjsJoin`, `YjsCoverage`, `YjsCompaction`, `YjsProgress` | one room as interleaved steps: accepting, acknowledging, fan-out, flushing, joining, seeding, compaction, and what it can always still do |
| `CodeStore`, `CodeVersions`, `CodeSave` | the version numbers of a session's code across replicas, and the coalescing save worker |
| `SseStream`, `SseOrder`, `SseComplete`, `SseProgress`, `SseConnection`, `SseRegistry` | replay and live delivery of notifications, the client buffer, the connection registry |
| `StreamIds`, `EventStream`, `Decimal` | stream ids, and the wire frames against the parser of the WHATWG HTML Standard |
| `DedupCache`, `PushDelivery`, `PushOnce` | Telegram push delivery with retries and dead letters, the deduplication cache, and the two together under a clock |
| `AuthFence` | the generation fence and the durable session revocation |
| `Slots`, `DedupKey` | slot times and the idempotency key |
| `Sequences`, `Basics` | shared facts and types |

A class method is proved equal to a function on values, and what the code promises is proved about that function and
about the runs built from it. Beside the laws of what never happens stand those of what can always still happen, with the
runs that show it. Promises that turned out false come with a run that breaks them and the exact condition
under which they hold:

- Trimming a task stream loses edits unless every snapshot covers what was visible (`YjsCompaction.CompactionExact`,
  `YjsCompaction.RaceLosesAnEdit`); the repository knows this race.
- Stamped code versions are not distinct across replicas, even without failures: a number overtaken by an accepted update
  is replaced by the local counter (`CodeVersions.DistinctIffNoneOvertaken`, `CodeVersions.CalmRunRepeats`).
- A live subscription can miss an event between two empty polls, since "$" is resolved again
  (`SseComplete.CompleteIffCursorInTime`, `SseComplete.EmptyPollLosesAnEvent`).
- A push can be lost when the connection drops while a send is running and the redelivered message is acknowledged as in
  flight, although nothing else carries it (`PushDelivery.NeverLost`, `PushDelivery.DropLosesAPush`).
- Revocation leaves a session of an old generation that was created after the task row; both gates reject it
  (`AuthFence.LateSessionSurvives`, `AuthFence.RealtimeGateShut`).
- `0000-02-29` is on the calendar and is not accepted (`Slots.ParseFormat`).

`dafny verify dfyconfig.toml` checks the whole project.

## Model

| member | source | states |
|---|---|---|
| SaveQueue.EnqueueKeeps | apps/realtime/internal/ws/save_queue.go:78-95 | A delta goes to the back of its own task's list, or is refused exactly when the lengths already add up to the limit; counter, limit and the other lists stay right |
| SaveQueue.CommitKeeps | apps/realtime/internal/ws/save_queue.go:117-133 | A commit removes exactly the oldest `count` deltas of one task, for every count, zero, negative and too large included, and keeps counter and other lists right |
| SaveQueue.EmptyWhenZero | apps/realtime/internal/ws/save_queue.go:136-140 | The counter is never negative, and it is zero exactly when nothing is queued |
| TaskStreams.YjsDocStore.AppendTaskUpdate | apps/realtime/internal/storage/redis.go:745-756 | One XADD on the streams in place: the empty delta, the empty key and a disabled store are acknowledged without a write; the three outcomes of a call |
| TaskStreams.AppendAllKeeps | apps/realtime/internal/ws/save_queue.go:189-207 | A batch of appends with any outcomes: what is written is an initial part of what was accepted, in order, the reported part plus at most one more, each delta repeated consecutively |
| TaskStreams.KeptLosesNothing | apps/realtime/internal/ws/save_queue.go:204-206 | Stream growth and queue together hold every accepted delta that an XADD records |
| YjsSaveQueue.YjsSaveQueue.Enqueue | apps/realtime/internal/ws/save_queue.go:78-95 | The queue in place: accepted exactly when below the limit, and then durable together with the streams |
| YjsSaveQueue.YjsSaveQueue.GetPending | apps/realtime/internal/ws/save_queue.go:100-114 | A copy of the waiting deltas in order, with the queue untouched |
| YjsSaveQueue.YjsSaveQueue.CommitBatch | apps/realtime/internal/ws/save_queue.go:117-133 | The in-place commit is the commit of the queue value |
| YjsSaveQueue.YjsSaveQueue.PendingKeys | apps/realtime/internal/ws/save_queue.go:143-154 | Every task with something to flush, each once |
| YjsSaveQueue.YjsSaveQueue.GetBatch | apps/realtime/internal/ws/save_queue.go:157-171 | At most batchSize of the oldest deltas of a task |
| YjsSaveQueue.YjsSaveQueue.AppendBatch | apps/realtime/internal/ws/save_queue.go:189-202 | The append loop stops at the first reported failure with the number acknowledged before it |
| YjsSaveQueue.YjsSaveQueue.FlushSync | apps/realtime/internal/ws/save_queue.go:174-217 | One pass: nothing accepted is lost whatever the store does; with a healthy store each task moves exactly its first batch to its stream in order, and the total shrinks when anything was queued |
| YjsSaveQueue.YjsSaveQueue.FinalFlush | apps/realtime/internal/ws/save_queue.go:241-252 | The shutdown drain stops, and with a healthy store and enough passes before its deadline ends with an empty queue and every stream extended by all that was waiting, in order |
| YjsSaveQueue.FlushAllDurable | apps/realtime/internal/ws/save_queue.go:182-217 | A pass over any tasks with any append outcomes keeps every accepted delta in queue or stream |
| YjsSaveQueue.AcceptedIsKept | apps/realtime/internal/ws/save_queue.go:116-133 | Of a task kept durable, every accepted delta an XADD records is queued or in its stream |
| YjsSaveQueue.DeltaSurvivesFlushIffStorable | apps/realtime/internal/storage/redis.go:745-748 | The exact condition of that guarantee, for any queue and any stream: after a flush of a task queue and stream together hold as many copies of a delta as before if and only if the append really writes it or it was not in the batch |
| YjsFifo.DurableFifo | apps/realtime/internal/ws/save_queue.go:157-217 | In every run the queue of a task is the end of what was accepted, the replica's stream entries are an initial part of it in order, each repeated consecutively, and the two overlap or meet; the counter is exact and bounded |
| YjsFifo.AppendOneKeeps | apps/realtime/internal/ws/save_queue.go:190-202 | One append of the flusher, acknowledged, refused, or done although reported as failed, keeps that |
| YjsFifo.AcceptedIsKept | apps/realtime/internal/ws/save_queue.go:204-206 | An accepted delta that has left the queue is in the stream |
| YjsJoin.JoinComplete | apps/realtime/internal/ws/room.go:370-446 | In every interleaving a finished yjs.init whose read was not cut by a trim lists, once repeats are dropped, the accepted deltas 0, 1, 2, ... in order, at least all accepted before the queue was read |
| YjsJoin.NoTrimReadsAll | apps/realtime/internal/ws/room.go:381-416 | Without an XTRIM every stream read is whole, so join completeness has no further premise |
| YjsJoin.JobAdvances | apps/realtime/internal/ws/room.go:370-416 | Each read of a join, the second one after a seeding attempt included, keeps what the list needs |
| YjsCoverage.NothingMissed | apps/realtime/internal/ws/room.go:259-338 | A client in the room that is not being evicted and has its yjs.init missed no delta accepted here for that task: it is in the list, came live, is its own, or is the one the Run loop is just handling |
| YjsCoverage.CoverageHolds | apps/realtime/internal/ws/room.go:251-252 | In every run each client has every accepted delta by snapshot, live or as author, and only accepted deltas are acknowledged or sent |
| YjsCoverage.InRoomIff | apps/realtime/internal/ws/room.go:259-338 | Who stays: in every run a registered client is in the room, and not about to be evicted, if and only if it has not left, was not displaced, was never slow while another's delta was sent to it, and no acknowledgement or yjs.init to it failed |
| YjsCoverage.FanOutReaches | apps/realtime/internal/ws/room.go:709-734 | A delta that is fanned out reaches every other client that is not slow, and leaves it in the room |
| YjsCoverage.AcceptedIsStorable | apps/realtime/internal/ws/client.go:345-368 | In every run what the Run loop accepts is something an XADD records |
| YjsProgress.RunLoopFinishes | apps/realtime/internal/ws/room.go:549-599 | From any state the Run loop can finish with the delta in hand: everybody who stays has it, unless they wrote it |
| YjsProgress.JoinFinishes | apps/realtime/internal/ws/room.go:370-446 | From any state a join under way can be finished: its list is sent, and the client keeps its place |
| YjsProgress.FirstReadTakesAll | apps/realtime/internal/ws/room.go:381-416 | A join takes all that XRANGE shows, unless queue and stream are both empty: then seeding is tried first |
| YjsProgress.QueueCanBeFlushed | apps/realtime/internal/ws/save_queue.go:174-217 | From any state with a free flusher all that waits for a task can be flushed: its stream is extended by just that, in order, and nothing else changes |
| YjsCoverage.AckedIsDurable | apps/realtime/internal/ws/room.go:564-596 | A delta that anyone was sent or acknowledged is queued or in the stream |
| YjsCompaction.CompactionPreserves | apps/realtime/internal/storage/redis.go:759-792 | If every snapshot covers what was visible when it was appended, no interleaving of appends, snapshots and trims, failed trims included, changes the document the stream shows |
| YjsCompaction.CompactedJoinComplete | apps/realtime/internal/ws/room.go:370-446 | Under that premise a yjs.init still has every operation accepted before the queue was read |
| YjsCompaction.NothingMissedCompacted | apps/realtime/internal/ws/room.go:259-338 | Under that premise, whatever was trimmed before its list was read, a client in the room that is not being evicted has the operations of every delta accepted here for the task in its list, or the delta came live, is its own, or is the one the Run loop is just handling |
| YjsCompaction.LaterEntriesSurvive | apps/realtime/internal/storage/redis.go:780-781 | In every run and with no premise, an entry the stream no longer shows was there before some snapshot was appended, so what comes after the last snapshot survives every trim |
| YjsCompaction.CompactionExact | apps/realtime/internal/storage/redis.go:759-792 | The exact condition over runs: the snapshots of a run all cover what was visible as they were appended if and only if at no moment of it would the trim behind some snapshot take anything out of the document |
| YjsCompaction.RaceLosesAnEdit | docs/tasks/yjs-stream-compaction-race.md:16-22 | A run in which an accepted, acknowledged and flushed edit is lost to a snapshot taken without it |
| CodeStore.SaveKeepsNewest | apps/realtime/internal/storage/redis.go:579-596 | The conditional save leaves the newer of two versions, with key and snapshot in agreement |
| CodeStore.RedisStore.NextCodeVersion | apps/realtime/internal/storage/redis.go:560-577 | The number issued is above every number issued before and above the saved version, even when the counter key is gone |
| CodeStore.RedisStore.SaveCodeState | apps/realtime/internal/storage/redis.go:579-596 | The script on the keys in place; it writes exactly when the version is newer or unversioned |
| CodeVersions.VersionOrder | apps/realtime/internal/ws/room.go:491-520 | Under any failures, key losses and foreign updates the versions a room stamps and accepts strictly increase, exactly when the snapshot it may restore has no negative version |
| CodeVersions.TakenIffNewest | apps/realtime/internal/ws/room.go:507-520 | In every run an update from elsewhere is taken if and only if its version is above every version the room has restored, stamped or accepted so far; otherwise nothing changes |
| CodeVersions.OwnInOrder | apps/realtime/internal/ws/room.go:494-497 | In every run the Run loop takes a room's own updates in the order they were stamped, none twice and none left out |
| CodeVersions.UnansweredAttempts | apps/realtime/internal/ws/room.go:906-943 | Without an answer three attempts are made, each that got through costs a number, and then the room counts by itself |
| CodeVersions.AnsweredAttempt | apps/realtime/internal/ws/room.go:906-943 | The first answered attempt ends the allocation with the number it took, which is above the counter, the saved version and all numbers lost before |
| CodeVersions.RepeatsNeedFallback | apps/realtime/internal/ws/room.go:945-953 | While the counter key lives, two updates with the same version on any replicas include one that a replica numbered by itself |
| CodeVersions.DistinctIffNoneOvertaken | apps/realtime/internal/ws/room.go:945-953 | The exact condition of distinct versions: after any failure-free run in which no replica has numbered an update by itself, every failure-free continuation without a delivery keeps all stamped versions distinct if and only if no number in a replica's hand is at most that replica's counter |
| CodeVersions.OvertakenNumberBreaksDistinctness | apps/realtime/internal/ws/room.go:945-953 | From such a run with an overtaken number the continuation that stamps a version twice has no failure and no delivery; up to there all versions are distinct |
| CodeVersions.CalmRunRepeats | apps/realtime/internal/ws/room.go:499-520 | From any keys in which nothing is above the counter there is a run without any failure or expiry in which two updates are stamped with the same version |
| CodeVersions.NumberOvertaken | apps/realtime/internal/ws/room.go:499-520 | How it comes about, from any such keys: in a failure-free run a newer update is accepted between taking a number and stamping it |
| CodeVersions.NegativeSnapshotBreaksOrder | apps/realtime/internal/ws/room.go:158-172 | The run behind the condition of the version order |
| CodeVersions.CodeRoom.AllocateVersion | apps/realtime/internal/ws/room.go:906-943 | The three-attempt loop ends with a number above all issued and saved before, or with none exactly when no attempt was acknowledged |
| CodeVersions.CodeRoom.StampUpdate | apps/realtime/internal/ws/room.go:945-954 | The stamped version is above the room's counter, and becomes it |
| CodeVersions.CodeRoom.HandleUpdate | apps/realtime/internal/ws/room.go:494-520 | A room's own update is always taken as the last state, one from elsewhere exactly when it is newer than last state and counter; after an update from elsewhere the room is not behind it |
| CodeSave.NewestNeverLost | apps/realtime/internal/ws/room.go:522-544 | In every interleaving of the Run loop and the save worker, with any save failures, the highest of the initial and all submitted versions is the highest of those saved, queued, in the slot and in hand |
| CodeSave.NewestIsMax | apps/realtime/internal/ws/room.go:522-544 | That highest version is the maximum of what was submitted |
| CodeSave.NoLostWakeUp | apps/realtime/internal/ws/room.go:774-883 | While the worker waits in its select with anything in the slot, the signal is buffered, the retry timer is armed, or the Run loop is about to signal |
| CodeSave.RetryHasWork | apps/realtime/internal/ws/room.go:774-843 | In every run the queue stays within its size, and the retry timer is armed only while something newer than the last saved version is left |
| CodeSave.FailedSaveWaits | apps/realtime/internal/ws/room.go:820-842 | A failed save puts its version back, arms the retry and waits in the select; it does not try again by itself |
| CodeSave.OfferQueuesFirst | apps/realtime/internal/ws/room.go:522-543 | The slot is used only when the queue is full, and then holds the version or a newer one, with the worker signalled |
| CodeSave.SettlesSaved | apps/realtime/internal/ws/room.go:845-883 | With Redis answering and nothing submitted the possible moves run out in any order, and what they end in has saved the newest version |
| CodeSave.RedisHoldsNewest | apps/realtime/internal/ws/room.go:803-842 | When all replicas are idle Redis holds the highest of the version it started from and those submitted on any of them, in every run, exactly when the first snapshot has no negative version |
| CodeSave.CodeSaver.Submit | apps/realtime/internal/ws/room.go:522-543 | Queue, else coalescing slot and signal; the version or a newer one is kept |
| CodeSave.CodeSaver.SavePayload | apps/realtime/internal/ws/room.go:803-842 | Skips what is not newer, saves, or puts the snapshot back and arms the retry |
| CodeSave.CodeSaver.DrainPending | apps/realtime/internal/ws/room.go:845-868 | The drain loop ends with an empty slot and its version saved, or with the version back in the slot and the retry armed |
| SseOrder.WrittenIncreases | apps/realtime/internal/handler/sse.go:248-400 | In every run, whatever is dropped, trimmed, truncated or fails, the stream events written to a connection have strictly increasing ids |
| SseOrder.DeliverKeeps | apps/realtime/internal/handler/sse.go:347-356 | Delivering or skipping one buffered event keeps that |
| SseOrder.ReadBatchKeeps | apps/realtime/internal/sse/hub.go:447-490 | So does a batch of the reader, with its cursor rules |
| SseComplete.DeliveredExactly | apps/realtime/internal/handler/sse.go:248-400 | With nothing dropped, trimmed, cut short or failed and all entries typed: what a connection gets is the history up to the last history read and the live entries from the later of that read and the cursor on |
| SseComplete.CompleteIffCursorInTime | apps/realtime/internal/sse/hub.go:431-490 | A connection that has caught up got exactly the stream after Last-Event-ID if and only if nothing came between the last history read and the fixing of the live cursor |
| SseComplete.FlawedIff | apps/realtime/internal/handler/sse.go:248-400 | What counts as a loss: in every run the stream was trimmed, an event met a closed connection or a full buffer, a page could not be read or written, the limit was reached, or a write failed, and nothing else |
| SseComplete.BroadcastReaches | apps/realtime/internal/sse/hub.go:493-504 | A broadcast reaches every live open connection that has room, behind what waits there and whatever the replay has shown, and never waits |
| SseComplete.BufferBounded | apps/realtime/internal/sse/client.go:73-90 | In every run the buffer stays within its capacity |
| SseProgress.CanCatchUp | apps/realtime/internal/handler/sse.go:248-400 | From every state with an open connection there is a way on to having written everything, with no loss but what the limit of the replay cuts off |
| SseProgress.CloseDrains | apps/realtime/internal/handler/sse.go:370-400 | A closed connection takes nothing more, writes out its buffer in order and ends |
| SseComplete.EmptyPollLosesAnEvent | apps/realtime/internal/sse/hub.go:447-484 | A run without any failure that loses an event, because an empty poll leaves the cursor at "$" |
| SseComplete.PageSplits | apps/realtime/internal/storage/notifications.go:136-155 | A page of history is the next part of it, and an empty page means its end |
| SseComplete.CursorMovesIffTyped | apps/realtime/internal/sse/hub.go:484-485 | The reader's cursor moves exactly when a batch has a typed entry |
| SseComplete.ReplayStopsIffUntypedPage | apps/realtime/internal/handler/sse.go:287-289 | The replay stops at the first page without a typed entry |
| SseConnection.ReplayMissedEvents | apps/realtime/internal/handler/sse.go:248-315 | The replay loop ends; it writes on in order up to its cursor, and with typed entries skips nothing and, unless failed or truncated, leaves nothing; it stops within a page of its limit and reports a failure only when a write or a read has failed |
| SseConnection.WritePage | apps/realtime/internal/handler/sse.go:291-300 | A page stops at the first failed write, and only there, with the cursor at the last event written |
| SseConnection.Drain | apps/realtime/internal/handler/sse.go:370-385 | The drain writes what is left in the buffer and was not replayed, in order |
| SseConnection.Client.Send | apps/realtime/internal/sse/client.go:73-90 | Never waits, never exceeds the buffer; closes the client exactly when it drops and no send had room for the grace period |
| SseConnection.Client.HandleOverflow | apps/realtime/internal/sse/client.go:95-120 | One drop: counted, and the first one since the buffer had room is remembered |
| SseConnection.FirstDropIsEarliest | apps/realtime/internal/sse/client.go:101-110 | The remembered time is that of the earliest drop after which nothing had room |
| SseRegistry.AccountingHolds | apps/realtime/internal/sse/hub.go:259-420 | After every step of every run sessions, address counts, both limits and the gauge are exactly what the registered connections make them |
| SseRegistry.GaugeAtQuiescence | apps/realtime/internal/sse/hub.go:307-311 | With nobody registering or leaving the gauge is the number of registered connections |
| SseRegistry.RemoveKeeps | apps/realtime/internal/sse/hub.go:363-395 | Removing a registered connection finds it, drops an empty session and a zero count, and keeps the accounting |
| SseRegistry.RefusesIff | apps/realtime/internal/sse/hub.go:263-276 | A registration is refused if and only if the hub is closed or the registered connections of the user or the address have reached the limit |
| SseRegistry.ComesAndGoes | apps/realtime/internal/sse/hub.go:259-420 | Entering, being counted, and leaving or being rolled back leaves registry, counts and gauge as they were |
| SseRegistry.ClosedForGood | apps/realtime/internal/sse/hub.go:262-265 | After the hub is closed nobody gets in any more, whatever happens |
| SseRegistry.ConnectionHub.Register | apps/realtime/internal/sse/hub.go:259-346 | Refused with nothing changed, by the limit that is checked first, or registered, or rolled back over the cluster limit: sessions, address counts and gauge are those there were, and the connection is gone |
| SseRegistry.ConnectionHub.RemoveClient | apps/realtime/internal/sse/hub.go:363-420 | Removes a registered connection once; a second call changes nothing |
| StreamIds.ValidIff | apps/realtime/internal/sse/event.go:118-147 | Accepted are exactly one run of digits or two joined by a dash, of at most 40 characters |
| StreamIds.CompareAgreesIff | apps/realtime/internal/sse/event.go:152-176 | The comparison agrees with the order of the two numbers exactly when saturation at the largest int64 does not interfere |
| StreamIds.CompareIsRank | apps/realtime/internal/sse/event.go:152-176 | The comparison is a total order, that of one number for each id |
| StreamIds.SplitPrint | apps/realtime/internal/sse/event.go:170-176 | An id printed from two int64 numbers is valid and splits back into them |
| EventStream.ParseRender | apps/realtime/internal/sse/event.go:60-113 | From any framable sequence of event, comment and retry frames a client following sections 9.2.5 and 9.2.6 of the WHATWG HTML Standard gets exactly the events in order, each with type, normalised body and the last non-empty id, and the last retry time |
| EventStream.FrameRoundTripIff | apps/realtime/internal/sse/event.go:60-87 | A frame comes through with its type and id if and only if the type is non-empty, neither has a line break and the id has no NUL |
| EventStream.BodyKeptIff | apps/realtime/internal/sse/event.go:91-94 | A body arrives unchanged if and only if it has no CR |
| EventStream.NormalizeLine | apps/realtime/internal/sse/event.go:91-94 | Normalising turns each CR LF, CR or LF into one LF and leaves the lines alone |
| EventStream.LineBreaksAreOne | apps/realtime/internal/sse/event.go:91-94 | The parser makes the same of any text and of its normal form |
| EventStream.FeedFrame | apps/realtime/internal/sse/event.go:60-113 | One frame takes the parser from one frame boundary to the next |
| EventStream.WriteDataLines | apps/realtime/internal/sse/event.go:91-100 | The loop writes one data line for each line of the normalised body |
| EventStream.FrameBytes | apps/realtime/internal/sse/event.go:60-87 | The buffer ends as the frame whose round trip is proved |
| DedupCache.CacheRefinesLog | apps/telegram-bot/src/push/push-delivery.ts:180-207 | In every run with a non-decreasing clock the cache is the end of the log of last completions, within capacity, and what is gone has expired or has capacity younger records |
| DedupCache.BeginAgreesWithLog | apps/telegram-bot/src/push/push-delivery.ts:168-177 | begin turns an id away exactly when it is in flight or was completed within ttl with fewer than capacity other ids completed since |
| DedupCache.CompleteLeavesFresh | apps/telegram-bot/src/push/push-delivery.ts:180-207 | After a completion nothing expired is left and the completed id is the youngest record |
| DedupCache.SendsApart | apps/telegram-bot/src/push/push-delivery.ts:168-193 | Without a restart two successful sends of one id are at least ttl apart, while at most capacity ids are remembered as completed within one ttl |
| DedupCache.DeduplicationCache.Begin | apps/telegram-bot/src/push/push-delivery.ts:168-177 | Takes an id exactly when the cache does not know it |
| DedupCache.DeduplicationCache.Complete | apps/telegram-bot/src/push/push-delivery.ts:180-188 | Moves the id to the youngest record and evicts |
| DedupCache.DeduplicationCache.Release | apps/telegram-bot/src/push/push-delivery.ts:191-193 | Only ends the delivery |
| DedupCache.DeduplicationCache.Evict | apps/telegram-bot/src/push/push-delivery.ts:196-207 | The two loops drop exactly the expired front and then the oldest above capacity |
| PushDelivery.NeverLost | apps/telegram-bot/src/push/push-consumer.ts:257-412 | The exact condition over runs with crashes, dropped connections, lost settlements, redeliveries and failed publishes: at every moment each published notification is queued, unacknowledged, in the dead letter queue or sent, if and only if no message is ever acknowledged as a duplicate while its id was not sent and no other message carries it |
| PushDelivery.LosesIffRisky | apps/telegram-bot/src/push/push-consumer.ts:262-265 | From any state of a run in which nothing is lost, a step loses something if and only if it is such an acknowledgement |
| PushDelivery.RiskyIsStale | apps/telegram-bot/src/push/push-consumer.ts:262-265 | Behind such an acknowledgement is a handler that outlived its connection: it carries the id, and no live handler does |
| PushDelivery.NeverLostWithoutDrops | apps/telegram-bot/src/push/push-consumer.ts:257-412 | No run in which the connection is not lost while the process lives has such an acknowledgement, so crashes alone lose nothing |
| PushDelivery.DropLosesAPush | apps/telegram-bot/src/push/push-consumer.ts:262-265 | A run without a crash after which a notification that was never sent is nowhere |
| PushDelivery.RetriesBounded | apps/telegram-bot/src/push/push-consumer.ts:309-345 | The retry header strictly grows from copy to copy, every tier has a delay and holds only its own copies, and a message and the copies made of it one from the other are at most MAX_DELIVERIES |
| PushDelivery.RetryWaitsLonger | apps/telegram-bot/src/push/push-consumer.ts:331-342 | A retry waits for the longer of its tier's delay and what Telegram asked for, in the rate-limit queue exactly when the latter is longer, and its header counts it |
| PushDelivery.CanStillBeSent | apps/telegram-bot/src/push/push-consumer.ts:257-412 | No message is ever stuck: from any state each one that is not a dead letter can be sent |
| PushDelivery.LeavesOnlySettled | apps/telegram-bot/src/push/push-consumer.ts:257-412 | A message leaves the broker only by a settlement that reaches it |
| PushDelivery.PushConsumer.Handle | apps/telegram-bot/src/push/push-consumer.ts:257-325 | Handling one message from delivery to settlement is the composition of the steps, and leaves its notification sent, copied to a retry or dead letter queue, or back in the main queue |
| PushDelivery.PushConsumer.RetryMessage | apps/telegram-bot/src/push/push-consumer.ts:331-371 | The copy goes to the tier of its number or to the rate-limit queue, whichever waits longer, before the original is settled |
| PushDelivery.PushConsumer.DeadLetter | apps/telegram-bot/src/push/push-consumer.ts:388-412 | The same for the dead letter queue; a refused publish puts the original back |
| PushOnce.RejectsIff | apps/telegram-bot/src/push/push-consumer.ts:262-265 | With the real cache and a clock, the consumer turns a message away exactly when begin() does |
| PushOnce.CacheIsRun | apps/telegram-bot/src/push/push-consumer.ts:315-324 | What the cache holds in any run of the consumer is what the calls since the last crash make of it |
| PushOnce.CallsDisciplined | apps/telegram-bot/src/push/push-consumer.ts:313-324 | In every run the consumer completes only ids it has begun and not given up |
| PushOnce.SentOncePerTtl | apps/telegram-bot/src/push/push-consumer.ts:257-325 | Without a crash in between two successful sends of one messageId are at least ttl apart, whatever is dropped, redelivered or republished, while no more ids than the cache holds are completed within one ttl |
| PushOnce.CanBeSentAgain | apps/telegram-bot/src/push/push-consumer.ts:257-325 | In any run a waiting message whose id is neither in flight nor remembered can be delivered and sent |
| PushOnce.NeverLost | apps/telegram-bot/src/push/push-consumer.ts:257-412 | The exact condition of never losing a push, with the real cache and its expiry |
| AuthFence.RevocationIsDurable | apps/api/src/modules/auth/auth.service.ts:480-509 | At every point of every run of bumps, logins, revocation workers, crashes and the cron each committed bump has its task row, or its revocation was published, the fence is above it and no session the task covers is left |
| AuthFence.NoOldTokenAdmitted | apps/api/src/common/guards/access-token.guard.ts:75-115 | After a bump no token of its generation or an older one is admitted again, whatever Redis holds |
| AuthFence.AdmittedIff | apps/api/src/common/guards/access-token.guard.ts:75-115 | Who is admitted: in every run a token is if and only if the user is not deleted, its session is in Redis and of the token's own generation, and every committed bump was of an older one |
| AuthFence.RevokedSessionRefused | apps/api/src/common/guards/access-token.guard.ts:82-86 | From the revocation of a session on, and until it is created again, no token of it is admitted, whatever the database says |
| AuthFence.RowCanBeCompleted | apps/api/src/modules/auth/services/session-revocation.cron.ts:60-92 | Whatever has failed or crashed, a task row can be picked up and carried out: fence up, exactly the sessions not covered left, revocation published, row gone, and nothing else changed |
| AuthFence.AttemptsRunOut | apps/api/src/modules/auth/auth.service.ts:954-982 | A worker whose calls fail has as many attempts as it started with, and then leaves everything to the cron |
| AuthFence.BumpTakes | apps/api/src/modules/auth/auth.service.ts:480-509 | A bump goes through unless the caller has read another generation, and its task covers exactly the sessions created up to its date |
| AuthFence.LoginCreates | apps/api/src/modules/auth/services/auth-session.service.ts:37-76 | A login that gets through has its session, unless its generation is below the fence or the id is taken |
| AuthFence.RealtimeGateShut | apps/realtime/internal/storage/redis.go:484-519 | Once a task is carried out the realtime gate rejects every older generation from then on |
| AuthFence.CurrentLoginSucceeds | apps/api/src/modules/auth/services/auth-session.service.ts:37-76 | The fence never shuts out the current generation: its login gets a session that both gates accept |
| AuthFence.LateSessionSurvives | apps/api/src/modules/auth/services/auth-session.service.ts:521-541 | A run in which a session of the revoked generation stays in Redis, spared by its creation date; both gates reject it |
| AuthFence.AuthSessionService.CreateSession | apps/api/src/modules/auth/services/auth-session.service.ts:37-76 | The script in place: created exactly when the generation is not below the fence |
| AuthFence.AuthSessionService.RevokeAllUserSessions | apps/api/src/modules/auth/services/auth-session.service.ts:436-576 | Raises the fence, succeeds exactly when nothing that had to go failed to, and then leaves exactly the sessions the task does not cover |
| Slots.ParseFormat | packages/utils/src/datetime/slots.ts:50-91 | Reading the print of a date on the calendar gives it back, for all years 0 to 9999 but the one day that Date.UTC's century rule loses |
| Slots.AcceptedIff | packages/utils/src/datetime/slots.ts:50-79 | The accepted texts are exactly the prints of those dates |
| Slots.FormatParse | packages/utils/src/datetime/slots.ts:50-91 | Printing what was read gives the text back, and it is on the calendar |
| Slots.CenturyRule | packages/utils/src/datetime/slots.ts:37-41 | The month lengths are the Gregorian ones, but for February of year 0 |
| Slots.MonthsAddUp | packages/utils/src/datetime/slots.ts:37-41 | In every year the month lengths are the distances of the first days of the months in the Gregorian count of days |
| Slots.ResolvedIff | packages/utils/src/datetime/slots.ts:122-148 | In any zone a text resolves to an instant exactly when it was accepted, the zone maps it there and shows that very local time there |
| Slots.ShareIff | packages/utils/src/datetime/slots.ts:151-171 | Two half-open slots share an instant exactly when slotsOverlap says so and neither is empty |
| DedupKey.KeysEqualIff | packages/dto/src/notifications/notification-event.ts:202-235 | For schema-valid events and UUID recipients two keys are equal exactly when recipient, type and all identity fields are; display names never matter |

## Left out

- Sockets, HTTP, JWT, AMQP, Redis and Telegram themselves: only the effect of a call and its possible failure are modelled.
- Key expiry and the time-to-live of streams and dead letters: keys live for the run, except the counter, saved and code
  keys in `CodeVersions` and the records of `DedupCache`.
- Integer widths: versions, counters and generations are unbounded, except the saturating stream ids in `StreamIds`; the
  numbers of the Lua scripts are exact, as they are below 2^53.
- The session and update ids of a queued delta, a queue without a store and replacing the store: a room has one session
  and one store, and the update id is only logged and echoed.
- Joins and coverage for deltas accepted on other replicas: their queues are not visible here and the code does not
  promise it; their stream entries are in the model.
- The entries of a task stream with an empty data field: nothing appends them.
- Presence messages, room.sync, chat, task.switched ordering and displaced connections beyond their leaving the room.
- Closing a room: in `CodeVersions` and `CodeSave` a room that closes takes no more steps, and what it still held is
  outside the claims.
- Retry backoff, heartbeat, idle and flush timers: a timer may fire at any time.
- SseRegistry.ConnectionHub.Register: does not model the cluster counter in Redis; its verdict is a parameter.
- The reader goroutine's start and stop with a session, and multiplexing to several tabs: one connection is followed, with
  a reader that may be at work already when it registers.
- SseConnection.Client.Send: does not model two goroutines inside one Send; each send is one step.
- SseComplete.DeliveredExactly: counts any trim as a flaw, although a trim behind both cursors would do no harm.
- Rendering, keyboards, envelope parsing and the classification of Telegram errors: their verdict is a parameter.
- What the AMQP client library does with a settlement after it has reconnected, such as passing it on to a channel on which
  the delivery tag means another message: settling on a lost channel has no effect here.
- Refreshing a session, which rewrites it in Redis under new tokens: in `AuthFence` sessions are created, spared and
  deleted, and nothing is claimed about a refresh that runs beside a revocation.
- Passwords, mail, Telegram and GitHub linking, deactivated users, task rows without a generation: of the account only
  the generation and the deleted flag matter to the fence.
- Time zone rules: the two conversions of a zone are arbitrary functions.
- JSON bodies, DTO schemas, permissions, code running, e-mail, the web application and its editor: single decisions or
  user interface that would add only easy members.
