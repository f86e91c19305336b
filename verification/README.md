# A verified model of goxdcr's replication core

goxdcr replicates a Couchbase bucket to another cluster. This project models the parts of it where
goroutines, counters and in-place updates meet, and proves what they guarantee for every input and every
interleaving. Each file is one component:

| file | component |
|---|---|
| `OpSerializer.dfy` | pipeline operations queued per replication, with handlers, cleanups and shutdown racing |
| `FlowControl.dfy` | the wait of a sender for a buffer that is not too full |
| `RequestBuffer.dfy` | the slots of requests that an XMEM nozzle has sent and not seen acknowledged, with resends |
| `Retries.dfy` | what a slot remembers of its request, and when the timer resends it or gives up |
| `DataChannel.dfy` | producers and consumer of an XMEM nozzle: batches that are only counts, and a byte throttle |
| `BigDocuments.dfy` | which requests a batch asks the target about before they are sent |
| `ChannelProgress.dfy` | whether such a nozzle can always send what it has accepted, exactly in terms of its settings |
| `ThrottledWriter.dfy` | the write loop that splits and resumes under a throughput throttler |
| `BandwidthThrottler.dfy` | the throttler: a quota that callers, a ticker and new limits change |
| `ConflictResolution.dfy` | which of two versions of a document wins, and what delivery order does |
| `EncodedConflicts.dfy` | conflict resolution on what is decoded from a composed request |
| `SpecCache.dfy` | the copy-on-write metadata cache with its optimistic version check |
| `RollbackHandshake.dfy` | which DCP stream requests are sent and which rollback answers are acted upon |
| `Routing.dfy`, `LoadBalance.dfy`, `PartNames.dfy` | pipeline layout: nozzles, routes, routers |
| `PartCollection.dfy` | collection of a pipeline's parts from a possibly cyclic graph |
| `MutationEncoding.dfy` | the request composed from a mutation, and its decoding |
| `CheckpointHistory.dfy`, `Float64.dfy` | the bounded checkpoint list and the persisted checkpoint document, with the rounding of numbers that are read back |
| `JsonAppend.dfy`, `JsonText.dfy` | JSON text written in place into pooled buffers, and what a reader makes of it |
| `VbDelta.dfy` | the difference of two vbucket lists |
| `Common.dfy` | shared types |

Concurrent components are state machines: an `Action` is what one goroutine does between two points where
another can interfere, `Step` is total (an action that is not enabled changes nothing), and `Run` takes any
sequence of actions, so a lemma about `Run(actions)` is about every interleaving. Beside the machine stands a
class with the fields of the source; each of its methods is proved to perform one `Step`, or the steps of an
undisturbed call. Clocks, the network, the throttler's answers, filter verdicts, the stream state and the
order in which Go visits a map are parameters or actions, so the proofs hold for all of them.

Findings, where the code does something else than its surroundings suggest. The code is modelled as it is.

- A call that got no error may still have its job lost to a `Stop` that overtakes it. Exactly the jobs executed before
  the stop and the one inside the pipeline manager at that moment are executed (`StopDecides`). All others are lost: the
  one in the handler's hand is dropped, and what is queued stays there, up to a full queue; a topic that has a queue
  takes jobs even after the stop (`QueueLostToStop`), one that has none takes nothing and reports no error
  (`CreateOrSend`, `JobLostToStop`). Nothing is executed later (`NothingRunsAfterStop`), so a caller of
  GetOrCreateReplicationStatus whose job was lost waits forever.
- The throttle token is not exactly "bytes below the limit": a read that looked before bytes were added puts the token
  back (`TokenAboveLimit`). The exact rule is `TokenIff`; the excess is less than three requests (`BytesStayBounded`).
- The nozzle can come to a standstill in two ways. A byte limit below the size of a batch starves the producer
  (`SmallLimitStarves`). A consumer that saw an empty queue and gets the lock only after producers have filled the queue
  waits for room that only it can make (`FlushBlocksItself`); the smallest batch size that the settings allow is enough
  for that (`SmallBatchesBlock`). `DrainableIff` is the exact condition on the settings; the defaults are safe
  (`DefaultsDrain`).
- A response delayed by 65536 evictions of its slot is taken for the answer to another request
  (`StaleResponseConfuses`); below that never (`ResponseEvictsItsOwn`). A temporary error is not compared at all
  (`ErrorResponseTouches`).
- A write that ends because the nozzle stops returns no error, like a finished one, with nothing or only a part written
  (`StopLosesAll`, `StopLosesTheRest`). Exactly when an end without an error has written everything:
  `CompleteIffGranted`.
- Versions with equal revision and cas make the surviving document depend on delivery order
  (`EqualVersionsDiverge`; `OrderIndependentIff` gives the exact condition).
- The cache's comment says that of two concurrent metadata updates the later fails. That holds for writers
  that saw an entry which nobody deleted since (`WriteAcceptedIffUnchanged`), not for two creators
  (`RacingCreatorsBothSucceed`) nor across a deletion (`RecreatedKeyIsOverwritten`); `ReplacesIff` says exactly when a
  write takes the place of metadata that its writer did not see. A metadata write can undo a concurrent write of the
  runtime object (`SpecWriteDropsDerived`); exactly when it does not: `DerivedKeptIff`.
- A disabled rollback helper answers "do not ignore" to every rollback from then on (`DisabledNeverIgnores`). Draws that
  overlap at the overflow repeat versions, 0 at once or 1 later (`OverlappingDrawsRepeat`); `VersionsCoincideIff` is
  exact. Versions start over after a success, so a late rollback can be credited to a later request (`AnswerCreditedTo`,
  `LateAnswerMisleads`).
- The deletion flag decoded from a composed request is false for deletions (`DeletionFlagRightIff`); `VerdictDiffersIff`
  says when this changes the outcome of conflict resolution.
- Numbers of checkpoint records pass through 64-bit floating point when the document is read. A repeated record is
  recognised only if its numbers survive that (`RepeatRecognisedIff`); one with a failover uuid of 2^53+1 is stored
  twice (`LargeNumberStoredTwice`). A xattr seqno or target version that comes with a recognised repetition is not
  persisted.
- A bandwidth limit below the number of slots never refills the quota: nothing is sent under it (`TinyLimitStarves`).
  From one byte per slot on, every caller gets on (`FinishesInTicks`, `FinishesAlone`).
- A document that is an empty object cannot be read any more once the key is added to it for filtering, at its end
  (`AppendAddsIff`) or at its front (`InsertAddsIff`).
- `WriteJsonRawMsg` copies all of a slice that is longer than its size argument, as pooled slices are: old bytes of the
  slice come to stand behind the text. An end bracket behind the body leaves old bytes of the buffer inside the text, or
  is a panic (`AddKeyToBeFiltered`).
- `BalanceLoad` is documented for at most as many workers as loads; it is correct for any positive number of
  workers (`BalanceLoad`, `SharesAreEven`).

## Model

| member | source | states |
|---|---|---|
| `OpSerializer.RunKeeps` | pipeline_manager/pipelineOpSerializer.go:169-324 | every interleaving of senders, handlers, cleanups and stop keeps the invariant: one owner goroutine per served topic, map entries bound to the owners' channels, wait group equal to live goroutines, per-topic job accounts balanced |
| `OpSerializer.OneServerPerTopic` | pipeline_manager/pipelineOpSerializer.go:181-201 | in no reachable state do two goroutines serve the same topic, before or after the stop |
| `OpSerializer.EntryIffServed` | pipeline_manager/pipelineOpSerializer.go:293-313 | until the stop a topic has a queue in the map exactly when a goroutine serves it, although cleanups race with new jobs |
| `OpSerializer.HandlerFindsItsChannel` | pipeline_manager/pipelineOpSerializer.go:208-222 | a handler's lookup never fails, and the channel it works on is the one in the map |
| `OpSerializer.JobsRunInOrder` | pipeline_manager/pipelineOpSerializer.go:208-290 | until the stop the accepted jobs of a topic are the executed ones, then the one in hand, then the queue, in order: nothing lost, repeated or overtaken |
| `OpSerializer.TakenUnlessFull` | pipeline_manager/pipelineOpSerializer.go:169-178 | a topic with a queue takes a job, at its end, exactly when fewer than 1000 wait, and never do more |
| `OpSerializer.AcceptedIsAccountedFor` | pipeline_manager/pipelineOpSerializer.go:208-290 | per topic and in every run, across the stop too, the accepted jobs are the executed, the dropped, the one in hand and the queued ones, in this order |
| `OpSerializer.ExecutedIsPrefix` | pipeline_manager/pipelineOpSerializer.go:224-232 | even across the stop the executed jobs of a topic are the oldest accepted ones, its handler drops at most one, and only after a stop; what becomes of the rest says `StopDecides` |
| `OpSerializer.StopDecides` | pipeline_manager/pipelineOpSerializer.go:224-232 | for every run and every continuation that all goroutines have left: exactly the jobs executed before the stop and the one then inside the manager are executed; all others are lost, and are the dropped and the queued ones |
| `OpSerializer.QueueLostToStop` | pipeline_manager/pipelineOpSerializer.go:169-177 | a run in which three jobs are taken without an error and never executed: one dropped, one left in the queue, one queued after the stop |
| `OpSerializer.ShutdownIsSafe` | pipeline_manager/pipelineOpSerializer.go:315-324 | the wait group counts the live goroutines, so the manager is released only when none is left; who executes a job has it; that and when it is released say `StopEnds` and `ManagerGoneIff` |
| `OpSerializer.StopEnds` | pipeline_manager/pipelineOpSerializer.go:315-324 | from every run in which the flag is set, a schedule of the goroutines of bounded length leaves none, and then the manager is released |
| `OpSerializer.EveryoneLeaves` | pipeline_manager/pipelineOpSerializer.go:208-313 | from every state of every run the goroutines can finish within a computed number of critical sections |
| `OpSerializer.ManagerGoneIff` | pipeline_manager/pipelineOpSerializer.go:315-324 | in every run the manager is gone exactly when a release came after the stop with no goroutine left |
| `OpSerializer.NothingStartsAfterStop` | pipeline_manager/pipelineOpSerializer.go:315-324 | once stopped, no continuation of the run starts a goroutine or a queue |
| `OpSerializer.NothingRunsAfterStop` | pipeline_manager/pipelineOpSerializer.go:137-160 | once stopped and left by all goroutines, no continuation executes anything, so a job that was lost is never answered |
| `OpSerializer.JobLostToStop` | pipeline_manager/pipelineOpSerializer.go:193-204 | a run in which a sender overtaken by the stop finds no queue, gets no error, and its job is neither taken nor ever executed |
| `OpSerializer.IdleMeansFinished` | pipeline_manager/pipelineOpSerializer_test.go:27-36 | when no goroutine is left, the map of queues is empty and every accepted job was executed |
| `OpSerializer.EveryScheduleEnds` | pipeline_manager/pipelineOpSerializer.go:293-313 | without new jobs every schedule of the goroutines ends within a computed bound: handlers and cleanups cannot restart each other forever |
| `OpSerializer.PipelineOpSerializer.constructor` | pipeline_manager/pipelineOpSerializer.go:75-85 | a new serializer is the initial state |
| `OpSerializer.PipelineOpSerializer.Put` | pipeline_manager/pipelineOpSerializer.go:170-178 | appends to the topic's queue, or reports a full queue of 1000 and changes nothing |
| `OpSerializer.PipelineOpSerializer.SendToExisting` | pipeline_manager/pipelineOpSerializer.go:170-180 | the read-locked half performs the step `Send`; the job is accepted exactly when its queue is there and no error is returned |
| `OpSerializer.PipelineOpSerializer.Launch` | pipeline_manager/pipelineOpSerializer.go:191-201 | opens a queue that holds the job and starts its counted handler |
| `OpSerializer.PipelineOpSerializer.CreateOrSend` | pipeline_manager/pipelineOpSerializer.go:181-204 | the write-locked half performs the step `Create`; it returns no error for a job it did not take exactly when it is stopped and the topic has no queue |
| `OpSerializer.PipelineOpSerializer.LookUpChannel` | pipeline_manager/pipelineOpSerializer.go:208-222 | performs the handler's step from start to its channel, or to leaving if there is none |
| `OpSerializer.PipelineOpSerializer.SelectJob` | pipeline_manager/pipelineOpSerializer.go:222-289 | performs the select: the oldest job, or the default branch on an empty queue |
| `OpSerializer.PipelineOpSerializer.CheckJob` | pipeline_manager/pipelineOpSerializer.go:225-232 | performs the checks after taking a job: a stop or a foreign topic drops it |
| `OpSerializer.PipelineOpSerializer.RunJob` | pipeline_manager/pipelineOpSerializer.go:233-277 | performs the execution of the job in hand |
| `OpSerializer.PipelineOpSerializer.Retire` | pipeline_manager/pipelineOpSerializer.go:278-288 | performs the hand-over of a drained topic to a counted cleanup, unless stopped |
| `OpSerializer.PipelineOpSerializer.Done` | pipeline_manager/pipelineOpSerializer.go:209 | the goroutine is gone and not counted any more |
| `OpSerializer.PipelineOpSerializer.Finish` | pipeline_manager/pipelineOpSerializer.go:209 | performs the deferred end of a handler |
| `OpSerializer.PipelineOpSerializer.CleanupJob` | pipeline_manager/pipelineOpSerializer.go:293-313 | performs the cleanup: deletes an empty queue, or starts a new handler if jobs came in meanwhile |
| `OpSerializer.PipelineOpSerializer.BeginStop` | pipeline_manager/pipelineOpSerializer.go:315-319 | performs the setting of the stopped flag |
| `OpSerializer.PipelineOpSerializer.EndStop` | pipeline_manager/pipelineOpSerializer.go:320-324 | performs the release of the manager after the wait |
| `RequestBuffer.RunKeeps` | parts/xmem_nozzle.go:259-361 | every interleaving of senders, receiver and resenders, with a network that repeats and reorders, keeps the buffer's invariant |
| `RequestBuffer.FreePositionsAreExact` | parts/xmem_nozzle.go:266-347 | the free channel has no duplicates and, with the positions being filled, is exactly the empty slots; occupied count and tokens agree with it; enSlot never panics |
| `RequestBuffer.ChannelsNeverBlock` | parts/xmem_nozzle.go:127-171 | no send on the free or token channel exceeds its capacity, and an eviction always finds a token |
| `RequestBuffer.TokenMeansRequest` | parts/xmem_nozzle.go:1944-1945 | the receiver gets a token to look for a response exactly when some slot is occupied, and putting it back changes nothing |
| `RequestBuffer.DataSentAtMostOnce` | parts/xmem_nozzle.go:2025-2075 | a request's stay in a slot is reported as sent at most once, and only after it was put there |
| `RequestBuffer.ReportedWentOut` | parts/xmem_nozzle.go:2045-2062 | if every response comes within 65536 evictions, only requests whose bytes went out are reported as sent |
| `RequestBuffer.OpaqueRoundTrip` | parts/xmem_nozzle.go:350-361 | the position is recovered from the opaque, and opaques are equal exactly for equal slots and congruent eviction counts |
| `RequestBuffer.ResponseMatchesModulo` | parts/xmem_nozzle.go:2025-2075 | a response to any request ever sent matches exactly when its slot is occupied and the eviction counts agree modulo 65536 |
| `RequestBuffer.ResponseEvictsItsOwn` | parts/xmem_nozzle.go:2025-2075 | with fewer than 65536 evictions of the slot since sending, a response evicts its own request and no other |
| `RequestBuffer.ResendUpdatesItsOwn` | parts/xmem_nozzle.go:2300-2424 | the sequence check after the unlocked network call lets a resend touch the slot exactly when it still holds the request that was resent, under the same bound |
| `RequestBuffer.ErrorResponseTouches` | parts/xmem_nozzle.go:1976-1986 | a temporary error resends and resets whatever its slot holds, another request exactly when the slot was evicted and filled again since |
| `RequestBuffer.StaleResponseConfuses` | parts/xmem_nozzle.go:292-297 | a run of 65536 evictions after which an old response is taken for a request whose bytes have not gone out: the bound is tight |
| `RequestBuffer.Buffer.constructor` | parts/xmem_nozzle.go:127-171 | empty slots, zero sequences, all positions free in order |
| `RequestBuffer.Buffer.TakePosition` | parts/xmem_nozzle.go:320-321 | performs the receive of the oldest free position; waits exactly if there is none |
| `RequestBuffer.Buffer.EnSlot` | parts/xmem_nozzle.go:327-361 | performs the filling of the slot; the opaque returned matches the slot it names; a slot in use is a panic |
| `RequestBuffer.Buffer.OnResponse` | parts/xmem_nozzle.go:2025-2075 | performs the match and the first half of the eviction, exactly when the opaque matches |
| `RequestBuffer.Buffer.FinishEvict` | parts/xmem_nozzle.go:288-297 | performs the rest of the eviction, with the sequence wrapping at 16 bits |
| `RequestBuffer.Buffer.BeginResend` | parts/xmem_nozzle.go:2300-2330 | performs the decision to resend, give up or wait, or the reset, and remembers the sequence; what decides says `TimerDecides` |
| `RequestBuffer.Buffer.ComputeTimeout` | parts/xmem_nozzle.go:2366-2377 | the loop computes the time to wait |
| `RequestBuffer.TimeoutIsPower` | parts/xmem_nozzle.go:2366-2377 | after retries the time to wait is the timeout times a power of two, or the greatest interval if that is less |
| `RequestBuffer.Buffer.EndResend` | parts/xmem_nozzle.go:2334-2347 | performs the bookkeeping after the network call, guarded by the sequence |
| `Retries.SlotTells` | parts/xmem_nozzle.go:2300-2424 | in every run an occupied slot holds the request put there, the time it last went out, the resends booked since it was put there or reset, and whether it was given up since |
| `Retries.TimerDecides` | parts/xmem_nozzle.go:2300-2358 | a pass of the timer gives a request up exactly if more resends were booked than allowed, otherwise resends it exactly if its response is overdue; one that was given up is left alone |
| `Retries.ResendsAreBounded` | parts/xmem_nozzle.go:2300-2358 | with one timer no request is resent by it more than maxRetry + 1 times since it was put into its slot or reset |
| `FlowControl.NoLostWakeUp` | parts/xmem_nozzle.go:187-202 | together with the buffer's own actions: a sender that waits while few enough slots are occupied has been notified, or an eviction under way will notify it |
| `FlowControl.BufferRuns` | parts/xmem_nozzle.go:187-202 | the buffer's part of such a run is a run of the buffer, so its results hold here |
| `FlowControl.OnlyEvictionLowers` | parts/xmem_nozzle.go:287-314 | only an eviction lowers the occupied count, and by one |
| `FlowControl.NobodyLeftWaiting` | parts/xmem_nozzle.go:299-314 | when no eviction is under way and enough slots are free or being filled, no sender is left waiting |
| `FlowControl.SenderPassesWhenLow` | parts/xmem_nozzle.go:187-202 | whoever leaves flow control saw few enough slots occupied at some moment since it came, or a closed buffer; who looks at such a moment does not wait |
| `FlowControl.ClosedHoldsNobody` | parts/xmem_nozzle.go:150-153 | once the buffer is closed whoever waits can go |
| `DataChannel.RunKeeps` | parts/xmem_nozzle.go:959-1156 | every interleaving of producers and consumer, one atomic operation at a time, keeps the invariant |
| `DataChannel.ChannelIsBatchesInOrder` | parts/xmem_nozzle.go:1017-1050 | the channel is always the unread rest of the batch in progress, the ready batches in queue order, the current batch, and at most one request being added; every count is the number of requests it stands for |
| `DataChannel.QueueHolds100` | parts/xmem_nozzle.go:959-983 | a full batch gets into the ready queue exactly when fewer than 100 wait there, and never do more |
| `DataChannel.RequestsCheckedInOrder` | parts/xmem_nozzle.go:1104-1156 | every request put into the channel is read and checked once, in order |
| `DataChannel.CheckedAgainstOwnBatch` | parts/outgoing_nozzle_common.go:279-292 | each request is judged by the batch it was counted into, at its place in it, withheld exactly when the lookup for that batch said so, for the reason found; the lookup is about exactly the requests of the batch that were classified as big |
| `BigDocuments.BigDocumentsAreLookedUp` | parts/outgoing_nozzle_common.go:244-247 | in every run: check number i judges request number i, and its batch asked the target about exactly the keys of the requests classified as big in the stretch of the stream that the batch stands for, its own if it was |
| `BigDocuments.CurrentBatchKnowsBig` | parts/outgoing_nozzle_common.go:229-256 | the batch being filled has exactly the keys of the big requests among the last ones counted |
| `BigDocuments.RunAligned` | parts/xmem_nozzle.go:1104-1156 | from the batch in progress on, requests and their classifications are those of the batches in order, in every interleaving |
| `DataChannel.BytesAreQueuedBytes` | parts/xmem_nozzle.go:2861-2890 | the byte counter is the size of the queued requests, up to the one being written or read, and never negative |
| `DataChannel.TokenWhenBelowLimit` | parts/xmem_nozzle.go:2851-2859 | no wake-up is lost: below the limit the token is there, unless a write or read under way will still look |
| `DataChannel.BytesStayBounded` | parts/xmem_nozzle.go:2851-2890 | with requests of at most m bytes the channel stays below the limit plus 3m in every interleaving |
| `DataChannel.TokenIff` | parts/xmem_nozzle.go:2851-2890 | the exact rule in every interleaving: between writes and reads the token is there exactly when the bytes are below the limit or it was put by a read that looked before bytes were added |
| `DataChannel.TokenIffBelowLimit` | parts/xmem_nozzle.go:2851-2890 | in runs where writes and reads exclude each other nothing is stale, and the token is there exactly when the bytes are below the limit |
| `DataChannel.TokenAboveLimit` | parts/xmem_nozzle.go:2851-2890 | a run that leaves the token in place at or above the limit |
| `DataChannel.BatchCountersFit` | parts/outgoing_nozzle_common.go:229-256 | a batch's 32-bit counters never wrap |
| `DataChannel.WriteUndisturbed` | parts/xmem_nozzle.go:2861-2880 | the five atomic operations of writeToDataChan in a row have the effect of the call |
| `DataChannel.AccumuUndisturbed` | parts/xmem_nozzle.go:1017-1050 | from any reachable state, the atomic operations of accumuBatch in a row put the request last in channel and batch, count it and its size, record its key exactly if it is big, and move the batch on exactly when it is full |
| `DataChannel.AccumuAllKeeps` | parts/xmem_nozzle.go:1017-1050 | an undisturbed accumuBatch keeps the invariant |
| `DataChannel.Nozzle.Control` | parts/xmem_nozzle.go:2851-2859 | puts the token exactly when the bytes are below the limit |
| `DataChannel.Nozzle.WriteToDataChan` | parts/xmem_nozzle.go:2861-2880 | the effect of an undisturbed write, up to the operation that has to wait |
| `DataChannel.Nozzle.BatchReady` | parts/xmem_nozzle.go:959-983 | moves a non-empty batch to the ready queue and starts an empty one; waits exactly if the queue is full |
| `DataChannel.Nozzle.AccumuBatch` | parts/xmem_nozzle.go:1017-1050 | the effect of an undisturbed accumuBatch, up to the operation that has to wait |
| `DataChannel.Nozzle.ReadFromDataChan` | parts/xmem_nozzle.go:2881-2890 | takes the oldest request, subtracts its size and renews the token; waits exactly on an empty channel |
| `ChannelProgress.DrainableIff` | parts/xmem_nozzle.go:1080-1156 | with requests of at least q bytes the nozzle can, from every state of every run, still send all it has accepted if and only if its settings allow neither standstill |
| `ChannelProgress.Drains` | parts/xmem_nozzle.go:1104-1156 | without the two risks a schedule drains the nozzle from every reachable state |
| `ChannelProgress.MovesUnlessStuck` | parts/xmem_nozzle.go:1104-1156 | in every run, short of a standstill there is a next operation that leaves less to do: blocked producers wait for a consumer that can move, and the request it needs is at the head of the channel |
| `ChannelProgress.StuckNeedsRisk` | parts/xmem_nozzle.go:1140-1143 | a standstill is only reached where the settings have one of the two risks |
| `ChannelProgress.StuckForever` | parts/xmem_nozzle.go:2861-2876 | neither standstill ends in any continuation |
| `ChannelProgress.SmallLimitStarves` | metadata/internal_settings.go:234 | a byte limit below the batch size leads to a producer that waits for a token nobody will put |
| `ChannelProgress.FlushBlocksItself` | parts/xmem_nozzle.go:1140-1154 | a run in which the consumer takes the lock after the queue has been filled and waits for room that only it can make |
| `ChannelProgress.RunWatched` | parts/xmem_nozzle.go:1134-1144 | since the consumer saw an empty queue all ready batches are full, each took a token, and from the second token on nobody was let in above the limit |
| `ChannelProgress.DefaultsDrain` | metadata/replication_settings.go:86-87 | with the default settings neither standstill is possible |
| `ChannelProgress.SmallBatchesBlock` | metadata/replication_settings.go:87 | with the smallest batch size the consumer can block itself |
| `ThrottledWriter.Stack.Push` | base/types.go:206-216 | the stack grows by the entry |
| `ThrottledWriter.Stack.Pop` | base/types.go:206-216 | the inverse of Push |
| `ThrottledWriter.ComputeNumberOfBytes` | parts/xmem_nozzle.go:2623-2661 | total size, size of the first item, and the longest prefix within the percentage, or the first item |
| `ThrottledWriter.ComputeSplitIndex` | parts/xmem_nozzle.go:2663-2680 | the longest prefix within the allowance |
| `ThrottledWriter.WriteOut` | parts/xmem_nozzle.go:2682-2713 | all bytes, or a prefix of them on an error |
| `ThrottledWriter.FittingIsLongest` | parts/xmem_nozzle.go:2663-2680 | the number of items that fit is that of the longest prefix within the limit |
| `ThrottledWriter.LongestIsFitting` | parts/xmem_nozzle.go:2663-2680 | and no other number is |
| `ThrottledWriter.SendGranted` | parts/xmem_nozzle.go:2564-2595 | sends all items, the minimal part or the first one if exactly their size is granted, in this order of preference, and nothing for any other number; the rest is what is left |
| `ThrottledWriter.GrantIsSent` | parts/xmem_nozzle.go:2567-2595 | the bytes sent are as many as granted, and nothing is sent exactly if the grant is none of the three sizes |
| `ThrottledWriter.PushBack` | parts/xmem_nozzle.go:2601-2617 | the part that fits the allowance goes on top of the rest; waits exactly if no item fits |
| `ThrottledWriter.PushedBackKeeps` | parts/xmem_nozzle.go:2601-2617 | splitting and pushing back keeps the bytes to send, their order and the number of items |
| `ThrottledWriter.SplitsAtLongest` | parts/xmem_nozzle.go:2601-2617 | the rest is split exactly when its first item but not all of it fits the allowance, and then at the longest prefix that does |
| `ThrottledWriter.OneRound` | parts/xmem_nozzle.go:2548-2618 | performs one round: what is written, what is left on the stack, whether the write failed or the throttler is waited for |
| `ThrottledWriter.RoundConserves` | parts/xmem_nozzle.go:2548-2618 | a round conserves the bytes written and remaining, in order |
| `ThrottledWriter.RoundUses` | parts/xmem_nozzle.go:2548-2618 | a round that changes the stack uses up one unit of a bound of two per item |
| `ThrottledWriter.IdlesIff` | parts/xmem_nozzle.go:2601-2609 | a round changes nothing exactly if the grant is none of the three sizes and the allowance covers no item or all |
| `ThrottledWriter.WriteToClient` | parts/xmem_nozzle.go:2539-2621 | the loop computes `Write`: written bytes, exit and number of rounds, with all that `WriteIsInOrder` says of them |
| `ThrottledWriter.WriteIsInOrder` | parts/xmem_nozzle.go:2539-2621 | whatever the throttler answers, the bytes written are a prefix of the input and no more than granted, all of it on a normal end; a stop is reported exactly at the first round that finds the nozzle stopped; at most two rounds per item besides those that change nothing |
| `ThrottledWriter.FinishesInTime` | parts/xmem_nozzle.go:2539-2621 | while the nozzle runs and no write fails, the call has written everything after two rounds per item and the rounds that change nothing |
| `ThrottledWriter.CompleteIffGranted` | parts/xmem_nozzle.go:2549-2552 | an end without an error has written everything exactly when the grants it could use cover the input, which under a throttler that keeps its promise are all grants before the nozzle stopped |
| `ThrottledWriter.StopLosesAll` | parts/xmem_nozzle.go:2549-2552 | a nozzle that stops before the first round: no error and nothing written |
| `ThrottledWriter.StopLosesTheRest` | parts/xmem_nozzle.go:2549-2552 | one that stops between two items: no error and only the first written |
| `ThrottledWriter.ThrottledIdlesIff` | pipeline_svc/bandwidth_throttler.go:178-230 | under the bandwidth throttler a round changes nothing exactly if the quota is used up, or does not cover the first item although that is no larger than a slot's share |
| `ThrottledWriter.AnsweredIsPromised` | pipeline_svc/bandwidth_throttler.go:173-177 | the bandwidth throttler grants one of the four promised sizes |
| `ThrottledWriter.FinishesUnderThrottler` | pipeline_svc/bandwidth_throttler.go:163-171 | neither stuckness nor starvation: whatever the sizes, while the nozzle runs and no write fails, everything is written after two rounds per item and the rounds that found less than a slot's share of quota |
| `ThrottledWriter.FinishesInTicks` | pipeline_svc/bandwidth_throttler.go:163-171 | with ticker and other callers in between: everything is written after two rounds per item and one per tick that found less than a slot's share, and there are only as many such ticks as the bytes granted to all callers pay for |
| `ThrottledWriter.FinishesAlone` | pipeline_svc/bandwidth_throttler.go:163-171 | a caller alone is done after a number of rounds that depends on its bytes, items and the debt it finds only |
| `ThrottledWriter.UnlimitedWritesAtOnce` | pipeline_svc/bandwidth_throttler.go:178-183 | without a limit everything goes out in the first round |
| `BandwidthThrottler.DeniedIff` | pipeline_svc/bandwidth_throttler.go:178-230 | a caller has to wait exactly if the quota is used up, or does not cover its first item although that is no larger than a slot's share |
| `BandwidthThrottler.RateIsLimited` | pipeline_svc/bandwidth_throttler.go:136-230 | however callers, ticker and new limits interleave, over any stretch of a run the bytes granted are at most one limit, a slot's share per tick and one item |
| `BandwidthThrottler.RunMetered` | pipeline_svc/bandwidth_throttler.go:136-230 | the quota stays between minus one item and the limit, and what is granted comes out of the quota or a refill; the lower half is `NothingIsLost` |
| `BandwidthThrottler.TicksRefill` | pipeline_svc/bandwidth_throttler.go:136-156 | left alone, the quota after n ticks is the lesser of the limit and the start plus n slot's shares |
| `BandwidthThrottler.CoversAfter` | pipeline_svc/bandwidth_throttler.go:136-156 | the quota covers a slot's share after exactly as many ticks as make up for the debt |
| `BandwidthThrottler.NothingIsLost` | pipeline_svc/bandwidth_throttler.go:136-230 | while the quota does not reach the limit, bytes granted and quota together grow by exactly a slot's share per tick, whatever the callers ask for |
| `BandwidthThrottler.ShortTicksAreBounded` | pipeline_svc/bandwidth_throttler.go:136-230 | ticks that find less than a slot's share are paid for, a share each, by the bytes granted, the debt at the start and what is left at the end |
| `BandwidthThrottler.TinyLimitStarves` | pipeline_svc/bandwidth_throttler.go:86-89 | under a limit below the number of slots nothing is ever granted |
| `BandwidthThrottler.StartsSlowly` | pipeline_svc/bandwidth_throttler.go:86-89 | from the start on the bytes granted are at most a slot's share, one more per tick and an item |
| `BandwidthThrottler.BestOffer` | pipeline_svc/bandwidth_throttler.go:190-230 | out of a positive quota the whole or else the minimal part is granted if covered, otherwise the first item exactly if it is larger than a slot's share |
| `BandwidthThrottler.NewLimitRules` | pipeline_svc/bandwidth_throttler.go:282-309 | from a new limit on, however callers and ticker interleave, the quota keeps to it |
| `BandwidthThrottler.Throttler.constructor` | pipeline_svc/bandwidth_throttler.go:86-89 | a new throttler has a slot's share as its quota |
| `BandwidthThrottler.Throttler.Throttle` | pipeline_svc/bandwidth_throttler.go:178-230 | answers as `Decide` and takes what it grants out of the quota |
| `BandwidthThrottler.Throttler.UpdateOnce` | pipeline_svc/bandwidth_throttler.go:136-156 | performs a tick, which `TicksRefill` describes, and wakes waiting callers exactly if the quota is positive then |
| `BandwidthThrottler.Throttler.UpdateLimit` | pipeline_svc/bandwidth_throttler.go:282-309 | a new limit is stored and the quota cut down to it |
| `ConflictResolution.WinsIsLexicographic` | parts/xmem_nozzle.go:1342-1416 | the greater (cas, revision) or (revision, cas) wins; among equal ones a deletion never does, otherwise expiry, flags and extended attributes decide in this order |
| `ConflictResolution.XattrIsThirdBit` | base/simple_utils.go:478-480 | extended attributes are the third bit of the data type |
| `ConflictResolution.WinsIsStrictOrder` | parts/xmem_nozzle.go:1342-1416 | winning is irreflexive, asymmetric and transitive in both modes |
| `ConflictResolution.DistinctVersionsAreOrdered` | parts/xmem_nozzle.go:1352-1398 | of two versions that differ in revision or cas exactly one wins |
| `ConflictResolution.WinnerIsUnbeaten` | parts/xmem_nozzle.go:1342-1350 | after any deliveries the document is one of those seen and none of them beats it |
| `ConflictResolution.ReplayIsHarmless` | parts/xmem_nozzle.go:1342-1350 | redelivering any of the mutations, in any order and number, changes nothing |
| `ConflictResolution.OrderIndependentIff` | factory/xdcr_factory.go:146-153 | all delivery orders give the same document if and only if only one mutation is unbeaten |
| `ConflictResolution.DistinctVersionsConverge` | factory/xdcr_factory.go:146-153 | with pairwise distinct versions every delivery order gives the same document |
| `ConflictResolution.EqualVersionsDiverge` | parts/xmem_nozzle.go:1361-1364 | a deletion and a mutation of equal version end differently in the two orders |
| `EncodedConflicts.VerdictDiffersIff` | parts/xmem_nozzle.go:1361-1364 | exactly when the lost deletion flag changes the verdict: a deletion of equal version with greater details, which then wins |
| `SpecCache.RunKeeps` | metadata_svc/metadata_cache.go:46-86 | under every interleaving of reads and writes, what a writer saw is an earlier version of the entry, told by the counter, as long as nobody deleted the key |
| `SpecCache.UpsertMovesForward` | metadata_svc/replication_spec_service.go:45-63 | an upsert never lowers a version, and the version stays exactly when the metadata stays |
| `SpecCache.SameSpecIff` | metadata/replication_spec.go:75-92 | two specs are the same exactly when all but the settings agree |
| `SpecCache.WriteAcceptedIffUnchanged` | metadata_svc/metadata_cache.go:46-60 | a writer that saw an entry which nobody deleted since gets its write in exactly when the metadata was the same at every moment from its read to now |
| `SpecCache.ReplacesIff` | metadata_svc/replication_spec_service.go:45-63 | for every pending write of every run, exactly when it takes the place of metadata that its writer did not see: equal versions, and nothing seen, or other metadata seen and deleted since |
| `SpecCache.WriterSaw` | metadata_svc/replication_spec_service.go:1226-1245 | a pending writer's picture is the entry at the moment of its read |
| `SpecCache.ReplacedSpecIsRefused` | metadata_svc/replication_spec_service.go:51-57 | a write based on replaced metadata is refused and changes nothing |
| `SpecCache.DerivedWriteKeepsSpec` | metadata_svc/replication_spec_service.go:1270-1297 | a late write of the runtime object neither brings old metadata back nor moves the version |
| `SpecCache.VersionsTellChanges` | metadata_svc/replication_spec_service.go:45-63 | over any stretch without a deletion the version never falls, and is unchanged exactly when the metadata was the same at every moment |
| `SpecCache.RacingCreatorsBothSucceed` | metadata_svc/replication_spec_service.go:1226-1245 | two writers that found the key absent both succeed and the second replaces the first |
| `SpecCache.DerivedKeptIff` | metadata_svc/replication_spec_service.go:1226-1245 | for every accepted metadata write of every run on a key that is there: the runtime object stays exactly when it is the one of the moment the writer read |
| `SpecCache.SpecWriteDropsDerived` | metadata_svc/replication_spec_service.go:1226-1245 | a run from the empty cache in which an accepted metadata write undoes a runtime object set since its read |
| `SpecCache.RecreatedKeyIsOverwritten` | metadata_svc/replication_spec_service.go:1281-1284 | after deletion and creation a write based on the old entry is accepted |
| `SpecCache.UninterruptedWriteSucceeds` | metadata_svc/replication_spec_service.go:889-906 | a writer that nobody interrupts is accepted and leaves what it proposed |
| `SpecCache.ReplicationSpecVal.CAS` | metadata_svc/replication_spec_service.go:45-63 | accepts, stamps or refuses as the version comparison says |
| `SpecCache.MetadataCache.Get` | metadata_svc/metadata_cache.go:36-44 | the current entry, or nothing |
| `SpecCache.MetadataCache.Upsert` | metadata_svc/metadata_cache.go:46-71 | publishes a fresh map with the stamped entry exactly when the comparison accepts; maps handed out before keep their entries, and their objects too unless a published object is upserted again |
| `SpecCache.MetadataCache.Delete` | metadata_svc/metadata_cache.go:73-86 | publishes a fresh map without the key; maps handed out before never change |
| `SpecCache.ReplicationSpecService.CacheSpec` | metadata_svc/replication_spec_service.go:1226-1245 | stores the spec and keeps the runtime object |
| `SpecCache.ReplicationSpecService.RemoveSpecFromCache` | metadata_svc/replication_spec_service.go:889-906 | removes the spec and keeps the entry with its runtime object |
| `SpecCache.ReplicationSpecService.SetDerivedObj` | metadata_svc/replication_spec_service.go:1270-1297 | sets the runtime object, deletes an entry left without both, reports a missing key |
| `RollbackHandshake.RunKeeps` | parts/dcp_nozzle.go:145-240 | in every run the two tables mean: last request per version, and seqnos answered, since the last reset of the log |
| `RollbackHandshake.HelperFollowsLog` | parts/dcp_nozzle.go:145-240 | the helper with its two tables refines a definition by the log alone: which requests are sent and which rollbacks acted upon or dropped, in every run |
| `RollbackHandshake.RollbackAtMostOnce` | parts/dcp_nozzle.go:156-223 | between two resets a seqno is rolled back at most once and never requested again after that |
| `RollbackHandshake.RollbackAnswersARequest` | parts/dcp_nozzle.go:180-223 | when a rollback is acted upon, a request is outstanding under its version, with no reset or reuse of the version since it was sent |
| `RollbackHandshake.AnswerCreditedTo` | parts/dcp_nozzle.go:180-223 | a rollback that answers a given request is credited to it exactly when neither a reset nor a reuse of its version came after it, and to a later request otherwise |
| `RollbackHandshake.LateAnswerMisleads` | parts/dcp_nozzle.go:230-240 | a run in which a late rollback is credited to a request of the next round |
| `RollbackHandshake.ActedUponIff` | parts/dcp_nozzle.go:180-223 | a rollback is acted upon exactly when the helper is disabled, or the stream is inactive and the version's last request is unanswered |
| `RollbackHandshake.EnabledOutcome` | parts/dcp_nozzle.go:180-223 | while enabled, the result is what the log records, with an error exactly for an unknown version or a request from seqno 0 |
| `RollbackHandshake.SentIff` | parts/dcp_nozzle.go:156-173 | a request goes out exactly when enabled, inactive, and its seqno unanswered since the last reset |
| `RollbackHandshake.DisabledNeverIgnores` | parts/dcp_nozzle.go:184-187 | in every run and every continuation after disabling, each rollback is answered with an error and not ignored, and the tables stay as they are |
| `RollbackHandshake.VersionAt` | parts/dcp_nozzle.go:110-128 | sequential draws count modulo 65536 |
| `RollbackHandshake.SerialVersionsRepeatIff` | parts/dcp_nozzle.go:110-128 | sequential draws repeat a version exactly at multiples of 65536, so any 65536 in a row are distinct |
| `RollbackHandshake.VersionsCoincideIff` | parts/dcp_nozzle.go:110-128 | for two draws of an interleaved run, fewer than 65536 apart and without a reset between them: equal versions exactly when equally many draws came before each since the last store or reset, or, without a store between them, at least 65535 before the first |
| `RollbackHandshake.CounterIsDraws` | parts/dcp_nozzle.go:110-128 | in every interleaving the counter is the number of draws since the last store or reset |
| `RollbackHandshake.RepeatNeedsOverlap` | parts/dcp_nozzle.go:110-128 | such draws coincide only if a draw falls between the add and the store of another |
| `RollbackHandshake.ExclusiveDrawsDiffer` | parts/dcp_nozzle.go:110-128 | draws that exclude each other get different versions, up to 65536 in a row, in every run |
| `RollbackHandshake.OverlappingDrawsRepeat` | parts/dcp_nozzle.go:110-128 | overlapping draws at the overflow both get 0, and with late stores version 1 is handed out twice |
| `RollbackHandshake.DcpStreamReqHelper.constructor` | parts/dcp_nozzle.go:91-95 | a new helper is the initial state |
| `RollbackHandshake.DcpStreamReqHelper.AddVersion` | parts/dcp_nozzle.go:113-115 | the atomic add of a draw |
| `RollbackHandshake.DcpStreamReqHelper.StoreZero` | parts/dcp_nozzle.go:123-124 | the store of a draw that overflowed |
| `RollbackHandshake.DcpStreamReqHelper.GetNewVersion` | parts/dcp_nozzle.go:110-128 | the two operations in a row make one undisturbed draw |
| `RollbackHandshake.DcpStreamReqHelper.RegisterRequest` | parts/dcp_nozzle.go:156-173 | performs the registration and tells whether to send |
| `RollbackHandshake.DcpStreamReqHelper.DeregisterRequest` | parts/dcp_nozzle.go:145-151 | marks the seqno of the version's request as answered |
| `RollbackHandshake.DcpStreamReqHelper.ProcessRollbackResponse` | parts/dcp_nozzle.go:180-223 | performs the rollback step with the outcome above |
| `RollbackHandshake.DcpStreamReqHelper.ProcessSuccessResponse` | parts/dcp_nozzle.go:230-240 | performs the reset, version counter included, unless disabled |
| `RollbackHandshake.DcpStreamReqHelper.DisableHelper` | parts/dcp_nozzle.go:242-247 | performs the disabling |
| `RollbackHandshake.DcpStreamReqHelper.GetNumberOfOutstandingReqs` | parts/dcp_nozzle.go:131-142 | the number of versions whose seqno is unanswered |
| `LoadBalance.BalanceLoad` | base/simple_utils.go:400-435 | the intervals are those of the even distribution, one per worker, ending at the load; a panic exactly for a load without workers |
| `LoadBalance.StartFormula` | base/simple_utils.go:410-430 | where a share starts, in closed form |
| `LoadBalance.OwnerExists` | base/simple_utils.go:400-406 | every load belongs to a worker |
| `LoadBalance.OwnerUnique` | base/simple_utils.go:400-406 | and to only one |
| `LoadBalance.SharesAreEven` | base/simple_utils.go:400-406 | shares differ by at most one, and none is empty with enough load |
| `PartNames.PartIdInjective` | factory/xdcr_factory.go:390-392 | names of parts are equal only for the same address and index, delimiters in addresses notwithstanding |
| `PartNames.PartIdEqualIff` | factory/xdcr_factory.go:390-392 | two names are equal exactly for the same kind, index and joined topic and address |
| `Routing.ConstructSourceNozzles` | factory/xdcr_factory.go:354-387 | the nozzles of all nodes and no others, each with its even share |
| `Routing.EveryVbIsStreamed` | factory/xdcr_factory.go:354-387 | every vbucket of the source is in some source nozzle |
| `Routing.VbStreamedOnce` | factory/xdcr_factory.go:354-387 | and in only one, if the nodes do not share vbuckets |
| `Routing.FilterVBList` | factory/xdcr_factory.go:394-413 | each vbucket as often as the sources list it, in order |
| `Routing.RelevantIff` | factory/xdcr_factory.go:394-413 | a target's vbucket is kept exactly when some source node has it |
| `Routing.ConstructOutgoingNozzles` | factory/xdcr_factory.go:483-539 | the target nozzles of all nodes and no others, and routes from every relevant vbucket to one that was built for it |
| `Routing.RouteIff` | factory/xdcr_factory.go:483-539 | a vbucket has a route exactly when both sides have it, and the route is a constructed nozzle of a node that has it |
| `Routing.DownStreamParts` | factory/xdcr_factory.go:192-205 | the targets of a nozzle's vbuckets; fails exactly when one has no constructed target |
| `Routing.Wire` | factory/xdcr_factory.go:190-213 | gives every source nozzle a router that reaches its targets; fails exactly when a streamed vbucket has no route |
| `Routing.RoutedIffServed` | factory/xdcr_factory.go:190-213 | wiring succeeds exactly when the target has all the vbuckets of the source |
| `Routing.WiredDelivers` | connector/router.go:52-75 | in a wired layout a mutation that passes the checks is delivered to its route, never an invalid routing result |
| `Routing.ForwardIff` | parts/router.go:189-245 | exactly when a mutation is delivered, dropped or which error it is |
| `Routing.NozzlesApart` | factory/xdcr_factory.go:377 | source and target nozzles never share a name |
| `Routing.WiredIsTotal` | parts/router.go:194-246 | in a wired layout every source vbucket is streamed, by one nozzle if nodes are disjoint, and delivered to a target that has it |
| `Routing.NewPipeline` | factory/xdcr_factory.go:161-213 | construction succeeds exactly when the source has a vbucket and the target all of them, and the layout is then total |
| `PartCollection.PartsMap.AddPartToMap` | pipeline/generic_pipeline.go:546-564 | ends on every finite graph; keeps the entries, files the part, and adds only reachable parts under their ids with all that is downstream of them |
| `PartCollection.Initialize` | pipeline/generic_pipeline.go:529-537 | the map holds exactly the parts reachable from the sources if and only if their ids differ |
| `PartCollection.HoldsAllIff` | pipeline/generic_pipeline.go:542-564 | the same for any map with the guarantees of the recursion |
| `PartCollection.StepsCollected` | pipeline/generic_pipeline.go:542-564 | with unique ids the collection gets to every part, however far from a source |
| `MutationEncoding.PutUint` | parts/router.go:158-161 | writes a big-endian number over a stretch and nothing else |
| `MutationEncoding.WrappedMCRequest.WriteMutationExtras` | parts/router.go:149-173 | all bytes of the extras are those of the event, whatever the recycled buffer held |
| `MutationEncoding.WrappedMCRequest.WriteSnapshotExtras` | parts/router.go:175-182 | the same for snapshot markers |
| `MutationEncoding.WrappedMCRequest.ComposeMCRequest` | parts/router.go:128-187 | the object becomes the request `Composed`, from which `DecodeWhole` reads the event back; panics exactly for extras that are too short |
| `MutationEncoding.DecodeWhole` | parts/router.go:128-187 | the whole event is read back from its request: opcode, vbucket, key, body, data type, cas, seqno, and the metadata of a mutation or the range of a snapshot |
| `MutationEncoding.ComposedEqualIff` | parts/router.go:128-187 | in one mode two events give the same request exactly when they agree in all that is carried |
| `MutationEncoding.RecycledDoesNotMatter` | parts/router.go:149-156 | the request for a mutation or snapshot does not depend on the recycled object |
| `MutationEncoding.ValueOfBigEndian` | parts/outgoing_nozzle_common.go:298-300 | reading undoes writing for every number that fits |
| `MutationEncoding.DecodeComposed` | parts/outgoing_nozzle_common.go:294-306 | decoding a composed request gives key, revision, cas, flags, expiry and data type of the mutation |
| `MutationEncoding.OptionsField` | parts/router.go:163-173 | the options are present exactly for last-write-wins buckets and expirations, and read back as the right bits |
| `MutationEncoding.DeletionFlagRightIff` | parts/outgoing_nozzle_common.go:302 | the decoded deletion flag is right exactly for mutations that are no deletions; with the opcode used on the wire it would be right for all |
| `MutationEncoding.UniqueKeyInjective` | base/types.go:103-108 | unique keys are equal exactly for equal key and revision |
| `MutationEncoding.StrippingKeepsTheRest` | parts/router.go:352-375 | stripping the expiry changes nothing else of the event that is read back, nor the unique key |
| `MutationEncoding.LeftOutIff` | parts/router.go:352-376 | exactly which events a mode leaves out |
| `MutationEncoding.OpcodeOnce` | parts/xmem_nozzle.go:2431-2438 | encoding an opcode twice is encoding it once; both kinds of deletion become one opcode, both kinds of mutation the other |
| `CheckpointHistory.IsSameIsEquality` | metadata/checkpoint.go:35-52 | the comparison is equality wherever it returns, and it returns if the older record has a target identity |
| `CheckpointHistory.CheckpointsDoc.New` | metadata/checkpoint.go:281-291 | a document of empty places |
| `CheckpointHistory.CheckpointsDoc.Shift` | metadata/checkpoint.go:305-307 | the in-place loop moves every record one place back |
| `CheckpointHistory.CheckpointsDoc.AddRecord` | metadata/checkpoint.go:293-317 | puts a new record in front of the cut or padded list, leaves the list alone for a repeated one |
| `CheckpointHistory.CheckpointsService.UpsertCheckpoints` | metadata_svc/checkpoints_service.go:96-145 | performs one upsert on the document as it reads back; reports success exactly if the record was persisted or recognised, and panics exactly on a missing target identity |
| `CheckpointHistory.PersistedDoc` | metadata_svc/checkpoints_service.go:96-145 | after any calls each document holds the newest records that got through, newest first, all but the first as they read back, and padded, even when the number to keep changes, with the marks of those calls |
| `CheckpointHistory.KeptAll` | metadata/checkpoint.go:298-304 | with a fixed number to keep, as many of the newest as there are up to that number |
| `CheckpointHistory.NeighboursDiffer` | metadata/checkpoint.go:297 | no record that got through is what the one before it reads back as |
| `CheckpointHistory.MarksAreExtremes` | metadata_svc/checkpoints_service.go:111-127 | the persisted xattr seqno is the least non-zero one that got through, the version the greatest |
| `CheckpointHistory.MarksMoveOneWay` | metadata_svc/checkpoints_service.go:111-127 | in every continuation a non-zero xattr seqno only falls and stays non-zero, and the version only rises |
| `CheckpointHistory.RepeatRecognisedIff` | metadata_svc/checkpoints_service.go:128-131 | a repeated record is recognised exactly when it survives being stored and read, and then nothing is persisted |
| `CheckpointHistory.RepeatsCollapse` | metadata/checkpoint.go:35-52 | while all records survive, the history of a key is the sequence of records offered to it with equal neighbours counted once |
| `CheckpointHistory.SmallSurvives` | metadata/checkpoint.go:60-83 | records whose numbers are below 2^53 survive |
| `CheckpointHistory.LargeNumberStoredTwice` | metadata/checkpoint.go:60-63 | a record with a failover uuid of 2^53+1 is stored twice, beside a rounded copy |
| `CheckpointHistory.ReadBackStable` | metadata/checkpoint.go:53-97 | reading back twice is reading back once, so records are rounded once however often the document is rewritten |
| `CheckpointHistory.CheckpointsDoc.MoveMarks` | metadata_svc/checkpoints_service.go:111-127 | moves the two marks their one way |
| `Float64.ExactIff` | metadata/checkpoint.go:60-83 | a number survives exactly when only its leading 53 bits are set |
| `Float64.NearestIsNear` | metadata/checkpoint.go:60-83 | rounding goes to the nearer of the two neighbouring floating-point numbers |
| `Float64.ReadNumberStable` | metadata/checkpoint.go:60-83 | reading back twice is reading back once |
| `Float64.TopReadsBack` | metadata/checkpoint.go:53-95 | a number that rounds up to 2^64 reads back as 2^63, every other one as what it rounds to |
| `JsonAppend.WriteJsonRawMsg` | base/simple_utils.go:1153-1200 | writes exactly the text of the first `size` bytes as key or value, returns where to go on, and leaves the bytes behind the first `size` behind the text, as far as the buffer goes |
| `JsonAppend.RawSpills` | base/simple_utils.go:1179-1199 | punctuation, the whole slice and punctuation at `size` amount to the text of the first `size` bytes and what spills over it |
| `JsonAppend.WriteWhole` | base/simple_utils.go:1153-1200 | with a slice of the meant size exactly the text is written and nothing else touched |
| `JsonAppend.ProcessKeyOnly` | utils/utils.go:2879-2907 | whatever the pooled slices held, the body starts with the object that has the document key as its only member |
| `JsonAppend.WriteObject` | base/simple_utils_test.go:148-159 | members written from position 0 leave exactly the object's text, whatever the buffer held, and nothing behind it changed |
| `JsonAppend.AppendSingleKV` | base/simple_utils.go:1003-1027 | the whole buffer after the append; a panic exactly when the text does not fit |
| `JsonAppend.SizeSufficesIff` | base/simple_utils.go:977-980 | the size asked for suffices exactly when the end bracket lies inside the body |
| `JsonAppend.AddKeyToBeFiltered` | base/simple_utils.go:975-993 | for an end bracket inside the body no panic and the exact text; for one behind it a panic exactly if the member does not fit, otherwise old bytes between body and member; without a buffer the key as first member |
| `JsonAppend.CleanInsertInserts` | base/simple_utils.go:947-960 | the two overlapping copies insert in the middle |
| `JsonAppend.CleanInsertSlice` | base/simple_utils.go:947-960 | the insertion on a slice: into the caller's array exactly when it has room behind the slice, otherwise into a new one with the caller's bytes unchanged |
| `JsonAppend.CallerKeepsBody` | base/simple_utils.go:956-958 | after an insertion in place the caller's body reads the same exactly when the bytes that moved in are those that were there |
| `JsonAppend.WithoutPoolInserts` | base/simple_utils.go:964-970 | the key becomes the first member and the rest of the body follows |
| `JsonAppend.RejectedIff` | base/simple_utils.go:963-969 | exactly when the key is not put in, and what is returned then |
| `JsonText.ObjectReadsBack` | base/simple_utils.go:1167-1200 | a reader of JSON objects, defined independently, gets the members back that were written, whatever old bytes follow |
| `JsonText.AppendAddsIff` | base/simple_utils.go:975-1000 | after the append the reader gets the old members and the new one exactly when there were old ones; from an empty object it gets nothing |
| `JsonText.InsertAddsIff` | base/simple_utils.go:963-969 | the same for the insertion at the front |
| `VbDelta.ComputeDeltaOfUint16Lists` | base/simple_utils.go:183-220 | sorts the caller's lists in place if asked to; for sorted or to-be-sorted lists the results are sorted and are the two differences, repetitions counted |
| `VbDelta.SortUint16List` | base/simple_utils.go:183-187 | the caller's list becomes its sorted rearrangement |
| `VbDelta.Walk` | base/simple_utils.go:189-219 | the loop computes the walk of both lists from the front |
| `VbDelta.Conserved` | base/simple_utils.go:183-220 | whatever the order, removed and added lead from one list to the other |
| `VbDelta.Separate` | base/simple_utils.go:197-216 | for sorted lists the results have nothing in common |
| `VbDelta.UnsortedListsMislead` | base/simple_utils.go:182 | why unsorted lists have to be sorted: otherwise an unchanged vbucket can be reported as both removed and added |

## Left out

- Network, TLS, HTTP, the memcached client, connection repair and HELO negotiation: I/O.
- The CAPI nozzle, the admin port, logging, statistics, event listeners and supervisors: only easy members.
- RemoteClusterService and its index maps.
- cancelReservation and sendWithRetry: the error that would cancel a reservation is shadowed, so the path does nothing.
- The closed target nozzle and the finish channel of the XMEM goroutines: shutdown of the nozzle is not modelled.
- A consumer that waits for its connection: progress of the consumer outside the data channel is not claimed.
- That an active stream stays active: the stream state is an input of the handshake.
- Escapes and nested values in JSON: the reader of `JsonText` reads members whose strings hold no quote and whose bare values hold no quote, comma or closing brace; the exact bytes written are claimed for all.
- addConnectorToMap and addAsyncListenersToMap: the same recursion as addPartToMap.
- The bodies of jobs in the serializer, and the result channel of GetOrCreateReplicationStatus.
- BalanceLoad: the quotient is computed exactly, not in floating point.
- CAS: the 64-bit wrap-around of the version counter is not modelled.
- SortUint16List: the library's sort is not modelled step by step, only what it leaves in the array.
- Throttle: another caller that changes the quota between load and swap makes it start over; the step of the model is the round that succeeds.
- The number of slots and the percentage of the minimal part do not change during a call.
- ReadNumber: the conversion of 2^64 to an unsigned 64-bit number, which the Go language leaves open, is what amd64 gives.
- Error returns in the middle of batchSetMetaWithRetry, which leave requests of the batch unread: the consumer of the model always reads its batch to the end.
- Waiting itself: a channel operation that would block is an action that does nothing until it can happen.
