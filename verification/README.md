# s3mer: verified models

s3mer is an S3 proxy that writes to one backend and replicates to the others through Kafka, or
writes to several backends at once and fills in the rest. This project models the parts of it
whose correctness is not visible in any single function, and proves what they are for:

- **Replication worker** (`Worker.dfy`, `WorkerSteps.dfy`, `BatchRuns.dfy`, `BatchSteps.dfy`,
  `RetryScheduler.dfy`, `Consumer.dfy`, `Runs.dfy`): the per-backend consumer, its handler and its
  background retry tasks as a step system in which every backend and consumer call is its own step,
  client writes interleave with replications in flight, and faults, lost acknowledgements and
  restarts are choices of the steps. Handler and tasks are separate actors; that they never overlap
  is proved from the pausing of partitions. Over every run, from any pair of stores: worker safety,
  convergence of target and source, and agreement at the end of every run in which faults cease.
  What each step does is stated from the outside too, by the fault of its backend call and the
  raises of seek and resume. The batch worker, with one handler for all partitions and messages for
  several targets, is a step system of the same grain, with convergence for every target; its
  handling of rounds, retries and backoff is an object with the consumer's position and pause state.
- **Replicated operations** (`Replicator.dfy`, `Replay.dfy`): the effect of every replicated operation
  on a target store, and exactly which logs can be replayed on any target, whether or not it has their
  buckets.
- **Streaming** (`ChunkedWire.dfy`, `Streaming.dfy`, `Spool.dfy`, `FanOut.dfy`): the incremental
  aws-chunked decoder against a one-shot meaning of the wire format, the replayable request body
  under fallback, and the fan-out buffer with many readers.
- **Multi-backend writes** (`SyncExecutor.dfy`, `Multipart.dfy`): outcome accounting, quorum, the
  asynchronous fill, and the distributed multipart protocol.
- **Circuit breaker** (`CircuitBreaker.dfy`), **lifecycle XML** (`Lifecycle.dfy`,
  `LifecycleRoundTrips.dfy`, `LifecycleOrder.dfy`, `LifecycleTexts.dfy`), **session stores**
  (`SessionStore.dfy`, `Decimal.dfy`) and **scheduling** (`Scheduling.dfy`).

Code that changes state in place is modelled by classes and loops whose contracts tie the new state
to a function of the old one; the theorems are lemmas about those functions and about runs.
`dafny verify dfyconfig.toml` checks everything.

## Where the code is not what one would expect

Each item names a lemma with a concrete input and the lemma with the exact condition under which
the expected property does hold.

- The decoder asks for 128 more bytes when its raw buffer ends inside a header line, and takes the
  stream to be over if they are not there, although the line may already be complete
  (`ChunkedWire.CutExample`, `ChunkedWire.DecoderRefines`).
- With the ETag shortcut on, replaying a log can change tags: a tagging copied before the first put
  of its object is undone by that put and redone by the replay, which skips the put
  (`Replay.EarlyTagsExample`, `Replay.StableReplayIff`).
- A replay on a target that lacked a bucket, or had it removed and created again, applies what came
  too early the first time (`Replay.PolicyFirstExample`, `Replay.RecreatedExample`,
  `Replay.ReplayIff`).
- A multipart quorum below the number of synchronous backends lets a backend be completed with
  fewer parts than the others (`Multipart.SmallQuorumMisses`, `Multipart.EqualAssembly`).
- A zero-length read of a replayed body that has not caught up overwrites the spool
  (`Spool.ZeroReadExample`, `Spool.ReadGoodIff`).
- A reader of a spilled body starts over when it is asked for more after the end of an iteration; a
  reader of an in-memory body does not (`FanOut.RestartExample`, `FanOut.FormsAgree`).
- A multi-delete that reports an empty key replicates it; a single delete of an empty key is not
  replicated (`Scheduling.EmptyKeyExample`, `Scheduling.MultiDelete`).

One more has a concrete input and only a sufficient condition, the gentle logs of `Replay.ReplayIff`: a
log that empties a bucket after failing to remove it (`Replay.EmptiedLaterExample`).

## Model

| member | source | states |
|---|---|---|
| Worker.Convergence | src/s3mer/kafka/replication_executor.py:45-195 | After every run from any pair of stores, a key with no unpublished write whose last message was handled, not skipped and not in work has the same body, or absence, on target and source; a key never written agrees exactly if it agreed at the start |
| Worker.EventualAgreement | src/s3mer/kafka/retry_scheduler.py:200-305 | Wherever a run in which faults and client writes cease ends, all keys agree, except those whose last message had by then been skipped or had used up its retries and those never written that differed at the start |
| Worker.CalmRunsEnd | src/s3mer/kafka/retry_scheduler.py:200-305 | Every such run is no longer than a bound computed from its first state, and it can go on exactly until everything is published and every partition drained |
| Worker.CalmRunExists | src/s3mer/kafka/retry_scheduler.py:200-305 | From every state of a run such a run leads to a finished state |
| Worker.WorkerSafety | src/s3mer/kafka/subscribers.py:269-391 | After every run a partition has at most one live task, is paused exactly while it has one, and then has no handler at work; each offset below the position has an outcome or is in work, and all offsets before one in work have an outcome |
| Worker.TaskSettles | src/s3mer/kafka/retry_scheduler.py:200-305 | While a retry task lives nothing is delivered from its paused partition; the task leaves only by recording an outcome, with the position on the offset after success and past it after a skip |
| Worker.RunKept | src/s3mer/kafka/subscribers.py:269-391 | The whole-run invariant over logs, positions, paused partitions, handlers, live tasks, replications in flight, unpublished writes and keys never written |
| Worker.NextInv | src/s3mer/kafka/subscribers.py:269-391 | Every step of clients, handler, tasks or restart, faulty or not, keeps worker safety and the state of every key |
| Worker.ReplicateLast | src/s3mer/kafka/replication_executor.py:45-121 | Replicating the last message of an undisturbed key, call by call, holds only data of the present source and returns only when target and source agree on the key |
| Worker.ReplicateFrame | src/s3mer/kafka/replication_executor.py:124-195 | A replication touches no key but its own, whatever its calls do |
| Worker.TaskReactionOk | src/s3mer/kafka/retry_scheduler.py:222-305 | The task's reaction to success, permanent and transient errors, and to raising seeks and resumes, keeps worker safety, concerns its offset alone and records success only on return |
| Worker.AdvanceConsumerOk | src/s3mer/kafka/retry_scheduler.py:48-64 | Advancing past a skipped offset does the same, also when seek or resume raises |
| Worker.HandlerReactionOk | src/s3mer/kafka/subscribers.py:316-391 | So does the handler's settling, skipping, or pausing and starting a task |
| Worker.CalmStepProgress | src/s3mer/kafka/retry_scheduler.py:200-305 | Every fault-free step of publisher or worker brings the bound down and loses nothing that was not already lost |
| WorkerSteps.RaisesIff | src/s3mer/kafka/replication_executor.py:45-121 | One backend call of a replication raises exactly when it is made and fails, with that error's kind, and the target changes only if a write took effect |
| WorkerSteps.WritesIs | src/s3mer/kafka/replication_executor.py:87-121 | A write that took effect, also one whose answer was lost, leaves the key absent after a delete and after a put the fetched body, or what the backend makes of a wrong length; one that did not leaves the target alone |
| WorkerSteps.ReturnsIff | src/s3mer/kafka/replication_executor.py:52-121 | A replication returns exactly after a write, when the source has nothing to copy, or when both ETags are equal |
| WorkerSteps.PutArrives | src/s3mer/kafka/replication_executor.py:45-121 | An undisturbed replication of a put returns within a known number of calls with the source's body on the target, and leaves all other keys alone |
| WorkerSteps.ShortcutTaken | src/s3mer/kafka/replication_executor.py:52-65 | With the ETag shortcut on, a put of what the target already holds returns after two calls without writing |
| WorkerSteps.HandlerOnFault | src/s3mer/kafka/subscribers.py:316-383 | A transient error of the handler's call leaves the partition paused with exactly the task (offset, attempt 1) and nothing recorded; a permanent one leaves the skip recorded, no task and no pause |
| WorkerSteps.HandlerWithoutFault | src/s3mer/kafka/subscribers.py:316-319 | Without an error the handler goes on with the same message, or records success and is done with it |
| WorkerSteps.RetryOnFault | src/s3mer/kafka/retry_scheduler.py:260-303 | A transient error keeps the task, with the next attempt and nothing recorded; a permanent one records the skip and moves past the message, or on to the next attempt when seek or resume raises |
| WorkerSteps.RetryWithoutFault | src/s3mer/kafka/retry_scheduler.py:260-303 | Without an error the task goes on with the same attempt, or records success and rewinds to the message; a raising rewind counts as an error of its own |
| WorkerSteps.TargetIs | src/s3mer/kafka/retry_scheduler.py:260-261 | Handler and task do to the target exactly what their replication's call does |
| WorkerSteps.GiveUpIs | src/s3mer/kafka/retry_scheduler.py:216-246 | A task gives up only beyond max_retries, records that and moves past the message |
| WorkerSteps.AttemptsGrow | src/s3mer/kafka/retry_scheduler.py:214-303 | A live task keeps its attempt within a round, leaves a round only for the next attempt, and starts one only while attempts are left |
| WorkerSteps.DeliverIs | src/s3mer/kafka/subscribers.py:269-300 | A delivery hands the message at the position to the handler and moves the position on by one |
| WorkerSteps.PossibleIff | src/s3mer/kafka/retry_scheduler.py:214-303 | What each actor waits for: deliveries for an idle partition without a task, a task's round for attempts left, giving up for none, a restart for a committed offset that leaves out no work in progress |
| BatchRuns.BatchConvergence | src/s3mer/kafka/subscribers.py:102-252 | In batch mode, after every run from any stores with client writes interleaved, a key with no unpublished write whose last message has been reached, succeeded for a target and is not owed to that target by handler or task has the same body, or absence, on that target and on the source |
| BatchRuns.BatchSafety | src/s3mer/kafka/retry_scheduler.py:67-197 | After every run at most one task lives, exactly while every partition is paused, and then no handler runs; a message below the position has an outcome for each of its targets or is owed to it by the one job there is |
| BatchRuns.NextInv | src/s3mer/kafka/retry_scheduler.py:67-197 | Every step of clients, handler, task or restart, faulty or not, keeps both |
| BatchRuns.GiveUpStep | src/s3mer/kafka/retry_scheduler.py:85-122 | Giving up records every target still owed as skipped and leaves the others as they are, also when seek or resume raises |
| BatchRuns.EndRoundStep | src/s3mer/kafka/retry_scheduler.py:172-195 | The end of a round hands the targets that failed to the next one, or seeks back and resumes everything |
| BatchSteps.HandleIs | src/s3mer/kafka/subscribers.py:150-221 | One call of the handler: a transient error leaves the target over with nothing recorded, a permanent one records its skip, arrival its success; an unknown target is poison; no other target's store changes |
| BatchSteps.RetryIs | src/s3mer/kafka/retry_scheduler.py:135-173 | One call of the task does the same, and a round begins only while attempts are left |
| BatchSteps.EndHandlingIs | src/s3mer/kafka/subscribers.py:202-252 | The handler ends a message that failed for no target, or pauses everything and hands those targets to the one task at attempt 1 |
| BatchSteps.EndRoundIs | src/s3mer/kafka/retry_scheduler.py:175-195 | A round that leaves targets over starts the next one with exactly those and the next attempt; one that does not seeks to the message and resumes everything, or goes round again when that raises |
| BatchSteps.GiveUpIs | src/s3mer/kafka/retry_scheduler.py:85-122 | Beyond max_retries each target left is recorded as skipped, no other outcome changes, and the partition moves past the message |
| BatchSteps.PossibleIff | src/s3mer/kafka/retry_scheduler.py:83-197 | What the batch handler and the batch task wait for, in the same terms |
| BatchSteps.DeliverableIff | src/s3mer/kafka/subscribers.py:102-252 | A message is delivered exactly when there is one, no handler runs and no task lives |
| RetryScheduler.DelayGrows | src/s3mer/kafka/retry_scheduler.py:31-35 | Delays do not shrink from attempt to attempt and never exceed the cap |
| RetryScheduler.TotalDelayBound | src/s3mer/kafka/retry_scheduler.py:124-133 | The waiting of n attempts is at most d(2^n - 1) and at most n caps |
| RetryScheduler.TotalDelayExact | src/s3mer/kafka/retry_scheduler.py:124-133 | Before the cap is reached it is exactly d(2^n - 1) |
| RetryScheduler.DelayDoubles | src/s3mer/kafka/retry_scheduler.py:31-35 | The first delay is the base, each later one double the one before, and the cap from where that exceeds it |
| RetryScheduler.TryTargets | src/s3mer/kafka/subscribers.py:150-221 | The handler tries every target once: unknown ones are poison, transient failures are left over in order, all others are recorded with their outcome |
| RetryScheduler.RetryTargets | src/s3mer/kafka/retry_scheduler.py:135-173 | A retry round does so with targets the pool knows, and leaves over only such |
| RetryScheduler.HandlerByName | src/s3mer/kafka/subscribers.py:150-221 | For distinct targets: success is recorded exactly for known targets whose try replicates, the permanent skip for those whose try fails permanently, poison for unknown ones; left over are the known ones that fail transiently |
| RetryScheduler.SettledByName | src/s3mer/kafka/retry_scheduler.py:135-173 | What a retry round records of distinct targets, in the same terms |
| RetryScheduler.HandlerInOrder | src/s3mer/kafka/subscribers.py:150-221 | For any target list, repeated targets included: each place is the next entry of the records, with its own outcome, or of the targets left over |
| RetryScheduler.RoundInOrder | src/s3mer/kafka/retry_scheduler.py:135-173 | The same of a retry round |
| RetryScheduler.HandlerConserves | src/s3mer/kafka/subscribers.py:150-221 | The handler records or leaves over each target exactly as often as the message lists it, and leaves over only targets the pool knows |
| RetryScheduler.TaskConserves | src/s3mer/kafka/retry_scheduler.py:83-197 | A task records each failed target exactly as often as it was handed over, as succeeded, skipped permanently or skipped after the last retry |
| RetryScheduler.TaskFates | src/s3mer/kafka/retry_scheduler.py:83-197 | For distinct targets a task records success exactly where the target's first attempt that does not fail transiently replicates, the permanent skip where it fails permanently, and the max-retries skip where there is none, whatever the other targets do |
| RetryScheduler.ExhaustsIff | src/s3mer/kafka/retry_scheduler.py:85-122 | A task gives up exactly when some target has no such attempt |
| RetryScheduler.AttemptsMadeIs | src/s3mer/kafka/retry_scheduler.py:83-197 | A task makes exactly as many attempts as the target that needs the most, never more than max_retries |
| RetryScheduler.BatchWorker.Handle | src/s3mer/kafka/subscribers.py:102-252 | A message is handled only while no task lives; a transient failure pauses all assigned partitions and starts the one task, which will resume exactly those; every message below a position is settled or is that task's |
| RetryScheduler.BatchWorker.RetryRound | src/s3mer/kafka/retry_scheduler.py:83-197 | One turn of the task, also when seek or resume raises: what is recorded, which targets remain, where the failed partition stands and whether partitions are resumed; the worker's invariant is kept |
| RetryScheduler.BatchWorker.ScheduleGlobalRetry | src/s3mer/kafka/retry_scheduler.py:67-197 | When seek and resume do not raise the task ends within max_retries attempts, everything is resumed, only the failed partition's position has moved, the records are those of the task, and it slept before exactly the attempts it had to make |
| Replicator.ReplicateOperation | src/s3mer/kafka/replication_executor.py:124-351 | Call by call on two clients, the target becomes the state-sync function's result or the same error is raised with the target unchanged; a put that raises nothing leaves the source's body on the target |
| Replicator.RaisesExactly | src/s3mer/kafka/replication_executor.py:124-351 | For each operation, exactly when it raises and with which code: writes, tags and configuration on a missing bucket, tags of a missing object, removal of a bucket that is not empty, and nothing else |
| Replicator.ReturnMeans | src/s3mer/kafka/replication_executor.py:124-351 | What holds of the object, the bucket or its configuration after each operation that did not raise |
| Replicator.ReturnKeeps | src/s3mer/kafka/replication_executor.py:124-351 | Which part of the target each operation can change, and that a put under the shortcut leaves an equal object alone and otherwise clears its tags |
| Replicator.TouchesOwnObject | src/s3mer/kafka/replication_executor.py:124-351 | An operation changes no object but its own |
| Replicator.TouchesOwnConfiguration | src/s3mer/kafka/replication_executor.py:248-342 | Nor the configuration of any bucket but its own |
| Replicator.EffectsClosed | src/s3mer/kafka/replication_executor.py:135-234 | Closed form of what any log without a delete makes of one object, with and without the ETag shortcut |
| Replicator.EffectsIdempotent | src/s3mer/kafka/replication_executor.py:135-234 | Repeating a log on one object changes nothing unless the shortcut meets tags copied too early |
| Replicator.FromNothing | src/s3mer/kafka/replication_executor.py:135-234 | Replaying a whole log on what its second part made of nothing changes nothing unless the object is stranded |
| Replicator.StrandedShows | src/s3mer/kafka/replication_executor.py:135-234 | A stranded object does change, for every source whose object has tags |
| Replay.ReplayIff | src/s3mer/kafka/replication_executor.py:135-342 | A log that deletes no object of a bucket after removing the bucket, and puts none into it between two removals, leaves every target it produced as it is, for all sources and all targets, whether or not they have its buckets, if and only if it is safe: no tags copied too early under the shortcut, and no object or configuration stranded before a creation of its bucket that lasts, be it the first creation or the one after the last removal |
| Replay.ReplayIdempotent | src/s3mer/kafka/retry_scheduler.py:269-270 | With the source unchanged, rewinding to any offset and reprocessing a safe rest any number of times leaves the target one pass leaves |
| Replay.StableReplayIff | src/s3mer/kafka/replication_executor.py:135-342 | On targets that have all its buckets, a log without bucket deletions replays for all sources if and only if the shortcut is off or no tags are copied too early |
| Replay.BucketKept | src/s3mer/kafka/replication_executor.py:135-342 | A bucket in which an object survives until the log first removes it goes through the log's effects on objects and configurations and is still there |
| Replay.BucketGone | src/s3mer/kafka/replication_executor.py:157-175 | A bucket in which nothing survives until then ends as what the log makes of the bare bucket after its creation behind the last removal, or is missing without such a creation |
| Replay.PolicyFirstExample | src/s3mer/kafka/replication_executor.py:135-342 | A policy that arrives before its bucket makes a replay change the target |
| Replay.EarlyTagsExample | src/s3mer/kafka/replication_executor.py:135-234 | Tags copied before the first put come back at a replay exactly with the shortcut on |
| Replay.EmptiedLaterExample | src/s3mer/kafka/replication_executor.py:135-342 | A bucket emptied after its failed removal is removed by the replay |
| Replay.RecreatedExample | src/s3mer/kafka/replication_executor.py:135-342 | A policy that a bucket's removal took away comes back at a replay once the bucket is filled again |
| Replay.RenewalExample | src/s3mer/kafka/replication_executor.py:135-342 | Removing a bucket and creating it again replays on every target |
| ChunkedWire.DecoderRefines | src/s3mer/common/streaming.py:287-362 | For every stream and chunk size the decoder's output is a prefix of the one-shot decoding, fewer than 128 bytes short, and equal to it if and only if no header line that brings data is cut |
| ChunkedWire.OutputMeaning | src/s3mer/common/streaming.py:296-336 | The same from every state of the decoder |
| ChunkedWire.LongTailsUncut | src/s3mer/common/streaming.py:300-302 | Nothing is cut when at least 127 bytes follow each header line that brings data |
| ChunkedWire.DryUncut | src/s3mer/common/streaming.py:287-302 | Nothing is cut when one pull takes the whole stream |
| ChunkedWire.DecodedEncode | src/s3mer/common/streaming.py:273-336 | The one-shot decoder inverts the encoder for every list of non-empty chunks, sizes written in digits of either case with any zeros in front, and CRLF-free extension text |
| ChunkedWire.ParseHexIff | src/s3mer/common/streaming.py:304-310 | A size is read exactly when it is written in hexadecimal digits of either case, as the number they show |
| ChunkedWire.BadSizeEnds | src/s3mer/common/streaming.py:304-310 | A header line whose size is written in no such way ends the stream |
| ChunkedWire.DecodedBroken | src/s3mer/common/streaming.py:318-336 | A stream that breaks off within a chunk still gives the data that is there |
| ChunkedWire.RoundTrip | src/s3mer/common/streaming.py:296-336 | Encoding and incremental decoding give the payload back, for every chunk size with 127 bytes behind each data header, and always when the chunk size covers the stream |
| ChunkedWire.CutExample | src/s3mer/common/streaming.py:300-302 | A one-byte payload read one byte at a time is lost |
| Streaming.AsgiStreamReader.Read | src/s3mer/common/streaming.py:221-251 | A read returns the next n bytes of the body, fewer only at its end, and leaves the rest |
| Streaming.AwsChunkedDecoder.FillRawBuffer | src/s3mer/common/streaming.py:287-294 | The raw buffer and the reader end where pulling chunk by chunk ends; success is having n bytes |
| Streaming.AwsChunkedDecoder.HandleReadHeader | src/s3mer/common/streaming.py:296-316 | The header handler is the header step of the control, end of stream included |
| Streaming.AwsChunkedDecoder.HandleReadData | src/s3mer/common/streaming.py:318-328 | The data handler is the data step and appends exactly the bytes it takes |
| Streaming.AwsChunkedDecoder.HandleReadCrlf | src/s3mer/common/streaming.py:330-336 | The CRLF handler is the CRLF step |
| Streaming.AwsChunkedDecoder.Read | src/s3mer/common/streaming.py:338-362 | A read returns the next n bytes of the decoder's whole output, fewer only at its end; its loops terminate |
| Streaming.BodyOfMessages | src/s3mer/common/streaming.py:221-251 | However a body is cut into messages, empty ones included, it is the same body |
| Streaming.DecodeInReads | src/s3mer/common/streaming.py:338-362 | For any messages and any sequence of read sizes the total output depends on the body's bytes and the chunk size alone |
| Spool.ReadGood | src/s3mer/common/streaming.py:157-181 | A safe read keeps the spool equal to the bytes pulled, each chunk once and live reading at its end, and hands out exactly the next bytes of the stream |
| Spool.ReadGoodIff | src/s3mer/common/streaming.py:157-181 | The spool stays good exactly on safe reads |
| Spool.ReplaySize | src/s3mer/common/streaming.py:157-170 | A replaying read hands out exactly the next n bytes of the spool, fewer only where it ends, all that is left for a negative size, and pulls nothing from the stream |
| Spool.LiveSize | src/s3mer/common/streaming.py:166-181 | A read that has caught up hands out exactly the next chunk of the stream and spools it; at the end it hands out nothing |
| Spool.ZeroReadExample | src/s3mer/common/streaming.py:157-181 | A zero-length read after a rewind writes the second chunk over the first |
| Spool.ZeroReadOverwrites | src/s3mer/common/streaming.py:157-181 | What such a read does to the spool in general, byte by byte |
| Spool.RewindGood | src/s3mer/common/streaming.py:135-156 | After a rewind a consumer is offered the whole stream again |
| Spool.BufferedStreamReader.Read | src/s3mer/common/streaming.py:157-181 | The reader's fields and result are those of the tape function the lemmas speak of |
| Spool.Consume | src/s3mer/backends/strategies.py:143-195 | Whatever reads and rewinds a backend makes, what it holds and what is ahead are together the stream; if it accepts it holds all of it |
| Spool.WriteWithFallback | src/s3mer/backends/strategies.py:129-195 | The first candidate that does not fail with a retryable error decides, and a backend that accepts has received exactly the request body, whatever earlier candidates consumed |
| FanOut.FromBody | src/s3mer/common/streaming.py:430-457 | The buffer holds exactly the bytes of the body, in a file if and only if it came in chunks that exceed the memory limit; there is none for a body that is absent or neither bytes nor chunks |
| FanOut.ReplyIs | src/s3mer/common/streaming.py:382-525 | A read hands out exactly the next n bytes, fewer only at the end, all for -1; an iteration goes by chunk size and stops exactly where nothing is left, which alone closes a file |
| FanOut.AsyncBytesReader.ReadSome | src/s3mer/common/streaming.py:382-392 | The in-memory reader moves and answers as the reader function says |
| FanOut.ConcurrentFileStream.Advance | src/s3mer/common/streaming.py:500-525 | The file reader does too, closing its handle at the end of an iteration |
| FanOut.MultiSyncBodyBuffer.OpenReader | src/s3mer/common/streaming.py:459-468 | A new reader of the same body, at its start and sharing no state with the others |
| FanOut.ReadersAreIndependent | src/s3mer/common/streaming.py:459-525 | In every interleaving of opens and calls each reader is told what it would be told alone |
| FanOut.MemoryDelivers | src/s3mer/common/streaming.py:382-402 | What an in-memory reader delivers is a prefix of what was left, and all of it once it has told the end |
| FanOut.FormsAgree | src/s3mer/common/streaming.py:382-525 | In-memory and spilled readers answer a run of calls alike if and only if the body is empty or nobody asks for more after the end |
| FanOut.RestartExample | src/s3mer/common/streaming.py:515-525 | A one-byte body iterated past its end comes again from the file and not from memory |
| FanOut.FanOutDelivers | src/s3mer/common/streaming.py:374-525 | Every reader of either form, however interleaved, receives a prefix of the body and the whole of it once told the end, if it stops asking then |
| FanOut.IterationEnds | src/s3mer/common/streaming.py:394-402 | Iterating reaches the end within one more call than there are bytes |
| SyncExecutor.ExecuteConcurrent | src/s3mer/backends/sync_executor.py:57-80 | The gathered outcomes become the successes and failures of the specification; an error without backends |
| SyncExecutor.OutcomesPartition | src/s3mer/backends/sync_executor.py:57-80 | Each backend's outcome appears once, in order, in exactly one of the two lists |
| SyncExecutor.QuorumAccounting | src/s3mer/backends/sync_executor.py:82-91 | With a validated quorum a met quorum leaves a response and a missed one a failure to raise; a quorum of all is met only without failures |
| SyncExecutor.SelectClientResponse | src/s3mer/backends/sync_executor.py:38-54 | The configured backend's response, else the primary's, else the first; none only without successes |
| SyncExecutor.BestFailure | src/s3mer/backends/sync_executor.py:86-91 | The primary's error if the primary failed, else the first |
| SyncExecutor.SelectedIs | src/s3mer/backends/sync_executor.py:38-54 | What it means to be selected: the configured backend goes first, then a primary, among several the first, else the first of all |
| SyncExecutor.FillTargets | src/s3mer/backends/multisync_strategies.py:89-112 | The fill targets are the clients, in order, that did not succeed |
| SyncExecutor.MissingAt | src/s3mer/backends/multisync_strategies.py:89-112 | Each client that did not succeed stands in the fill at the place its order gives it |
| SyncExecutor.FillSource | src/s3mer/backends/multisync_strategies.py:89-112 | The fill reads from a backend that took the write, the configured one if it did |
| SyncExecutor.FillCovers | src/s3mer/backends/multisync_strategies.py:89-112 | Successes and fill targets are together every client exactly once |
| SyncExecutor.ExecuteQuorum | src/s3mer/backends/multisync_strategies.py:170-201 | A quorum write raises exactly when the quorum is missed, with the primary's error if the primary failed, else the first; otherwise it answers with the configured backend's response, else the primary's, else the first, the fill reads from the configured backend if it took the write, else from the first that did, and the backends that took it and the fill's targets are together every client exactly once |
| Multipart.PrepareParts | src/s3mer/backends/multisync_strategies.py:225-250 | The loop builds the backend's completion list |
| Multipart.PartsForAcked | src/s3mer/backends/multisync_strategies.py:239-249 | That list is the client's list in order, restricted to parts the backend acknowledged, with that backend's own ETags |
| Multipart.WholeListIff | src/s3mer/backends/multisync_strategies.py:239-249 | A backend assembles the whole list if and only if it acknowledged all of it |
| Multipart.StepInv | src/s3mer/backends/multisync_strategies.py:252-352 | Every step of create, load, send and answer, with requests in flight, keeps ownership |
| Multipart.CreatedIs | src/s3mer/backends/multisync_strategies.py:252-297 | With a quorum of answers each backend that issued an id is given that id from then on and the others the client's; a missed quorum, or an error behind it, removes the session; other sessions stay |
| Multipart.UploadedIs | src/s3mer/backends/multisync_strategies.py:309-325 | With a quorum of answers to a part each backend that answered is given its own ETag for that part and the others none, and no other part or session changes; a missed quorum changes nothing |
| Multipart.FinishedIs | src/s3mer/backends/multisync_strategies.py:327-352 | A completion or abort removes the session with a quorum of answers and changes nothing without |
| Multipart.LoadIs | src/s3mer/backends/multisync_strategies.py:299-307 | A request goes on with the stored session and ends at once without one |
| Multipart.IssuedIs | src/s3mer/backends/multisync_strategies.py:265-325 | What counts as issued is exactly what came back with an answer, for its session and part |
| Multipart.SentToAll | src/s3mer/backends/multisync_strategies.py:65-87 | Over every run each request handed to some backend, which is a configured one, was handed with the same session to every configured backend |
| Multipart.WaitingSent | src/s3mer/backends/multisync_strategies.py:309-352 | So was each request that waits for its answers |
| Multipart.Ownership | src/s3mer/backends/multisync_strategies.py:225-352 | Over every run each mapped upload id and each ETag sent to a backend was issued by it for that session and part |
| Multipart.EqualAssembly | src/s3mer/backends/multisync_strategies.py:225-352 | With a quorum of all synchronous backends every completion that was sent was sent to every backend, which assembles exactly the client's list of recorded parts, and the ETags the backends are given for a part all came back from one and the same upload of it |
| Multipart.SmallQuorumMisses | src/s3mer/backends/multisync_strategies.py:239-249 | For every smaller quorum a run exists in which a backend is sent a completion without a recorded part that the client lists |
| CircuitBreaker.RunIsHistory | src/s3mer/backends/circuit_breaker.py:41-81 | After every trace with a monotone clock the breaker is closed, with no opening time, exactly below the threshold, and otherwise opened at the last failure |
| CircuitBreaker.AllowsIffHistory | src/s3mer/backends/circuit_breaker.py:52-54 | A request is allowed if and only if trailing failures are below the threshold or the cooldown since the last one is over |
| CircuitBreaker.PollsDoNotMatter | src/s3mer/backends/circuit_breaker.py:41-54 | Polling the state, however often, never changes a decision |
| CircuitBreaker.BackendCircuitBreaker.AllowRequest | src/s3mer/backends/circuit_breaker.py:52-54 | The object's answer in terms of its event history |
| CircuitBreaker.BackendCircuitBreaker.RecordFailure | src/s3mer/backends/circuit_breaker.py:64-81 | The fields stay those of the history with the failure added |
| CircuitBreaker.BackendCircuitBreaker.RecordSuccess | src/s3mer/backends/circuit_breaker.py:56-62 | The fields stay those of the history with the success added |
| Lifecycle.PrintLifecycleConfiguration | src/s3mer/common/xml.py:186-268 | The printed parts are those of the configuration's element tree and read back as exactly that tree |
| Lifecycle.ReadAllTokens | src/s3mer/common/xml.py:186-268 | Reading the parts of any tree gives the tree back |
| LifecycleRoundTrips.PrintAndParse | src/s3mer/common/xml.py:271-388 | Printing, reading the parts back and parsing returns every configuration normalised, and unchanged if and only if it is well formed |
| LifecycleRoundTrips.LifecycleRoundTrip | src/s3mer/common/xml.py:186-388 | Parsing the printed tree gives every configuration back normalised, and unchanged if and only if it is well formed |
| LifecycleOrder.OrderIrrelevant | src/s3mer/common/xml.py:283-386 | Parsing a rule depends only on the order among children of the same name |
| LifecycleOrder.InterleavingIrrelevant | src/s3mer/common/xml.py:283-386 | Rules that differ only in how children of different names interleave parse alike |
| LifecycleTexts.ParseFailsIff | src/s3mer/common/xml.py:271-388 | The parser raises exactly when some rule has, where days are read, a text that is not an integer |
| LifecycleTexts.UnknownIgnored | src/s3mer/common/xml.py:283-386 | An unknown element anywhere in a rule or beside the rules is as if it were not there |
| LifecycleTexts.MarkerIs | src/s3mer/common/xml.py:335-346 | The delete marker is set by the word true in any mixture of cases and by nothing else |
| LifecycleTexts.PrintedRule | src/s3mer/common/xml.py:186-268 | The children of a printed rule, one by one |
| SessionStore.DeserializeSerialize | src/s3mer/state/valkey_store.py:36-56 | Deserialising inverts serialising |
| SessionStore.ReadKeysShowKeys | src/s3mer/state/valkey_store.py:36-56 | Distinct part numbers survive their decimal string keys |
| SessionStore.SessionIsHistory | src/s3mer/state/memory.py:21-49 | After every sequence of operations a session is what its history says: its last creation and, since then, the upload ids set last and for each part the ETags recorded last |
| SessionStore.ReplyIs | src/s3mer/state/memory.py:21-49 | Each operation's answer by that history: the empty session on creation, the session or nothing on lookup, a refusal of changes exactly without a session |
| Decimal.ReadShow | src/s3mer/state/valkey_store.py:36-56 | Reading an integer's decimal text gives the integer |
| SessionStore.DoRefines | src/s3mer/state/valkey_store.py:67-99 | Every operation of the Valkey store replies as the in-memory map does and keeps representing it |
| SessionStore.StoresAgree | src/s3mer/state/memory.py:21-49 | On every sequence of operations both stores give the same sessions and errors |
| SessionStore.RunBoth | src/s3mer/state/memory.py:21-49 | The two store objects, side by side on any sequence of operations, give equal replies throughout |
| SessionStore.PerformBoth | src/s3mer/state/valkey_store.py:67-99 | One operation on both store objects gives the same reply, that of the plain map, and leaves the Valkey store representing it |
| Scheduling.CollectFields | src/s3mer/kafka/manager.py:93-101 | The metadata are the listed fields that response or request has, the response's value first |
| Scheduling.BatchReplicationManager.ScheduleReplication | src/s3mer/kafka/manager.py:110-152 | Exactly one message a key is published, with all targets; none without targets |
| Scheduling.PerBackendReplicationManager.ScheduleReplication | src/s3mer/kafka/manager.py:169-210 | Exactly one message a key and target is published, on the target's topic |
| Scheduling.SameTasks | src/s3mer/kafka/manager.py:139-210 | Both managers ask for the same tasks in the same order, for every operation, key list and target list |
| Scheduling.KeyMajor | src/s3mer/kafka/manager.py:139-152 | The tasks are one for each key position and target, key after key |
| Scheduling.MessageSays | src/s3mer/kafka/manager.py:64-152 | What each message says: completing a multipart upload and copying are replicated as puts, a multi-delete as deletions of its keys, a bucket operation without a key, everything else as it is |
| Scheduling.HowManyKeys | src/s3mer/kafka/manager.py:75-91 | How many messages each operation asks for |
| Scheduling.MessageCarries | src/s3mer/kafka/manager.py:93-101 | Which nine fields a message carries, the response's value first |
| Scheduling.TopicCarriesTarget | src/s3mer/kafka/manager.py:198-210 | A target's topic carries, in order, exactly the tasks batch mode has for that target |
| Scheduling.MultiDelete | src/s3mer/kafka/manager.py:64-91 | A multi-delete publishes what its deletions would publish one by one if and only if it reports no empty key |
| Scheduling.EmptyKeyExample | src/s3mer/kafka/manager.py:75-91 | A deletion reported for the empty key is published by a multi-delete alone |
| Scheduling.PartitionKeyIff | src/s3mer/kafka/publisher.py:28-39 | For bucket names without a slash two messages share a partition key exactly when they concern the same object, or the same bucket itself |

## Left out

- Chunk sizes other than plain hexadecimal digits: Python also reads signs, spaces, underscores and a prefix, and a negative size. The same holds for the integers of a lifecycle document.
- Request channels: a channel with no more events is taken to report a disconnect.
- Streaming.AwsChunkedDecoder.Read: sizes below -1, which Python slices in its own way, are not modelled; the same holds for the other readers.
- Non-zero seeks on the replayable body, which no client of it makes.
- FanOut.FanOutDelivers: chunk sizes are positive; a configured chunk size of zero would end every iteration at once.
- Removing the spilled file when the buffer is closed, and tell and seek on its readers.
- Source switching: convergence is for one source backend; a fallback that writes to another one can let an older message overwrite newer data.
- BatchRuns.BatchConvergence: bodies only, one source backend, concurrency 1 and no rebalances, as for the per-backend worker.
- Worker.Convergence: bodies only; metadata and tags are not carried in full by the message.
- Worker.WorkerSafety: a restart resumes from an offset not past any that is in work, which rests on the broker library acknowledging a message only after its handler returns; no rebalances, concurrency 1 for each partition, a consumer handle that exists, and a dead-letter queue that does not raise.
- The per-backend handler and task are functions on a state, since the step system interleaves them call by call; the batch worker is a class.
- Order between bucket and object messages, which use different partition keys: the bucket is taken to exist on the target.
- Replicator.ReplicateOperation: objects are a body and tags, without the metadata sent with a put; equal ETags are taken as equal bodies, each call is atomic and content lengths are right, where the worker's step system drops all three.
- Replay.ReplayIff: logs that delete objects of a bucket after removing it, or fill it between two removals, are not characterised exactly; some of them replay and some do not.
- The pool of the batch worker is fixed; in the source a backend that disappeared between attempts would end the retry task with everything paused.
- RetryScheduler.BatchWorker.ScheduleGlobalRetry: runs where seek and resume do not raise; a raising turn is in RetryRound, and such a task may go on beyond max_retries.
- RetryScheduler.TaskFates: speaks of distinct targets; a target listed twice in one message may fare differently in its two tries, which RoundInOrder and TaskConserves cover.
- In-flight retry counters, metrics, logs and the contents of dead-letter messages.
- Error classification: which exceptions are permanent is a choice of the environment.
- Backoff is over real numbers; rounding of floats is not modelled.
- Multipart sessions are those of the in-memory store; session expiry and concurrent writers of Valkey, an unlocked read-modify-write, are not modelled.
- A session handed out by the in-memory store is the stored object itself in the source; here it is a value, so later changes by a caller are not seen by the store.
- JSON text, XML escaping, namespaces and the element-tree library: payloads are records and printed parts are tokens.
- Lifecycle.ParseLifecycleConfiguration: the nested loops over children are applications of one fold, proved equal to a loop by FoldLoop.
- Scheduling.MultiDelete: speaks of responses that report deletions; without any the requested keys are used, as ExtractKeys does.
- Read routing, request classification, pool ordering, request handlers, settings and the other XML builders: lookups, sorting by a library and string formatting, with no invariant across calls.
