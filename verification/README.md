# AegisFlow: a Dafny model and its proofs

AegisFlow is a login risk engine. This project models the parts of it that are protocols or
that keep two structures in agreement, and proves what the code relies on:

- the **blacklist write-behind protocol**: candidates go through a bounded queue into Redis by
  optimistic transactions, from the pending Stream into MySQL, and from Redis into an immutable
  memory snapshot, with expiry cleanup, cold start and a reset barrier around it
  (`Blacklist`, `CandidateQueue`, `WorkerPool`, `RedisMachine`, `Snapshot`, `BlacklistSystem`,
  `PendingStream`, `SystemConns`, `WriteBehind`, `Publication`, `ResetBarrier`,
  `BlacklistTheorems`, `StreamCodec`, `RedisTalk`, `RedisStore`);
- the **session and its length-prefix codec** (`FrameCodec`, `Session`, `SessionObject`,
  `SessionRuns`);
- the **timer core** (`TimerSpec`, `TimerCore`);
- the **sliding windows and the feature store** (`SlidingCounter`, `SlidingDistinct`,
  `FeatureStore`, `FeatureTables`, `FeatureHistory`);
- the **event loop**: byte streams, generations, deadlines, mailboxes and connection loads, with
  the timer thread, the workers, the dispatcher and the other loops running beside it
  (`RingBuffer`, `Mailboxes`, `ConnectionLoad`, `LoopState`, `LoopEnv`, `LoopSteps`, `LoopBoxes`,
  `EventLoop`, `LoopTheorems`).

`dafny verify dfyconfig.toml` checks everything.

## How it is built

An object whose methods change its fields is a class. Each of its methods is proved equal to a
function on the object's value (its `View`, `State` or `Store`), and the laws are proved about
those functions, over all runs. What several threads or processes do is a state machine: a
label fixes every choice, a run is a sequence of labels, and every section the source puts
under one lock, and every Redis command, is one step. The machine of the blacklist system is
built from the very functions that the queue, pool and snapshot code is proved to compute.

In `BlacklistSystem` any number of administration clients and one service process interleave
command by command. A WATCHed key that somebody else writes makes the transaction dirty. EXEC,
COMMIT and XDEL may take effect without an acknowledgement, or not take effect at all, and the
process may crash between any two steps. One process drains the Stream, as the fixed
single-threaded maintenance pool has it (`src/app/handler.cpp:66`). Nobody deletes
`cache_ready`, `revision` or `published_revision`, as no code does. HSCAN returns every field
that is present throughout the scan at least once and none that was never present. MySQL rows
are keyed exactly as Redis fields, and a batch of mutations takes effect all or not at all.

The store operations of `RedisStore` send real commands with keys and values. `RedisTalk` says
what each queued command does to Redis, and proves that a conversation which keeps to what its
operation allows is, among any other clients, a run of `RedisMachine` with that operation; the
store is obliged to keep to it with every command it sends.

In `EventLoop` the other threads run between any two sections that the source puts under a lock:
before each of its own calls into the timer core, a mailbox or a load counter the loop lets them
do whatever a script says (`LoopEnv.Other`): the clock goes on, the timer thread takes a due timer
and, later, posts it, a worker finishes, a connection is dispatched, another loop shifts the
loads. `LoopSteps.OthersKeep` is what they leave alone. Each handler is proved to leave a frame of
its own session (`Handled`, `Tidy`, `Frame` in `LoopState`) that chains, so `EventLoop.Loop.Live`
is a whole life of a loop: any number of turns, any interference, then the shutdown.

Clocks, the answers of sockets, epoll, the timer scheduler and the pools, the script of Redis
replies and the canonical text of an address are parameters or free choices.

## What turned out otherwise

- `SlidingCounter::sum` needs no bound on the number of events: counts are 32 bits wide and
  wrap, and the sum is still exact modulo 2^32 (`SlidingCounter.Counter.SumNow`).
- A peer that closes right behind a complete four-byte header is reported as an orderly close
  and not as a truncated frame, because `bufferedInputBytes` no longer counts the header. The
  exact condition is `SessionRuns.TruncationIsMissedBehindTheHeader`, with an input in
  `SessionRuns.TruncationMissedExample`. For the same reason a session in that state has the
  idle deadline and not the read deadline: it has the read deadline if and only if what it holds
  of a frame is neither nothing nor exactly a header (`LoopTheorems.ReadDeadlineWhen`, with a run
  in `LoopTheorems.IdleExample`).
- The bytes of an unfinished header count against `max_input_buffer_bytes`, so a limit below four
  bytes, which the configuration admits, shuts out every frame however short
  (`Session.HeaderShutOut`, with an input in `Session.HeaderShutOutExample`). `Session.InputTaken`
  has the exact condition.
- "Exactly one armed timer per session" is not true of the timer core. A deadline that is handled
  while its timer is still in the core, because a worker's late result or a rescan came first, is
  forgotten instead of cancelled, and the session arms its next timer beside it. A session whose
  deadline has not fired has exactly one timer if and only if none is left of a request that timed
  out ahead of its timer (`LoopTheorems.ExactlyOneTimer`); the handler leaves a second one if and
  only if the first was still in the core (`LoopTheorems.LateResultLeavesATimer`);
  `LoopTheorems.TwoTimersExample` is a run that gets there from a fresh loop. No handler ever acts
  on the forgotten timer, because its sequence number is old.
- Cancelling a timer frees its reservation at once but leaves its node in the heap. So
  `timer_capacity` bounds the live timers and not the heap: with room for two timers, n of them
  scheduled, armed and cancelled behind one that stays leave n + 1 nodes, for every n there are
  ids for (`TimerCore.HeapOutgrowsTheCapacity`), and the ids are the only bound
  (`TimerCore.HeapSize`). A cleanup leaves the node of a cancelled timer in the heap if and only
  if a live timer comes before it (`TimerCore.LeftoverStays`).
- A login that is younger than its window in milliseconds can still be too old by its bucket: it
  then creates or prolongs the state of its key without being counted
  (`FeatureHistory.TooOldForBucket`, with an input in `FeatureHistory.TooOldExample`). And the
  number of distinct users is exact exactly as long as no window outgrows its cap of 5000 members
  (`FeatureHistory.AnswersCountThePast`, with a history beyond it in `FeatureHistory.CapExample`);
  beyond it the answer stays at or below the cap.
- The architecture notes say that a new connection goes to the less loaded loop
  (`docs/ARCHITECTURE.md:78`). The code goes round robin and drops the connection when the loop
  whose turn it is is full (`src/net/event_loop_group.cpp:456-462`); the model follows the code.
  A connection goes to a least loaded loop, and is dropped only without room, if and only if the
  turn is at a least loaded loop or there is no room at all (`ConnectionLoad.LessLoadedWhen`);
  `ConnectionLoad.DroppedBesideAnEmptyLoop` is a run in which it is dropped beside an empty loop.

## Model

| member | source | states |
|---|---|---|
| Blacklist.ReplayAfterCommittedPrefix | src/app/blacklist_maintenance.cpp:328-334 | replaying all pending records over rows that already have a prefix of them gives the same rows, reasons included: COMMIT without XDEL is harmless |
| Blacklist.EnabledReplay | src/storage/mysql_dao.cpp:392-414 | the enabled rows after a batch of upsert, disable and clear statements are what the same batch does to the Redis hashes |
| Blacklist.AgreesReplay | src/storage/blacklist_redis_store.cpp:664-702 | the same batch applied to the durable content and to hashes that lack only entries expired by the cleanup clock keeps them in that relation |
| Blacklist.AgreeingTablesAnswerAlike | src/risk/blacklist_snapshot.cpp:29-44 | tables in that relation have the same live entries at every time from the clock on |
| RedisMachine.CommitActsOnWhatWasRead | src/storage/blacklist_redis_store.cpp:636-702 | a transaction that EXEC lets through acts on exactly the ready flag, revision, fields and barrier it read under WATCH, and a revisioned one moves the revision by one |
| RedisMachine.CommitStaysWithin | src/storage/blacklist_redis_store.cpp:606-623 | a transaction changes nothing outside the keys it announces, so watching those is enough |
| RedisMachine.InvStep | src/storage/blacklist_redis_store.cpp:587-733 | every command of any client keeps: history by revision, reads of clean transactions current, scans exact while the revision stands, Stream ids increasing, completed at most requested |
| RedisMachine.InvRun | src/storage/blacklist_redis_store.cpp:587-733 | the same over every run of any number of connections |
| RedisMachine.RunExtends | src/storage/blacklist_redis_store.cpp:1195-1246 | no run takes back a revision's contents, a logged mutation, the ready flag or a barrier count |
| RedisMachine.RevisionDeterminesHashes | src/storage/blacklist_redis_store.cpp:699-732 | two states of a run that show the same revision hold the same hash contents |
| RedisMachine.AtMostOneRebuild | src/storage/blacklist_redis_store.cpp:1311-1496 | with any number of starters at most one rebuild commits, never on a ready cache, and every committed mutation follows it |
| RedisMachine.StableSnapshotIsExact | src/storage/blacklist_redis_store.cpp:833-878 | a snapshot whose two revision reads agree is exactly the contents at that revision, despite writers between the pages |
| RedisMachine.CleanupRemovesOnlyExpired | src/storage/blacklist_redis_store.cpp:982-1053 | a committed cleanup removes only entries expired at its clock and changes no other: no renewed or permanent entry is deleted |
| CandidateQueue.MergeAllCovers | src/app/blacklist_candidate_queue.cpp:129-148 | a merged batch covers every candidate put into it with an expiry no earlier, 0 counting as latest, has each entity once and is no longer than its input |
| CandidateQueue.MergeAllFromInput | src/app/blacklist_candidate_queue.cpp:129-148 | every record of a merged batch is one of the candidates put in |
| CandidateQueue.ReserveKeeps | src/app/blacklist_candidate_queue.cpp:43-62 | reserving loses no candidate, keeps queued plus reserved within the capacity and leaves an unacknowledged batch as it is |
| CandidateQueue.BlacklistCandidateQueue.constructor | src/app/blacklist_candidate_queue.cpp:10-16 | starts empty and open |
| CandidateQueue.BlacklistCandidateQueue.TrySubmit | src/app/blacklist_candidate_queue.cpp:18-41 | invalid, closed, full (counted, saturating) or queued at the end, in that order of checks; accepted if and only if it is an upsert, the queue open and there is room beside what is queued and reserved; the capacity bound is kept |
| CandidateQueue.BlacklistCandidateQueue.MergeIntoReserved | src/app/blacklist_candidate_queue.cpp:129-148 | the find-and-replace loop is the merge by entity |
| CandidateQueue.BlacklistCandidateQueue.ReserveBatch | src/app/blacklist_candidate_queue.cpp:43-62 | returns the reserved batch: the old one unchanged, or one made of the oldest candidates, as many as asked for or all there are, that covers each of them, holds nothing else and has each entity once; the younger ones stay queued in order |
| CandidateQueue.BlacklistCandidateQueue.AcknowledgeReserved | src/app/blacklist_candidate_queue.cpp:64-67 | only the reserved batch goes |
| CandidateQueue.BlacklistCandidateQueue.Close | src/app/blacklist_candidate_queue.cpp:69-72 | only the closed flag changes |
| CandidateQueue.BlacklistCandidateQueue.DiscardRemainingOnShutdown | src/app/blacklist_candidate_queue.cpp:74-85 | empties queue and batch and counts every record of them once, saturating |
| CandidateQueue.BlacklistCandidateQueue.TakeDroppedSinceLastReport | src/app/blacklist_candidate_queue.cpp:87-93 | what is reported plus what was reported before is the dropped count |
| WorkerPool.IdleMeansNothingPending | src/runtime/bounded_worker_pool.cpp:68-73 | an in-flight count of zero means that no accepted task is queued or running |
| WorkerPool.BoundedWorkerPool.constructor | src/runtime/bounded_worker_pool.cpp:9-29 | starts empty and accepting |
| WorkerPool.BoundedWorkerPool.TrySubmit | src/runtime/bounded_worker_pool.cpp:44-66 | closed before rejected before accepted; acceptance queues at the end and counts as in flight |
| WorkerPool.BoundedWorkerPool.InflightCount | src/runtime/bounded_worker_pool.cpp:68-73 | the counter is the number of queued and running tasks |
| WorkerPool.BoundedWorkerPool.Close | src/runtime/bounded_worker_pool.cpp:75-87 | stops acceptance and nothing else |
| WorkerPool.BoundedWorkerPool.TakeTask | src/runtime/bounded_worker_pool.cpp:190-208 | first in first out from the ring, still in flight; a worker leaves only when closed and drained |
| WorkerPool.BoundedWorkerPool.FinishTask | src/runtime/bounded_worker_pool.cpp:216-220 | one running task fewer, the count with it |
| WorkerPool.BoundedWorkerPool.CancelAfterDeadline | src/runtime/bounded_worker_pool.cpp:106-115 | exactly the queued tasks go; the count is then that of the running ones |
| RingBuffer.Ring.Push | src/runtime/bounded_worker_pool.cpp:59-61 | head, tail and size around the array behave as a queue: append |
| RingBuffer.Ring.Pop | src/runtime/bounded_worker_pool.cpp:205-207 | and remove the first |
| RingBuffer.Ring.Undo | src/net/loop_mailbox.cpp:284-289 | a failed wake-up takes exactly the last element back |
| RingBuffer.Ring.Clear | src/net/loop_mailbox.cpp:310-325 | empties the ring and counts what was in it |
| Snapshot.FoldScan | src/app/blacklist_maintenance.cpp:211-221 | repeated fields fold into one table, and the round is given up exactly when a field came with two values |
| Snapshot.Split | src/app/blacklist_maintenance.cpp:223-237 | the active and the expired list hold the live and the expired part of the table, each entry once |
| Snapshot.PrepareCandidate | src/risk/blacklist_manager.cpp:82-136 | fails exactly on an empty id; otherwise holds, for each entity, the longest-lived unexpired entry listed |
| Snapshot.Refresh | src/app/blacklist_maintenance.cpp:203-254 | from HSCAN fields to the snapshot and the cleanup list: exactly the live and the expired part of the table the fields list; nothing is published if and only if a field came with two values or an unexpired one has no id |
| Snapshot.PublishedAnswersLikeTable | src/risk/blacklist_snapshot.cpp:29-44 | a lookup in the published part answers as a live lookup in the whole table, for every entity and every later time |
| PendingStream.DeleteBadLeaves | src/app/blacklist_maintenance.cpp:315-322 | deleting the undecodable records of the batch at the front leaves its decodable ones and the rest, in order |
| PendingStream.DeleteGoodLeaves | src/app/blacklist_maintenance.cpp:328-334 | deleting the committed records leaves exactly the rest of the Stream |
| WriteBehind.DrainKeepsDurable | src/app/blacklist_cache_bootstrap.cpp:75-127 | no step of the drain and no crash changes what MySQL says once the Stream is replayed, whether or not COMMIT or XDEL took effect or was acknowledged |
| WriteBehind.ExecRebuild | src/app/blacklist_cache_bootstrap.cpp:129-147 | the rebuild commit establishes agreement of hashes and database, whatever the hashes held, though the three tables are read one after the other, each at its own clock |
| WriteBehind.ExecCleanup | src/storage/blacklist_redis_store.cpp:880-1078 | a cleanup commit keeps the agreement from its clock on |
| WriteBehind.InvStep | src/app/blacklist_maintenance.cpp:283-335 | every step of the system keeps: the batch in hand is the front of the Stream, what was committed of it is idempotent, and a ready cache agrees with the database |
| Publication.InvStep | src/app/blacklist_maintenance.cpp:182-281 | every step keeps: the memory snapshot answers as the hashes at its revision, and neither it nor the published marker is ahead |
| ResetBarrier.InvStep | src/app/blacklist_maintenance.cpp:152-180 | every step keeps: candidates are conserved, each covered in the log no earlier than it was accepted, tokens up to completed are settled and flushed, and a tool's CLEAR_ALL lies behind what its token covers |
| ResetBarrier.CheckIdleSettles | src/app/blacklist_maintenance.cpp:162-167 | an in-flight count of zero settles every task accepted before any request up to the token |
| ResetBarrier.CheckDrainedFlushes | src/app/blacklist_maintenance.cpp:168-176 | with queue and reserved batch empty, every candidate of those tasks is covered by what was logged since its acceptance and is under way no more; the second look at the in-flight count is a step of its own |
| BlacklistTheorems.InvRun | src/app/blacklist_maintenance.cpp:337-393 | all three invariants in every reachable state, and what Redis never takes back |
| BlacklistTheorems.CacheMatchesDatabase | src/app/blacklist_maintenance.cpp:283-335 | in every reachable state with a ready cache, MySQL with the pending Stream replayed over it has the same live entries as the hashes at every time from the last cleanup clock on |
| BlacklistTheorems.RequestsSeeThePublishedRevision | src/app/blacklist_maintenance.cpp:254-281 | in every reachable state a request's lookup equals a live lookup in the hashes at the last published revision, and published marker, last published and current revision are in this order |
| BlacklistTheorems.CandidatesAreConserved | src/app/blacklist_maintenance.cpp:82-150 | in every reachable state each accepted candidate is itself in the queue, or part of the reserved batch and covered there, or covered by what was logged since its acceptance, or was counted as discarded |
| BlacklistTheorems.ClearComesAfterEarlierCandidates | src/tools/manage_blacklist_command.cpp:362-398 | when a tool's CLEAR_ALL is in the log, every accepted candidate of a task accepted before the tool's request is covered between its own acceptance and the CLEAR_ALL, and is neither queued nor in the reserved batch any more |
| BlacklistTheorems.BarrierIsMonotone | src/storage/blacklist_redis_store.cpp:1195-1246 | completed never decreases and never passes requested |
| BlacklistTheorems.UnacknowledgedBatchIsRetried | src/app/blacklist_maintenance.cpp:95-102 | over any run without acknowledgement, shutdown or crash the reserved batch stays the same and is what the next reservation returns |
| StreamCodec.UnsignedRoundTrip | src/storage/blacklist_redis_store.cpp:67-82 | a text parses to n exactly when it is the decimal of n and n is within the maximum |
| StreamCodec.CollectPairs | src/storage/blacklist_redis_store.cpp:432-442 | the loop collects the field pairs, or fails on a value that is not text or a repeated name |
| StreamCodec.RecordRoundTrip | src/storage/blacklist_redis_store.cpp:399-501 | the record of every mutation the factories build parses back to it |
| StreamCodec.ParsedIsBuilt | src/risk/blacklist_mutation.cpp:65-111 | whatever the parser accepts a factory builds, and it survives another round |
| RedisTalk.BatchIsCarried | src/storage/blacklist_redis_store.cpp:664-702 | HSET, HDEL or DEL and XADD for each mutation and one INCR, executed one after another on any Redis, are the batch that the machine commits in one step |
| RedisTalk.RemovalIsCarried | src/storage/blacklist_redis_store.cpp:1031-1053 | one HDEL for each hash with expired fields and the INCR are the removal of all of them |
| RedisTalk.RebuildIsCarried | src/storage/blacklist_redis_store.cpp:1438-1466 | DEL, one HSET for each kind, INCR and SET are the rebuild from the whole list of rows, where a later row for an entity wins |
| RedisTalk.OneWriteIsCarried | src/storage/blacklist_redis_store.cpp:1105-1236 | the one queued command of publishing a revision or completing a barrier is that step of the machine |
| RedisTalk.ConversationIsARun | src/storage/blacklist_redis_store.cpp:587-733 | whatever other clients do in between, a conversation that sends only what its operation allows, with a server that answers from what it holds, is a run of the machine, which agrees with the client about what was read; a transaction that took effect is in its history |
| RedisTalk.EffectiveIsCommitted | src/storage/blacklist_redis_store.cpp:353-397 | an EXEC that took effect turns Redis into what the queued commands make of it, and logs the operation once |
| RedisTalk.CommitsAreTaken | src/storage/blacklist_redis_store.cpp:353-397 | in that run the connection commits exactly as many transactions as took effect |
| RedisStore.BlacklistRedisStore.LeaveWatch | src/storage/blacklist_redis_store.cpp:205-219 | leaves the connection idle or closed, with nothing written |
| RedisStore.BlacklistRedisStore.LeaveTransaction | src/storage/blacklist_redis_store.cpp:221-235 | the same out of MULTI |
| RedisStore.BlacklistRedisStore.ReadWatchedReadyRevision | src/storage/blacklist_redis_store.cpp:280-337 | every failure is one that promises that nothing was written; Ok means that the ready flag and a revision that can still be incremented were read under WATCH; replies that are as they should be, with the Stream and the hashes there or missing, give Ok and the revision they carry |
| RedisStore.BlacklistRedisStore.CheckedExec | src/storage/blacklist_redis_store.cpp:353-397 | EXEC is sent only when what was read allows the operation and the queued commands are the operation; leaves the connection idle or closed; Ok only if the transaction took effect, and a status that denies it only if it did not; an array without errors is Ok |
| RedisStore.BlacklistRedisStore.ApplyMutations | src/storage/blacklist_redis_store.cpp:587-733 | for every reply script: every command sent is one that the machine's batch allows; connection idle or closed at the end; Ok only if its one transaction committed with a fitting reply for every command, and with the revision its INCR returned; denial only if none did; a server that does as it is asked gets the batch and the revision it makes, one whose EXEC says Nil a conflict, with the connection idle and every reply read, and a WATCH without a reply fails as that reply did |
| RedisStore.BlacklistRedisStore.RemoveExpiredFields | src/storage/blacklist_redis_store.cpp:880-1078 | the same for the removal of the given entries; Ok only if every entry is canonical, expired and listed once, every HDEL removed its whole group and INCR returned the expected revision plus one; Ok always if that is so and every TYPE, GET and HGET confirms the scan |
| RedisStore.BlacklistRedisStore.SetPublishedRevision | src/storage/blacklist_redis_store.cpp:1080-1127 | the same for the published revision; Ok only if the SET was answered with OK, and always if it was and the key is missing or a string |
| RedisStore.BlacklistRedisStore.ReadResetBarrier | src/storage/blacklist_redis_store.cpp:1152-1193 | Ok if and only if the reply is two counts, each absent or canonical, with completed at most requested; the counts are those of the reply, an absent one zero |
| RedisStore.BlacklistRedisStore.CompleteResetBarrier | src/storage/blacklist_redis_store.cpp:1195-1246 | the same for the barrier: a token from 1 between the two counts that were read, a transaction that goes through and one non-negative count give Ok and one commit; with two good counts and a next reply of OK it is an invalid remote state if and only if the token is outside them; Ok only if the HSET was answered with a count |
| RedisStore.BlacklistRedisStore.RebuildFromMysql | src/storage/blacklist_redis_store.cpp:1311-1496 | the same for the rebuild from the given rows, with EXEC only on a cache that was not ready; Ok only if every row is well formed and every command answered as it should be, with the revision its INCR returned; Ok always, and with the old revision plus one, if that is so |
| RedisStore.BlacklistRedisStore.ApplyWithRetry | src/tools/manage_blacklist_command.cpp:240-259 | only conflicts are tried again and never reported: the mutation, and nothing else, is written at most once; after any k conflicts, fewer than the attempts, the next conversation decides: a server that does as it is asked gets the mutation, with its revision, and a lost connection or a late or garbled reply ends the command with that failure; if every attempt conflicts, the deadline is exceeded and nothing written |
| RedisStore.OperationIsARun | src/storage/blacklist_redis_store.cpp:587-1496 | whatever any operation of the store has said, with any replies, is among any other clients a run of the machine with the machine's own operation, which it commits exactly as often as the store's transactions took effect |
| FrameCodec.DecodeEncodeLength | include/aegisflow/net/protocol_contract.hpp:27-45 | decoding an encoded length gives it back, for all 32-bit lengths |
| FrameCodec.EncodeDecodeLength | include/aegisflow/net/protocol_contract.hpp:27-45 | encoding a decoded header gives it back |
| FrameCodec.FourBytes | include/aegisflow/net/protocol_contract.hpp:38-45 | the big-endian value of four bytes is their sum shifted by 24, 16, 8 and 0 bits |
| FrameCodec.ParseAppend | src/net/length_prefixed_codec.cpp:18-77 | parsing may stop anywhere and resume from what is left over |
| FrameCodec.ParseSpellsInput | src/net/length_prefixed_codec.cpp:18-77 | the frames, encoded, and the rest are the input |
| FrameCodec.ParseEncoded | src/net/length_prefixed_codec.cpp:18-77 | a stream of encoded frames parses to those frames, whatever follows |
| FrameCodec.ChunkingIsInvisible | src/net/length_prefixed_codec.cpp:7-91 | every way of cutting a stream into chunks gives the same frames, rest and error |
| FrameCodec.LengthPrefixedCodec.ReadHeader | src/net/length_prefixed_codec.cpp:20-51 | copies up to the end of the header and either holds a partial frame or rejects exactly an invalid length |
| FrameCodec.LengthPrefixedCodec.ReadBody | src/net/length_prefixed_codec.cpp:53-76 | copies up to the end of the payload and emits the frame exactly when it is complete |
| FrameCodec.LengthPrefixedCodec.Consume | src/net/length_prefixed_codec.cpp:7-91 | emits the frames that the held bytes and the chunk spell, keeps the rest, stops right behind the first bad header and stays stopped |
| Session.NeededChunk | src/net/session.cpp:99-149 | a chunk of at most the needed size gives at most one frame: the branch for several is dead |
| Session.OnInputSound | src/net/session.cpp:63-165 | input keeps the buffered bytes within the hard limit and the buffers as each state has them |
| Session.InputTaken | src/net/session.cpp:63-165 | the same of the operation on views, with the reason, the status and the bytes accepted of each way to close |
| Session.PendingTaken | src/net/session.cpp:167-250 | once an answer is out, the input that waited closes the session if and only if its first header is invalid or announces too long a frame; otherwise its first frame is the next request, if it is whole |
| Session.HeaderShutOut | src/net/session.cpp:99-110 | a limit below four bytes never lets a header through: input leaves the session closing, or reading with less than a header |
| Session.HeaderShutOutExample | src/net/session.cpp:101-110 | a valid configuration with a limit of three bytes turns away a frame of one byte |
| Session.OnBytesWrittenSound | src/net/session.cpp:212-250 | so does write progress |
| Session.ControlSound | src/net/session.cpp:181-325 | so do queueing a response, both closes and the peer's close |
| SessionObject.SessionState.constructor | src/net/session.cpp:21-41 | a fresh session reads |
| SessionObject.SessionState.DecodeChunk | src/net/session.cpp:99-149 | one turn of the loop: limit, protocol error, oversized frame, request or more, in the code's order; no subtraction underflows |
| SessionObject.SessionState.DecodeFirst | src/net/session.cpp:92-165 | the loop comes to what the first frame of held bytes and input says in closed form |
| SessionObject.SessionState.OnInput | src/net/session.cpp:63-165 | a reading session closes if and only if the first header of what is held and the input is invalid or does not fit the limit, the first frame is longer than configured, or more than the limit is left behind it; otherwise all input is taken, the request is the first frame of the parse if there is a whole one, and the rest waits; in the other open states it closes if and only if the limit would be exceeded |
| SessionObject.SessionState.ConsumePendingInput | src/net/session.cpp:167-179 | equals reading the first frame of what waited, the rest keeps waiting |
| SessionObject.SessionState.QueueResponse | src/net/session.cpp:181-210 | equals the operation on the view: another token changes nothing |
| SessionObject.SessionState.OnBytesWritten | src/net/session.cpp:212-250 | equals the operation on the view |
| SessionObject.SessionState.CloseAfterWrite | src/net/session.cpp:252-268 | equals the operation on the view |
| SessionObject.SessionState.OnPeerReadClosed | src/net/session.cpp:270-292 | equals the operation on the view |
| SessionObject.SessionState.BeginClose | src/net/session.cpp:294-310 | equals the operation on the view |
| SessionObject.SessionState.FinalizeClose | src/net/session.cpp:312-325 | equals the operation on the view |
| SessionRuns.StepOk | src/net/session.cpp:63-310 | every operation keeps: encoded requests, held bytes and pending input are the accepted bytes; written bytes and output are the responses; requests lead responses by one exactly while processing |
| SessionRuns.RequestsAreTheFrames | src/net/session.cpp:63-250 | in every run the requests are in order the frames of the accepted stream, all of them while reading |
| SessionRuns.AnswersComeFirst | src/net/session.cpp:181-250 | in every run requests and answers alternate, and a request is out only after every earlier answer was written completely |
| SessionRuns.TruncationIsMissedBehindTheHeader | src/net/session.cpp:270-292 | a cut frame is reported as truncated if and only if the held bytes are not exactly a header |
| SessionRuns.TruncationMissedExample | src/net/session.cpp:285-291 | after four header bytes the peer's close counts as orderly |
| TimerSpec.EachTimerEndsOnce | src/timer/timer_core.cpp:63-269 | over every interleaving each timer is emitted at most once, never after a cancel returned Ok, and every id is in exactly one of live, emitted, cancelled, dropped |
| TimerSpec.CycleEmitsInOrder | src/timer/timer_core.cpp:225-260 | within a ready cycle, under any interference, timers come in (deadline, sequence) order, due and armed when it began |
| TimerCore.Core.Init | src/timer/timer_core.cpp:35-61 | InvalidConfig exactly for a zero capacity; Ok exactly when the core then has the requested configuration, and always on a new core |
| TimerCore.Core.ScheduleAt | src/timer/timer_core.cpp:63-133 | Ok exactly when the core accepts, the sink lives and queue, live timers and ids have room; it then adds one live timer with the next id; any refusal changes nothing |
| TimerCore.Core.CancelTimer | src/timer/timer_core.cpp:135-158 | Ok exactly when the timer is live and no stop was requested, and then it is gone at once |
| TimerCore.Core.RequestStop | src/timer/timer_core.cpp:160-180 | only requests the stop |
| TimerCore.Core.CleanupStale | src/timer/timer_core.cpp:271-291 | keeps exactly the nodes that are live or behind a live one, and changes no live timer |
| TimerCore.Core.ProcessCommands | src/timer/timer_core.cpp:182-223 | arms every queued live timer, or drops all on a stop, leaving heap and reservations empty; returns the earliest live deadline |
| TimerCore.Core.TakeReady | src/timer/timer_core.cpp:232-260 | takes the earliest armed timer exactly if it is due and no stop was requested |
| TimerCore.Core.RunReady | src/timer/timer_core.cpp:225-269 | an uninterrupted cycle emits exactly the due live timers in order, terminates, and returns the earliest deadline of those that are left |
| TimerCore.HeapSize | src/timer/timer_core.cpp:271-291 | the heap holds exactly the armed timers and the nodes left of cancelled ones, and no more nodes than ids were handed out |
| TimerCore.LeftoverStays | src/timer/timer_core.cpp:271-291 | after a cleanup the node of a timer that is not live is in the heap if and only if it was there before and a live armed timer comes before it |
| TimerCore.HeapOutgrowsTheCapacity | src/timer/timer_core.cpp:63-158 | for every configuration with room for two timers and one command, and every n there are ids for, calls of the core that all succeed lead to one live timer and n + 1 nodes in the heap |
| SlidingCounter.SlotsAreDistinct | include/aegisflow/feature/sliding_counter.hpp:36-43 | two buckets of one window never share a slot |
| SlidingCounter.Counter.Expire | include/aegisflow/feature/sliding_counter.hpp:62-77 | keeps exactly the events of the window, also when the clock ran back |
| SlidingCounter.Counter.AddEvent | include/aegisflow/feature/sliding_counter.hpp:22-48 | accepts exactly an event in the window and adds it to those kept |
| SlidingCounter.Counter.SumNow | include/aegisflow/feature/sliding_counter.hpp:50-53 | the sum of the kept events modulo 2^32, whatever wrapped |
| SlidingCounter.SteadyClockKeepsTheWindow | include/aegisflow/feature/sliding_counter.hpp:22-77 | under a clock that never runs back, what is kept is what was ever accepted, filtered to the current window |
| SlidingCounter.WindowInMilliseconds | include/aegisflow/feature/sliding_counter.hpp:29-34 | an event aged at most the window less one bucket is in it, one aged a full window is not |
| SlidingDistinct.HeapIsBounded | include/aegisflow/feature/sliding_distinct.hpp:130-151 | without repeated pairs, the heap holds at most maximum members times window buckets nodes |
| SlidingDistinct.Distinct.constructor | include/aegisflow/feature/sliding_distinct.hpp:56-68 | starts empty, before its first clock |
| SlidingDistinct.Distinct.Prune | include/aegisflow/feature/sliding_distinct.hpp:139-150 | popping stale nodes, in any order of ties, leaves exactly the members seen since the minimum bucket |
| SlidingDistinct.Distinct.ExpireNow | include/aegisflow/feature/sliding_distinct.hpp:130-151 | equals filtering the plain map, or clearing it when the clock ran back |
| SlidingDistinct.Distinct.AddMember | include/aegisflow/feature/sliding_distinct.hpp:70-110 | equals the plain map with the cap on new members, for any clock sequence |
| SlidingDistinct.Distinct.Count | include/aegisflow/feature/sliding_distinct.hpp:112-115 | the number of members in the window, with the heap within its bound |
| FeatureStore.ReclaimingIsInvisible | src/feature/feature_store.cpp:173-221 | for every interleaving of login parts and reclaim passes under a clock that never runs back, every login gets the answers of a store that never reclaims |
| FeatureStore.ValidTtlsAreExact | src/feature/feature_store.cpp:164-171 | the TTLs the configuration check accepts are exactly those for which reclaiming can never be noticed |
| FeatureStore.ClockJumpShowsReclaiming | src/feature/feature_store.cpp:263-269 | whatever the TTLs, a clock that jumps ahead and back can show it |
| FeatureHistory.LatestMembers | include/aegisflow/feature/sliding_distinct.hpp:89-110 | the members kept since a bucket are those with an entry in it or later |
| FeatureHistory.TooOldForBucket | src/feature/feature_store.cpp:67-103 | a login whose bucket has left the window adds no member, even inside the window in milliseconds; for a new member with room below the cap, nothing is added if and only if its bucket has left |
| FeatureHistory.TooOldExample | src/feature/feature_store.cpp:67-103 | a failure at 9 999 ms handled at 600 000 ms is inside the window of ten minutes, is not counted, and still creates the state of its address |
| FeatureHistory.UserAnswers | src/feature/feature_store.cpp:30-65 | the user part answers with the number of the user's counted failures in the window, and stays in step with them |
| FeatureHistory.IpAnswers | src/feature/feature_store.cpp:67-103 | the address part answers with the distinct users and the number of its counted failures in the window |
| FeatureHistory.DeviceAnswers | src/feature/feature_store.cpp:105-139 | the device part answers with the distinct users in the window |
| FeatureHistory.AnswersCountThePast | src/feature/feature_store.cpp:17-221 | for every interleaving of login parts and reclaim passes under a clock that never runs back, every answer is the count over the whole past that its window asks for, if and only if no window outgrows its cap |
| FeatureHistory.CapExample | src/feature/feature_store.cpp:105-139 | one user more than the cap on one device gets an answer that is not the count |
| FeatureTables.LoginFeatureStore.UpdateUser | src/feature/feature_store.cpp:30-65 | equals the user part of a login on the store's value, with the entry's own ring counter updated in place and no other touched |
| FeatureTables.LoginFeatureStore.UpdateIp | src/feature/feature_store.cpp:67-103 | equals the address part, with the entry's own member window and ring counter updated in place |
| FeatureTables.LoginFeatureStore.UpdateDevice | src/feature/feature_store.cpp:105-139 | equals the device part, with the entry's own member window updated in place |
| FeatureTables.LoginFeatureStore.ReclaimUserShard | src/feature/feature_store.cpp:179-192 | erases exactly the cold users of the shard |
| FeatureTables.LoginFeatureStore.ReclaimIpShard | src/feature/feature_store.cpp:193-206 | and exactly the cold addresses |
| FeatureTables.LoginFeatureStore.ReclaimDeviceShard | src/feature/feature_store.cpp:207-220 | and exactly the cold devices |
| Mailboxes.TimeoutMailbox.TryPost | src/net/loop_mailbox.cpp:364-392 | accepts if and only if the event is one of the four connection timeouts with a descriptor, a generation and a number, the box is open and the wake-up works; then the event is last in the queue or, if that was full, the rescan flag is up; otherwise the queue is as it was |
| Mailboxes.TimeoutMailbox.TryPop | src/net/loop_mailbox.cpp:394-404 | first in first out |
| Mailboxes.TimeoutMailbox.TakeRescanRequest | src/net/loop_mailbox.cpp:411-416 | returns and clears the flag |
| Mailboxes.TimeoutMailbox.Close | src/net/loop_mailbox.cpp:418-428 | empty, closed, no rescan |
| Mailboxes.LoopMailbox.TryPost | src/net/loop_mailbox.cpp:73-131 | accepts exactly a well-formed completion that fits in slots and bytes; the byte count is that of the queue and the budget never underflows |
| Mailboxes.LoopMailbox.TryPop | src/net/loop_mailbox.cpp:133-147 | first in first out, bytes given back |
| Mailboxes.LoopMailbox.Close | src/net/loop_mailbox.cpp:167-179 | empty and closed |
| LoopEnv.TakeMoves | src/timer/timer_core.cpp:232-260 | the timer thread takes a due timer out of the core, from where cancelling it is too late |
| LoopEnv.PostMoves | src/net/loop_mailbox.cpp:364-392 | and posts it by the very function of the timeout mailbox: queued, remembered by the rescan flag, or taken back when the wake-up fails; no timeout that was accepted is lost |
| LoopEnv.OnlyRefusedPostsFail | src/net/loop_mailbox.cpp:364-392 | of all steps of other threads only a post makes a timer fail, and it does if and only if the mailbox is closed or the wake-up failed |
| LoopEnv.DueTimersArrive | src/net/loop_mailbox.cpp:364-392 | from every state of the loop, through any number of steps of the others, no due timer is lost while the mailbox is open and every wake-up works |
| LoopEnv.FinishMoves | src/net/completion_router.cpp:224-248 | a worker posts its result by the function of the completion mailbox, which then has woken the loop, or it is dropped; either way the task is over |
| LoopEnv.ShiftMoves | src/net/event_loop_group.cpp:53-107 | a step of the dispatcher or of another loop on the shared loads keeps them exact and moves none of this loop's connections |
| LoopEnv.OtherMoves | src/net/loop_mailbox.cpp:73-428 | every step of any other thread changes only what belongs to it |
| LoopSteps.OthersKeep | src/net/event_loop.cpp:355-926 | so the loop's invariant survives it, also in the middle of a handler |
| LoopSteps.CancelledIsGone | src/net/event_loop.cpp:355-363 | after cancelling, no timer of the session is left in the core but one whose request timed out ahead of it |
| LoopSteps.GaveUpOk | src/net/event_loop.cpp:962-1041 | answering a timed-out request adds the timeout frame as its answer, makes it the last one and takes up no further request |
| LoopBoxes.FreshGeneration | src/net/event_loop.cpp:296-308 | a new generation was never used before, so no session, task, timer or timeout of an earlier connection names it |
| LoopBoxes.RoomForOne | src/net/event_loop.cpp:450-452 | a connection that the dispatcher handed over always finds room below the per-loop cap |
| LoopTheorems.EverySessionServesItsStream | src/net/event_loop.cpp:671-926 | in every state, of every connection: the requests taken up are the first frames of the bytes received on its socket, one at a time, and the bytes sent are the beginning of the answers, in order |
| LoopTheorems.ReadDeadlineWhen | src/net/event_loop.cpp:398-416 | a reading session has the read deadline if and only if the rest of its stream behind the last whole frame is neither empty nor exactly a header, and the idle deadline otherwise |
| LoopTheorems.IdleBehindTheHeader | src/net/event_loop.cpp:398-416 | whatever connection it is, after the four bytes of a header it has the idle deadline |
| LoopTheorems.IdleExample | src/net/event_loop.cpp:398-416 | the same as one concrete run from a fresh loop |
| LoopTheorems.EachRequestIsAnsweredOnce | src/net/event_loop.cpp:847-926 | every generation ever handed out has one life, open or ended, with at most one answer for each request; a result that was taken stays the answer to the request it was made for, and every other answer is the overload or the timeout frame |
| LoopTheorems.TimersOfASession | src/net/event_loop.cpp:355-396 | the core holds at most the timer of the current deadline and one left of a timed-out request |
| LoopTheorems.TimersOfTheGone | src/net/event_loop.cpp:551-584 | for a connection that is gone it holds only passed deadlines that were handled before they fired |
| LoopTheorems.ExactlyOneTimer | src/net/event_loop.cpp:365-396 | a session whose deadline has not fired has exactly one timer if and only if none is left of a request that timed out ahead of its timer |
| LoopBoxes.NothingIsLost | src/net/event_loop.cpp:1043-1078 | between handlers every session's deadline is in the timer core or on its way: taken, queued, or remembered by the rescan flag; only a post that was refused can lose it |
| LoopBoxes.ResultIsCurrent | src/net/event_loop.cpp:847-871 | a result that matches a session is for its request in progress, or that request has timed out |
| LoopTheorems.LateResultLeavesATimer | src/net/event_loop.cpp:855-871 | a deadline handled by a late result leaves its timer in the core beside the next one if and only if it was still there |
| LoopTheorems.TwoTimersRun | src/net/event_loop.cpp:847-871 | from any moment at which a loop takes over a connection there is a run to a session with two timers |
| LoopTheorems.TwoTimersExample | src/net/event_loop.cpp:847-871 | the same as one concrete run from a fresh loop |
| LoopTheorems.SessionsAreCounted | src/net/event_loop.cpp:551-584 | the loop's sessions are exactly the connections the load counters have as open in it, and between handlers every connection taken over is a session or was released |
| EventLoop.Loop.constructor | src/net/event_loop.cpp:158-208 | starts with no session and generation 1 in a group that has no connection in this loop, with nothing in its mailboxes unnoticed |
| EventLoop.Loop.Interfere | src/net/event_loop.cpp:348-353 | between two lock sections the others may do what their script says, and the invariant holds again |
| EventLoop.Loop.CancelDeadline | src/net/event_loop.cpp:355-363 | afterwards the timer of the deadline is not in the core, whether the cancel won or the timer thread had taken it |
| EventLoop.Loop.Release | src/net/event_loop_group.cpp:76-97 | gives one connection back to the loop's counter and then to the group's, once |
| EventLoop.Loop.CloseSession | src/net/event_loop.cpp:551-584 | the session, its generation and its timer go, its history is kept, nothing else changes; the connection is released once if the observer is to be told, and otherwise stays in hand for the caller to release |
| EventLoop.Loop.ArmDeadline | src/net/event_loop.cpp:329-396 | on success the session has a fresh deadline of the kind its state calls for, with the next sequence number, set by a clock read during the call as far ahead as the business, write, read or idle timeout of its phase and buffered input says, and the core holds a timer with that time; either way the old timer is not in the core |
| EventLoop.Loop.SyncDeadline | src/net/event_loop.cpp:417-433 | on success an open session is settled again, with a new deadline set as above or with the old one, of which the core holds no other time; the session itself is untouched |
| EventLoop.Loop.DispatchRequest | src/net/event_loop.cpp:586-669 | ends settled: in flight with its task out and its history untouched, or answered with the overload frame, or closed |
| EventLoop.Loop.HandleRead | src/net/event_loop.cpp:671-767 | for every sequence of recv answers: every session settled, no other touched, and what was received has reached the session or the connection is gone; one that takes up no more requests takes up none |
| EventLoop.Loop.HandleWrite | src/net/event_loop.cpp:769-845 | the same for send answers: what the socket took counts as written exactly once; a last answer stays the last |
| EventLoop.Loop.Expire | src/net/event_loop.cpp:962-1041 | a passed deadline ends the connection, or answers its request with the timeout frame under a higher sequence number |
| EventLoop.Loop.HandleTimeoutEvent | src/net/event_loop.cpp:962-1041 | acts only on a session's current, passed deadline, and then the connection is gone or its request is answered with the timeout frame; afterwards the event is no session's deadline |
| EventLoop.Loop.DrainTimeouts | src/net/event_loop.cpp:1043-1078 | everything that was queued or missed when the drain began is behind every session afterwards, also after an overflow, and every session's deadline is in the core or on its way, whatever the timer thread delivered meanwhile |
| EventLoop.Loop.ApplyCompletion | src/net/event_loop.cpp:847-926 | a result with another loop, descriptor or generation, or for an expired request, changes no session; otherwise the result of the k-th request becomes the k-th response, or, if its deadline had passed when it was looked at, the timeout frame does, or the connection goes; during a drain no further request is taken up |
| EventLoop.Loop.PopCompletion | src/net/loop_mailbox.cpp:133-147 | the first completion leaves the mailbox, and it is the result of the task its session waits for, if there is one |
| EventLoop.Loop.DrainCompletions | src/net/event_loop.cpp:1080-1087 | every completion that is in the mailbox afterwards has woken the loop again |
| EventLoop.Loop.Adopt | src/net/event_loop.cpp:435-524 | refuses exactly a bad or known descriptor, a full loop or exhausted generations, and is never full below the cap of the group; Ok registers a fresh session under a never used generation; otherwise no session is left and the connection is in hand to be released; nothing else changes for any session |
| EventLoop.Loop.DrainConnections | src/net/event_loop.cpp:1093-1105 | every dispatched connection becomes a session or is released, none is left in hand, and one that is queued afterwards has woken the loop again |
| EventLoop.Loop.HandleSocketEvent | src/net/event_loop.cpp:1110-1164 | an event of an unknown generation changes nothing, otherwise only the session of that generation; a broken connection goes, a paused one is not read, and what a reading one receives reaches its session |
| EventLoop.Loop.ApplyGracefulDrain | src/net/event_loop.cpp:928-960 | afterwards every session is processing or writes its last answer, which the read, write, timeout and completion handlers then keep |
| EventLoop.Loop.ForceShutdown | src/net/event_loop.cpp:1204-1232 | no session, no generation and no connection is left: every connection ever taken over was released exactly once, and the core keeps only timers forgotten earlier |
| EventLoop.Loop.DrainMailboxes | src/net/event_loop.cpp:1080-1108 | one turn over completions, timeouts, connections and the drain keeps the invariant and all histories, and whatever is in a mailbox afterwards has woken the loop; under a drain every session winds down |
| EventLoop.Loop.PollOnce | src/net/event_loop.cpp:1166-1202 | so does one turn of the loop with any socket events |
| EventLoop.Loop.Live | src/net/event_loop.cpp:1166-1232 | from any moment between two turns, any number of turns under any interference and then the shutdown end with no session and every connection released exactly once |
| EventLoop.WholeLife | src/net/event_loop.cpp:158-1232 | so for a new loop: its whole life, from construction to shutdown |
| ConnectionLoad.InvStep | src/net/event_loop_group.cpp:53-107 | every atomic step keeps both counters exact, both caps, and one reservation in progress at a time |
| ConnectionLoad.LoadsAreExact | src/net/event_loop_group.cpp:444-470 | in every reachable state the loads are exactly the connections they carry and within the caps, and the loads of the loops with the connections about to leave the group add up to the load of the group with those about to enter it |
| ConnectionLoad.LevelsAgree | src/net/event_loop_group.cpp:53-107 | the same sum for every state with the invariant |
| ConnectionLoad.TurnsIgnoreTheLoad | src/net/event_loop_group.cpp:444-470 | a connection is dropped if and only if the group or the loop whose turn it is is full, and that loop is a least loaded one exactly if no other has less |
| ConnectionLoad.LessLoadedWhen | src/net/event_loop_group.cpp:444-470 | a connection goes to a least loaded loop, and is dropped only without room, if and only if the turn is at a least loaded loop or there is no room at all |
| ConnectionLoad.EveryLoopHasItsTurn | src/net/event_loop_group.cpp:444-470 | in every run, as many consecutive choices below the group's cap as there are loops ask every loop exactly once |
| ConnectionLoad.DroppedBesideAnEmptyLoop | src/net/event_loop_group.cpp:456-462 | two loops for one connection each: a run after which the next connection is dropped although loop 1 is empty and the group has room |
| ConnectionLoad.ReleaseNeverSaturates | src/net/event_loop_group.cpp:76-97 | the saturating subtraction never saturates, for single and batched releases, as long as a loop releases only what it holds, which `EventLoop.Loop.Release` obliges it to |
| ConnectionLoad.AdoptIsBelowTheLimit | src/net/event_loop.cpp:450-452 | whenever a loop adopts a dispatched connection it has fewer sessions than its limit |
| ConnectionLoad.ZeroMeansDrained | src/net/event_loop_group.cpp:362-387 | a group load of zero with no dispatch under way means that every connection is gone and every loop's load is zero |
| ConnectionLoad.ConnectionsMoveForward | src/net/event_loop.cpp:1093-1105 | over every run a connection only moves forward, so each counter releases it once; that the event loop takes only these steps is the obligation of its methods |

## Left out

- Several service processes draining one Stream: outside the single-worker assumption of the code.
- A COMMIT or EXEC that takes effect only after later steps of the same worker: an unacknowledged one takes effect at its own step or never.
- Liveness: that a tick is scheduled, a barrier completes or a reset converges; scheduling may fail repeatedly.
- The tick-coalescing shell of the maintenance task, and `readResetConvergence` with the tool's `--wait` loop: a few flags, and several reads at different moments that promise something only without traffic.
- Undecodable Stream records come from outside: the machine has them as records without a mutation, and what the code itself writes decodes (`StreamCodec.RecordRoundTrip`).
- `inet_pton` and `inet_ntop`: the canonical text of an address is a parameter, assumed idempotent.
- DATETIME conversion, statement binding, hiredis and mysqlclient calls: only the contract of each call is modelled; an absent revision or marker key reads as 0.
- RedisStore.BlacklistRedisStore.RemoveExpiredFields: HGET goes through each group in the order of the entries, not sorted by id; the key prefix and the texts of the key names are left out, keys are told apart by what they hold.
- RedisStore.BlacklistRedisStore.ReadWatchedReadyRevision: only as part of a batch; `readReadyRevision` calls it without WATCH and is a plain read.
- RedisTalk.ConversationIsARun: the server answers reads from what it holds; the store operations themselves are proved for any reply at all.
- The RedisStateGuard destructor: it acts only when a C++ exception unwinds, and exceptions are not modelled.
- RingBuffer.Ring.Push: callers test for room first, as every caller in the source does.
- FeatureTables.LoginFeatureStore: the 64 shards of each kind are one table; a reclaim pass takes any set of keys, which covers every shard and every order of them.
- EventLoop.Loop: deadlines are enabled; with them disabled the loop has no timers at all. The scheduler may refuse a timer, but is not shut down before the loop.
- EventLoop.Loop.DrainTimeouts: a timeout that the mailbox refused because its wake-up failed is recorded as failed and is outside what the drain promises; a failed wake-up read ends the loop and is not modelled.
- EventLoop.Loop.Live: the dispatcher's stop and the other loops appear only as what they do to the shared loads; the loop's own thread start and join are left out.
- EventLoop.Loop.HandleRead: the epoll interest masks are not modelled, only whether the session wants to read.
- Allocation failure and C++ exceptions, sockets, epoll, eventfd, timerfd, the acceptor, thread start and join.
- Protobuf parsing, request validation, the policy chain, the candidate generator, configuration, the logger, the benchmark and the load generator: straight-line code that would only add easy members.
