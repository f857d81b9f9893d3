# Deferred system calls, proved

A Dafny model of a family of programs that replace blocking system calls by batched io_uring
requests: hooks that queue a call and acknowledge it at once, a two-process variant for preads,
batched clients, waits that are skipped when the kernel has already written data back, a staged
packet pipeline and a running average kept by probes.

The question throughout: is the later flush as good as the call, and does every wait have something
to wait for?

| file | part of the system |
|---|---|
| `Basics.dfy` | options, word sizes |
| `World.dfy` | memory, files and sockets; what one request does, wholly, in part or not at all |
| `Uring.dfy` | submission queue, link chains in flight, completion queue; a kernel that runs chains in any order with any faults; the client's calls |
| `ChainOrder.dfy` | the orders that links allow |
| `Deferral.dfy`, `SideConditions.dfy` | when deferring calls preserves meaning, and what that asks of a program |
| `BatchHooks.dfy` | pread, send and recv hooks with batches of 1024 |
| `PreadProtocol.dfy`, `Picks.dfy` | probes and consumer joined by two ring buffers |
| `Tiling.dfy`, `UnlinkedBatches.dfy`, `UringClient.dfy`, `MixedClient.dfy`, `MixedDelivery.dfy`, `MixedSaving.dfy`, `OwnRecvs.dfy`, `VanillaReader.dfy`, `CopyLoop.dfy` | the clients |
| `FsyncCredits.dfy`, `WritebackCredits.dfy` | waits paid for by kernel writebacks |
| `ClickhouseHooks.dfy` | write and fsync hooks that share one counter |
| `Pipeline.dfy` | circular buffers and stages |
| `Average.dfy` | incremental average |

`dafny verify dfyconfig.toml` checks everything.

## How the pieces fit

The ring is a value on which the kernel acts by `KernelStep`: it picks any chain in flight and runs,
fails or shortens that chain's first request. Client code is written as methods and classes over
that ring; a wait hands back some kernel schedule the caller knows nothing about. So each contract
holds for every schedule and every fault. Main results come in pairs: the batching hooks refine
`Deferred`, and `Deferred` equals `Immediate` for quiet programs; `RunsMerge` says
that every schedule interleaves the chains and `MergeReached` that every interleaving is some
schedule's work, so claims of what the kernel may do name a schedule; the send phase produces an
`Outcome` of its batches, `SomeScheduleDelivers` says that the kindest one sends the file and
`AlwaysDeliversIff` that it cannot be relied upon; the consumer's queue is pinned to
`Admitted`, an independent reading of what it has seen; the circular buffer to the sequence read
from tail to head.

## What the code does that one might not expect

- The pread hook answers 22 whatever was asked for (IO_syscall_patch/backup.bpf.c:243); send and recv answer `n`.
- recv is not linked (IO_syscall_patch/backup.bpf.c:294), so call order holds only inside the runs that recv cuts; `QueueOrderForcedIff` and `RecvCutsOrderIff` make this exact.
- `readS` compares pointers, so the match is an arbitrary boolean (IO_syscall_patch/user.bpf.c:87); the offset travels in `dest` and `offset` stays 0 (IO_syscall_patch/user.bpf.c:131-133); totals per process are never reset.
- After a failed wait `batch_count` keeps counting completions that were already taken (IO_syscall_patch/user.c:71-75); a later flush then waits for ever, exactly if some had been taken (`Consumer.ProcessSubmit`).
- The consumer leaves a ring buffer only after it has handled a message from it; flush requests wait while it polls for preads.
- The socket client links nothing and uses one buffer, so only an empty file is sure to arrive (iouring_hotpatch/uring_client.c:117-131).
- The second socket client clears the buffer before it submits the previous send (iouring_hotpatch/uring_client copy.c:101-121), and may take the length of one request from the completion of another; only files of at most 4 bytes are sure to arrive (`AlwaysArrivesIff`).
- Its receive loop queues a write and submits it with the next recv into the same buffer (iouring_hotpatch/uring_client copy.c:226-267). If the write runs first, its completion is the one the next wait takes, and counts as bytes received; if the recv runs first, the bytes to be written are gone. `InOrderSavesIff` and `OwnRecvsSaveIff` say exactly what is saved in either case; only an empty answer is sure to be saved (`AlwaysSavesIff`).
- A start drops calls that were acknowledged and wait (IO_syscall_patch/backup.bpf.c:311-320); `Session` says exactly when none is lost.
- The writeback counter is incremented without atomicity (bpf/rocksdb.bpf.c:152), and wait hooks test it before they subtract (bpf/rocksdb.bpf.c:66-71); `SplitHooksSoundIff` says when this is harmless. `Hooks.Run` takes each hook as one step.
- A packet taken out of ring 3 is lost if ring 4 is full (ring_pipeline/four_ring_pipeline.c:107-111); in the dispatcher loop this cannot happen.
- The average divides by an unsigned count, so a sample below the average overshoots (fsync-latency-bpf/rocksdb.bpf.c:32).
- A batch above 512 does fewer fsyncs than the benchmark reports (iouring_fsync_poc/iouring_fsync.c:103-115, 158); the shipped schedule stops at 512.

## Assumed

- A submit hands the whole queue to the kernel; every request posts exactly one completion; no completion is dropped; initialisation yields an empty ring.
- Links as in io_uring_enter(2), flag IOSQE_IO_LINK: the next request starts when the linked one is done; an error, or a short read or write, cancels the rest of the chain with ECANCELED. A short send or recv does not cancel.
- Each request acts in one step. Files and streams change through the modelled requests only.
- The ring of the hooks has 1024 entries. The submission helper queues exactly one entry and returns 0, or queues nothing; the link helper flags the newest entry; the write helper of the write/fsync hooks writes at offset 0.
- A probe runs without interruption, except where a module splits its steps.

## Model

| member | source | states |
|---|---|---|
| `Uring.MergeKeepsAll` | IO_syscall_patch/backup.bpf.c:93-97 | however the kernel interleaves the chains of a submission, every request is taken exactly once |
| `Uring.RunsConserve` | IO_syscall_patch/backup.bpf.c:93-97 | under every kernel schedule and every fault, in flight plus unreaped stays the same, so waiting once per counted request never waits for a completion that does not come |
| `Uring.RunsReplay` | iouring_hotpatch/uring_client.c:136-146 | for every kernel run, failures and short transfers included, the world is the replay of the completions in posting order |
| `Uring.RunsPlain` | iouring_hotpatch/uring_client.c:136-146 | if all completions are full, the world is that of the plain system calls made in completion order |
| `Uring.RunsMerge` | iouring_hotpatch/uring_client.c:136-146 | the completions posted so far extend to an interleaving of the submitted chains, whatever comes later |
| `Uring.MergeReached` | iouring_hotpatch/uring_client.c:136-146 | conversely, every interleaving of the chains is the work of some kernel schedule, with plain results in that order: always for unlinked requests, and for linked ones if nothing cuts a chain |
| `Uring.LinkStep` | IO_syscall_patch/user.c:58-79 | what a link means, in results: an error, or a short read or write, cancels all that is linked behind the request with -125 each; a short send or recv cancels nothing |
| `Uring.OneChainCutOff` | IO_syscall_patch/user.c:58-79 | in one linked chain, behind a completion below 0, or below the length of a read or write, every result is -125, and nothing stays in flight |
| `Uring.ExecutedPrefix` | IO_syscall_patch/user.c:58-79 | a linked chain runs as a prefix of the queue: results are neither negative nor short up to its last, the last is unless all ran, all behind it are -125; the world is the in-order fold of that prefix alone |
| `World.ResultIff` | iouring_hotpatch/uring_client.c:136-146 | what the kernel may report: any error, the plain result, or any smaller positive count, and nothing else |
| `ChainOrder.MergeIff` | IO_syscall_patch/backup.bpf.c:240-294 | for any queue of different requests and any link flags: an order is a possible one exactly if it is an arrangement of the queue in which of two entries with only linked ones from the first up to the second the first comes first |
| `ChainOrder.MergeArranges` | IO_syscall_patch/backup.bpf.c:240-294 | the same for queues that repeat requests, said of places in the queue: every possible order is an arrangement that keeps linked places in order |
| `Uring.DrainedIsSettled` | iouring_hotpatch/uring_client.c:136-146 | once as many completions as requests are ready, nothing is in flight and the completions account for every request |
| `Uring.SubmitAndReap` | IO_syscall_patch/backup.bpf.c:93-97 | submitting and waiting exactly as often as requests are outstanding leaves an empty ring and a complete account of what ran |
| `Uring.SubmitAndPeek` | iouring_hotpatch/uring_client.c:136-146 | after submit-and-wait for all, every peek finds a completion and the ring ends empty |
| `Uring.SubmitAndWaitOne` | iouring_hotpatch/uring_client.c:194-204 | with one request outstanding the wait returns that request's own completion |
| `Deferral.Commute` | IO_syscall_patch/backup.bpf.c:105-155 | two calls that share no buffer, file or stream in a conflicting way may change places: memory, files and streams end the same |
| `Deferral.MergeHasQueueEffect` | IO_syscall_patch/backup.bpf.c:274-299 | if the chains of a batch are mutually independent, every order the kernel may pick has the effect of the queue order |
| `Deferral.QueueOrderForcedIff` | IO_syscall_patch/backup.bpf.c:240-294 | for every sequence of link flags: the kernel completes any calls so linked in call order, whatever it does, exactly if no unlinked (recv) entry stands before the last one; otherwise it has a schedule that departs |
| `Deferral.RecvCutsOrderIff` | IO_syscall_patch/backup.bpf.c:290-295 | for a recv and a send from the same buffer, of any lengths, the kernel has a schedule that runs the send first; it is harmless exactly if the bytes received and sent were there already |
| `Deferral.DeferralPreservesMeaning` | IO_syscall_patch/backup.bpf.c:105-155 | for every program that leaves waiting buffers alone, queueing accepted calls and flushing every 1024 and at the end has the same final memory, files and streams as calling at once |
| `Deferral.EarlyCopyIff` | IO_syscall_patch/backup.bpf.c:218-245 | a program that copies any memory range while an acknowledged pread waits ends as without hooks exactly if every byte copied comes out the same either way |
| `Deferral.EarlyLookIff` | IO_syscall_patch/backup.bpf.c:218-245 | a program that only looks at the buffer is unharmed exactly if each byte it looked at already was the byte to be read |
| `Deferral.OrderlyFlush` | IO_syscall_patch/backup.bpf.c:105-124 | a flush whose completions are full, of a batch whose chains are independent, does what the batch does in call order |
| `Deferral.WithoutRecvOrderlyBatches` | IO_syscall_patch/backup.bpf.c:235-268 | programs without recv need no side condition on completion order |
| `SideConditions.IndependentIff` | IO_syscall_patch/backup.bpf.c:105-155 | two requests are independent exactly if neither uses a byte, file or stream the other changes |
| `SideConditions.SparesIff` | IO_syscall_patch/backup.bpf.c:218-245 | a computation leaves a waiting call alone exactly if it stores to no byte of the call's buffer and, if the call will store there, loads none |
| `SideConditions.QuietIff` | IO_syscall_patch/backup.bpf.c:105-155 | a program is quiet exactly if each event that is not a taken call leaves alone the calls taken before it, less all whole batches of 1024 |
| `SideConditions.OrderlyIff` | IO_syscall_patch/backup.bpf.c:240-294 | a batch is orderly exactly if any two calls are independent that have a recv between them or the first of which is a recv |
| `SideConditions.OrderlyBatchesIff` | IO_syscall_patch/backup.bpf.c:105-155 | the batches of a program are orderly exactly if each 1024 taken calls in a row, and the rest, are |
| `BatchHooks.SlotAdded` | IO_syscall_patch/backup.bpf.c:81-139 | keys stay within 1..1024 of a 10000-entry map, so the newest call always finds its slot |
| `BatchHooks.FlushBatch` | IO_syscall_patch/backup.bpf.c:113-121 | a batch flush completes each counted call exactly once and empties the ring; of two calls of which the first, and all between, are no recv the first completes first |
| `BatchHooks.HookOrdersIff` | IO_syscall_patch/backup.bpf.c:240-294 | the kernel has a schedule for an order of the batch exactly if it is an arrangement that keeps calls in order between which no recv stands (for different calls that cut no chain) |
| `BatchHooks.AckTrueIff` | IO_syscall_patch/backup.bpf.c:235-299 | the value given at once is the plain call's exactly if a pread has just 22 bytes to read, a send its socket and buffer, a recv all it asks for |
| `BatchHooks.Hooks.SubmitIfBatchFull` | IO_syscall_patch/backup.bpf.c:105-124 | flushes exactly at 1024, waits for what was submitted, and leaves all as it was below that |
| `BatchHooks.Hooks.AddPendingOp` | IO_syscall_patch/backup.bpf.c:126-155 | the slot of the newest call is always found (no NULL return, the reset is never skipped) and holds the call's own record; slots 1, 2, ... hold the waiting calls in call order, numbered consecutively mod 2^32 |
| `BatchHooks.Hooks.HandleUnbatchedOps` | IO_syscall_patch/backup.bpf.c:89-103 | everything pending is done, each call once, and the counter is zero |
| `BatchHooks.Hooks.PreadHook` | IO_syscall_patch/backup.bpf.c:218-245 | queued, counted and acknowledged with 22, or left alone; accepted exactly if the hooks are on, fd >= 3 and the helper agrees (the queue is never full) |
| `BatchHooks.Hooks.SendHook` | IO_syscall_patch/backup.bpf.c:247-272 | queued, counted, linked and acknowledged with n, or left alone |
| `BatchHooks.Hooks.RecvHook` | IO_syscall_patch/backup.bpf.c:274-299 | queued, counted, not linked, acknowledged with n, or left alone |
| `BatchHooks.Hooks.EndHook` | IO_syscall_patch/backup.bpf.c:302-308 | leaves nothing pending without waiting for a missing completion |
| `BatchHooks.Hooks.StartHook` | IO_syscall_patch/backup.bpf.c:311-323 | switches the hooks on with a new ring and counters reset; calls that wait are lost, the slot map is kept |
| `BatchHooks.Hooks.Session` | IO_syscall_patch/backup.bpf.c:89-323 | over any sequence of starts, ends and calls every accepted call completes once, waits or is lost, and none is lost exactly if every start meets an operation count of zero |
| `BatchHooks.Hooks.Syscall` | IO_syscall_patch/backup.bpf.c:218-299 | every hooked call is either queued and acknowledged or run natively, never both |
| `BatchHooks.StepRefinesDeferred` | IO_syscall_patch/backup.bpf.c:105-155 | one event under the hooks refines one step of the deferred semantics |
| `BatchHooks.Hooks.Step` | IO_syscall_patch/backup.bpf.c:218-299 | pending calls and the world change as the deferred semantics says, with completions exactly at a full batch |
| `BatchHooks.Hooks.RunProgram` | IO_syscall_patch/backup.bpf.c:89-308 | a whole program under the hooks, closed by the end hook, ends in the same world as without hooks if no completion fails or is short, the program is quiet and recv-cut batches are independent |
| `PreadProtocol.SumIsCount` | IO_syscall_patch/user.bpf.c:142-155 | the sum of batched_preads over a set of pids is the number of overridden preads of those pids |
| `PreadProtocol.TalliesAddUpIff` | IO_syscall_patch/user.bpf.c:142-155 | the per-pid counts add up to all overridden preads exactly if at most 1000 pids issued some |
| `PreadProtocol.TallyStep` | IO_syscall_patch/user.bpf.c:142-155 | each map entry stays the cumulative total and count of its pid (totals are never reset), including a full map |
| `PreadProtocol.SeqNumsRiseIff` | IO_syscall_patch/user.bpf.c:136-136 | sequence numbers rise strictly exactly until they wrap at 2^32 |
| `PreadProtocol.Probes.PreadRaw` | IO_syscall_patch/user.bpf.c:98-158 | an overridden pread is described once, with the offset argument in dest and offset 0, numbered by global_seq, and tallied; others leave no trace |
| `PreadProtocol.Probes.BatchSubmit` | IO_syscall_patch/user.bpf.c:160-177 | reports the cumulative bytes asked for by the process, exactly if it is known and an override is on, and then clears the override |
| `PreadProtocol.LinkedChain` | IO_syscall_patch/user.c:58-79 | a flush of linked preads completes in queue order, one completion each; behind a result that is negative or short every result is -125, and the world is the in-order fold of the completions up to and with the first such |
| `PreadProtocol.WaitLoop` | IO_syscall_patch/user.c:68-80 | when the loop ends and why: all reaped, a failed wait, or a wait that can never return |
| `PreadProtocol.Consumer.ProcessPrepare` | IO_syscall_patch/user.c:50-62 | a message becomes one linked read of size bytes of fd at position offset into address dest, behind the others, and is counted, or is dropped exactly if 1024 are queued |
| `PreadProtocol.Consumer.ProcessSubmit` | IO_syscall_patch/user.c:64-83 | reaps exactly batch_count completions and leaves the ring empty when no wait fails; after a failed wait the stale counter makes a later flush block exactly if completions were taken before the failure |
| `PreadProtocol.AdmittedRise` | IO_syscall_patch/user.c:50-62 | what the bounded queue admits of rising messages rises, so nothing is submitted twice |
| `PreadProtocol.Protocol.ProbePread` | IO_syscall_patch/user.bpf.c:112-140 | effect of a pread probe on log and ring buffer, a lost message included |
| `PreadProtocol.Protocol.ProbeBatchSubmit` | IO_syscall_patch/user.bpf.c:160-177 | effect of a flush request on the submit ring buffer |
| `PreadProtocol.Protocol.TakePrepare` | IO_syscall_patch/user.c:85-89 | the oldest prepare message is consumed, in order |
| `PreadProtocol.Protocol.TakeSubmit` | IO_syscall_patch/user.c:92-97 | the oldest flush request is consumed; without a failed wait the flush completes and its effect is the executed prefix |
| `PreadProtocol.Protocol.ConsumeOne` | IO_syscall_patch/user.c:191-203 | the consumer takes from the ring buffer it polls and from no other |
| `PreadProtocol.Protocol.Step` | IO_syscall_patch/user.c:191-203 | what each step of either process does to log, ring buffers, history and poll loop; invariant kept |
| `PreadProtocol.Protocol.Run` | IO_syscall_patch/user.c:185-203 | under every interleaving, with drops at both ring buffers and at the queue, the preads ever queued are exactly the consumed messages that met room, in rising order, each once, and the one of call number k completes as a read of the bytes it asked for, of its fd, at position 0 into the address it gave as offset; the consumer waits for ever exactly if a flush met completions counted though already taken and did not fail first; with no failing wait that never happens and batch_count is exactly the queued entries, at most 1024 |
| `Tiling.TilesClosedForm` | iouring_hotpatch/vanilla_uring_read.c:42-68 | ceil(size / 4096) tiles, contiguous, 4096 bytes each but the last |
| `Tiling.TilesPartition` | iouring_hotpatch/uring_client.c:96-120 | every byte below size, and no other, lies in exactly one tile |
| `UringClient.RequestsAlternate` | iouring_hotpatch/uring_client.c:117-133 | requests alternate read and send with equal lengths, one pair per tile |
| `UringClient.InOrderDelivers` | iouring_hotpatch/uring_client.c:96-149 | run in queue order the requests send exactly the file |
| `UringClient.FlushBatch` | iouring_hotpatch/uring_client.c:135-148 | every peek finds a completion; each request of the batch completes once |
| `UringClient.SendPhase` | iouring_hotpatch/uring_client.c:92-164 | for every file size the queued requests are the tiles' pairs, cut into batches of 256; get_sqe never finds the queue full, all are reaped, and if all complete in full the outcome is a schedule of each batch in turn |
| `UringClient.OutcomeIff` | iouring_hotpatch/uring_client.c:92-164 | such an outcome is a sequence of worlds, each led to the next by a schedule that completes the batch's unlinked requests in full |
| `UringClient.StaleSend` | iouring_hotpatch/uring_client.c:117-131 | a send that overtakes its read sends the old contents of the shared buffer |
| `UringClient.SomeScheduleDelivers` | iouring_hotpatch/uring_client.c:96-148 | the kernel has a schedule under which exactly the file is sent |
| `UringClient.AlwaysDeliversIff` | iouring_hotpatch/uring_client.c:117-148 | the file is sent under every schedule that completes everything in full exactly if the file is empty: for any other size a schedule of the kernel sends something else |
| `UnlinkedBatches.AnyOrderIff` | clickhouse-iouring/rocksdb.bpf.c:30-41 | nothing is linked: the kernel has a schedule for an order exactly if it is a permutation of the batch |
| `UringClient.HookedCopyDelivers` | IO_syscall_patch/backup.bpf.c:218-272 | the same copy made of plain preads and sends under the batching hooks, which link them, sends exactly the file |
| `UringClient.RecvPhase` | iouring_hotpatch/uring_client.c:184-241 | for every split of the stream into recv results each chunk is written at its stream position; recv.txt is the received prefix if writes are full and agrees wherever a write succeeded; one request is outstanding at each wait |
| `MixedClient.OwnCompletionIff` | iouring_hotpatch/uring_client copy.c:121-133 | the wait is certain to return the newest request's completion exactly if nothing else is open |
| `MixedClient.LateSendSendsZeros` | iouring_hotpatch/uring_client copy.c:101-157 | the send of the first chunk is submitted along with the next read and with a cleared buffer: unless that read overtakes it, it sends zeros |
| `MixedDelivery.AlwaysArrivesIff` | iouring_hotpatch/uring_client copy.c:91-196 | over whole runs of the send loop in which everything completes in full, the socket is sent the file whatever the schedule exactly if the file has at most 4 bytes |
| `MixedDelivery.LongFileFails` | iouring_hotpatch/uring_client copy.c:95-196 | for every longer file an explicit run, through all rounds and flushes to the end, sends zeros for the first chunk |
| `MixedDelivery.Finish` | iouring_hotpatch/uring_client copy.c:95-196 | from every loop head with full completions so far the kernel can take the loop to its end with full completions |
| `MixedClient.SendPhase` | iouring_hotpatch/uring_client copy.c:91-196 | at every loop head open requests equal batch_count, so the batch peeks never fail; round i clears the buffer, asks for the next at most 4 bytes behind the sum of the results taken before, and queues a send of the result it takes, ending the text with a zero; nothing is left at the end |
| `MixedClient.LeftShrinks` | iouring_hotpatch/uring_client copy.c:226-251 | the first wait behind a flush takes bytes from the stream, no wait puts any back |
| `MixedClient.RecvPhase` | iouring_hotpatch/uring_client copy.c:216-302 | same invariant, and the loop ends for every kernel behaviour; round i asks for 4 bytes and queues a write of the result it takes, behind the sum of the results taken before |
| `MixedSaving.PrefixHolds` | iouring_hotpatch/uring_client copy.c:217-288 | if every request runs in queue order, then as long as chunks fill the buffer, what was received is what recv.txt holds and, behind it, the buffer: every write stores its own chunk before the next recv |
| `MixedSaving.InOrderSavesIff` | iouring_hotpatch/uring_client copy.c:216-302 | over whole runs in queue order recv.txt is the stream exactly if its length is a multiple of 2048: the waits take completions of writes, so behind the stream the client goes on writing until a batch ends |
| `OwnRecvs.OwnRecvsSaveIff` | iouring_hotpatch/uring_client copy.c:216-302 | over whole runs in which every wait takes a recv's completion, in any order otherwise, all writes of a batch store what the buffer holds at its end: recv.txt is the stream exactly if within each 2048 bytes every byte equals the one 4 positions on |
| `MixedSaving.AlwaysSavesIff` | iouring_hotpatch/uring_client copy.c:216-302 | over whole runs in which every request runs as the plain call would, in any order, recv.txt is the stream whatever the schedule exactly if the stream is empty |
| `MixedSaving.FinishInOrder` | iouring_hotpatch/uring_client copy.c:217-302 | from every loop head the kernel can take the loop to its end in queue order |
| `OwnRecvs.FinishOwn` | iouring_hotpatch/uring_client copy.c:217-302 | from every loop head without completions left it can take the loop to its end so that every wait takes a recv's completion |
| `VanillaReader.FlushBatch` | iouring_hotpatch/vanilla_uring_read.c:43-52 | each request completes once; the ring is left empty exactly if no read failed |
| `VanillaReader.BenchmarkReads` | iouring_hotpatch/vanilla_uring_read.c:39-78 | requests are the tiles, total_reads = ceil(size / 4096), flushes = ceil(total_reads / 256), each request reaped once; success exactly if no read failed |
| `CopyLoop.LeadsIff` | IO_syscall_patch/test_speed.c:46-60 | the passes of the loop: each asks for at most 1024 bytes, and starts in the source where the last read ended and in the copy where the last write ended |
| `CopyLoop.Copy` | IO_syscall_patch/test_speed.c:38-64 | for every kernel behaviour the copy equals the source exactly if no write was short; ceil(size / 1024) passes if no read was short |
| `FsyncCredits.CounterReads` | iouring_fsync_poc/iouring_fsync.bpf.c:12-24 | the 32-bit counter reads as the true difference exactly while it fits an int, and reads negative exactly in the upper half of each wrap |
| `FsyncCredits.FsyncTest.FileWriteAndWaitRange` | iouring_fsync_poc/iouring_fsync.bpf.c:15-26 | one atomic credit per writeback of the benchmarked process |
| `FsyncCredits.FsyncTest.QueueBatch` | iouring_fsync_poc/iouring_fsync.c:102-115 | write/fsync pairs up to the batch size or 512 |
| `FsyncCredits.FsyncTest.WaitWithCredits` | iouring_fsync_poc/iouring_fsync.c:122-146 | with kernel increments between check and decrement the counter stays produced minus spent, spent never exceeds produced, every credit there at the start is spent if there are waits for it, and each skipped wait leaves its two completions behind |
| `FsyncCredits.FsyncTest.WaitForAll` | iouring_fsync_poc/iouring_fsync.c:147-157 | waits once per completion of the batch |
| `FsyncCredits.FsyncTest.Round` | iouring_fsync_poc/iouring_fsync.c:102-157 | submits that many pairs of a 256-byte write at 0 and an fsync; unreaped completions at round end are twice the credits ever spent unless a wait failed |
| `FsyncCredits.FsyncTest.Test` | iouring_fsync_poc/iouring_fsync.c:99-164 | over any number of rounds no wait is reached with nothing outstanding; rounds go on until time is up or a wait fails, all that was submitted is write/fsync pairs, and the reported total is the true one exactly if the batch fits the queue |
| `FsyncCredits.FsyncTest.RunTests` | iouring_fsync_poc/iouring_fsync.c:202-206 | the batch sizes are 1, 2, 4, ..., 512 or the first of these, and all fit the queue, so the total each test reports is the number of its fsyncs |
| `WritebackCredits.Hooks.EnterWaitForQueue` | bpf/rocksdb.bpf.c:54-74 | skips exactly if the counter is positive and covers the sync count; the subtraction never wraps |
| `WritebackCredits.Hooks.SubmitFd` | bpf/rocksdb.bpf.c:115-122 | the tracked set grows by the inode modulo 2^32 unless 10000 are tracked |
| `WritebackCredits.Hooks.WritebackSingleInode` | bpf/rocksdb.bpf.c:134-154 | a credit exactly if the inode modulo 2^32 is tracked |
| `WritebackCredits.Hooks.Run` | bpf/rocksdb.bpf.c:54-154 | over any run the sync counts of skipped waits sum to at most the writebacks that count, and the counter is the difference; a writeback counts exactly if an earlier submit that found its inode and room for it had an inode equal modulo 2^32, and each wait is skipped exactly if the credits left then are positive and cover its sync count |
| `WritebackCredits.SplitHooksSoundIff` | bpf/rocksdb.bpf.c:66-152 | with the increment split into load and store, and test and subtraction of any number of wait hooks apart, skipping stays sound, whatever follows in turn, exactly if no test passed on credits already promised and nothing was subtracted between a load and its store |
| `WritebackCredits.OutOfTurnOverspends` | bpf/rocksdb.bpf.c:66-152 | a schedule that breaks this has a continuation in turn that grants more skips than there were writebacks |
| `WritebackCredits.WholeHooksInTurn` | bpf/rocksdb.bpf.c:54-154 | hooks that each run in one go never break it |
| `WritebackCredits.TornOverspends` | bpf/rocksdb.bpf.c:152-152 | a torn increment: two writebacks pay for three skipped syncs |
| `WritebackCredits.DoubleSpendWraps` | bpf/rocksdb.bpf.c:66-71 | two wait hooks spend one credit and the counter wraps to 2^64 - 1 |
| `ClickhouseHooks.Hooks.Count` | clickhouse-iouring/rocksdb.bpf.c:30-41 | one more acknowledged call; the 49th flushes and waits for exactly what it submitted: the first 49 * (N / 49) calls are done, each once, the rest queued in order |
| `ClickhouseHooks.Hooks.WriteHook` | clickhouse-iouring/rocksdb.bpf.c:28-47 | writes of five bytes are queued and acknowledged, others run natively |
| `ClickhouseHooks.Hooks.FsyncHook` | clickhouse-iouring/rocksdb.bpf.c:50-65 | every fsync is queued and acknowledged with 0 |
| `Pipeline.SimpleRing.IsFull` | ring_pipeline/four_ring_pipeline.c:37-40 | full exactly at size - 1 entries |
| `Pipeline.SimpleRing.IsEmpty` | ring_pipeline/four_ring_pipeline.c:42-45 | empty exactly if the queue read from tail to head is |
| `Pipeline.SimpleRing.Enqueue` | ring_pipeline/four_ring_pipeline.c:47-54 | appends to the queue, across wrap-around, for every size of at least 1; fails exactly if full |
| `Pipeline.SimpleRing.Dequeue` | ring_pipeline/four_ring_pipeline.c:56-63 | removes the oldest entry; fails exactly if empty |
| `Pipeline.Processed` | ring_pipeline/four_ring_pipeline.c:109-110 | the suffix is cut exactly when the packet buffer has no room for it |
| `Pipeline.Dispatcher.ReceiveStage` | ring_pipeline/four_ring_pipeline.c:104-104 | a packet enters ring 3 or is turned away, later stages untouched |
| `Pipeline.Dispatcher.ProcessStage` | ring_pipeline/four_ring_pipeline.c:107-112 | moves one packet on, or loses it exactly if ring 4 is full |
| `Pipeline.Dispatcher.OutputStage` | ring_pipeline/four_ring_pipeline.c:115-123 | writes the oldest processed packet |
| `Pipeline.Dispatcher.Run` | ring_pipeline/four_ring_pipeline.c:98-124 | for any schedule outputs ++ ring 4 ++ processed(ring 3) is the processed input that found room, in order without the lost packets; none is lost exactly if the schedule never processes into a full ring 4 |
| `Pipeline.Dispatcher.Dispatch` | ring_pipeline/four_ring_pipeline.c:98-124 | in the dispatcher loop both rings are empty at each head, no enqueue fails and every packet comes out processed |
| `Average.Latencies.Writeback` | fsync-latency-bpf/rocksdb.bpf.c:22-36 | a sample joins the write average exactly if the thread is inside an fsync; the average kept is that of all samples |
| `Average.Latencies.ExitFsync` | fsync-latency-bpf/rocksdb.bpf.c:49-67 | an exit counts as a sample, assigns its value, and forgets the thread |
| `Average.StepExactly` | fsync-latency-bpf/rocksdb.bpf.c:30-33 | for any signed latencies: the difference, as an unsigned number of 64 bits, is divided by the new count, the quotient is added, and the sum wraps to a signed number |
| `Average.StepBetweenIff` | fsync-latency-bpf/rocksdb.bpf.c:31-32 | the new average lies between old average and sample exactly if the sample is not below the average or is the first: the division is unsigned |
| `Average.AverageBound` | fsync-latency-bpf/rocksdb.bpf.c:30-33 | n * avg <= sum <= n * avg + n (n - 1) / 2 as long as no sample is below the average it meets and no exit comes in between |
| `Average.RisingAverageBound` | fsync-latency-bpf/rocksdb.bpf.c:30-33 | the same bound for non-decreasing latencies with no exit in between |
| `Average.NeverAboveLargest` | fsync-latency-bpf/rocksdb.bpf.c:22-62 | with exits interleaved on the shared count the write average never exceeds the largest sample, as long as no sample is below the average it meets |
| `Average.RisingClimbs` | fsync-latency-bpf/rocksdb.bpf.c:22-62 | non-decreasing latencies, exits or not, never fall below the average they meet |
| `Average.ExitValueOfEquals` | fsync-latency-bpf/rocksdb.bpf.c:57-62 | the exit value is no average: two equal latencies bring it to 0 |

## Left out

- Loaders, attachment, option parsing, logging, timing and signals; a clock or a signal is an arbitrary decision to stop.
- Opening, connecting, shutting down and closing of files and sockets; failing allocations.
- `BatchHooks`: the write and read hooks whose bodies are commented out and that answer 9999 (IO_syscall_patch/backup.bpf.c:158-216); the flags of send and recv.
- `BatchHooks`: two hooks running at the same time on the shared counters; each hook is one step.
- `PreadProtocol`: the byte capacity of the ring buffers; a message may be lost at any time instead. The wrap-around of `int i` in the reap loop cannot occur below 2^31 requests.
- `PreadProtocol`: `SumIsCount` and `TalliesAddUpIff` count fewer than 2^64 preads.
- `UringClient`, `MixedClient`: waits that are interrupted by a signal, on which the clients give up.
- `FsyncCredits`: the bounded completion queue; unreaped completions pile up there as credits are spent, and the kernel is assumed to keep them.
- `WritebackCredits`: the sync count is 8 bits wide in the source; the model takes any natural number. With split hooks, one increment is under way at a time, the subtraction is one step, and the counter stays below 2^64 when raised.
- `VanillaReader`, `CopyLoop`: wrap-around of the `int` counters beyond 2^31 calls, and of the `int` file size in the copy loop.
- `Pipeline`: the io_uring write of the output stage, which submits and waits for one request; the ten fixed texts of the loop are replaced by any packets.
- `Average.ExitFsync`: no average property of the exit value is stated beyond `ExitValueOfEquals`, because it assigns instead of accumulating.
- `IO_syscall_patch/batch.bpf.c`, `iouring_hotpatch/rocksdb.bpf.c` and `iouring_hotpatch/test.bpf.c`: their waits do not match what they submit, so the invariants proved here do not hold of them.
- `clickhouse-uring.bpf.c`, `tp.bpf.c`, `uprobe.bpf.c`, `read_uring.c`, the unconditional skip example, and the small readers and servers: copies, or no state worth an invariant.
