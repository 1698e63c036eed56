# Verification of the IOCP chat server

A Dafny model of a Windows game and chat server that is built on hand-written lock-free structures,
and proofs of what its layers promise each other.

- **Lock-free structures.** `TaggedPointer`, `Masks`, `LockFreeQueue`, `QueueRefinement` and
  `TaggedStack` model the queue and the Treiber stacks as a heap of recycled nodes and one program
  counter with local snapshots for each thread. Every Interlocked call and every volatile access is
  one step. A word carries a write counter that never wraps; the hardware compares it modulo 2^17,
  and a step assumes that the snapshot it compares is fewer than 2^17 writes old. The theorems are
  refinement of a sequential queue and stack in every run; `QueueCalls` and `StackCalls` say what
  each call comes to, when it has to try again, and that it ends when nobody interferes.
- **Memory pool.** `PoolLayout` says where blocks are, as a value: in use, in a list of a thread's
  cache or of the shared stack, or in the hand of a thread. `PoolMemory` says when linked blocks in
  memory represent such a layout. `PoolMachine` is the pool as a state machine of any number of
  threads, each at some point inside `Alloc`, `Free` or its cache destructor; `PoolMoves` and
  `PoolSteps` prove that every step keeps the invariant, `PoolRuns` states what follows for every
  run, and `PoolProgress` what calls come to and that they end. There a push or a pop of the shared
  stack is one step; `PoolLoops` takes the CAS loops apart into their single accesses and proves that
  they come to the same. `MemoryPool` is the code on blocks and caches changed in place: each method
  is proved to be the steps of the machine that it claims to be (`PoolCalls`).
- **Session lifecycle and send protocol.** `Server` gives the steps of every activity on a session
  slot, `Tally` counts the activities at each point, `SlotTransitions` and `SlotSteps` prove the
  invariant of one slot step by step, `ServerSystem` puts slots, index stack, packet counts,
  application and job queue together, and `ServerSlots`, `ServerPackets` and `ServerCallbacks` prove
  the system invariant. `ServerTheorems` states what follows for every reachable state, `ServerCalls`
  which acquisitions succeed and what becomes of connections, frames and packets, `ServerProgress`
  that no activity gets stuck, and `ServerExamples` one session from its accept to its release. A
  call made inside a callback is an activity of its own next to the paused one.
- **Wire path.** `Ring` and `RingBuffer` (the receive buffer), `Codec` and `Packet` (header,
  checksum, two-stage XOR chain) and `Framing` (the receive loop) lead to the end-to-end theorem of
  `ReceiveAll`. `CodecLaws` spells out the bytes on the wire and what the checksum detects.
- **Chat contents.** `ChatWorld` is the state of the contents thread as a value, with what each job
  does to it; `ChatRequests` proves what requests do, from the bytes a client sends to the bytes it
  reads back; `ChatRuns` proves what holds after whole runs, for the jobs that the server can
  produce; `ChatAccounts` says when an account has one active player; `ChatExamples` holds the runs in
  which something goes wrong; `ChatServer` and `ContentsThread` are the objects, maps and vectors
  changed in place, proved to follow `ChatWorld`.

Numbers are unbounded unless a bound is part of a statement: `ioCount` is shown to stay inside a
LONG, and IDs below 2^64 while fewer than 2^48 sessions have been accepted. Bytes are 8-bit vectors.

Four things in the repository do not hold as one might expect. Each has a run that shows it, and a
condition that says exactly when it happens.

- `Dequeue` may return `false` while the queue holds a counted element that nobody has reserved
  (`FailureWithElement`; exactly when: `FailsWithElementIff`).
- An account can have two active players, because a release erases the account entry without looking
  whose it is (`TwoPlayersOneAccount`; exactly when: `LoginKeepsOneIff` for one call,
  `AccountsTheorem` for a run).
- A packet can break the contents thread into the debugger (`ForgedMoveBreaks`; exactly when:
  `BreaksIff`).
- A complete frame of 1401 to 1996 payload bytes with the right code is longer than the packet it is
  copied to, which the code does not check (`OverrunWitness`; exactly when: `OverrunIff`,
  `LongFrames`).

Check everything with `dafny verify dfyconfig.toml`.

## Model

| member | source | states |
|---|---|---|
| TaggedPointer.Unpack | MyLibrary/LockFreeQueue.h:22-35 | packing a tag and an address into 64 bits loses neither, except that the tag wraps at 2^17 |
| Masks.PointerIsRemainder | MyLibrary/LockFreeQueue.h:22-25 | on 64-bit words the address mask is the remainder by 2^47 |
| Masks.TagIsQuotient | MyLibrary/LockFreeQueue.h:27-30 | shift and mask are the quotient by 2^47, modulo 2^17 |
| Masks.TaggedIsSum | MyLibrary/LockFreeQueue.h:32-35 | the packed word is tag times 2^47 plus address, both cut to size |
| TaggedPointer.SignedTagAgrees | MyLibrary/LockFreeMemoryPool.h:179-181 | the chunk stack's signed `>>` and mask read the same tag as the unsigned version |
| TaggedPointer.RewriteBits | MyLibrary/LockFreeQueue.h:82-85 | `MakeTagged(GetTag(old) + 1, p)` is what the hardware holds of a word whose write counter never wraps |
| TaggedPointer.SameBitsIff | MyLibrary/LockFreeQueue.h:83-86 | two writes of one location look alike to a CAS exactly when the addresses agree and their counters differ by a multiple of 2^17 |
| TaggedPointer.CasMeansUnchanged | MyLibrary/LockFreeQueue.h:132-132 | inside a window of 2^17 writes a CAS succeeds exactly if nothing was written since the snapshot |
| TaggedPointer.WindowIsTight | MyLibrary/LockFreeQueue.h:18-35 | 2^17 writes later a CAS is fooled, so the window cannot be made larger |
| QueueRefinement.ApplyKeepsInv | MyLibrary/LockFreeQueue.h:63-140 | every step of any thread keeps the queue invariant: the list is the chain from `_head`, `_tail` is its last or second-to-last node, no listed node is free or held, stale snapshots are never newer than the words they were read from, and the reservation count is exact |
| QueueRefinement.StepRefines | MyLibrary/LockFreeQueue.h:63-140 | a winning link CAS appends exactly the caller's value, a winning head CAS removes the first value and that is what its caller returns, every other step changes nothing, with nodes freed and reallocated under stale pointers |
| QueueRefinement.WinningLink | MyLibrary/LockFreeQueue.h:80-88 | a link CAS that wins, from whatever stale snapshot, links behind the true last node |
| QueueRefinement.WinningHead | MyLibrary/LockFreeQueue.h:130-136 | a head CAS that wins installs the true successor and returns that node's data |
| QueueRefinement.FifoTheorem | MyLibrary/LockFreeQueue.h:63-140 | in every run of any number of threads the values appended are the values removed followed by the contents, in order |
| QueueRefinement.CallsTheorem | MyLibrary/LockFreeQueue.h:63-140 | each `Enqueue` call appends its argument once, and what a thread removes is what its `Dequeue` calls return, in the same order |
| QueueRefinement.ReservedHasElement | MyLibrary/LockFreeQueue.h:102-109 | a dequeuer that got past its decrement always has an element to take |
| QueueRefinement.NullLinkMeansStaleHead | MyLibrary/LockFreeQueue.h:117-121 | a null link behind the head snapshot means the snapshot is stale |
| QueueRefinement.FailsIff | MyLibrary/LockFreeQueue.h:100-107 | `Dequeue` gives up exactly when the elements are at most the uncounted, the reserved and the not yet restored ones |
| QueueRefinement.FailsWithElementIff | MyLibrary/LockFreeQueue.h:100-107 | it gives up in the face of a counted and unreserved element exactly when at least as many failed dequeuers have not restored the counter as elements wait |
| QueueRefinement.SingleConsumerFailsIffDrained | MyLibrary/LockFreeQueue.h:100-107 | with one consumer `false` means that every counted enqueue was consumed |
| QueueRefinement.FailureWithElement | MyLibrary/LockFreeQueue.h:102-106 | with several consumers it does not: a run in which `Dequeue` fails while the queue holds a counted element |
| QueueRefinement.ListIsTheChain | MyLibrary/LockFreeQueue.h:49-58 | the list of the invariant is the only one that the links in memory give |
| QueueCalls.ReservedNeverFails | MyLibrary/LockFreeQueue.h:111-140 | a `Dequeue` past its decrement never answers `false`, however many exchanges it loses: it stays reserved until it has an element |
| QueueCalls.DequeuesTheorem | MyLibrary/LockFreeQueue.h:100-140 | in every run the `Dequeue` calls of a thread whose decrement found an element are those that return one, except for one that is still on its way |
| QueueCalls.RetryMeansBeaten | MyLibrary/LockFreeQueue.h:70-140 | a call goes back to the beginning of its loop only if another thread has changed the queue under its snapshots, or if it has itself moved a lagging tail on |
| QueueCalls.TailIsSwung | MyLibrary/LockFreeQueue.h:80-94 | in every run `_tail` is the last node, unless a thread that has linked one has yet to move it there |
| QueueCalls.AloneItEnds | MyLibrary/LockFreeQueue.h:63-140 | a call that nobody interferes with ends after at most 14 steps, wherever it is and however stale its snapshots are |
| TaggedStack.StepRefines | MyLibrary/LockFreeStack.h:54-98 | each step is one operation of a sequential stack; a `Pop` that wins installs the true successor although it may have read the link of a popped and rewritten node, and `false` means empty |
| TaggedStack.PoppedNodeIsPrivate | MyLibrary/LockFreeStack.h:93-96 | a popped node belongs to one thread, with its data, until that thread frees it |
| TaggedStack.LifoTheorem | MyLibrary/LockFreeStack.h:54-98 | in every run the operations are those of a sequential stack in the order of the winning CAS; the same code moves chunks in the memory pool |
| TaggedStack.RunIsPlausible | MyLibrary/LockFreeMemoryPool.h:135-176 | the same from any state that a run can reach, for the shared chunk stack |
| StackCalls.FalseMeansEmpty | MyLibrary/LockFreeStack.h:83-93 | `Pop` answers `false` only if the stack is empty at that moment, however many exchanges it has lost |
| StackCalls.CallsTheorem | MyLibrary/LockFreeStack.h:54-98 | in every run each `Push` puts its argument on the stack exactly once, and each `Pop` answers exactly once: with what its one winning exchange took, or `false` where it found the stack empty |
| StackCalls.RetryMeansBeaten | MyLibrary/LockFreeStack.h:64-93 | a call tries again only if another thread has changed the top since it was read |
| StackCalls.AloneItEnds | MyLibrary/LockFreeStack.h:54-98 | a call that nobody interferes with ends after at most 6 steps, wherever it is and however stale its snapshot is |
| PoolLayout.MovedPlaced | MyLibrary/LockFreeMemoryPoolTLS.h:147-181 | moving a whole list keeps every block in use or at exactly one place of one list |
| PoolMemory.SealedRepresented | MyLibrary/LockFreeMemoryPoolTLS.h:165-172 | after the writes of `Seal` the links, counts and flags in memory still say where every block is |
| PoolMemory.PushedRepresented | MyLibrary/LockFreeMemoryPool.h:135-150 | after the writes of `PushChunk` they still do, for a full chunk and for the rest of an exiting thread |
| PoolMemory.GrownRepresented | MyLibrary/LockFreeMemoryPool.h:194-209 | a new chunk of 300 linked blocks joins the pool without touching the others |
| PoolSteps.ApplyKeepsInv | MyLibrary/LockFreeMemoryPoolTLS.h:25-181 | every step of any thread inside `Alloc`, `Free`, the cache destructor or the pool's constructor keeps the invariant of the whole pool, or is one that breaks |
| PoolRuns.RunKeepsInv | MyLibrary/LockFreeMemoryPoolTLS.h:25-181 | so does every run, however the steps of any number of threads alternate |
| PoolRuns.OnePlace | MyLibrary/LockFreeMemoryPoolTLS.h:25-181 | in every state of every run each created block is in use and in no list, or idle and at exactly one place: of a current list, a cached chunk, a shared chunk, or in the hand of a thread |
| PoolRuns.ListsAreKnown | MyLibrary/LockFreeMemoryPoolTLS.h:25-44 | no list outlives its thread: each belongs to a thread of the pool or to the shared stack |
| PoolRuns.FlagIsExact | MyLibrary/LockFreeMemoryPool.h:98-128 | `useFlag` is 1 exactly while a block is handed out |
| PoolRuns.FieldsAreExact | MyLibrary/LockFreeMemoryPoolTLS.h:18-23 | a cache's fields are the head and length of its current list and of its stack of chunks, also in the middle of a call |
| PoolRuns.HeadsAreExact | MyLibrary/LockFreeMemoryPool.h:130-150 | the head of every cached or shared chunk holds its length, at most 300, and the chunk below |
| PoolRuns.LinksAreExact | MyLibrary/LockFreeMemoryPool.h:193-209 | the blocks of each list, in a stack or in a hand, are linked from the head down to null |
| PoolRuns.IdleBound | MyLibrary/LockFreeMemoryPoolTLS.h:15-16 | a thread keeps at most 3299 idle blocks between calls and 3599 inside one |
| PoolRuns.CapacityIsExact | MyLibrary/LockFreeMemoryPool.h:183-220 | the chunks counted are those that exist and those that threads are building |
| PoolRuns.BreaksExactly | MyLibrary/LockFreeMemoryPool.h:117-128 | a step breaks exactly if it frees a block that is not in use, counts a chunk beyond the limit, or gets no memory for one; the check of `Alloc` never does |
| PoolRuns.StatusChanges | MyLibrary/LockFreeMemoryPoolTLS.h:74-120 | `Alloc` hands out a block that nobody has, at its last step, `Free` takes back the one it is given, at its first, and no other step changes the status of any block |
| PoolLoops.SameWordIsSameBits | MyLibrary/LockFreeMemoryPool.h:145-145 | what the exchanges of the loops compare are the bits of the tagged words |
| PoolLoops.WinningPop | MyLibrary/LockFreeMemoryPool.h:157-176 | an exchange of `PopChunk` that succeeds takes the top chunk and leaves the one really below it, although its link was read when the chunk may have been elsewhere |
| PoolLoops.WinningPush | MyLibrary/LockFreeMemoryPool.h:135-150 | an exchange of `PushChunk` that succeeds puts the chunk on top of the one that its link names, which is then the top |
| PoolLoops.StepRefines | MyLibrary/LockFreeMemoryPool.h:135-176 | every read of the top, every access to a link and every exchange is one step of `PoolMachine` or changes nothing that it sees, and keeps what the local copies of all threads say |
| PoolLoops.RunRefines | MyLibrary/LockFreeMemoryPool.h:135-176 | so every run in which single accesses of any number of loops alternate with the rest of the pool is a run of `PoolMachine`, of which the theorems of `PoolRuns` hold |
| PoolLoops.OnePlaceInLoops | MyLibrary/LockFreeMemoryPool.h:135-176 | in every state of such a run each block is in use, or idle and at exactly one place, hands included |
| PoolLoops.StackIsLinked | MyLibrary/LockFreeMemoryPool.h:135-176 | in every state of such a run the shared stack in memory is the list of its chunks: `m_top` is the head of the top one, and each head has the chunk below |
| PoolLoops.RetryMeansBeaten | MyLibrary/LockFreeMemoryPool.h:135-176 | a turn of a loop is in vain only if another push or pop has succeeded since the top was read |
| PoolLoops.AloneItEnds | MyLibrary/LockFreeMemoryPool.h:135-176 | a loop that nobody interferes with ends after at most 5 accesses |
| PoolProgress.GrowsOnlyWhenEmpty | MyLibrary/LockFreeMemoryPoolTLS.h:147-163 | while threads alternate, too, a thread asks the shared stack only if its list and cache are empty, and makes a chunk only if it finds the shared stack empty; otherwise it gets the top chunk of the first that has one |
| PoolProgress.AllocsTheorem | MyLibrary/LockFreeMemoryPoolTLS.h:74-96 | in every run that does not break each `Alloc` hands out exactly one block |
| PoolProgress.AloneItEnds | MyLibrary/LockFreeMemoryPoolTLS.h:25-120 | a call that nobody interferes with ends after at most 26 steps, the cache destructor with its eleven pushes among them |
| PoolCalls.OthersWait | MyLibrary/LockFreeMemoryPoolTLS.h:46-46 | a call changes the cache and the place of no other thread |
| MemoryPool.Pool.Alloc | MyLibrary/LockFreeMemoryPoolTLS.h:74-96 | returns the first block of the current list, else of the top cached chunk, else of the top shared chunk, and uses new memory only if all three are empty; nobody had the block, and null comes exactly if no chunk can be made either; the memory after the call is that of the machine after one `Alloc` of this thread |
| MemoryPool.Pool.Free | MyLibrary/LockFreeMemoryPoolTLS.h:103-123 | succeeds exactly for a block in use, which is then the first of the current list, or of the chunk that it completes; a second free and a foreign block are refused; the memory after the call is that of the machine after one `Free` of this thread |
| MemoryPool.Pool.Refill | MyLibrary/LockFreeMemoryPoolTLS.h:147-163 | an empty current list is refilled from the cache, else the shared stack, else by a new chunk, and fails only if there is none of the three |
| MemoryPool.Pool.Seal | MyLibrary/LockFreeMemoryPoolTLS.h:165-181 | the current list becomes a cached chunk; beyond ten the top one goes to the shared stack; no block changes its status |
| MemoryPool.Pool.NewChunk | MyLibrary/LockFreeMemoryPool.h:183-220 | 300 fresh idle blocks linked from the head to null; null exactly if the limit is reached or there is no memory |
| MemoryPool.Pool.ThreadExit | MyLibrary/LockFreeMemoryPoolTLS.h:25-43 | the current list and all chunks of the thread go to the shared stack one by one, no block changes its status, and the thread is gone |
| MemoryPool.Pool.Prefill | MyLibrary/LockFreeMemoryPool.h:66-70 | pushes exactly the initial chunks, or breaks exactly if the limit or the memory does not allow them |
| MemoryPool.Pool.Create | MyLibrary/LockFreeMemoryPool.h:56-71 | a new pool has its initial blocks, all idle, in a state that the machine reaches from the empty one |
| MemoryPool.Pool.GetCapacityCount | MyLibrary/LockFreeMemoryPool.h:81-81 | the capacity is the number of blocks ever created, unless a thread is building a chunk |
| ServerTheorems.StepKeepsInv | NetworkLibrary/CNetServer/CNetServer/CNetServer.cpp:135-499 | every step of acceptor, workers, senders, disconnectors, releasers and application code keeps the server invariant |
| ServerTheorems.RunKeepsInv | NetworkLibrary/CNetServer/CNetServer/CNetServer.cpp:135-499 | so does every run, with any number of threads, slots, packets and reuses of a slot |
| ServerTheorems.NeverBroken | MyLibrary/PacketBuffer.cpp:223-233 | no run reaches a `__debugbreak` of the packet counts, overruns `sendingPackets` or returns a nested reference to 0 |
| ServerTheorems.RefCountExact | NetworkLibrary/CNetServer/CNetServer/CNetServer.cpp:319-342 | `ioCount` without the flag is the number of references that agents and outstanding I/O hold, including acquirers about to fail, and stays inside a LONG |
| ServerTheorems.SlotsPartition | NetworkLibrary/CNetServer/CNetServer/CNetServer.cpp:344-364 | every index is on the stack, in the hands of one accepting or releasing agent, or live, never two of these; a stacked slot is flagged, has an empty queue and nothing in hand, and its last session was released |
| ServerTheorems.NoStrandedSession | NetworkLibrary/CNetServer/CNetServer/CNetServer.cpp:338-347 | whenever the flag is clear and `ioCount` is 0 some thread is between its decrement to 0 and its release CAS, whichever incarnation the decrement belonged to |
| ServerTheorems.NotReleasedWhileHeld | NetworkLibrary/CNetServer/CNetServer/CNetServer.cpp:319-364 | while an agent relies on a session it is counted, not released, and nobody accepts into its slot or releases it |
| ServerTheorems.AcquiredIsRight | NetworkLibrary/CNetServer/CNetServer/CNetServer.cpp:319-336 | whoever has acquired works on the session of that ID, which is not released |
| ServerTheorems.StaleIdFails | NetworkLibrary/CNetServer/CNetServer/CNetServer.cpp:327-333 | the ID of a released session never acquires the slot again, whatever session is in it |
| ServerCalls.AcquiresIff | NetworkLibrary/CNetServer/CNetServer/CNetServer.cpp:319-336 | an acquisition succeeds exactly if, when it counts itself in, its session is in its slot and not flagged, whatever any number of others do before it looks |
| ServerCalls.OpenIsOwned | NetworkLibrary/CNetServer/CNetServer/CNetServer.cpp:319-336 | that is so for every session that has been accepted and whose release has not begun |
| ServerCalls.SendGoesOn | NetworkLibrary/CNetServer/CNetServer/CNetServer.cpp:147-161 | a `SendPacket` that has acquired puts its packet behind all others of exactly that session, gives the caller his reference back and goes on to post |
| ServerCalls.DisconnectGoesOn | NetworkLibrary/CNetServer/CNetServer/CNetServer.cpp:135-145 | a `Disconnect` that has acquired closes the socket of exactly that session |
| ServerCalls.FailureGivesBack | NetworkLibrary/CNetServer/CNetServer/CNetServer.cpp:147-151 | a `SendPacket` that fails leaves the packet to its caller |
| ServerTheorems.FreshIds | NetworkLibrary/CNetServer/CNetServer/CNetServer.cpp:240-241 | a new session gets an ID that no slot has and no callback has seen, after the last session of the slot was released; it fits into 64 bits while fewer than 2^48 sessions have been accepted |
| ServerTheorems.IdsFit | NetworkLibrary/CNetServer/CNetServer/CNetServer.cpp:240-241 | so do all IDs in the slots |
| ServerCallbacks.DecodeId | NetworkLibrary/CNetServer/CNetServer/CNetServer.cpp:240-240 | a session ID decodes to its number and its slot |
| ServerTheorems.OneSendOwner | NetworkLibrary/CNetServer/CNetServer/CNetServer.cpp:407-499 | `isSending` is set exactly while one agent, one outstanding send or one failed send owns `sendingPackets`, never two |
| ServerTheorems.OneReceiver | NetworkLibrary/CNetServer/CNetServer/CNetServer.cpp:366-453 | at most one agent receives on a session, and none while a receive is outstanding; a live session always has one of the two, until its receiving has ended with an error, a wrong code or a wrong checksum |
| ServerCalls.AcceptGoesOn | NetworkLibrary/CNetServer/CNetServer/CNetServer.cpp:205-256 | a connection that is not refused is counted, opened, told to the application and received from, in this order, under the new ID of its slot; a refused one puts its index back |
| ServerCalls.ReceiveGoesOn | NetworkLibrary/CNetServer/CNetServer/CNetServer.cpp:366-405 | a frame that passes its checksum is told to the application for its session before its packet is freed, then the next one is looked at, and in the end another receive is posted |
| ServerCalls.CompletionGoesOn | NetworkLibrary/CNetServer/CNetServer/CNetServer.cpp:302-315 | a good completion of a receive is handled by looking at the stream, one of a send by freeing what was sent; a failed one of either only gives its reference back, so that the send side stays taken |
| ServerTheorems.NoLostWakeup | NetworkLibrary/CNetServer/CNetServer/CNetServer.cpp:455-470 | while packets are queued and nobody is sending, some sender still has to count its packet, exchange `isSending` or re-check |
| ServerTheorems.BatchesInOrder | NetworkLibrary/CNetServer/CNetServer/CNetServer.cpp:472-486 | every batch handed to `WSASend` has 1 to 100 packets, and they are the next ones in the order of the queue |
| ServerCalls.BatchesAreFull | NetworkLibrary/CNetServer/CNetServer/CNetServer.cpp:472-481 | a batch goes on to 100 packets as long as the queue has one that is counted |
| ServerTheorems.EverythingIsSent | NetworkLibrary/CNetServer/CNetServer/CNetServer.cpp:455-486 | when nobody works on a live session and no send is outstanding or has failed, all that was queued has been handed to `WSASend` |
| ServerTheorems.NothingLeaks | NetworkLibrary/CNetServer/CNetServer/CNetServer.cpp:338-364 | when nobody works on a slot and no I/O is outstanding, its session has been released and its index is on the stack once |
| ServerProgress.AloneItEnds | NetworkLibrary/CNetServer/CNetServer/CNetServer.cpp:135-499 | every activity that nobody interferes with ends, after at most three steps for each packet queued, one for each to be freed or sent and 24 more, unless the network brings it further frames |
| ServerProgress.NeverStuck | NetworkLibrary/CNetServer/CNetServer/CNetServer.cpp:135-499 | until then it can always take a step |
| ServerExamples.WholeLife | NetworkLibrary/CNetServer/CNetServer/CNetServer.cpp:190-499 | the steps make up whole sessions: a run from the start of the server in which a connection is accepted, a packet is received, handled and sent back, the client goes away, and in the end the session is released, its index is on the stack and the packet in its pool |
| ServerTheorems.PacketsAreConserved | MyLibrary/PacketBuffer.cpp:215-238 | a packet is out of the pool exactly while references to it exist in threads, send queues, `sendingPackets` and jobs, and `m_refCount` is their number |
| ServerPackets.StepBalance | NetworkLibrary/CNetServer/CNetServer/CNetServer.cpp:147-161 | each step moves references between agent, slot, application and job queue, and changes the count by exactly those it creates or drops |
| ServerTheorems.CallbacksAreOrderly | NetworkLibrary/CNetServer/CNetServer/CNetServer.cpp:249-255 | every session sees one accept, then its receives, then one release, and only the session in its slot is open |
| Callbacks.OrderlyMeans | ChatServer_SingleThread/ChatServer_SingleThread/ChatServer.cpp:61-75 | in an orderly log nothing of a session precedes its accept or follows its release |
| RingBuffers.RingBuffer.Enqueue | MyLibrary/RingBuffer.cpp:46-73 | as many of the bytes as fit are appended to the contents |
| RingBuffers.RingBuffer.Dequeue | MyLibrary/RingBuffer.cpp:75-98 | the oldest bytes leave the contents and reach the destination, all or none |
| RingBuffers.RingBuffer.Peek | MyLibrary/RingBuffer.cpp:100-122 | the same without removing them |
| RingBuffers.RingBuffer.DirectEnqueueSize | MyLibrary/RingBuffer.cpp:130-139 | the region at `rear` and the one at the start of the array are together exactly the free space |
| RingBuffers.RingBuffer.DirectDequeueSize | MyLibrary/RingBuffer.cpp:141-150 | the region at `front` and the one at the start are together exactly the contents |
| RingBuffers.RingBuffer.MoveFront | MyLibrary/RingBuffer.cpp:152-161 | drops the oldest bytes, at most all; a negative size leaves the array exactly if it goes below the start and not by whole rounds |
| RingBuffers.RingBuffer.MoveRear | MyLibrary/RingBuffer.cpp:163-172 | makes bytes that were written into the free space part of the contents; negative sizes as in `MoveFront` |
| RingBuffers.RingBuffer.Scatter | NetworkLibrary/CNetServer/CNetServer/CNetServer.cpp:421-437 | a receive into the two regions of `RecvPost` leaves the contents alone and fills the free space in order |
| Ring.RearMoves | MyLibrary/RingBuffer.cpp:46-73 | with wrap-around, moving the rear appends the spare bytes it passes |
| Ring.FrontMoves | MyLibrary/RingBuffer.cpp:75-98 | with wrap-around, moving the front drops the oldest bytes |
| Ring.WrittenTwice | MyLibrary/RingBuffer.cpp:59-68 | writing across the end of the array in two pieces changes no live byte and puts the data behind the contents |
| Codec.DecodeAfterEncode | MyLibrary/PacketBuffer.cpp:170-206 | decoding undoes encoding, for every payload, key and position |
| Codec.EncodeAfterDecode | MyLibrary/PacketBuffer.cpp:170-206 | encoding undoes decoding, so the code is one-to-one and onto |
| Codec.EncodedAt | MyLibrary/PacketBuffer.cpp:177-185 | the code position by position: each encoded byte hides the output of the first stage under the encoded byte before it, and that output hides the plain byte under the output before it |
| Codec.FrameOpens | MyLibrary/PacketBuffer.cpp:146-213 | a stream that starts with what `SetNetHeader` made has the code and the length in front, passes the checksum and gives back the payload and the rest |
| CodecLaws.CheckSumIsTotal | MyLibrary/PacketBuffer.cpp:157-160 | the checksum is the sum of the payload modulo 256 |
| CodecLaws.OneByteChanged | MyLibrary/PacketBuffer.cpp:207-212 | a payload with one byte changed has another checksum |
| CodecLaws.IntactIff | MyLibrary/PacketBuffer.cpp:188-213 | a frame passes exactly if its first decoded byte is the sum of the others modulo 256 |
| CodecLaws.OneByteWrong | MyLibrary/PacketBuffer.cpp:207-212 | a frame that decodes to a payload with one byte other than the summed one does not pass |
| CodecLaws.LowByteFirst | MyLibrary/PacketBuffer.cpp:152-153 | a length is on the wire as its remainder and its quotient by 256 |
| CodecLaws.HeaderOnWire | MyLibrary/PacketBuffer.cpp:146-163 | a frame begins with 0x77, the length, low byte first, and the key in the clear, and is five bytes longer than its payload |
| CodecLaws.ChecksumOnWire | MyLibrary/PacketBuffer.cpp:170-186 | the fifth byte written out with `^`, `+`, the key and 0x32 |
| CodecLaws.ByteOnWire | MyLibrary/PacketBuffer.cpp:177-185 | every later byte, from the payload byte, the one before it and the wire byte before it, with `^`, `+`, the key, 0x32 and its number modulo 256 |
| Packets.Packet.SetNetHeader | MyLibrary/PacketBuffer.cpp:146-168 | turns the payload into its frame in place the first time, and changes nothing afterwards |
| Packets.Packet.Encode | MyLibrary/PacketBuffer.cpp:170-186 | replaces checksum and payload by their encoding and nothing else |
| Packets.Packet.Decode | MyLibrary/PacketBuffer.cpp:188-213 | replaces them by their decoding, leaves length and key alone, and answers whether the checksum fits; stops where the length field reaches beyond the buffer |
| Packets.Packet.SendToAll | NetworkLibrary/CNetServer/CNetServer/CNetServer.cpp:147-161 | a packet sent to several sessions in sequence is encoded once, so all get the frame of the same payload |
| Packets.Packet.Push | MyLibrary/PacketBuffer.h:278-289 | all the bytes or none are appended |
| Packets.Packet.Pop | MyLibrary/PacketBuffer.h:291-307 | all the bytes or none are taken, and an emptied packet starts over without losing data |
| Packets.Packet.PutData | MyLibrary/PacketBuffer.cpp:121-135 | as many bytes as fit are appended |
| Packets.Packet.GetData | MyLibrary/PacketBuffer.cpp:99-119 | as many bytes as there are leave the packet |
| Packets.Packet.MoveWritePos | MyLibrary/PacketBuffer.cpp:43-55 | bytes written behind the data become data, at most to the end of the buffer |
| Packets.Packet.MoveReadPos | MyLibrary/PacketBuffer.cpp:57-75 | the oldest bytes are dropped, at most all |
| Framing.RecvProc | NetworkLibrary/CNetServer/CNetServer/CNetServer.cpp:366-405 | one receive delivers exactly what parsing the buffered stream gives, keeps the rest, gives up on a wrong code or checksum, and stops before the copy that would overrun a packet |
| Framing.ParseIsExact | NetworkLibrary/CNetServer/CNetServer/CNetServer.cpp:366-405 | what is delivered of a stream is the payload of each good frame at its start, as many as there are and in order; what stands behind them is kept and decides how it ends |
| Framing.ClosedIff | NetworkLibrary/CNetServer/CNetServer/CNetServer.cpp:380-400 | a session is given up exactly if behind the good frames stands a complete one whose code is not 0x77 or whose first decoded byte is not the sum of its payload modulo 256 |
| Framing.DamageCloses | NetworkLibrary/CNetServer/CNetServer/CNetServer.cpp:391-400 | a frame whose payload has one byte changed is not delivered, and ends the session |
| Framing.OverrunIff | NetworkLibrary/CNetServer/CNetServer/CNetServer.cpp:380-389 | a packet is overrun exactly if behind some good frames stands a complete frame with the right code and more than 1400 payload bytes |
| Framing.LongFrames | NetworkLibrary/CNetServer/CNetServer/CNetServer.cpp:366-389 | such a frame has 1401 to 1996 payload bytes; a longer one never gets complete in the receive buffer |
| Framing.OverrunWitness | NetworkLibrary/CNetServer/CNetServer/CNetServer.cpp:380-390 | every frame of 1401 to 1996 payload bytes, for every key, fits into the receive buffer and overruns |
| Framing.ParseInPieces | NetworkLibrary/CNetServer/CNetServer/CNetServer.cpp:366-405 | parsing what has come, and later the rest with what comes then, is parsing it all |
| Framing.CutAnywhere | NetworkLibrary/CNetServer/CNetServer/CNetServer.cpp:366-405 | wherever a stream of frames is cut, the complete ones have been delivered in order, the session is open and at most 1404 bytes are kept |
| Framing.ReceiveAll | NetworkLibrary/CNetServer/CNetServer/CNetServer.cpp:366-453 | what was sent is what is delivered, however the stream is split into receives, and at least 597 bytes stay free for the next one |
| ChatWorld.HandleSound | ChatServer_SingleThread/ChatServer_SingleThread/ChatServer.cpp:339-354 | every job keeps the sector index, its back-indices, the login of seated players and the account map in order, and adds or removes exactly its session |
| ChatWorld.AcceptSound | ChatServer_SingleThread/ChatServer_SingleThread/ChatServer.cpp:81-86 | an accept makes a player who is nowhere, not logged in and not leaving, changes nothing else, and keeps the index right exactly if nothing refers to a player it replaces |
| ChatWorld.TimeOutWorks | ChatServer_SingleThread/ChatServer_SingleThread/ChatServer.cpp:114-123 | every player who is late is leaving afterwards, those who were not leaving before are disconnected once, and nothing else happens |
| ChatWorld.TimeOutSound | ChatServer_SingleThread/ChatServer_SingleThread/ChatServer.cpp:114-123 | timeouts keep everything right and end no session |
| ChatWorld.VacateSound | ChatServer_SingleThread/ChatServer_SingleThread/ChatServer.cpp:94-101 | swap-remove leaves everybody else where he says he is, also when the player is the last of the list |
| ChatWorld.SectorMoveSound | ChatServer_SingleThread/ChatServer_SingleThread/ChatServer.cpp:198-248 | so does a move, also into the sector the player is in |
| ChatWorld.ReleaseSound | ChatServer_SingleThread/ChatServer_SingleThread/ChatServer.cpp:88-112 | a release leaves no sector entry and no account entry of the player behind |
| ChatWorld.ReleaseWorks | ChatServer_SingleThread/ChatServer_SingleThread/ChatServer.cpp:88-112 | a release removes this player and his account entry only, sends nothing, and changes nothing of the others but their index |
| ChatWorld.LoginSound | ChatServer_SingleThread/ChatServer_SingleThread/ChatServer.cpp:157-196 | after a login every account entry is a logged-in player with that account |
| ChatWorld.BroadcastReachesNeighbours | ChatServer_SingleThread/ChatServer_SingleThread/ChatServer.cpp:286-300 | a message goes to each player at most one sector away in each direction once, the sender included, and to no other |
| ChatRequests.LoginWorks | ChatServer_SingleThread/ChatServer_SingleThread/ChatServer.cpp:157-196 | a login sets account and names as sent, is answered first, takes the account over, and disconnects exactly the player who had it, unless he is being disconnected already; nothing else is sent |
| ChatRequests.MoveWorks | ChatServer_SingleThread/ChatServer_SingleThread/ChatServer.cpp:198-248 | a move puts the player at the end of the sector asked for, moves nobody else to another sector, changes nothing else of any player, and answers with the new coordinates |
| ChatRequests.TalkWorks | ChatServer_SingleThread/ChatServer_SingleThread/ChatServer.cpp:250-303 | after a message of a seated player exactly one copy of it more is on its way to each player near him, and to nobody else, with his names and the text as sent; nothing else is sent or changed |
| ChatRequests.SendsReach | ChatServer_SingleThread/ChatServer_SingleThread/ChatServer.cpp:291-300 | each target of a broadcast is sent the payload as often as it is in the list, and nobody else is sent anything |
| ChatRequests.LoginAnswerIsRead | ChatServer_SingleThread/ChatServer_SingleThread/ChatServer.cpp:310-313 | a client reads type 2, the status and the account back from the 11 bytes of the answer to a login |
| ChatRequests.MoveAnswerIsRead | ChatServer_SingleThread/ChatServer_SingleThread/ChatServer.cpp:315-318 | a client reads type 4, the account and both coordinates back from the 14 bytes of the answer |
| ChatRequests.MessageIsRead | ChatServer_SingleThread/ChatServer_SingleThread/ChatServer.cpp:320-327 | a client reads type 6, sender, names and text back from a message of 92 bytes and the text, at most 1116 |
| ChatRequests.BreaksIff | ChatServer_SingleThread/ChatServer_SingleThread/ChatServer.cpp:126-274 | a packet breaks into the debugger exactly if it is a well-sized move or message of a logged-in player with a foreign account number; any other bytes do not |
| ChatRequests.RefusedIff | ChatServer_SingleThread/ChatServer_SingleThread/ChatServer.cpp:126-281 | exactly which packets get their sender disconnected: a second login, a wrong size, a move or message of a player who is not logged in or, for a message, not seated, a sector off the map, a wrong text length, an unknown type; and nothing else comes of them |
| ChatRequests.NothingHappens | ChatServer_SingleThread/ChatServer_SingleThread/ChatServer.cpp:126-155 | a heartbeat changes nothing, and neither does any packet of a session that is unknown or being disconnected |
| ChatExamples.ForgedMoveBreaks | ChatServer_SingleThread/ChatServer_SingleThread/ChatServer.cpp:211-218 | accept, login and a move with a foreign account number: an orderly run that breaks |
| ChatRuns.JobsTheorem | ChatServer_SingleThread/ChatServer_SingleThread/ChatServer.cpp:31-48 | after every orderly run of jobs, with timeouts between them, the index is right and the session map is exactly the accepted and unreleased sessions |
| ChatRuns.JobsFindPlayers | ChatServer_SingleThread/ChatServer_SingleThread/ChatServer.cpp:356-362 | every receive and release finds its player, every accept a free session |
| ChatRuns.TimeoutsReach | ChatServer_SingleThread/ChatServer_SingleThread/ChatServer.cpp:46-51 | a timeout in a run disconnects exactly the players who are late and are not being disconnected already |
| ChatRuns.ServerKeepsPlayersInOrder | ChatServer_SingleThread/ChatServer_SingleThread/ChatServer.cpp:61-112 | the same for the jobs of every reachable state of the server |
| ChatAccounts.ReleaseKeepsKnownIff | ChatServer_SingleThread/ChatServer_SingleThread/ChatServer.cpp:103-108 | a release keeps every active player in the account map exactly when the entry it erases is not another active player's |
| ChatAccounts.EntriesTheorem | ChatServer_SingleThread/ChatServer_SingleThread/ChatServer.cpp:103-108 | the account map knows every active player all through a run exactly when no release erases another active player's entry |
| ChatAccounts.LoginKeepsOneIff | ChatServer_SingleThread/ChatServer_SingleThread/ChatServer.cpp:191-195 | a login keeps one active player per account exactly when the account has no other active player whom the map does not name |
| ChatAccounts.AccountsTheorem | ChatServer_SingleThread/ChatServer_SingleThread/ChatServer.cpp:191-195 | every account has one active player all through a run exactly when no login of the run finds another active player of its account whom the map does not name |
| ChatExamples.TwoPlayersOneAccount | ChatServer_SingleThread/ChatServer_SingleThread/ChatServer.cpp:103-108 | an orderly run after which one account has two active players |
| ChatServers.ChatServer.ProcessAccept | ChatServer_SingleThread/ChatServer_SingleThread/ChatServer.cpp:81-86 | a new player takes the place of the session, and the server stays in order exactly if no sector and no account refers to a player whom he replaces |
| ChatServers.ChatServer.ProcessRelease | ChatServer_SingleThread/ChatServer_SingleThread/ChatServer.cpp:88-112 | the maps and objects after the call are those of the specification, with swap-remove in place and the player gone from all three indices |
| ChatServers.ChatServer.CheckTimeout | ChatServer_SingleThread/ChatServer_SingleThread/ChatServer.cpp:114-123 | disconnects each player who has been quiet for too long and is not being disconnected already |
| ChatServers.ChatServer.RemoveFromSector | ChatServer_SingleThread/ChatServer_SingleThread/ChatServer.cpp:94-101 | the swap-remove on vectors and back-indices is the one of the specification |
| ChatServers.ChatServer.PacketProcLogin | ChatServer_SingleThread/ChatServer_SingleThread/ChatServer.cpp:157-196 | reads the packet, answers, and registers the account as specified |
| ChatServers.ChatServer.PacketProcSectorMove | ChatServer_SingleThread/ChatServer_SingleThread/ChatServer.cpp:198-248 | checks and moves as specified, with the response of the new sector |
| ChatServers.ChatServer.PacketProcMessage | ChatServer_SingleThread/ChatServer_SingleThread/ChatServer.cpp:250-303 | checks and broadcasts as specified |
| ChatServers.ChatServer.SendToRows | ChatServer_SingleThread/ChatServer_SingleThread/ChatServer.cpp:291-300 | the nested loops send to the specified targets in order |
| ChatServers.ResMessage | ChatServer_SingleThread/ChatServer_SingleThread/ChatServer.cpp:320-327 | the response is 92 bytes and the message, at most 1116, and nothing is cut off |
| ChatServers.ChatServer.PacketProc | ChatServer_SingleThread/ChatServer_SingleThread/ChatServer.cpp:126-155 | dispatches as specified, also for a packet too short to have a type |
| ChatServers.ChatServer.HandleJob | ChatServer_SingleThread/ChatServer_SingleThread/ChatServer.cpp:339-354 | the world after a job is the specified one, and the server stays in order, unless an accept replaces a player who is referred to |
| ContentsThread.HandleJobs | ChatServer_SingleThread/ChatServer_SingleThread/ChatServer.cpp:31-55 | after every run of jobs and timeouts the server is the specified one |

## Left out

- Packets.Packet.SetNetHeader: one encoding thread per packet; the check of the flag is not atomic, as its comment says.
- Framing.RecvProc: ends at the copy that overruns a packet; what the overwritten memory does afterwards is not modelled.
- Packets.Packet.Decode: the source does not stop there, but reads and writes outside its memory; `RecvProc` calls it only where it does not come to that.
- MemoryPool.Pool.PushChunk: the exchange succeeds at once, as it does while no other thread moves; the loop is that of `PoolLoops.WinningPush`.
- MemoryPool.Pool.PopChunk: as `MemoryPool.Pool.PushChunk`; the loop is that of `PoolLoops.WinningPop`.
- MemoryPool.Pool.Alloc: a call in place is the run in which only this thread moves; what holds when the steps of threads alternate is proved of `PoolMachine`, of whose steps the methods consist. A thread's work on its own cache between two shared operations is one step.
- MemoryPool.Pool.Free: promises nothing about the pool after a free that breaks, like `MemoryPool.Pool.Alloc` after a break.
- MemoryPool.Pool.ThreadExit: keeps the fields of the dying cache exact as it goes, which the source does not need to do, and takes a chunk off the cache before it pushes it instead of after.
- ServerTheorems.RunKeepsInv: `Session::Init` is one step; while an index is in accepting hands nobody else reads the fields it writes. Send queue and index stack are used through the atomic operations that `QueueRefinement` and `TaggedStack` prove; pool calls are atomic.
- ServerTheorems.OneSendOwner: says nothing about a session after a failed `WSASend`, whose send side stays taken until the release, as in the source.
- ChatServers.ChatServer.HandleJob: a `__debugbreak` on a wrong account number ends the run; time stamps are not kept, and whom `CheckTimeout` finds late is a parameter.
- Weak memory: volatile accesses and 64-bit CAS are sequentially consistent.
- Tags more than 2^17 writes old; `WindowIsTight` shows what would happen.
- `AcquireSession` of an ID whose index no slot has: it fails before it touches anything.
- Winsock and IOCP calls, sockets, thread creation, `Start`, `Stop`, events and console output: `WSARecv` and `WSASend` either fail at once or complete later, a completion succeeds or fails.
- The error codes that make `RecvPost` and `SendPost` break: any failure is handled as a reset.
- `CLanServer` and `EchoServer`: the same lifecycle and send protocol with a shorter header.
- The clock: which players `CheckTimeout` finds quiet for too long, and in which order, is a parameter.
- `operator=` of packets, LAN headers, `float` and `double` operators.
- `m_sessionCount`, statistics, guard words, `owner` of other object types, object construction in storage.
- Destructors of queue, stack, pool and server.
- Progress under contention: a CAS loop may lose again and again. What is claimed is that it ends when nobody interferes, that a turn in vain means that another thread got on, and that nothing is left undone when everybody is idle.
