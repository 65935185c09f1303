# Verification of the xyzdj firmware: shared heap, message protocol, Ethernet, audio and rate control

This project models the parts of the xyzdj firmware whose correctness rests on protocols and
in-place data structures, and proves what they keep.

- `HeapBlocks.dfy`, `SaeAlloc.dfy`: the boundary-tag allocator over the raw words of the memory
  shared by the three cores. `HeapBlocks` is the block list and its laws, `SaeAlloc` the class over
  an array of 32-bit words, each method of which is proved against the block list. Addresses and
  sizes are counted in words. Taking a free block whole stores NULL as the last-free hint. The hint
  is modelled as a block or NULL, the word below address 0 is a parameter, and malloc ends as `Wild`
  where the code would go on with NULL as a block; all theorems about runs hold up to there.
- `Arithmetic.dfy`: quotients, ring indexes and set sizes used by several of the models.
- `SpinLock.dfy`: the lock word under single exclusive accesses, compare-exchange on one kind of
  ARM core, load-acquire and store-exclusive on the other, exclusive load and store on SHARC.
- `MsgRing.dfy`: one 16-slot message queue, as a value and as a class.
- `IpcProtocol.dfy`, `IpcSafety.dfy`, `IpcTheorems.dfy`, `IpcRace.dfy`: the message protocol as a
  step system. Any number of tasks and one interrupt handler per core create, reference, send,
  receive and release messages; every unlocked check, lock, load, store, unlock and trigger is a
  step of its own. Every reference has a place (a queue slot, a client's variable, a call in
  progress, or lost because no callback was registered), and the 8-bit counts must agree with the
  places.
- `IpcFanout.dfy`, `IpcDelivery.dfy`, `IpcStarts.dfy`, `IpcPing.dfy`: the clients that send one message
  to several cores, or the same message again and again, run inside of that step system.
- `EtherTx.dfy`, `EtherRx.dfy`: the transmit ring and the zero-copy receive pool.
- `ClockDomain.dfy`, `RouteAudio.dfy`, `ProcessAudio.dfy`: the rendezvous of a clock domain, the
  routing of its streams, and the two together.
- `UartWriter.dfy`: the handshake of the UART writer with its interrupt handler.
- `UsbRate.dfy`: the size of the packets sent to the USB host.

`EtherTx`, `UartWriter` and `EtherRx` are classes whose methods are single steps of tasks and
interrupts. `Valid` is required and kept by every one of them, so it holds between any two steps of
any interleaving; the lemmas of the class say what it means.

Some properties do not hold of the code as it is, and the project says exactly when they do.

- The increment of a reference count checks for 255 before it takes the lock. `IpcRace` gives a run
  from the start of the system in which the count wraps; `IpcTheorems.WrapsExactly` and
  `IpcTheorems.ClientsFitRefFits` say when it does not.
- A completed frame reaches the Ethernet worker unless the mailbox is full when its event is due. The
  event is then lost for good and transmission stops: `EtherTx.TxRing.Complete`, `Drained`, `Run` and
  `EtherTx.MailboxFills`. The same goes for received frames: `EtherTx.TxRing.Received`, `Reception`.
- The SHARC answers a ping without looking whether it got a message: `IpcFanout.PingAnswer` and
  `IpcStarts.NullAnswer`; `IpcPing.PingFails` is a run from the start of the system.

The clock domain of a member is looked up and reported for in two critical sections. All members
report from SPORT interrupts, which have one priority (ARM/src/init.c:500-520), and domains are set by
tasks of the same core only, so that nothing comes between the two: a report is for the domain just
looked up. For the same reason calls of processAudio do not interleave.

`dafny verify dfyconfig.toml` checks the whole project.

## Model

| member | source | states |
|---|---|---|
| HeapBlocks.RequestWraps | ALL/src/sae/sae_alloc.c:122 | the 32-bit size computed for a request of n bytes is at least n + 8 if and only if n <= 0xFFFFFFF0, and up to there it is the unbounded one, a multiple of 8 and at most n + 15 |
| HeapBlocks.FirstFit | ALL/src/sae/sae_alloc.c:128-133 | the walk stops at the first free block that is large enough, or at the end |
| HeapBlocks.Choose | ALL/src/sae/sae_alloc.c:124-134 | the hinted block is chosen if and only if it is free and large enough; otherwise it is the first one that is, and there is none only if no block is |
| HeapBlocks.PlaceKeeps | ALL/src/sae/sae_alloc.c:135-144 | splitting the chosen block, or taking it whole, leaves aligned blocks of at least 16 bytes that tile the heap, no two neighbours free |
| HeapBlocks.MergedSpan | ALL/src/sae/sae_alloc.c:154-174 | the merged block spans exactly the freed block and its free neighbours, and what it then meets is not free |
| HeapBlocks.ReleaseKeeps | ALL/src/sae/sae_alloc.c:154-177 | two-sided coalescing keeps the tiling and leaves no two neighbours free |
| HeapBlocks.LiveDisjoint | ALL/src/sae/sae_alloc.c:114-185 | the ranges of any two live blocks are disjoint |
| HeapBlocks.MallocKeeps | ALL/src/sae/sae_alloc.c:114-152 | a successful malloc keeps the heap well formed, the hint naming a free block or NULL, and adds exactly one live block, with room for the bytes asked for and at most 15 more |
| HeapBlocks.FreeKeeps | ALL/src/sae/sae_alloc.c:154-185 | free keeps the heap well formed, the hint naming a free block or NULL even when its old block was just absorbed, and removes exactly the freed block from the live ones |
| HeapBlocks.FreeHint | ALL/src/sae/sae_alloc.c:104-112 | after free the hint names a free block at least as large as the merged one and as the block hinted before, and has moved only to a larger one |
| HeapBlocks.Canonical | ALL/src/sae/sae_alloc.c:114-185 | the live blocks alone determine the whole block list |
| HeapBlocks.MallocThenFree | ALL/src/sae/sae_alloc.c:114-185 | freeing a block straight after allocating it restores the same block list |
| HeapBlocks.InfoConserves | ALL/src/sae/sae_alloc.c:221-236 | allocated plus free bytes always equal the heap size, and every block is counted once |
| HeapBlocks.InfoMeans | ALL/src/sae/sae_alloc.c:221-236 | the allocated blocks and bytes reported are the number and the sizes of the live blocks, the free ones all others; no bytes are allocated if and only if nothing is live |
| HeapBlocks.MallocInfo | ALL/src/sae/sae_alloc.c:114-236 | a successful malloc moves the bytes of the new block from the free to the allocated ones, and counts one more |
| HeapBlocks.FreeInfo | ALL/src/sae/sae_alloc.c:154-236 | a free moves the bytes of its block back, and counts one less |
| HeapBlocks.MaxFreeIsMax | ALL/src/sae/sae_alloc.c:225-230 | the reported maximum is the size of the largest free block |
| HeapBlocks.MallocComplete | ALL/src/sae/sae_alloc.c:114-152 | malloc returns NULL if and only if it is asked for 0 bytes or the rounded request exceeds the largest free block, whatever the hint names, as long as it does not take NULL for a block; it then changes nothing |
| HeapBlocks.InitialWellFormed | ALL/src/sae/sae_alloc.c:60-102 | the heap after initialisation is well formed and has no live block |
| HeapBlocks.RunKeeps | ALL/src/sae/sae_alloc.c:60-185 | the heap is well formed after every run of malloc and free calls |
| HeapBlocks.AllFreedIsInitial | ALL/src/sae/sae_alloc.c:114-185 | every run that ends with nothing live ends with the initial single free block |
| HeapBlocks.FreeAllAnyOrder | ALL/src/sae/sae_alloc.c:154-185 | from any heap, freeing all live blocks in any order is legal and leaves one free block |
| HeapBlocks.WildReachable | ALL/src/sae/sae_alloc.c:104-152 | malloc stores NULL as the hint when it takes a block whole; some run then makes it take NULL for a block if and only if the word below address 0 reads as a free block of at least 16 bytes |
| SaeAlloc.EncodedIsIntact | ALL/src/sae/sae_alloc.c:187-208 | every heap that malloc and free produce passes the heap check |
| SaeAlloc.IntactMeans | ALL/src/sae/sae_alloc.c:187-208 | along any walk that stays in memory, the heap check succeeds if and only if the prologue is in place, every block is aligned with equal header and footer, and the epilogue is marked allocated |
| SaeAlloc.TakeEncodes | ALL/src/sae/sae_alloc.c:135-145 | the tag writes of an allocation turn memory that encodes a heap into memory that encodes the heap with the block placed, and touch no live payload |
| SaeAlloc.LeftNeighbour | ALL/src/sae/sae_alloc.c:157-158 | the word below a block is the footer of its left neighbour, or leads to the allocated prologue |
| SaeAlloc.RightNeighbour | ALL/src/sae/sae_alloc.c:159-160 | the word above a block is the header of its right neighbour, or the allocated epilogue |
| SaeAlloc.HeaderAfterMerge | ALL/src/sae/sae_alloc.c:104-112 | after a merge the hinted header still holds the old size: smaller than the merged one when that block was absorbed |
| SaeAlloc.FreeEncodes | ALL/src/sae/sae_alloc.c:154-185 | the tag writes of free turn memory that encodes a heap into memory that encodes the freed heap, and touch no live payload |
| SaeAlloc.ClientWriteKeeps | ALL/src/sae/sae_alloc.c:34-52 | a write inside of a live payload changes no tag, no hint and no other payload |
| SaeAlloc.SaeHeap.Init | ALL/src/sae/sae_alloc.c:60-102 | after initialisation the words encode one free block from the aligned start to the aligned end; a size of 0 writes nothing; the prologue, epilogue, tag and hint words are stated bit for bit |
| SaeAlloc.SaeHeap.MarkBlk | ALL/src/sae/sae_alloc.c:46-52 | both tags of the block hold its size in bytes with bit 0 set for allocated, and no other word changes |
| SaeAlloc.SaeHeap.SetLastFree | ALL/src/sae/sae_alloc.c:104-112 | the hint word is rewritten exactly under the three conditions of the code, read off the hinted header |
| SaeAlloc.SaeHeap.FirstFitWalk | ALL/src/sae/sae_alloc.c:126-134 | pointer walking finds the first block that fits, or the epilogue |
| SaeAlloc.SaeHeap.Malloc | ALL/src/sae/sae_alloc.c:114-152 | on the words: the block list and the result are those of the specification, and no live payload word changes |
| SaeAlloc.SaeHeap.Take | ALL/src/sae/sae_alloc.c:135-145 | on the words: the block is split or taken whole, and the hint becomes the rest or NULL |
| SaeAlloc.SaeHeap.Free | ALL/src/sae/sae_alloc.c:181-185 | on the words: the block list and the hint are those of the specification, and no other live payload word changes |
| SaeAlloc.SaeHeap.Coalesce | ALL/src/sae/sae_alloc.c:154-178 | on the words: from the block just marked free to the merged block list |
| SaeAlloc.SaeHeap.Merge | ALL/src/sae/sae_alloc.c:156-176 | the four cases write the tags of the merged block and nothing else |
| SaeAlloc.SaeHeap.Rehint | ALL/src/sae/sae_alloc.c:104-112 | reading the stale or live hinted header decides the hint exactly as the block list does |
| SaeAlloc.SaeHeap.CheckHeap | ALL/src/sae/sae_alloc.c:187-208 | on any words whose walk stays in memory, the result is true if and only if prologue, epilogue, alignment and all header and footer pairs are in order |
| SaeAlloc.SaeHeap.HeapInfo | ALL/src/sae/sae_alloc.c:210-241 | the check succeeds; the allocated blocks and bytes reported are those of the live blocks, and the free ones all the rest of the heap |
| SaeAlloc.SaeHeap.ClientWrite | ALL/src/sae/sae_alloc.c:34-52 | clients writing into their blocks keep the heap valid and all other payloads |
| SpinLock.StartInv | ALL/src/sae/sae.c:70-128 | at start the lock is free |
| SpinLock.DoRefines | ALL/src/sae/sae_lock.c:20-83 | every exclusive load, exclusive store, compare-exchange, plain store or lost reservation is, for the abstract lock, an acquisition of a free lock, a release by its owner, or nothing |
| SpinLock.MutualExclusion | ALL/src/sae/sae_lock.c:20-83 | over any interleaving of accesses at most one core is in the critical section, and the word is 1 exactly while one is |
| SpinLock.AcquisitionWorks | ALL/src/sae/sae_lock.c:20-74 | an undisturbed attempt takes a free lock, and never a held one |
| SpinLock.ReleaseWorks | ALL/src/sae/sae_lock.c:42-83 | an undisturbed release, by either kind of store, leaves the word 0, the core outside and the lock free |
| SpinLock.FailedStore | ALL/src/sae/sae_lock.c:62-83 | an exclusive store that fails or has lost its reservation changes neither word nor owner, so that the attempt or the release is made again |
| SpinLock.HandOver | ALL/src/sae/sae_util.c:18-34 | after a release any core that wants the lock can take it, the same one included |
| MsgRing.FullEmpty | ALL/src/sae/sae.c:201-209 | the index tests are true exactly at 15 messages and at none |
| MsgRing.WrittenHolds | ALL/src/sae/sae.c:223-225 | writing the slot at head disturbs no queued message, and moving head appends it |
| MsgRing.DroppedHolds | ALL/src/sae/sae.c:240-242 | what comes out is the oldest message not taken yet |
| MsgRing.MsgQueue.QueueMsg | ALL/src/sae/sae.c:211-232 | refused without a registered trigger or with 15 messages waiting, and then nothing changes; otherwise appended |
| MsgRing.MsgQueue.DequeueMsg | ALL/src/sae/sae.c:234-248 | takes the first waiting message, or reports an empty queue |
| IpcSafety.OthersKeep | ALL/src/sae/sae_util.c:18-34 | a step of one thread leaves what every other thread relies on between its accesses unchanged |
| IpcSafety.PreCheckKeeps | ALL/src/sae/sae.c:164-167 | the whole invariant holds after the unlocked check of the count, passed or refused |
| IpcSafety.DisableKeeps | ALL/src/sae/sae_util.c:20-21 | the whole invariant holds after the core's interrupts are disabled, which other tasks of the core may have preceded since the check |
| IpcSafety.AcquireKeeps | ALL/src/sae/sae_util.c:18-25 | the whole invariant, with the lock owner the only thread in the critical section, holds after taking a free lock |
| IpcSafety.ReleaseKeeps | ALL/src/sae/sae_util.c:27-34 | the whole invariant holds after the lock is given back and interrupts are enabled |
| IpcSafety.CreateKeeps | ALL/src/sae/sae.c:140-160 | the whole invariant holds after an allocation: one reference to a new message, or none after a failure |
| IpcSafety.StoreRefKeeps | ALL/src/sae/sae.c:172 | the whole invariant, so the agreement of counts and references, holds after the increment if the message then has at most 255 references |
| IpcSafety.StoreUnrefKeeps | ALL/src/sae/sae.c:190-191 | the whole invariant, so the agreement of counts and references, holds after the decrement; at 0 the message is about to be freed |
| IpcSafety.DisposeKeeps | ALL/src/sae/sae.c:191-193 | the whole invariant, so that nothing queued or held is a freed message, holds after the free |
| IpcSafety.RejectKeeps | ALL/src/sae/sae.c:217-229 | the whole invariant holds after a send to a core that is not ready, or whose queue is full, the reference being the client's again |
| IpcSafety.SendWriteKeeps | ALL/src/sae/sae.c:223-224 | the whole invariant, so all queue contents, holds after the slot at head is written and before head moves |
| IpcSafety.EnqueueKeeps | ALL/src/sae/sae.c:225 | the whole invariant holds after head has moved: the reference is the queue's and the wakeup is owed by the sender |
| IpcSafety.EmptyReadKeeps | ALL/src/sae/sae.c:238-245 | the whole invariant, so that no signalled message is left behind, holds after a handler's final empty read |
| IpcSafety.DequeueKeeps | ALL/src/sae/sae.c:240-242 | the whole invariant holds after the oldest message was taken out, its reference being the handler's |
| IpcSafety.RaiseKeeps | ALL/src/sae/sae_irq.c:56-68 | the whole invariant holds after the trigger is raised: the wakeup owed by the sender is now latched |
| IpcSafety.EnterHandlerKeeps | ALL/src/sae/sae_irq.c:30-37 | the whole invariant holds after the latched interrupt is taken: the handler will read its queue |
| IpcSafety.DispatchKeeps | ALL/src/sae/sae_irq.c:37-52 | the whole invariant holds after a message went to its callback, was lost without one, or is about to be released for its type |
| IpcSafety.DoKeeps | ALL/src/sae/sae.c:140-289 | every step of every thread keeps the whole invariant, as long as no count passes 255 |
| IpcTheorems.BootInv | ALL/src/sae/sae.c:70-128 | the invariant holds at start |
| IpcTheorems.Accounting | ALL/src/sae/sae.c:140-199 | the count of every live message is its occurrences in the three queues plus the references held outside of them |
| IpcTheorems.QueuedBound | ALL/src/sae/sae.c:201-232 | a queue holds at most 15 references to a message |
| IpcTheorems.ClientsFitRefFits | ALL/src/sae/sae.c:162-178 | with at most 210 references outside of the 45 queue slots, an increment cannot pass 255 |
| IpcTheorems.RunKeeps | ALL/src/sae/sae.c:140-289 | the invariant holds after every run, for any number of tasks and any interleaving |
| IpcTheorems.FreedWithLastReference | ALL/src/sae/sae.c:180-199 | whatever is queued or held is live; a live message without references is in the hands of the one call that is freeing it |
| IpcTheorems.NoLostWakeup | ALL/src/sae/sae.c:266-289 | if a queue is not empty and no sender is between enqueue and trigger, the interrupt is latched or the handler has yet to make its final empty read |
| IpcTheorems.QuiescentIsEmpty | ALL/src/sae/sae_irq.c:30-54 | when no interrupt is latched and nobody is in a call, all queues are empty |
| IpcTheorems.AlwaysWoken | ALL/src/sae/sae.c:266-289 | over any run of senders that always signal, a queue that is not empty has its interrupt latched or its handler still to read, unless a sender is about to raise the interrupt |
| IpcTheorems.EmptyReadUnmarks | ALL/src/sae/sae.c:238-245 | a handler's final empty read ends the mark that an unsignalled send left |
| IpcTheorems.OwnerCanRun | ALL/src/sae/sae_util.c:18-34 | whoever spins waits for a thread of another core, which can go on; it is the only one in the critical section |
| IpcTheorems.ErrorPathsNotTaken | ALL/src/sae/sae.c:180-185 | an unref by a holder is never refused, and raising the interrupt after a send never fails |
| IpcTheorems.CheckRefuses | ALL/src/sae/sae.c:164-167 | the unlocked check refuses if and only if the message has 255 references, and the reference is then the client's again |
| IpcTheorems.DispatchTo | ALL/src/sae/sae_irq.c:37-52 | the reference goes to the callback registered for the type, to nobody when there is none, and is released by the handler for any other type |
| IpcTheorems.Registered | ALL/src/sae/sae.c:291-305 | a callback once registered gets the messages of its type |
| IpcTheorems.CommitQueues | ALL/src/sae/sae.c:223-242 | a commit takes out the oldest message, or appends the one sent, or touches no queue |
| IpcTheorems.QueueStep | ALL/src/sae/sae.c:201-289 | one step takes out at most the oldest message and appends at most the one sent; a rejected send changes no queue |
| IpcTheorems.TakenInOrder | ALL/src/sae/sae.c:201-264 | over any run the messages a core takes out are exactly the next ones its queue accepted: in order, none twice, none skipped |
| IpcTheorems.WrapsExactly | ALL/src/sae/sae.c:162-178 | the increment keeps the invariant if and only if fewer than 255 references exist; at 255 the stored count is 0 |
| IpcRace.StockRun | ALL/src/sae/sae.c:140-178 | from the start of the system a task can get any number of references to a message up to 255 |
| IpcRace.CheckBeforeLockIsNotEnough | ALL/src/sae/sae.c:164-172 | from the start of the system there is a run in which two tasks both pass the unlocked check at 254 and the count of a message with 256 references becomes 0 |
| IpcFanout.DoFramed | ALL/src/sae/sae.c:140-289 | a step changes no other thread's program counter and none of the variables it does not name |
| IpcFanout.CheckPasses | ALL/src/sae/sae.c:164-167 | the unlocked check never refuses a client that holds a reference while the others leave room |
| IpcFanout.OwnKeeps | ALL/src/sae/sae_util.c:56-70 | each step of the sender's own calls keeps its belief about the references it holds, the failed sends included |
| IpcFanout.ForeignKeeps | ALL/src/sae/sae_util.c:56-70 | no step of anybody else changes what the sender holds |
| IpcFanout.RunBelief | ALL/src/sae/sae_util.c:36-73 | over any run the references a sender believes to hold are those it holds, and it ends with what its program adds up to |
| IpcFanout.TransientGivesUpAll | ALL/src/sae/sae_util.c:36-73 | for the broadcast, the pings of both SHARCs, the domain message and the quick messages: whichever sends fail, the sender ends with no reference, so the message is gone or being freed unless somebody else still has it |
| IpcFanout.PersistentStays | ARM/src/sharc_audio.c:24-33 | through any number of sends to any cores, failed or not, a persistent message is live with a count of at least 1 at every moment, and afterwards the sender holds its one reference |
| IpcFanout.ProgramsEndEmpty | ARM/src/main.c:394-410 | the transient senders' programs use only references they hold and add up to none |
| IpcFanout.BootStarts | ALL/src/sae/sae_util.c:36-44 | any idle task may start such a sender at boot |
| IpcFanout.PersistentFits | SHARC0/src/sharc0_main.c:188-196 | sending cyclesMsg any number of times adds a reference first each time, never goes below one, and adds up to one |
| IpcFanout.PingAnswer | SHARC0/src/sharc0_main.c:174-181 | the answer to a ping, whose allocation is not checked, goes on with NULL in exactly the runs in which the allocation fails; in all others it gives up everything it had |
| IpcDelivery.StaysAccepted | ALL/src/sae/sae.c:211-232 | what a core has accepted of a client stays accepted over any run |
| IpcDelivery.SendsReach | ALL/src/sae/sae.c:266-289 | over any run a send that is ahead stays ahead, or the core accepts the message, or refuses it because it is not registered or has 15 messages waiting, or the allocation has failed |
| IpcDelivery.Delivered | ARM/src/main.c:394-410 | a finished client has had its message accepted, or refused for one of the two reasons, by cores 1 and 2 for the pings and the domain message, by all cores for a broadcast, by its destination for a quick message, and by core 0 for the answer to a ping |
| IpcDelivery.DeliveredKept | ARM/src/sharc_audio.c:24-33 | the same for a kept message and every core that it is sent to |
| IpcStarts.NextMake | ALL/src/sae/sae.c:140-160 | from any state with the lock free and the client runnable there is a run in which its allocation succeeds, and one in which it fails |
| IpcStarts.KeptMessage | SHARC0/src/sharc0_main.c:217-222 | from boot a task comes to hold the one reference to a message of its own, from which it may send it any number of times |
| IpcStarts.NullAnswer | SHARC0/src/sharc0_main.c:174-177 | from any state in which the ping answer may be sent and the lock is free, a run leads the sender to go on with NULL |
| IpcPing.Allocates | ALL/src/sae/sae.c:140-160 | from any reachable state with the lock free a task's allocation can succeed, and then nothing changes but the new message and its one reference |
| IpcPing.Sends | ALL/src/sae/sae.c:266-289 | from any reachable state with the lock free a task's send to a registered core with room can succeed: the message is at the end of the queue, its reference the queue's, and the interrupt is latched |
| IpcPing.Receives | ALL/src/sae/sae_irq.c:30-52 | from any reachable state with the lock free a latched interrupt can lead the handler to its callback with the oldest message |
| IpcPing.PingFails | SHARC0/src/sharc0_main.c:174-177 | from the start of the system there is a run in which the SHARC's interrupt handler, at its callback for a message of the ARM core, answers and goes on with NULL |
| Arithmetic.FullEmpty | ARM/src/simple-drivers/lwip_adi_ether_netif.c:171-179 | the index tests of a ring of n slots with one unused slot are true exactly with n - 1 elements, and with none; used for the 64 transmit slots and for the 1024 bytes of the UART |
| EtherTx.ChainAppend | ARM/src/adi-drivers/ethernet/gemac/adi_gemac.c:905-951 | the buffers that the driver takes off its queue are chained in the order in which it accepted them |
| EtherTx.ChainJoin | ARM/src/simple-drivers/lwip_adi_ether_netif.c:566-572 | putting a chain behind the last buffer of the list gives one chain in order |
| EtherTx.ReportOne | ARM/src/simple-drivers/lwip_adi_ether_netif.c:535-537 | the reports are extended by the next frame exactly when it is stamped |
| EtherTx.TxRing.Check | ARM/src/simple-drivers/lwip_adi_ether_netif.c:171-179 | a frame is dropped exactly when 63 are outstanding |
| EtherTx.TxRing.Fill | ARM/src/simple-drivers/lwip_adi_ether_netif.c:181-189 | copying the payload changes no buffer that driver or worker may still read |
| EtherTx.TxRing.Prepare | ARM/src/simple-drivers/lwip_adi_ether_netif.c:195-206 | resetting and unlinking the buffer changes no flag or link that driver or worker may still read |
| EtherTx.TxRing.Submit | ARM/src/simple-drivers/lwip_adi_ether_netif.c:208-219 | a frame is accepted exactly when the link is up and the driver takes it; otherwise the slot is not used up |
| EtherTx.TxRing.StoreHead | ARM/src/simple-drivers/lwip_adi_ether_netif.c:212 | the head may move after the worker has already been past the frame |
| EtherTx.TxRing.LastInList | ARM/src/simple-drivers/lwip_adi_ether_netif.c:568-571 | walking the list ends at the last completed buffer |
| EtherTx.TxRing.Collect | ARM/src/adi-drivers/ethernet/gemac/adi_gemac.c:881-981 | the driver chains its k oldest frames, which are those accepted first, and spoils no chain that the worker or the list still has |
| EtherTx.TxRing.DriverLinks | ARM/src/adi-drivers/ethernet/gemac/adi_gemac.c:2671-2676 | whatever the driver links its own buffers with, no link that the worker may read changes |
| EtherTx.TxRing.Link | ARM/src/simple-drivers/lwip_adi_ether_netif.c:566-576 | the chain handed over goes behind the list, or becomes the list and an event is posted |
| EtherTx.TxRing.Complete | ARM/src/simple-drivers/lwip_adi_ether_netif.c:562-577 | any number of finished frames is handed over at once; what went out are the frames that were accepted, in order; the event is lost if and only if the list was empty and 20 other events are waiting |
| EtherTx.TxRing.Report | ARM/src/simple-drivers/lwip_adi_ether_netif.c:535-537 | the callback gets the accepted frame, exactly for stamped ones |
| EtherTx.TxRing.ReadNext | ARM/src/simple-drivers/lwip_adi_ether_netif.c:542 | pNext, read after the tail has moved, still leads to the next buffer of the list |
| EtherTx.TxRing.TargetFree | ARM/src/simple-drivers/lwip_adi_ether_netif.c:171-206 | the producer's target is no slot of a frame in flight, not the worker's buffer, and never the slot before the tail |
| EtherTx.TxRing.Drained | ARM/src/simple-drivers/lwip_adi_ether_netif.c:528-544 | everything accepted is out, the worker waits and no event is for it: all frames have been processed, once and in order, if and only if no event was ever lost |
| EtherTx.TxRing.LostMeans | ARM/src/simple-drivers/lwip_adi_ether_netif.c:566-576 | once an event is lost none is waiting or being handled, though the list is not empty |
| EtherTx.TxRing.Run | ARM/src/simple-drivers/lwip_adi_ether_netif.c:488-577 | over any number of steps of anybody in any order, accepted frames and reports are only added to; once an event is lost the worker takes nothing over any more, so that at most 63 more frames than it had taken are ever accepted; once a receive event is lost it is never told of a received frame again |
| EtherTx.TxRing.Received | ARM/src/simple-drivers/lwip_adi_ether_netif.c:579-590 | a reception extends the list of received buffers or starts it and posts an event, which is lost if and only if it is due and 20 events are waiting |
| EtherTx.TxRing.Reception | ARM/src/simple-drivers/lwip_adi_ether_netif.c:508-514 | frames are in the list of received buffers if and only if the worker has been told and is yet to take them, or an event was lost, and then none is waiting or being handled |
| EtherTx.TxRing.Send | ARM/src/simple-drivers/lwip_adi_ether_netif.c:171-221 | one undisturbed call is accepted if and only if the ring is not full, the link is up and the driver takes the frame; it is then the last accepted one |
| EtherTx.MailboxFills | ARM/src/simple-drivers/lwip_adi_ether_netif.c:576-600 | 20 link interrupts while the worker is at a received frame, and then a first completed and a next received frame, lose both events |
| EtherRx.BusyBound | ARM/src/simple-drivers/lwip_adi_ether_netif.c:366-368 | busy containers never outnumber the buffers outside of the driver |
| EtherRx.FreeContainer | ARM/src/simple-drivers/lwip_adi_ether_netif.c:366-374 | while a buffer is with anybody but a container, some container is free |
| EtherRx.RxPool.Detach | ARM/src/simple-drivers/lwip_adi_ether_netif.c:94-99 | the container is free before its buffer goes back |
| EtherRx.RxPool.PbufFree | ARM/src/simple-drivers/lwip_adi_ether_netif.c:91-104 | freeing a pbuf frees its container and returns its own buffer |
| EtherRx.RxPool.ScanStep | ARM/src/simple-drivers/lwip_adi_ether_netif.c:369-374 | each round comes one step closer to a free container |
| EtherRx.RxPool.Scan | ARM/src/simple-drivers/lwip_adi_ether_netif.c:369-374 | the scan has no bound but ends within 128 rounds, with both halves of frees, 1722 buffers coming back and receptions by other threads between any two of them |
| EtherRx.RxPool.LwipRxFrame | ARM/src/simple-drivers/lwip_adi_ether_netif.c:354-395 | the frame ends up attached to its container, the leaking path without memory included, or freed when lwIP refuses it; the pool stays consistent |
| EtherRx.RxPool.HandleFrame | ARM/src/simple-drivers/lwip_adi_ether_netif.c:514-526 | the worker is rid of every frame it handles: stamped frames go back to the driver, 1722 frames to their callback, or nowhere without one, the others to lwIP, and only these take a container |
| ClockDomain.ReadyMeansAll | ARM/src/clock_domain.c:97-108 | a domain is ready if and only if every one of its members is active |
| ClockDomain.DisjointKept | ARM/src/clock_domain.c:41-108 | no call puts a member into two domains |
| ClockDomain.TidyKept | ARM/src/clock_domain.c:41-108 | one call keeps activity within the masks if and only if it is no report for a domain that a member is not attached to |
| ClockDomain.FiringStep | ARM/src/clock_domain.c:69-108 | a firing uses up a report of every member |
| ClockDomain.FiringsBounded | ARM/src/clock_domain.c:41-108 | over any run, for a member attached throughout, firings plus its active bit never exceed its reports plus its initial active bit |
| ClockDomain.RunDisjoint | ARM/src/clock_domain.c:41-108 | masks stay disjoint over any run |
| ClockDomain.RunTidy | ARM/src/clock_domain.c:41-108 | activity stays within the masks in every state of every run in which members look up their domain before they report |
| ClockDomain.RunFromStart | ARM/src/clock_domain.c:41-108 | from the zero state, masks are disjoint and only members are active, throughout every such run |
| ClockDomain.OneDomain | ARM/src/clock_domain.c:56-67 | a member is in at most one domain |
| ClockDomain.Membership | ARM/src/clock_domain.c:41-54 | setting a domain attaches exactly the given members to it and detaches them from all others; no other call changes who is attached |
| ClockDomain.Activity | ARM/src/clock_domain.c:41-108 | a member becomes active by its report only, and inactive only when cleared, attached to another domain, or when its domain fires |
| ClockDomain.SetThenGet | ARM/src/clock_domain.c:41-67 | whoever was set to a domain is found there by the look-up, and all others where they were |
| ClockDomain.ClockDomains.Set | ARM/src/clock_domain.c:41-54 | exactly the given members are attached to the given domain and detached everywhere else, and the look-up finds them there; activity is that of `ClockDomain.Activity` |
| ClockDomain.ClockDomains.Get | ARM/src/clock_domain.c:56-67 | the domain of a member, or MAX if it has none |
| ClockDomain.ClockDomains.GetActive | ARM/src/clock_domain.c:83-95 | a member active for a domain belongs to it and is active for no other, while activity is within disjoint masks |
| ClockDomain.ClockDomains.TakeReady | ARM/src/clock_domain.c:97-108 | true, with everybody inactive again, exactly when all members had reported |
| ClockDomain.ClockDomains.ReportTo | ARM/src/process_audio.c:203-204 | a member's report makes it active in its own domain, and keeps activity within the masks |
| RouteAudio.MixCommutes | ARM/src/process_audio.c:128-133 | two contributions to a 16- or 32-bit cell may come in either order, wrap-around included |
| RouteAudio.CellInStream | ARM/src/process_audio.c:109-111 | frame and channel determine a cell inside of the stream, and are determined by it |
| RouteAudio.SampleBySample | ARM/src/process_audio.c:106-145 | when source and sink do not overlap, every cell in the route's range gets the attenuated source sample of its frame and channel, silence beyond the source, and every other cell keeps its value |
| RouteAudio.Untouched | ARM/src/process_audio.c:115-145 | whatever overlaps, cells outside of the routed channels keep their values |
| RouteAudio.AfterCell | ARM/src/process_audio.c:60-146 | one route's effect on any cell of memory |
| RouteAudio.Delivered | ARM/src/process_audio.c:64-139 | with two streams of the domain that have data and fit together: without attenuation and mix the sink gets the sample of the same frame and channel, the same for equal word sizes, times 65536 from 16 to 32 bits, divided by 65536 and rounded down from 32 to 16 bits, and silence beyond the channels of the source |
| RouteAudio.SixDecibels | ARM/src/process_audio.c:104-124 | each further 6 dB of attenuation halve what is written, rounded down |
| RouteAudio.MixAdds | ARM/src/process_audio.c:125-133 | a mix adds what would have been written, modulo 2^16 or 2^32, and stays in the range of the word |
| RouteAudio.OtherDomainsKept | ARM/src/process_audio.c:64-145 | a firing changes no cell outside of the streams of its domain that have data |
| RouteAudio.Skipped | ARM/src/process_audio.c:64-98 | a route does nothing with an unknown stream, one without data or of another domain, different frame counts, other word sizes, or an offset beyond the channels |
| RouteAudio.TwoRoutes | ARM/src/process_audio.c:60-146 | two routes that read no sink and mix where they meet commute |
| RouteAudio.OrderDoesNotMatter | ARM/src/process_audio.c:60-146 | if no source overlaps a sink and routes that meet all mix, every order of the routes gives the same memory |
| RouteAudio.Router.SetStreamInfo | ARM/src/process_audio.c:163-176 | a registration replaces the stream's entry and is new |
| RouteAudio.Router.RouteOne | ARM/src/process_audio.c:106-145 | the two loops perform the route's turns in order, in bounds, for overlapping streams too |
| RouteAudio.Router.RunRoutes | ARM/src/process_audio.c:60-146 | the table of routes is run in order, those that fail a check skipped |
| RouteAudio.Router.Invalidate | ARM/src/process_audio.c:148-160 | exactly the registered streams of the domain are dropped |
| RouteAudio.Router.RouteDomain | ARM/src/process_audio.c:43-161 | memory is that of all routes in order; no registration is used that an earlier firing has used, and none of the domain is left; streams of other domains stay as they are |
| ProcessAudio.LastReport | ARM/src/process_audio.c:203-204 | with a member's report the domain is ready if and only if all others had reported |
| ProcessAudio.Rendezvous | ARM/src/process_audio.c:329-330 | the domain fires if and only if all other members were active at the report, and its members are then inactive; otherwise the report is all that changes |
| ProcessAudio.Process | ARM/src/process_audio.c:191-348 | the domain's routes run if and only if all other members had reported before; otherwise the report and the registration are all that changes; no other domain's activity changes |
| UartWriter.TxPort.CheckFull | ARM/src/simple-drivers/uart_simple.c:352-357 | full exactly at 1023 bytes, and then a transmission is under way |
| UartWriter.TxPort.Wake | ARM/src/simple-drivers/uart_simple.c:358-363 | a writer that was given the semaphore finds a free slot |
| UartWriter.TxPort.StoreByte | ARM/src/simple-drivers/uart_simple.c:370-374 | the next byte of the caller is appended |
| UartWriter.TxPort.Kick | ARM/src/simple-drivers/uart_simple.c:380-385 | a call ends with the transmitter on |
| UartWriter.TxPort.TxInterrupt | ARM/src/simple-drivers/uart_simple.c:231-248 | sends the oldest byte and wakes a sleeper, or turns the transmitter off when there is none |
| UartWriter.TxPort.AtMostThisCall | ARM/src/simple-drivers/uart_simple.c:349-385 | while nobody transmits, the ring holds at most what the current call has pushed, so at most 255 bytes |
| UartWriter.TxPort.SleeperWillWake | ARM/src/simple-drivers/uart_simple.c:352-363 | a sleeping writer has been given the semaphore, or the transmitter is on with bytes to send |
| UartWriter.TxPort.AllSent | ARM/src/simple-drivers/uart_simple.c:158-176 | what has been sent is a prefix of what was pushed; an idle port that does not transmit has sent everything |
| UartWriter.TxPort.Write | ARM/src/simple-drivers/uart_simple.c:333-395 | with interrupts between any two steps the call returns and has pushed exactly the caller's bytes, in order |
| UsbRate.FewAdjustments | ARM/src/usb_audio.c:188-202 | one frame every n / e packets is fewer than 2e frames in n packets |
| UsbRate.NoOvershoot | ARM/src/usb_audio.c:183-202 | over at most one second of packets the frames added or removed are strictly fewer than the measured difference |
| UsbRate.WhenAdjusted | ARM/src/usb_audio.c:183-195 | packets grow for a ring that is too full and shrink for one that is too empty, exactly when the difference is at least two frames and half of it fits into one second of packets |
| UsbRate.HalfTakenBack | ARM/src/usb_audio.c:179-195 | over a whole second of packets at least half of the measured difference is taken back |
| UsbRate.InEndpoint.Measure | ARM/src/usb_audio.c:179-195 | the threshold and the sign are those for half of the measured difference, and the count starts anew |
| UsbRate.InEndpoint.Tx | ARM/src/usb_audio.c:136-212 | every packet is nominal or one frame off, within minSize and maxSize; adjustments are due exactly with every threshold-th packet, never go against the measured difference, sum to less than it within a second, and take back at least half of it in a whole second |

## Left out

- IpcTheorems.RunKeeps: holds for runs in which every message has at most 210 references outside of the queues; the code has no such limit, and `IpcTheorems.WrapsExactly` says what happens at 255.
- IpcFanout.TransientGivesUpAll: the other clients leave room for four more references to every message, since these senders ignore a refused reference. The SHARC's answer to a ping is not among them, see `IpcFanout.PingAnswer`.
- IpcFanout.RunBelief: the other clients leave room for four more references to every message, as for `IpcFanout.TransientGivesUpAll`.
- IpcFanout.PersistentStays: the other clients leave room for four more references to every message, as for `IpcFanout.TransientGivesUpAll`.
- IpcFanout.PingAnswer: the other clients leave room for four more references to every message, as for `IpcFanout.TransientGivesUpAll`; whether the allocation fails is a free choice of each run.
- IpcDelivery.SendsReach: the other clients leave room for four more references to every message, as for `IpcFanout.TransientGivesUpAll`; so do those of `IpcDelivery.Delivered` and `IpcDelivery.DeliveredKept`.
- IpcDelivery.Delivered: says that the message is accepted at least once, not how often a core gets it when a program sends to it twice.
- IpcTheorems.AlwaysWoken: runs with at most 210 references to a message outside of the queues, as for `IpcTheorems.RunKeeps`.
- RouteAudio.Delivered: source and sink do not overlap, and the source's cells hold values of its word size, as memory of that type does; so for `RouteAudio.SixDecibels` and `RouteAudio.MixAdds`.
- SaeAlloc.IntactMeans: walks that stay inside of the memory, as for `SaeAlloc.SaeHeap.CheckHeap`.
- HeapBlocks.MallocKeeps: requests above 0xFFFFFFF0 bytes, whose size wraps, are not legal operations; `HeapBlocks.RequestWraps` gives the exact limit.
- HeapBlocks.RunKeeps: runs stop at the first malloc that takes NULL for a block, since what the code then writes around address 0 is outside of the heap; `HeapBlocks.WildReachable` says when that can happen.
- SaeAlloc.SaeHeap.Init: memory that leaves less than 16 bytes after trimming is not modelled; the code would write its tags over each other.
- SaeAlloc.SaeHeap.Malloc: ends as `Wild` where the code would write tags around NULL, see above; the heap ends below 2^32, as an end pointer of 32 bits does.
- SaeAlloc.SaeHeap.CheckHeap: words whose sizes lead out of the memory are not modelled; the code would read there.
- RouteAudio.Router.RouteDomain: cells hold one sample each, so streams of different word sizes do not overlap; channel counts are such that offset plus count fits into 32 bits, which the shell command that sets them ensures.
- ClockDomain.ClockDomains.ReportTo: for members attached to a domain; with none, the code indexes the arrays with CLOCK_DOMAIN_MAX.
- ProcessAudio.Process: sources and sinks without a clock of their own, which the code serves between registration and rendezvous, are left out; they report and register in the same way.
- UsbRate.InEndpoint.Tx: minSize and maxSize are one frame below and above the nominal size, as the soundcard service defines them; the contents of packets, and reads of a ring that holds fewer frames than an enlarged packet, are not modelled.
- Messages: type, payload and srcCoreIdx; the type is set at creation. Sends without a signal occur in the step system but have no client here.
- The mask expressions of tags and ring indexes are written as division and remainder.
- Nested critical sections: leaving one always enables interrupts of the core again.
- Fairness: that a core with a free lock eventually takes it, and that latched interrupts are eventually served.
- Ethernet: `adi_ether_Read` may refuse a buffer, which is then lost; the EMAC driver itself is not part of this model. It is taken to finish frames in the order in which it accepted them, and hands over any number of them at once, chained, as process_int in adi_gemac.c does.
- Ethernet: what lwIP, PTP and the 1722 stack do with a frame, the links between received buffers (the model knows only whether there are any), and frame lengths.
- Audio: the WAV, RTP, VBAN, USB and VU meter streams; cache flushes; a shift of 32 bits or more, which C leaves open and which here fills with the sign.
- The ping/pong index of xferSharcAudio and the stream table of the SHARC cores: easy beside the reference counts of their messages.
- UART: reception and `uart_read`, and interrupts between incrementing a ring index and wrapping it.
- SHARC1, which differs from SHARC0 in identifiers only; `uart_simple_cdc.c`, SD card and flash drivers, shell, A2B, FFT and meters.
