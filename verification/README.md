# Lock-free queues, rings and pools of the prototype-kernel tree

A Dafny model of the concurrent data structures in the vendored prototype-kernel tree, and proofs of
what they promise.

* `WfcQueue`, `WfcQueueInv`, `WfcQueueTheorems`: the linked queue with wait-free enqueue. The tail is
  exchanged first and the link stored later, so that in between the list is broken; the missing links
  are kept in the history map `pend`. `WfcQueueCalls`: whole calls, and wait-freedom.
* `Mpmc`, `MpmcInv`, `MpmcTheorems`: the bounded ring with many producers and consumers that `alf_queue`
  and `ring_queue` share. They differ in one constant, the slot that a ring queue keeps free. Unbounded
  counters stand beside the wrapping u32 indices. `MpmcCalls`: whole calls. `MpmcZeroLength`: what an
  operation on no elements, which these proofs exclude, does to the ring.
* `Calls`: when a call takes effect exactly once between its beginning and its return, at one step of its
  thread or at two, for any machine; `WfcQueueCalls`, `MpmcCalls`, `PtrRingCalls` and `QmemPoolCalls` use it.
* `RingCopy`: the copies between a table and the ring, all variants, against the masked loop.
* `AlfQueue` (module `AlfQueues`), `RingQueue` (module `RingQueues`): the two queues as classes over the
  real array and indices, for calls that nobody else disturbs: contents, return codes, counts, watermark.
* `PtrRing`, `PtrRingResize` (module `PtrRings`): the ring whose full and empty tests look for NULL, as
  a step machine with its two locks, and as a class with resize and cleanup. `PtrRingCalls`: whole calls.
* `QmemPool` (module `QmemPools`), `QmemPoolSteps`: the allocator cache, as a class over the queue class,
  and as a step machine in which the CPUs interleave. `QmemPoolCalls`: whole calls of that machine;
  `QmemPoolAlone`: it does the same as the class when nobody interrupts.
* `ConcurrencyTest`: the serial-number check as a closed system over the `Mpmc` machine.
* `Barrier`: the two-phase barrier of the slab test with the remote-free test as its work, and the
  one-phase barrier of the benchmark library.
* `XdpFilter`: the blacklist filter, its parser and its counters. `ObjHash` (module `ObjHashes`): the
  object hash of the bulk benchmark and the benchmark's rounds.
* `Words`, `Sums`, `Options`, `Runs`: u32 arithmetic and masks, sums, absent values, and induction over
  the runs of a machine.

Step machines take one access to shared memory per step, in any order the scheduler likes, under
sequential consistency. Their states are values; fields listed under "history" are read by no step.
`X.Reachable(s, n)` says that `s` is reached after `n` steps.

## Model

Lemmas that require `Inv(s)` speak of every reachable state, by the module's `ReachableInv`.

| member | source | states |
|---|---|---|
| `WfcQueueInv.ReachableInv` | DOC/netoptimizer-prototype-kernel/kernel/include/linux/wfc_queue.h:135-404 | every reachable state, with any number of threads and queues and any interleaving the synchronization table permits, satisfies the invariant the rows below use: stored and pending links form one chain per queue, every node has one home, every append in flight still owns exactly its missing link |
| `WfcQueueTheorems.OneChain` | DOC/netoptimizer-prototype-kernel/kernel/include/linux/wfc_queue.h:149-188 | the stored links plus the links that appends have yet to store are exactly one duplicate-free chain from the head (or from the remover that holds the head's link) to tail.p |
| `WfcQueueTheorems.Fifo` | DOC/netoptimizer-prototype-kernel/kernel/include/linux/wfc_queue.h:300-347 | the nodes taken out of a queue are, in order, a prefix of the nodes whose tail exchange put them in; the rest is what the queue holds |
| `WfcQueueTheorems.DequeueReturns` | DOC/netoptimizer-prototype-kernel/kernel/include/linux/wfc_queue.h:308-347 | NULL only from an empty queue and with nothing changed; otherwise the oldest node, now private to the caller, other queues untouched, and no thread left with a store to its link, on the cmpxchg path and on the wait-for-next path |
| `WfcQueueTheorems.AppendReturns` | DOC/netoptimizer-prototype-kernel/kernel/include/linux/wfc_queue.h:149-204 | step by step: the node is initialised and goes on, alone, to the queue it was called for; the chunk becomes the end of that queue at the exchange of the tail; and the returned value is false exactly when the queue was empty at that exchange, however late the link is stored |
| `WfcQueueTheorems.SpliceReturns` | DOC/netoptimizer-prototype-kernel/kernel/include/linux/wfc_queue.h:359-404 | SRC_EMPTY only from an empty source with nothing changed; otherwise the splice stays on its two queues until, at the exchange of the source's tail, the whole source leaves as one private chain on its way to the destination |
| `WfcQueueTheorems.SpliceMovesAll` | DOC/netoptimizer-prototype-kernel/kernel/include/linux/wfc_queue.h:394-403 | whatever other threads do to both queues between the two exchanges, everything in the source at the first is appended, in order, to the destination at the second, and DEST_EMPTY means that the destination was empty then |
| `WfcQueueTheorems.IterationReturns` | DOC/netoptimizer-prototype-kernel/kernel/include/linux/wfc_queue.h:246-297 | first and next walk the nodes of the queue in order and return NULL only past the last one, with enqueuers at work |
| `WfcQueueTheorems.PrivateUntouched` | DOC/netoptimizer-prototype-kernel/kernel/include/linux/wfc_queue.h:304-347 | no thread's next access reads or writes the link of a node that another thread owns |
| `WfcQueueTheorems.ReuseIsInvisible` | DOC/netoptimizer-prototype-kernel/kernel/include/linux/wfc_queue.h:304-347 | whatever the owner of a dequeued node writes into it, the next step of every other thread does the same with and without that write, and leaves it standing: the node can be reused at once |
| `WfcQueueTheorems.OneHome` | DOC/netoptimizer-prototype-kernel/kernel/include/linux/wfc_queue.h:359-404 | a node is in one slot of one queue, or in one append in flight, or with one owner; never two of these |
| `WfcQueueTheorems.WaitsForAppend` | DOC/netoptimizer-prototype-kernel/kernel/include/linux/wfc_queue.h:217-229 | a thread that busy-waits for a link waits for one append between its two accesses, whose next access stores that link |
| `WfcQueueTheorems.SpliceWaits` | DOC/netoptimizer-prototype-kernel/kernel/include/linux/wfc_queue.h:374-386 | a splice loops on an empty head with a non-empty tail only while an append is about to link the head or another splice is about to take the whole source |
| `WfcQueueCalls.StepsKeepCalls` | DOC/netoptimizer-prototype-kernel/kernel/include/linux/wfc_queue.h:149-404 | every step of every thread in every reachable state: a step inside a call is the effect of that call, on the queues and node it was called with, or changes no queue; a step outside begins the call it names; no step touches another thread's call |
| `WfcQueueCalls.EnqueueCall` | DOC/netoptimizer-prototype-kernel/kernel/include/linux/wfc_queue.h:199-204 | a whole call, from its beginning to its return and whatever others do: one step of it puts the node it was called with, and nothing else, at the end of the queue it was called with, and it returns whether that queue was non-empty then |
| `WfcQueueCalls.DequeueCall` | DOC/netoptimizer-prototype-kernel/kernel/include/linux/wfc_queue.h:308-347 | a whole call: one step of it takes the first node of the queue it was called with, which is returned free to reuse, or the queue was empty at that step and NULL is returned |
| `WfcQueueCalls.SpliceCall` | DOC/netoptimizer-prototype-kernel/kernel/include/linux/wfc_queue.h:359-404 | a whole call: everything in the source of the call leaves it at one step and goes, in order, to the end of the destination of the call at another, with the code for the destination as it was then; or the source was empty, nothing is done and SRC_EMPTY is returned |
| `WfcQueueCalls.StepsBringNearer` | DOC/netoptimizer-prototype-kernel/kernel/include/linux/wfc_queue.h:217-404 | every step of a call lowers a bound on the steps to its return, except that a thread whose awaited link is missing waits for an append about to store it, and that a splice tries again on a non-empty source whose head has no link; a dequeue of an empty queue does neither, so that it returns |
| `WfcQueueCalls.EnqueueIsWaitFree` | DOC/netoptimizer-prototype-kernel/kernel/include/linux/wfc_queue.h:149-204 | an enqueue, the initialisation of its node included, is three accesses of its thread, in every interleaving |
| `WfcQueueCalls.TableIs` | DOC/netoptimizer-prototype-kernel/kernel/include/linux/wfc_queue.h:42-69 | the roles that exclude each other on one queue are those marked in the synchronization table |
| `MpmcInv.ReachableInv` | DOC/netoptimizer-prototype-kernel/kernel/include/linux/alf_queue.h:62-141 | with any number of producers and consumers interleaving access by access, every reachable state satisfies the invariant the rows below use |
| `MpmcTheorems.IndicesOrdered` | DOC/netoptimizer-prototype-kernel/kernel/include/linux/alf_queue.h:62-141 | the u32 indices are unbounded counters modulo 2^32 with c.tail <= c.head <= p.tail <= p.head <= c.tail + capacity (size for alf, size - 1 for ring_queue), and the wrapping subtractions give the true distances |
| `MpmcTheorems.ReservationsPartition` | DOC/netoptimizer-prototype-kernel/kernel/include/linux/alf_queue.h:68-97 | an index lies between p.tail and p.head exactly when it is in the reservation of one, and only one, producer in flight; likewise for c.tail, c.head and consumers |
| `MpmcTheorems.SlotsExclusive` | DOC/netoptimizer-prototype-kernel/kernel/include/linux/alf_queue.h:84-127 | two threads never have their next access to the array at the same slot, whichever sides they are on |
| `MpmcTheorems.Fifo` | DOC/netoptimizer-prototype-kernel/kernel/include/linux/alf_queue.h:100-141 | the bulks delivered, concatenated in the order of the exchanges of consumer.head, are a prefix of the bulks enqueued, concatenated in the order of the exchanges of producer.head |
| `MpmcTheorems.DequeueDelivers` | DOC/netoptimizer-prototype-kernel/kernel/include/linux/alf_queue.h:123-140 | the bulk a dequeue returns is non-empty and is exactly what was enqueued at the indices it had claimed |
| `MpmcTheorems.EnqueuePublishes` | DOC/netoptimizer-prototype-kernel/kernel/include/linux/alf_queue.h:84-97 | an enqueue reports its number of elements; they stand in their slots and in their place in the enqueue order, and its last store makes all of them visible at once, in the order of the reservations |
| `MpmcTheorems.EnqueueRefused` | DOC/netoptimizer-prototype-kernel/kernel/include/linux/ring_queue.h:242-262 | wherever the free space is exact (see FreeExactIff), the load of cons.tail either leads back to the caller, with nothing but the refusal changed, and then reserved and unreleased slots plus n exceeded the capacity (VARIABLE: nothing was free); or on to the reservation of all n, or of as many as there was room for in VARIABLE mode |
| `MpmcTheorems.DequeueRefused` | DOC/netoptimizer-prototype-kernel/kernel/include/linux/ring_queue.h:364-383 | the load of prod.tail either leads back to the caller, with nothing but the refusal changed, and then fewer unclaimed elements were published than it needs (none, for alf and VARIABLE); or on to the claim of min(n, available) |
| `MpmcTheorems.FreeExactIff` | DOC/netoptimizer-prototype-kernel/kernel/include/linux/alf_queue.h:73-75 | the wrapped free space equals the true one exactly when the true one, with everything enqueued after the load of the head, is below 2^32 |
| `MpmcTheorems.CasConfusedIff` | DOC/netoptimizer-prototype-kernel/kernel/include/linux/alf_queue.h:79 | cmpxchg mistakes a head that has moved for one that has not exactly when it has moved by a multiple of 2^32 |
| `MpmcTheorems.StepMakesProgress` | DOC/netoptimizer-prototype-kernel/kernel/include/linux/alf_queue.h:84-97 | every step of a thread that has reserved and does not spin strictly lowers the work left until all have published; a spinning step changes nothing |
| `MpmcTheorems.OneIsFirst` | DOC/netoptimizer-prototype-kernel/kernel/include/linux/alf_queue.h:88-95 | while reservations are in flight exactly one producer, and one consumer, has its start at the tail, and it is not blocked |
| `MpmcTheorems.NoDeadlock` | DOC/netoptimizer-prototype-kernel/kernel/include/linux/alf_queue.h:88-95 | as long as anything reserved is unpublished, some thread can lower the work left |
| `MpmcTheorems.OneProducerNeedsNoCas` | DOC/netoptimizer-prototype-kernel/kernel/include/linux/alf_queue.h:160-190 | when only one thread ever enqueues, its cmpxchg would always succeed and its wait be over at once, as alf_sp_enqueue assumes, and it is refused exactly when the elements not yet released and the new ones exceed the capacity |
| `MpmcTheorems.OneConsumerNeedsNoCas` | DOC/netoptimizer-prototype-kernel/kernel/include/linux/alf_queue.h:195-233 | the same for one consumer, which finds nothing exactly when nothing is published |
| `MpmcCalls.StepsKeepCalls` | DOC/netoptimizer-prototype-kernel/kernel/include/linux/alf_queue.h:62-141 | every step of every thread in every reachable state: a step inside a call is an effect of that call or changes neither the order of the enqueues nor the contents nor the slots in use; a step outside begins the call it names; no step touches another thread's call |
| `MpmcCalls.EnqueueReturns` | DOC/netoptimizer-prototype-kernel/kernel/include/linux/alf_queue.h:68-97 | an enqueue returns exactly at the store of prod.tail, having published all it had reserved, or at a load of cons.tail that found no room, refused; a lost cmpxchg never returns |
| `MpmcCalls.DequeueReturns` | DOC/netoptimizer-prototype-kernel/kernel/include/linux/alf_queue.h:106-140 | a dequeue returns exactly at the store of cons.tail, with the elements it had claimed, or at a load of prod.tail that found too few, refused |
| `MpmcCalls.EnqueueCall` | DOC/netoptimizer-prototype-kernel/kernel/include/linux/alf_queue.h:63-98 | a whole call, whatever others do: refused once with nothing changed and no room; or the elements it was called with, all or in VARIABLE mode the first for which it found room, come next in the order at one step and become visible at a later one, and their number and the room are returned |
| `MpmcCalls.DequeueCall` | DOC/netoptimizer-prototype-kernel/kernel/include/linux/alf_queue.h:101-141 | a whole call: refused once with nothing changed and too few elements; or the oldest elements, min(n, those there were at its look), leave the contents at one step, their slots are released at a later one, and they are returned |
| `MpmcCalls.StepsBringNearer` | DOC/netoptimizer-prototype-kernel/kernel/include/linux/alf_queue.h:62-141 | every step of a call lowers a bound on the steps to its return, except that a thread not first in the order of the tail waits, and that a thread whose cmpxchg fails begins again because another has reserved since |
| `MpmcZeroLength.ZeroLengthLosesElement` | DOC/netoptimizer-prototype-kernel/kernel/include/linux/alf_queue.h:63-98 | for every ring size and every element, a run in which a late zero-length enqueue takes the producer's tail back: an element that its enqueue has reported is invisible, with all threads idle; hence the requirement of at least one element |
| `MpmcZeroLength.NextProducerWaitsForEver` | DOC/netoptimizer-prototype-kernel/kernel/include/linux/alf_queue.h:88-95 | in every continuation of that state, whatever any thread calls: every producer that has reserved gets no further than its wait, whose steps change nothing, no enqueue ever publishes, the tail never moves and no dequeue finds an element |
| `MpmcZeroLength.ZeroLengthLosesSlot` | DOC/netoptimizer-prototype-kernel/kernel/include/linux/alf_queue.h:123-140 | for every ring size, a run in which a late dequeue of at most zero elements takes the consumer's tail back behind an element that has been taken; in the ring of one slot its slot stays occupied |
| `MpmcZeroLength.OneSlotIsLostForEver` | DOC/netoptimizer-prototype-kernel/kernel/include/linux/alf_queue.h:73-75 | in every continuation of that state of the ring of one slot, the ring is both full and empty: every enqueue is refused and no dequeue finds an element |
| `Words.PowerOf2Test` | DOC/netoptimizer-prototype-kernel/kernel/lib/alf_queue.c:23 | is_power_of_2 accepts exactly the powers of two |
| `Words.SlotIsIndex` | DOC/netoptimizer-prototype-kernel/kernel/include/linux/alf_queue.h:73-85 | masking the wrapped u32 index selects the slot of the unbounded one, because an accepted size divides 2^32 |
| `RingCopy.StoredAt` | DOC/netoptimizer-prototype-kernel/kernel/include/linux/alf_queue_helpers.h:40-49 | after the masked loop slot j holds the element of the table as far on from head as j is round the ring, or what it held before |
| `RingCopy.LoadAfterStore` | DOC/netoptimizer-prototype-kernel/kernel/include/linux/alf_queue_helpers.h:40-59 | loading what was stored, from the same index, gives the table back, for every start index and every n up to the ring size |
| `RingCopy.EnqueueStoreMask` | DOC/netoptimizer-prototype-kernel/kernel/include/linux/alf_queue_helpers.h:40-49 | the masked loop, which the other stores are compared with |
| `RingCopy.EnqueueStoreMaskLess` | DOC/netoptimizer-prototype-kernel/kernel/include/linux/alf_queue_helpers.h:61-77 | the same ring as the masked loop, for every head and n <= size |
| `RingCopy.EnqueueStoreMaskLess2` | DOC/netoptimizer-prototype-kernel/kernel/include/linux/alf_queue_helpers.h:96-118 | the same ring as the masked loop, for every head and n <= size |
| `RingCopy.EnqueueStoreNomask` | DOC/netoptimizer-prototype-kernel/kernel/include/linux/alf_queue_helpers.h:144-157 | the same ring as the masked loop, for every head and n <= size |
| `RingCopy.EnqueueStoreUnroll` | DOC/netoptimizer-prototype-kernel/kernel/include/linux/alf_queue_helpers.h:173-209 | the same ring as the masked loop, for every head and n <= size |
| `RingCopy.DuffCopy` | DOC/netoptimizer-prototype-kernel/kernel/include/linux/alf_queue_helpers.h:256-275 | Duff's device entered at case n % 4 copies each of its n words once, to the place as far on in the target as it is in the source, and nothing else; asked for 0 it copies 4 |
| `RingCopy.EnqueueStoreUnrollDuff` | DOC/netoptimizer-prototype-kernel/kernel/include/linux/alf_queue_helpers.h:249-282 | the masked loop's ring for n >= 1, and nothing written behind it; for n == 0 four words from the slot of head on, past the end of the ring included |
| `RingCopy.EnqueueStoreMemcpy` | DOC/netoptimizer-prototype-kernel/kernel/include/linux/alf_queue_helpers.h:316-328 | the masked loop's ring for n < size; for n == size nothing is copied |
| `RingCopy.EnqueueStoreSimple` | DOC/netoptimizer-prototype-kernel/kernel/include/linux/alf_queue_helpers.h:12-26 | each element lands at its slot, except that the one at the end of the ring lands one word behind it and the following ones from slot 1 on; everything else is unchanged |
| `RingCopy.DequeueLoadMask` | DOC/netoptimizer-prototype-kernel/kernel/include/linux/alf_queue_helpers.h:50-59 | the elements at the masked indices, in the front of the table, the rest of the table unchanged |
| `RingCopy.DequeueLoadMaskLess` | DOC/netoptimizer-prototype-kernel/kernel/include/linux/alf_queue_helpers.h:78-94 | the same table as the masked loop |
| `RingCopy.DequeueLoadMaskLess2` | DOC/netoptimizer-prototype-kernel/kernel/include/linux/alf_queue_helpers.h:119-141 | the same table as the masked loop |
| `RingCopy.DequeueLoadNomask` | DOC/netoptimizer-prototype-kernel/kernel/include/linux/alf_queue_helpers.h:158-171 | the same table as the masked loop |
| `RingCopy.DequeueLoadUnroll` | DOC/netoptimizer-prototype-kernel/kernel/include/linux/alf_queue_helpers.h:210-246 | the same table as the masked loop |
| `RingCopy.DequeueLoadUnrollDuff` | DOC/netoptimizer-prototype-kernel/kernel/include/linux/alf_queue_helpers.h:283-314 | the masked loop's table for n >= 1; for n == 0 four words from the slot of head on, past the end of the ring included |
| `RingCopy.DequeueLoadMemcpy` | DOC/netoptimizer-prototype-kernel/kernel/include/linux/alf_queue_helpers.h:329-341 | the masked loop's table for n < size; nothing for n == size |
| `RingCopy.DequeueLoadSimple` | DOC/netoptimizer-prototype-kernel/kernel/include/linux/alf_queue_helpers.h:27-38 | element k comes from its slot, except that the one at the end of the ring comes from the word behind it and the following ones from slot 1 on; LoadSimpleRightIff says when this is the masked loop's table |
| `RingCopy.StoreDuffRightIff` | DOC/netoptimizer-prototype-kernel/kernel/include/linux/alf_queue_helpers.h:253-275 | Duff's device stores what the masked loop stores, whatever the contents, if and only if n >= 1, in a ring of any size |
| `RingCopy.LoadDuffRightIff` | DOC/netoptimizer-prototype-kernel/kernel/include/linux/alf_queue_helpers.h:287-313 | it loads what the masked loop loads, whatever the contents, if and only if n >= 1, from a ring of any size |
| `RingCopy.StoreMemcpyRightIff` | DOC/netoptimizer-prototype-kernel/kernel/include/linux/alf_queue_helpers.h:320-327 | memcpy stores what the masked loop stores, whatever the contents, if and only if n < size |
| `RingCopy.LoadMemcpyRightIff` | DOC/netoptimizer-prototype-kernel/kernel/include/linux/alf_queue_helpers.h:333-340 | memcpy loads what the masked loop loads, whatever the contents, if and only if n < size |
| `RingCopy.StoreSimpleRightIff` | DOC/netoptimizer-prototype-kernel/kernel/include/linux/alf_queue_helpers.h:16-25 | the simple loop stores what the masked loop stores, whatever the contents, if and only if (head & mask) + n <= size |
| `RingCopy.LoadSimpleRightIff` | DOC/netoptimizer-prototype-kernel/kernel/include/linux/alf_queue_helpers.h:31-37 | the simple loop loads what the masked loop loads, whatever the contents, if and only if (head & mask) + n <= size |
| `RingCopy.EnqueuePtrs` | DOC/netoptimizer-prototype-kernel/kernel/include/linux/ring_queue.h:172-193 | ENQUEUE_PTRS leaves the ring of the masked loop |
| `RingCopy.DequeuePtrs` | DOC/netoptimizer-prototype-kernel/kernel/include/linux/ring_queue.h:199-220 | DEQUEUE_PTRS leaves the table of the masked loop |
| `AlfQueues.AlfQueueAlloc` | DOC/netoptimizer-prototype-kernel/kernel/lib/alf_queue.c:18-36 | -EINVAL exactly for sizes that are not a power of two up to 65536, -ENOMEM when there is no memory, else an empty queue of that size |
| `AlfQueues.StoreAppends` | DOC/netoptimizer-prototype-kernel/kernel/include/linux/alf_queue.h:84-95 | storing at the producer's index and moving it on appends the table to what a consumer will load, through the wrap of the index and of the ring |
| `AlfQueues.LoadSplits` | DOC/netoptimizer-prototype-kernel/kernel/include/linux/alf_queue.h:123-133 | loading n elements takes the first n of the queue, and moving the consumer's index on leaves the rest |
| `AlfQueues.AlfQueue.MpEnqueue` | DOC/netoptimizer-prototype-kernel/kernel/include/linux/alf_queue.h:63-98 | the whole table is appended and its length returned when it fits, else nothing changes and 0 is returned |
| `AlfQueues.AlfQueue.McDequeue` | DOC/netoptimizer-prototype-kernel/kernel/include/linux/alf_queue.h:101-141 | the first min(n, length) elements, in order; the queue keeps the rest |
| `AlfQueues.AlfQueue.SpEnqueue` | DOC/netoptimizer-prototype-kernel/kernel/include/linux/alf_queue.h:161-190 | the same as the multi-producer call |
| `AlfQueues.AlfQueue.ScDequeue` | DOC/netoptimizer-prototype-kernel/kernel/include/linux/alf_queue.h:196-233 | the same as the multi-consumer call |
| `AlfQueues.AlfQueue.Count` | DOC/netoptimizer-prototype-kernel/kernel/include/linux/alf_queue.h:251-265 | between calls, the length of the queue, for every value of the wrapping indices |
| `AlfQueues.AlfQueue.AvailSpace` | DOC/netoptimizer-prototype-kernel/kernel/include/linux/alf_queue.h:268-286 | between calls, size minus the length |
| `AlfQueues.MaskedFormIff` | DOC/netoptimizer-prototype-kernel/kernel/include/linux/alf_queue.h:261-284 | the masked forms that the comments give as the same agree with the code if and only if the value is not size; the code is followed |
| `RingQueues.SignalIff` | DOC/netoptimizer-prototype-kernel/kernel/include/linux/ring_queue.h:274 | the quota signal is raised if and only if the occupancy of the snapshot plus n reaches the watermark; with the default watermark, never |
| `RingQueues.SignalOfReservation` | DOC/netoptimizer-prototype-kernel/kernel/include/linux/ring_queue.h:238-279 | in any interleaving, for the snapshot of a reservation that succeeds: signalled if and only if the elements reserved and not released at its load of cons.tail, its own included, reach the watermark |
| `RingQueues.CountsAddUp` | DOC/netoptimizer-prototype-kernel/kernel/include/linux/ring_queue.h:687-716 | for any two index words, count + free_count = size - 1, full if and only if count = size - 1, empty if and only if count = 0 (as long as the distance is below size) |
| `RingQueues.CountIsExact` | DOC/netoptimizer-prototype-kernel/kernel/include/linux/ring_queue.h:687-716 | at every moment of every interleaving the count is the number of elements published and not released, and full and empty agree with it |
| `RingQueues.RingQueue.CountsContents` | DOC/netoptimizer-prototype-kernel/kernel/include/linux/ring_queue.h:687-716 | between calls count is the length of the queue and free_count what still fits |
| `RingQueues.RingQueue.MpDoEnqueue` | DOC/netoptimizer-prototype-kernel/kernel/include/linux/ring_queue.h:225-289 | FIXED appends all n or returns -ENOBUFS; VARIABLE appends min(n, size - 1 - length); -EDQUOT, or bit 31, exactly when the new length reaches the watermark |
| `RingQueues.RingQueue.ReturnTells` | DOC/netoptimizer-prototype-kernel/kernel/include/linux/ring_queue.h:278 | what the caller can read off the code: VARIABLE, without bit 31, the number of elements the queue has grown by, and bit 31 the watermark; FIXED, 0 or -EDQUOT exactly when all were appended and -ENOBUFS exactly when they did not fit |
| `RingQueues.RingQueue.SpDoEnqueue` | DOC/netoptimizer-prototype-kernel/kernel/include/linux/ring_queue.h:294-343 | the same outcome without the cmpxchg |
| `RingQueues.RingQueue.McDoDequeue` | DOC/netoptimizer-prototype-kernel/kernel/include/linux/ring_queue.h:348-404 | FIXED takes n elements or returns -ENOENT; VARIABLE takes min(n, length); always the oldest, in order |
| `RingQueues.RingQueue.ScDoDequeue` | DOC/netoptimizer-prototype-kernel/kernel/include/linux/ring_queue.h:409-448 | the same outcome without the cmpxchg |
| `RingQueues.RingQueue.SetWaterMark` | DOC/netoptimizer-prototype-kernel/kernel/lib/ring_queue.c:196-208 | -EINVAL from the ring size on; 0 sets the watermark to the size, which SignalIff shows to disable it |
| `RingQueues.RingQueueCreate` | DOC/netoptimizer-prototype-kernel/kernel/lib/ring_queue.c:127-175 | NULL exactly when the power-of-two test or the size limit or the memory fails; the ring is usable exactly when count >= 1 |
| `RingQueues.CreateAcceptsIff` | DOC/netoptimizer-prototype-kernel/kernel/lib/ring_queue.c:98-151 | create accepts the powers of two below 2^28, which are usable ring sizes, and 0, which is not |
| `PtrRing.OneOnEachSide` | DOC/netoptimizer-prototype-kernel/kernel/include/linux/ptr_ring.h:114-257 | at most one thread is inside the producer lock and one inside the consumer lock |
| `PtrRing.SlotsAreBlock` | DOC/netoptimizer-prototype-kernel/kernel/include/linux/ptr_ring.h:103-241 | with a producer and a consumer interleaving access by access, the non-NULL slots are exactly the circular block that holds the abstract queue; each index names its end of the block, but for the slot just used until it is incremented, and is one past that slot, unwrapped, until it is wrapped |
| `PtrRing.StepsRefineFifo` | DOC/netoptimizer-prototype-kernel/kernel/include/linux/ptr_ring.h:103-241 | every access leaves the abstract queue alone, appends the item (the producer's store, never beyond size items) or removes the oldest (the consumer's clear) |
| `PtrRing.NoSpaceIffFull` | DOC/netoptimizer-prototype-kernel/kernel/include/linux/ptr_ring.h:105-106 | -ENOSPC is decided at the load of the slot, if and only if the ring holds size items then |
| `PtrRing.NullIffEmpty` | DOC/netoptimizer-prototype-kernel/kernel/include/linux/ptr_ring.h:232-241 | NULL is decided at the load of the slot, if and only if the ring is empty then; otherwise the oldest item is taken |
| `PtrRing.ReturnsMatch` | DOC/netoptimizer-prototype-kernel/kernel/include/linux/ptr_ring.h:103-257 | when produce reports success its item is the one stored last, and a pointer that consume returns is the one cleared last |
| `PtrRingCalls.StepsKeepCalls` | DOC/netoptimizer-prototype-kernel/kernel/include/linux/ptr_ring.h:103-257 | every step of every thread in every reachable state: a step inside a call is the effect of that call or leaves the ring's contents alone; a step outside begins the call it names; no step touches another thread's call |
| `PtrRingCalls.ProduceCall` | DOC/netoptimizer-prototype-kernel/kernel/include/linux/ptr_ring.h:103-123 | a whole call, whatever others do: success exactly when one step of it has stored its item behind the others, -ENOSPC exactly when no step has stored anything and the ring was full when it looked |
| `PtrRingCalls.ConsumeCall` | DOC/netoptimizer-prototype-kernel/kernel/include/linux/ptr_ring.h:232-257 | a whole call: the pointer returned is the oldest item, taken by one step of the call, and NULL is returned exactly when no step has taken anything and the ring was empty when it looked |
| `PtrRingCalls.StepsBringNearer` | DOC/netoptimizer-prototype-kernel/kernel/include/linux/ptr_ring.h:103-257 | every step of a call lowers the number of steps to its return, except that a thread waits for a lock whose holder is another thread, inside a call on the same side and not waiting |
| `PtrRing.FirstInFirstOut` | DOC/netoptimizer-prototype-kernel/kernel/include/linux/ptr_ring.h:103-241 | what has been taken out is a prefix of what has been put in |
| `PtrRings.PtrRing.Produce` | DOC/netoptimizer-prototype-kernel/kernel/include/linux/ptr_ring.h:103-112 | appends, or returns -ENOSPC exactly when size items are held |
| `PtrRings.PtrRing.Consume` | DOC/netoptimizer-prototype-kernel/kernel/include/linux/ptr_ring.h:232-241 | the oldest item, or NULL exactly when there is none |
| `PtrRings.PtrRing.Resize` | DOC/netoptimizer-prototype-kernel/kernel/include/linux/ptr_ring.h:350-381 | the first min(L, newsize) of L items are kept in order, the others passed to destroy in order, each once; the ring is valid again if and only if L < newsize, since producer is stored unwrapped |
| `PtrRings.PtrRing.Cleanup` | DOC/netoptimizer-prototype-kernel/kernel/include/linux/ptr_ring.h:383-391 | every item left is passed to destroy once, oldest first |
| `QmemPools.QmemPool.Alloc` | DOC/netoptimizer-prototype-kernel/kernel/include/linux/qmempool.h:132-153 | from the localq; else one element of the sharedq and up to 15 more into the localq; else a refill from the slab: the exact contents of both queues afterwards |
| `QmemPools.QmemPool.AllocFromSharedq` | DOC/netoptimizer-prototype-kernel/kernel/mm/qmempool.c:212-238 | the first of up to 16 elements of the sharedq for the caller, the others in order into the empty localq, where they always fit |
| `QmemPools.QmemPool.AllocFromSlab` | DOC/netoptimizer-prototype-kernel/kernel/mm/qmempool.c:155-204 | one element for the caller and 32 in order into the sharedq; if the slab fails after got of the 32, with j = got % 16 on the stack, elems[j-1] is enqueued nowhere and BUG fires if and only if j <= 1 |
| `QmemPools.QmemPool.Free` | DOC/netoptimizer-prototype-kernel/kernel/include/linux/qmempool.h:173-193 | into the localq while it has room; else the element and 15 of the localq to the sharedq, or to the slab with up to 32 more of the sharedq; BUG never fires |
| `QmemPools.QmemPool.FreeToSharedq` | DOC/netoptimizer-prototype-kernel/kernel/mm/qmempool.c:270-303 | from a full localq 15 elements always come out; they and the freed one end up in the sharedq or in the slab, none twice |
| `QmemPools.QmemPool.FreeToSlab` | DOC/netoptimizer-prototype-kernel/kernel/mm/qmempool.c:244-262 | the given elements and the first min(32, length) of the sharedq are freed, in order, each once |
| `QmemPools.QmemPool.Destroy` | DOC/netoptimizer-prototype-kernel/kernel/mm/qmempool.c:27-53 | exactly the elements in the local queues and then those in the sharedq are freed, in order, each once, and the emptiness checks hold |
| `QmemPools.Create` | DOC/netoptimizer-prototype-kernel/kernel/mm/qmempool.c:56-143 | for all arguments and all failures of memory and slab: a pool with prealloc elements in the sharedq and empty local queues exactly when the arguments are accepted and nothing fails; the clean-up follows an error pointer exactly when a queue could not be made; otherwise every preallocated element is given back; the check on the enqueue never fires |
| `QmemPools.AcceptsIff` | DOC/netoptimizer-prototype-kernel/kernel/mm/qmempool.c:64-88 | the arguments accepted: powers of two of at least 16 and 32 elements, and no more preallocated than the second holds |
| `QmemPools.Preallocate` | DOC/netoptimizer-prototype-kernel/kernel/mm/qmempool.c:109-120 | on a slab failure every element preallocated so far has been given back |
| `QmemPools.AllocRun` | DOC/netoptimizer-prototype-kernel/kernel/mm/qmempool.c:155-238 | k allocations in a row on one CPU of an empty pool return the slab's elements in order and enter the refill exactly ceil(k / 33) times, with no BUG |
| `QmemPoolSteps.ExactlyOnePlace` | DOC/netoptimizer-prototype-kernel/kernel/mm/qmempool.c:155-303 | with CPUs interleaving between queue operations and slab calls, each element the slab has out is in exactly one of: a stack, a localq, the sharedq, a user's hands, or lost |
| `QmemPoolSteps.LostIff` | DOC/netoptimizer-prototype-kernel/kernel/mm/qmempool.c:183-188 | in every reachable state, a step loses an element exactly where a refill breaks off after j >= 2 of 16 elements, and then elems[j-1] and no other |
| `QmemPoolSteps.LostInRun` | DOC/netoptimizer-prototype-kernel/kernel/mm/qmempool.c:155-204 | over every run, the number of elements lost is the number of refills that broke off after j >= 2 of 16 elements |
| `QmemPoolSteps.NothingLostIff` | DOC/netoptimizer-prototype-kernel/kernel/mm/qmempool.c:155-204 | over every run, nothing is lost if and only if no refill broke off so |
| `QmemPoolSteps.NothingLost` | DOC/netoptimizer-prototype-kernel/kernel/mm/qmempool.c:155-303 | when the slab does not fail inside a refill nothing is ever lost, in any interleaving |
| `QmemPoolSteps.BugIff` | DOC/netoptimizer-prototype-kernel/kernel/mm/qmempool.c:186-231 | the checks that can fire, in any interleaving, are those of a refill without room and of a broken refill, each with its exact condition; those of the localq never do |
| `QmemPoolSteps.SerializedCallsNeverBug` | DOC/netoptimizer-prototype-kernel/kernel/mm/qmempool.c:155-303 | calls from any CPUs one after another never run into a BUG when the slab does not fail inside a refill |
| `QmemPoolSteps.DestroyReturnsEachOnce` | DOC/netoptimizer-prototype-kernel/kernel/mm/qmempool.c:32-50 | between calls, what destroy frees is every element out of the slab that no user holds and that is not lost, each once |
| `QmemPoolCalls.StepsKeepCalls` | DOC/netoptimizer-prototype-kernel/kernel/mm/qmempool.c:155-303 | with CPUs interleaving, every step inside a call is an effect of that call or leaves the local queues alone, every step outside begins the call it names, and no step touches another CPU's call |
| `QmemPoolCalls.HandsChange` | DOC/netoptimizer-prototype-kernel/kernel/include/linux/qmempool.h:132-193 | users hold what allocations have returned and frees have not taken back: an allocation adds the element it returns, which nobody held; NULL exactly when the slab was asked for the caller's element and failed |
| `QmemPoolCalls.AllocCall` | DOC/netoptimizer-prototype-kernel/kernel/include/linux/qmempool.h:132-153 | what a whole allocation hands out in any interleaving: the first element of its localq; that being empty, the oldest of the sharedq, with up to 15 more to the localq; that being empty too when it looked, a fresh element, or NULL exactly when the slab fails |
| `QmemPoolCalls.FreeCall` | DOC/netoptimizer-prototype-kernel/kernel/include/linux/qmempool.h:173-193 | where a whole free puts its element in any interleaving: at the end of the localq; that being full, with 15 of its elements at the end of the sharedq, or to the slab when there is no room at that step |
| `QmemPoolAlone.AllocAlone` | DOC/netoptimizer-prototype-kernel/kernel/mm/qmempool.c:155-238 | a call that nobody interrupts does in the step machine what the class says: with both queues empty, the refill of 32, or the one that breaks off, with its lost element or its BUG, for every failure of the slab |
| `QmemPoolAlone.FreeAlone` | DOC/netoptimizer-prototype-kernel/kernel/mm/qmempool.c:244-303 | and a free with a full localq: 16 elements to the sharedq, or to the slab with up to 32 more from the front of the sharedq, each once |
| `ConcurrencyTest.CheckNeverFails` | DOC/netoptimizer-prototype-kernel/kernel/lib/alf_queue_concurrency_test.c:196-206 | over the MPMC queue, with any number of producers retrying or rolling back and one consumer, neither BUG() is reachable |
| `ConcurrencyTest.SerialNumbers` | DOC/netoptimizer-prototype-kernel/kernel/lib/alf_queue_concurrency_test.c:104-118 | each producer's elements enter the queue numbered by one up modulo 2^32, without gap in spite of roll-backs, and the consumer's record is the last number it has checked |
| `ConcurrencyTest.BulkNumbered` | DOC/netoptimizer-prototype-kernel/kernel/lib/alf_queue_concurrency_test.c:104-106 | a bulk filled from a counter that has counted the producer's elements continues the numbering, across the wrap of the counter |
| `ConcurrencyTest.AllChecked` | DOC/netoptimizer-prototype-kernel/kernel/lib/alf_queue_concurrency_test.c:190-206 | every element that the queue has handed over is checked, in order, before the next dequeue |
| `ConcurrencyTest.CountersAgree` | DOC/netoptimizer-prototype-kernel/kernel/lib/alf_queue_concurrency_test.c:104-124 | between its bulks a producer's counter is the number of its elements that have entered the queue, modulo 2^32, roll-backs included |
| `ConcurrencyTest.BugsFireIff` | DOC/netoptimizer-prototype-kernel/kernel/lib/alf_queue_concurrency_test.c:126-205 | in any state, reachable or not: the BUGs fire exactly for an enqueue that returned anything but 8, and for an element whose number is not its producer's last one plus 1 modulo 2^32 |
| `ConcurrencyTest.CheckCatchesIff` | DOC/netoptimizer-prototype-kernel/kernel/lib/alf_queue_concurrency_test.c:196-206 | for any bulk, from a faulty queue too: the checks fail exactly when some element is not the next in line of its producer, so that a lost, doubled or reordered element is caught |
| `Barrier.PhasesApart` | DOC/netoptimizer-prototype-kernel/kernel/mm/slab_test.c:171-245 | no thread is in phase 1 before all are running, and none in phase 2 before all have finished phase 1 |
| `Barrier.FreesAfterAll` | DOC/netoptimizer-prototype-kernel/kernel/mm/slab_test.c:242-250 | the coordinator stops threads and frees v[] only when every thread has finished |
| `Barrier.AbortsIff` | DOC/netoptimizer-prototype-kernel/kernel/lib/time_bench.c:376-387 | the coordinator gives up exactly when a thread cannot be started |
| `Barrier.AbortedStaysPut` | DOC/netoptimizer-prototype-kernel/kernel/lib/time_bench.c:383-386 | when a thread cannot be started the coordinator returns and no thread ever enters phase 1 |
| `Barrier.RemoteFreeBalanced` | DOC/netoptimizer-prototype-kernel/kernel/mm/slab_test.c:46-83 | in the remote-free test every object is freed exactly once, after its allocation, no v[] is read after it has been freed, and every v[] has been freed when the coordinator returns |
| `Barrier.NoDeadlock` | DOC/netoptimizer-prototype-kernel/kernel/lib/time_bench.c:389-401 | until the coordinator has returned, it or some thread can take a step that changes the state, in both the one-phase and the two-phase version |
| `Barrier.StepsLowerWork` | DOC/netoptimizer-prototype-kernel/kernel/mm/slab_test.c:171-250 | every step of a reachable state that changes it lowers the work left, a number, so that with NoDeadlock no scheduler that grants such steps keeps the coordinator from returning |
| `XdpFilter.Program.ParseEth` | DOC/netoptimizer-prototype-kernel/kernel/samples/bpf/xdp_ddos01_blacklist_kern.c:119-152 | true exactly for frames long enough for their Ethernet header and VLAN tag and with an Ethernet II type; the offset returned lies within the frame |
| `XdpFilter.Program.ParseIpv4` | DOC/netoptimizer-prototype-kernel/kernel/samples/bpf/xdp_ddos01_blacklist_kern.c:207-235 | for every frame and offset, in terms of its bytes: aborted when cut off; dropped and counted when the source address, bytes 12 to 15 of the header, is listed; else by the protocol in byte 9 and the port |
| `XdpFilter.Program.ParsePort` | DOC/netoptimizer-prototype-kernel/kernel/samples/bpf/xdp_ddos01_blacklist_kern.c:154-205 | in terms of the bytes: for protocol 6 with 20 bytes (17 with 8) the frame is dropped exactly when bit 0 (bit 1) of the blacklist's word for the port in bytes 2 and 3 is set, and then that port's TCP (UDP) counter moves and nothing else; aborted exactly when cut off |
| `XdpFilter.Program.XdpProgram` | DOC/netoptimizer-prototype-kernel/kernel/samples/bpf/xdp_ddos01_blacklist_kern.c:254-274 | the verdict and the contents of all five maps after each frame, byte by byte: the type in bytes 12 and 13, or 16 and 17 behind a tag, then as the two rows above |
| `XdpFilter.FrameByBytes` | DOC/netoptimizer-prototype-kernel/kernel/samples/bpf/xdp_ddos01_blacklist_kern.c:102-274 | the classification that the balance rows are about gives, for every frame and all maps, the verdict and the maps that the bytes call for |
| `XdpFilter.OtherBytesIgnored` | DOC/netoptimizer-prototype-kernel/kernel/samples/bpf/xdp_ddos01_blacklist_kern.c:119-235 | frames that agree in type, protocol, source address and destination port get the same verdict and move the same counters; the source port, say, does not matter |
| `XdpFilter.FrameBalancedIff` | DOC/netoptimizer-prototype-kernel/kernel/samples/bpf/xdp_ddos01_blacklist_kern.c:102-235 | one frame keeps the counters in balance if and only if none that it moves is at its limit; for a port's counter that is 2^32 - 1 in its low word, because the u64 is incremented through a u32 pointer |
| `XdpFilter.CountersBalance` | DOC/netoptimizer-prototype-kernel/kernel/samples/bpf/xdp_ddos01_blacklist_kern.c:102-274 | over every run below those limits, and without deletions, the verdicts add up to the frames parse_eth accepted and the DROP verdicts to the blacklist, TCP and UDP drop counters together |
| `XdpFilter.FewFramesBalance` | DOC/netoptimizer-prototype-kernel/kernel/samples/bpf/xdp_ddos01_blacklist_kern.c:102-274 | the same over every sequence of events with fewer than 2^32 accepted frames |
| `ObjHashes.ObjHash.AddOne` | DOC/netoptimizer-prototype-kernel/kernel/mm/slab_bulk_test03.c:62-84 | the object becomes the first of bucket jhash(page) % 16 and the count stays the total length; NULL changes nothing |
| `ObjHashes.ObjHash.Extract` | DOC/netoptimizer-prototype-kernel/kernel/mm/slab_bulk_test03.c:91-152 | with two objects or more the search ends, at the first bucket from its start that has an object, and takes its first; with fewer it returns NULL and changes nothing |
| `ObjHashes.Round` | DOC/netoptimizer-prototype-kernel/kernel/mm/slab_bulk_test03.c:245-303 | a round frees exactly bulk distinct objects, none freed before, and consults none that had been freed, if and only if the hash was prefilled with at least one object and the slab does not fail; object after object comes from the first non-empty bucket, searched from the page of the round's first object or from the bucket after that of the object before |
| `ObjHashes.Benchmark` | DOC/netoptimizer-prototype-kernel/kernel/mm/slab_bulk_test03.c:210-308 | all rounds go through under these conditions, the hash keeps its size, and loops * bulk distinct objects are freed |

## Left out

- Weak memory ordering and barrier placement: every machine is sequentially consistent.
- Preemption, bottom-half and interrupt-flag lock variants: each lock is one mutex; the wrappers that only pick a variant add nothing.
- In-place update in the machines of `WfcQueue`, `Mpmc`, `PtrRing`, `QmemPoolSteps`, `Barrier` and `ConcurrencyTest`: memory is a value there (a map of links, a sequence of slots), because a step of one thread needs the whole state before and after it; the classes have the arrays.
- A caller's table is passed to the queue classes as a sequence, so that a table overlapping the ring is not modelled.
- `Mpmc.Positive` and `Mpmc.NoLap`, the conditions on the steps of the MPMC machine: an operation asks for at least one element, and fewer than 2^32 elements pass between a thread's load of a head and its cmpxchg of it. `MpmcZeroLength` and `CasConfusedIff` show what happens otherwise. For a whole call `MpmcCalls.Prompt` also asks that fewer than 2^32 elements pass between the thread's own loads of the two indices (`FreeExactIff`).
- RingQueues.CountsAddUp: the test for empty compares the whole words, so it agrees with count = 0 only for a distance below the size, which `CountIsExact` shows to hold always.
- RingQueues.RingQueueCreate: a ring of size 0, which create accepts, is returned but none of its operations is modelled.
- The comment of the return code -EDQUOT says that the high water mark is exceeded; the code raises it when the mark is reached, and the code is followed.
- The copies of Duff and simple reach behind the ring, and Duff behind the table: the words there are modelled as part of the memory, with whatever contents; that they belong to something else is not modelled.
- The signed `int index` of the copy helpers is taken to wrap like a u32.
- wfcq_node_init of a new node, which the caller does, is the first step of an enqueue here.
- PtrRings.PtrRing.Resize: the contents and the calls of destroy are stated for every new size; what a later call does with a ring whose producer index equals its size is not. Consumers at work during a resize are not modelled.
- Parallel refills that overflow the sharedq are not prevented by the code; `QmemPoolSteps.BugIff` has them as a case.
- An element of the slab is named by the number of the call that hands it out; the slab does not hand out a freed element again.
- In the concurrency test `retries_max` is U32_MAX in a signed int, hence -1, and the code gives up at the first full queue; the model also allows retries. The consumer's counters are set before it runs.
- In the barrier CPUs are numbered from 0, kmalloc does not fail, and an object is named by the CPU and the place it is for. The other tests of mm/slab_test.c differ only in the work of the phases.
- The filter's per-CPU maps are those of one CPU on a little-endian host; deletions from user space, which clear a counter, are not among the events.
- The alternative of the object hash's benchmark that calls the kernel's own bulk functions; virt_to_head_page and jhash are arbitrary functions.
- Time stamps, statistics, printing, loaders, option parsing, and the build scripts and wiki of the repository: input, output and invisible libraries.
