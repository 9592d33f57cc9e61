# shmipc in Dafny

shmipc moves bytes between two processes through a slab of fixed-size slots in shared memory. A message is a chain of slot headers; its first offset travels through a ring queue, and a socket carries wake-up calls, control frames and, when slots run out, the bytes themselves. This project models that machinery and proves what it is for: bytes arrive intact and in order, and no slot is lost or owned twice.

## Files

| file | what it models |
|---|---|
| Bytes, Slots | bytes, slots, slices; who owns which slot (`Exchange`) and what a list of slices or a header chain contains |
| BufferManager | the allocator of one process: best-fit and greedy allocation, recycling, reading a slot |
| BufferSpec, Reserving, Publishing, ReadSpec, ArrivalSpec | what a write, a filled reservation, `done`, a read and an arrival mean, as relations between a pool and a buffer before and after |
| LinkedBuffer | the linked buffer and the pending list, as classes, operation by operation |
| Stream | `Flush`, `ReleaseReadAndReuse` and `clean` |
| Transfer | whole runs of any number of connections over one pool |
| Endpoints | the tie between the two: every call of a stream or of its buffers is a step of Transfer |
| PinnedLeak | a run of Transfer that ends with a slot pinned for good |
| RingQueue | the ring queue, as a class and as a machine that interleaves threads word by word |
| SessionProtocol, SessionProgress, FallbackOrder, CloseNotice | one direction of a session: flushing threads, send goroutine, socket, event loop; safety, drain, order of the data and of the close notice |
| FreeListRace | the free list under concurrent pops and pushes, one atomic access at a time |
| ShmLayout | the slot memory as bytes: creating, mapping, popping, pushing, the counters of used slots, reading a slot by its offset |
| Framing, Writev | frames, the incremental parser and its read buffer; vectored writes with partial results |
| HotRestart | the client's hot restart |
| StreamLife, StreamDuty | the life of a stream with its closers, readers and callback goroutine; what they still have to do for it |

Concurrent protocols are a state and a step relation; a run is a sequence of states and steps, and the main theorems hold in every state of every run. Operations that change one object step by step are classes with loops, proved against the relations.

## What the code needs, and what is false without it

- Slot classes have different capacities, because a returned slot is filed by its capacity (`Slots.PoolOk`). The code sorts the classes by size, but `VerifyConfig` does not ask for different sizes.
- Pops of one free list do not overlap. `FreeListRace.FooledSwap` is a run in which they do and a slot in use becomes the head of the list; `FreeListRace.OnePopperSound` proves that non-overlapping pops are enough, whatever pushers do. The exact condition, for any pops, is that the head a swap finds still has the successor the popper has read (`FreeListRace.SwapExact`).
- A stream that falls back to the socket does so when no thread is between setting the working flag and handing its polling frame on, or more exactly when `FallbackOrder.Careful` holds. `FallbackOrder.Overtaken` shows that the condition is exact, `FallbackOrder.TwoFlushers` that two flushing threads can break it and `FallbackOrder.OneFlusherInOrder` that one thread cannot, however many streams it serves.
- A stream that has fallen back and closes while its frames are on their way can be seen closed before its last data: its notice goes through the queue. `CloseNotice.ByeComesLast` and `CloseNotice.ByeOvertakes` together give the exact condition, `CloseNotice.FallenBackClose` a run that fails it although both flushes have returned and their frames are written; a stream on the queue always meets it (`CloseNotice.OnTheQueue`). A flush over the channel is over in the model when the channel has its frame, so runs in which the code's wait for the frame times out are among those the theorems cover.
- `ReleaseReadAndReuse` swaps the two buffers without looking at the send buffer. The reader's view survives exactly when that buffer was empty (`Streams.Stream.ReleaseReadAndReuse`); slots are conserved in any case (`Transfer.OnePlace`), and connections on which it does not happen keep all their guarantees (`Transfer.EndToEnd`).
- `close` can return and leave the stream half-closed: `StreamLife.CloseCloses` gives the exact condition, `StreamLife.StaysHalfClosed` a run.
- A `Close` that finds a callback in process takes the stream out of the open state without a callback and without a notice to the peer. `StreamLife.OneCallback` says that this is the only way to get none; `StreamLife.LostClose` is a run in which the stream then even stays half-closed. Nor does such a Close wake blocked readers: `StreamDuty.ReadersWoken` gives the exact condition, `StreamDuty.ReaderNotWoken` a run in which a reader of a closed stream waits for its deadline.
- Closing a stream does not give back its pinned slots: `Transfer.AllReturned` says that all slots come back exactly when no pinned list holds one, and that this is so when every read was followed by a release or a reuse. `PinnedLeak.ClosedWithoutRelease` is a run in which a slot does not come back; `StreamLife.NothingLeaks` says the same of chains under concurrency. A window on the front slice is not on the pinned list: close gives that slot back while the window is held.
- `checkBufferReturned` looks at the process's own counter. A slot that one process takes and the other gives back leaves both counters off, so the check fails although every slot is free (`ShmLayout.CrossedOver`, `ShmLayout.ReturnedExactly`).
- A length is cut to 32 bits when slots are asked for. When the cut length is zero and no slot is to be had, nothing is added (`LinkedBuffers.LinkedBuffer.Alloc`) and `WriteBytes` and `Reserve` go on to a missing slice; writes below 4 GiB always succeed. A reservation of 4 GiB and more can also get a slot that is enough for the cut length only; then the bytes are counted and the window is refused (`LinkedBuffers.LinkedBuffer.Reserve`). `readBufferSlice` computes the end of a slot in 32 bits; `ShmLayout.ReadSlice` says when the wrapped end is accepted and the slice expression is out of range, `ShmLayout.SlotFound` that no slot of a laid-out memory comes near it.
- In `Transfer` the messages of a direction arrive in the order in which they were handed over, whichever road they take; `FallbackOrder` says when the queue and the socket together give that.
- A vectored write asks every byte string for its first byte. `Writev.Conn.Write` says that it panics only at a batch with an empty string, and with which bytes on the wire.
- 32-bit sums of the layout do not wrap under `ShmLayout.Config`; 64-bit queue positions are unbounded.
- A list header has, according to its comment, two 8-byte counts; the code keeps one 4-byte counter per process, at 20 for the creator and at 24 for the mapper. The model follows the code.

## Model

| member | source | states |
|---|---|---|
| Slots.ExchangeTrans | buffer_manager.go:417-462 | exchanges of slots between an owner and the free lists compose: slots are conserved as a multiset and everybody else's slots are untouched |
| Slots.ExchangeFrame | buffer_manager.go:417-462 | an exchange by one owner is an exchange by any larger owner |
| Slots.ChainFrame | buffer_slice.go:82-105 | a header chain and its bytes depend on its own slots only |
| BufferManagers.PoppedExchange | buffer_manager.go:417-448 | a pop moves exactly one slot from its free list to the caller, fresh, and keeps the pool well formed |
| BufferManagers.PushedExchange | buffer_manager.go:450-462 | a push moves exactly one slot back to the list of its capacity |
| BufferManagers.BufferManager.Pop | buffer_manager.go:417-448 | fails exactly when the list is down to its last slot; otherwise hands out the head with cleared flags |
| BufferManagers.BufferManager.AllocOne | buffer_manager.go:482-495 | the smallest class that has a slot to give and is large enough; fails exactly when there is none |
| BufferManagers.BufferManager.AllocMany | buffer_manager.go:497-512 | slots of never increasing capacity, none superfluous, and each taken only when every larger class was down to its last slot; falling short means that every list is |
| BufferManagers.BufferManager.TakeFrom | buffer_manager.go:500-508 | the slots taken from one class continue the greedy allocation; the request is covered or the list is down to its last slot |
| BufferManagers.TakeOneMore | buffer_manager.go:497-512 | one more slot of at most the last capacity keeps the greedy allocation as described |
| BufferManagers.BufferManager.Recycle | buffer_manager.go:514-528 | a shared slot goes to the tail of the list of its capacity with its header wiped; a heap slice changes nothing |
| BufferManagers.BufferManager.RecycleAll | buffer.go:223-235 | every shared slot of a list of slices goes back, each once |
| BufferManagers.BufferManager.ReadSlice | buffer_manager.go:559-571 | the slice an offset stands for, with the size its header records; fails exactly for an offset that is no slot |
| BufferManagers.BufferManager.RecycleChain | buffer_manager.go:530-550 | following the header chain gives back exactly its slots |
| BufferSpec.FillStep | buffer_slice.go:154-161 | copying behind the write index appends exactly those bytes to what the buffer contains |
| BufferSpec.FilledContents | buffer_slice.go:154-161 | when later slices are empty, filling one slice appends to the contents of the whole list |
| BufferSpec.AllocStep | buffer.go:485-506 | adding freshly allocated slices adds no bytes and exchanges exactly their slots |
| BufferSpec.FinishWrite | buffer.go:148-172 | a completed write leaves the write slice last and the length equal to the number of unread bytes |
| BufferSpec.EndsAfterFill | buffer.go:156-169 | as long as bytes are left, the slices before the last cannot hold them: the write ends in the last slice |
| Reserving.PatchedContents | buffer_slice.go:140-148 | filling a reserved window replaces exactly those bytes of the contents |
| Publishing.HeadersChain | buffer_slice.go:107-115 | the updated headers form a chain the peer can follow exactly when the write slice was the last slice |
| Publishing.UpdatedPublished | buffer.go:241-250 | updating the headers makes a chain that carries exactly the unread bytes |
| Publishing.TrimmedPublished | buffer.go:251-260 | giving back the slices behind the write slice leaves the published part and its bytes alone |
| ReadSpec.TakeStep | buffer_slice.go:163-172 | reading from the front slice takes exactly the first bytes |
| ReadSpec.NextStep | buffer.go:473-483 | dropping an exhausted front slice takes no bytes, pins its slot if it was lent and recycles it otherwise |
| ReadSpec.PinStep | buffer.go:331-335 | pinning the front slice changes no bytes and keeps earlier pins |
| ArrivalSpec.AppendSlice | buffer.go:512-522 | an arriving slice goes behind what is unread |
| ArrivalSpec.SkipSlot | stream.go:491-513 | giving back an empty slot of a chain moves nothing else |
| ArrivalSpec.RelinkSlot | stream.go:500-511 | rewriting the link of the last slice changes no bytes |
| ArrivalSpec.MovedDelivered | stream.go:473-523 | after all waiting parcels are moved in, exactly their bytes are readable behind the old ones |
| LinkedBuffers.PendingData.Add | stream.go:531-535 | appends one waiting message |
| LinkedBuffers.PendingData.Clear | stream.go:537-555 | gives every waiting chain back and empties the list |
| LinkedBuffers.LinkedBuffer.AppendToWriteSlice | buffer_slice.go:154-161 | appends as much as fits into the write slice |
| LinkedBuffers.LinkedBuffer.Alloc | buffer.go:485-506 | exactly one slot, of the best fitting class, if some class that is large enough has a slot to give; otherwise slots from the largest class downwards, and a heap block of exactly what is missing, but no less than 4096 bytes, only when no list has a slot to give; nothing is added exactly for an empty request with no slot to give |
| LinkedBuffers.LinkedBuffer.AllocAndMove | buffer.go:152-155 | the slices are chosen as in Alloc; the write slice is the first new one and the request ends in the last; fails exactly when nothing was added |
| LinkedBuffers.LinkedBuffer.NextWriteSlice | buffer.go:158-165 | goes on to the next slice, allocating when there is none |
| LinkedBuffers.LinkedBuffer.WriteByte | buffer.go:131-146 | appends exactly that byte; the write slice is the last slice; the buffer leaves shared memory only when every free list is down to its last slot |
| LinkedBuffers.LinkedBuffer.WriteBytes | buffer.go:148-172 | terminates for data of any length and appends exactly the data, whatever the allocator gives; the write slice is the last slice; the buffer leaves shared memory only when every free list is down to its last slot; it can fail only with a whole multiple of 4 GiB left and every free list down to its last slot |
| LinkedBuffers.LinkedBuffer.FillSlices | buffer.go:156-169 | the loop copies exactly the data, slice after slice, and ends in the last one, or stops with exactly a prefix copied when no slice could be added |
| LinkedBuffers.LinkedBuffer.Reserve | buffer.go:177-216 | for any size: a window of the requested size at the end of the last slice; or a missing slice, exactly when the cut length is zero, nothing was written and there is no slot to give; or, from 4 GiB on only, a slot that is too short, with the bytes counted and none added. The window is in the write slice if it fits, else in the next one, else in a slice picked for it; the buffer leaves shared memory only when no list that is large enough has a slot to give |
| LinkedBuffers.LinkedBuffer.ReserveOn | buffer.go:182-215 | with a write slice there, a window in it, exactly else in the next slice, exactly else in a new one, or a slot that is too short |
| LinkedBuffers.LinkedBuffer.PushForReserve | buffer.go:200-214 | the picked slice becomes the last and write slice; it can hold the request unless it is a slot for the cut length |
| LinkedBuffers.LinkedBuffer.SliceForReserve | buffer.go:200-212 | the head of the best fitting list for the cut length, or, exactly when there is none, a heap block of the whole length and no less than 4096 bytes |
| LinkedBuffers.LinkedBuffer.ReserveHere | buffer_slice.go:140-148 | the window is the next bytes of the write slice |
| LinkedBuffers.LinkedBuffer.FillReserved | buffer_slice.go:140-148 | the caller's later writes into a reserved window replace exactly those unread bytes |
| LinkedBuffers.LinkedBuffer.Done | buffer.go:241-262 | publishes a chain of exactly the unread bytes and gives back unused slices; heap-backed buffers stay as they are |
| LinkedBuffers.LinkedBuffer.AppendBufferSlice | buffer.go:512-522 | the slice becomes the last slice and its bytes count |
| LinkedBuffers.LinkedBuffer.ElideSlot | stream.go:491-513 | an empty slot is unlinked and given back without changing what can be read |
| LinkedBuffers.LinkedBuffer.MoveChain | stream.go:484-519 | walking a chain appends exactly its bytes and gives back its empty slots |
| LinkedBuffers.LinkedBuffer.MoveFromPending | stream.go:473-529 | all waiting messages become readable, in order; a heap payload sets the fallback flag |
| LinkedBuffers.LinkedBuffer.ReadMore | stream.go:135-140 | says whether enough bytes have arrived, after moving them in; the fallback flag is raised exactly by a payload that was moved in and never lowered |
| LinkedBuffers.LinkedBuffer.FrontRead | buffer_slice.go:163-172 | takes the first bytes of the front slice |
| LinkedBuffers.LinkedBuffer.NextSlice | buffer.go:473-483 | drops the exhausted front slice; its slot is pinned when lent and recycled otherwise |
| LinkedBuffers.LinkedBuffer.ReadByte | buffer.go:300-315 | the next byte, or nothing exactly when none is available; the fallback flag as in ReadMore |
| LinkedBuffers.LinkedBuffer.TakeByte | buffer.go:306-314 | with a byte there, exactly the next one, across an exhausted front slice |
| LinkedBuffers.LinkedBuffer.ReadBytes | buffer.go:317-349 | the next bytes; nothing exactly when too few are available; with enough there, they are a window of the first slot that is not exhausted, now pinned, exactly when they all lie in it and it is a slot, and otherwise a copy; the fallback flag as in ReadMore |
| LinkedBuffers.LinkedBuffer.TakeBytes | buffer.go:326-348 | with enough bytes there, exactly the next ones, lent exactly when the first slice that is not exhausted is a slot and has them all; the slot is then pinned |
| LinkedBuffers.LinkedBuffer.ReadLent | buffer.go:331-335 | the bytes are a window of the front slice, which is pinned; they are lent exactly when it is a slot |
| LinkedBuffers.LinkedBuffer.CollectBytes | buffer.go:336-348 | the copied bytes are the next bytes, across slices |
| LinkedBuffers.LinkedBuffer.ReadString | buffer.go:351-380 | the next bytes as a copy; nothing exactly when too few are available; the fallback flag as in ReadMore |
| LinkedBuffers.LinkedBuffer.CollectString | buffer.go:367-379 | the copied bytes are the next bytes, across slices |
| LinkedBuffers.LinkedBuffer.Discard | buffer.go:413-430 | exactly the first bytes are gone; uses a missing slice exactly when nothing is to be dropped from a buffer without slices; the fallback flag as in ReadMore |
| LinkedBuffers.LinkedBuffer.DropBytes | buffer.go:419-427 | the loop drops exactly the first bytes, across slices |
| LinkedBuffers.LinkedBuffer.Read | buffer.go:275-298 | at least one byte unless nothing has arrived, fewer than asked only when nothing is left unread; the fallback flag as in ReadMore |
| LinkedBuffers.LinkedBuffer.CopyOut | buffer.go:285-297 | the loop takes the next bytes and stops short only when nothing is left unread |
| LinkedBuffers.LinkedBuffer.Peek | buffer.go:383-411 | the next bytes without taking them, lent exactly when the front slice is a slot and has them all; the slot is then pinned; the fallback flag as in ReadMore |
| LinkedBuffers.LinkedBuffer.PeekLent | buffer.go:393-397 | a window of the front slice, which becomes pinned, lent exactly when it is a slot |
| LinkedBuffers.LinkedBuffer.PeekCopy | buffer.go:399-410 | the next bytes copied across slices, nothing changed |
| LinkedBuffers.LinkedBuffer.CleanPinnedList | buffer.go:432-445 | gives back all pinned slots and nothing else |
| LinkedBuffers.LinkedBuffer.ReleasePreviousRead | buffer.go:447-458 | gives back pinned slots and an exhausted last slot, and no other slice; unread bytes stay |
| LinkedBuffers.LinkedBuffer.ReleasePreviousReadAndReserve | buffer.go:460-471 | gives back pinned slots; a single exhausted slot is kept and reset, a single exhausted heap block dropped, any other list of slices left as it is |
| LinkedBuffers.LinkedBuffer.Clean | buffer.go:525-534 | forgets the slices, keeps the pinned list |
| LinkedBuffers.LinkedBuffer.Recycle | buffer.go:223-235 | gives every slice back, keeps the pinned list |
| Streams.Stream.constructor | stream.go:94-109 | an open stream with empty buffers and no fallback |
| Streams.Stream.Flush | stream.go:199-271 | the written bytes leave exactly once: as a chain in the queue, as a frame payload, or not at all when the stream is not open, the queue stays full or the send channel does not take the frame. On the queue, the chain is put or the flush fails as the first outcome says that is not a full queue; slots are accounted for in each case, and the fallback flag is raised exactly by going to the socket and never lowered |
| Streams.DecidedOnce | stream.go:219-248 | one outcome decides a flush: the first that is not a full queue |
| Streams.Stream.UnderlyingData | buffer.go:264-273 | the payload of a fallback frame is exactly the unread bytes |
| Streams.Stream.ReleaseReadAndReuse | stream.go:380-385 | the buffers are swapped exactly when nothing is unread and a single shared slot is left; the reader's view survives exactly when they were not swapped or the send buffer was empty; slots are conserved |
| Streams.Stream.Clean | stream.go:329-334 | waiting chains, received slots and written slots all go back; pinned slots stay |
| Transfer.StepKeeps | stream.go:199-271 | every write, flush, drop, loss, delivery, read, release, reuse and close of any connection keeps the ownership partition, and on every connection that is not spoilt the content law, the order of roads and the lent windows |
| Transfer.LoseKeeps | session.go:408-415 | a flush over the socket whose frame the channel does not take gives its slots back, loses its bytes and leaves the stream fallen back |
| Transfer.SpoiltIs | stream.go:380-385 | a connection is spoilt exactly when the run has a reuse on it that made a send buffer with bytes in it the receive buffer |
| Transfer.DeliverKeeps | protocol_manager.go:262-278 | a parcel reaches the pending list of its stream, or goes straight back when the stream is gone |
| Transfer.QueueKeeps | stream.go:218-253 | handing a chain over keeps all laws |
| Transfer.FrameKeeps | stream.go:256-271 | falling back keeps all laws |
| Transfer.CloseKeeps | stream.go:289-334 | closing keeps all laws |
| Transfer.StepTrades | stream.go:380-385 | every step, a reuse with a written send buffer included, is a trade of slots between one connection and the free lists |
| Transfer.OnePlace | buffer_manager.go:417-550 | in every reachable state each slot is free once or held once, by one connection, also after a reuse has spoilt a connection |
| Transfer.EndToEnd | stream.go:473-523 | in every reachable state, on every connection that is not spoilt, whatever happens on others: the send buffer holds exactly what was written since the last flush and what was read is a prefix of what was flushed; with an open reader the rest is what waits followed by what is on its way, and all is read exactly when nothing waits; after a close nothing is left to read |
| Transfer.WindowsStable | buffer.go:317-349 | on a connection that is not spoilt, from the read that lent a slot until release, reuse or close it stays pinned, is not free and keeps its bytes |
| Transfer.Unpinned | buffer.go:447-471 | a direction whose last read was followed by a release or a reuse has nothing pinned |
| Transfer.AllReturned | buffer.go:223-235 | with nothing buffered or on its way, all slots are free exactly when no pinned list holds one, and so when every read was followed by a release or a reuse |
| Transfer.InitExists | buffer_manager.go:259-297 | an initial state exists |
| Endpoints.WriteByte | buffer.go:131-146 | the call on the stream object is a Write step of the run its connection takes part in, and the object stands for its end again, even when other connections are spoilt |
| Endpoints.WriteBytes | buffer.go:148-172 | so is WriteBytes, when it does not fail |
| Endpoints.Reserve | buffer.go:177-216 | so is Reserve, when it gives a window |
| Endpoints.FillReserved | buffer_slice.go:140-148 | filling a reserved window is a Fill step at that place of the draft |
| Endpoints.Flush | stream.go:199-271 | Flush is a Queue, Frame, Lose or Drop step according to its outcome, or no step when there was nothing to send |
| Endpoints.Deliver | protocol_manager.go:262-278 | a parcel that reaches the pending list is a Deliver step |
| Endpoints.ReadByte | buffer.go:300-315 | ReadByte is a Read step of exactly its result |
| Endpoints.ReadBytes | buffer.go:317-349 | ReadBytes is a Read step of exactly its result, with the slot it lent |
| Endpoints.ReadString | buffer.go:351-380 | ReadString is a Read step of exactly its result |
| Endpoints.Read | buffer.go:275-298 | Read is a Read step of exactly its result |
| Endpoints.Peek | buffer.go:383-411 | Peek is a Read step of nothing, with the slot it lent |
| Endpoints.Discard | buffer.go:413-430 | Discard is a Read step of the bytes it drops |
| Endpoints.ReleasePreviousRead | buffer.go:447-458 | ReleasePreviousRead is a Release step |
| Endpoints.ReleaseReadAndReuse | stream.go:380-385 | ReleaseReadAndReuse is a Reuse step that keeps the invariant in any case; it spoils the connection exactly when it swapped and the send buffer was written |
| Endpoints.Close | stream.go:289-334 | closing and cleaning is a Close step |
| Endpoints.HalfClose | stream.go:336-344 | half-closing ends the writer's side of the direction |
| PinnedLeak.ClosedWithoutRelease | stream.go:329-334 | a run that writes, flushes, delivers, reads everything and closes, with nothing buffered at the end and a slot that is not free |
| RingQueue.Queue.constructor | queue.go:179-214 | an empty queue, flag down |
| RingQueue.Queue.Put | queue.go:262-279 | appends the element, or fails exactly when the ring is full |
| RingQueue.Queue.Pop | queue.go:247-260 | removes the first element, or fails exactly when there is none |
| RingQueue.Queue.MarkWorking | queue.go:285-287 | true for the caller that raised the flag |
| RingQueue.Queue.MarkNotWorking | queue.go:289-296 | the flag stays down exactly when the queue is empty |
| RingQueue.DifferentCells | queue.go:254-272 | two positions less than a round apart are different cells |
| RingQueue.StepKeeps | queue.go:247-279 | every word access of every thread keeps the ring's invariant |
| RingQueue.Fifo | queue.go:247-279 | in every interleaving what was popped is a prefix of what was put, whole and unoverwritten, with at most `cap` in between |
| RingQueue.HonestAnswers | queue.go:247-271 | full and empty are reported exactly when true |
| RingQueue.OneProducer | queue.go:262-279 | two producers are never inside put together |
| SessionProtocol.PipeStep | session.go:440-465 | what each step does to the frames on their way: a fast frame jumps in, a slow one goes last, the first is handled |
| SessionProtocol.StepKeeps | session.go:616-631 | every step, the close notice of a stream that has fallen back included, keeps exclusion, whole frames, the meaning of the working flag and the reason for every sleep |
| SessionProtocol.NoLostWakeUp | session.go:616-631 | with a message queued and the consumer asleep, a polling frame is on its way, or a thread has one, or is about to look at the flag |
| SessionProtocol.WholeFrames | session.go:701-709 | the wire is whole frames and the beginning of at most one more; at most one writer |
| SessionProtocol.SleepKeeps | session.go:446-448 | the send goroutine sleeps only while a token is there, or a holder has yet to release or notify |
| SessionProtocol.SleepsForAReason | session.go:440-465 | in every reachable state a sleeping send goroutine has a token to find, or a thread that is writing or about to leave one |
| SessionProgress.StepDecreases | protocol_manager.go:261-284 | every step but the start of something new decreases an explicit measure |
| SessionProgress.Terminates | protocol_manager.go:261-284 | a session to which nothing new is given takes a bounded number of steps |
| SessionProgress.SomebodyMoves | session.go:440-465 | no deadlock: wherever work is left some step is possible |
| SessionProgress.Drains | queue.go:289-296 | from every state with the invariant the session comes to rest: queue empty, all frames handled, flag down |
| FallbackOrder.ExactlyOnce | stream.go:199-271 | at rest, what was delivered is what was handed over, as a multiset, for any threads |
| FallbackOrder.NobodyCarrying | session.go:616-631 | falling back is safe when no thread carries an unsent polling frame |
| FallbackOrder.DeliveredInOrder | stream.go:211-217 | when every fallback was safe, what a peer has taken in is a prefix of what its stream handed over |
| FallbackOrder.HandleOrder | protocol_manager.go:153-177 | a fallback frame is handled only when no message of its stream is left in the queue |
| FallbackOrder.FramesAfterQueue | protocol_manager.go:153-177 | so it is at every frame of every run whose fallbacks were safe |
| FallbackOrder.Overtaken | stream.go:211-217 | otherwise there is a continuation in which the later message overtakes |
| FallbackOrder.OneFlusherInOrder | stream.go:211-217 | when at most one thread at a time is in the middle of a flush, over any number of streams and with control frames beside it, the messages of every stream arrive in order, and all of them once the session is at rest |
| FallbackOrder.TwoFlushers | session.go:616-631 | with two, an unsafe fallback is reachable |
| CloseNotice.ByeKeeps | stream.go:313-314 | while the notice of a settled stream is queued the stream stays settled, and once it is taken in nothing of the stream is left behind |
| CloseNotice.ByeComesLast | stream.go:313-314 | when a stream was settled at its close, the peer takes in the notice after all its data, in order when its fallbacks were safe |
| CloseNotice.OnTheQueue | stream.go:313-314 | a stream that has not fallen back is always settled |
| CloseNotice.ByeOvertakes | stream.go:313-314 | from any state in which it is not settled there is a run in which the notice is taken in while its data is on its way |
| CloseNotice.FallenBackClose | stream.go:199-271 | such a state is reached by a flush over the queue and a flush that falls back, both returned with their frames written and every thread idle |
| FreeListRace.StepKeeps | buffer_manager.go:417-462 | every atomic access whose head swap is current keeps the free list sound |
| FreeListRace.FreeListSound | buffer_manager.go:417-462 | one chain from head to tail, never empty, whose only gaps are pushes about to link; at rest size is its length, and size and the two processes' counters add up to all slots |
| FreeListRace.SwapExact | buffer_manager.go:426-436 | a successful swap of the head keeps the list sound exactly when the head still has the successor that was read |
| FreeListRace.OnePopperSound | buffer_manager.go:417-448 | non-overlapping pops are always current |
| FreeListRace.FooledSwap | buffer_manager.go:425-436 | a run with two poppers in which a slot in use becomes the head |
| ShmLayout.WriteWord | buffer_manager.go:367-372 | four bytes hold the word and nothing else changes |
| ShmLayout.CreateFreeList | buffer_manager.go:341-391 | succeeds exactly when the class is not empty and fits; then all its slots are chained in order, the creator's counter is zero, the mapper's is as it was, and nothing outside is written |
| ShmLayout.AllFits | config.go:100-121 | with percentages of at most a hundred everything fits and no sum wraps |
| ShmLayout.CreateBufferManager | buffer_manager.go:259-297 | succeeds exactly when the percentages do not exceed a hundred and every class gets a slot; the classes lie one behind the other, each with its counters as above |
| ShmLayout.MapFreeList | buffer_manager.go:393-415 | accepts exactly the headers whose region is inside the memory |
| ShmLayout.MapBufferManager | buffer_manager.go:299-335 | any accepted region is inside the memory; on a created memory it finds exactly the creator's view |
| ShmLayout.ClassesApart | buffer_manager.go:270-286 | classes do not overlap each other or the manager header |
| ShmLayout.SlotsApart | buffer_manager.go:376-388 | slots do not overlap |
| ShmLayout.Pop | buffer_manager.go:417-448 | on the bytes: the first slot leaves the chain with the in-use flag and no other, the rest of its header kept; the last is never handed out; nothing else changes, and nothing at all when it fails; the own counter goes up by one exactly when a slot was handed out, the other process's stays |
| ShmLayout.Push | buffer_manager.go:450-462 | on the bytes: the slot goes behind the tail with size, start and flags zero; nothing changes but the list header and the headers of the slot and the old tail; the own counter goes down by one, the other process's stays |
| ShmLayout.RunOps | buffer_manager.go:299-335 | after any run of pops and pushes by either process the free lists are what the run makes of them, every counter has moved by what its process took and did not return, and the mapper still finds the creator's view |
| ShmLayout.Balance | buffer_manager.go:417-462 | in any run, free slots and the slots the two processes took and did not return add up to what was free at the beginning |
| ShmLayout.CheckReturned | buffer_manager.go:604-614 | true exactly when in every class as many slots are free as there are and the own counter is zero |
| ShmLayout.CreatedUntaken | buffer_manager.go:259-297 | a manager created on fresh memory starts with all slots free and all four-byte counters at zero |
| ShmLayout.ReturnedExactly | buffer_manager.go:604-614 | after any run the check of a process succeeds for a class exactly when every slot is back and the process returned as many as it took, modulo 2^32; both processes get the same answer |
| ShmLayout.CrossedOver | buffer_manager.go:604-614 | one process takes a slot, the other gives it back: every slot is free and neither check succeeds |
| ShmLayout.ReadSlice | buffer_manager.go:559-571 | the data region of an offset exactly when it lies inside the memory, a slice out of range exactly when its end wraps, an error otherwise |
| ShmLayout.SlotFound | buffer_manager.go:559-571 | after any run the offset of any slot, free or in use, gives exactly its own data bytes |
| Framing.OneRoundTrip | protocol_event.go:78-95 | one frame, whatever follows, is read back as its event, with the low byte of the status |
| Framing.FieldsAt | protocol_event.go:55-95 | where length, magic number, version, type and the fields of each event lie in a frame |
| Framing.GotIsFrame | session.go:519-544 | whatever is taken for a frame is one an encoder could have made, apart from the length field of fixed-size frames, which is not looked at |
| Framing.RoundTrip | session.go:519-544 | any sequence of frames is read back completely and in order |
| Framing.HandleEvents | session.go:519-544 | the loop computes the parse, with its error and panic outcomes |
| Framing.CutAnywhere | session.go:519-544 | parsing what is there and then the rest with what comes is parsing it all at once |
| Framing.Reader.constructor | event_dispatcher_linux.go:41-52 | an empty reader |
| Framing.Reader.Expand | event_dispatcher_linux.go:161-169 | a full buffer doubles and keeps its unread bytes |
| Framing.Reader.Consume | event_dispatcher_linux.go:210-226 | takes all complete events; a large drained buffer is halved |
| Framing.Reader.Fill | event_dispatcher_linux.go:176-191 | a read appends to the pending bytes exactly as many bytes as there are or as fit |
| Framing.Reader.OnReadReady | event_dispatcher_linux.go:172-200 | every call that gives bytes is used until one does not, the input is exhausted or the stream is malformed; however the stream is cut, the events are those of what was read, and of the whole input when there are enough calls; the reader closes exactly when it is malformed; only after an error of the read call are bytes left unparsed |
| Writev.Conn.Ack | event_dispatcher_linux.go:122-133 | exactly the written bytes are struck off the vectors |
| Writev.Conn.Submit | event_dispatcher_linux.go:95-101 | the vectors of a batch stand for exactly its byte strings; fails exactly when one of them is empty |
| Writev.Conn.DoWritev | event_dispatcher_linux.go:94-137 | panics, with nothing written, exactly when the batch has an empty byte string; otherwise a prefix of its concatenation is on the wire, as long as the answers so far say, and it ends with the first answer that completes it or is an error |
| Writev.Conn.WriteSome | event_dispatcher_linux.go:109-134 | the kernel takes the given number of bytes or all that are left, and the vectors then stand for exactly the rest |
| Writev.Conn.Write | event_dispatcher_linux.go:79-92 | success exactly when the concatenation of all inputs is on the wire; otherwise a prefix is; a panic only at a batch with an empty byte string, with exactly the batches before it on the wire |
| HotRestart.StepKeeps | session_manager.go:296-349 | every event, tick, time-out and rebuilder step keeps the restart's invariant |
| HotRestart.StoreKeeps | session_manager.go:222-241 | a session stored after the lock was released never lands in a replaced index |
| HotRestart.StoredEpoch | session_manager.go:222-241 | a stored session has the manager's epoch of the rebuilder's timer, at which the pool's session had the epoch of the one in its place; no other pool changes |
| HotRestart.AckMeansReplaced | session_manager.go:251-285 | an acknowledgement is of the current epoch, and is sent only when every index holds a session of that epoch and the reserve holds every displaced pool under its own index |
| HotRestart.OneReplacement | session_manager.go:307-348 | a restart keeps its epoch and replaces each index at most once |
| StreamLife.StepKeeps | stream.go:275-344 | every step of closers, half-closers, deliveries, callback goroutines and readers, blocked ones and ones with windows included, keeps the invariant |
| StreamLife.OneWay | stream.go:289-344 | a stream only goes from open to half-closed to closed |
| StreamLife.ExitIs | stream.go:275-344 | how the stream left the open state is what the run says: through the swap of close, through the swap of a Close that found a callback in process, or through the peer |
| StreamLife.AtMostOne | stream.go:289-344 | in every state at most one callback and one notice, and a notice or a local callback only after the swap of close took the stream out of the open state |
| StreamLife.OneCallback | stream.go:275-344 | once all have finished, a stream with callbacks that is not open got exactly one callback, unless a Close that found a callback in process took it out of the open state; the peer was told exactly when the swap of close did |
| StreamLife.CloseTried | stream.go:275-286 | no Close is forgotten: once all have finished somebody has tried to close the stream |
| StreamLife.LentIs | buffer.go:432-445 | nothing is on the pinned list exactly when every chain that went there was released later |
| StreamLife.NothingLeaks | stream.go:388-428 | closed and finished: no chain is left in the buffers, late readers and callback goroutines included, and every chain that came is on the pinned list or was recycled; each was recycled, as often as it came, exactly when all windows on the pinned list were given back |
| StreamLife.NeverTwice | stream.go:537-555 | no chain is recycled twice or while it is still in the stream or lent |
| StreamLife.CloseCloses | stream.go:289-295 | close leaves the stream closed exactly unless it became half-closed between load and swap |
| StreamLife.StaysHalfClosed | stream.go:289-295 | a run in which close returns and the stream stays half-closed |
| StreamLife.LostClose | stream.go:279-282 | a run in which Close finds a callback in process, all finish, and the stream stays half-closed with nobody called back and the peer not told |
| StreamDuty.DutiesDone | stream.go:388-428 | in every state of every run: a chain that is pending has somebody who will serve or signal it, a chain moved for the callbacks somebody who will hand it out, a closed stream somebody who will wake its readers |
| StreamDuty.NothingPending | stream.go:405-423 | no message is forgotten: once all have finished or wait, a stream with callbacks has nothing pending if it is open or nobody closed it on this side |
| StreamDuty.EverythingServed | stream.go:404-409 | if moreover chains are moved only by the callback goroutine and inside callbacks, an open stream has handed out every chain that came |
| StreamDuty.NoLostSignal | stream.go:165-171 | once all have finished or wait, a reader that waits can take a signal if anything is pending |
| StreamDuty.ReadersWoken | stream.go:172-180 | once all have finished or wait, blocked readers can wake up exactly when the stream is no longer open, unless a Close that found a callback in process took it out of the open state |
| StreamDuty.ReaderNotWoken | stream.go:279-282 | a run in which that Close leaves a reader waiting for its deadline on a closed stream |

## Left out

- mmap, memfd, file handling, epoll registration and the handshake: foreign calls and plumbing; memory is a byte array or a map of slots, the socket a sequence of bytes with partial results.
- Stream.reset and the pool of streams: putOrCloseStream closes a stream that is in fallback state and resets only one that is not, so the flag of the model is never lowered.
- User code inside callbacks: in StreamLife it may read, consume and close at any time, as other threads may, and whether a stream has callbacks is fixed from the start.
- Deadlines and retries by time: in the linked buffer a reader that would block is told so and called again, in StreamLife it waits and may give up at any time; the ten retries of a flush are scripted by their outcomes.
- Write errors on the session's socket, which end the session.
- A full queue in the session machine: a put that fails leaves nothing behind there; what a flush does then is in `Streams.Stream.Flush`. A close notice that does not fit travels as a frame of its own; only notices in the queue are modelled.
- Server-side hot restart, listeners, session construction, statistics, the circuit breaker and logging.
- WriteString, which is WriteBytes on the string's bytes, and the io.Reader and io.Writer wrappers around read and write.
- Byte layout of the ring queue header, which differs between architectures: the queue is modelled at the level of its 4-byte words.
- HotRestart.AckMeansReplaced: does not say that an acknowledgement is eventually sent, because opening a session may keep failing.
- ShmLayout.Pop: is the undisturbed pop; concurrent pops and pushes of the same list are in FreeListRace, on slots instead of bytes.
- ShmLayout.Push: is the undisturbed push, for the same reason.
- LinkedBuffers.LinkedBuffer.ReadMore: does not wait; it reports that too few bytes have arrived. Waiting is in StreamLife, on chains.
- LinkedBuffers.LinkedBuffer.Discard: negative sizes, which move the read index of the source back, are not modelled.
- StreamDuty.NothingPending: says nothing of chains moved before the peer closed the stream; the callback goroutine does not hand these out once the stream is not open.
- StreamLife.LentIs: chains are taken as units, and a window on the front slice is no lending: its slot is not on the pinned list and is recycled with the buffer.
- Transfer.OnePlace: the steps of a connection that is spoilt already are taken to keep the contracts of the calls; Endpoints ties calls to steps only until then, because a spoilt receive buffer may break what a read relies on, such as a heap block before an arriving chain.
- Transfer.DeliverKeeps: a message for a stream that is gone goes straight back, as on a client; on a server the session opens a new stream under that id, which is another connection here.
- LinkedBuffers.LinkedBuffer.ReserveOn: what a flush after a refused window publishes, a chain that ends in an empty slot with more bytes counted than written, is not modelled.
- StreamLife.StepKeeps: moving chains out of the pending list and recycling the receive buffer are taken as atomic; the source guards them with different locks.
- SessionProtocol.StepKeeps: the wait of a flush for its frame to be written is not a state of its own; the flush may return as soon as the channel has the frame.
- BufferManagers.BufferManager.ReadSlice: on the map of slots an offset that is no slot fails; the bounds the source checks, on bytes, are ShmLayout.ReadSlice.
- FreeListRace.FreeListSound: the counters are unbounded there; their 32-bit wrap-around is in ShmLayout.
- ShmLayout.CreateBufferManager: a memory shorter than its manager and list headers is not modelled; the source computes a wrapped region size there and fails or panics later.
- ShmLayout.CreateFreeList: a class whose end offset wraps 32 bits is not modelled; createBufferManager does not pass one under the same condition.
- Endpoints.Discard: negative sizes are not modelled, as in LinkedBuffers.LinkedBuffer.Discard.
