# A verified model of the store-and-forward sender

`net::sender` takes buffers from any number of producer threads, keeps them in a shared queue, and
lets one thread send them over TCP or TLS.  What cannot be sent goes back to the front of the
queue; a queue that grows too long, and whatever is queued when the sender stops, is written to a
directory, and files found there are sent and removed later.  Attempts to connect are rate
limited and idle connections are closed.

The project models this in two layers.

**The protocol, on values** (`SenderProtocol.dfy` and the seven files about it).  A state machine
whose events are the actions that cannot be interrupted: a queue operation under its mutex, the
save of one file, the send and unlink of one file, a read of the clock, a read or write of a shared
field.  Producers, the sender thread and the environment (network, clock, directory) interleave
freely.  `Enabled` and `Apply` give each event its condition and its effect; every theorem here is
about all legal sequences of events, of any length.

| file | question |
|---|---|
| `SenderCustody.dfy` | is any payload lost or duplicated, and what is left when `run()` has returned? |
| `SenderOrder.dfy` | in which order do payloads go out? |
| `SenderWire.dfy` | what do the connections carry? |
| `SenderTiming.dfy` | how often are connections attempted? |
| `SenderWakeup.dfy` | is every spilled file looked for again? |
| `SenderWorld.dfy` | what does the sender thread do next, given what the environment will answer? |
| `SenderRounds.dfy` | what does one round of `run()` come to? |

**The program, on objects.**  `Buffer.dfy` (nodes, free list), `Buffers.dfy` (the ring around a
sentinel), `PartialIo.dfy` (what a loop of partial writes comes to), `Transport.dfy` (sending,
connecting, closing, TLS retries), `Link.dfy` (TCP or TLS), `Spool.dfy` (saving and file names),
`SpillFailure.dfy` (failed saves), `Address.dfy` (reading and printing addresses), and `Sender.dfy`,
which puts them together.  Class `Sender` runs the code of `run()` and of everything below it on
real nodes whose `prev` and `next` fields are overwritten by the queue and by the free list in turn.
Before every action of the sender thread, `Interfere` lets other threads do any number of things:
take and put back buffers, fill and relink those they hold, push chains, and, over the limit, take
the whole queue and walk it as `save_buffers()` does, each with its own chain, one save and one
`put()` at a time.  Every action is recorded as an event, and `Valid` says that the objects are in
the state to which the recorded events lead: what the queue, the chains and the files carry, how
often a connection was attempted, and every byte that every connection has carried.  It also says
that each event of the sender thread is the one that `SenderWorld.Next` names for the answers that
the environment really had in store.  So `Run` ends with a legal run of the protocol in hand in which
the sender thread never had a choice (`SenderWorld.Determined`), and what was proved of all runs
holds for it.

An answer of the environment (how much `write()` takes, whether `connect()` succeeds, what
`readdir()` lists) is a parameter, or is drawn from a finite script that ends in a hard error; all
proofs are for every such answer.  Contracts speak of these answers as they are given, not as the
loops translate them.  `hide` statements only make proofs cheaper.

What came out false of the code is stated as such, with the exact condition under which it holds:

* After a failed save, `save_buffers()` neither advances nor stops.  It returns true exactly when
  every save succeeds.  It returns false exactly when the first save to fail is that of the last
  buffer and it succeeds when tried again, and then the allocator's free list is a loop.  In all
  other cases it does not return (`SpillFailure.SaveBuffers`); one buffer and one failure are enough
  (`SpillFailure.OneBufferFailsOnce`).
* `send_file()` reports success for a file that it cannot open or map, and the file is then
  removed.  A run keeps every payload that has bytes in it if and only if no scan of it meets such a
  file with bytes in it (`SenderCustody.ConservedIffFilesMap`); `SenderCustody.UnmappableFileLost`
  is a run that loses one.
* Files on disk, announced to the sender thread at the start as a new sender's are, stay announced at
  every moment of a run if and only if no scan that comes to its end, and no save at the end of
  `run()`, misses one
  (`SenderWakeup.WatchedIffNothingMissed`).  Both kinds of miss occur, in runs of a new sender:
  `SenderWakeup.ForgottenFromStart` for a producer that spills during a scan, and
  `SenderWakeup.FinalSaveForgotten` for a plain stop.

Where the code and its comments differ the model follows the code: the comment above
`max_queued_buffers` calls it a maximum, but the queue is spilled only once it holds more than
that, and a batch put back after a failure is not checked against it.

## Model

| member | source | states |
|---|---|---|
| SenderCustody.Conservation | net/sender.cpp:63-358 | In every run and under every interleaving: the files found at the start plus everything accepted are, as a multiset, exactly what is sent, in flight, queued, being spilled, on disk, or removed by a scan because it was empty or could not be opened or mapped. |
| SenderCustody.ProducerStepCustody | net/sender.cpp:63-81 | An action of a producer moves payloads between places; only accepting buffers adds any, and just those. |
| SenderCustody.SenderStepCustody | net/sender.cpp:83-222 | No action of the sender thread creates or destroys a payload, whatever network, clock and directory answer. |
| SenderCustody.ConservedIffFilesMap | net/sender.cpp:290-316 | Every payload with bytes in it is still somewhere (sent, in flight, queued, being spilled, on disk) if and only if no scan of the run met a file with bytes in it that could not be opened or mapped. |
| SenderCustody.AllMapMeetsNone | net/sender.cpp:290-316 | When open and map succeed on every file the scans come to, none such is met. |
| SenderCustody.UnmappableFileLost | net/sender.cpp:265-316 | A run that loses one: any new sender whose first scan meets a file with bytes in it that does not map. |
| SenderCustody.FileKept | net/sender.cpp:360-389 | Through any run that does not remove it, a file stays there with the same bytes; no later spill overwrites it. |
| SenderCustody.SavedThenSent | net/sender.cpp:265-316 | A file made by a spill and not removed in between puts on the network exactly the payload that was to be saved, whatever happened meanwhile. |
| SenderCustody.NothingComesBack | net/sender.cpp:218-222 | After the last pop of the queue, with nothing more accepted, the queue stays empty and the batch is empty when `run()` returns. |
| SenderCustody.DrainOnStop | net/sender.cpp:54-61 | When `run()` has returned with no producer active since the last pop, memory is empty, and everything accepted or found on disk has been sent, is on disk, or could not be mapped. |
| SenderOrder.StepLine | net/sender.cpp:127-184 | Except for spills, every action leaves "sent from memory, in flight, queued" as it was or appends what was accepted; a failed batch returns to its own place. |
| SenderOrder.FifoWithoutSpill | net/sender.cpp:127-184 | As long as nothing is spilled and no files were there, sent ++ in flight ++ queued is exactly the accepted sequence, however often batches fail half-way while producers append. |
| SenderOrder.FifoIffAllInLine | net/sender.cpp:63-222 | From an empty directory, with spills or without: sent from memory ++ in flight ++ queued is the accepted sequence if and only if nothing was sent from files and nothing is on disk, being spilled or lost. |
| SenderOrder.NeverReordered | net/sender.cpp:63-222 | With spills too, what was sent from memory, is in flight and is queued is always a subsequence of what was accepted. |
| SenderWire.StreamShape | net/sender.cpp:224-238 | On every connection of every run: whole payloads, then at most a proper prefix of one whose send failed; a connection with such a prefix is no longer open; the whole payloads of all connections in order are what counts as sent. |
| SenderWire.ClosedForGood | net/sender.cpp:224-238 | Nothing about a closed connection ever changes again: it is not written to any more. |
| SenderTiming.ReconnectSpacing | net/sender.cpp:91-124 | When the clock readings of one `run()` never decrease, consecutive connection attempts are at least 30 seconds apart, however the connection between them ended. |
| SenderTiming.StepTimely | net/sender.h:252-264 | The invariant behind it: past the gate no error is pending, and whoever is disconnected without a pending error may connect at once, except where a send has just failed. |
| SenderWakeup.WatchedIffNothingMissed | net/sender.cpp:240-288 | In every run that begins with them announced, as a new sender's does: files on disk are announced at every moment, by the state or by a spill under way, if and only if each scan that ends has come to every file that was there or was written during it, or a producer is then between its pop and its flag, and each save at the end happens while files are asked for or a producer is there. |
| SenderWakeup.RemainingIsDisk | net/sender.cpp:249-277 | During a scan the files on disk are those there when it opened the directory plus those saved since, minus those it has removed. |
| SenderWakeup.SpillingProducers | net/sender.cpp:63-81 | The producers that hold payloads to be written are those that have popped and not set the state since. |
| SenderWakeup.NothingForgotten | net/sender.cpp:240-288 | So files are always announced in every run in which scans list all files there at `opendir()`, no producer writes during a scan, and what is saved at the end is announced. |
| SenderWakeup.SpillDuringScanForgotten | net/sender.cpp:69-79 | From any state where the only spill is about to write its last file during a scan, a three-step schedule leaves that file on disk with the sender back at the queue. |
| SenderWakeup.ForgottenFromStart | net/sender.cpp:63-81 | Such a state is reached, and the file forgotten, in a run of a new sender with three producers and an empty directory. |
| SenderWakeup.FinalSaveForgotten | net/sender.cpp:218-222 | A run of a new sender that accepts one buffer after its first scan and is stopped: the buffer is saved, but the state does not ask for files. |
| SenderWorld.Determined | net/sender.cpp:83-358 | What the sender thread does is settled by what the environment answers and by what the producers do when: two runs that agree on these are the same. |
| SenderWorld.NeverStuck | net/sender.cpp:83-358 | Until `run()` has returned, what comes next can be done. |
| SenderWorld.ClockReads | net/sender.cpp:91-93 | The clock is read once for each round that is over or under way, in order. |
| SenderRounds.LoneRound | net/sender.cpp:91-218 | A round that no other thread interferes with is a function of the state and the answers: whether the gate is passed, whether a connection is made, the longest prefix of the queue that is delivered, or exactly the files sent, lost and removed, and whether it ends in error. |
| SenderRounds.BatchSent | net/sender.cpp:131-184 | Whatever other threads do: of what was queued at the pop a prefix is sent, in order; all of it unless the round ends in error. |
| SenderRounds.TimeoutOnlyWhenEmpty | net/buffers.cpp:274-302 | A timeout is recorded only after the queue was found empty in this round, once more than the waits were signalled. |
| SenderRounds.ScanEndSawAll | net/sender.cpp:249-283 | A scan comes to its end only after every entry has been dealt with, in order. |
| SenderRounds.ScansMap | net/sender.cpp:249-277 | When all files that the rounds list can be mapped, so can all that scans come to. |
| SenderProtocol.AlwaysCoherent | net/sender.cpp:137-141 | At every moment of every run the sender is connected where it sends buffers or files, and holds a batch exactly between a pop and its end; past the gate no error is pending. |
| SenderProtocol.StepCoherent | net/sender.cpp:83-222 | Every action keeps this. |
| SenderProtocol.LegalSplit | net/sender.cpp:83-222 | A run cut anywhere is a run up to there and a run from there. |
| SenderThread.Sender.Run | net/sender.cpp:83-222 | `run()` over any sequence of rounds, among other threads: every buffer stays in exactly one place; the thread ends with empty hands; what it did is the run in which each of its events is what comes next for these rounds, this script of the network and what the producers did; the clock is read once a round; conservation, order, the FIFO condition, stream shape and the final balance hold; clocks that do not decrease give attempts 30 seconds apart, as many as were dialled; rounds whose entries all map lose nothing; the recorded streams are what the connections carried; without accepts after the loop the queue ends empty. |
| SenderThread.Sender.OneRound | net/sender.cpp:91-218 | One round uses up one round of answers and ends at the loop's condition with empty hands and the error flag telling what the protocol says; if no other thread interferes, what is sent, saved, lost, queued and on disk afterwards is what `RoundAlone` says of the old state and of the answers. |
| SenderThread.Sender.Serve | net/sender.cpp:126-217 | From the queue: a prefix of what was popped is sent, all of it unless in error. From the directory: exactly what was found under the round's entries, under all of them unless in error. |
| SenderThread.Sender.ServeQueue | net/sender.cpp:127-200 | What is sent is a prefix of what was popped, all of it exactly when there is no error; what was popped is the queue as it was, if there was one. |
| SenderThread.Sender.ServeBatch | net/sender.cpp:137-184 | With a connection, open or made now, the longest prefix of the batch that is delivered is sent; without, nothing; the rest leads the queue. |
| SenderThread.Sender.WorldTells | net/sender.cpp:83-222 | From what the rounds answer to clock reads, spacing and conservation of this run. |
| SenderThread.Sender.PassTheGate | net/sender.cpp:95-124 | Goes on exactly if no error is pending or, after 30 seconds, there is a connection or the next attempt comes to one; recorded as one gate event. |
| SenderThread.Sender.TryPop | net/buffers.cpp:243-258 | One look at the queue: all of it, in order, comes into the thread's hands with its payloads, first and last being the ends of that chain, and the queue is empty; an empty queue is recorded as such. |
| SenderThread.Sender.AwaitQueue | net/buffers.cpp:274-302 | One look after each wait that is signalled, with other threads at work in between; a timeout only after all of these found the queue empty. |
| SenderThread.Sender.PopBatch | net/sender.cpp:127-131 | If there is a queue, that queue is popped at once; otherwise what a later look finds, or nothing after a timeout. |
| SenderThread.Sender.ConnectForBatch | net/sender.cpp:137 | The batch is kept; true exactly when there is a connection or the next attempt comes to one. |
| SenderThread.Sender.SendBatch | net/sender.cpp:139-174 | The walk over a popped chain: what is sent is the longest prefix of the batch that the peer and the transport let through, in order; all of it exactly on success; on failure the rest is at the front of the queue, ahead of what was pushed meanwhile. |
| SenderThread.Sender.SendOne | net/sender.cpp:139-173 | One step of that walk: the successor is read before `put()` overwrites the link, and the chain in hand shrinks by its head even if the freed node is queued again at once. |
| SenderThread.Sender.GiveBack | net/sender.cpp:167-183 | The chain in hand, and with it the unsent payloads, goes to the front of the queue as it is by then. |
| SenderThread.Sender.CloseIdle | net/sender.cpp:185-194 | After an empty pop a connection is closed exactly when it has been idle for 60 seconds. |
| SenderThread.Sender.Connect | net/sender.h:252-264 | Connected already: nothing changes. Otherwise the time is recorded, exactly one attempt is made, and it succeeds exactly when the next answers to an attempt come to a connection. |
| SenderThread.Sender.SendBytes | net/sender.cpp:224-238 | True exactly when the peer is there and the transport's answers let the whole payload out; then it went out whole, and nothing else. False: exactly the prefix that they let out did, nothing of it if the peer has closed, and the connection is closed. The time is recorded either way. |
| SenderThread.Sender.SendFile | net/sender.cpp:290-316 | A file that can be mapped is sent whole and removed, or stays if it is not delivered, which is when the result is false; a file that cannot be mapped is removed unsent. |
| SenderThread.Sender.ScanDirectory | net/sender.cpp:249-277 | The loop over the entries, with producers writing files meanwhile: what was found under each entry when the scan came to it, files written during the scan included, was delivered or removed unsent, in order; false exactly when the next one is a file that maps and is not delivered; all other files are untouched. |
| SenderThread.Sender.SendFiles | net/sender.cpp:240-288 | True exactly when there is a connection or the next attempt comes to one, the directory can be opened, and every file found that maps is delivered; then every entry was dealt with and none is still there unless written again. Otherwise nothing was done, or the next entry is a file that maps and was not delivered, and it and all files not dealt with are still there with their bytes. Producers may act until the state is written. |
| SenderRounds.FoundIsSent | net/sender.cpp:265-268 | Each file that was found and can be mapped is among what is to be sent. |
| SenderThread.ScannedStep | net/sender.cpp:249-277 | Dealing with one more entry, while producers may write, extends what the scan has achieved by exactly that entry. |
| SenderThread.ScannedStill | net/sender.cpp:249-277 | What producers do while the scan stands still does not undo it. |
| SenderThread.Sender.SaveBuffers | net/sender.cpp:318-358 | The last spill ends with empty hands and everything it took written; undisturbed, in order under the names that the naming theorem describes; if nothing is accepted meanwhile, the queue ends empty. |
| SenderThread.Sender.SaveEach | net/sender.cpp:329-354 | Its loop: each buffer of the chain is written and put back to the allocator, among other threads. |
| SenderThread.Sender.SaveBuffer | net/sender.cpp:360-389 | Writes the payload at hand to the first free name from the counter on and moves the counter past it. |
| SenderThread.Sender.Interfere | net/sender.cpp:63-81 | Whatever other threads do, what the sender thread holds is untouched, no file changes or disappears, and every new file was written by a spill. |
| SenderThread.Sender.OtherSend | net/sender.cpp:73-81 | A producer's chain, with its payloads in order, goes to the end of the queue; the producer goes on to spill exactly when more than 10000 are queued then. |
| SenderThread.Sender.OtherSpillPop | net/sender.cpp:318-327 | A producer over the limit gets the whole queue as its own chain, in order. |
| SenderThread.Sender.OtherSpillSave | net/sender.cpp:360-389 | It writes what the node at hand carries, under the first free name from its counter on. |
| SenderThread.Sender.OtherSpillPut | net/sender.cpp:332-347 | It puts that node back, having read the link before; its chain shrinks by its head. |
| SenderThread.Sender.OtherSpillFlag | net/sender.cpp:66-70 | Only a producer that has written and put back its whole chain sets the state. |
| SenderThread.Sender.OtherWrite | net/buffer.cpp:75-88 | A thread may fill and relink a buffer in its own hands in any way, or fail to fill it: no list, no chain and nothing about to be sent or saved changes. |
| SenderThread.Sender.OtherPut | net/buffer.cpp:45-56 | A put by a thread that owns the buffer moves it to the free list and keeps every list and every thread's possession intact. |
| SenderThread.Sender.OtherGet | net/buffer.cpp:23-43 | A get hands out a buffer that nobody else has, or null when there is none and none can be made; new buffers all go to the free list. |
| SenderThread.Sender.constructor | net/sender.h:175-178 | A sender over an empty queue starts in a legal initial state, with each buffer in one place. |
| SenderLink.Link.Connect | net/sender.h:200-231 | Over TCP and over TLS: one attempt, which uses up one set of answers; true exactly when these give a descriptor without error whose first answer but EINTR is success, or in progress and then writable, and over TLS a TLS object whose handshake finishes; connected exactly then, on a new stream with nothing on it. |
| SenderLink.Link.ClosedByPeer | net/sender.h:220-250 | Says what the next `recv()` finds, and uses that answer up. |
| SenderLink.Link.Disconnect | net/sender.h:205-234 | Over both: not connected afterwards; every stream stays as it was. |
| SenderLink.Link.Send | net/sender.h:210-239 | True exactly when, over TCP, the kernel's answers before the first hard error have room for every byte, or, over TLS, the library finishes; then every byte went out on the present stream, otherwise exactly a proper prefix; earlier streams do not change. |
| SenderLink.CutShort | net/sender.cpp:224-238 | A payload is cut exactly when it is not delivered, and then short. |
| BufferQueue.Buffers.constructor | net/buffers.h:61-65 | The empty ring. |
| BufferQueue.Buffers.Distance | net/buffers.h:67-77 | Counts the nodes of a chain. |
| BufferQueue.Buffers.PushFront | net/buffers.cpp:19-40 | The node is prepended, in both link directions; returns the new length. |
| BufferQueue.Buffers.PushFrontChain | net/buffers.cpp:42-68 | The whole chain is prepended in order; both directions stay right if they were right in both parts; returns the new length. |
| BufferQueue.Buffers.PushBack | net/buffers.cpp:70-91 | The node is appended, in both directions; returns the new length. |
| BufferQueue.Buffers.PushBackChain | net/buffers.cpp:93-119 | The whole chain is appended in order, likewise. |
| BufferQueue.Buffers.PopFront | net/buffers.cpp:121-144 | The head is removed and returned; null exactly for an empty queue. |
| BufferQueue.Buffers.Pop | net/buffers.cpp:205-235 | All nodes are detached as one chain with its length, links between them untouched; the ring is empty. |
| BufferQueue.Buffers.PopFrontTimed | net/buffers.cpp:146-203 | With any operations of others during each wait, pushes of chains included: either one head removal from the queue as it is then, or null with the queue left to the others. |
| BufferQueue.Buffers.PopTimed | net/buffers.cpp:237-303 | Likewise for all nodes: one pop of the queue as it is then, or nothing and the queue untouched. |
| BufferQueue.Buffers.OtherThreads | net/buffers.cpp:182-202 | What any sequence of pushes, of nodes and of chains, and pops of others makes of the ring. |
| BufferQueue.Buffers.Destroy | net/buffers.cpp:4-17 | Every queued node is deleted once, and its link is read before it is. |
| BufferQueue.RingJoin | net/buffers.cpp:42-119 | Two linked lists tied together and around the sentinel are a ring of the concatenation. |
| BufferQueue.AfterUsesWithin | net/buffers.cpp:182-202 | Other threads bring only nodes into the queue that they pushed. |
| BufferNodes.Allocator.Allocate | net/buffer.cpp:58-73 | Puts up to 10000 new nodes in front of the free list, as many as memory allows; true exactly when the list is not empty. |
| BufferNodes.Allocator.Get | net/buffer.cpp:23-43 | Hands out a node that is no longer in the list, allocating only when empty; null exactly when empty and nothing could be made. |
| BufferNodes.Allocator.Put | net/buffer.cpp:45-56 | Prepends the node; the list stays a list if the node was not in it, and becomes a loop if it was. |
| BufferNodes.Allocator.Destroy | net/buffer.cpp:9-21 | Every free node is deleted exactly once. |
| BufferNodes.LoopCatches | net/buffer.cpp:45-56 | Following `next` never leaves a loop. |
| BufferNodes.LoopingIsNotTerminated | net/buffer.cpp:9-21 | A free list that has become a loop is not a list of any nodes: the destructor's walk has no end. |
| SpillFailure.SaveBuffers | net/sender.cpp:318-358 | As written, with any outcomes of the saves: returns true if and only if all succeed, and then the chain is on the free list in reverse, each node once; returns false if and only if the first to fail is that of the last buffer and a later one succeeds, and then the free list has no end; otherwise it does not return. |
| SpillFailure.OneBufferFailsOnce | net/sender.cpp:348-354 | A single buffer whose save fails and then succeeds: returns false with a free list that has no end. |
| SpillFailure.AfterFailure | net/sender.cpp:329-354 | From the first failed save on: returns exactly when that buffer was the last and a later save succeeds, and then the free list has no end. |
| SpillFailure.AfterEarlier | net/sender.cpp:329-354 | Once a save before the last has failed, the walk never comes to the last buffer, so it never returns. |
| SpillFailure.PutAgain | net/buffer.cpp:45-56 | A second put of a free node ties a loop, and puts onto a looping list keep it looping. |
| SpillFailure.FreeClosed | net/buffer.cpp:45-56 | From the nodes of the free list `next` leads to one of them or to null. |
| Transport.Socket.Send | net/socket.cpp:385-412 | True exactly when the kernel's answers have room for every byte before one that is a hard error, or EAGAIN without becoming writable in time; the bytes on the wire are exactly the prefix taken, and no more answers are used up than it takes. |
| Transport.Socket.SendSome | net/socket.cpp:368-383 | Interrupted calls are repeated; what is reported as taken is what went out. |
| PartialIo.AllMoved | net/socket.cpp:385-412 | Everything goes out if and only if the answers before the first one that ends the loop have room for it. |
| PartialIo.MovedIsRoom | net/socket.cpp:385-412 | What goes out is what those answers have room for, whatever the sizes of the partial writes. |
| PartialIo.UsedAreNeeded | net/buffer.cpp:99-114 | No more answers are asked for than it takes. |
| Transport.TakesAllIffMoved | net/socket.cpp:385-412 | On the kernel's own answers: all goes out if and only if some of the first answers have room for it and none of these is a hard error, or EAGAIN without becoming writable in time. |
| Transport.SentUpToError | net/socket.cpp:385-412 | On the same answers: what goes out is the room before the first such answer. |
| Transport.Socket.ConnectOnce | net/socket.cpp:450-480 | True exactly when the first answer that is not EINTR is success; the descriptor stays open also when the connection is in progress. |
| Transport.Socket.Connect | net/socket.cpp:482-516 | From closed: one attempt; true exactly when a descriptor is open afterwards, and exactly under the stated answers; no descriptor leaks. |
| Transport.Socket.Close | net/socket.h:715-721 | Closed afterwards, and closed once. |
| Transport.TlsSocket.Handshake | net/ssl/socket.cpp:76-98 | True exactly when a TLS object is left, and exactly when it was made, attached and shook hands. |
| Transport.TlsSocket.Retry | net/ssl/socket.cpp:281-328 | True exactly when some answer finishes and each one before it was an interrupt, or wanted to read or to write and the socket became ready in time. |
| Transport.TlsMovedAll | net/ssl/socket.cpp:221-266 | Over any answers, all of a payload is out exactly when the library finishes, unless there is nothing to let out. |
| Transport.TlsSocket.Connect | net/ssl/socket.cpp:268-279 | From closed: descriptor and TLS object are both there on true, neither on false. |
| Transport.TlsSocket.Close | net/ssl/socket.h:91-99 | Both gone, each released once. |
| Transport.TlsSocket.Send | net/ssl/socket.cpp:221-266 | Over any answers of the library, each of which may let part of the payload out: true exactly when it finishes in that sense, and then every byte went out once; false and exactly a proper prefix did. |
| Spool.Save | net/buffer.cpp:90-121 | Succeeds exactly when the answers of `write()` before the first error but EINTR have room for all bytes; then the file holds exactly the buffer's bytes whatever short writes and interrupts there were; after a failed write it is gone; no other file changes. |
| Spool.FreeName | net/sender.cpp:360-386 | The search ends, after at most as many steps as names from the counter on are in use, at the first free name; the counter goes on behind it. |
| Spool.SaveBuffer | net/sender.cpp:360-389 | No file that is there is touched, whether the save succeeds or not; on success the first free name holds the bytes. |
| Spool.FirstFree | net/sender.cpp:371-384 | There is a first free counter, at most as far away as there are names in use from the counter on. |
| Spool.FirstFreeUnique | net/sender.cpp:371-384 | And only one. |
| Spool.NameInjective | net/sender.cpp:373-383 | Different counters give different names, also beyond six digits. |
| Spool.SpillNaming | net/sender.cpp:318-389 | An undisturbed spill with one timestamp puts the queue in order under distinct fresh names with strictly increasing counters; old files stay as they were and nothing else appears. |
| Spool.CountersFresh | net/sender.cpp:366-386 | The names are not in use before and the counters strictly increase. |
| Spool.SpilledContents | net/sender.cpp:318-358 | The i-th name holds the i-th payload at the end. |
| Spool.OldFilesStay | net/sender.cpp:371-384 | No file is overwritten. |
| Spool.NothingElse | net/sender.cpp:318-358 | There are exactly as many more files as payloads. |
| Spool.CountersBounded | net/sender.cpp:322 | Starting from 0, each counter is at most the number of files there just before, so a 32-bit counter does not wrap before there are 2^32 of them. |
| Address.ParsePort | net/socket.cpp:7-26 | Accepts exactly the strings of digits with a value from 1 to 65535 and returns the value; 32-bit arithmetic does not wrap. |
| Address.ValueMonotone | net/socket.cpp:11-13 | More digits never make a number smaller, so rejecting early is right. |
| Address.ExtractIpPort | net/socket.cpp:28-67 | Succeeds exactly on the addresses of the grammar, then gives the host they denote, NUL-terminated, and the port; otherwise leaves the caller's array alone. |
| Address.LastColon | net/socket.cpp:30-39 | Finds the last colon, if there is one. |
| Address.DenotesOne | net/socket.cpp:28-67 | No address denotes two endpoints. |
| Address.DecimalValue | net/socket.cpp:260-263 | Printing a number in decimal gives digits with that value. |
| Address.ToString4 | net/socket.cpp:252-271 | Succeeds exactly when text and NUL fit, and then the array holds `ip:port`. |
| Address.ToString6 | net/socket.cpp:273-298 | Likewise for `[ip]:port`. |
| Address.RoundTrip4 | net/socket.cpp:252-271 | What is printed for an IPv4 endpoint denotes that endpoint and no other, for every port from 1 to 65535 and every non-empty text shorter than 46 not beginning with a bracket. |
| Address.RoundTrip6 | net/socket.cpp:273-298 | Likewise in brackets, for every non-empty text shorter than 46. |

## Left out

- SenderThread.Sender.SaveBuffer: every save of the whole-run model succeeds; what failed saves do is modelled on its own in `SpillFailure`, as the code is written.
- SenderThread.Sender.SendFile: `unlink()` always succeeds, and the send and the unlink of one file are one step; so is the save of one file.
- SenderThread.Sender.AwaitQueue: how often a wait is signalled before one times out is the environment's answer; a wake-up is not tied to a push.
- SenderThread.Sender.OtherSpillSave: its save succeeds too, for the same reason.
- BufferNodes.Buffer.Init: has no row, its contract being what the code does; it is used by `SenderThread.Sender.OtherWrite`.  What `realloc()` does for a length of zero is not modelled.
- SenderThread.Sender.OtherSend: the one-buffer `send()` is a chain of one.
- BufferQueue.Buffers.PopTimed: the deadline arithmetic is left out; a chain that others push is linked both ways by whoever pushes it.
- Transport.TlsSocket.Write: that one `SSL_write()` which does not finish leaves at least one byte of the plain text inside is an assumption about the TLS library.
- Spool.FreeName: the counter is unbounded; `Spool.CountersBounded` says when 32 bits suffice.
- Spool.Name: directory prefix and local time are one string parameter, and the length limit of file names is left out; only regular files occupy names.
- SenderProtocol.Initial: a run starts disconnected.  Starting a stopped sender again is left out: `start()` neither closes an open connection nor resets the state, so a sender started again does not look for what its final save wrote (`SenderWakeup.FinalSaveForgotten`).
- Data races on the state, running and time fields: each access is one atomic step; `start()`, `stop()` and thread creation only appear as the loop's end.
- Termination of `run()` and of the retry loops under endless interrupts or rounds: rounds and scripts of answers are finite, and scripts end in a hard error.
- Liveness: that a waiting consumer is woken, that a queued buffer is eventually sent.
- A bound on the queue's length over runs, and the order in which a scan meets files: the code promises neither.
- `recv`, `shutdown`, `listen`, `accept`, socket options, TLS contexts and library set-up: thin wrappers.
- `inet_pton`, `inet_ntop`, `address::build`, local (AF_UNIX) addresses and address comparison: the text of an IP is a parameter.
- The test programs.
