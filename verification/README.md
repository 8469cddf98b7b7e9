# DriveBus verification model

DriveBus is a zero-copy publish/subscribe bus between processes. A publisher owns a shared mapping with a ring of 16
descriptors, 128 chunks in five size classes whose free lists are threaded through the chunks' own bytes, one bit mask
of readers per chunk, and one read index for each of 16 subscriber slots. A broker hands out the slots and the file
descriptors over control sockets. An asynchronous publisher puts a bounded queue and a worker thread in front of the
ring.

The project models these three parts and proves what they promise.

* **The shared-memory data plane.** `Pool` is a state machine in which every subscriber stops between any two of the
  points where its process can die (clear the bit, store the read index, clear the chunk's mark, link the old tail to
  it, move the tail, signal), the publisher publishes, lets readers join and reaps dead ones at the same points, and
  all of them interleave. Its invariant (`PoolInvariant`) is carried through every run (`PoolRuns`, `PoolCounting`,
  `PoolSignals`, `PoolLimits`). The free lists' tails have no lock; `PoolCarriers` proves that they need none, because
  no two processes are ever inside a tail append. `Memory` says when the words and bytes of a mapping represent a state
  of that machine: indices modulo 16, descriptors as offset and length, masks as 32-bit words (`Bitmask`), free lists as
  links in the data bytes, messages as framed bytes (`Bytes`, `Layout`). `MappingMachine` is a second machine that
  knows nothing but these words and bytes and the endpoints' own locals; `MappingRuns` proves that each of its runs,
  in every interleaving, is a run of the pool machine, so no check ever fails and readers are given the bytes that
  were published, and `MappingProgress` that a live reader's own steps bring it level with the publisher.
  `SharedData`, `Publisher` and `Subscriber` hold the classes that update real arrays in place; each of their methods
  is proved to take the mapping from representing one state to representing the machine's next. The methods for single
  program points perform the steps of the word machine one by one; the methods with loops run without interference.
* **The publish queue and its worker.** `Queue` is a state machine whose steps are the critical sections and single
  event operations of clients and worker; `QueueInvariant` and `QueueRuns` prove exactly-once completion, order, the
  bound, and that no work is forgotten, `QueueSchedule` when the worker's own flags show it, `QueueEnds` what a
  hand-over and a failure leave behind, `QueueStops` which way a worker ends and why, `QueueHandler` what one event may
  publish. `Worker` is the class with the queue's fields and the worker's handlers. `System` puts the queue on top of
  the pool, where the worker's scans load each index at a moment of its own, and proves that a space wake-up is never
  lost and that accepted messages are what subscribers receive (`SystemLimits` has its limiting run, `SystemProgress`
  what a wake-up leads to). `DataWakeup` does the same for the data event, for a ring of any size.
* **The broker.** `Broker` folds the loops of its four handlers; `BrokerInvariant`, `BrokerRegisters`, `BrokerLeaves`
  and `BrokerRuns` prove that its maps agree, that none of its "missing" or "already exists" errors can arise, and
  that replaying either control channel gives the endpoint the broker's view; `BrokerDescriptors` that subscribers get
  the descriptors their publishers sent, `BrokerLimits` exactly which registrations are accepted. `BrokerProcess` runs
  the handlers as loops over the maps, `Control` runs the publisher's end of its channel, `Wire` is the attachment
  batch as bytes and descriptors.

Each step of a machine is one atomic action of the program, and actions of different threads and processes interleave in
any order. Indices, sequence numbers and message identities are unbounded in the machines and wrap where the code's
words do.

The repository's README (line 299) lists concurrent reclamation by several subscribers and abnormal exits as timings
still to be verified. Both are in every run of the two machines: `PoolRuns.AppendsNeverMeet` is about the first,
`PoolInvariant.CrashKeeps`, the reap's steps and `PoolCounting.AtRestCanPublishIff` about the second.

## What does not hold, and exactly when

* "Whoever makes room signals." A reader that is not the last holder may store its read index after the last holder has
  already signalled; that store can turn a blocked publisher into an able one while nobody is about to signal
  (`PoolLimits.RoomCanAppearSilently`, and `SystemLimits.RoomCanAppearWhileAsleep` with the worker asleep on a blocked
  message). `PoolSignals.RoomIsAnnouncedIff`: a step that makes room is followed by its subscriber's signal exactly when
  that subscriber's clear found its bit alone in the mask. The wake-up is late but not lost: that reader is alive with
  14 messages to read, a due signal is given before readers come to rest (`PoolSignals.DueOrGiven`,
  `PoolSignals.DueSignalIsGiven`), and what dead readers hold is reaped, followed by a recheck
  (`PublisherSystem.RecheckFollows`).
* "A class of 16 chunks runs short only when the ring is full." `PoolLimits.SixteenCanBeShort` is a run without any
  death that ends otherwise; `PoolCounting.SixteenBlockedIff` gives the exact condition, and `PoolCounting.BlockedIff`
  the one for every class and any losses.
* "Room comes back once everything is read." A chunk whose last holder dies between clearing its bit and moving the tail
  never returns. `PoolLimits.SevenDeathsExhaustAClass` is a run after which a class of eight chunks is unusable for
  good; `PoolCounting.AtRestCanPublishIff` gives the exact condition.
* "A message in the ring is completed as Published." `QueueEnds.PublishedButFailed` is a run that reports a delivered
  message as failed; `QueueEnds.PublishedButFailedIff`: this happens exactly to the last message of a run in which an
  attempt stored its write index and then could not write a reader's event.
* "With work outstanding and no handler running, the work event is pending, or the publisher is not ready and its
  in-flight message blocked." `QueueSchedule.HandOverForgetsByFlags` is a run that ends otherwise: the worker started
  after a move is ready although its in-flight message is blocked. `QueueSchedule.ScheduledIff`: exactly two steps break
  the claim - such a start, and a publish that cannot be announced and so takes the blocked message out of flight and
  puts it back into the queue, each with no work event pending. `QueueRuns.NoForgottenWork` holds in every run: the
  message next in line was refused room, so a space event will come for it.
* `docs/broker_protocol.md` and the comment in `src/subscriber.cpp:682-690` disagree with the code about the attachment
  batch (two descriptors per attachment; no attachment id). The model follows the code: three descriptors, 13 bytes.

## Model

| member | source | states |
|---|---|---|
| Layout.FindSizeClass | include/shared_memory_layout_helpers.hpp:3-10 | the loop returns the first class that is large enough, or -1 if none is |
| Layout.SizeClass | include/shared_memory_layout_helpers.hpp:3-10 | every smaller class is too small for the size; there is no class exactly when all are too small |
| Layout.OffsetOfIsChunkOffset | include/shared_memory_layout.hpp:12-45 | each of the 128 chunk indices has an allocatable offset inside the pool, and recomputing the index from it gives it back |
| Layout.ChunkIndexIsBijective | include/shared_memory_layout.hpp:22-45 | every allocatable (class, offset) names one index below 128, from which class and offset can be recovered |
| Layout.ChunksAreDisjoint | include/shared_memory_layout.hpp:12-45 | the byte ranges of different chunks do not overlap |
| Layout.ChunksTileThePool | include/shared_memory_layout.hpp:12-45 | every byte of the pool lies in exactly one chunk |
| Layout.DescriptorNamesItsChunk | src/subscriber.cpp:416-419 | offset and length alone lead every endpoint to the chunk the publisher took, with room for the message |
| Layout.EveryPayloadHasAClass | src/publisher.cpp:1001-1006 | a payload fits some class exactly when it has at most 1016 bytes |
| Bytes.U32RoundTrip | src/publisher.cpp:1057-1062 | a 32-bit value stored little-endian is read back unchanged |
| Bytes.LeastByteFirst | src/publisher.cpp:1057-1062 | its bytes are stored least significant first |
| Bytes.SpliceElsewhere | src/publisher.cpp:1064-1069 | a copy into a byte range leaves every disjoint range as it was |
| Bitmask.FetchAnd | src/subscriber.cpp:476-477 | clearing a slot's bit in a word that means a set of slots gives the word that means the set without it |
| Bitmask.BitsDouble | src/publisher.cpp:1076-1080 | slot 0 has the lowest bit and each slot the bit after its predecessor's |
| Bitmask.FetchAdd | src/publisher.cpp:1074-1082 | adding a bit not yet set is the union with that slot: no carry spills into another slot |
| Bitmask.FetchAddToEmpty | src/publisher.cpp:1084 | adding a mask to an empty word leaves exactly that mask |
| Bitmask.OnlyHolder | src/subscriber.cpp:485 | the previous word equals the reader's bit exactly when the reader was the only holder |
| Bitmask.MeansIsInjective | include/shared_memory_layout.hpp:71 | two words with the same set of slots are the same word |
| PoolInvariant.PublishKeeps | src/publisher.cpp:1027-1090 | a publish keeps the whole pool invariant |
| PoolInvariant.JoinKeeps | src/publisher.cpp:255-294 | a subscriber that joins mid-run keeps the whole pool invariant |
| PoolInvariant.ClearKeeps | src/subscriber.cpp:421-477 | reading a message and clearing the bit keeps the invariant; the message read is the one published there |
| PoolInvariant.StoreReadKeeps | src/subscriber.cpp:479-482 | storing the advanced read index keeps the invariant |
| PoolInvariant.UnmarkKeeps | src/subscriber.cpp:486-504 | clearing the mark of the chunk that returns keeps the invariant |
| PoolInvariant.LinkKeeps | src/subscriber.cpp:506-507 | linking the old tail to it keeps the invariant, wherever all other processes stand |
| PoolInvariant.ReturnKeeps | src/subscriber.cpp:508 | moving the tail keeps the invariant: the chunk was in no list and nobody's window |
| PoolInvariant.CrashKeeps | src/subscriber.cpp:474-516 | a subscriber may die at any program point, inside the append included |
| PoolInvariant.BeginReapKeeps | src/publisher.cpp:757-778 | starting to reap a dead slot keeps the invariant while the others go on |
| PoolInvariant.ReapClearKeeps | src/publisher.cpp:719-728 | clearing the dead reader's bit on a descriptor keeps the invariant, whether or not it had cleared it itself |
| PoolInvariant.ReapUnmarkKeeps | src/publisher.cpp:729-746 | clearing the mark of the freed chunk keeps the invariant |
| PoolInvariant.ReapLinkKeeps | src/publisher.cpp:748-749 | linking the old tail to it keeps the invariant, wherever the readers stand |
| PoolInvariant.ReapReturnKeeps | src/publisher.cpp:750-752 | moving the tail keeps the invariant: no half-consumed chunk loses its place at the end of a list |
| PoolInvariant.EndReapKeeps | src/publisher.cpp:785-786 | vacating the slot keeps the invariant and loses at most one chunk |
| PoolRuns.DeliveredInOrder | src/subscriber.cpp:406-520 | in every run, what a subscriber was given is exactly the payloads published since its slot was tracked, in order, without gap or repeat |
| PoolRuns.JoinerReceivesWhatFollows | src/publisher.cpp:289-291 | whoever joins in any reachable state is given exactly what is published from then on, whatever else happens until it is reaped |
| PoolRuns.RunExtends | src/publisher.cpp:991-1106 | no step takes back a published message |
| PoolRuns.RunKeepsStart | src/subscriber.cpp:479-482 | until it is reaped a slot keeps its start, and its index only grows |
| PoolRuns.BitMeansUnread | src/publisher.cpp:1076-1090 | a slot's bit is set on a chunk exactly when a message in its unread window is in that chunk |
| PoolRuns.FreeChunkIsUnread | src/publisher.cpp:1027-1061 | a chunk on a free list is held by nobody, carried by nobody and in no reader's unread window |
| PoolRuns.ReleaseIsSafe | src/publisher.cpp:715-755 | whichever step frees a chunk, it was not free before and no active reader has it unread afterwards |
| PoolRuns.UnreadMessageIsIntact | src/subscriber.cpp:436-461 | an unread message's chunk was not handed out again and is held by its reader |
| PoolRuns.NotReusedBeforeStored | src/subscriber.cpp:476-482 | a half-consumed chunk is never reallocated: until a slot's read index passes a message, its bit cleared or not, its owner alive, dead or being reaped, no later message is in that chunk |
| PoolRuns.AppendsNeverMeet | src/subscriber.cpp:485-508 | in every run at most one process is inside a tail append, the publisher's reap included |
| PoolCarriers.OneAppender | src/publisher.cpp:728-751 | so it is in every state that satisfies the invariant, for any two processes and whatever the class |
| PoolCounting.Conservation | src/publisher.cpp:78-92 | in every state a class's chunks are its free list, the held ones and the stray ones, three disjoint sets, and the list names none twice |
| PoolCounting.HeldFitTheSlowestWindow | src/publisher.cpp:1008-1019 | the held chunks inject into the slowest reader's window |
| PoolCounting.AtMostFifteenHeld | src/publisher.cpp:1008-1019 | with a reader attached at most 15 chunks are held |
| PoolCounting.LargeClassesNeverBlock | include/shared_memory_layout.hpp:14 | in every state with a reader attached, a class that deaths have cost fewer than its size less 17 chunks (18 during a reap) has two free ones: the classes of 64 and 32 chunks survive 46 and 14 losses |
| PoolCarriers.OneCarrier | src/subscriber.cpp:474-508 | at most one subscriber that is not being reaped is between clearing a bit as the last holder and having appended the chunk |
| PoolCarriers.FreeingAlone | src/publisher.cpp:726-751 | while the reap frees a chunk, no reader is: the dead slot's bit is still on every later message |
| PoolCarriers.HalfReadWaitsForReader | src/subscriber.cpp:485-508 | while a reader brings a chunk back, no other half-consumed chunk is on a free list |
| PoolCounting.BlockedIff | src/publisher.cpp:1009-1033 | a publisher with a reader attached is blocked exactly when the ring is full or the last reader's unread messages of the class, the chunk on its way back and the lost ones leave a single chunk |
| PoolCounting.SixteenBlockedIff | include/shared_memory_layout.hpp:14 | with nothing lost and the ring not full, the class of 16 is short exactly when 14 messages are unread, all of this class, and a fifteenth chunk is on its way back |
| PoolCounting.BlockedMeansSomeoneHasUnread | src/publisher.cpp:1009-1033 | a publisher blocked with a reader attached, on a class that deaths have left three chunks, has a reader with an unread message |
| PoolCounting.AllReadCanPublishIff | src/publisher.cpp:1009-1033 | with all messages read, a publish finds room exactly when carried and lost chunks are fewer than all but one of the class |
| PoolCounting.AtRestCanPublishIff | src/publisher.cpp:1009-1033 | with all messages read and nobody reading, a publish finds room exactly when fewer than all but one of the class's chunks were lost |
| PoolCounting.DeathsBoundLosses | src/publisher.cpp:757-802 | no more chunks are lost than subscribers were reaped |
| PoolSignals.UniqueSlowestIsLastHolder | src/subscriber.cpp:476-485 | a reader strictly behind all others is the last holder of its next message |
| PoolSignals.AtomicConsumeThatUnblocksSignals | src/subscriber.cpp:474-516 | a whole consumption that turns the publisher from blocked to able ends with nothing left to do but the signal |
| PoolSignals.RoomIsAnnouncedIff | src/subscriber.cpp:474-485 | a subscriber's step that makes room is followed by its own signal exactly when its clear found its bit alone in the mask |
| PoolSignals.UnblockingLeavesASignalDue | src/subscriber.cpp:474-516 | at the grain of program points, whoever makes room is alive and has a signal to give or messages to read |
| PoolSignals.DueSignalStaysDue | src/subscriber.cpp:510-516 | while someone holds, carries or has returned a chunk, some subscriber does until a signal is given |
| PoolSignals.DueOrGiven | src/subscriber.cpp:510-516 | along every run of subscriber steps, deaths included, a due signal is given or still due at the end, from a live subscriber or as a reap |
| PoolSignals.DueSignalIsGiven | src/subscriber.cpp:510-516 | in every run of subscriber steps that comes to rest, a due signal is given |
| PoolSignals.RefusalIsMadeGood | src/publisher.cpp:1009-1033 | whoever saw no room at some moment and finds room later has been signalled since, or the signal is due |
| PoolSignals.StaleScanIsSafe | src/publisher.cpp:992-1025 | read indices and list ends loaded at any moments of an attempt: if they show room there is room when it publishes, and if they do not although there is, a signal was given meanwhile or is due |
| PoolSignals.NothingDueAtRest | src/subscriber.cpp:510-516 | with every reader idle and level, no signal is due |
| PoolLimits.RoomCanAppearSilently | src/subscriber.cpp:479-485 | a reachable state where room appears after the last signal for it was given |
| PoolLimits.SixteenCanBeShort | include/shared_memory_layout.hpp:14 | a reachable state in which the class of 16 is short, nothing is lost and the ring is not full |
| PoolLimits.SevenDeathsExhaustAClass | src/subscriber.cpp:474-508 | a run of seven deaths after which a class of eight chunks can never be published into |
| Memory.PublishRepresents | src/publisher.cpp:1057-1092 | the stores of a publish, byte for byte, represent the machine's publish |
| Memory.JoinRepresents | src/publisher.cpp:289-291 | storing the write index in a slot represents the join |
| Memory.ClearRepresents | src/subscriber.cpp:474-477 | clearing the bit in the mask word represents the clear, and the previous word tells whether it was the last |
| Memory.StoreReadRepresents | src/subscriber.cpp:479-482 | the read index stored modulo 16 represents the advance |
| Memory.UnmarkRepresents | src/subscriber.cpp:486-504 | clearing the mark represents the first step of an append; the mark was set, so nothing is freed twice |
| Memory.LinkRepresents | src/subscriber.cpp:506-507 | writing the link into the old tail chunk represents the second: no list, held chunk or other link changes |
| Memory.ReturnRepresents | src/subscriber.cpp:508 | storing the tail represents the append itself |
| Memory.ReapClearRepresents | src/publisher.cpp:719-728 | clearing the dead reader's bit represents the first step of a release, and the previous word tells whether an append follows |
| Memory.ReapUnmarkRepresents | src/publisher.cpp:729-746 | clearing the mark represents the second; the mark was set |
| Memory.ReapLinkRepresents | src/publisher.cpp:748-749 | the link into the old tail represents the third: no list, no held chunk and no other process's link changes |
| Memory.ReapReturnRepresents | src/publisher.cpp:750 | storing the tail represents the append itself |
| Memory.EndReapRepresents | src/publisher.cpp:785-786 | storing the invalid index represents vacating the slot |
| Memory.NextMessageIsThere | src/subscriber.cpp:413-461 | the descriptor at a live reader's index and the bytes it leads to are those of its next message |
| Memory.InitRepresents | src/publisher.cpp:62-93 | what initialisation leaves behind represents the empty pool |
| SharedMapping.SharedData.Initialize | src/publisher.cpp:62-93 | whatever the mapping held before, it then represents the empty pool, with every read index invalid |
| SharedMapping.SharedData.BuildFreeLists | src/publisher.cpp:69-92 | heads, tails and the links in the data bytes thread each class's chunks in address order |
| SharedMapping.SharedData.LinkClass | src/publisher.cpp:81-88 | one class's chunks are linked from head to tail and no other class's links change |
| SharedMapping.SharedData.LinkTail | src/subscriber.cpp:506-507 | the tail is read and its chunk linked to the one that returns |
| SharedMapping.SharedData.Copy | src/publisher.cpp:1064-1069 | memcpy changes exactly its byte range |
| PublisherSide.Publisher.FindSlowestReadIndex | src/publisher.cpp:695-713 | the result is the stored index of a reader no other reader is behind, or invalid exactly when there is no reader |
| PublisherSide.ScanReadIndices | src/publisher.cpp:699-708 | the scan's two minima: the least index above the write index and the least at or below it |
| PublisherSide.BackPressureIsRingBlocked | src/publisher.cpp:1009-1019 | the three-part test on indices modulo 16 holds exactly when there is no reader or some reader's window is full, and then only when the next position is that reader's |
| PublisherSide.Lag | src/publisher.cpp:695-713 | two stored indices less than a lap apart determine the distance |
| PublisherSide.Admission | src/publisher.cpp:1008-1033 | the back-pressure test and head != tail together decide exactly whether the machine can publish |
| PublisherSide.Publisher.TryPublishOne | src/publisher.cpp:991-1106 | publishes exactly when there is room, rejects exactly the payloads over 1016 bytes, never fails its own checks, and fails exactly when a reader's event cannot be written, with the message in the ring |
| PublisherSide.Publisher.Commit | src/publisher.cpp:1057-1092 | the mapping afterwards represents the publish of this payload |
| PublisherSide.Publisher.StoreMessage | src/publisher.cpp:1057-1092 | the stores of a publish leave exactly the published mapping |
| PublisherSide.Publisher.WriteMessage | src/publisher.cpp:1064-1070 | the three copies leave one frame with the running number, which wraps at 32 bits |
| PublisherSide.Publisher.HolderMask | src/publisher.cpp:1074-1083 | the sum of bits over the tracked event fds means exactly the slots in use |
| PublisherSide.SlowScanDecides | src/publisher.cpp:695-713 | the two minima of indices loaded one by one, at any moments of a run of subscriber steps, and the test on them decide whether each index left room when it was loaded |
| PublisherSide.Publisher.CanPublishNext | src/publisher.cpp:939-989 | the recheck says there is room exactly when an attempt would succeed |
| PublisherSide.Publisher.SignalReaders | src/publisher.cpp:1092-1100 | the tracked readers' events are written in turn up to the first that fails |
| PublisherSide.Publisher.TrackSubscriber | src/publisher.cpp:255-294 | which of the three rejections applies, and that otherwise the slot joins at the write index and the tables gain exactly this fd |
| PublisherSide.Publisher.ReleaseBit | src/publisher.cpp:719-728 | the dead reader's bit is cleared, and the previous mask tells whether it was the last |
| PublisherSide.Publisher.UnmarkFreed | src/publisher.cpp:729-746 | the freed chunk is marked in use, so the double-free check passes, and then it is not |
| PublisherSide.Publisher.LinkFreed | src/publisher.cpp:748-749 | the old tail is linked to it |
| PublisherSide.Publisher.MoveFreed | src/publisher.cpp:750 | the tail is moved to it |
| PublisherSide.Publisher.ReleaseOne | src/publisher.cpp:719-752 | one turn of the loop is the machine's four steps, without an error |
| PublisherSide.Publisher.ReleaseRange | src/publisher.cpp:715-755 | the loop reaps exactly the descriptors of its range |
| PublisherSide.Publisher.Sweep | src/publisher.cpp:771-784 | the window of the dead reader is covered in one piece or two |
| PublisherSide.Publisher.ReapDeadSubscriber | src/publisher.cpp:757-802 | succeeds exactly for a slot in use, and then the whole window is released, the slot vacated and its fd forgotten |
| SubscriberSide.Attachment.ReadAndClear | src/subscriber.cpp:413-477 | every check passes, the bytes read are the published payload, and the previous mask tells whether this was the last reader |
| SubscriberSide.Attachment.ReadWords | src/subscriber.cpp:416-477 | size class, offset, magic and number are checked, then only this reader's bit is cleared |
| SubscriberSide.Attachment.StoreReadIndex | src/subscriber.cpp:479-482 | the index advances and wraps exactly as the machine's |
| SubscriberSide.Attachment.UnmarkChunk | src/subscriber.cpp:486-504 | the chunk is marked in use, so the double-free check passes, and then it is not |
| SubscriberSide.Attachment.LinkChunk | src/subscriber.cpp:506-507 | the old tail is linked to the chunk |
| SubscriberSide.Attachment.MoveTail | src/subscriber.cpp:508 | the tail is moved to the chunk |
| SubscriberSide.Attachment.ReturnChunk | src/subscriber.cpp:485-508 | the chunk is marked in use before and on its class's list after: no double free |
| SubscriberSide.Attachment.SignalSpace | src/subscriber.cpp:510-516 | one write to the space event |
| SubscriberSide.Attachment.ReadOne | src/subscriber.cpp:413-518 | one turn of the loop delivers the next payload and signals exactly when this was the last reader |
| SubscriberSide.Attachment.ReadData | src/subscriber.cpp:406-520 | the loop delivers exactly the messages its descriptors describe, in order, with as many signals as it was the last reader of |
| SubscriberSide.Attachment.ConsumeContiguous | src/subscriber.cpp:522-546 | reads until the indices meet and delivers everything unread |
| SubscriberSide.Attachment.InitializeReadIndex | src/subscriber.cpp:548-553 | afterwards the reader's own index is the slot's stored one |
| SubscriberSide.Attachment.HandleDataAvailable | src/subscriber.cpp:555-609 | the handler delivers every message published before it, wrapped or not, and leaves the reader level with the publisher |
| SubscriberSide.ConsumeEffect | src/subscriber.cpp:406-520 | consuming n messages delivers exactly these and moves only this reader |
| SubscriberSide.NextNumber | src/subscriber.cpp:440-472 | the number in the next message passes the sequence check, including the first and a wrapped one |
| SubscriberSide.FrameParts | src/subscriber.cpp:436-461 | magic 21354532, the number modulo 2^32 and, from the eighth byte on, the payload are read back from a frame |
| MappingRuns.RunSim | src/subscriber.cpp:406-520 | every run of the machine of words and bytes, in every interleaving of publisher, readers, deaths and reaps, appends included, is a run of the pool machine, with all words, bytes and locals representing its state |
| MappingRuns.NoCheckFails | src/subscriber.cpp:419-461 | in no run does a check of class, offset, magic, number or mark fail or an access leave the mapping |
| MappingRuns.NextMessageIsSound | src/subscriber.cpp:436-461 | in every run, what a live reader with something unread is about to read has the magic and the number it expects |
| MappingRuns.JoinerIsGivenWhatFollows | src/subscriber.cpp:463-472 | whoever joins at any point of any run is given, byte for byte and in order, the payloads put into the ring from then on, and all of them once its index meets the write index |
| MappingProgress.LoadCopiesTheWindow | src/subscriber.cpp:576-583 | in every run: a live reader at its loop with nothing loaded that loads copies exactly the descriptors from its index to the end of the ring, if the write index has wrapped, or else to the write index, and these are those of its next messages |
| MappingProgress.ReaderCatchesUp | src/subscriber.cpp:555-609 | progress in every run: from wherever a live reader stands, its own loads, reads, stores, appends and signals bring its index to the write index, and add to what it was given exactly what it had not read |
| MappingProgress.JoinerIsGivenEverything | src/subscriber.cpp:463-472 | whoever joins at any point of any run and is alive later can by its own steps come to have been given all payloads put into the ring since it joined, and nothing else |
| MappingRuns.ReadSim | src/subscriber.cpp:413-477 | reading through a descriptor copied out of the ring earlier passes every check and yields the published bytes |
| MappingRuns.ReapClearSim | src/publisher.cpp:719-728 | clearing the dead reader's bit on words alone, with readers at any point, does what the pool machine's step does |
| MappingRuns.ReapLinkSim | src/publisher.cpp:748-749 | so does linking the old tail, with readers at any point |
| MappingRuns.LinkSim | src/subscriber.cpp:506-507 | so does a reader's link, with the other readers and the publisher at any point |
| MappingRuns.EnterSim | src/publisher.cpp:1027-1090 | a publish computed from words alone does what the pool machine's does |
| QueueInvariant.ClientPublishKeeps | src/publisher.cpp:1301-1350 | a publish by a client between any two worker steps keeps the queue invariant, and never completes a message twice |
| QueueInvariant.RelockKeeps | src/publisher.cpp:1146-1161 | recording an outcome keeps the invariant; the promise fulfilled was not fulfilled before |
| QueueInvariant.FinishKeeps | src/publisher.cpp:1409-1416 | the final completion fulfils only promises not yet fulfilled |
| QueueRuns.ExactlyOnce | src/publisher.cpp:1301-1350 | in every run an accepted message is outstanding or completed, never both, and all are completed once a worker that is not handing over has finished |
| QueueRuns.RunExtends | src/publisher.cpp:1159 | no completion is ever revised |
| QueueRuns.OverwrittenNeverPublished | src/publisher.cpp:1315-1326 | an overwritten message has not entered the ring and never will |
| QueueRuns.CompletionOfPublished | src/publisher.cpp:1141-1161 | in every state, a message in the ring is completed as Published unless it is the last one and still in flight |
| QueueEnds.PublishedButFailedIff | src/publisher.cpp:1092-1100 | once all is completed, a message of the ring is not completed as Published exactly when it is the last one and some attempt of the run failed to write a reader's event after storing the write index; it is then reported as failed |
| QueueEnds.PublishedButFailed | src/publisher.cpp:1092-1100 | a run in which this happens |
| QueueRuns.PublishedInOrder | src/publisher.cpp:1126-1161 | messages enter the ring in the order of acceptance, before everything outstanding |
| QueueRuns.AtMostSixtyFour | src/publisher.cpp:1313-1326 | never more than 64 messages are outstanding, the in-flight one included, and these in the order of acceptance |
| QueueRuns.AttemptsTheOldest | src/publisher.cpp:1127-1137 | an attempt is made on the oldest outstanding message |
| QueueRuns.InFlightIsUntouched | src/publisher.cpp:1132-1149 | while the worker runs without the mutex, no number of client calls replaces or removes the in-flight message |
| QueueRuns.TicketMeansAccepted | src/publisher.cpp:1328-1349 | a ticket is given exactly for at most 1016 bytes to an active worker whose event can be written, and only then is the message accepted; which of the three errors applies otherwise; with 64 outstanding, and only then, the oldest the worker does not hold is overwritten; an error changes nothing that is outstanding |
| QueueRuns.NoForgottenWork | src/publisher.cpp:1108-1172 | in every run, whatever fails: a waiting worker with something outstanding has the work event pending or was refused room for the message next in line |
| QueueHandler.AtMostSixtyFourPerEvent | src/publisher.cpp:1124-1167 | however many messages clients publish or overwrite meanwhile: a handler attempts at most 64, and asks to be scheduled again exactly after it has published 64 and something is left |
| QueueSchedule.NoForgottenWorkByFlags | src/publisher.cpp:1108-1200 | in every run without a move whose clients can announce what they publish: with something outstanding and no handler at work, the work event is pending or the publisher is not ready and its in-flight message blocked |
| QueueSchedule.ScheduledIff | src/publisher.cpp:1328-1340 | exactly which steps break this: a publish that cannot be announced and finds the queue full and the in-flight message blocked, and the start of a new owner's worker with work outstanding, both with no work event pending |
| QueueSchedule.HandOverForgetsByFlags | src/publisher.cpp:568-627 | a run whose hand-over breaks it |
| QueueRuns.FinishedIsFinal | src/publisher.cpp:634-662 | after a worker that is not handing over has finished, nothing accepted is without completion and nothing more is accepted or completed |
| QueueStops.FailedIff | src/publisher.cpp:1352-1407 | in every run a worker leaves its loop as failed exactly if an event operation, a wait, control messages or an attempt failed; a stop of whatever intent is a clean exit |
| QueueStops.WhyCompleted | src/publisher.cpp:653-657 | WorkerFailed is reported only in runs in which an operation failed, WorkerStopped only in runs in which none did and the worker was destroyed, and both only once it has exited |
| QueueStops.StopCompletesTheQueue | src/publisher.cpp:653-661 | what a worker that is not handing over leaves outstanding is completed as WorkerFailed if some operation of the run failed, and as WorkerStopped if none did |
| QueueStops.StopIsAnnounced | src/publisher.cpp:672-692 | once an active worker was told to stop, the shutdown event is pending until it leaves its loop |
| QueueStops.StopsOnlyWhenTold | src/publisher.cpp:1385-1396 | in every run, across hand-overs: a worker stops cleanly only if it was told to since it started, and then with the intent it was told last |
| QueueStops.WaitingWorkerStops | src/publisher.cpp:672-692 | a waiting worker that is told to stop exits cleanly: destroyed, it completes everything outstanding as WorkerStopped; moved, it leaves everything as it is |
| QueueEnds.MoveTransfersTheQueue | src/publisher.cpp:567-627 | wherever the worker is when a move is requested and whatever it still does, if it ends in good order the first messages in line entered the ring and are completed as Published, and the new owner starts with exactly the others, in order, none completed |
| WorkerSide.AsyncPublisher.Publish | src/publisher.cpp:1301-1350 | which publishes are accepted (at most 1016 bytes, active worker, event written), which error is given otherwise, and what is outstanding, completed and accepted afterwards; the pushes and pops on the deque and the in-flight field are the machine's publish |
| WorkerSide.AsyncPublisher.HandlePublishWorkEvent | src/publisher.cpp:1108-1172 | an event that cannot be read ends the worker and changes nothing else; a publisher waiting for room only clears the event; otherwise the oldest messages enter the ring and are completed as Published until none is left, or the next has no room, or 64 were published and the event is written again; on failure exactly one more entered the ring, or the event could not be written |
| WorkerSide.AsyncPublisher.HandleSpaceAvailableEvent | src/publisher.cpp:1174-1200 | publishing is taken up again, with the flag set and the work event written, exactly if the event is read and the message next in line has room; which failures end the worker |
| WorkerSide.AsyncPublisher.CanPublishNextMessage | src/publisher.cpp:939-989 | the in-flight message, or else the first pending one, has room; with nothing outstanding there is nothing to take up |
| WorkerSide.AsyncPublisher.PublishLoop | src/publisher.cpp:1124-1167 | at most 64 attempts; asks to be scheduled again exactly when it stopped with room and something outstanding |
| WorkerSide.AsyncPublisher.AttemptNext | src/publisher.cpp:1134-1161 | one attempt with the mutex released and what is recorded afterwards |
| WorkerSide.AsyncPublisher.CompleteOutstanding | src/publisher.cpp:1409-1416 | every outstanding promise is fulfilled, the in-flight one included |
| PublisherSystem.ScanTells | src/publisher.cpp:992-1033 | a scan under way in any run, however slow: if it finds room there is room; if not, there is none or a space event is pending or due |
| PublisherSystem.NoLostSpaceWakeUp | src/publisher.cpp:1174-1225 | whenever the worker sleeps on a message there is room for, an event is pending, or a live subscriber has a signal to give or a message to read, or a dead one has chunks to be reaped - with attempts and rechecks that scan at any speed |
| PublisherSystem.RecheckFollows | src/publisher.cpp:1202-1225 | after a control message that changes the pool the worker looks until it takes a verdict on the message next in line, from loads all later than the change, before it waits again or does anything else |
| SystemProgress.WakeUpDelivers | src/publisher.cpp:1108-1200 | in every run: if the worker waits and there is room for the message first in line, then once it handles a space event its own steps put that message into the ring and complete it as Published |
| SystemProgress.RunOfBoth | src/publisher.cpp:1352-1401 | every run of the whole system is a run of the queue machine and a run of the pool machine, with every step of the clients and subscribers, so what is proved of their runs holds in it |
| SystemLimits.RoomCanAppearWhileAsleep | src/subscriber.cpp:479-485 | a reachable state of the whole system: the worker sleeps on a blocked message, room appears, and no event is pending and nobody on the way to signal |
| PublisherSystem.AsleepMeansDelivered | src/publisher.cpp:1174-1225 | when all has come to rest with a reader attached, something is outstanding only if all but one of its class's chunks were lost to deaths |
| PublisherSystem.JoinerReceivesAccepted | src/publisher.cpp:1301-1350 | from whatever state a subscriber joins, it is given exactly the queue's accepted messages that enter the ring from then on, in the order of acceptance |
| PublisherSystem.ApplyKeeps | src/publisher.cpp:1174-1225 | every step of clients, worker, subscribers and control messages keeps the wake-up invariant |
| DataWakeup.NoLostDataWakeUp | src/subscriber.cpp:522-609 | outside its handler a tracked reader has read everything or its event is signalled or about to be, even if the write index wrapped between the handler's loads |
| DataWakeup.EverythingIsRead | src/subscriber.cpp:555-609 | in every run, from wherever a tracked reader stands: the publisher's outstanding signal and the reader's own steps bring it to rest with everything read |
| DataWakeup.AnyNumberIsRead | src/subscriber.cpp:555-609 | any number of messages can be published and read one after the other, however often the ring wraps |
| DataWakeup.ReadsOnlyWhatIsPublished | src/subscriber.cpp:548-590 | the first read finds a valid start index; no read goes past what is published |
| DataWakeup.AdvanceIsModulo | src/subscriber.cpp:479-480 | advancing past the end only and advancing modulo the ring size agree |
| DataWakeup.Distance | src/subscriber.cpp:576-577 | for any ring size, positions less than a lap apart determine the distance |
| BrokerRegisters.RegisterSubscriberKeeps | broker.cpp:777-935 | a subscriber's registration meets no missing entry and keeps the invariant |
| BrokerRegisters.RegisterPublisherKeeps | broker.cpp:936-1092 | a publisher's registration meets no missing or existing entry and keeps the invariant |
| BrokerLimits.SubscriberIsAccepted | broker.cpp:786-926 | in every run: a subscriber's registration ends well if and only if it names 1 to 5 topics, gives at most 10 attachments, leaves no topic with a publisher more than 16 subscribers and the ids suffice; it is then sent one batch with an entry per publisher and repetition |
| BrokerLimits.PublisherIsAccepted | broker.cpp:936-1092 | in every run: a publisher's registration ends well if and only if its topic lists at most 16 subscribers and the ids suffice; it is then told their number and sent as many registrations |
| BrokerLeaves.SubscriberLeavesKeeps | broker.cpp:320-403 | a subscriber's disconnect meets no missing entry and keeps the invariant |
| BrokerLeaves.PublisherLeavesKeeps | broker.cpp:405-522 | a publisher's disconnect meets no missing entry and keeps the invariant |
| BrokerRegisters.AttachKeeps | broker.cpp:830-904 | giving out a slot keeps slots, attachments, ids and the publisher's replay consistent |
| BrokerLeaves.ReleaseKeeps | broker.cpp:333-376 | returning a slot keeps them consistent |
| BrokerLeaves.Uninstall | src/subscriber.cpp:807-838 | removing one attachment by id leaves tables that hold exactly the others |
| BrokerRegisters.InstallAllMatches | src/subscriber.cpp:681-805 | installing entries with distinct ids and events succeeds and leaves mutually inverse tables that hold exactly these |
| BrokerRuns.NothingIsMissing | broker.cpp:320-522 | in no run does a lookup fail that the broker believes cannot fail |
| BrokerRuns.RoutingIsExact | broker.cpp:812-830 | between events every subscriber has as many attachments to a publisher as it listed its topic |
| BrokerRuns.SlotsArePartitioned | broker.cpp:136-143 | free and occupied slots of each publisher partition 0..15 |
| BrokerLimits.SlotsAreCounted | broker.cpp:136-143 | in every run a publisher's free slots and the entries of its topic's list of subscribers add up to 16 |
| BrokerLimits.LeastSlotIsGiven | broker.cpp:874-879 | wherever a handler attaches, the subscriber is given the least slot that nobody holds, and the publisher is told of it |
| BrokerRuns.SlotsAreExclusive | broker.cpp:874-875 | no slot is given out twice |
| BrokerRuns.PublisherAgreesWithBroker | src/publisher.cpp:296-344 | a publisher that has read any prefix of its messages rejected none; having read all, its slot table is the broker's |
| BrokerRuns.SubscriberAgreesWithBroker | src/subscriber.cpp:729-838 | a subscriber that has read any prefix failed on none; having read all, its two tables are mutually inverse and hold the broker's list |
| BrokerDescriptors.DescriptorsAreThePublishers | broker.cpp:128-130 | in every run: under each attachment's event the subscriber finds the mapping and the space event, in this order, and the topic that the publisher sent with the registration it is still connected by |
| BrokerRuns.IdsAreUnique | broker.cpp:897-904 | no two attachments of a state - of one subscriber or two, made by one event or two - share an id or an event |
| BrokerRuns.IdsNeverRepeat | broker.cpp:897-904 | of two attachments in any two states of a run with the same id, the later is the earlier one; no id is 0 or 2^64 - 1 |
| BrokerProcess.Process.SubscriberRegisters | broker.cpp:777-935 | the handler's loops compute the machine's step, and no lookup is missed |
| BrokerProcess.Process.PublisherRegisters | broker.cpp:936-1092 | the handler's loop computes the machine's step, and no lookup is missed |
| BrokerProcess.Process.SubscriberDisconnects | broker.cpp:320-403 | the handler's loops compute the machine's step and always finish |
| BrokerProcess.Process.PublisherDisconnects | broker.cpp:405-522 | the handler's scan and loop compute the machine's step and always finish |
| BrokerProcess.FindAttachment | broker.cpp:455-459 | finds the first attachment to the publisher, exactly when there is one |
| BrokerProcess.FindTopic | broker.cpp:412-428 | finds a topic that lists the publisher, exactly when there is one |
| ControlChannel.HandleControl | src/publisher.cpp:804-854 | a message the slot table accepts is handled without error, and the publisher's tables follow it: a registration starts the subscriber at the write index, a disconnect vacates its slot, no other slot changes |
| ControlChannel.ProcessControl | src/publisher.cpp:856-937 | so is every sequence of messages whose replay succeeds; slots no message is about stay as they are |
| Wire.EncodeThenDecode | broker.cpp:92-134 | parsing an encoded attachment batch gives back the same entries |
| Wire.EntryLayout | broker.cpp:117-131 | where each entry's id, topic and slot are among its 13 bytes and its three descriptors among the others |
| Wire.DecodeThenEncode | src/subscriber.cpp:681-746 | every well-formed packet is the encoding of what is parsed from it |
| Wire.EncodeBatch | broker.cpp:92-134 | the packet of a batch of at most 10 attachments; more are refused |
| Wire.ParseBatch | src/subscriber.cpp:693-746 | a packet is accepted exactly when its body is whole entries and it carries three descriptors for each |

## Left out

- Weak memory order: every load, store and read-modify-write is taken as sequentially consistent.
- A publish is one step for the subscribers: they look at nothing it writes before it stores the write index. In `MappingMachine` its scan is part of that step; slower scans are in `PoolSignals.StaleScanIsSafe`, `PublisherSide.SlowScanDecides` and, for the worker, `System`.
- PublisherSide.Publisher.ReapDeadSubscriber: the method runs without a subscriber's step between its stores; ReleaseBit, UnmarkFreed, LinkFreed and MoveFreed are its single program points, and MappingRuns interleaves them with all readers.
- PublisherSide.Publisher.ReleaseOne: as ReapDeadSubscriber.
- PublisherSide.Publisher.ReleaseRange: as ReapDeadSubscriber.
- PublisherSide.Publisher.Sweep: as ReapDeadSubscriber.
- ControlChannel.HandleControl: as ReapDeadSubscriber.
- ControlChannel.ProcessControl: as ReapDeadSubscriber.
- SubscriberSide.Attachment.HandleDataAvailable: the method runs without a publish or another reader between its loads; MappingRuns covers every interleaving of its loads, reads and stores, DataWakeup that of the handler's loop with the write index and the event.
- SubscriberSide.Attachment.ConsumeContiguous: as HandleDataAvailable.
- SubscriberSide.Attachment.ReadData: as HandleDataAvailable.
- SubscriberSide.Attachment.ReadOne: as HandleDataAvailable; ReadAndClear, StoreReadIndex, UnmarkChunk, LinkChunk, MoveTail and SignalSpace are its single program points.
- SubscriberSide.Attachment.ReturnChunk: as ReadOne.
- WorkerSide.AsyncPublisher.HandlePublishWorkEvent: the method runs without client calls in between; those are covered by the queue machine.
- WorkerSide.AsyncPublisher.PublishLoop: as HandlePublishWorkEvent.
- WorkerSide.AsyncPublisher.HandleSpaceAvailableEvent: as HandlePublishWorkEvent.
- WorkerSide.AsyncPublisher.CanPublishNextMessage: as HandlePublishWorkEvent.
- The worker's `epoll` loop as a method: which event is handled next is the queue machine's free choice of step.
- PublisherSide.Publisher.CanPublishNext: the method's loads are of one moment; PublisherSide.SlowScanDecides and PublisherSystem.ScanTells say what a scan with loads of different moments concludes.
- QueueEnds.MoveTransfersTheQueue: no client publishes during the move; the source forbids it (src/publisher.cpp:567).
- BrokerProcess.Process.ReleaseAll: each attachment leaves the list as it is released, while the code erases the whole list after the loop; the broker's maps are fields of one record rather than separate variables, and the two-level slot map is keyed by (topic, publisher).
- The debug table of chunks in use is a plain table: its robust mutex is not modelled.
- System calls: sockets, mmap, shm_open, epoll and descriptor passing. An eventfd is a flag or a count, a control connection the sequence of messages sent on it, a received descriptor a fresh number. A shutdown event that cannot be written is not modelled.
- Broker failure paths: a failed send, no free slot, more than ten attachments in a batch, an exhausted id space, a malformed registration or a closed connection that never registered end the broker process; when the limits do so is in `BrokerLimits`, what follows is not modelled. A connection registers at most once.
- The synchronous publish and subscribe calls with their deadlines, the constructors' clean-up chains and exception paths.
- Which run error a worker or reader reports where several lead to the same end; the queue machine only distinguishes a clean exit from a failed one.
- Status snapshots, the logger, the command-line tools and the build.
