/** The words and bytes of the shared mapping, and what they mean.

    `Represents` relates a snapshot of the mapping to a state of the pool machine: indices modulo
    the ring size, descriptors as offset and length, holder sets as 32-bit masks, free lists as
    links stored in the first four bytes of each free chunk, messages as framed bytes. */
module Memory {
  import opened Layout
  import opened Bytes
  import opened Bitmask
  import opened Pool
  import opened PoolCarriers
  import opened PoolInvariant

  datatype Descriptor = Descriptor(offset: nat, len: nat)

  datatype Snapshot = Snapshot(
    rd: seq<nat>, wr: nat, ring: seq<Descriptor>, head: seq<nat>, tail: seq<nat>,
    masks: seq<Mask>, data: seq<Byte>, inUse: seq<bool>)

  /** The bytes of message number `n`: magic, sequence number (wrapping at 32 bits), payload. */
  function Frame(n: nat, payload: seq<Byte>): (f: seq<Byte>)
    ensures |f| == HEADER_BYTES + |payload|
  {
    U32Bytes(MAGIC) + U32Bytes(n % U32_LIMIT) + payload
  }

  ghost predicate IndexRep(rd: seq<nat>, wr: nat, w: nat, slots: seq<Slot>)
    requires |rd| == |slots| == SLOTS
  {
    && wr == w % RING
    && forall s: nat | s < SLOTS :: rd[s] == if slots[s].Vacant? then INVALID_INDEX else slots[s].next % RING
  }

  function DescriptorOf(e: Entry): Descriptor
    requires e.chunk < CHUNKS
  {
    Descriptor(OffsetOf(e.chunk), HEADER_BYTES + |e.payload|)
  }

  /** The ring holds the descriptors of the last 16 messages. */
  ghost predicate RingRep(ring: seq<Descriptor>, log: seq<Entry>)
    requires |ring| == RING
  {
    forall i: nat | i < |log| < i + RING + 1 :: log[i].chunk < CHUNKS && ring[i % RING] == DescriptorOf(log[i])
  }

  /** Following the links stored in the chunks from head to tail visits the free list. */
  ghost predicate ListRep(head: seq<nat>, tail: seq<nat>, data: seq<Byte>, free: seq<seq<nat>>)
    requires |head| == |tail| == |free| == CLASSES && |data| == POOL_BYTES && FreeOk(free)
  {
    forall k: nat | k < CLASSES ::
      && head[k] == OffsetOf(free[k][0])
      && tail[k] == OffsetOf(free[k][|free[k]| - 1])
      && Linked(data, free[k])
  }

  ghost predicate Linked(data: seq<Byte>, chunks: seq<nat>)
    requires |data| == POOL_BYTES && AreChunks(chunks)
  {
    forall j: nat | j + 1 < |chunks| :: LinkOf(data, chunks[j]) == OffsetOf(chunks[j + 1])
  }

  function LinkOf(data: seq<Byte>, c: nat): nat
    requires |data| == POOL_BYTES && c < CHUNKS
  {
    U32At(data, OffsetOf(c))
  }

  ghost predicate MaskRep(masks: seq<Mask>, holders: seq<set<nat>>)
    requires |masks| == |holders| == CHUNKS
  {
    forall c: nat | c < CHUNKS :: Means(masks[c], holders[c])
  }

  /** Chunk `c` starts with the bytes of message `n`. */
  ghost predicate Contains(data: seq<Byte>, c: nat, n: nat, payload: seq<Byte>)
    requires |data| == POOL_BYTES && c < CHUNKS
  {
    && HEADER_BYTES + |payload| <= ClassSize(ClassOf(c))
    && data[OffsetOf(c)..OffsetOf(c) + HEADER_BYTES + |payload|] == Frame(n, payload)
  }

  /** A held chunk contains the last message written into it. */
  ghost predicate ContentRep(data: seq<Byte>, log: seq<Entry>, owner: seq<int>, holders: seq<set<nat>>)
    requires |data| == POOL_BYTES && |owner| == |holders| == CHUNKS
  {
    forall c: nat | c < CHUNKS && holders[c] != {} ::
      0 <= owner[c] < |log| && Contains(data, c, owner[c], log[owner[c]].payload)
  }

  /** The subscriber has not cleared the mark of a chunk it returns. */
  predicate StillMarks(slot: Slot) {
    !(slot.Used? && slot.phase.Returning? && !slot.phase.at.Marked?)
  }

  /** The reap has not cleared the mark of the chunk it frees. */
  predicate ReapMarks(pub: Publisher) {
    !(pub.Reaping? && pub.release.Freeing? && !pub.release.at.Marked?)
  }

  /** The debug table marks no chunk on a free list, every held one, and one on its way back until whoever brings it
      back clears the mark; what was lost with a dead subscriber may be marked or not. */
  predicate UseOf(used: bool, place: Place, slots: seq<Slot>, pub: Publisher)
    requires |slots| == SLOTS
  {
    match place
    case InPool => !used
    case Held => used
    case Loose(s) => s < SLOTS ==> (used <==> StillMarks(slots[s]))
    case Freed => used <==> ReapMarks(pub)
    case Lost => true
  }

  ghost predicate UseRep(inUse: seq<bool>, place: seq<Place>, slots: seq<Slot>, pub: Publisher)
    requires |inUse| == |place| == CHUNKS && |slots| == SLOTS
  {
    forall c: nat | c < CHUNKS :: UseOf(inUse[c], place[c], slots, pub)
  }

  /** The process has linked its class's tail to chunk `c` and has still to move the tail. */
  predicate Linking(slots: seq<Slot>, pub: Publisher, p: Process, c: nat)
    requires |slots| == SLOTS
  {
    match p
    case Reader(s) => s < SLOTS && LinksTo(slots[s], c)
    case ThePublisher =>
      pub.Reaping? && pub.release.Freeing? && pub.release.at.OnTail? && pub.release.chunk == c
  }

  predicate LinksTo(slot: Slot, c: nat) {
    slot.Used? && slot.alive && slot.phase.Returning? && slot.phase.at.OnTail? && slot.phase.chunk == c
  }

  /** Where a process is about to move a tail, the tail chunk is linked to the one that returns. */
  ghost predicate LinkRep(data: seq<Byte>, slots: seq<Slot>, pub: Publisher, free: seq<seq<nat>>)
    requires |data| == POOL_BYTES && |slots| == SLOTS && |free| == CLASSES && FreeOk(free)
  {
    forall p: Process, c: nat | c < CHUNKS && Linking(slots, pub, p, c) ::
      LinkOf(data, Tail(free, ClassOf(c))) == OffsetOf(c)
  }

  function Tail(free: seq<seq<nat>>, k: nat): (c: nat)
    requires |free| == CLASSES && FreeOk(free) && k < CLASSES
    ensures c < CHUNKS && ClassOf(c) == k && c in free[k]
  {
    assert ListOk(k, free[k]);
    free[k][|free[k]| - 1]
  }

  predicate Sizes(m: Snapshot)
  {
    && |m.rd| == SLOTS && |m.ring| == RING && |m.head| == |m.tail| == CLASSES
    && |m.masks| == |m.inUse| == CHUNKS && |m.data| == POOL_BYTES
  }

  ghost predicate Represents(m: Snapshot, a: State)
    requires Shape(a) && FreeOk(a.free)
  {
    && Sizes(m)
    && IndexRep(m.rd, m.wr, |a.log|, a.slots)
    && RingRep(m.ring, a.log)
    && ListRep(m.head, m.tail, m.data, a.free)
    && MaskRep(m.masks, a.holders)
    && ContentRep(m.data, a.log, a.owner, a.holders)
    && UseRep(m.inUse, a.place, a.slots, a.pub)
    && LinkRep(m.data, a.slots, a.pub, a.free)
  }

  // ---------- Writes inside one chunk ----------

  lemma WriteKeepsOtherLinks(data: seq<Byte>, c: nat, bytes: seq<Byte>, chunks: seq<nat>)
    requires |data| == POOL_BYTES && c < CHUNKS && |bytes| <= ClassSize(ClassOf(c))
    requires OffsetOf(c) + |bytes| <= POOL_BYTES
    requires AreChunks(chunks) && Linked(data, chunks)
    requires forall j: nat | j + 1 < |chunks| :: chunks[j] != c
    ensures Linked(Splice(data, OffsetOf(c), bytes), chunks)
  {
    hide OffsetOf, ClassSize, ClassOf, Splice, U32Of;
    forall j: nat | j + 1 < |chunks|
      ensures LinkOf(Splice(data, OffsetOf(c), bytes), chunks[j]) == LinkOf(data, chunks[j])
    {
      SmallestClass(chunks[j]);
      WriteKeepsRange(data, c, bytes, chunks[j], 4);
    }
  }

  lemma WriteKeepsRange(data: seq<Byte>, c: nat, bytes: seq<Byte>, d: nat, n: nat)
    requires |data| == POOL_BYTES && c < CHUNKS && |bytes| <= ClassSize(ClassOf(c))
    requires OffsetOf(c) + |bytes| <= POOL_BYTES
    requires d < CHUNKS && d != c && n <= ClassSize(ClassOf(d))
    ensures OffsetOf(d) + n <= POOL_BYTES
    ensures Splice(data, OffsetOf(c), bytes)[OffsetOf(d)..OffsetOf(d) + n] == data[OffsetOf(d)..OffsetOf(d) + n]
  {
    ChunksAreDisjoint(c, d);
    OffsetOfIsChunkOffset(d);
    hide OffsetOf, ClassSize, ClassOf;
    SpliceElsewhere(data, OffsetOf(c), bytes, OffsetOf(d), OffsetOf(d) + n);
  }

  lemma WriteKeepsContents(data: seq<Byte>, c: nat, bytes: seq<Byte>, d: nat, n: nat, payload: seq<Byte>)
    requires |data| == POOL_BYTES && c < CHUNKS && |bytes| <= ClassSize(ClassOf(c))
    requires OffsetOf(c) + |bytes| <= POOL_BYTES
    requires d < CHUNKS && d != c && Contains(data, d, n, payload)
    ensures Contains(Splice(data, OffsetOf(c), bytes), d, n, payload)
  {
    hide OffsetOf, ClassSize, ClassOf;
    WriteKeepsRange(data, c, bytes, d, HEADER_BYTES + |payload|);
  }

  // ---------- Publish ----------

  /** The mapping after a successful publish. */
  function Published(m: Snapshot, k: nat, c: nat, next: nat, n: nat, payload: seq<Byte>, mask: Mask): Snapshot
    requires Sizes(m) && k < CLASSES && c < CHUNKS && m.wr < RING
      && OffsetOf(c) + HEADER_BYTES + |payload| <= POOL_BYTES
  {
    m.(ring := m.ring[m.wr := Descriptor(OffsetOf(c), HEADER_BYTES + |payload|)],
       head := m.head[k := next],
       data := Splice(m.data, OffsetOf(c), Frame(n, payload)),
       masks := m.masks[c := mask],
       inUse := m.inUse[c := true],
       wr := (m.wr + 1) % RING)
  }

  lemma PublishRing(ring: seq<Descriptor>, log: seq<Entry>, e: Entry)
    requires |ring| == RING && RingRep(ring, log) && e.chunk < CHUNKS
    ensures RingRep(ring[|log| % RING := DescriptorOf(e)], log + [e])
  {
    var w := |log|;
    var ring', log' := ring[w % RING := DescriptorOf(e)], log + [e];
    forall i: nat | i < w + 1 < i + RING + 1
      ensures log'[i].chunk < CHUNKS && ring'[i % RING] == DescriptorOf(log'[i])
    {
      if i < w {
        assert i % RING != w % RING;
        assert log'[i] == log[i];
      }
    }
  }

  lemma PublishLists(head: seq<nat>, tail: seq<nat>, data: seq<Byte>, free: seq<seq<nat>>, k: nat, bytes: seq<Byte>)
    requires |head| == |tail| == |free| == CLASSES && |data| == POOL_BYTES && FreeOk(free) && k < CLASSES
    requires ListRep(head, tail, data, free) && |free[k]| >= 2
    requires |bytes| <= ClassSize(k)
    ensures var c := free[k][0];
            && c < CHUNKS && OffsetOf(c) + |bytes| <= POOL_BYTES
            && LinkOf(data, c) == OffsetOf(free[k][1])
            && FreeOk(free[k := free[k][1..]])
            && ListRep(head[k := LinkOf(data, c)], tail, Splice(data, OffsetOf(c), bytes), free[k := free[k][1..]])
  {
    var c := free[k][0];
    assert c in free[k];
    OffsetOfIsChunkOffset(c);
    var free' := free[k := free[k][1..]];
    var data' := Splice(data, OffsetOf(c), bytes);
    hide OffsetOf, ClassSize, ClassOf, Splice, Linked;
    assert LinkOf(data, c) == OffsetOf(free[k][1]) by { FirstLink(data, free[k]); }
    forall j: nat | j < CLASSES
      ensures Linked(data', free'[j])
    {
      if j == k {
        TailLinked(data, free[k]);
      }
      NotIn(free, k, j);
      WriteKeepsOtherLinks(data, c, bytes, free'[j]);
    }
  }

  /** What linkers rely on survives when no tail changes, no tail chunk is written and nobody starts to link. */
  lemma LinksStay(data: seq<Byte>, slots: seq<Slot>, pub: Publisher, free: seq<seq<nat>>, data': seq<Byte>,
                  slots': seq<Slot>, pub': Publisher, free': seq<seq<nat>>)
    requires |data| == |data'| == POOL_BYTES && |slots| == |slots'| == SLOTS && |free| == |free'| == CLASSES
    requires FreeOk(free) && FreeOk(free') && LinkRep(data, slots, pub, free)
    requires forall p: Process, c: nat | c < CHUNKS && Linking(slots', pub', p, c) :: Linking(slots, pub, p, c)
    requires forall k: nat | k < CLASSES ::
      Tail(free', k) == Tail(free, k) && LinkOf(data', Tail(free, k)) == LinkOf(data, Tail(free, k))
    ensures LinkRep(data', slots', pub', free')
  {
    hide OffsetOf, LinkOf, FreeOk, ClassOf, Linking;
  }

  /** One slot changes, and it links nothing. */
  lemma OneSlotLinks(data: seq<Byte>, slots: seq<Slot>, pub: Publisher, free: seq<seq<nat>>, s: nat, slot: Slot)
    requires |data| == POOL_BYTES && |slots| == SLOTS && |free| == CLASSES && FreeOk(free)
    requires LinkRep(data, slots, pub, free) && s < SLOTS && forall c: nat :: !LinksTo(slot, c)
    ensures LinkRep(data, slots[s := slot], pub, free)
  {
    hide OffsetOf, LinkOf, FreeOk, ClassOf;
    forall p: Process, c: nat | c < CHUNKS && Linking(slots[s := slot], pub, p, c)
      ensures Linking(slots, pub, p, c)
    {
      assert !LinksTo(slot, c);
    }
    LinksStay(data, slots, pub, free, data, slots[s := slot], pub, free);
  }

  /** One slot changes, and not whether it keeps the mark of its chunk. */
  lemma OneSlotUse(inUse: seq<bool>, place: seq<Place>, slots: seq<Slot>, pub: Publisher, s: nat, slot: Slot)
    requires |inUse| == |place| == CHUNKS && |slots| == SLOTS && UseRep(inUse, place, slots, pub)
    requires s < SLOTS && StillMarks(slots[s]) == StillMarks(slot)
    ensures UseRep(inUse, place, slots[s := slot], pub)
  {
    forall c: nat | c < CHUNKS
      ensures UseOf(inUse[c], place[c], slots[s := slot], pub)
    {
      assert UseOf(inUse[c], place[c], slots, pub);
    }
  }

  lemma PublishTails(data: seq<Byte>, free: seq<seq<nat>>, k: nat, bytes: seq<Byte>, slots: seq<Slot>,
                     pub: Publisher)
    requires |free| == CLASSES && |data| == POOL_BYTES && FreeOk(free) && k < CLASSES && |slots| == SLOTS
    requires |free[k]| >= 2 && |bytes| <= ClassSize(k) && LinkRep(data, slots, pub, free)
    requires FreeOk(free[k := free[k][1..]])
    ensures var c := free[k][0];
            && c < CHUNKS && OffsetOf(c) + |bytes| <= POOL_BYTES
            && LinkRep(Splice(data, OffsetOf(c), bytes), slots, pub, free[k := free[k][1..]])
  {
    var c := free[k][0];
    assert c in free[k];
    OffsetOfIsChunkOffset(c);
    var free' := free[k := free[k][1..]];
    var data' := Splice(data, OffsetOf(c), bytes);
    forall j: nat | j < CLASSES
      ensures Tail(free', j) == Tail(free, j) && LinkOf(data', Tail(free, j)) == LinkOf(data, Tail(free, j))
    {
      NotIn(free, k, j);
      assert Tail(free', j) in free'[j];
      hide OffsetOf, ClassSize, Splice;
      SmallestClass(Tail(free, j));
      WriteKeepsRange(data, c, bytes, Tail(free, j), 4);
    }
    LinksStay(data, slots, pub, free, data', slots, pub, free');
  }

  lemma NotIn(free: seq<seq<nat>>, k: nat, j: nat)
    requires |free| == CLASSES && FreeOk(free) && k < CLASSES && j < CLASSES
    ensures var c := free[k][0];
            && c < CHUNKS && ClassOf(c) == k
            && (j != k ==> c !in free[j])
            && c !in free[k][1..]
  {
    var c := free[k][0];
    assert c in free[k];
  }

  lemma FirstLink(data: seq<Byte>, chunks: seq<nat>)
    requires |data| == POOL_BYTES && AreChunks(chunks) && Linked(data, chunks) && |chunks| >= 2
    ensures LinkOf(data, chunks[0]) == OffsetOf(chunks[1])
  {
  }

  lemma TailLinked(data: seq<Byte>, chunks: seq<nat>)
    requires |data| == POOL_BYTES && AreChunks(chunks) && Linked(data, chunks) && |chunks| >= 1
    ensures Linked(data, chunks[1..])
  {
  }

  lemma PublishContents(data: seq<Byte>, a: State, c: nat, payload: seq<Byte>, hs: set<nat>)
    requires |data| == POOL_BYTES && Shape(a) && c < CHUNKS && a.holders[c] == {}
    requires HEADER_BYTES + |payload| <= ClassSize(ClassOf(c))
    requires ContentRep(data, a.log, a.owner, a.holders)
    ensures OffsetOf(c) + HEADER_BYTES + |payload| <= POOL_BYTES
    ensures ContentRep(Splice(data, OffsetOf(c), Frame(|a.log|, payload)), a.log + [Entry(c, payload)],
                       a.owner[c := |a.log|], a.holders[c := hs])
  {
    OffsetOfIsChunkOffset(c);
    hide OffsetOf, ClassSize, ClassOf, Frame, Splice;
    var bytes := Frame(|a.log|, payload);
    var data' := Splice(data, OffsetOf(c), bytes);
    var log' := a.log + [Entry(c, payload)];
    var owner' := a.owner[c := |a.log|];
    var holders' := a.holders[c := hs];
    forall d: nat | d < CHUNKS && holders'[d] != {}
      ensures 0 <= owner'[d] < |log'| && Contains(data', d, owner'[d], log'[owner'[d]].payload)
    {
      if d != c {
        assert log'[a.owner[d]] == a.log[a.owner[d]];
        WriteKeepsContents(data, c, bytes, d, a.owner[d], a.log[a.owner[d]].payload);
      }
    }
  }

  lemma PublishRepresents(m: Snapshot, a: State, payload: seq<Byte>, mask: Mask)
    requires Inv(a) && Represents(m, a) && a.pub.Ready? && |payload| <= MAX_PAYLOAD
    requires CanPublish(a, PayloadClass(payload)) && Means(mask, UsedSlots(a))
    ensures var k := PayloadClass(payload);
            var c := a.free[k][0];
            && c < CHUNKS && m.wr < RING && OffsetOf(c) + HEADER_BYTES + |payload| <= POOL_BYTES
            && Inv(Publish(a, payload))
            && Represents(Published(m, k, c, LinkOf(m.data, c), |a.log|, payload, mask), Publish(a, payload))
  {
    hide Inv, CanPublish, RingBlocked, Means, OffsetOf, UsedSlots, FreeOk, RingRep, ListRep, ContentRep, DescriptorOf,
         Frame, ListOk, LinkRep;
    var k := PayloadClass(payload);
    PublishedChunk(a, k);
    var c := a.free[k][0];
    PublishKeeps(a, payload);
    PublishLists(m.head, m.tail, m.data, a.free, k, Frame(|a.log|, payload));
    PublishTails(m.data, a.free, k, Frame(|a.log|, payload), a.slots, a.pub);
    PublishRing(m.ring, a.log, Entry(c, payload));
    PublishContents(m.data, a, c, payload, UsedSlots(a));
    DescriptorOfEntry(c, payload);
  }

  /** The chunk a publish takes: the head of a list of two or more, in no reader's hands. */
  lemma PublishedChunk(a: State, k: nat)
    requires Inv(a) && k < CLASSES && CanPublish(a, k)
    ensures Shape(a) && FreeOk(a.free) && |a.free[k]| >= 2
    ensures var c := a.free[k][0]; c < CHUNKS && ClassOf(c) == k && a.holders[c] == {}
  {
    hide LogOk, OwnerOk, SlotsOk, HoldersOk, FreshOk, LooseOk, InboxOk, LostChunks, PooledOk, FreeOk, TailOk, FreedOk;
    PublishFree(a.free, a.place, k);
  }

  lemma DescriptorOfEntry(c: nat, payload: seq<Byte>)
    requires c < CHUNKS
    ensures DescriptorOf(Entry(c, payload)) == Descriptor(OffsetOf(c), HEADER_BYTES + |payload|)
  {
  }

  // ---------- Join, store a read index, vacate a slot ----------

  lemma JoinRepresents(m: Snapshot, a: State, s: nat)
    requires Inv(a) && Represents(m, a) && s < SLOTS && a.slots[s].Vacant?
    ensures Represents(m.(rd := m.rd[s := m.wr]), Join(a, s))
  {
    hide RingRep, ListRep, MaskRep, ContentRep, FreeOk, UseRep, LinkRep;
    OneSlotUse(m.inUse, a.place, a.slots, a.pub, s, Join(a, s).slots[s]);
    OneSlotLinks(m.data, a.slots, a.pub, a.free, s, Join(a, s).slots[s]);
  }

  lemma StoreReadRepresents(m: Snapshot, a: State, s: nat)
    requires Inv(a) && Represents(m, a) && s < SLOTS && CanStoreRead(a, s)
    ensures Represents(m.(rd := m.rd[s := (m.rd[s] + 1) % RING]), StoreRead(a, s))
  {
    hide RingRep, ListRep, MaskRep, ContentRep, FreeOk, UseRep, LinkRep, LogOk, OwnerOk, HoldersOk, FreshOk, HeldOk,
         PooledOk, LooseOk, InboxOk, LostChunks, TailOk, FreedOk;
    NextIndex(a.slots[s].next);
    OneSlotUse(m.inUse, a.place, a.slots, a.pub, s, StoreRead(a, s).slots[s]);
    OneSlotLinks(m.data, a.slots, a.pub, a.free, s, StoreRead(a, s).slots[s]);
  }

  /** The marks fit as long as held chunks only become carried or freed ones and nobody clears a mark. */
  lemma UseStays(inUse: seq<bool>, place: seq<Place>, slots: seq<Slot>, pub: Publisher, place': seq<Place>,
                 slots': seq<Slot>, pub': Publisher)
    requires |inUse| == |place| == |place'| == CHUNKS && |slots| == |slots'| == SLOTS
    requires UseRep(inUse, place, slots, pub) && (ReapMarks(pub) <==> ReapMarks(pub'))
    requires forall s: nat | s < SLOTS :: StillMarks(slots[s]) == StillMarks(slots'[s])
    requires forall c: nat | c < CHUNKS && place'[c] != place[c] ::
      || place'[c] == Lost
      || (place[c] == Held && place'[c].Loose? && place'[c].slot < SLOTS && StillMarks(slots'[place'[c].slot]))
      || (place[c] == Held && place'[c] == Freed && ReapMarks(pub'))
    ensures UseRep(inUse, place', slots', pub')
  {
    forall c: nat | c < CHUNKS
      ensures UseOf(inUse[c], place'[c], slots', pub')
    {
      assert UseOf(inUse[c], place[c], slots, pub);
    }
  }

  lemma NextIndex(n: nat)
    ensures (n % RING + 1) % RING == (n + 1) % RING
  {
  }

  /** Steps that change no shared word: the phase of a slot, its liveness, the publisher's own position. */
  lemma SameWordsRepresent(m: Snapshot, a: State, b: State)
    requires Shape(a) && FreeOk(a.free) && Represents(m, a) && Shape(b)
    requires b == a.(slots := b.slots, pub := b.pub)
    requires forall s: nat | s < SLOTS ::
      a.slots[s].Used? == b.slots[s].Used? && (a.slots[s].Used? ==> a.slots[s].next == b.slots[s].next)
    requires forall s: nat | s < SLOTS :: StillMarks(a.slots[s]) == StillMarks(b.slots[s])
    requires ReapMarks(a.pub) <==> ReapMarks(b.pub)
    requires forall p: Process, c: nat | Linking(b.slots, b.pub, p, c) :: Linking(a.slots, a.pub, p, c)
    ensures Represents(m, b)
  {
    hide RingRep, ListRep, MaskRep, ContentRep, FreeOk;
    UseStays(m.inUse, a.place, a.slots, a.pub, b.place, b.slots, b.pub);
    LinksStay(m.data, a.slots, a.pub, a.free, m.data, b.slots, b.pub, a.free);
    hide UseRep, LinkRep;
  }

  lemma EndReapRepresents(m: Snapshot, a: State)
    requires Inv(a) && Represents(m, a) && CanEndReap(a)
    ensures Inv(EndReap(a)) && Represents(m.(rd := m.rd[a.pub.slot := INVALID_INDEX]), EndReap(a))
  {
    hide RingRep, ListRep, MaskRep, ContentRep, FreeOk, OwnerOk, HoldersOk, FreshOk, LooseOk, InboxOk, LogOk,
         LostChunks, UseRep, LinkRep, TailOk, FreedOk;
    EndReapKeeps(a);
    var b := EndReap(a);
    UseOfOthers(m.inUse, a.place, a.slots, a.pub, a.pub.slot, b.place, b.slots);
    OneSlotLinks(m.data, a.slots, a.pub, a.free, a.pub.slot, Vacant);
    LinksStay(m.data, b.slots, a.pub, a.free, m.data, b.slots, b.pub, b.free);
  }

  lemma UseOfOthers(inUse: seq<bool>, place: seq<Place>, slots: seq<Slot>, pub: Publisher, s: nat, place': seq<Place>,
                    slots': seq<Slot>)
    requires |inUse| == |place| == |place'| == CHUNKS && |slots| == |slots'| == SLOTS
    requires UseRep(inUse, place, slots, pub) && pub.Reaping? && pub.release.Sweeping?
    requires s < SLOTS && forall t: nat | t < SLOTS && t != s :: slots[t] == slots'[t]
    requires forall c: nat | c < CHUNKS :: place'[c] == if place[c] == Loose(s) then Lost else place[c]
    ensures UseRep(inUse, place', slots', Ready)
  {
    forall c: nat | c < CHUNKS
      ensures UseOf(inUse[c], place'[c], slots', Ready)
    {
      assert UseOf(inUse[c], place[c], slots, pub);
    }
  }

  // ---------- Clear a holder bit ----------

  lemma ClearBit(masks: seq<Mask>, holders: seq<set<nat>>, c: nat, s: nat)
    requires |masks| == |holders| == CHUNKS && MaskRep(masks, holders) && c < CHUNKS && s < SLOTS
    ensures MaskRep(masks[c := Without(masks[c], Bit(s))], holders[c := holders[c] - {s}])
    ensures masks[c] == Bit(s) <==> holders[c] == {s}
  {
    hide Bit, Means, Without;
    FetchAnd(masks[c], holders[c], s);
    OnlyHolder(masks[c], holders[c], s);
  }

  lemma ClearContents(data: seq<Byte>, log: seq<Entry>, owner: seq<int>, holders: seq<set<nat>>, c: nat, s: nat)
    requires |data| == POOL_BYTES && |owner| == |holders| == CHUNKS && c < CHUNKS
    requires ContentRep(data, log, owner, holders)
    ensures ContentRep(data, log, owner, holders[c := holders[c] - {s}])
  {
    hide Contains;
  }

  lemma ClearRepresents(m: Snapshot, a: State, s: nat)
    requires Inv(a) && Represents(m, a) && s < SLOTS && CanClear(a, s)
    ensures var c := a.log[a.slots[s].next].chunk;
            && c < CHUNKS && 0 <= a.owner[c] < |a.log| && Inv(Clear(a, s))
            && Represents(m.(masks := m.masks[c := Without(m.masks[c], Bit(s))]), Clear(a, s))
            && (m.masks[c] == Bit(s) <==> a.holders[c] == {s})
  {
    hide RingRep, ListRep, MaskRep, ContentRep, UseRep, FreeOk, OwnerOk, HoldersOk, FreshOk, LooseOk, InboxOk, LogOk,
         LostChunks, HeldOk, PooledOk, SlotsOk, Bit, Without, LinkRep, TailOk, FreedOk;
    ClearedChunk(a, s);
    ClearKeeps(a, s);
    var c := a.log[a.slots[s].next].chunk;
    ClearBit(m.masks, a.holders, c, s);
    ClearContents(m.data, a.log, a.owner, a.holders, c, s);
    UseStays(m.inUse, a.place, a.slots, a.pub, Clear(a, s).place, Clear(a, s).slots, a.pub);
    OneSlotLinks(m.data, a.slots, a.pub, a.free, s, Clear(a, s).slots[s]);
  }

  /** The message a live reader is about to read is in its chunk, byte for byte, and its descriptor
      is in the ring where the reader looks. */
  lemma NextMessageIsThere(m: Snapshot, a: State, s: nat)
    requires Inv(a) && Represents(m, a) && s < SLOTS && CanClear(a, s)
    ensures var n := a.slots[s].next;
            && a.log[n].chunk < CHUNKS && m.rd[s] == n % RING
            && m.ring[n % RING] == DescriptorOf(a.log[n])
            && SizeClass(HEADER_BYTES + |a.log[n].payload|) == ClassOf(a.log[n].chunk)
            && Contains(m.data, a.log[n].chunk, n, a.log[n].payload)
  {
    hide ListRep, MaskRep, UseRep, FreeOk, OwnerOk, HoldersOk, FreshOk, LooseOk, InboxOk,
         LostChunks, HeldOk, PooledOk, Contains, DescriptorOf, TailOk, FreedOk;
    ClearedChunk(a, s);
    var n := a.slots[s].next;
    var c := a.log[n].chunk;
    assert EntryOk(a.log[n]);
    assert a.holders[c] != {};
    assert n < |a.log| < n + RING + 1;
  }

  // ---------- Append a chunk to its free list ----------

  // The three stores of a tail append: clear the mark, link the old tail to the chunk, move the tail.

  function MarkCleared(m: Snapshot, c: nat): Snapshot
    requires Sizes(m) && c < CHUNKS
  {
    m.(inUse := m.inUse[c := false])
  }

  function LinkWritten(m: Snapshot, c: nat): Snapshot
    requires Sizes(m) && c < CHUNKS && m.tail[ClassOf(c)] + 4 <= POOL_BYTES && OffsetOf(c) < U32_LIMIT
  {
    m.(data := Splice(m.data, m.tail[ClassOf(c)], U32Bytes(OffsetOf(c))))
  }

  function TailMoved(m: Snapshot, c: nat): Snapshot
    requires Sizes(m) && c < CHUNKS
  {
    m.(tail := m.tail[ClassOf(c) := OffsetOf(c)])
  }

  lemma TailWord(head: seq<nat>, tail: seq<nat>, data: seq<Byte>, free: seq<seq<nat>>, c: nat)
    requires |head| == |tail| == |free| == CLASSES && |data| == POOL_BYTES && FreeOk(free) && c < CHUNKS
    requires ListRep(head, tail, data, free)
    ensures tail[ClassOf(c)] == OffsetOf(Tail(free, ClassOf(c))) && tail[ClassOf(c)] + 4 <= POOL_BYTES
    ensures OffsetOf(c) < U32_LIMIT
  {
    OffsetOfIsChunkOffset(c);
    OffsetOfIsChunkOffset(Tail(free, ClassOf(c)));
  }

  lemma SmallestClass(c: nat)
    requires c < CHUNKS
    ensures ClassSize(ClassOf(c)) >= 16
  {
  }

  lemma LinkOther(data: seq<Byte>, c: nat, v: nat, d: nat)
    requires |data| == POOL_BYTES && c < CHUNKS && d < CHUNKS && OffsetOf(c) + 4 <= POOL_BYTES && v < U32_LIMIT
    ensures LinkOf(Splice(data, OffsetOf(c), U32Bytes(v)), d) == if d == c then v else LinkOf(data, d)
  {
    hide OffsetOf, ClassSize, ClassOf, U32Bytes, Splice, U32Of;
    if d == c {
      U32RoundTrip(v);
    } else {
      SmallestClass(c);
      SmallestClass(d);
      WriteKeepsRange(data, c, U32Bytes(v), d, 4);
    }
  }

  /** Linking a list's tail chunk to `c` changes no list: the link of a tail belongs to none. */
  lemma LinkLists(head: seq<nat>, tail: seq<nat>, data: seq<Byte>, free: seq<seq<nat>>, c: nat)
    requires |head| == |tail| == |free| == CLASSES && |data| == POOL_BYTES && FreeOk(free) && c < CHUNKS
    requires ListRep(head, tail, data, free) && tail[ClassOf(c)] + 4 <= POOL_BYTES && OffsetOf(c) < U32_LIMIT
    ensures var data' := Splice(data, tail[ClassOf(c)], U32Bytes(OffsetOf(c)));
            && ListRep(head, tail, data', free)
            && forall j: nat | j < CLASSES :: LinkOf(data', Tail(free, j))
                 == if j == ClassOf(c) then OffsetOf(c) else LinkOf(data, Tail(free, j))
  {
    TailWord(head, tail, data, free, c);
    var k := ClassOf(c);
    var last := Tail(free, k);
    var data' := Splice(data, OffsetOf(last), U32Bytes(OffsetOf(c)));
    hide OffsetOf, U32Bytes, Splice, ClassSize, LinkOf;
    forall j: nat | j < CLASSES
      ensures Linked(data', free[j])
      ensures LinkOf(data', Tail(free, j)) == if j == k then OffsetOf(c) else LinkOf(data, Tail(free, j))
    {
      assert ListOk(j, free[j]);
      forall i: nat | i + 1 < |free[j]|
        ensures LinkOf(data', free[j][i]) == OffsetOf(free[j][i + 1])
      {
        assert free[j][i] != last;
        LinkOther(data, last, OffsetOf(c), free[j][i]);
      }
      LinkOther(data, last, OffsetOf(c), Tail(free, j));
    }
  }

  /** Once the tail chunk is linked to `c`, moving the tail makes `c` the end of the list. */
  lemma MoveLists(head: seq<nat>, tail: seq<nat>, data: seq<Byte>, free: seq<seq<nat>>, c: nat)
    requires |head| == |tail| == |free| == CLASSES && |data| == POOL_BYTES && FreeOk(free) && c < CHUNKS
    requires ListRep(head, tail, data, free) && LinkOf(data, Tail(free, ClassOf(c))) == OffsetOf(c)
    requires FreeOk(free[ClassOf(c) := free[ClassOf(c)] + [c]])
    ensures var k := ClassOf(c); ListRep(head, tail[k := OffsetOf(c)], data, free[k := free[k] + [c]])
  {
    hide OffsetOf, LinkOf, ClassOf, Linked;
    var k := ClassOf(c);
    assert ListOk(k, free[k]);
    LinkedOneMore(data, free[k], c);
  }

  lemma LinkedOneMore(data: seq<Byte>, xs: seq<nat>, c: nat)
    requires |data| == POOL_BYTES && xs != [] && AreChunks(xs) && c < CHUNKS && Linked(data, xs)
    requires LinkOf(data, xs[|xs| - 1]) == OffsetOf(c)
    ensures AreChunks(xs + [c]) && Linked(data, xs + [c])
  {
    hide OffsetOf, LinkOf;
    forall j: nat | j < |xs|
      ensures LinkOf(data, (xs + [c])[j]) == OffsetOf((xs + [c])[j + 1])
    {
      if j + 1 < |xs| {
        assert LinkOf(data, xs[j]) == OffsetOf(xs[j + 1]);
      }
    }
  }

  lemma AppendContents(data: seq<Byte>, a: State, last: nat, bytes: seq<Byte>)
    requires |data| == POOL_BYTES && Shape(a) && last < CHUNKS && a.holders[last] == {}
    requires |bytes| <= ClassSize(ClassOf(last)) && OffsetOf(last) + |bytes| <= POOL_BYTES
    requires ContentRep(data, a.log, a.owner, a.holders)
    ensures ContentRep(Splice(data, OffsetOf(last), bytes), a.log, a.owner, a.holders)
  {
    hide OffsetOf, ClassSize, ClassOf, Splice, Contains;
    forall d: nat | d < CHUNKS && a.holders[d] != {}
      ensures Contains(Splice(data, OffsetOf(last), bytes), d, a.owner[d], a.log[a.owner[d]].payload)
    {
      WriteKeepsContents(data, last, bytes, d, a.owner[d], a.log[a.owner[d]].payload);
    }
  }

  ghost predicate PoolUnheld(place: seq<Place>, holders: seq<set<nat>>)
    requires |place| == |holders| == CHUNKS
  {
    forall d: nat | d < CHUNKS && place[d] == InPool :: holders[d] == {}
  }

  lemma TailIsFree(a: State, k: nat)
    requires Shape(a) && FreeOk(a.free) && PooledOk(a.place, a.free) && PoolUnheld(a.place, a.holders) && k < CLASSES
    ensures a.holders[Tail(a.free, k)] == {}
  {
    assert a.place[Tail(a.free, k)] == InPool;
  }

  /** A process inside an append is alone in it: nobody else stands between linking and moving a tail. */
  lemma OnlyLinker(a: State, p: Process, q: Process, c: nat)
    requires Inv(a) && Shape(a) && Appending(a, p) && Linking(a.slots, a.pub, q, c)
    ensures q == p
  {
    hide Inv;
    OneAppender(a, p, q);
  }

  /** Linking a tail to a chunk that is on its way back goes into a chunk no reader looks at, and disturbs no link that
      anybody relies on. */
  lemma LinkedRepresents(m: Snapshot, a: State, c: nat, b: State)
    requires Shape(a) && FreeOk(a.free) && PooledOk(a.place, a.free) && PoolUnheld(a.place, a.holders)
    requires Represents(m, a) && c < CHUNKS && Shape(b) && b == a.(slots := b.slots, pub := b.pub)
    requires forall s: nat | s < SLOTS ::
      a.slots[s].Used? == b.slots[s].Used? && (a.slots[s].Used? ==> a.slots[s].next == b.slots[s].next)
    requires forall s: nat | s < SLOTS :: StillMarks(a.slots[s]) == StillMarks(b.slots[s])
    requires ReapMarks(a.pub) <==> ReapMarks(b.pub)
    requires forall p: Process, d: nat | Linking(b.slots, b.pub, p, d) :: d == c
    ensures m.tail[ClassOf(c)] + 4 <= POOL_BYTES && OffsetOf(c) < U32_LIMIT
    ensures Represents(LinkWritten(m, c), b)
  {
    hide RingRep, ListRep, MaskRep, ContentRep, UseRep, FreeOk, PooledOk, PoolUnheld, U32Bytes, Splice,
         OffsetOf, ClassSize, LinkOf, LinkRep, ClassOf, Linking;
    TailWord(m.head, m.tail, m.data, a.free, c);
    LinkLists(m.head, m.tail, m.data, a.free, c);
    var last := Tail(a.free, ClassOf(c));
    TailIsFree(a, ClassOf(c));
    SmallestClass(last);
    AppendContents(m.data, a, last, U32Bytes(OffsetOf(c)));
    UseStays(m.inUse, a.place, a.slots, a.pub, b.place, b.slots, b.pub);
    OnlyThisLink(LinkWritten(m, c).data, b.slots, b.pub, b.free, c);
  }

  lemma OnlyThisLink(data: seq<Byte>, slots: seq<Slot>, pub: Publisher, free: seq<seq<nat>>, c: nat)
    requires |data| == POOL_BYTES && |slots| == SLOTS && |free| == CLASSES && FreeOk(free) && c < CHUNKS
    requires forall p: Process, d: nat | Linking(slots, pub, p, d) :: d == c
    requires LinkOf(data, Tail(free, ClassOf(c))) == OffsetOf(c)
    ensures LinkRep(data, slots, pub, free)
  {
    hide OffsetOf, LinkOf, FreeOk, ClassOf, Linking;
  }

  /** Moving the tail to the linked chunk puts it at the end of its list. */
  lemma MovedRepresents(m: Snapshot, a: State, c: nat, b: State)
    requires Shape(a) && FreeOk(a.free) && PooledOk(a.place, a.free) && Represents(m, a) && Shape(b)
    requires c < CHUNKS && a.place[c] != InPool && LinkOf(m.data, Tail(a.free, ClassOf(c))) == OffsetOf(c)
    requires b == a.(slots := b.slots, pub := b.pub, free := a.free[ClassOf(c) := a.free[ClassOf(c)] + [c]],
                     place := a.place[c := InPool])
    requires forall s: nat | s < SLOTS ::
      a.slots[s].Used? == b.slots[s].Used? && (a.slots[s].Used? ==> a.slots[s].next == b.slots[s].next)
    requires UseRep(m.inUse, b.place, b.slots, b.pub)
    requires forall p: Process, d: nat :: !Linking(b.slots, b.pub, p, d)
    ensures FreeOk(b.free) && Represents(TailMoved(m, c), b)
  {
    hide RingRep, ListRep, MaskRep, ContentRep, UseRep, FreeOk, PooledOk, LinkOf, OffsetOf, ClassOf, Linking;
    AppendFree(a.free, a.place, c);
    MoveLists(m.head, m.tail, m.data, a.free, c);
    assert LinkRep(m.data, b.slots, b.pub, b.free);
    hide LinkRep;
  }

  lemma InvLists(a: State)
    requires Inv(a)
    ensures Shape(a) && FreeOk(a.free) && PooledOk(a.place, a.free) && PoolUnheld(a.place, a.holders)
  {
  }

  lemma MarkedUntil(m: Snapshot, a: State, c: nat)
    requires Shape(a) && FreeOk(a.free) && Represents(m, a) && c < CHUNKS
    ensures |m.inUse| == CHUNKS && (a.place[c] == Held ==> m.inUse[c])
    ensures a.place[c].Loose? && a.place[c].slot < SLOTS ==> (m.inUse[c] <==> StillMarks(a.slots[a.place[c].slot]))
    ensures a.place[c] == Freed ==> (m.inUse[c] <==> ReapMarks(a.pub))
  {
    hide IndexRep, RingRep, ListRep, MaskRep, ContentRep, LinkRep, FreeOk;
    assert UseOf(m.inUse[c], a.place[c], a.slots, a.pub);
  }

  lemma LinkedHere(m: Snapshot, a: State, p: Process, c: nat)
    requires Shape(a) && FreeOk(a.free) && Represents(m, a) && c < CHUNKS && Linking(a.slots, a.pub, p, c)
    ensures |m.data| == POOL_BYTES && LinkOf(m.data, Tail(a.free, ClassOf(c))) == OffsetOf(c)
  {
    hide IndexRep, RingRep, ListRep, MaskRep, ContentRep, UseRep, FreeOk, Linking, OffsetOf, LinkOf, ClassOf;
  }

  // ---------- A subscriber's append ----------

  /** What a subscriber carries is one chunk. */
  lemma OnlyCarried(a: State, s: nat, c: nat)
    requires Inv(a) && s < SLOTS && a.slots[s].Used? && a.slots[s].phase.Returning?
      && a.slots[s].phase.chunk == c < CHUNKS
    ensures a.place[c] == Loose(s) && forall d: nat | d < CHUNKS && a.place[d] == Loose(s) :: d == c
  {
    hide LogOk, OwnerOk, HoldersOk, FreshOk, InboxOk, LostChunks, HeldOk, PooledOk, FreeOk, SlotsOk, TailOk, FreedOk;
    assert Carries(a.log, a.slots[s], c);
    forall d: nat | d < CHUNKS && a.place[d] == Loose(s)
      ensures d == c
    {
      assert Carries(a.log, a.slots[s], d);
    }
  }

  lemma UnmarkUse(inUse: seq<bool>, place: seq<Place>, slots: seq<Slot>, pub: Publisher, c: nat, s: nat,
                  slots': seq<Slot>)
    requires |inUse| == |place| == CHUNKS && |slots| == |slots'| == SLOTS && UseRep(inUse, place, slots, pub)
    requires s < SLOTS && c < CHUNKS && place[c] == Loose(s) && !StillMarks(slots'[s])
    requires forall d: nat | d < CHUNKS && place[d] == Loose(s) :: d == c
    requires forall t: nat | t < SLOTS && t != s :: slots'[t] == slots[t]
    ensures UseRep(inUse[c := false], place, slots', pub)
  {
    forall d: nat | d < CHUNKS
      ensures UseOf(inUse[c := false][d], place[d], slots', pub)
    {
      assert UseOf(inUse[d], place[d], slots, pub);
    }
  }

  /** Clearing the mark represents the first step of an append, and the mark was set: no double free. */
  lemma UnmarkRepresents(m: Snapshot, a: State, s: nat)
    requires Inv(a) && Represents(m, a) && s < SLOTS && CanUnmark(a, s)
    ensures var c := a.slots[s].phase.chunk;
            m.inUse[c] && Inv(Unmark(a, s)) && Represents(MarkCleared(m, c), Unmark(a, s))
  {
    hide Inv, RingRep, ListRep, MaskRep, ContentRep, UseRep, FreeOk, LinkRep;
    InvLists(a);
    var c := a.slots[s].phase.chunk;
    OnlyCarried(a, s, c);
    UnmarkKeeps(a, s);
    MarkedUntil(m, a, c);
    UnmarkUse(m.inUse, a.place, a.slots, a.pub, c, s, Unmark(a, s).slots);
    OneSlotLinks(m.data, a.slots, a.pub, a.free, s, Unmark(a, s).slots[s]);
  }

  /** Writing the link represents the second step: no list, no held chunk and no other link changes. */
  lemma LinkRepresents(m: Snapshot, a: State, s: nat)
    requires Inv(a) && Represents(m, a) && s < SLOTS && CanLink(a, s)
    ensures var c := a.slots[s].phase.chunk;
            && m.tail[ClassOf(c)] + 4 <= POOL_BYTES && OffsetOf(c) < U32_LIMIT
            && Inv(Link(a, s)) && Represents(LinkWritten(m, c), Link(a, s))
  {
    hide Inv, Represents, FreeOk, LinkWritten, PooledOk, PoolUnheld, OffsetOf, ClassOf;
    InvLists(a);
    var b := Link(a, s);
    forall p: Process, d: nat | Linking(b.slots, b.pub, p, d)
      ensures d == a.slots[s].phase.chunk
    {
      if p != Reader(s) {
        OnlyLinker(a, Reader(s), p, d);
      }
    }
    LinkedRepresents(m, a, a.slots[s].phase.chunk, b);
    LinkKeeps(a, s);
  }

  lemma ReturnUse(inUse: seq<bool>, place: seq<Place>, slots: seq<Slot>, pub: Publisher, c: nat, s: nat,
                  slots': seq<Slot>)
    requires |inUse| == |place| == CHUNKS && |slots| == |slots'| == SLOTS && UseRep(inUse, place, slots, pub)
    requires s < SLOTS && c < CHUNKS && place[c] == Loose(s) && !StillMarks(slots[s])
    requires forall d: nat | d < CHUNKS && place[d] == Loose(s) :: d == c
    requires forall t: nat | t < SLOTS && t != s :: slots'[t] == slots[t]
    ensures UseRep(inUse, place[c := InPool], slots', pub)
  {
    forall d: nat | d < CHUNKS
      ensures UseOf(inUse[d], place[c := InPool][d], slots', pub)
    {
      assert UseOf(inUse[d], place[d], slots, pub);
    }
  }

  /** Moving the tail represents the append itself. */
  lemma ReturnRepresents(m: Snapshot, a: State, s: nat)
    requires Inv(a) && Represents(m, a) && s < SLOTS && CanReturn(a, s)
    ensures var c := a.slots[s].phase.chunk;
            Inv(Return(a, s)) && Represents(TailMoved(m, c), Return(a, s)) && a.place[c] == Loose(s)
  {
    hide Inv, IndexRep, RingRep, ListRep, MaskRep, ContentRep, LinkRep, UseRep, FreeOk, LinkOf, OffsetOf, PooledOk,
         PoolUnheld, ClassOf;
    InvLists(a);
    var c, b := a.slots[s].phase.chunk, Return(a, s);
    OnlyCarried(a, s, c);
    LinkedHere(m, a, Reader(s), c);
    ReturnUse(m.inUse, a.place, a.slots, a.pub, c, s, b.slots);
    forall p: Process, d: nat
      ensures !Linking(b.slots, b.pub, p, d)
    {
      if Linking(b.slots, b.pub, p, d) {
        OnlyLinker(a, Reader(s), p, d);
      }
    }
    MovedRepresents(m, a, c, b);
    ReturnKeeps(a, s);
  }

  // ---------- Reap one descriptor ----------

  lemma ReapedDescriptor(m: Snapshot, a: State)
    requires Inv(a) && Represents(m, a) && a.pub.Reaping? && a.pub.pos < |a.log|
    ensures var e := a.log[a.pub.pos];
            && e.chunk < CHUNKS && m.ring[a.pub.pos % RING] == DescriptorOf(e)
            && SizeClass(HEADER_BYTES + |e.payload|) == ClassOf(e.chunk)
  {
    hide ListRep, MaskRep, ContentRep, UseRep, FreeOk, OwnerOk, HoldersOk, FreshOk, LooseOk, InboxOk,
         LostChunks, HeldOk, PooledOk, DescriptorOf, LinkRep, TailOk, FreedOk;
    assert EntryOk(a.log[a.pub.pos]);
    assert SlotOk(a.log, a.slots[a.pub.slot]);
    assert a.pub.pos < |a.log| < a.pub.pos + RING + 1;
  }

  /** Clearing the dead slot's bit represents the first step of releasing a descriptor; the previous word tells whether
      the chunk is to be appended. */
  lemma ReapClearRepresents(m: Snapshot, a: State)
    requires Inv(a) && Represents(m, a) && CanReapClear(a)
    ensures var c, s := a.log[a.pub.pos].chunk, a.pub.slot;
            && c < CHUNKS && s < SLOTS && Inv(ReapClear(a))
            && Represents(m.(masks := m.masks[c := Without(m.masks[c], Bit(s))]), ReapClear(a))
            && (m.masks[c] == Bit(s) <==> ReapClear(a).pub.release.Freeing?)
  {
    hide Inv, RingRep, ListRep, MaskRep, ContentRep, UseRep, FreeOk, Bit, Without, LinkRep, PooledOk, PoolUnheld;
    InvLists(a);
    ReapedChunk(a);
    ReapClearKeeps(a);
    var c, s, b := a.log[a.pub.pos].chunk, a.pub.slot, ReapClear(a);
    ClearBit(m.masks, a.holders, c, s);
    ClearContents(m.data, a.log, a.owner, a.holders, c, s);
    if a.holders[c] == {s} {
      HeldInPlace(a, c);
    }
    UseStays(m.inUse, a.place, a.slots, a.pub, b.place, b.slots, b.pub);
    LinksStay(m.data, a.slots, a.pub, a.free, m.data, b.slots, b.pub, b.free);
  }

  lemma HeldInPlace(a: State, c: nat)
    requires Inv(a) && c < CHUNKS && a.holders[c] != {}
    ensures a.place[c] == Held
  {
  }

  /** The chunk the reap frees is the only one of its kind. */
  lemma OnlyFreed(a: State)
    requires Inv(a) && a.pub.Reaping? && a.pub.release.Freeing?
    ensures var c := a.pub.release.chunk;
            c < CHUNKS && a.place[c] == Freed && forall d: nat | d < CHUNKS && a.place[d] == Freed :: d == c
  {
    hide LogOk, OwnerOk, HoldersOk, FreshOk, InboxOk, LostChunks, HeldOk, PooledOk, FreeOk, TailOk, LooseOk;
  }

  lemma ReapUse(inUse: seq<bool>, place: seq<Place>, slots: seq<Slot>, pub: Publisher, c: nat, p: Place,
                pub': Publisher)
    requires |inUse| == |place| == CHUNKS && |slots| == SLOTS && UseRep(inUse, place, slots, pub)
    requires c < CHUNKS && forall d: nat | d < CHUNKS && place[d] == Freed :: d == c
    requires p == InPool || (p == Freed && !ReapMarks(pub'))
    ensures UseRep(inUse[c := false], place[c := p], slots, pub')
  {
    var inUse', place' := inUse[c := false], place[c := p];
    forall d: nat | d < CHUNKS
      ensures UseOf(inUse'[d], place'[d], slots, pub')
    {
      assert UseOf(inUse[d], place[d], slots, pub);
    }
  }

  lemma ReapUnmarkRepresents(m: Snapshot, a: State)
    requires Inv(a) && Represents(m, a) && Frees(a, Marked)
    ensures var c := a.pub.release.chunk;
            m.inUse[c] && Inv(ReapUnmark(a)) && Represents(MarkCleared(m, c), ReapUnmark(a))
  {
    hide Inv, RingRep, ListRep, MaskRep, ContentRep, UseRep, FreeOk, LinkRep, PooledOk, PoolUnheld;
    InvLists(a);
    var c, b := a.pub.release.chunk, ReapUnmark(a);
    OnlyFreed(a);
    ReapUnmarkKeeps(a);
    MarkedUntil(m, a, c);
    ReapUse(m.inUse, a.place, a.slots, a.pub, c, Freed, b.pub);
    assert a.place[c := Freed] == a.place;
    LinksStay(m.data, a.slots, a.pub, a.free, m.data, b.slots, b.pub, b.free);
  }

  lemma ReapLinkRepresents(m: Snapshot, a: State)
    requires Inv(a) && Represents(m, a) && Frees(a, Unmarked)
    ensures var c := a.pub.release.chunk;
            && m.tail[ClassOf(c)] + 4 <= POOL_BYTES && OffsetOf(c) < U32_LIMIT
            && Inv(ReapLink(a)) && Represents(LinkWritten(m, c), ReapLink(a))
  {
    hide Inv, Represents, FreeOk, LinkWritten, PooledOk, PoolUnheld, OffsetOf, ClassOf;
    InvLists(a);
    var b := ReapLink(a);
    forall p: Process, d: nat | Linking(b.slots, b.pub, p, d)
      ensures d == a.pub.release.chunk
    {
      if p != ThePublisher {
        OnlyLinker(a, ThePublisher, p, d);
      }
    }
    LinkedRepresents(m, a, a.pub.release.chunk, b);
    ReapLinkKeeps(a);
  }

  lemma ReapReturnRepresents(m: Snapshot, a: State)
    requires Inv(a) && Represents(m, a) && Frees(a, OnTail)
    ensures var c := a.pub.release.chunk;
            Inv(ReapReturn(a)) && Represents(TailMoved(m, c), ReapReturn(a)) && a.place[c] == Freed
  {
    hide Inv, IndexRep, RingRep, ListRep, MaskRep, ContentRep, LinkRep, UseRep, FreeOk, LinkOf, OffsetOf, PooledOk,
         PoolUnheld, ClassOf;
    InvLists(a);
    var c, b := a.pub.release.chunk, ReapReturn(a);
    OnlyFreed(a);
    MarkedUntil(m, a, c);
    assert m.inUse[c := false] == m.inUse;
    LinkedHere(m, a, ThePublisher, c);
    ReapUse(m.inUse, a.place, a.slots, a.pub, c, InPool, b.pub);
    forall p: Process, d: nat
      ensures !Linking(b.slots, b.pub, p, d)
    {
      if Linking(b.slots, b.pub, p, d) {
        OnlyLinker(a, ThePublisher, p, d);
      }
    }
    MovedRepresents(m, a, c, b);
    ReapReturnKeeps(a);
  }

  lemma TailRoom(m: Snapshot, a: State, c: nat)
    requires Shape(a) && FreeOk(a.free) && Represents(m, a) && c < CHUNKS
    ensures Sizes(m) && m.tail[ClassOf(c)] + 4 <= POOL_BYTES && OffsetOf(c) < U32_LIMIT
  {
    hide IndexRep, RingRep, ListRep, MaskRep, ContentRep, UseRep, LinkRep;
    TailWord(m.head, m.tail, m.data, a.free, c);
  }

  // ---------- Initialisation ----------

  /** What initialisation leaves behind represents the machine's initial state. */
  lemma InitRepresents(m: Snapshot)
    requires Sizes(m) && m.wr == 0
    requires forall s: nat | s < SLOTS :: m.rd[s] == INVALID_INDEX
    requires forall c: nat | c < CHUNKS :: m.masks[c] == 0 && !m.inUse[c]
    requires forall k: nat | k < CLASSES :: m.head[k] == FirstOffset(k) && m.tail[k] == LastOffset(k)
    requires forall k: nat | k < CLASSES :: AreChunks(ClassList(k)) && Linked(m.data, ClassList(k))
    ensures Inv(Init()) && Represents(m, Init())
  {
    hide Linked, Means, Inv, OffsetOf, FirstOffset, LastOffset;
    InitOk();
    EmptyMask();
    assert Shape(Init()) && FreeOk(Init().free) by { InitLists(); }
    forall k: nat | k < CLASSES
      ensures OffsetOf(ClassList(k)[0]) == FirstOffset(k) && OffsetOf(ClassList(k)[|ClassList(k)| - 1]) == LastOffset(k)
    {
      ListEnds(k);
    }
    assert MaskRep(m.masks, Init().holders);
  }

  lemma InitLists()
    ensures Shape(Init()) && FreeOk(Init().free)
  {
    InitOk();
  }

  lemma ListEnds(k: nat)
    requires k < CLASSES
    ensures ClassList(k)[0] < CHUNKS && OffsetOf(ClassList(k)[0]) == FirstOffset(k)
    ensures ClassList(k)[|ClassList(k)| - 1] < CHUNKS && OffsetOf(ClassList(k)[|ClassList(k)| - 1]) == LastOffset(k)
  {
  }
}
