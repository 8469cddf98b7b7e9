/** A subscriber's side of one publisher's mapping: reading, acknowledging and returning chunks. */
module SubscriberSide {
  import opened Layout
  import opened Bytes
  import opened Bitmask
  import opened Pool
  import opened PoolInvariant
  import opened PoolRuns
  import PoolSignals
  import opened Memory
  import opened SharedMapping

  datatype RunError =
    | None
    | DataAvailableEventReadFailed
    | WrappedDescriptorReadFailed
    | ContiguousMessageConsumptionFailed

  const NO_SEQ := U32_LIMIT - 1  // expected_seq before the first message: -1

  // ---------- What consumption does ----------

  /** One descriptor: clear, store the index and, for the last holder, append the chunk and signal. */
  ghost function ConsumeOne(a: State, s: nat): (b: State)
    requires Inv(a) && s < SLOTS
    ensures Inv(b)
  {
    hide Inv;
    Apply(PoolSignals.AppendAtOnce(Apply(Apply(a, DoClear(s)), DoStoreRead(s)), s), DoSignal(s))
  }

  ghost function Consume(a: State, s: nat, n: nat): (b: State)
    requires Inv(a) && s < SLOTS
    ensures Inv(b)
  {
    if n == 0 then a else ConsumeOne(Consume(a, s, n - 1), s)
  }

  /** Whether the next message's chunk waits for this reader alone. */
  ghost predicate LastHolder(a: State, s: nat)
    requires Inv(a) && s < SLOTS && CanClear(a, s)
  {
    ClearedChunk(a, s);
    a.holders[a.log[a.slots[s].next].chunk] == {s}
  }

  /** How many of the next `n` messages this reader is the last to read. */
  ghost function LastReads(a: State, s: nat, n: nat): nat
    requires Inv(a) && s < SLOTS
  {
    if n == 0 then 0 else
      var b := Consume(a, s, n - 1);
      LastReads(a, s, n - 1) + if CanClear(b, s) && LastHolder(b, s) then 1 else 0
  }

  lemma ConsumeOneEffect(a: State, s: nat)
    requires Inv(a) && s < SLOTS && CanClear(a, s)
    ensures var b := ConsumeOne(a, s);
            && b.log == a.log && b.pub == a.pub
            && b.slots == a.slots[s := a.slots[s].(next := a.slots[s].next + 1)]
            && b.inbox == a.inbox[s := a.inbox[s] + [a.log[a.slots[s].next].payload]]
  {
    hide HoldersOk, FreshOk, FreeOk, HeldOk, PooledOk, LooseOk, InboxOk, LostChunks, OwnerOk,
         PoolSignals.AppendAtOnce, PoolSignals.Appends, TailOk, FreedOk;
    ClearedChunk(a, s);
    var a1 := Apply(a, DoClear(s));
    PoolSignals.StoredChunkInRange(a1, s);
    var a2 := Apply(a1, DoStoreRead(s));
    var a3 := PoolSignals.AppendAtOnce(a2, s);
    PoolSignals.AppendSlots(a2, s);
    PoolSignals.AppendsFacts(a2, a3, s);
  }

  /** Consuming `n` unread messages delivers exactly these and moves only this reader. */
  lemma {:induction false} ConsumeEffect(a: State, s: nat, n: nat)
    requires Inv(a) && s < SLOTS && Live(a, s) && a.slots[s].phase.Idle? && a.slots[s].next + n <= |a.log|
    ensures var b := Consume(a, s, n);
            && b.log == a.log && b.pub == a.pub
            && b.slots == a.slots[s := a.slots[s].(next := a.slots[s].next + n)]
            && b.inbox == a.inbox[s := a.inbox[s] + Payloads(a.log[a.slots[s].next..a.slots[s].next + n])]
  {
    hide Inv, ConsumeOne;
    InvSizes(a);
    var p := a.slots[s].next;
    if n == 0 {
      assert Payloads(a.log[p..p]) == [];
      assert a.inbox[s] + [] == a.inbox[s];
    } else {
      ConsumeEffect(a, s, n - 1);
      ConsumeOneEffect(Consume(a, s, n - 1), s);
      OneMorePayload(a.inbox[s], a.log, p, n);
    }
  }

  /** The next `n` messages of reader `s`. */
  ghost function Unread(a: State, s: nat, n: nat): seq<seq<Byte>>
    requires Inv(a) && s < SLOTS && a.slots[s].Used? && a.slots[s].next + n <= |a.log|
  {
    Payloads(a.log[a.slots[s].next..a.slots[s].next + n])
  }

  lemma NothingUnread(a: State, s: nat)
    requires Inv(a) && s < SLOTS && a.slots[s].Used? && a.slots[s].next <= |a.log|
    ensures Unread(a, s, 0) == []
  {
  }

  lemma OneMoreUnread(a: State, s: nat, n: nat)
    requires Inv(a) && s < SLOTS && a.slots[s].Used? && a.slots[s].next + n + 1 <= |a.log|
    ensures Unread(a, s, n + 1) == Unread(a, s, n) + [a.log[a.slots[s].next + n].payload]
  {
    hide Inv;
    InvSizes(a);
    OneMorePayload([], a.log, a.slots[s].next, n + 1);
  }

  lemma OneMorePayload(given: seq<seq<Byte>>, log: seq<Entry>, p: nat, n: nat)
    requires 1 <= n && p + n <= |log|
    ensures given + Payloads(log[p..p + n]) == given + Payloads(log[p..p + n - 1]) + [log[p + n - 1].payload]
  {
  }

  lemma {:induction false} ConsumeAdd(a: State, s: nat, m: nat, n: nat)
    requires Inv(a) && s < SLOTS
    ensures Consume(Consume(a, s, m), s, n) == Consume(a, s, m + n)
    ensures LastReads(a, s, m) + LastReads(Consume(a, s, m), s, n) == LastReads(a, s, m + n)
  {
    hide Inv, ConsumeOne, LastHolder;
    if n > 0 {
      ConsumeAdd(a, s, m, n - 1);
    }
  }

  /** The number a reader expects next: unknown before its first message, then counted modulo 2^32. */
  predicate SeqOk(expected: nat, slot: Slot)
    requires slot.Used?
  {
    expected == slot.Unread() % U32_LIMIT || (expected == NO_SEQ && slot.Unread() == slot.start)
  }

  /** The number in the next message passes the check, and the count goes on. */
  lemma NextNumber(expected: nat, slot: Slot)
    requires slot.Used? && slot.phase.Idle? && SeqOk(expected, slot)
    ensures expected == NO_SEQ || expected == slot.next % U32_LIMIT
    ensures forall last :: SeqOk((slot.next % U32_LIMIT + 1) % U32_LIMIT, slot.(phase := Cleared(last)))
  {
  }

  lemma SameNumber(expected: nat, slot: Slot, slot': Slot)
    requires slot.Used? && slot'.Used? && SeqOk(expected, slot)
    requires slot'.Unread() == slot.Unread() && slot'.start == slot.start
    ensures SeqOk(expected, slot')
  {
  }

  class Attachment {
    const shm: SharedData
    const slot: nat
    var readIndex: nat       // subscriber_read_index
    var expectedSeq: nat
    var spaceSignals: nat    // writes to the space-available event

    /** Attached to a live slot; `readIndex` aside. */
    ghost predicate Attached()
      reads this, shm.Repr()
    {
      && slot < SLOTS && (this as object) !in shm.Repr() && shm.Valid()
      && Live(shm.abs, slot) && SeqOk(expectedSeq, shm.abs.slots[slot])
    }

    ghost predicate Valid()
      reads this, shm.Repr()
    {
      Attached() && readIndex == shm.abs.slots[slot].next % RING
    }

    /** The broker handed out `slot` and the publisher has tracked it. */
    constructor (mapping: SharedData, index: nat)
      requires mapping.Valid() && index < SLOTS && Live(mapping.abs, index)
      requires mapping.abs.slots[index].next == mapping.abs.slots[index].start && mapping.abs.slots[index].phase.Idle?
      ensures shm == mapping && slot == index && readIndex == INVALID_INDEX && Attached()
    {
      hide Inv, Represents, SharedData.Snap;
      shm, slot := mapping, index;
      readIndex, expectedSeq, spaceSignals := INVALID_INDEX, NO_SEQ, 0;
    }

    // ---------- One descriptor, program point by program point ----------

    /** Check and read the message `d` describes, then clear this reader's bit. */
    method ReadAndClear(d: Descriptor) returns (r: RunError, payload: seq<Byte>, last: bool)
      requires Valid() && CanClear(shm.abs, slot) && shm.abs.log[shm.abs.slots[slot].next].chunk < CHUNKS
      requires d == DescriptorOf(shm.abs.log[shm.abs.slots[slot].next])
      modifies shm`abs, shm.masks, `expectedSeq
      ensures Valid() && r == None && shm.abs == Apply(old(shm.abs), DoClear(slot))
      ensures payload == old(shm.abs.log[shm.abs.slots[slot].next]).payload
      ensures last <==> LastHolder(old(shm.abs), slot)
    {
      hide Inv, Represents, SizeClass, ClassOf, FirstOffset, LastOffset, OffsetOf, ChunkIndex, Bit, Without, U32At,
           Apply, DescriptorOf, SharedData.Snap, LastHolder, SeqOk;
      ghost var m, a := shm.Snap(), shm.abs;
      NextMessage(m, a, slot, d);
      NextNumber(expectedSeq, a.slots[slot]);
      r, payload, last := ReadWords(d, a.log[a.slots[slot].next].chunk, a.slots[slot].next % U32_LIMIT);
      shm.abs := Apply(a, DoClear(slot));
    }

    /** The loads, the checks and the one store: the header must carry the magic and the expected number. */
    method ReadWords(d: Descriptor, ghost c: nat, ghost number: nat)
      returns (r: RunError, payload: seq<Byte>, last: bool)
      requires shm.Shaped() && Sizes(shm.Snap()) && slot < SLOTS && c < CHUNKS
      requires SizeClass(d.len) == ClassOf(c) && FirstOffset(ClassOf(c)) <= d.offset <= LastOffset(ClassOf(c))
      requires HEADER_BYTES <= d.len && d.offset + d.len <= POOL_BYTES && ChunkIndex(ClassOf(c), d.offset) == c
      requires U32At(shm.Snap().data, d.offset) == MAGIC && U32At(shm.Snap().data, d.offset + 4) == number
      requires expectedSeq == NO_SEQ || expectedSeq == number
      modifies shm.masks, `expectedSeq
      ensures r == None && payload == shm.Snap().data[d.offset + HEADER_BYTES..d.offset + d.len]
      ensures last <==> old(shm.Snap()).masks[c] == Bit(slot)
      ensures var m := old(shm.Snap());
              shm.Snap() == m.(masks := m.masks[c := Without(m.masks[c], Bit(slot))])
      ensures expectedSeq == (number + 1) % U32_LIMIT
    {
      hide SizeClass, ClassOf, FirstOffset, LastOffset, ChunkIndex, Bit, Without, U32At, SharedData.Snap;
      var k := FindSizeClass(d.len);
      if k < 0 || d.offset < FirstOffset(k) || d.offset > LastOffset(k) || d.len < HEADER_BYTES {
        return ContiguousMessageConsumptionFailed, [], false;
      }
      var magic := shm.LoadU32(d.offset);
      var seqNo := shm.LoadU32(d.offset + 4);
      if expectedSeq == NO_SEQ {
        expectedSeq := seqNo;
      }
      if magic != MAGIC || seqNo != expectedSeq {
        return ContiguousMessageConsumptionFailed, [], false;
      }
      payload := shm.LoadBytes(d.offset + HEADER_BYTES, d.len - HEADER_BYTES);
      expectedSeq := (expectedSeq + 1) % U32_LIMIT;
      var previous := shm.FetchAnd(ChunkIndex(k, d.offset), Bit(slot));
      last := previous == Bit(slot);
      r := None;
    }

    method StoreReadIndex()
      requires Valid() && CanStoreRead(shm.abs, slot)
      modifies shm`abs, shm.rd, `readIndex
      ensures Valid() && shm.abs == Apply(old(shm.abs), DoStoreRead(slot))
    {
      hide Inv, Represents, SharedData.Snap, Apply, SeqOk, CanStoreRead;
      ghost var m, a := shm.Snap(), shm.abs;
      StoredIndex(m, a, slot);
      hide Shape;
      SameNumber(expectedSeq, a.slots[slot], Apply(a, DoStoreRead(slot)).slots[slot]);
      readIndex := readIndex + 1;
      if readIndex >= RING {
        readIndex := readIndex % RING;
      }
      shm.StoreReadIndex(slot, readIndex);
      shm.abs := Apply(a, DoStoreRead(slot));
    }

    // The last holder appends the chunk to its free list, in three steps between which it may die.

    /** The chunk must be marked in use; then it no longer is. */
    method UnmarkChunk(d: Descriptor, ghost c: nat) returns (r: RunError)
      requires Valid() && CanUnmark(shm.abs, slot) && shm.abs.slots[slot].phase.chunk == c
      requires c < CHUNKS && d.offset == OffsetOf(c) && SizeClass(d.len) == ClassOf(c)
      modifies shm`abs, shm.inUse
      ensures Valid() && r == None && shm.abs == Apply(old(shm.abs), DoUnmark(slot))
    {
      hide Inv, Represents, SizeClass, ClassOf, FirstOffset, OffsetOf, ChunkIndex, MarkCleared, SharedData.Snap, Apply;
      ghost var m, a := shm.Snap(), shm.abs;
      ReturnedChunk(m, a, slot, d, c);
      UnmarkedChunk(m, a, slot);
      var k := FindSizeClass(d.len);
      var used := shm.IsMarked(ChunkIndex(k, d.offset));
      if !used {
        return ContiguousMessageConsumptionFailed;
      }
      shm.Unmark(k, d.offset, c);
      shm.abs := Apply(a, DoUnmark(slot));
      r := None;
    }

    method LinkChunk(d: Descriptor, ghost c: nat)
      requires Valid() && CanLink(shm.abs, slot) && shm.abs.slots[slot].phase.chunk == c
      requires c < CHUNKS && d.offset == OffsetOf(c) && SizeClass(d.len) == ClassOf(c)
      modifies shm`abs, shm.data
      ensures Valid() && shm.abs == Apply(old(shm.abs), DoLink(slot))
    {
      hide Inv, Represents, SizeClass, ClassOf, FirstOffset, OffsetOf, ChunkIndex, LinkWritten, SharedData.Snap, Apply;
      ghost var m, a := shm.Snap(), shm.abs;
      ReturnedChunk(m, a, slot, d, c);
      LinkedChunk(m, a, slot);
      var k := FindSizeClass(d.len);
      shm.LinkTail(k, d.offset, c);
      shm.abs := Apply(a, DoLink(slot));
    }

    method MoveTail(d: Descriptor, ghost c: nat)
      requires Valid() && CanReturn(shm.abs, slot) && shm.abs.slots[slot].phase.chunk == c
      requires c < CHUNKS && d.offset == OffsetOf(c) && SizeClass(d.len) == ClassOf(c)
      modifies shm`abs, shm.tail
      ensures Valid() && shm.abs == Apply(old(shm.abs), DoReturn(slot))
    {
      hide Inv, Represents, SizeClass, ClassOf, FirstOffset, OffsetOf, ChunkIndex, TailMoved, SharedData.Snap, Apply;
      ghost var m, a := shm.Snap(), shm.abs;
      ReturnedChunk(m, a, slot, d, c);
      AppendedChunk(m, a, slot);
      var k := FindSizeClass(d.len);
      shm.MoveTail(k, d.offset, c);
      shm.abs := Apply(a, DoReturn(slot));
    }

    /** The whole append. */
    method ReturnChunk(d: Descriptor, ghost c: nat) returns (r: RunError)
      requires Valid() && CanUnmark(shm.abs, slot) && shm.abs.slots[slot].phase.chunk == c
      requires c < CHUNKS && d.offset == OffsetOf(c) && SizeClass(d.len) == ClassOf(c)
      modifies shm`abs, shm.inUse, shm.data, shm.tail
      ensures Valid() && r == None && shm.abs == PoolSignals.AppendAtOnce(old(shm.abs), slot)
      ensures shm.abs.slots[slot].phase.Signalling?
    {
      hide Inv, Represents, SizeClass, ClassOf, OffsetOf, SharedData.Snap, Apply, SeqOk;
      ThreeSteps(shm.abs, slot);
      r := UnmarkChunk(d, c);
      if r != None {
        return;
      }
      LinkChunk(d, c);
      MoveTail(d, c);
    }

    method SignalSpace()
      requires Valid() && shm.abs.slots[slot].phase.Signalling?
      modifies shm`abs, `spaceSignals
      ensures Valid() && shm.abs == Apply(old(shm.abs), DoSignal(slot)) && spaceSignals == old(spaceSignals) + 1
    {
      hide Inv, Represents, SharedData.Snap, Apply;
      SignalledIsIdle(shm.Snap(), shm.abs, slot);
      spaceSignals := spaceSignals + 1;
      shm.abs := Apply(shm.abs, DoSignal(slot));
    }

    /** One turn of the read loop. */
    method ReadOne(d: Descriptor) returns (r: RunError, payload: seq<Byte>)
      requires Valid() && CanClear(shm.abs, slot) && shm.abs.log[shm.abs.slots[slot].next].chunk < CHUNKS
      requires d == DescriptorOf(shm.abs.log[shm.abs.slots[slot].next])
      modifies shm`abs, shm.masks, shm.rd, shm.inUse, shm.data, shm.tail, `expectedSeq, `readIndex, `spaceSignals
      ensures Valid() && r == None && shm.abs == ConsumeOne(old(shm.abs), slot)
      ensures payload == old(shm.abs.log[shm.abs.slots[slot].next]).payload
      ensures spaceSignals == old(spaceSignals) + if LastHolder(old(shm.abs), slot) then 1 else 0
    {
      hide Inv, Represents, SharedData.Snap, Apply, LastHolder, SizeClass, OffsetOf, ClassOf, SeqOk;
      ghost var a := shm.abs;
      ghost var c := a.log[a.slots[slot].next].chunk;
      DescriptorClass(a, slot, d);
      AfterClear(a, slot);
      var last;
      r, payload, last := ReadAndClear(d);
      if r != None {
        return;
      }
      AfterStore(shm.abs, slot);
      StoreReadIndex();
      if !last {
        NothingToReturn(shm.abs, slot);
      } else {
        r := ReturnChunk(d, c);
        if r != None {
          return;
        }
        SignalSpace();
      }
    }

    /** The read loop over descriptors copied out of the ring. */
    method ReadData(descs: seq<Descriptor>) returns (r: RunError, messages: seq<seq<Byte>>)
      requires Valid() && shm.abs.slots[slot].phase.Idle?
      requires DescriptorsOf(descs, shm.abs.log, shm.abs.slots[slot].next)
      modifies shm`abs, shm.masks, shm.rd, shm.inUse, shm.data, shm.tail, `expectedSeq, `readIndex, `spaceSignals
      ensures Valid() && r == None && shm.abs == Consume(old(shm.abs), slot, |descs|)
      ensures messages == Unread(old(shm.abs), slot, |descs|)
      ensures spaceSignals == old(spaceSignals) + LastReads(old(shm.abs), slot, |descs|)
    {
      hide Inv, Represents, SharedData.Snap, ConsumeOne, LastHolder, SeqOk, Unread;
      messages := [];
      ghost var a, sent := shm.abs, spaceSignals;
      NothingUnread(a, slot);
      for i := 0 to |descs|
        invariant Valid() && shm.abs == Consume(a, slot, i)
        invariant messages == Unread(a, slot, i) && spaceSignals == sent + LastReads(a, slot, i)
      {
        ReadyForNext(a, slot, i, descs);
        var payload;
        r, payload := ReadOne(descs[i]);
        if r != None {
          return;
        }
        messages := messages + [payload];
        OneMoreUnread(a, slot, i);
      }
      ConsumeEffect(a, slot, |descs|);
      r := None;
    }

    /** Copy the descriptors between the two indices and read them, until the indices meet. */
    method ConsumeContiguous() returns (r: RunError, messages: seq<seq<Byte>>)
      requires Valid() && shm.abs.slots[slot].phase.Idle? && readIndex <= |shm.abs.log| % RING
      modifies shm`abs, shm.masks, shm.rd, shm.inUse, shm.data, shm.tail, `expectedSeq, `readIndex, `spaceSignals
      ensures Valid() && r == None && shm.abs == Consume(old(shm.abs), slot, Behind(old(shm.abs), slot))
      ensures messages == Unread(old(shm.abs), slot, Behind(old(shm.abs), slot))
      ensures spaceSignals == old(spaceSignals) + LastReads(old(shm.abs), slot, Behind(old(shm.abs), slot))
    {
      hide Inv, Represents, SharedData.Snap, Consume, SeqOk, DescriptorsOf, LastReads, Unread;
      ghost var a, sent := shm.abs, spaceSignals;
      ghost var done := 0;
      StartOfConsume(a, slot);
      WriteIndexWord(shm, slot);
      r, messages := None, [];
      var wr := shm.wr;
      while wr > readIndex
        invariant Valid() && r == None && done <= Behind(a, slot) && shm.abs == Consume(a, slot, done)
        invariant shm.abs.slots[slot].phase.Idle? && readIndex <= wr == |shm.abs.log| % RING
        invariant Behind(shm.abs, slot) == Behind(a, slot) - done
        invariant messages == Unread(a, slot, done) && spaceSignals == sent + LastReads(a, slot, done)
        decreases Behind(a, slot) - done
      {
        ghost var n := wr - readIndex;
        Contiguous(shm, slot);
        ConsumeMore(a, slot, done, n);
        var more;
        r, more := ReadData(shm.ring[readIndex..wr]);
        if r != None {
          return;
        }
        messages := messages + more;
        done := done + n;
        WriteIndexWord(shm, slot);
        wr := shm.wr;
      }
      Contiguous(shm, slot);
    }

    method InitializeReadIndex()
      requires Attached() && (readIndex == INVALID_INDEX || readIndex == shm.abs.slots[slot].next % RING)
      modifies `readIndex
      ensures Valid()
    {
      hide Inv, Represents, SeqOk;
      WriteIndexWord(shm, slot);
      if readIndex == INVALID_INDEX {
        readIndex := shm.rd[slot];
      }
    }

    /** The handler of a data event: everything published before it ran is delivered, in order,
        and the reader is level with the publisher. */
    method HandleDataAvailable(drained: bool) returns (r: RunError, messages: seq<seq<Byte>>)
      requires Attached() && (readIndex == INVALID_INDEX || readIndex == shm.abs.slots[slot].next % RING)
      requires shm.abs.slots[slot].phase.Idle?
      modifies shm`abs, shm.masks, shm.rd, shm.inUse, shm.data, shm.tail, `expectedSeq, `readIndex, `spaceSignals
      ensures r == if drained then None else DataAvailableEventReadFailed
      ensures r == None ==> Valid() && shm.abs == Consume(old(shm.abs), slot, Behind(old(shm.abs), slot))
      ensures r == None ==> messages == Unread(old(shm.abs), slot, Behind(old(shm.abs), slot))
      ensures r == None ==>
        spaceSignals == old(spaceSignals) + LastReads(old(shm.abs), slot, Behind(old(shm.abs), slot))
      ensures r != None ==> shm.abs == old(shm.abs) && spaceSignals == old(spaceSignals)
    {
      hide Inv, Represents, SharedData.Snap, Consume, SeqOk, DescriptorsOf, LastReads, Unread;
      if !drained {
        return DataAvailableEventReadFailed, [];
      }
      InitializeReadIndex();
      ghost var a := shm.abs;
      StartOfConsume(a, slot);
      WriteIndexWord(shm, slot);
      var wr := shm.wr;
      messages := [];
      ghost var n := 0;
      if readIndex > wr {
        n := RING - readIndex;
        Wrapped(shm, slot);
        ConsumeMore(a, slot, 0, n);
        r, messages := ReadData(shm.ring[readIndex..RING]);
        if r != None {
          return WrappedDescriptorReadFailed, [];
        }
        WriteIndexWord(shm, slot);
      }
      ghost var mid := shm.abs;
      ConsumeMore(a, slot, n, Behind(a, slot) - n);
      var more;
      r, more := ConsumeContiguous();
      messages := messages + more;
    }
  }

  // ---------- Facts the methods use ----------

  lemma InvSizes(a: State)
    requires Inv(a)
    ensures Shape(a)
  {
  }

  lemma SliceOfSlice(data: seq<Byte>, lo: nat, hi: nat, i: nat, j: nat)
    requires lo <= hi <= |data| && i <= j <= hi - lo
    ensures data[lo..hi][i..j] == data[lo + i..lo + j]
  {
    var x, y := data[lo..hi][i..j], data[lo + i..lo + j];
    assert |x| == |y| && forall k | 0 <= k < |x| :: x[k] == y[k];
  }

  lemma FrameSlices(n: nat, payload: seq<Byte>)
    ensures var f := Frame(n, payload);
            f[0..4] == U32Bytes(MAGIC) && f[4..8] == U32Bytes(n % U32_LIMIT) && f[8..|f|] == payload
  {
    hide U32Bytes;
  }

  lemma FrameParts(data: seq<Byte>, at: nat, n: nat, payload: seq<Byte>)
    requires at + HEADER_BYTES + |payload| <= |data|
    requires data[at..at + HEADER_BYTES + |payload|] == Frame(n, payload)
    ensures U32At(data, at) == 21354532 && U32At(data, at + 4) == n % 0x1_0000_0000
    ensures data[at + 8..at + 8 + |payload|] == payload
  {
    hide U32Bytes, U32Of, Frame;
    var hi := at + HEADER_BYTES + |payload|;
    FrameSlices(n, payload);
    SliceOfSlice(data, at, hi, 0, 4);
    SliceOfSlice(data, at, hi, 4, 8);
    SliceOfSlice(data, at, hi, 8, HEADER_BYTES + |payload|);
    U32RoundTrip(MAGIC);
    U32RoundTrip(n % U32_LIMIT);
  }

  lemma DescriptorClass(a: State, s: nat, d: Descriptor)
    requires Inv(a) && s < SLOTS && CanClear(a, s) && a.log[a.slots[s].next].chunk < CHUNKS
    requires d == DescriptorOf(a.log[a.slots[s].next])
    ensures var c := a.log[a.slots[s].next].chunk; d.offset == OffsetOf(c) && SizeClass(d.len) == ClassOf(c)
  {
    assert EntryOk(a.log[a.slots[s].next]);
  }

  /** The message a descriptor leads to: its class, its chunk, its header and its payload. */
  lemma MessageBytes(m: Snapshot, a: State, s: nat, d: Descriptor)
    requires Inv(a) && Represents(m, a) && s < SLOTS && CanClear(a, s) && a.log[a.slots[s].next].chunk < CHUNKS
    requires d == DescriptorOf(a.log[a.slots[s].next])
    ensures var n := a.slots[s].next;
            var c := a.log[n].chunk;
            var k := ClassOf(c);
            && Sizes(m) && SizeClass(d.len) == k && FirstOffset(k) <= d.offset <= LastOffset(k)
            && HEADER_BYTES <= d.len && d.offset + d.len <= POOL_BYTES && ChunkIndex(k, d.offset) == c
            && U32At(m.data, d.offset) == MAGIC && U32At(m.data, d.offset + 4) == n % U32_LIMIT
            && m.data[d.offset + HEADER_BYTES..d.offset + d.len] == a.log[n].payload
  {
    hide Inv, IndexRep, RingRep, ListRep, MaskRep, ContentRep, UseRep, Frame, U32At;
    InvSizes(a);
    NextMessageIsThere(m, a, s);
    var e := a.log[a.slots[s].next];
    OffsetOfIsChunkOffset(e.chunk);
    DescriptorClass(a, s, d);
    DescriptorNamesItsChunk(e.chunk, d.len);
    FrameParts(m.data, d.offset, a.slots[s].next, e.payload);
  }

  lemma NextMessage(m: Snapshot, a: State, s: nat, d: Descriptor)
    requires Inv(a) && Represents(m, a) && s < SLOTS && CanClear(a, s) && a.log[a.slots[s].next].chunk < CHUNKS
    requires d == DescriptorOf(a.log[a.slots[s].next])
    ensures var n := a.slots[s].next;
            var c := a.log[n].chunk;
            var k := ClassOf(c);
            && Sizes(m) && SizeClass(d.len) == k && FirstOffset(k) <= d.offset <= LastOffset(k)
            && HEADER_BYTES <= d.len && d.offset + d.len <= POOL_BYTES && ChunkIndex(k, d.offset) == c
            && U32At(m.data, d.offset) == MAGIC && U32At(m.data, d.offset + 4) == n % U32_LIMIT
            && m.data[d.offset + HEADER_BYTES..d.offset + d.len] == a.log[n].payload
    ensures var c := a.log[a.slots[s].next].chunk;
            var b := Apply(a, DoClear(s));
            && Shape(a) && Shape(b) && Represents(m.(masks := m.masks[c := Without(m.masks[c], Bit(s))]), b)
            && b.slots[s] == a.slots[s].(phase := Cleared(m.masks[c] == Bit(s)))
            && (m.masks[c] == Bit(s) <==> LastHolder(a, s))
  {
    hide Inv, Represents, OffsetOf, Bit, Without, DescriptorOf, U32At, SizeClass, ClassOf, FirstOffset, LastOffset,
         ChunkIndex;
    InvSizes(a);
    MessageBytes(m, a, s, d);
    ClearRepresents(m, a, s);
  }

  lemma StoredIndex(m: Snapshot, a: State, s: nat)
    requires Inv(a) && Represents(m, a) && s < SLOTS && CanStoreRead(a, s)
    ensures var b := Apply(a, DoStoreRead(s));
            var i := (a.slots[s].next + 1) % RING;
            && Shape(a) && a.slots[s].Used? && Shape(b) && Sizes(m) && Represents(m.(rd := m.rd[s := i]), b)
            && b.slots[s].Used? && b.slots[s].alive && b.slots[s].next == a.slots[s].next + 1
            && b.slots[s].Unread() == a.slots[s].Unread() && b.slots[s].start == a.slots[s].start
            && i == var next := a.slots[s].next % RING + 1; if next >= RING then next % RING else next
  {
    hide Inv, IndexRep, RingRep, ListRep, MaskRep, ContentRep, UseRep, FreeOk;
    InvShapeAndLists(a);
    StoreReadKeeps(a, s);
    StoreReadRepresents(m, a, s);
    ReadIndexWord(m, a, s);
    NextIndex(a.slots[s].next);
  }

  lemma InvShapeAndLists(a: State)
    requires Inv(a)
    ensures Shape(a) && FreeOk(a.free)
  {
  }

  lemma ReadIndexWord(m: Snapshot, a: State, s: nat)
    requires Shape(a) && FreeOk(a.free) && Represents(m, a) && s < SLOTS && a.slots[s].Used?
    ensures m.rd[s] == a.slots[s].next % RING && m.wr == |a.log| % RING
  {
    hide RingRep, ListRep, MaskRep, ContentRep, UseRep, FreeOk;
  }

  lemma ReturnedChunk(m: Snapshot, a: State, s: nat, d: Descriptor, c: nat)
    requires Inv(a) && Represents(m, a) && s < SLOTS && Live(a, s) && a.slots[s].phase.Returning?
    requires c < CHUNKS && d.offset == OffsetOf(c) && SizeClass(d.len) == ClassOf(c)
    ensures var k := ClassOf(c);
            && Shape(a) && Sizes(m) && FirstOffset(k) <= d.offset && ChunkIndex(k, d.offset) == c
            && m.tail[k] + 4 <= POOL_BYTES && d.offset < U32_LIMIT
  {
    hide Inv, Represents, OffsetOf, SizeClass, ClassOf;
    InvShapeAndLists(a);
    TailRoom(m, a, c);
    OffsetOfIsChunkOffset(c);
  }

  lemma UnmarkedChunk(m: Snapshot, a: State, s: nat)
    requires Inv(a) && Represents(m, a) && s < SLOTS && CanUnmark(a, s)
    ensures var c := a.slots[s].phase.chunk;
            var b := Apply(a, DoUnmark(s));
            && Sizes(m) && m.inUse[c] && Shape(b) && Represents(MarkCleared(m, c), b)
            && b.slots[s] == a.slots[s].(phase := Returning(c, Unmarked))
  {
    hide Inv, Represents, MarkCleared;
    InvShapeAndLists(a);
    SizesOf(m, a);
    UnmarkRepresents(m, a, s);
  }

  lemma LinkedChunk(m: Snapshot, a: State, s: nat)
    requires Inv(a) && Represents(m, a) && s < SLOTS && CanLink(a, s)
    ensures var c := a.slots[s].phase.chunk;
            var b := Apply(a, DoLink(s));
            && Sizes(m) && m.tail[ClassOf(c)] + 4 <= POOL_BYTES && OffsetOf(c) < U32_LIMIT
            && Shape(b) && Represents(LinkWritten(m, c), b)
            && b.slots[s] == a.slots[s].(phase := Returning(c, OnTail))
  {
    hide Inv, Represents, LinkWritten, OffsetOf;
    InvShapeAndLists(a);
    SizesOf(m, a);
    LinkRepresents(m, a, s);
  }

  lemma AppendedChunk(m: Snapshot, a: State, s: nat)
    requires Inv(a) && Represents(m, a) && s < SLOTS && CanReturn(a, s)
    ensures var c := a.slots[s].phase.chunk;
            var b := Apply(a, DoReturn(s));
            && Sizes(m) && Shape(b) && Represents(TailMoved(m, c), b)
            && b.slots[s] == a.slots[s].(phase := Signalling)
  {
    hide Inv, Represents, TailMoved;
    InvShapeAndLists(a);
    SizesOf(m, a);
    ReturnRepresents(m, a, s);
  }

  lemma SizesOf(m: Snapshot, a: State)
    requires Shape(a) && FreeOk(a.free) && Represents(m, a)
    ensures Sizes(m)
  {
  }

  /** Each step of an append makes way for the next, wherever all other processes stand. */
  lemma ThreeSteps(a: State, s: nat)
    requires Inv(a) && s < SLOTS && CanUnmark(a, s)
    ensures var a1 := Apply(a, DoUnmark(s));
            && Shape(a1) && CanLink(a1, s) && a1.slots[s].phase.chunk == a.slots[s].phase.chunk
            && var a2 := Apply(a1, DoLink(s));
            && Shape(a2) && CanReturn(a2, s) && a2.slots[s].phase.chunk == a.slots[s].phase.chunk
            && var a3 := Apply(a2, DoReturn(s));
            && a3 == PoolSignals.AppendAtOnce(a, s) && Shape(a3) && a3.slots[s].Used? && a3.slots[s].phase.Signalling?
  {
    hide HoldersOk, FreshOk, FreeOk, HeldOk, PooledOk, LooseOk, InboxOk, LostChunks, OwnerOk, LogOk, SlotsOk, TailOk,
         FreedOk;
  }

  lemma SignalledIsIdle(m: Snapshot, a: State, s: nat)
    requires Inv(a) && Represents(m, a) && s < SLOTS && Live(a, s) && a.slots[s].phase.Signalling?
    ensures var b := Apply(a, DoSignal(s));
            && Shape(a) && Shape(b) && Represents(m, b) && b.slots[s] == a.slots[s].(phase := Idle)
  {
    hide Inv, Represents, FreeOk;
    InvShapeAndLists(a);
    SameWordsRepresent(m, a, Apply(a, DoSignal(s)));
  }

  /** `descs` describe the messages from `p` on. */
  ghost predicate DescriptorsOf(descs: seq<Descriptor>, log: seq<Entry>, p: nat)
  {
    && p + |descs| <= |log|
    && forall i: nat | i < |descs| :: log[p + i].chunk < CHUNKS && descs[i] == DescriptorOf(log[p + i])
  }

  lemma ReadyForNext(a: State, s: nat, i: nat, descs: seq<Descriptor>)
    requires Inv(a) && s < SLOTS && Live(a, s) && a.slots[s].phase.Idle? && i < |descs|
    requires DescriptorsOf(descs, a.log, a.slots[s].next)
    ensures var b := Consume(a, s, i);
            && Shape(b) && CanClear(b, s) && b.log == a.log && b.slots[s].next == a.slots[s].next + i
            && b.log[b.slots[s].next].chunk < CHUNKS && descs[i] == DescriptorOf(b.log[b.slots[s].next])
  {
    hide Inv, ConsumeOne, DescriptorOf;
    InvSizes(a);
    InvSizes(Consume(a, s, i));
    ConsumeEffect(a, s, i);
    var d := descs[i];
    assert a.log[a.slots[s].next + i].chunk < CHUNKS;
  }

  // The program points one turn of the read loop passes.

  lemma AfterClear(a: State, s: nat)
    requires Inv(a) && s < SLOTS && CanClear(a, s)
    ensures var b := Apply(a, DoClear(s));
            && Shape(b) && CanStoreRead(b, s) && b.log == a.log
            && b.slots[s] == a.slots[s].(phase := Cleared(LastHolder(a, s)))
  {
    hide HoldersOk, FreshOk, FreeOk, HeldOk, PooledOk, LooseOk, InboxOk, LostChunks, OwnerOk, TailOk, FreedOk;
    ClearedChunk(a, s);
  }

  lemma AfterStore(a: State, s: nat)
    requires Inv(a) && s < SLOTS && CanStoreRead(a, s)
    ensures var b := Apply(a, DoStoreRead(s));
            && Shape(b) && Live(b, s) && b.log == a.log
            && b.slots[s].phase == (if a.slots[s].phase.last then Returning(a.log[a.slots[s].next].chunk, Marked)
                                    else Idle)
            && (a.slots[s].phase.last ==> CanUnmark(b, s))
  {
    hide HoldersOk, FreshOk, FreeOk, HeldOk, PooledOk, LooseOk, InboxOk, LostChunks, OwnerOk, TailOk, FreedOk;
    assert EntryOk(a.log[a.slots[s].next]);
  }

  lemma NothingToReturn(a: State, s: nat)
    requires Inv(a) && s < SLOTS && a.slots[s].Used? && a.slots[s].phase.Idle?
    ensures PoolSignals.AppendAtOnce(a, s) == a && Apply(a, DoSignal(s)) == a
  {
    hide Inv;
    InvSizes(a);
  }

  // ---------- Where the loops stand ----------

  /** How many messages reader `s` has not read. */
  ghost function Behind(a: State, s: nat): (n: nat)
    requires Inv(a) && s < SLOTS && a.slots[s].Used?
    ensures a.slots[s].next + n == |a.log|
  {
    |a.log| - a.slots[s].next
  }

  lemma StartOfConsume(a: State, s: nat)
    requires Inv(a) && s < SLOTS && a.slots[s].Used?
    ensures Consume(a, s, 0) == a && Unread(a, s, 0) == [] && LastReads(a, s, 0) == 0
  {
  }

  /** Reading in two batches is reading in one. */
  lemma ConsumeMore(a: State, s: nat, done: nat, n: nat)
    requires Inv(a) && s < SLOTS && Live(a, s) && a.slots[s].phase.Idle? && done + n <= Behind(a, s)
    ensures var b := Consume(a, s, done);
            && Shape(b) && Live(b, s) && b.slots[s].phase.Idle? && Behind(b, s) == Behind(a, s) - done && b.log == a.log
            && b.slots[s].next == a.slots[s].next + done
            && Consume(b, s, n) == Consume(a, s, done + n)
               && Unread(a, s, done) + Unread(b, s, n) == Unread(a, s, done + n)
            && LastReads(a, s, done) + LastReads(b, s, n) == LastReads(a, s, done + n)
    ensures var b := Consume(a, s, done + n);
            && Shape(b) && Live(b, s) && b.slots[s].phase.Idle? && Behind(b, s) == Behind(a, s) - done - n
               && b.log == a.log
            && b.slots[s].next == a.slots[s].next + done + n
  {
    hide Inv, Consume, LastReads, Payloads;
    InvSizes(a);
    ConsumeEffect(a, s, done);
    ConsumeEffect(a, s, done + n);
    InvSizes(Consume(a, s, done));
    InvSizes(Consume(a, s, done + n));
    ConsumeAdd(a, s, done, n);
    PayloadsAdd(a.log, a.slots[s].next, done, n);
  }

  lemma PayloadsAdd(log: seq<Entry>, p: nat, m: nat, n: nat)
    requires p + m + n <= |log|
    ensures Payloads(log[p..p + m]) + Payloads(log[p + m..p + m + n]) == Payloads(log[p..p + m + n])
  {
  }

  lemma WriteIndexWord(shm: SharedData, s: nat)
    requires shm.Valid() && s < SLOTS && shm.abs.slots[s].Used?
    ensures shm.wr == |shm.abs.log| % RING && shm.rd[s] == shm.abs.slots[s].next % RING
  {
    hide Inv, Represents;
    InvShapeAndLists(shm.abs);
    ReadIndexWord(shm.Snap(), shm.abs, s);
  }

  /** With the read index at or below the write index, the window is one stretch of the ring. */
  lemma Contiguous(shm: SharedData, s: nat)
    requires shm.Valid() && s < SLOTS && shm.abs.slots[s].Used?
    requires shm.abs.slots[s].next % RING <= |shm.abs.log| % RING
    ensures var lo, hi := shm.abs.slots[s].next % RING, |shm.abs.log| % RING;
            Behind(shm.abs, s) == hi - lo && DescriptorsOf(shm.ring[lo..hi], shm.abs.log, shm.abs.slots[s].next)
  {
    hide Inv, Represents;
    RingStretch(shm.Snap(), shm.abs, s, |shm.abs.log| % RING);
  }

  /** With the read index above it, the window goes on past the end of the ring. */
  lemma Wrapped(shm: SharedData, s: nat)
    requires shm.Valid() && s < SLOTS && shm.abs.slots[s].Used?
    requires shm.abs.slots[s].next % RING > |shm.abs.log| % RING
    ensures var lo := shm.abs.slots[s].next % RING;
            && RING - lo <= Behind(shm.abs, s) && (shm.abs.slots[s].next + RING - lo) % RING == 0
            && DescriptorsOf(shm.ring[lo..RING], shm.abs.log, shm.abs.slots[s].next)
  {
    hide Inv, Represents;
    RingStretch(shm.Snap(), shm.abs, s, RING);
  }

  lemma RingStretch(m: Snapshot, a: State, s: nat, hi: nat)
    requires Inv(a) && Represents(m, a) && s < SLOTS && a.slots[s].Used?
    requires a.slots[s].next % RING <= hi <= RING && (hi == RING || hi == |a.log| % RING)
    requires hi == RING ==> a.slots[s].next % RING > |a.log| % RING
    ensures Sizes(m)
    ensures var p := a.slots[s].next;
            && p + hi - p % RING <= |a.log| && DescriptorsOf(m.ring[p % RING..hi], a.log, p)
            && (hi < RING ==> |a.log| == p + hi - p % RING) && (hi == RING ==> (p + hi - p % RING) % RING == 0)
  {
    hide LogOk, OwnerOk, HoldersOk, FreshOk, FreeOk, HeldOk, PooledOk, LooseOk, InboxOk, LostChunks,
         IndexRep, ListRep, MaskRep, ContentRep, UseRep, DescriptorOf, TailOk, FreedOk;
    var p, w := a.slots[s].next, |a.log|;
    assert p <= w < p + RING;
    WindowEnds(p, w, hi);
    forall i: nat | i < hi - p % RING
      ensures a.log[p + i].chunk < CHUNKS && m.ring[p % RING..hi][i] == DescriptorOf(a.log[p + i])
    {
      RingPosition(p, i);
      assert p + i < |a.log| < p + i + RING + 1;
    }
  }

  lemma WindowEnds(p: nat, w: nat, hi: nat)
    requires p <= w < p + RING && p % RING <= hi <= RING
    requires (hi == RING && p % RING > w % RING) || hi == w % RING
    ensures p + hi - p % RING <= w
    ensures hi < RING ==> w == p + hi - p % RING
    ensures hi == RING ==> (p + hi - p % RING) % RING == 0
  {
  }

  lemma RingPosition(p: nat, i: nat)
    requires p % RING + i < RING
    ensures (p + i) % RING == p % RING + i
  {
  }
}
