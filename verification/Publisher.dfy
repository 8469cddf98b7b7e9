/** The publisher's side of the shared mapping: admission, allocation, joining and reaping. */
module PublisherSide {
  import opened Layout
  import opened Bytes
  import opened Bitmask
  import opened Pool
  import opened PoolInvariant
  import opened PoolCounting
  import PoolRuns
  import PoolSignals
  import opened Memory
  import opened SharedMapping

  datatype Attempt = Succeeded | Blocked | MessageSizeClassInvalid | PublishAttemptFailed
  datatype Readiness = NoMessage | NoRoom | HasRoom | SizeClassInvalid
  datatype Candidate = Nothing | Candidate(size: nat)   // payload size of the message next in line
  datatype Tracking = Tracked | SlotOutOfRange | SlotAlreadyTracked | EventFdAlreadyTracked
  datatype RunError = None | DeadSubscriberReapFailed | ChunkReferenceReleaseFailed

  /** The three-part back-pressure test. */
  predicate BackPressure(slowest: nat, wr: nat)
  {
    slowest == INVALID_INDEX || (slowest > wr && slowest <= wr + 1) || wr + 1 >= slowest + RING
  }

  /** `r` is what the scan of the read indices returns: no reader, or the index of a slowest one. */
  ghost predicate IsSlowestIndex(a: State, r: nat)
    requires Shape(a)
  {
    || (r == INVALID_INDEX && forall s: nat | s < SLOTS :: a.slots[s].Vacant?)
    || (exists s: nat :: s < SLOTS && IsSlowest(a, s) && r == a.slots[s].next % RING)
  }

  /** No reader is a lap behind. */
  predicate Windows(a: State)
  {
    Shape(a) && forall s: nat | s < SLOTS && a.slots[s].Used? :: a.slots[s].next <= |a.log| < a.slots[s].next + RING
  }

  lemma InvWindows(a: State)
    requires Inv(a)
    ensures Windows(a)
  {
    hide LogOk, OwnerOk, HoldersOk, FreshOk, FreeOk, HeldOk, PooledOk, LooseOk, InboxOk, LostChunks, TailOk, FreedOk;
  }

  /** The test on indices modulo 16 decides exactly whether some reader's window is full. */
  lemma BackPressureIsRingBlocked(a: State, r: nat)
    requires Windows(a) && IsSlowestIndex(a, r)
    ensures BackPressure(r, |a.log| % RING) <==> RingBlocked(a)
    ensures r != INVALID_INDEX ==> (BackPressure(r, |a.log| % RING) <==> (|a.log| % RING + 1) % RING == r)
  {
    if s: nat :| s < SLOTS && IsSlowest(a, s) && r == a.slots[s].next % RING {
      Lag(a.slots[s].next, |a.log|);
      assert RingBlocked(a) <==> a.slots[s].next + RING <= |a.log| + 1;
    }
  }

  /** How far behind a reader is, from the two stored indices. */
  lemma Lag(next: nat, w: nat)
    requires next <= w < next + RING
    ensures w - next == if next % RING <= w % RING then w % RING - next % RING else w % RING + RING - next % RING
  {
  }

  /** One turn of the release loop: clear the bit and, if it was the last, append the chunk. */
  ghost function ReapNext(a: State): (b: State)
    requires Inv(a)
    ensures Inv(b)
  {
    hide Inv;
    PoolRuns.Apply(PoolRuns.Apply(PoolRuns.Apply(PoolRuns.Apply(a, PoolRuns.DoReapClear), PoolRuns.DoReapUnmark),
                                  PoolRuns.DoReapLink), PoolRuns.DoReapReturn)
  }

  /** Reap `n` descriptors. */
  ghost function ReapSteps(a: State, n: nat): (b: State)
    requires Inv(a)
    ensures Inv(b)
  {
    hide Inv, ReapNext;
    if n == 0 then a else ReapNext(ReapSteps(a, n - 1))
  }

  /** The whole reap of slot `s`: every descriptor in its window, then the slot itself. */
  ghost function ReapAll(a: State, s: nat): (b: State)
    requires Inv(a) && s < SLOTS && Shape(a) && a.slots[s].Used? && a.slots[s].next <= |a.log|
    ensures Inv(b)
  {
    hide Inv, ReapSteps, PoolRuns.Apply;
    PoolRuns.Apply(ReapSteps(PoolRuns.Apply(a, PoolRuns.DoBeginReap(s)), |a.log| - a.slots[s].next), PoolRuns.DoEndReap)
  }

  /** The program points of one turn. */
  lemma ReapNextIs(a: State)
    requires Inv(a) && CanReapClear(a)
    ensures Shape(a) && a.log[a.pub.pos].chunk < CHUNKS
    ensures var a1 := PoolRuns.Apply(a, PoolRuns.DoReapClear);
            && a1 == ReapClear(a)
            && if !a1.pub.release.Freeing? then ReapNext(a) == a1 else
               Frees(a1, Marked) && a1.pub.release.chunk == a.log[a.pub.pos].chunk
               && var a2 := PoolRuns.Apply(a1, PoolRuns.DoReapUnmark);
               Frees(a2, Unmarked) && a2.pub.release.chunk == a1.pub.release.chunk
               && var a3 := PoolRuns.Apply(a2, PoolRuns.DoReapLink);
               Frees(a3, OnTail) && a3.pub.release.chunk == a1.pub.release.chunk
               && ReapNext(a) == PoolRuns.Apply(a3, PoolRuns.DoReapReturn)
    ensures var b := ReapNext(a);
            Shape(b) && b.pub == Reaping(a.pub.slot, a.pub.pos + 1, Sweeping) && b.log == a.log && b.slots == a.slots
  {
    hide Inv;
    ReapClearKeeps(a);
    ShapeOf(a);
    ShapeOf(ReapClear(a));
  }

  lemma ShapeOf(a: State)
    requires Inv(a)
    ensures Shape(a) && forall s: nat | s < SLOTS && a.slots[s].Used? :: a.slots[s].next <= |a.log|
  {
    hide OwnerOk, HoldersOk, FreshOk, FreeOk, HeldOk, PooledOk, LooseOk, InboxOk, LostChunks, TailOk, FreedOk;
  }

  /** Reaping moves only the publisher's own position, as far as readers and log are concerned. */
  lemma {:induction false} ReapStepsEffect(a: State, n: nat)
    requires Inv(a) && Shape(a) && a.pub.Reaping? && a.pub.release.Sweeping? && a.pub.pos + n <= |a.log|
    ensures var b := ReapSteps(a, n);
            b.pub == Reaping(a.pub.slot, a.pub.pos + n, Sweeping) && b.log == a.log && b.slots == a.slots
  {
    hide Inv, ReapNext, ReapClear;
    if n > 0 {
      ReapStepsEffect(a, n - 1);
      ShapeOf(ReapSteps(a, n - 1));
      ReapNextIs(ReapSteps(a, n - 1));
    }
  }

  lemma ReapAllIs(a: State, s: nat)
    requires Inv(a) && Shape(a) && s < SLOTS && a.pub.Ready? && a.slots[s].Used? && !a.slots[s].alive
    ensures a.slots[s].next <= |a.log| && Inv(BeginReap(a, s))
    ensures var swept := ReapSteps(BeginReap(a, s), |a.log| - a.slots[s].next);
            && Shape(swept) && swept.pub == Reaping(s, |a.log|, Sweeping) && swept.log == a.log
            && swept.slots == a.slots && ReapAll(a, s) == EndReap(swept)
    ensures var b := ReapAll(a, s); b.pub.Ready? && b.slots == a.slots[s := Vacant] && b.log == a.log
  {
    hide Inv, ReapSteps;
    ShapeOf(a);
    BeginReapKeeps(a, s);
    ReapStepsEffect(BeginReap(a, s), |a.log| - a.slots[s].next);
    ShapeOf(ReapSteps(BeginReap(a, s), |a.log| - a.slots[s].next));
  }

  /** The publisher's own tables name exactly the slots in use, one event fd each. */
  ghost predicate TablesOk(eventFds: seq<int>, slotByFd: map<int, nat>, fdBySlot: seq<int>, slots: seq<Slot>)
    requires |slots| == |fdBySlot| == SLOTS
  {
    && (forall i, j | 0 <= i < j < |eventFds| :: eventFds[i] != eventFds[j])
    && (forall fd :: fd in eventFds <==> fd in slotByFd)
    && (forall fd | fd in slotByFd ::
      slotByFd[fd] < SLOTS && slots[slotByFd[fd]].Used? && fdBySlot[slotByFd[fd]] == fd)
    && (forall s: nat | s < SLOTS && slots[s].Used? :: fdBySlot[s] in slotByFd && slotByFd[fdBySlot[s]] == s)
  }

  class Publisher {
    const shm: SharedData
    var eventFds: seq<int>          // data_available_event_fds_
    var slotByFd: map<int, nat>     // subscriber_slot_index_by_data_available_event_fd_
    var fdBySlot: seq<int>          // data_available_event_fd_by_subscriber_slot_index_
    var seqNo: nat                  // seq_, wrapping at 32 bits
    var signalled: set<int>         // event fds written since they were last drained

    ghost predicate Valid()
      reads this, shm.Repr()
    {
      && (this as object) !in shm.Repr() && shm.Valid() && |fdBySlot| == SLOTS
      && TablesOk(eventFds, slotByFd, fdBySlot, shm.abs.slots)
      && seqNo == |shm.abs.log| % U32_LIMIT
    }

    constructor ()
      ensures Valid() && fresh(shm.Repr()) && shm.abs == Init() && eventFds == []
    {
      shm := new SharedData();
      eventFds, slotByFd, fdBySlot := [], map[], seq(SLOTS, i => 0);
      seqNo, signalled := 0, {};
    }

    method FindSlowestReadIndex() returns (r: nat)
      requires Valid()
      ensures IsSlowestIndex(shm.abs, r)
    {
      var before, after := ScanReadIndices(shm.rd, shm.wr);
      r := if before != INVALID_INDEX then before else after;
      ScanFindsSlowest(shm.Snap(), shm.abs, before, after);
    }

    // ---------- Publishing ----------

    /** The reference mask: the sum of `1 << slot` over the tracked event fds. */
    method HolderMask() returns (found: bool, mask: Mask)
      requires Valid()
      ensures found && Means(mask, UsedSlots(shm.abs))
    {
      hide Inv, Represents, Means, TablesOk;
      InvShape(shm.abs);
      TablesAreInjective(eventFds, slotByFd, fdBySlot, shm.abs.slots);
      ghost var seen;
      found, mask, seen := SumOfBits(eventFds, slotByFd);
      TablesCoverSlots(eventFds, slotByFd, fdBySlot, shm.abs, seen);
    }

    /** Take the head chunk of class `k` and write the message, its descriptor and its holders. */
    method Commit(k: nat, payload: seq<Byte>, mask: Mask)
      requires Valid() && shm.abs.pub.Ready? && |payload| <= MAX_PAYLOAD && k == PayloadClass(payload)
      requires CanPublish(shm.abs, k) && Means(mask, UsedSlots(shm.abs))
      modifies shm, shm.ring, shm.head, shm.data, shm.masks, shm.inUse, this`seqNo
      ensures Valid() && shm.abs.pub.Ready? && shm.abs == Publish(old(shm.abs), payload)
    {
      hide Inv, Represents, Means, UsedSlots, CanPublish, TablesOk, Published, OffsetOf, Plus, SharedData.Snap,
           PayloadClass, FirstOffset, LastOffset, ChunkIndex, LinkOf, ClassOf, ListOk, FreeOk, RingBlocked;
      InvShape(shm.abs);
      ghost var m, a := shm.Snap(), shm.abs;
      PublishRepresents(m, a, payload, mask);
      HeadChunk(m, a, k);
      FetchAddToEmpty(m.masks[a.free[k][0]], mask);
      StoreMessage(k, payload, mask, a.free[k][0], |a.log|);
      shm.abs := Publish(a, payload);
    }

    /** The stores of a publish, in the code's order. */
    method StoreMessage(k: nat, payload: seq<Byte>, mask: Mask, ghost c: nat, ghost n: nat)
      requires shm.Shaped() && Sizes(shm.Snap()) && k < CLASSES && c < CHUNKS
      requires shm.Snap().wr < RING && n % U32_LIMIT == seqNo
      requires OffsetOf(c) + HEADER_BYTES + |payload| <= POOL_BYTES && shm.Snap().head[k] == OffsetOf(c)
      requires FirstOffset(k) <= OffsetOf(c) && ChunkIndex(k, OffsetOf(c)) == c
        && Plus(shm.Snap().masks[c], mask) == mask
      modifies shm`wr, shm.ring, shm.head, shm.data, shm.masks, shm.inUse, this`seqNo
      ensures shm.Snap() == Published(old(shm.Snap()), k, c, LinkOf(old(shm.Snap()).data, c), n, payload, mask)
      ensures seqNo == (n + 1) % U32_LIMIT
    {
      hide OffsetOf, ChunkIndex, Frame, Splice, Plus, FirstOffset, U32At;
      ghost var m := shm.Snap();
      var offset, wr := shm.head[k], shm.wr;
      hide SharedData.Snap;
      var chunk := ChunkIndex(k, offset);
      shm.Mark(chunk, true);
      var next := shm.LoadU32(offset);
      shm.StoreHead(k, next);
      shm.StoreDescriptor(wr, Descriptor(offset, HEADER_BYTES + |payload|));
      FrameWraps(n, payload);
      WriteMessage(offset, payload);
      shm.FetchAdd(chunk, mask);
      shm.wr := (wr + 1) % RING;
    }

    /** The three copies that write magic, sequence number and payload. */
    method WriteMessage(offset: nat, payload: seq<Byte>)
      requires shm.Shaped() && offset + HEADER_BYTES + |payload| <= POOL_BYTES && seqNo < U32_LIMIT
      modifies shm.data, this`seqNo
      ensures shm.Snap() == old(shm.Snap()).(data := Splice(old(shm.Snap()).data, offset, Frame(old(seqNo), payload)))
      ensures seqNo == (old(seqNo) + 1) % U32_LIMIT
    {
      hide U32Bytes, Splice;
      ghost var data := shm.data[..];
      var magic, number := U32Bytes(MAGIC), U32Bytes(seqNo);
      SpliceThree(data, offset, magic, number, payload);
      shm.Copy(offset, magic);
      shm.Copy(offset + 4, number);
      seqNo := (seqNo + 1) % U32_LIMIT;
      if payload != [] {
        shm.Copy(offset + 8, payload);
      }
    }

    /** One attempt. A reader that cannot be signalled is an error, with the message already in the ring. */
    method TryPublishOne(payload: seq<Byte>, broken: set<int>) returns (r: Attempt)
      requires Valid() && shm.abs.pub.Ready?
      modifies shm, shm.ring, shm.head, shm.data, shm.masks, shm.inUse, this`seqNo, this`signalled
      ensures Valid() && shm.abs.pub.Ready?
      ensures |payload| > MAX_PAYLOAD ==> r == MessageSizeClassInvalid && shm.abs == old(shm.abs)
      ensures |payload| <= MAX_PAYLOAD ==>
        if old(CanPublish(shm.abs, PayloadClass(payload)))
        then shm.abs == Publish(old(shm.abs), payload)
             && r == if AllWritable(eventFds, broken) then Succeeded else PublishAttemptFailed
        else r == Blocked && shm.abs == old(shm.abs)
      ensures signalled == old(signalled) + if r == Succeeded || r == PublishAttemptFailed
                                            then set fd | fd in eventFds[..Writable(eventFds, broken)] else {}
    {
      hide Inv, Represents, TablesOk, CanPublish, UsedSlots, Means, BackPressure, IsSlowestIndex, Publish;
      InvShape(shm.abs);
      var slowest := FindSlowestReadIndex();
      EveryPayloadHasAClass(|payload|);
      if |payload| > U32_LIMIT - 1 - HEADER_BYTES {
        return MessageSizeClassInvalid;
      }
      var k := FindSizeClass(HEADER_BYTES + |payload|);
      if k < 0 {
        return MessageSizeClassInvalid;
      }
      Admission(shm.Snap(), shm.abs, slowest, k);
      if BackPressure(slowest, shm.wr) {
        return Blocked;
      }
      if shm.head[k] == shm.tail[k] {
        return Blocked;
      }
      HeadChunk(shm.Snap(), shm.abs, k);
      if shm.head[k] < FirstOffset(k) || shm.head[k] > LastOffset(k) || shm.inUse[ChunkIndex(k, shm.head[k])] {
        return PublishAttemptFailed;
      }
      var found, mask := HolderMask();
      if !found {
        return PublishAttemptFailed;
      }
      Commit(k, payload, mask);
      var all := SignalReaders(broken);
      r := if all then Succeeded else PublishAttemptFailed;
    }

    /** The recheck after a space signal, a join or a reap: would the next message find room? */
    method CanPublishNext(next: Candidate) returns (r: Readiness)
      requires Valid()
      ensures next.Nothing? ==> r == NoMessage
      ensures next.Candidate? && next.size > MAX_PAYLOAD ==> r == SizeClassInvalid
      ensures next.Candidate? && next.size <= MAX_PAYLOAD ==>
        r == if CanPublish(shm.abs, SizeClass(HEADER_BYTES + next.size)) then HasRoom else NoRoom
    {
      hide Inv, Represents, TablesOk, CanPublish, BackPressure, IsSlowestIndex;
      InvShape(shm.abs);
      var slowest := FindSlowestReadIndex();
      if next.Nothing? {
        return NoMessage;
      }
      EveryPayloadHasAClass(next.size);
      var k := FindSizeClass(HEADER_BYTES + next.size);
      if k < 0 {
        return SizeClassInvalid;
      }
      Admission(shm.Snap(), shm.abs, slowest, k);
      if BackPressure(slowest, shm.wr) {
        return NoRoom;
      }
      if shm.head[k] == shm.tail[k] {
        return NoRoom;
      }
      r := HasRoom;
    }

    /** Write the tracked data event fds in turn, up to the first whose write fails - those in `broken` do. */
    method SignalReaders(broken: set<int>) returns (ok: bool)
      modifies this`signalled
      ensures ok <==> AllWritable(eventFds, broken)
      ensures signalled == old(signalled) + set fd | fd in eventFds[..Writable(eventFds, broken)]
    {
      for i := 0 to |eventFds|
        invariant i <= Writable(eventFds, broken)
        invariant signalled == old(signalled) + set fd | fd in eventFds[..i]
      {
        if eventFds[i] in broken {
          assert i == Writable(eventFds, broken);
          return false;
        }
        signalled := signalled + {eventFds[i]};
        assert eventFds[..i + 1] == eventFds[..i] + [eventFds[i]];
      }
      ok := true;
    }

    // ---------- Joining ----------

    method TrackSubscriber(fd: int, slot: nat) returns (r: Tracking)
      requires Valid() && shm.abs.pub.Ready?
      modifies this`eventFds, this`slotByFd, this`fdBySlot, shm, shm.rd
      ensures Valid() && shm.abs.pub.Ready?
      ensures r == if slot >= SLOTS then SlotOutOfRange
                   else if old(shm.abs.slots)[slot].Used? then SlotAlreadyTracked
                   else if fd in old(slotByFd) then EventFdAlreadyTracked
                   else Tracked
      ensures r == Tracked ==> shm.abs == Join(old(shm.abs), slot) && slotByFd == old(slotByFd)[fd := slot]
      ensures r != Tracked ==> shm.abs == old(shm.abs) && slotByFd == old(slotByFd)
    {
      hide Inv, Represents, TablesOk;
      InvShape(shm.abs);
      if slot >= SLOTS {
        return SlotOutOfRange;
      }
      UntrackedIsVacant(shm.Snap(), shm.abs, slot);
      if shm.rd[slot] != INVALID_INDEX {
        return SlotAlreadyTracked;
      }
      if fd in slotByFd {
        return EventFdAlreadyTracked;
      }
      ghost var m, a := shm.Snap(), shm.abs;
      JoinKeeps(a, slot);
      JoinRepresents(m, a, slot);
      JoinTables(eventFds, slotByFd, fdBySlot, a, fd, slot);
      slotByFd := slotByFd[fd := slot];
      eventFds := eventFds + [fd];
      fdBySlot := fdBySlot[slot := fd];
      shm.StoreReadIndex(slot, shm.wr);
      shm.abs := Join(a, slot);
      r := Tracked;
    }

    // ---------- Reaping ----------

    // One turn of the release loop, program point by program point; live subscribers may come between any two.

    /** Clear the dead reader's bit; whether no other bit was set. */
    method ReleaseBit(chunk: nat, slot: nat) returns (last: bool)
      requires shm.Valid() && CanReapClear(shm.abs) && shm.abs.pub.slot == slot
      requires chunk == shm.abs.log[shm.abs.pub.pos].chunk
      modifies shm`abs, shm.masks
      ensures shm.Valid() && shm.abs == PoolRuns.Apply(old(shm.abs), PoolRuns.DoReapClear)
      ensures shm.abs.pub.Reaping? && (last <==> shm.abs.pub.release.Freeing?)
    {
      hide Inv, Represents, ReapClear, Bit, Without;
      ghost var m, a := shm.Snap(), shm.abs;
      ReleasedBit(m, a);
      var previous := shm.FetchAnd(chunk, Bit(slot));
      last := previous == Bit(slot);
      shm.abs := PoolRuns.Apply(a, PoolRuns.DoReapClear);
    }

    /** The chunk must be marked in use; then it no longer is. */
    method UnmarkFreed(k: nat, offset: nat, ghost c: nat) returns (r: RunError)
      requires shm.Valid() && Frees(shm.abs, Marked) && shm.abs.pub.release.chunk == c
      requires k == ClassOf(c) && offset == OffsetOf(c)
      modifies shm`abs, shm.inUse
      ensures shm.Valid() && r == None && shm.abs == PoolRuns.Apply(old(shm.abs), PoolRuns.DoReapUnmark)
    {
      hide Inv, Represents, ClassOf, OffsetOf, ChunkIndex, FirstOffset, MarkCleared;
      ghost var m, a := shm.Snap(), shm.abs;
      UnmarkedFreed(m, a);
      var used := shm.IsMarked(ChunkIndex(k, offset));
      if !used {
        return ChunkReferenceReleaseFailed;
      }
      shm.Unmark(k, offset, c);
      shm.abs := PoolRuns.Apply(a, PoolRuns.DoReapUnmark);
      r := None;
    }

    method LinkFreed(k: nat, offset: nat, ghost c: nat)
      requires shm.Valid() && Frees(shm.abs, Unmarked) && shm.abs.pub.release.chunk == c
      requires k == ClassOf(c) && offset == OffsetOf(c)
      modifies shm`abs, shm.data
      ensures shm.Valid() && shm.abs == PoolRuns.Apply(old(shm.abs), PoolRuns.DoReapLink)
    {
      hide Inv, Represents, ClassOf, OffsetOf, LinkWritten;
      ghost var m, a := shm.Snap(), shm.abs;
      LinkedFreed(m, a);
      shm.LinkTail(k, offset, c);
      shm.abs := PoolRuns.Apply(a, PoolRuns.DoReapLink);
    }

    method MoveFreed(k: nat, offset: nat, ghost c: nat)
      requires shm.Valid() && Frees(shm.abs, OnTail) && shm.abs.pub.release.chunk == c
      requires k == ClassOf(c) && offset == OffsetOf(c)
      modifies shm`abs, shm.tail
      ensures shm.Valid() && shm.abs == PoolRuns.Apply(old(shm.abs), PoolRuns.DoReapReturn)
    {
      hide Inv, Represents, ClassOf, OffsetOf, TailMoved;
      ghost var m, a := shm.Snap(), shm.abs;
      MovedFreed(m, a);
      shm.MoveTail(k, offset, c);
      shm.abs := PoolRuns.Apply(a, PoolRuns.DoReapReturn);
    }

    /** One turn: clear the bit; append the chunk if no other bit was set. */
    method ReleaseOne(start: nat, slot: nat) returns (r: RunError)
      requires shm.Valid() && CanReapClear(shm.abs) && shm.abs.pub.slot == slot && start == shm.abs.pub.pos % RING
      modifies shm`abs, shm.masks, shm.inUse, shm.data, shm.tail
      ensures shm.Valid() && r == None && shm.abs == ReapNext(old(shm.abs))
    {
      hide Inv, Represents, ReapClear, OffsetOf, ReapNext, ClassOf, SizeClass, ChunkIndex,
           PoolRuns.Apply, SharedData.Snap;
      ghost var a := shm.abs;
      ReapNextIs(a);
      ReleasedDescriptor(shm, start);
      ghost var c := a.log[a.pub.pos].chunk;
      var offset, len := shm.ring[start].offset, shm.ring[start].len;
      var k := FindSizeClass(len);
      var last := ReleaseBit(ChunkIndex(k, offset), slot);
      if last {
        r := UnmarkFreed(k, offset, c);
        if r != None {
          return;
        }
        LinkFreed(k, offset, c);
        MoveFreed(k, offset, c);
      }
      r := None;
    }

    method ReleaseRange(start: nat, end: nat, slot: nat) returns (r: RunError)
      requires shm.Valid() && shm.abs.pub.Reaping? && shm.abs.pub.slot == slot && start <= end <= RING
      requires shm.abs.pub.release.Sweeping? && shm.abs.pub.pos + (end - start) <= |shm.abs.log|
      requires start < end ==> start == shm.abs.pub.pos % RING
      modifies shm, shm.masks, shm.inUse, shm.data, shm.tail
      ensures shm.Valid() && r == None && shm.abs == ReapSteps(old(shm.abs), end - start)
    {
      hide Inv, Represents, ReapNext;
      var i := start;
      ghost var a := shm.abs;
      while i < end
        invariant start <= i <= end && shm.Valid() && shm.abs == ReapSteps(a, i - start)
        invariant shm.abs.pub == Reaping(slot, a.pub.pos + (i - start), Sweeping) && shm.abs.log == a.log
          && shm.abs.slots == a.slots
        invariant i < end ==> i == shm.abs.pub.pos % RING
      {
        ReapStepsEffect(a, i + 1 - start);
        r := ReleaseOne(i, slot);
        if r != None {
          return;
        }
        i := i + 1;
      }
      r := None;
    }

    /** The broker reported slot `slot` closed. */
    method ReapDeadSubscriber(slot: nat) returns (r: RunError)
      requires Valid() && shm.abs.pub.Ready?
      requires slot < SLOTS && shm.abs.slots[slot].Used? ==> !shm.abs.slots[slot].alive
      modifies this`eventFds, this`slotByFd, shm, shm.rd, shm.masks, shm.inUse, shm.data, shm.tail
      ensures Valid() && shm.abs.pub.Ready?
      ensures r == None <==> slot < SLOTS && old(shm.abs.slots)[slot].Used?
      ensures r == None ==> shm.abs == ReapAll(old(shm.abs), slot)
      ensures r == None ==> slotByFd == old(slotByFd) - {old(fdBySlot)[slot]}
      ensures r != None ==> r == DeadSubscriberReapFailed && shm.abs == old(shm.abs) && slotByFd == old(slotByFd)
    {
      hide Inv, Represents, TablesOk, ReapSteps, ReapAll, EndReap;
      InvShape(shm.abs);
      if slot >= SLOTS {
        return DeadSubscriberReapFailed;
      }
      UntrackedIsVacant(shm.Snap(), shm.abs, slot);
      var rd := shm.rd[slot];
      if rd == INVALID_INDEX {
        return DeadSubscriberReapFailed;
      }
      ghost var a := shm.abs;
      var wr := shm.wr;
      StartReap(shm.Snap(), a, slot);
      ReapAllIs(a, slot);
      shm.abs := BeginReap(a, slot);
      r := Sweep(rd, wr, slot);
      if r != None {
        return;
      }
      ghost var m, swept := shm.Snap(), shm.abs;
      FinishReap(m, swept);
      ReapTables(eventFds, slotByFd, fdBySlot, a.slots, slot);
      shm.StoreReadIndex(slot, INVALID_INDEX);
      shm.abs := EndReap(swept);
      var fd := fdBySlot[slot];
      if fd !in slotByFd || slotByFd[fd] != slot {
        return DeadSubscriberReapFailed;
      }
      slotByFd := slotByFd - {fd};
      eventFds := Without1(eventFds, fd);
    }

    /** The dead reader's window, in one piece or two. */
    method Sweep(rd: nat, wr: nat, slot: nat) returns (r: RunError)
      requires shm.Valid() && shm.abs.pub.Reaping? && shm.abs.pub.slot == slot && slot < SLOTS
      requires shm.abs.pub == Reaping(slot, shm.abs.slots[slot].next, Sweeping)
      requires rd == shm.abs.pub.pos % RING && wr == |shm.abs.log| % RING
      modifies shm, shm.masks, shm.inUse, shm.data, shm.tail
      ensures shm.Valid() && r == None && shm.abs == ReapSteps(old(shm.abs), |old(shm.abs).log| - old(shm.abs).pub.pos)
    {
      hide Inv, Represents, ReapSteps;
      InvShape(shm.abs);
      SweepParts(shm.abs, rd, wr);
      var from := rd;
      if rd > wr {
        r := ReleaseRange(rd, RING, slot);
        if r != None {
          return;
        }
        from := 0;
      }
      r := ReleaseRange(from, wr, slot);
    }
  }

  predicate AllWritable(fds: seq<int>, broken: set<int>)
  {
    forall i: nat | i < |fds| :: fds[i] !in broken
  }

  /** How many event fds come before the first that cannot be written. */
  function Writable(fds: seq<int>, broken: set<int>): (n: nat)
    ensures n <= |fds| && (forall i: nat | i < n :: fds[i] !in broken) && (n < |fds| ==> fds[n] in broken)
  {
    if fds == [] || fds[0] in broken then 0 else 1 + Writable(fds[1..], broken)
  }

  // ---------- Facts the methods use ----------

  lemma InvShape(a: State)
    requires Inv(a)
    ensures Shape(a) && FreeOk(a.free)
    ensures a.pub.Reaping? ==> a.pub.slot < SLOTS && a.slots[a.pub.slot].Used?
  {
  }

  lemma FrameWraps(n: nat, payload: seq<Byte>)
    ensures Frame(n % U32_LIMIT, payload) == Frame(n, payload)
  {
  }

  lemma TablesAreInjective(eventFds: seq<int>, slotByFd: map<int, nat>, fdBySlot: seq<int>, slots: seq<Slot>)
    requires |slots| == |fdBySlot| == SLOTS && TablesOk(eventFds, slotByFd, fdBySlot, slots)
    ensures InjectiveOn(eventFds, slotByFd)
  {
    forall i: nat | i < |eventFds|
      ensures eventFds[i] in slotByFd && slotByFd[eventFds[i]] < SLOTS && fdBySlot[slotByFd[eventFds[i]]] == eventFds[i]
    {
      assert eventFds[i] in eventFds;
    }
  }

  /** Every fd has a slot, and different entries have different slots. */
  ghost predicate InjectiveOn(eventFds: seq<int>, slotByFd: map<int, nat>)
  {
    && (forall i: nat | i < |eventFds| :: eventFds[i] in slotByFd && slotByFd[eventFds[i]] < SLOTS)
    && (forall i, j | 0 <= i < j < |eventFds| :: slotByFd[eventFds[i]] != slotByFd[eventFds[j]])
  }

  method SumOfBits(eventFds: seq<int>, slotByFd: map<int, nat>) returns (found: bool, mask: Mask, ghost seen: set<nat>)
    requires InjectiveOn(eventFds, slotByFd)
    ensures found && Means(mask, seen)
    ensures forall s :: s in seen <==> exists j: nat ::
      j < |eventFds| && eventFds[j] in slotByFd && slotByFd[eventFds[j]] == s
  {
    hide Means, Plus, Bit;
    mask, seen := 0, {};
    EmptyMask();
    for i := 0 to |eventFds|
      invariant forall s :: s in seen <==> exists j: nat ::
        j < i && eventFds[j] in slotByFd && slotByFd[eventFds[j]] == s
      invariant Means(mask, seen)
    {
      var fd := eventFds[i];
      if fd !in slotByFd {
        return false, mask, seen;
      }
      var slot := slotByFd[fd];
      FetchAdd(mask, seen, slot);
      mask := Plus(mask, Bit(slot));
      seen := seen + {slot};
    }
    found := true;
  }

  lemma TablesCoverSlots(eventFds: seq<int>, slotByFd: map<int, nat>, fdBySlot: seq<int>, a: State, seen: set<nat>)
    requires Shape(a) && |fdBySlot| == SLOTS && TablesOk(eventFds, slotByFd, fdBySlot, a.slots)
    requires forall s :: s in seen <==> exists j: nat ::
      j < |eventFds| && eventFds[j] in slotByFd && slotByFd[eventFds[j]] == s
    ensures seen == UsedSlots(a)
  {
    forall s: nat | s < SLOTS && a.slots[s].Used?
      ensures s in seen
    {
      var fd := fdBySlot[s];
      assert fd in slotByFd;
      assert fd in eventFds;
      var j: nat :| j < |eventFds| && eventFds[j] == fd;
    }
    forall s | s in seen
      ensures s < SLOTS && a.slots[s].Used?
    {
      var j: nat :| j < |eventFds| && eventFds[j] in slotByFd && slotByFd[eventFds[j]] == s;
    }
  }

  /** The head of a list that can be taken from: its offset, its chunk, and that nothing marks it used. */
  lemma HeadChunk(m: Snapshot, a: State, k: nat)
    requires Inv(a) && Represents(m, a) && k < CLASSES
    ensures Shape(a) && Sizes(m) && ListOk(k, a.free[k]) && |a.free[k]| >= 1
    ensures var c := a.free[k][0];
            && c < CHUNKS && ClassOf(c) == k && m.head[k] == OffsetOf(c) && OffsetOf(c) + 4 <= POOL_BYTES
            && FirstOffset(k) <= OffsetOf(c) <= LastOffset(k) && ChunkIndex(k, OffsetOf(c)) == c
            && !m.inUse[c] && Means(m.masks[c], {})
  {
    hide LogOk, OwnerOk, HoldersOk, FreshOk, LooseOk, InboxOk, LostChunks, RingRep, ContentRep, Linked, Means, SlotsOk,
         TailOk, FreedOk;
    assert ListOk(k, a.free[k]);
    var c := a.free[k][0];
    assert c in a.free[k];
    assert a.place[c] == InPool;
    OffsetOfIsChunkOffset(c);
  }

  /** The code's two tests together decide exactly whether the machine can publish. */
  lemma Admission(m: Snapshot, a: State, slowest: nat, k: nat)
    requires Inv(a) && Represents(m, a) && IsSlowestIndex(a, slowest) && k < CLASSES
    ensures CanPublish(a, k) <==> !BackPressure(slowest, m.wr) && m.head[k] != m.tail[k]
  {
    hide LogOk, OwnerOk, HoldersOk, FreshOk, LooseOk, InboxOk, LostChunks, RingRep, ContentRep, Linked, MaskRep, UseRep,
         HeldOk, PooledOk, SlotsOk, RingBlocked, BackPressure, TailOk, FreedOk;
    InvWindows(a);
    BackPressureIsRingBlocked(a, slowest);
    assert ListOk(k, a.free[k]);
    var first, last := a.free[k][0], a.free[k][|a.free[k]| - 1];
    if |a.free[k]| >= 2 {
      assert first != last;
      ChunksAreDisjoint(first, last);
      SmallestClass(first);
      SmallestClass(last);
    }
  }

  lemma SpliceThree(data: seq<Byte>, at: nat, x: seq<Byte>, y: seq<Byte>, z: seq<Byte>)
    requires |x| == |y| == 4 && at + 8 + |z| <= |data|
    ensures Splice(Splice(Splice(data, at, x), at + 4, y), at + 8, z) == Splice(data, at, x + y + z)
    ensures Splice(Splice(data, at, x), at + 4, y) == Splice(data, at, x + y + [])
  {
  }

  lemma UntrackedIsVacant(m: Snapshot, a: State, s: nat)
    requires Shape(a) && FreeOk(a.free) && Represents(m, a) && s < SLOTS
    ensures m.rd[s] == INVALID_INDEX <==> a.slots[s].Vacant?
    ensures a.slots[s].Used? ==> m.rd[s] == a.slots[s].next % RING
    ensures m.wr == |a.log| % RING
  {
    hide RingRep, ListRep, MaskRep, ContentRep, UseRep;
  }

  lemma JoinTables(eventFds: seq<int>, slotByFd: map<int, nat>, fdBySlot: seq<int>, a: State, fd: int, s: nat)
    requires Shape(a) && |fdBySlot| == SLOTS && TablesOk(eventFds, slotByFd, fdBySlot, a.slots)
    requires s < SLOTS && a.slots[s].Vacant? && fd !in slotByFd
    ensures TablesOk(eventFds + [fd], slotByFd[fd := s], fdBySlot[s := fd], Join(a, s).slots)
  {
    assert fd !in eventFds;
    forall x
      ensures x in eventFds + [fd] <==> x in slotByFd[fd := s]
    {
      assert x in eventFds <==> x in slotByFd;
    }
  }

  function Without1(xs: seq<int>, x: int): (ys: seq<int>)
    ensures forall y :: y in ys <==> y in xs && y != x
    ensures (forall i, j | 0 <= i < j < |xs| :: xs[i] != xs[j]) ==> forall i, j | 0 <= i < j < |ys| :: ys[i] != ys[j]
  {
    if xs == [] then []
    else
      var rest := Without1(xs[1..], x);
      if xs[0] == x then rest
      else
        assert (forall i, j | 0 <= i < j < |xs| :: xs[i] != xs[j]) ==> xs[0] !in xs[1..];
        [xs[0]] + rest
  }

  lemma ReapTables(eventFds: seq<int>, slotByFd: map<int, nat>, fdBySlot: seq<int>, slots: seq<Slot>, s: nat)
    requires |slots| == |fdBySlot| == SLOTS && TablesOk(eventFds, slotByFd, fdBySlot, slots)
    requires s < SLOTS && slots[s].Used?
    ensures var fd := fdBySlot[s];
            && fd in slotByFd && slotByFd[fd] == s
            && TablesOk(Without1(eventFds, fd), slotByFd - {fd}, fdBySlot, slots[s := Vacant])
  {
  }

  /** What the descriptor the reap is at leads to. */
  lemma ReleasedDescriptor(shm: SharedData, start: nat)
    requires shm.Valid() && CanReapClear(shm.abs) && start == shm.abs.pub.pos % RING
    ensures var c := shm.abs.log[shm.abs.pub.pos].chunk;
            && c < CHUNKS && shm.ring[start].offset == OffsetOf(c) && SizeClass(shm.ring[start].len) == ClassOf(c)
            && FirstOffset(ClassOf(c)) <= OffsetOf(c) && ChunkIndex(ClassOf(c), OffsetOf(c)) == c
  {
    hide Inv, Represents;
    InvShape(shm.abs);
    RepresentsSizes(shm.Snap(), shm.abs);
    ReapedDescriptor(shm.Snap(), shm.abs);
    OffsetOfIsChunkOffset(shm.abs.log[shm.abs.pub.pos].chunk);
  }

  lemma ReleasedBit(m: Snapshot, a: State)
    requires Inv(a) && Represents(m, a) && CanReapClear(a)
    ensures var c, s, b := a.log[a.pub.pos].chunk, a.pub.slot, PoolRuns.Apply(a, PoolRuns.DoReapClear);
            && Sizes(m) && c < CHUNKS && s < SLOTS && Shape(b) && FreeOk(b.free) && b.pub.Reaping?
            && Represents(m.(masks := m.masks[c := Without(m.masks[c], Bit(s))]), b)
            && (m.masks[c] == Bit(s) <==> b.pub.release.Freeing?)
  {
    hide Inv, Represents, Bit, Without;
    InvShape(a);
    RepresentsSizes(m, a);
    ReapClearRepresents(m, a);
    InvShape(ReapClear(a));
  }

  lemma UnmarkedFreed(m: Snapshot, a: State)
    requires Inv(a) && Represents(m, a) && Frees(a, Marked)
    ensures var c, b := a.pub.release.chunk, PoolRuns.Apply(a, PoolRuns.DoReapUnmark);
            && Sizes(m) && m.inUse[c] && Shape(b) && FreeOk(b.free) && Represents(MarkCleared(m, c), b)
            && FirstOffset(ClassOf(c)) <= OffsetOf(c) && ChunkIndex(ClassOf(c), OffsetOf(c)) == c
  {
    hide Inv, Represents, MarkCleared;
    InvShape(a);
    RepresentsSizes(m, a);
    ReapUnmarkRepresents(m, a);
    OffsetOfIsChunkOffset(a.pub.release.chunk);
  }

  lemma LinkedFreed(m: Snapshot, a: State)
    requires Inv(a) && Represents(m, a) && Frees(a, Unmarked)
    ensures var c, b := a.pub.release.chunk, PoolRuns.Apply(a, PoolRuns.DoReapLink);
            && Sizes(m) && m.tail[ClassOf(c)] + 4 <= POOL_BYTES && OffsetOf(c) < U32_LIMIT
            && Shape(b) && FreeOk(b.free) && Represents(LinkWritten(m, c), b)
  {
    hide Inv, Represents, LinkWritten, OffsetOf;
    InvShape(a);
    RepresentsSizes(m, a);
    ReapLinkRepresents(m, a);
  }

  lemma MovedFreed(m: Snapshot, a: State)
    requires Inv(a) && Represents(m, a) && Frees(a, OnTail)
    ensures var c, b := a.pub.release.chunk, PoolRuns.Apply(a, PoolRuns.DoReapReturn);
            Sizes(m) && Shape(b) && FreeOk(b.free) && Represents(TailMoved(m, c), b)
  {
    hide Inv, Represents, TailMoved;
    InvShape(a);
    RepresentsSizes(m, a);
    ReapReturnRepresents(m, a);
    InvShape(ReapReturn(a));
  }

  lemma StartReap(m: Snapshot, a: State, s: nat)
    requires Inv(a) && Represents(m, a) && s < SLOTS && a.slots[s].Used? && !a.slots[s].alive && a.pub.Ready?
    ensures Inv(BeginReap(a, s)) && Represents(m, BeginReap(a, s))
  {
    hide Inv, Represents;
    InvShape(a);
    BeginReapKeeps(a, s);
    SameWordsRepresent(m, a, BeginReap(a, s));
  }

  lemma FinishReap(m: Snapshot, a: State)
    requires Inv(a) && Represents(m, a) && CanEndReap(a)
    ensures Shape(a) && Sizes(m) && a.pub.slot < SLOTS && Inv(EndReap(a))
    ensures Represents(m.(rd := m.rd[a.pub.slot := INVALID_INDEX]), EndReap(a))
    ensures var b := EndReap(a); Shape(b) && b.pub.Ready? && b.slots == a.slots[a.pub.slot := Vacant] && b.log == a.log
  {
    hide Inv, Represents;
    InvShape(a);
    RepresentsSizes(m, a);
    EndReapRepresents(m, a);
  }

  lemma RepresentsSizes(m: Snapshot, a: State)
    requires Shape(a) && FreeOk(a.free) && Represents(m, a)
    ensures Sizes(m)
  {
  }

  lemma {:induction false} ReapStepsAdd(a: State, n: nat, k: nat)
    requires Inv(a)
    ensures ReapSteps(ReapSteps(a, n), k) == ReapSteps(a, n + k)
    decreases k
  {
    hide Inv, ReapNext;
    if k > 0 {
      ReapStepsAdd(a, n, k - 1);
    }
  }

  /** The dead reader's window is one stretch of the ring, or two of which the second starts at its beginning. */
  lemma SweepParts(a: State, rd: nat, wr: nat)
    requires Inv(a) && Shape(a) && a.pub.Reaping? && a.pub.slot < SLOTS && a.slots[a.pub.slot].Used?
    requires a.pub == Reaping(a.pub.slot, a.slots[a.pub.slot].next, Sweeping)
    requires rd == a.pub.pos % RING && wr == |a.log| % RING
    ensures a.pub.pos <= |a.log| && (rd <= wr ==> |a.log| - a.pub.pos == wr - rd)
    ensures rd > wr ==>
      var b := ReapSteps(a, RING - rd);
      && b.pub == Reaping(a.pub.slot, a.pub.pos + RING - rd, Sweeping) && b.log == a.log && b.slots == a.slots
      && b.pub.pos % RING == 0 && b.pub.pos + wr == |a.log|
      && ReapSteps(b, wr) == ReapSteps(a, |a.log| - a.pub.pos)
  {
    hide Inv, ReapSteps;
    ReapWindow(a);
    if rd > wr {
      ReapStepsEffect(a, RING - rd);
      ReapStepsAdd(a, RING - rd, wr);
    }
  }

  lemma ReapWindow(a: State)
    requires Inv(a) && a.pub.Reaping? && a.pub.pos == a.slots[a.pub.slot].next
    ensures a.pub.pos <= |a.log| < a.pub.pos + RING
  {
    hide LogOk, OwnerOk, HoldersOk, FreshOk, FreeOk, LooseOk, InboxOk, LostChunks, HeldOk, PooledOk, TailOk, FreedOk;
  }

  /** `m` is the least of the first `n` indices at or below `wr`, or INVALID_INDEX if there is none. */
  ghost predicate LeastUpTo(rd: seq<nat>, n: nat, wr: nat, m: nat)
    requires n <= |rd|
  {
    && (m == INVALID_INDEX || exists i: nat :: i < n && rd[i] == m && m <= wr)
    && forall i: nat | i < n && rd[i] <= wr && rd[i] != INVALID_INDEX :: m <= rd[i]
  }

  /** `m` is the least of the first `n` valid indices above `wr`, or INVALID_INDEX if there is none. */
  ghost predicate LeastAbove(rd: seq<nat>, n: nat, wr: nat, m: nat)
    requires n <= |rd|
  {
    && (m == INVALID_INDEX || exists i: nat :: i < n && rd[i] == m && m > wr)
    && forall i: nat | i < n && rd[i] > wr && rd[i] != INVALID_INDEX :: m <= rd[i]
  }

  /** The scan's loop: the least index above the write index and the least one up to it. */
  method ScanReadIndices(rd: array<nat>, wr: nat) returns (before: nat, after: nat)
    requires rd.Length == SLOTS
    ensures LeastUpTo(rd[..], SLOTS, wr, after) && LeastAbove(rd[..], SLOTS, wr, before)
  {
    before, after := INVALID_INDEX, INVALID_INDEX;
    for i := 0 to SLOTS
      invariant LeastUpTo(rd[..], i, wr, after) && LeastAbove(rd[..], i, wr, before)
    {
      var d := rd[i];
      if d != INVALID_INDEX {
        if d <= wr {
          after := if d < after then d else after;
        } else {
          before := if d < before then d else before;
        }
      }
    }
  }

  lemma ScanFindsSlowest(m: Snapshot, a: State, before: nat, after: nat)
    requires Inv(a) && Represents(m, a)
    requires LeastUpTo(m.rd, SLOTS, m.wr, after) && LeastAbove(m.rd, SLOTS, m.wr, before)
    ensures IsSlowestIndex(a, if before != INVALID_INDEX then before else after)
  {
    hide Inv, RingRep, ListRep, MaskRep, ContentRep, UseRep, LinkRep;
    InvShape(a);
    InvWindows(a);
    LeastIsSlowest(m.rd, a, before, after);
  }

  lemma LeastIsSlowest(rd: seq<nat>, a: State, before: nat, after: nat)
    requires Windows(a) && |rd| == SLOTS && IndexRep(rd, |a.log| % RING, |a.log|, a.slots)
    requires LeastUpTo(rd, SLOTS, |a.log| % RING, after) && LeastAbove(rd, SLOTS, |a.log| % RING, before)
    ensures IsSlowestIndex(a, if before != INVALID_INDEX then before else after)
  {
    var r, wr := if before != INVALID_INDEX then before else after, |a.log| % RING;
    if r != INVALID_INDEX {
      var s: nat :| s < SLOTS && rd[s] == r && (if before != INVALID_INDEX then r > wr else r <= wr);
      Lag(a.slots[s].next, |a.log|);
      forall t: nat | t < SLOTS && a.slots[t].Used?
        ensures a.slots[s].next <= a.slots[t].next
      {
        Lag(a.slots[t].next, |a.log|);
      }
      assert IsSlowest(a, s);
    } else {
      forall s: nat | s < SLOTS
        ensures a.slots[s].Vacant?
      {
      }
    }
  }

  // ---------- A scan that takes its time ----------

  /** Each slot as it is when the scan loads its index. */
  ghost function LoadedSlots(a: State, steps: seq<PoolRuns.Step>, times: seq<nat>): (slots: seq<Slot>)
    requires Inv(a) && |times| == SLOTS && forall s: nat | s < SLOTS :: times[s] <= |steps|
    requires forall i: nat | i < |steps| :: PoolSignals.SubscriberStep(steps[i])
    ensures |slots| == SLOTS
    ensures forall s: nat | s < SLOTS ::
      var seen := PoolRuns.Run(a, steps[..times[s]]); Shape(seen) && slots[s] == seen.slots[s]
  {
    hide Inv, PoolRuns.Run;
    assert forall s: nat | s < SLOTS :: Shape(PoolRuns.Run(a, steps[..times[s]])) by {
      forall s: nat | s < SLOTS ensures Shape(PoolRuns.Run(a, steps[..times[s]])) {
        ShapeOf(PoolRuns.Run(a, steps[..times[s]]));
      }
    }
    seq(SLOTS, s requires 0 <= s < SLOTS => PoolRuns.Run(a, steps[..times[s]]).slots[s])
  }

  lemma LoadedWindows(a: State, steps: seq<PoolRuns.Step>, times: seq<nat>)
    requires Inv(a) && |times| == SLOTS && forall s: nat | s < SLOTS :: times[s] <= |steps|
    requires forall i: nat | i < |steps| :: PoolSignals.SubscriberStep(steps[i])
    ensures Windows(a.(slots := LoadedSlots(a, steps, times)))
    ensures forall s: nat | s < SLOTS ::
      var seen := PoolRuns.Run(a, steps[..times[s]]);
      |seen.log| == |a.log| && a.slots[s].Used? == LoadedSlots(a, steps, times)[s].Used?
  {
    hide Inv, PoolRuns.Run;
    ShapeOf(a);
    forall s: nat | s < SLOTS
      ensures var seen := PoolRuns.Run(a, steps[..times[s]]);
              |seen.log| == |a.log| && Windows(seen) && a.slots[s].Used? == LoadedSlots(a, steps, times)[s].Used?
    {
      PoolSignals.RunKeepsRoom(a, steps[..times[s]], s, 0);
      InvWindows(PoolRuns.Run(a, steps[..times[s]]));
    }
  }

  /** The back-pressure test on read indices loaded one by one, at any moments of a run of subscriber steps, decides
      what PoolSignals.SeesRoom says about the ring; and that is safe to act on by PoolSignals.StaleScanIsSafe. */
  lemma SlowScanDecides(a: State, steps: seq<PoolRuns.Step>, times: seq<nat>, rd: seq<nat>, before: nat, after: nat)
    requires Inv(a) && Shape(a) && |times| == |rd| == SLOTS && forall s: nat | s < SLOTS :: times[s] <= |steps|
    requires forall i: nat | i < |steps| :: PoolSignals.SubscriberStep(steps[i])
    requires IndexRep(rd, |a.log| % RING, |a.log|, LoadedSlots(a, steps, times))
    requires LeastUpTo(rd, SLOTS, |a.log| % RING, after) && LeastAbove(rd, SLOTS, |a.log| % RING, before)
    ensures !BackPressure(if before != INVALID_INDEX then before else after, |a.log| % RING) <==>
      && (exists s: nat :: s < SLOTS && a.slots[s].Used?)
      && forall s: nat | s < SLOTS && a.slots[s].Used? ::
           PoolSignals.LeavesRoom(PoolRuns.Run(a, steps[..times[s]]), s)
  {
    hide Inv, PoolRuns.Run, BackPressure, LoadedSlots, LeastUpTo, LeastAbove, RingBlocked, Windows, IsSlowestIndex,
         IndexRep, PoolSignals.LeavesRoom;
    var loaded := a.(slots := LoadedSlots(a, steps, times));
    LoadedWindows(a, steps, times);
    LeastIsSlowest(rd, loaded, before, after);
    BackPressureIsRingBlocked(loaded, if before != INVALID_INDEX then before else after);
    LoadedBlocked(a, steps, times);
  }

  lemma LoadedBlocked(a: State, steps: seq<PoolRuns.Step>, times: seq<nat>)
    requires Inv(a) && Shape(a) && |times| == SLOTS && forall s: nat | s < SLOTS :: times[s] <= |steps|
    requires forall i: nat | i < |steps| :: PoolSignals.SubscriberStep(steps[i])
    ensures !RingBlocked(a.(slots := LoadedSlots(a, steps, times))) <==>
      && (exists s: nat :: s < SLOTS && a.slots[s].Used?)
      && forall s: nat | s < SLOTS && a.slots[s].Used? ::
           PoolSignals.LeavesRoom(PoolRuns.Run(a, steps[..times[s]]), s)
  {
    hide Inv, PoolRuns.Run, LoadedSlots, Windows;
    var loaded := LoadedSlots(a, steps, times);
    LoadedWindows(a, steps, times);
    forall s: nat | s < SLOTS
      ensures a.slots[s].Used? == loaded[s].Used?
      ensures a.slots[s].Used? ==>
        (PoolSignals.LeavesRoom(PoolRuns.Run(a, steps[..times[s]]), s) <==> loaded[s].next + RING > |a.log| + 1)
    {
      assert loaded[s] == PoolRuns.Run(a, steps[..times[s]]).slots[s];
    }
  }
}
