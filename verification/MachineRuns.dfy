/** The machine of words and bytes runs as the pool machine does, in every interleaving of the endpoints: no check ever
    fails, no access leaves the mapping, and what readers are given is what was published. */
module MappingRuns {
  import opened Layout
  import opened Bytes
  import opened Bitmask
  import opened Pool
  import opened PoolInvariant
  import opened Memory
  import PoolRuns
  import PublisherSide
  import SubscriberSide
  import M = MappingMachine

  // ---------- What the locals mean ----------

  /** The descriptor of message `i`. */
  function Desc(log: seq<Entry>, i: nat): Descriptor
    requires i < |log|
  {
    if log[i].chunk < CHUNKS then DescriptorOf(log[i]) else Descriptor(0, 0)
  }

  ghost predicate PointRel(at: M.Point, slot: Slot, log: seq<Entry>)
    requires slot.Used?
  {
    match slot.phase
    case Idle => at.AtLoop?
    case Cleared(last) => slot.next < |log| && at == M.BitCleared(Desc(log, slot.next), last)
    case Returning(_, Marked) => 0 < slot.next <= |log| && at == M.IndexStored(Desc(log, slot.next - 1))
    case Returning(_, Unmarked) => 0 < slot.next <= |log| && at == M.MarkIsCleared(Desc(log, slot.next - 1))
    case Returning(_, OnTail) => 0 < slot.next <= |log| && at == M.TailIsLinked(Desc(log, slot.next - 1))
    case Signalling => at.AtSignal?
  }

  ghost predicate ReaderRel(r: M.Reader, slot: Slot, log: seq<Entry>, inbox: seq<seq<Byte>>) {
    match slot
    case Vacant => r.NoReader?
    case Used(_, next, _, alive) =>
      && r.Reader? && r.alive == alive && r.readIndex == next % RING && SubscriberSide.SeqOk(r.expected, slot)
      && r.given == inbox && SubscriberSide.DescriptorsOf(r.batch, log, slot.Unread()) && PointRel(r.at, slot, log)
  }

  ghost predicate ReadersRel(readers: seq<M.Reader>, slots: seq<Slot>, log: seq<Entry>, inbox: seq<seq<seq<Byte>>>) {
    && |readers| == |slots| == |inbox| == SLOTS
    && forall s: nat | s < SLOTS :: ReaderRel(readers[s], slots[s], log, inbox[s])
  }

  predicate ReapRel(reap: M.Reap, pub: Publisher, log: seq<Entry>) {
    match pub
    case Ready => reap.NotReaping?
    case Reaping(s, pos, release) =>
      reap.Reap? && reap.slot == s && reap.index == pos % RING && StageRel(reap.at, release, pos, log)
  }

  predicate StageRel(at: M.Stage, release: Release, pos: nat, log: seq<Entry>) {
    match release
    case Sweeping => at.AtDescriptor?
    case Freeing(_, Marked) => pos < |log| && at == M.LastBitCleared(Desc(log, pos))
    case Freeing(_, Unmarked) => pos < |log| && at == M.FreedUnmarked(Desc(log, pos))
    case Freeing(_, OnTail) => pos < |log| && at == M.FreedLinked(Desc(log, pos))
  }

  ghost predicate Sim(w: M.Machine, a: State) {
    && w.Machine? && Inv(a) && Shape(a) && FreeOk(a.free) && Represents(w.m, a) && w.seqNo == |a.log| % U32_LIMIT
    && ReadersRel(w.readers, a.slots, a.log, a.inbox) && ReapRel(w.reap, a.pub, a.log)
  }

  lemma SimForms(w: M.Machine, a: State)
    requires Sim(w, a)
    ensures M.Formed(w) && w.Machine? && Sizes(w.m) && Inv(a) && Shape(a) && Represents(w.m, a)
    ensures w.m.wr == |a.log| % RING
    ensures forall s: nat | s < SLOTS && a.slots[s].Used? :: w.m.rd[s] == a.slots[s].next % RING
    ensures forall s: nat | s < SLOTS && a.slots[s].Used? :: SlotOk(a.log, a.slots[s])
    ensures forall s: nat | s < SLOTS :: w.m.rd[s] == INVALID_INDEX <==> a.slots[s].Vacant?
  {
    hide RingRep, ListRep, MaskRep, ContentRep, UseRep, LinkRep, OwnerOk, HoldersOk, FreshOk, LooseOk, InboxOk, LogOk,
         LostChunks, HeldOk, PooledOk, TailOk, FreedOk;
  }

  lemma EntryIs(a: State, i: nat)
    requires Inv(a) && i < |a.log|
    ensures EntryOk(a.log[i]) && Desc(a.log, i) == DescriptorOf(a.log[i])
  {
    hide OwnerOk, HoldersOk, FreshOk, LooseOk, InboxOk, LostChunks, HeldOk, PooledOk, SlotsOk, FreeOk, TailOk, FreedOk;
    assert EntryOk(a.log[i]);
  }

  /** A message's descriptor leads back to its chunk. */
  lemma DescLeads(a: State, i: nat)
    requires Inv(a) && i < |a.log|
    ensures var d := Desc(a.log, i);
            && a.log[i].chunk < CHUNKS && M.ChunkOf(d) == M.Chunk(a.log[i].chunk)
            && SizeClass(d.len) == ClassOf(a.log[i].chunk) && d.offset == OffsetOf(a.log[i].chunk) < U32_LIMIT
            && d.len == HEADER_BYTES + |a.log[i].payload|
  {
    hide Inv;
    EntryIs(a, i);
    var c := a.log[i].chunk;
    OffsetOfIsChunkOffset(c);
    DescriptorNamesItsChunk(c, HEADER_BYTES + |a.log[i].payload|);
  }

  /** One slot and its reader change. */
  lemma OneReader(readers: seq<M.Reader>, slots: seq<Slot>, log: seq<Entry>, inbox: seq<seq<seq<Byte>>>, s: nat,
                  r: M.Reader, slot: Slot, box: seq<seq<Byte>>)
    requires ReadersRel(readers, slots, log, inbox) && s < SLOTS && ReaderRel(r, slot, log, box)
    ensures ReadersRel(readers[s := r], slots[s := slot], log, inbox[s := box])
  {
    hide ReaderRel;
  }

  lemma ReaderOf(w: M.Machine, a: State, s: nat)
    requires Sim(w, a) && s < SLOTS
    ensures |w.readers| == SLOTS && Shape(a) && ReaderRel(w.readers[s], a.slots[s], a.log, a.inbox[s])
  {
    hide Inv, Represents;
  }

  // ---------- Readers ----------

  lemma LoadSim(w: M.Machine, a: State, s: nat)
    requires Sim(w, a) && s < SLOTS
    ensures M.Formed(w) && Sim(M.LoadBatch(w, s), a)
  {
    hide Inv, Represents, SubscriberSide.DescriptorsOf, SubscriberSide.SeqOk;
    SimForms(w, a);
    ReaderOf(w, a, s);
    var r := w.readers[s];
    if r.Reader? && r.alive && r.at.AtLoop? && r.batch == [] {
      var end := if r.readIndex > w.m.wr then RING else w.m.wr;
      SubscriberSide.RingStretch(w.m, a, s, end);
      OneReader(w.readers, a.slots, a.log, a.inbox, s, r.(batch := w.m.ring[r.readIndex..end]), a.slots[s], a.inbox[s]);
      assert a.slots[s := a.slots[s]] == a.slots && a.inbox[s := a.inbox[s]] == a.inbox;
    }
  }

  lemma ClearSim(w: M.Machine, a: State, s: nat)
    requires Sim(w, a) && s < SLOTS
    ensures M.Formed(w)
    ensures Sim(M.ClearBit(w, s), if M.CanRead(w.readers[s]) then PoolRuns.Apply(a, PoolRuns.DoClear(s)) else a)
  {
    SimForms(w, a);
    ReaderOf(w, a, s);
    if M.CanRead(w.readers[s]) {
      ReadSim(w, a, s);
    }
  }

  /** What clearing leaves of the slots and inboxes. */
  lemma ClearSlots(a: State, s: nat)
    requires Inv(a) && s < SLOTS && CanClear(a, s)
    ensures var b := PoolRuns.Apply(a, PoolRuns.DoClear(s));
            && Shape(a) && Shape(b) && FreeOk(b.free) && b.log == a.log && b.pub == a.pub
            && b.slots == a.slots[s := a.slots[s].(phase := Cleared(SubscriberSide.LastHolder(a, s)))]
            && b.inbox == a.inbox[s := a.inbox[s] + [a.log[a.slots[s].next].payload]]
  {
    hide HoldersOk, FreshOk, HeldOk, PooledOk, LooseOk, InboxOk, LostChunks, OwnerOk, SlotsOk, TailOk, FreedOk;
    ClearedChunk(a, s);
  }

  lemma ReadSim(w: M.Machine, a: State, s: nat)
    requires Sim(w, a) && s < SLOTS && M.Formed(w) && M.CanRead(w.readers[s])
    ensures Sim(M.ClearBit(w, s), PoolRuns.Apply(a, PoolRuns.DoClear(s)))
  {
    hide Inv, Represents, SubscriberSide.SeqOk, PoolRuns.Apply, U32At, Bit, Without, M.ChunkOf, OffsetOf, ReapRel,
         SubscriberSide.LastHolder, SizeClass, ClassOf, ChunkIndex, FirstOffset, LastOffset, PointRel;
    SimForms(w, a);
    ReaderOf(w, a, s);
    var r, slot := w.readers[s], a.slots[s];
    AtLoopIsIdle(r.at, slot, a.log);
    var d := r.batch[0];
    FirstOfBatch(r.batch, a, slot.next);
    assert CanClear(a, s);
    DescLeads(a, slot.next);
    SubscriberSide.NextMessage(w.m, a, s, d);
    SubscriberSide.NextNumber(r.expected, slot);
    ClearSlots(a, s);
    ClearedPoint(a, s, d, w.m.masks[a.log[slot.next].chunk] == Bit(s));
    var b := PoolRuns.Apply(a, PoolRuns.DoClear(s));
    var w' := M.ClearBit(w, s);
    OneReader(w.readers, a.slots, a.log, a.inbox, s, w'.readers[s], b.slots[s], b.inbox[s]);
  }

  lemma AtLoopIsIdle(at: M.Point, slot: Slot, log: seq<Entry>)
    requires slot.Used? && PointRel(at, slot, log)
    ensures at.AtLoop? <==> slot.phase.Idle?
    ensures at.BitCleared? <==> slot.phase.Cleared?
    ensures at.IndexStored? <==> slot.phase.Returning? && slot.phase.at.Marked?
    ensures at.MarkIsCleared? <==> slot.phase.Returning? && slot.phase.at.Unmarked?
    ensures at.TailIsLinked? <==> slot.phase.Returning? && slot.phase.at.OnTail?
    ensures at.AtSignal? <==> slot.phase.Signalling?
    ensures at.BitCleared? ==> slot.next < |log| && at == M.BitCleared(Desc(log, slot.next), slot.phase.last)
    ensures slot.phase.Returning? ==> 0 < slot.next <= |log| && at.d == Desc(log, slot.next - 1)
  {
  }

  lemma ClearedPoint(a: State, s: nat, d: Descriptor, last: bool)
    requires Inv(a) && Shape(a) && s < SLOTS && CanClear(a, s) && d == Desc(a.log, a.slots[s].next)
    ensures PointRel(M.BitCleared(d, last), a.slots[s].(phase := Cleared(last)), a.log)
  {
  }

  lemma FirstOfBatch(batch: seq<Descriptor>, a: State, p: nat)
    requires Inv(a) && batch != [] && SubscriberSide.DescriptorsOf(batch, a.log, p)
    ensures p < |a.log| && a.log[p].chunk < CHUNKS && batch[0] == DescriptorOf(a.log[p]) == Desc(a.log, p)
    ensures SubscriberSide.DescriptorsOf(batch[1..], a.log, p + 1)
  {
    hide Inv, DescriptorOf;
    EntryIs(a, p);
    assert p + 0 == p && batch[0] == DescriptorOf(a.log[p + 0]);
    RestOfBatch(batch, batch[1..], a.log, p, p + 1);
  }

  lemma RestOfBatch(batch: seq<Descriptor>, rest: seq<Descriptor>, log: seq<Entry>, p: nat, q: nat)
    requires batch != [] && rest == batch[1..] && q == p + 1 && SubscriberSide.DescriptorsOf(batch, log, p)
    ensures SubscriberSide.DescriptorsOf(rest, log, q)
  {
    forall i: nat | i < |rest|
      ensures log[q + i].chunk < CHUNKS && rest[i] == DescriptorOf(log[q + i])
    {
      var j := i + 1;
      var d := batch[j];
      assert q + i == p + j && d == rest[i];
      assert log[p + j].chunk < CHUNKS && d == DescriptorOf(log[p + j]);
    }
  }

  lemma StoreSim(w: M.Machine, a: State, s: nat)
    requires Sim(w, a) && s < SLOTS
    ensures M.Formed(w) && Sim(M.StoreIndex(w, s), PoolRuns.Apply(a, PoolRuns.DoStoreRead(s)))
  {
    hide Inv, Represents, SubscriberSide.SeqOk, PoolRuns.Apply, ReapRel, PointRel, Desc;
    SimForms(w, a);
    ReaderOf(w, a, s);
    if CanStoreRead(a, s) {
      var r, slot := w.readers[s], a.slots[s];
      AtLoopIsIdle(r.at, slot, a.log);
      SubscriberSide.StoredIndex(w.m, a, s);
      StoreSlots(a, s);
      var b := PoolRuns.Apply(a, PoolRuns.DoStoreRead(s));
      SubscriberSide.SameNumber(r.expected, slot, b.slots[s]);
      NextIndex(slot.next);
      var w' := M.StoreIndex(w, s);
      StoredPoint(r.at, slot, b.slots[s], a.log);
      OneReader(w.readers, a.slots, a.log, a.inbox, s, w'.readers[s], b.slots[s], a.inbox[s]);
      assert a.inbox[s := a.inbox[s]] == a.inbox;
    } else {
      Disabled(a, PoolRuns.DoStoreRead(s));
      if a.slots[s].Used? {
        AtLoopIsIdle(w.readers[s].at, a.slots[s], a.log);
      }
    }
  }

  lemma Disabled(a: State, step: PoolRuns.Step)
    requires Inv(a) && Shape(a) && !PoolRuns.Enabled(a, step)
    ensures PoolRuns.Apply(a, step) == a
  {
    hide Inv;
  }

  lemma StoreSlots(a: State, s: nat)
    requires Inv(a) && s < SLOTS && CanStoreRead(a, s)
    ensures var b := PoolRuns.Apply(a, PoolRuns.DoStoreRead(s));
            && Shape(a) && Shape(b) && FreeOk(b.free) && b.log == a.log && b.pub == a.pub && b.inbox == a.inbox
            && b.slots == a.slots[s := StoreRead(a, s).slots[s]]
  {
    hide HoldersOk, FreshOk, HeldOk, PooledOk, LooseOk, InboxOk, LostChunks, OwnerOk, SlotsOk, TailOk, FreedOk;
  }

  lemma StoredPoint(at: M.Point, slot: Slot, slot': Slot, log: seq<Entry>)
    requires slot.Used? && slot.phase.Cleared? && slot.next < |log| && PointRel(at, slot, log)
    requires slot' == slot.(next := slot.next + 1,
                            phase := if slot.phase.last then Returning(log[slot.next].chunk, Marked) else Idle)
    ensures PointRel(if at.last then M.IndexStored(at.d) else M.AtLoop, slot', log)
  {
  }

  // ---------- The append ----------

  /** A step of an append changes one slot's phase. */
  lemma PhaseOnly(a: State, s: nat, step: PoolRuns.Step)
    requires Inv(a) && s < SLOTS && Shape(a) && PoolRuns.Enabled(a, step)
    requires step in {PoolRuns.DoUnmark(s), PoolRuns.DoLink(s), PoolRuns.DoReturn(s), PoolRuns.DoSignal(s),
      PoolRuns.DoCrash(s)}
    ensures var b := PoolRuns.Apply(a, step);
            && a.slots[s].Used? && Shape(b) && FreeOk(b.free) && b.log == a.log && b.pub == a.pub && b.inbox == a.inbox
            && b.slots[s].Used? && b.slots == a.slots[s := b.slots[s]]
            && b.slots[s] == a.slots[s].(phase := b.slots[s].phase, alive := b.slots[s].alive)
            && (step != PoolRuns.DoCrash(s) ==> b.slots[s].alive == a.slots[s].alive)
  {
    hide HoldersOk, FreshOk, HeldOk, PooledOk, LooseOk, InboxOk, LostChunks, OwnerOk, SlotsOk, TailOk, FreedOk;
  }

  /** The reader's locals follow when its phase moves on between two clears. */
  lemma NewPoint(readers: seq<M.Reader>, slots: seq<Slot>, log: seq<Entry>, inbox: seq<seq<seq<Byte>>>, s: nat,
                 r: M.Reader, slot: Slot)
    requires ReadersRel(readers, slots, log, inbox) && s < SLOTS && slots[s].Used? && slot.Used? && readers[s].Reader?
    requires slot == slots[s].(phase := slot.phase, alive := slot.alive) && slot.Unread() == slots[s].Unread()
    requires r.Reader? && r == readers[s].(at := r.at, alive := slot.alive) && PointRel(r.at, slot, log)
    ensures ReadersRel(readers[s := r], slots[s := slot], log, inbox)
  {
    hide SubscriberSide.SeqOk, PointRel, SubscriberSide.DescriptorsOf;
    SubscriberSide.SameNumber(readers[s].expected, slots[s], slot);
    OneReader(readers, slots, log, inbox, s, r, slot, inbox[s]);
    assert inbox[s := inbox[s]] == inbox;
  }

  lemma ReturnedDesc(a: State, s: nat)
    requires Inv(a) && Shape(a) && s < SLOTS && a.slots[s].Used? && a.slots[s].phase.Returning?
    ensures 0 < a.slots[s].next <= |a.log| && a.slots[s].phase.chunk < CHUNKS
    ensures var d, c := Desc(a.log, a.slots[s].next - 1), a.slots[s].phase.chunk;
            && M.ChunkOf(d) == M.Chunk(c) && SizeClass(d.len) == ClassOf(c) && d.offset == OffsetOf(c) < U32_LIMIT
  {
    hide LogOk, OwnerOk, HoldersOk, FreshOk, LooseOk, InboxOk, LostChunks, HeldOk, PooledOk, FreeOk, TailOk, FreedOk;
    assert SlotOk(a.log, a.slots[s]);
    DescLeads(a, a.slots[s].next - 1);
  }

  lemma UnmarkSim(w: M.Machine, a: State, s: nat)
    requires Sim(w, a) && s < SLOTS
    ensures M.Formed(w) && Sim(M.ClearMark(w, s), PoolRuns.Apply(a, PoolRuns.DoUnmark(s)))
  {
    hide Inv, Represents, SubscriberSide.SeqOk, PoolRuns.Apply, ReapRel, PointRel, Desc, M.ChunkOf, SizeClass, OffsetOf;
    SimForms(w, a);
    ReaderOf(w, a, s);
    if a.slots[s].Used? {
      AtLoopIsIdle(w.readers[s].at, a.slots[s], a.log);
    }
    if a.slots[s].Used? && a.slots[s].phase.Returning? {
      ReturnedDesc(a, s);
    }
    if CanUnmark(a, s) {
      PhaseOnly(a, s, PoolRuns.DoUnmark(s));
      SubscriberSide.UnmarkedChunk(w.m, a, s);
      var b := PoolRuns.Apply(a, PoolRuns.DoUnmark(s));
      var w' := M.ClearMark(w, s);
      ReturningPoint(w'.readers[s].at, b.slots[s], a.log);
      NewPoint(w.readers, a.slots, a.log, a.inbox, s, w'.readers[s], b.slots[s]);
    } else {
      Disabled(a, PoolRuns.DoUnmark(s));
    }
  }

  lemma ReturningPoint(at: M.Point, slot: Slot, log: seq<Entry>)
    requires slot.Used? && slot.phase.Returning? && 0 < slot.next <= |log|
    requires var d := Desc(log, slot.next - 1);
             at == match slot.phase.at case Marked => M.IndexStored(d) case Unmarked => M.MarkIsCleared(d)
               case OnTail => M.TailIsLinked(d)
    ensures PointRel(at, slot, log)
  {
  }

  lemma LinkSim(w: M.Machine, a: State, s: nat)
    requires Sim(w, a) && s < SLOTS
    ensures M.Formed(w) && Sim(M.LinkTail(w, s), PoolRuns.Apply(a, PoolRuns.DoLink(s)))
  {
    hide Inv, Represents, SubscriberSide.SeqOk, PoolRuns.Apply, ReapRel, PointRel, Desc, M.ChunkOf, SizeClass, OffsetOf,
         Splice, U32Bytes;
    SimForms(w, a);
    ReaderOf(w, a, s);
    if a.slots[s].Used? {
      AtLoopIsIdle(w.readers[s].at, a.slots[s], a.log);
    }
    if a.slots[s].Used? && a.slots[s].phase.Returning? {
      ReturnedDesc(a, s);
    }
    if CanLink(a, s) {
      PhaseOnly(a, s, PoolRuns.DoLink(s));
      SubscriberSide.LinkedChunk(w.m, a, s);
      var b := PoolRuns.Apply(a, PoolRuns.DoLink(s));
      var w' := M.LinkTail(w, s);
      ReturningPoint(w'.readers[s].at, b.slots[s], a.log);
      NewPoint(w.readers, a.slots, a.log, a.inbox, s, w'.readers[s], b.slots[s]);
    } else {
      Disabled(a, PoolRuns.DoLink(s));
    }
  }

  lemma ReturnSim(w: M.Machine, a: State, s: nat)
    requires Sim(w, a) && s < SLOTS
    ensures M.Formed(w) && Sim(M.MoveTail(w, s), PoolRuns.Apply(a, PoolRuns.DoReturn(s)))
  {
    hide Inv, Represents, SubscriberSide.SeqOk, PoolRuns.Apply, ReapRel, PointRel, Desc, M.ChunkOf, SizeClass, OffsetOf;
    SimForms(w, a);
    ReaderOf(w, a, s);
    if a.slots[s].Used? {
      AtLoopIsIdle(w.readers[s].at, a.slots[s], a.log);
    }
    if a.slots[s].Used? && a.slots[s].phase.Returning? {
      ReturnedDesc(a, s);
    }
    if CanReturn(a, s) {
      PhaseOnly(a, s, PoolRuns.DoReturn(s));
      SubscriberSide.AppendedChunk(w.m, a, s);
      var b := PoolRuns.Apply(a, PoolRuns.DoReturn(s));
      var w' := M.MoveTail(w, s);
      PlainPoint(w'.readers[s].at, b.slots[s], a.log);
      NewPoint(w.readers, a.slots, a.log, a.inbox, s, w'.readers[s], b.slots[s]);
    } else {
      Disabled(a, PoolRuns.DoReturn(s));
    }
  }

  lemma PlainPoint(at: M.Point, slot: Slot, log: seq<Entry>)
    requires slot.Used? && (if slot.phase.Idle? then at.AtLoop? else slot.phase.Signalling? && at.AtSignal?)
    ensures PointRel(at, slot, log)
  {
  }

  lemma SignalSim(w: M.Machine, a: State, s: nat)
    requires Sim(w, a) && s < SLOTS
    ensures M.Formed(w) && Sim(M.Signal(w, s), PoolRuns.Apply(a, PoolRuns.DoSignal(s)))
  {
    hide Inv, Represents, SubscriberSide.SeqOk, PoolRuns.Apply, ReapRel, PointRel, Desc;
    SimForms(w, a);
    ReaderOf(w, a, s);
    if a.slots[s].Used? {
      AtLoopIsIdle(w.readers[s].at, a.slots[s], a.log);
    }
    if Live(a, s) && a.slots[s].phase.Signalling? {
      PhaseOnly(a, s, PoolRuns.DoSignal(s));
      SubscriberSide.SignalledIsIdle(w.m, a, s);
      var b := PoolRuns.Apply(a, PoolRuns.DoSignal(s));
      var w' := M.Signal(w, s);
      PlainPoint(w'.readers[s].at, b.slots[s], a.log);
      NewPoint(w.readers, a.slots, a.log, a.inbox, s, w'.readers[s], b.slots[s]);
    } else {
      Disabled(a, PoolRuns.DoSignal(s));
    }
  }

  lemma CrashSim(w: M.Machine, a: State, s: nat)
    requires Sim(w, a) && s < SLOTS
    ensures M.Formed(w) && Sim(M.Die(w, s), PoolRuns.Apply(a, PoolRuns.DoCrash(s)))
  {
    hide Inv, Represents, SubscriberSide.SeqOk, PoolRuns.Apply, ReapRel, PointRel, Desc;
    SimForms(w, a);
    ReaderOf(w, a, s);
    var b := PoolRuns.Apply(a, PoolRuns.DoCrash(s));
    if Live(a, s) {
      PhaseOnly(a, s, PoolRuns.DoCrash(s));
      CrashedSlot(a, s);
      SameWordsRepresent(w.m, a, b);
      var w' := M.Die(w, s);
      SamePoint(w'.readers[s].at, a.slots[s], b.slots[s], a.log);
      NewPoint(w.readers, a.slots, a.log, a.inbox, s, w'.readers[s], b.slots[s]);
    } else {
      Disabled(a, PoolRuns.DoCrash(s));
      if a.slots[s].Used? {
        assert w.readers[s := w.readers[s].(alive := false)] == w.readers;
      }
    }
  }

  lemma CrashedSlot(a: State, s: nat)
    requires Inv(a) && Shape(a) && s < SLOTS && Live(a, s)
    ensures PoolRuns.Apply(a, PoolRuns.DoCrash(s)) == Crash(a, s)
  {
    hide Inv;
  }

  lemma SamePoint(at: M.Point, slot: Slot, slot': Slot, log: seq<Entry>)
    requires slot.Used? && slot'.Used? && PointRel(at, slot, log) && slot' == slot.(alive := slot'.alive)
    ensures PointRel(at, slot', log)
  {
  }

  // ---------- The publisher ----------

  lemma MaskMeans(w: M.Machine, a: State)
    requires Sim(w, a)
    ensures |w.m.rd| == SLOTS && Means(M.SlotMask(w.m.rd, SLOTS), UsedSlots(a))
  {
    hide Inv, Represents, Means;
    SimForms(w, a);
    M.SlotMaskMeans(w.m.rd, SLOTS);
    assert M.UsedUpTo(w.m.rd, SLOTS) == UsedSlots(a);
  }

  /** The two tests decide what the pool machine decides. */
  lemma BlockedAgrees(w: M.Machine, a: State, k: nat)
    requires Sim(w, a) && k < CLASSES
    ensures Sizes(w.m) && Shape(a) && (M.Blocked(w.m, k) <==> !CanPublish(a, k))
  {
    hide Inv, Represents, CanPublish, PublisherSide.BackPressure, PublisherSide.LeastUpTo, PublisherSide.LeastAbove;
    SimForms(w, a);
    var before, after := M.LeastIndex(w.m.rd, SLOTS, w.m.wr, true), M.LeastIndex(w.m.rd, SLOTS, w.m.wr, false);
    PublisherSide.ScanFindsSlowest(w.m, a, before, after);
    PublisherSide.Admission(w.m, a, M.SlowestIndex(w.m.rd, w.m.wr), k);
  }

  /** What the publisher finds at the head of a list it may take from. */
  lemma HeadLeads(w: M.Machine, a: State, payload: seq<Byte>)
    requires Sim(w, a) && |payload| <= MAX_PAYLOAD && CanPublish(a, PayloadClass(payload))
    ensures var k := PayloadClass(payload);
            var c := a.free[k][0];
            && Sizes(w.m) && c < CHUNKS && w.m.head[k] == OffsetOf(c) && !w.m.inUse[c] && Means(w.m.masks[c], {})
            && M.ChunkOf(Descriptor(OffsetOf(c), HEADER_BYTES + |payload|)) == M.Chunk(c)
            && OffsetOf(c) + HEADER_BYTES + |payload| <= POOL_BYTES
            && U32At(w.m.data, OffsetOf(c)) == LinkOf(w.m.data, c)
  {
    hide Inv, Represents, OffsetOf, Means, CanPublish;
    SimForms(w, a);
    var k := PayloadClass(payload);
    PublisherSide.HeadChunk(w.m, a, k);
    var c := a.free[k][0];
    OffsetOfIsChunkOffset(c);
    DescriptorNamesItsChunk(c, HEADER_BYTES + |payload|);
  }

  lemma LogGrows(readers: seq<M.Reader>, slots: seq<Slot>, log: seq<Entry>, inbox: seq<seq<seq<Byte>>>, e: Entry)
    requires ReadersRel(readers, slots, log, inbox)
    ensures ReadersRel(readers, slots, log + [e], inbox)
  {
    forall s: nat | s < SLOTS
      ensures ReaderRel(readers[s], slots[s], log + [e], inbox[s])
    {
      assert ReaderRel(readers[s], slots[s], log, inbox[s]);
      if slots[s].Used? {
        BatchStays(readers[s].batch, log, slots[s].Unread(), e);
        PointStays(readers[s].at, slots[s], log, e);
      }
    }
  }

  lemma BatchStays(batch: seq<Descriptor>, log: seq<Entry>, p: nat, e: Entry)
    requires SubscriberSide.DescriptorsOf(batch, log, p)
    ensures SubscriberSide.DescriptorsOf(batch, log + [e], p)
  {
    forall i: nat | i < |batch|
      ensures (log + [e])[p + i].chunk < CHUNKS && batch[i] == DescriptorOf((log + [e])[p + i])
    {
      var d := batch[i];
      assert (log + [e])[p + i] == log[p + i] && log[p + i].chunk < CHUNKS;
    }
  }

  lemma PointStays(at: M.Point, slot: Slot, log: seq<Entry>, e: Entry)
    requires slot.Used? && PointRel(at, slot, log)
    ensures PointRel(at, slot, log + [e])
  {
    assert forall i: nat | i < |log| :: (log + [e])[i] == log[i];
  }

  lemma PublishSim(w: M.Machine, a: State, payload: seq<Byte>)
    requires Sim(w, a)
    ensures M.Formed(w) && Sim(M.Publish(w, payload), PoolRuns.Apply(a, PoolRuns.DoPublish(payload)))
  {
    SimForms(w, a);
    hide Inv, Represents;
    EveryPayloadHasAClass(|payload|);
    if |payload| > MAX_PAYLOAD || !a.pub.Ready? {
      Disabled(a, PoolRuns.DoPublish(payload));
    } else {
      BlockedAgrees(w, a, PayloadClass(payload));
      if CanPublish(a, PayloadClass(payload)) {
        EnterSim(w, a, payload);
      } else {
        Disabled(a, PoolRuns.DoPublish(payload));
      }
    }
  }

  lemma EnterSim(w: M.Machine, a: State, payload: seq<Byte>)
    requires Sim(w, a) && a.pub.Ready? && |payload| <= MAX_PAYLOAD && CanPublish(a, PayloadClass(payload))
      && M.Formed(w)
    requires !M.Blocked(w.m, PayloadClass(payload))
    ensures Sim(M.Publish(w, payload), PoolRuns.Apply(a, PoolRuns.DoPublish(payload)))
  {
    hide Inv, Represents, CanPublish, M.Blocked, OffsetOf, M.ChunkOf, Means, Frame, Splice, Plus, M.SlotMask, ReaderRel,
         U32At, LinkOf, UsedSlots;
    SimForms(w, a);
    var k := PayloadClass(payload);
    var mask := M.SlotMask(w.m.rd, SLOTS);
    MaskMeans(w, a);
    HeadLeads(w, a, payload);
    var c := a.free[k][0];
    FetchAddToEmpty(w.m.masks[c], mask);
    PublisherSide.FrameWraps(|a.log|, payload);
    PublishRepresents(w.m, a, payload, mask);
    NextNumber(|a.log|);
    LogGrows(w.readers, a.slots, a.log, a.inbox, Entry(c, payload));
    PublishIs(a, payload);
  }

  lemma NextNumber(n: nat)
    ensures (n % U32_LIMIT + 1) % U32_LIMIT == (n + 1) % U32_LIMIT && n % U32_LIMIT < U32_LIMIT
  {
  }

  lemma PublishIs(a: State, payload: seq<Byte>)
    requires Inv(a) && Shape(a) && a.pub.Ready? && |payload| <= MAX_PAYLOAD && CanPublish(a, PayloadClass(payload))
    ensures a.free[PayloadClass(payload)][0] < CHUNKS
    ensures var b := PoolRuns.Apply(a, PoolRuns.DoPublish(payload));
            && b == Publish(a, payload) && Shape(b) && FreeOk(b.free)
            && b.log == a.log + [Entry(a.free[PayloadClass(payload)][0], payload)]
            && b.slots == a.slots && b.inbox == a.inbox && b.pub == a.pub
  {
    hide HoldersOk, FreshOk, HeldOk, PooledOk, LooseOk, InboxOk, LostChunks, OwnerOk, SlotsOk, TailOk, FreedOk;
    PublishKeeps(a, payload);
  }

  lemma JoinSim(w: M.Machine, a: State, s: nat)
    requires Sim(w, a) && s < SLOTS
    ensures M.Formed(w) && Sim(M.Join(w, s), PoolRuns.Apply(a, PoolRuns.DoJoin(s)))
  {
    hide Inv, Represents, PoolRuns.Apply, ReaderRel;
    SimForms(w, a);
    if a.pub.Ready? && a.slots[s].Vacant? {
      JoinIs(a, s);
      JoinRepresents(w.m, a, s);
      var r := M.Reader(w.m.wr, M.NO_SEQ, [], M.AtLoop, true, []);
      NewReader(r, a.log);
      OneReader(w.readers, a.slots, a.log, a.inbox, s, r, Used(|a.log|, |a.log|, Idle, true), []);
    } else {
      Disabled(a, PoolRuns.DoJoin(s));
    }
  }

  lemma NewReader(r: M.Reader, log: seq<Entry>)
    requires r == M.Reader(|log| % RING, M.NO_SEQ, [], M.AtLoop, true, [])
    ensures ReaderRel(r, Used(|log|, |log|, Idle, true), log, [])
  {
  }

  lemma JoinIs(a: State, s: nat)
    requires Inv(a) && Shape(a) && s < SLOTS && a.pub.Ready? && a.slots[s].Vacant?
    ensures PoolRuns.Apply(a, PoolRuns.DoJoin(s)) == Join(a, s) && Inv(Join(a, s)) && FreeOk(Join(a, s).free)
  {
    hide HoldersOk, FreshOk, HeldOk, PooledOk, LooseOk, InboxOk, LostChunks, OwnerOk, SlotsOk, LogOk, TailOk, FreedOk;
    JoinKeeps(a, s);
  }

  // ---------- Reaping ----------

  lemma ReapStarts(a: State, s: nat)
    requires Inv(a) && Shape(a) && s < SLOTS && a.pub.Ready? && a.slots[s].Used? && !a.slots[s].alive
    ensures PoolRuns.Apply(a, PoolRuns.DoBeginReap(s)) == BeginReap(a, s)
    ensures Inv(BeginReap(a, s)) && Shape(BeginReap(a, s)) && FreeOk(BeginReap(a, s).free)
  {
    hide HoldersOk, FreshOk, HeldOk, PooledOk, LooseOk, InboxOk, LostChunks, OwnerOk, SlotsOk, LogOk, TailOk, FreedOk;
    BeginReapKeeps(a, s);
  }

  lemma BeginReapSim(w: M.Machine, a: State, s: nat)
    requires Sim(w, a) && s < SLOTS
    ensures M.Formed(w) && Sim(M.BeginReap(w, s), PoolRuns.Apply(a, PoolRuns.DoBeginReap(s)))
  {
    hide Inv, Represents, PoolRuns.Apply, PointRel, SubscriberSide.SeqOk, SubscriberSide.DescriptorsOf;
    SimForms(w, a);
    ReaderOf(w, a, s);
    if a.pub.Ready? && a.slots[s].Used? && !a.slots[s].alive {
      ReapStarts(a, s);
      PublisherSide.StartReap(w.m, a, s);
    } else {
      Disabled(a, PoolRuns.DoBeginReap(s));
    }
  }

  /** The reap has visited every descriptor exactly when its index has met the write index. */
  lemma ReapMeets(a: State)
    requires Inv(a) && Shape(a) && a.pub.Reaping?
    ensures a.pub.slot < SLOTS && a.slots[a.pub.slot].Used? && a.pub.pos <= |a.log|
    ensures a.pub.pos % RING == |a.log| % RING <==> a.pub.pos == |a.log|
    ensures a.pub.release.Freeing? ==>
      a.pub.pos < |a.log| && a.pub.release.chunk < CHUNKS && a.log[a.pub.pos].chunk == a.pub.release.chunk
  {
    hide HoldersOk, FreshOk, HeldOk, PooledOk, LooseOk, InboxOk, LostChunks, OwnerOk, LogOk, FreeOk, TailOk, FreedOk;
    assert SlotOk(a.log, a.slots[a.pub.slot]);
  }

  lemma MasksAgree(w: M.Machine, a: State, c: nat, s: nat)
    requires Sim(w, a) && c < CHUNKS && s < SLOTS
    ensures Sizes(w.m) && Shape(a) && (w.m.masks[c] == Bit(s) <==> a.holders[c] == {s})
  {
    hide Inv, IndexRep, RingRep, ListRep, ContentRep, UseRep, LinkRep, Bit;
    ClearBit(w.m.masks, a.holders, c, s);
  }

  lemma RingAt(w: M.Machine, a: State)
    requires Sim(w, a) && a.pub.Reaping? && a.pub.pos < |a.log|
    ensures Sizes(w.m) && w.m.ring[a.pub.pos % RING] == Desc(a.log, a.pub.pos)
  {
    hide Inv, Represents, ReadersRel, ReapRel, DescriptorOf, Desc;
    SimForms(w, a);
    ReapedDescriptor(w.m, a);
    EntryIs(a, a.pub.pos);
  }

  /** What a step of the reap leaves alone. */
  lemma ReapOnly(a: State, step: PoolRuns.Step)
    requires Inv(a) && Shape(a) && PoolRuns.Enabled(a, step)
    requires step in {PoolRuns.DoReapClear, PoolRuns.DoReapUnmark, PoolRuns.DoReapLink, PoolRuns.DoReapReturn}
    ensures var b := PoolRuns.Apply(a, step);
            && Inv(b) && Shape(b) && FreeOk(b.free) && b.log == a.log && b.slots == a.slots && b.inbox == a.inbox
  {
    hide HoldersOk, FreshOk, HeldOk, PooledOk, LooseOk, InboxOk, LostChunks, OwnerOk, SlotsOk, LogOk, TailOk, FreedOk;
  }

  /** The reap stands where the machine's does. */
  lemma ReapIsAt(w: M.Machine, a: State)
    requires Sim(w, a)
    ensures Shape(a) && w.Machine? && (w.reap.Reap? <==> a.pub.Reaping?)
    ensures a.pub.Reaping? ==>
      && a.pub.slot < SLOTS && a.pub.pos <= |a.log| && w.reap.slot == a.pub.slot && w.reap.index == a.pub.pos % RING
      && (w.reap.index == w.m.wr <==> a.pub.pos == |a.log|)
      && (w.reap.at.AtDescriptor? <==> a.pub.release.Sweeping?)
      && (w.reap.at.LastBitCleared? <==> Frees(a, Marked)) && (w.reap.at.FreedUnmarked? <==> Frees(a, Unmarked))
      && (w.reap.at.FreedLinked? <==> Frees(a, OnTail))
      && (a.pub.release.Freeing? ==>
        && a.pub.pos < |a.log| && a.log[a.pub.pos].chunk == a.pub.release.chunk
        && w.reap.at.d == Desc(a.log, a.pub.pos))
  {
    hide Inv, Represents, ReadersRel, Desc;
    SimForms(w, a);
    if a.pub.Reaping? {
      ReapMeets(a);
    }
  }

  /** Clearing the dead reader's bit on words alone, with readers at any point, does what the pool machine's step does:
      the previous word tells whether the chunk is to be appended. */
  lemma ReapClearSim(w: M.Machine, a: State)
    requires Sim(w, a)
    ensures M.Formed(w) && Sim(M.ReapClear(w), PoolRuns.Apply(a, PoolRuns.DoReapClear))
  {
    hide Inv, Represents, PoolRuns.Apply, ReapClear, M.ChunkOf, Bit, OffsetOf, Without, SizeClass, ReadersRel, Desc,
         ReapRel;
    SimForms(w, a);
    ReapIsAt(w, a);
    if CanReapClear(a) {
      RingAt(w, a);
      DescLeads(a, a.pub.pos);
      MasksAgree(w, a, a.log[a.pub.pos].chunk, a.pub.slot);
      NextIndex(a.pub.pos);
      ReapOnly(a, PoolRuns.DoReapClear);
      PublisherSide.ReleasedBit(w.m, a);
      BitReap(a);
      var b := PoolRuns.Apply(a, PoolRuns.DoReapClear);
      assert ReapRel(M.ReapClear(w).reap, b.pub, b.log) by { StageIs(M.ReapClear(w).reap, b.pub, b.log); }
    } else {
      Disabled(a, PoolRuns.DoReapClear);
    }
  }

  lemma BitReap(a: State)
    requires Inv(a) && CanReapClear(a)
    ensures var b, c := PoolRuns.Apply(a, PoolRuns.DoReapClear), a.log[a.pub.pos].chunk;
            && Shape(a) && c < CHUNKS
            && b.pub == if a.holders[c] == {a.pub.slot} then a.pub.(release := Freeing(c, Marked))
                        else a.pub.(pos := a.pub.pos + 1)
  {
    hide HoldersOk, FreshOk, HeldOk, PooledOk, LooseOk, InboxOk, LostChunks, OwnerOk, SlotsOk, LogOk, TailOk, FreedOk,
         FreeOk;
    ReapClearKeeps(a);
  }

  lemma StageIs(reap: M.Reap, pub: Publisher, log: seq<Entry>)
    requires reap.Reap? && pub.Reaping? && reap.slot == pub.slot && reap.index == pub.pos % RING
    requires if pub.release.Sweeping? then reap.at.AtDescriptor? else
             pub.pos < |log| && var d := Desc(log, pub.pos);
             reap.at == match pub.release.at case Marked => M.LastBitCleared(d) case Unmarked => M.FreedUnmarked(d)
               case OnTail => M.FreedLinked(d)
    ensures ReapRel(reap, pub, log)
  {
  }

  lemma ReapUnmarkSim(w: M.Machine, a: State)
    requires Sim(w, a)
    ensures M.Formed(w) && Sim(M.ReapUnmark(w), PoolRuns.Apply(a, PoolRuns.DoReapUnmark))
  {
    hide Inv, Represents, PoolRuns.Apply, M.ChunkOf, OffsetOf, SizeClass, ReadersRel, Desc, ReapRel;
    SimForms(w, a);
    ReapIsAt(w, a);
    if Frees(a, Marked) {
      DescLeads(a, a.pub.pos);
      ReapOnly(a, PoolRuns.DoReapUnmark);
      PublisherSide.UnmarkedFreed(w.m, a);
      var b := PoolRuns.Apply(a, PoolRuns.DoReapUnmark);
      FreedAt(a, PoolRuns.DoReapUnmark, Unmarked);
      StageIs(M.ReapUnmark(w).reap, b.pub, b.log);
    } else {
      Disabled(a, PoolRuns.DoReapUnmark);
    }
  }

  /** A step within the reap's append. */
  lemma FreedAt(a: State, step: PoolRuns.Step, at: Progress)
    requires Inv(a) && Shape(a) && PoolRuns.Enabled(a, step)
    requires (step.DoReapUnmark? && at.Unmarked?) || (step.DoReapLink? && at.OnTail?)
    ensures a.pub.Reaping? && a.pub.release.Freeing?
    ensures PoolRuns.Apply(a, step).pub == a.pub.(release := Freeing(a.pub.release.chunk, at))
  {
    hide Inv;
  }

  lemma ReapLinkSim(w: M.Machine, a: State)
    requires Sim(w, a)
    ensures M.Formed(w) && Sim(M.ReapLink(w), PoolRuns.Apply(a, PoolRuns.DoReapLink))
  {
    hide Inv, Represents, PoolRuns.Apply, M.ChunkOf, OffsetOf, SizeClass, ReadersRel, Desc, Splice, U32Bytes, ReapRel;
    SimForms(w, a);
    ReapIsAt(w, a);
    if Frees(a, Unmarked) {
      DescLeads(a, a.pub.pos);
      ReapOnly(a, PoolRuns.DoReapLink);
      PublisherSide.LinkedFreed(w.m, a);
      var b := PoolRuns.Apply(a, PoolRuns.DoReapLink);
      FreedAt(a, PoolRuns.DoReapLink, OnTail);
      StageIs(M.ReapLink(w).reap, b.pub, b.log);
    } else {
      Disabled(a, PoolRuns.DoReapLink);
    }
  }

  lemma ReapReturnSim(w: M.Machine, a: State)
    requires Sim(w, a)
    ensures M.Formed(w) && Sim(M.ReapReturn(w), PoolRuns.Apply(a, PoolRuns.DoReapReturn))
  {
    hide Inv, Represents, PoolRuns.Apply, M.ChunkOf, OffsetOf, SizeClass, ReadersRel, Desc, ReapRel;
    SimForms(w, a);
    ReapIsAt(w, a);
    if Frees(a, OnTail) {
      DescLeads(a, a.pub.pos);
      ReapOnly(a, PoolRuns.DoReapReturn);
      PublisherSide.MovedFreed(w.m, a);
      NextIndex(a.pub.pos);
      var b := PoolRuns.Apply(a, PoolRuns.DoReapReturn);
      assert b.pub == Reaping(a.pub.slot, a.pub.pos + 1, Sweeping) by { FreedReturns(a); }
      StageIs(M.ReapReturn(w).reap, b.pub, b.log);
    } else {
      Disabled(a, PoolRuns.DoReapReturn);
    }
  }

  lemma FreedReturns(a: State)
    requires Inv(a) && Shape(a) && Frees(a, OnTail)
    ensures PoolRuns.Apply(a, PoolRuns.DoReapReturn).pub == Reaping(a.pub.slot, a.pub.pos + 1, Sweeping)
  {
    hide Inv;
  }

  lemma EndReapIs(a: State)
    requires Inv(a) && Shape(a) && CanEndReap(a) && a.pub.slot < SLOTS
    ensures PoolRuns.Apply(a, PoolRuns.DoEndReap) == EndReap(a) && Inv(EndReap(a)) && FreeOk(EndReap(a).free)
    ensures EndReap(a).inbox == a.inbox
  {
    hide HoldersOk, FreshOk, HeldOk, PooledOk, LooseOk, InboxOk, LostChunks, OwnerOk, SlotsOk, LogOk, TailOk, FreedOk;
    EndReapKeeps(a);
  }

  lemma EndReapSim(w: M.Machine, a: State)
    requires Sim(w, a)
    ensures M.Formed(w) && Sim(M.EndReap(w), PoolRuns.Apply(a, PoolRuns.DoEndReap))
  {
    hide Inv, Represents, PoolRuns.Apply, EndReap, ReaderRel;
    SimForms(w, a);
    ReapIsAt(w, a);
    if CanEndReap(a) {
      EndReapIs(a);
      PublisherSide.FinishReap(w.m, a);
      VacantReader(a.log, a.inbox[a.pub.slot]);
      OneReader(w.readers, a.slots, a.log, a.inbox, a.pub.slot, M.NoReader, Vacant, a.inbox[a.pub.slot]);
      assert a.inbox[a.pub.slot := a.inbox[a.pub.slot]] == a.inbox;
    } else {
      Disabled(a, PoolRuns.DoEndReap);
    }
  }

  lemma VacantReader(log: seq<Entry>, inbox: seq<seq<Byte>>)
    ensures ReaderRel(M.NoReader, Vacant, log, inbox)
  {
  }

  // ---------- Runs ----------

  /** The pool machine's step: none for a load, nor for a read with nothing loaded. */
  function Projected(w: M.Machine, step: M.Step): seq<PoolRuns.Step>
    requires M.Formed(w) && w.Machine?
  {
    match step
    case Load(_) => []
    case On(DoClear(s)) => if s < SLOTS && M.CanRead(w.readers[s]) then [PoolRuns.DoClear(s)] else []
    case On(p) => [p]
  }

  lemma RunNone(a: State)
    requires Inv(a)
    ensures PoolRuns.Run(a, []) == a
  {
  }

  lemma RunOne(a: State, step: PoolRuns.Step)
    requires Inv(a)
    ensures PoolRuns.Run(a, [step]) == PoolRuns.Apply(a, step)
  {
    hide Inv, PoolRuns.Apply;
    assert [step][1..] == [];
  }

  /** What the pool machine makes of one step. */
  ghost function Follow(w: M.Machine, a: State, step: M.Step): (b: State)
    requires Sim(w, a)
    ensures Inv(b)
  {
    hide Inv, Represents, ReadersRel;
    SimForms(w, a);
    PoolRuns.Run(a, Projected(w, step))
  }

  lemma ExecSim(w: M.Machine, a: State, step: M.Step)
    requires Sim(w, a)
    ensures M.Formed(w) && Sim(M.Exec(w, step), Follow(w, a, step))
  {
    hide Sim, Inv, PoolRuns.Apply, PoolRuns.Run, M.LoadBatch, M.Publish, M.Join, M.ClearBit, M.StoreIndex, M.ClearMark,
         M.LinkTail, M.MoveTail, M.Signal, M.Die, M.BeginReap, M.ReapClear, M.ReapUnmark, M.ReapLink,
         M.ReapReturn, M.EndReap;
    SimForms(w, a);
    RunNone(a);
    match step
    case Load(s) => if s < SLOTS { LoadSim(w, a, s); }
    case On(p) =>
      RunOne(a, p);
      if InSlots(p) {
        OnSim(w, a, p);
      } else {
        OutOfSlots(a, p);
      }
  }

  predicate InSlots(p: PoolRuns.Step) {
    match p
    case DoPublish(_) => true
    case DoReapClear => true
    case DoReapUnmark => true
    case DoReapLink => true
    case DoReapReturn => true
    case DoEndReap => true
    case DoJoin(s) => s < SLOTS
    case DoClear(s) => s < SLOTS
    case DoStoreRead(s) => s < SLOTS
    case DoUnmark(s) => s < SLOTS
    case DoLink(s) => s < SLOTS
    case DoReturn(s) => s < SLOTS
    case DoSignal(s) => s < SLOTS
    case DoCrash(s) => s < SLOTS
    case DoBeginReap(s) => s < SLOTS
  }

  lemma OutOfSlots(a: State, p: PoolRuns.Step)
    requires Inv(a) && !InSlots(p)
    ensures PoolRuns.Apply(a, p) == a
  {
    hide Inv;
  }

  lemma OnSim(w: M.Machine, a: State, p: PoolRuns.Step)
    requires Sim(w, a) && InSlots(p)
    ensures M.Formed(w) && (p.DoClear? && !M.CanRead(w.readers[p.slot]) ==> Sim(M.Exec(w, M.On(p)), a))
    ensures !(p.DoClear? && !M.CanRead(w.readers[p.slot])) ==> Sim(M.Exec(w, M.On(p)), PoolRuns.Apply(a, p))
  {
    hide Sim, Inv, PoolRuns.Apply, PoolRuns.Run, M.LoadBatch, M.Publish, M.Join, M.ClearBit, M.StoreIndex, M.ClearMark,
         M.LinkTail, M.MoveTail, M.Signal, M.Die, M.BeginReap, M.ReapClear, M.ReapUnmark, M.ReapLink,
         M.ReapReturn, M.EndReap;
    SimForms(w, a);
    match p
    case DoPublish(payload) => PublishSim(w, a, payload);
    case DoJoin(s) => JoinSim(w, a, s);
    case DoClear(s) => ClearSim(w, a, s);
    case DoStoreRead(s) => StoreSim(w, a, s);
    case DoUnmark(s) => UnmarkSim(w, a, s);
    case DoLink(s) => LinkSim(w, a, s);
    case DoReturn(s) => ReturnSim(w, a, s);
    case DoSignal(s) => SignalSim(w, a, s);
    case DoCrash(s) => CrashSim(w, a, s);
    case DoBeginReap(s) => BeginReapSim(w, a, s);
    case DoReapClear => ReapClearSim(w, a);
    case DoReapUnmark => ReapUnmarkSim(w, a);
    case DoReapLink => ReapLinkSim(w, a);
    case DoReapReturn => ReapReturnSim(w, a);
    case DoEndReap => EndReapSim(w, a);
  }

  /** The pool machine's run along a run of the word machine. */
  ghost function ProjectedRun(w: M.Machine, steps: seq<M.Step>): seq<PoolRuns.Step>
    requires M.Formed(w)
    decreases |steps|
  {
    if steps == [] || w.Fault? then [] else Projected(w, steps[0]) + ProjectedRun(M.Exec(w, steps[0]), steps[1..])
  }

  /** Every run of the word machine, whatever the interleaving, is a run of the pool machine, and at its end the words
      and bytes of the mapping and the locals of every endpoint represent the pool machine's state. */
  lemma {:induction false} RunSim(w: M.Machine, a: State, steps: seq<M.Step>)
    requires Sim(w, a)
    ensures M.Formed(w) && Inv(a) && Sim(M.Run(w, steps), PoolRuns.Run(a, ProjectedRun(w, steps)))
    decreases |steps|
  {
    hide Sim, Inv, M.Exec, PoolRuns.Run, Projected;
    SimForms(w, a);
    RunNone(a);
    if steps != [] {
      ExecSim(w, a, steps[0]);
      var w1, a1 := M.Exec(w, steps[0]), Follow(w, a, steps[0]);
      SimForms(w1, a1);
      RunSim(w1, a1, steps[1..]);
      PoolRuns.RunConcat(a, Projected(w, steps[0]), ProjectedRun(w1, steps[1..]));
    }
  }

  lemma StartSim(w: M.Machine)
    requires M.IsStart(w)
    ensures Sim(w, Init())
  {
    hide Inv, Represents;
    ListsLinked(w.m.data);
    InitRepresents(w.m);
    InitLists();
    forall s: nat | s < SLOTS
      ensures ReaderRel(w.readers[s], Init().slots[s], Init().log, Init().inbox[s])
    {
      VacantReader([], []);
    }
  }

  lemma ListsLinked(data: seq<Byte>)
    requires |data| == POOL_BYTES
    requires forall c: nat | c < CHUNKS && c + 1 < IndexBase(ClassOf(c)) + ClassChunks(ClassOf(c)) ::
      LinkOf(data, c) == OffsetOf(c) + ClassSize(ClassOf(c))
    ensures forall k: nat | k < CLASSES :: AreChunks(ClassList(k)) && Linked(data, ClassList(k))
  {
    forall k: nat | k < CLASSES
      ensures AreChunks(ClassList(k)) && Linked(data, ClassList(k))
    {
      ListLinked(data, k);
    }
  }

  lemma ListLinked(data: seq<Byte>, k: nat)
    requires |data| == POOL_BYTES && k < CLASSES
    requires forall c: nat | c < CHUNKS && c + 1 < IndexBase(ClassOf(c)) + ClassChunks(ClassOf(c)) ::
      LinkOf(data, c) == OffsetOf(c) + ClassSize(ClassOf(c))
    ensures AreChunks(ClassList(k)) && Linked(data, ClassList(k))
  {
    hide LinkOf;
    forall j: nat | j < ClassChunks(k)
      ensures ClassList(k)[j] < CHUNKS && ClassOf(ClassList(k)[j]) == k
      ensures j > 0 ==> OffsetOf(ClassList(k)[j]) == OffsetOf(ClassList(k)[j - 1]) + ClassSize(k)
    {
    }
  }

  // ---------- What it means for the bytes ----------

  /** In every run and every interleaving, no check of size class, offset, magic, number, mark or double free fails, and
      no access leaves the mapping. */
  lemma NoCheckFails(w: M.Machine, steps: seq<M.Step>)
    requires M.IsStart(w)
    ensures M.Formed(w) && M.Run(w, steps).Machine?
  {
    hide Sim, Inv, PoolRuns.Run, M.Run;
    StartSim(w);
    RunSim(w, Init(), steps);
    SimForms(M.Run(w, steps), PoolRuns.Run(Init(), ProjectedRun(w, steps)));
  }

  /** The step puts `payload` into the ring. */
  predicate Publishes(w: M.Machine, step: M.Step)
    requires M.Formed(w)
  {
    w.Machine? && step.On? && step.step.DoPublish? && M.Exec(w, step) != w
  }

  /** The payloads a run puts into the ring, in order. */
  ghost function PublishedBy(w: M.Machine, steps: seq<M.Step>): seq<seq<Byte>>
    requires M.Formed(w)
    decreases |steps|
  {
    if steps == [] then []
    else (if Publishes(w, steps[0]) then [steps[0].step.payload] else []) + PublishedBy(M.Exec(w, steps[0]), steps[1..])
  }

  /** What one step puts into the ring is what the pool machine logs. */
  lemma StepLogs(w: M.Machine, a: State, step: M.Step)
    requires Sim(w, a)
    ensures M.Formed(w)
    ensures var b := Follow(w, a, step);
            var added := if Publishes(w, step) then [step.step.payload] else [];
            && |b.log| == |a.log| + |added| && a.log <= b.log
            && forall i: nat | |a.log| <= i < |b.log| :: b.log[i].payload == added[i - |a.log|]
  {
    hide Sim, Inv, PoolRuns.Apply, M.Publish;
    SimForms(w, a);
    RunNone(a);
    match step
    case Load(_) =>
    case On(p) =>
      RunOne(a, p);
      if p.DoPublish? {
        PublishLogs(w, a, p.payload);
      } else {
        OthersLogNothing(a, p);
      }
  }

  lemma OthersLogNothing(a: State, p: PoolRuns.Step)
    requires Inv(a) && !p.DoPublish?
    ensures PoolRuns.Apply(a, p).log == a.log
  {
    hide HoldersOk, FreshOk, HeldOk, PooledOk, LooseOk, InboxOk, LostChunks, OwnerOk, SlotsOk, LogOk, FreeOk, TailOk,
         FreedOk;
  }

  lemma PublishLogs(w: M.Machine, a: State, payload: seq<Byte>)
    requires Sim(w, a)
    ensures M.Formed(w) && w.Machine?
    ensures var b := PoolRuns.Apply(a, PoolRuns.DoPublish(payload));
            if M.Publish(w, payload) != w
            then |b.log| == |a.log| + 1 && a.log <= b.log && b.log[|a.log|].payload == payload
            else b.log == a.log
  {
    SimForms(w, a);
    hide Inv, Sim, M.Publish, M.Blocked, PayloadClass, PoolRuns.Apply;
    PublishSim(w, a, payload);
    EveryPayloadHasAClass(|payload|);
    ReapTells(w, a);
    if |payload| <= MAX_PAYLOAD && a.pub.Ready? && CanPublish(a, PayloadClass(payload)) {
      PublishIs(a, payload);
      SimForms(M.Publish(w, payload), PoolRuns.Apply(a, PoolRuns.DoPublish(payload)));
      NextIndexDiffers(|a.log|);
    } else {
      if |payload| <= MAX_PAYLOAD {
        BlockedAgrees(w, a, PayloadClass(payload));
      }
      NothingEnters(w, payload);
      Disabled(a, PoolRuns.DoPublish(payload));
    }
  }

  lemma NothingEnters(w: M.Machine, payload: seq<Byte>)
    requires M.Formed(w) && w.Machine?
    requires |payload| > MAX_PAYLOAD || !w.reap.NotReaping? || M.Blocked(w.m, PayloadClass(payload))
    ensures M.Publish(w, payload) == w
  {
    EveryPayloadHasAClass(|payload|);
    hide M.Blocked;
  }

  lemma ReapTells(w: M.Machine, a: State)
    requires Sim(w, a)
    ensures w.Machine? && (w.reap.NotReaping? <==> a.pub.Ready?)
  {
    hide Inv, Represents, ReadersRel;
  }

  lemma NextIndexDiffers(n: nat)
    ensures n % RING != (n + 1) % RING
  {
  }

  lemma {:induction false} RunLogs(w: M.Machine, a: State, steps: seq<M.Step>)
    requires Sim(w, a)
    ensures M.Formed(w) && Inv(a)
    ensures var b := PoolRuns.Run(a, ProjectedRun(w, steps));
            a.log <= b.log && PoolRuns.Payloads(b.log[|a.log|..]) == PublishedBy(w, steps)
    decreases |steps|
  {
    hide Sim, Inv, M.Exec, PoolRuns.Run, Projected, Publishes;
    SimForms(w, a);
    RunNone(a);
    if steps != [] {
      ExecSim(w, a, steps[0]);
      var w1, a1 := M.Exec(w, steps[0]), Follow(w, a, steps[0]);
      SimForms(w1, a1);
      StepLogs(w, a, steps[0]);
      RunLogs(w1, a1, steps[1..]);
      PoolRuns.RunConcat(a, Projected(w, steps[0]), ProjectedRun(w1, steps[1..]));
      var b := PoolRuns.Run(a, ProjectedRun(w, steps));
      assert b.log[|a.log|..] == a1.log[|a.log|..] + b.log[|a1.log|..];
    }
  }

  /** Reader `s` is not reaped along the run. */
  lemma {:induction false} NotReaped(w: M.Machine, steps: seq<M.Step>, s: nat)
    requires M.Formed(w) && forall i: nat | i < |steps| :: steps[i] != M.On(PoolRuns.DoBeginReap(s))
    ensures forall i: nat | i < |ProjectedRun(w, steps)| :: ProjectedRun(w, steps)[i] != PoolRuns.DoBeginReap(s)
    decreases |steps|
  {
    hide M.Exec;
    if steps != [] && w.Machine? {
      NotReaped(M.Exec(w, steps[0]), steps[1..], s);
    }
  }

  /** Bytes in, bytes out, in every interleaving: a reader that joins at any point of any run is given exactly the
      payloads put into the ring from then on, byte for byte and in order, and all of them once its index has met the
      write index - however the publisher, the other readers, their deaths and the reaping of the dead come between. */
  lemma JoinerIsGivenWhatFollows(start: M.Machine, before: seq<M.Step>, s: nat, after: seq<M.Step>)
    requires M.IsStart(start) && s < SLOTS && M.Formed(start)
    requires var w := M.Run(start, before); w.Machine? ==> w.reap.NotReaping? && w.readers[s].NoReader?
    requires forall i: nat | i < |after| :: after[i] != M.On(PoolRuns.DoBeginReap(s))
    ensures var joined := M.Exec(M.Run(start, before), M.On(PoolRuns.DoJoin(s)));
            var end := M.Run(joined, after);
            && end.Machine? && end.readers[s].Reader?
            && end.readers[s].given <= PublishedBy(joined, after)
            && (end.readers[s].at.AtLoop? && end.readers[s].readIndex == end.m.wr ==>
                end.readers[s].given == PublishedBy(joined, after))
  {
    hide Sim, Inv, M.Exec, M.Run, PoolRuns.Run, PoolRuns.Apply, M.IsStart, PublishedBy;
    StartSim(start);
    RunSim(start, Init(), before);
    var w, a := M.Run(start, before), PoolRuns.Run(Init(), ProjectedRun(start, before));
    SimForms(w, a);
    JoinedSim(w, a, s);
    var joined := M.Exec(w, M.On(PoolRuns.DoJoin(s)));
    SimForms(joined, Join(a, s));
    RunSim(joined, Join(a, s), after);
    RunLogs(joined, Join(a, s), after);
    NotReaped(joined, after, s);
    PoolRuns.JoinerReceivesWhatFollows(a, s, ProjectedRun(joined, after));
    var end, b := M.Run(joined, after), PoolRuns.Run(Join(a, s), ProjectedRun(joined, after));
    SimForms(end, b);
    GivenIs(end, b, s);
    var n, u := |a.log|, b.slots[s].Unread();
    PrefixOfPayloads(b.log, n, u);
  }

  lemma PrefixOfPayloads(log: seq<Entry>, n: nat, u: nat)
    requires n <= u <= |log|
    ensures PoolRuns.Payloads(log[n..u]) <= PoolRuns.Payloads(log[n..])
    ensures u == |log| ==> PoolRuns.Payloads(log[n..u]) == PoolRuns.Payloads(log[n..])
  {
  }

  lemma JoinedSim(w: M.Machine, a: State, s: nat)
    requires Sim(w, a) && s < SLOTS && M.Formed(w) && w.reap.NotReaping? && w.readers[s].NoReader?
    ensures Shape(a) && a.pub.Ready? && a.slots[s].Vacant? && Sim(M.Exec(w, M.On(PoolRuns.DoJoin(s))), Join(a, s))
    ensures Join(a, s).log == a.log
  {
    hide Inv, Represents, PoolRuns.Apply;
    SimForms(w, a);
    ReaderOf(w, a, s);
    JoinIs(a, s);
    JoinSim(w, a, s);
  }

  lemma GivenIs(w: M.Machine, a: State, s: nat)
    requires Sim(w, a) && s < SLOTS && Shape(a) && a.slots[s].Used?
    ensures M.Formed(w) && w.Machine? && w.readers[s].Reader? && w.readers[s].given == a.inbox[s]
    ensures w.readers[s].at.AtLoop? && w.readers[s].readIndex == w.m.wr ==> a.slots[s].Unread() == |a.log|
  {
    hide Inv, Represents, SubscriberSide.SeqOk, SubscriberSide.DescriptorsOf;
    SimForms(w, a);
    ReaderOf(w, a, s);
  }

  /** Whenever a live reader has something unread, in any run: where its index points is a descriptor of an allocatable
      chunk with the magic, and the number is the one it expects. */
  lemma NextMessageIsSound(start: M.Machine, steps: seq<M.Step>, s: nat)
    requires M.IsStart(start) && s < SLOTS && M.Formed(start)
    requires var w := M.Run(start, steps);
             w.Machine? ==> w.readers[s].Reader? && w.readers[s].alive && w.readers[s].at.AtLoop?
                            && w.readers[s].readIndex != w.m.wr
    ensures var w := M.Run(start, steps);
            && w.Machine? && w.readers[s].readIndex < RING
            && var d := w.m.ring[w.readers[s].readIndex];
            && M.ChunkOf(d).Chunk? && U32At(w.m.data, d.offset) == MAGIC
            && w.readers[s].expected in {M.NO_SEQ, U32At(w.m.data, d.offset + 4)}
  {
    hide Sim, Inv, M.Run, PoolRuns.Run, M.IsStart, U32At;
    StartSim(start);
    RunSim(start, Init(), steps);
    var w, a := M.Run(start, steps), PoolRuns.Run(Init(), ProjectedRun(start, steps));
    SimForms(w, a);
    SoundHere(w, a, s);
  }

  lemma SoundHere(w: M.Machine, a: State, s: nat)
    requires Sim(w, a) && s < SLOTS && M.Formed(w)
    requires w.readers[s].Reader? && w.readers[s].alive && w.readers[s].at.AtLoop? && w.readers[s].readIndex != w.m.wr
    ensures w.readers[s].readIndex < RING
    ensures var d := w.m.ring[w.readers[s].readIndex];
            && M.ChunkOf(d).Chunk? && U32At(w.m.data, d.offset) == MAGIC
            && w.readers[s].expected in {M.NO_SEQ, U32At(w.m.data, d.offset + 4)}
  {
    hide Inv, Represents, PointRel, M.ChunkOf, U32At, DescriptorOf, Desc;
    SimForms(w, a);
    ReaderOf(w, a, s);
    AtLoopIsIdle(w.readers[s].at, a.slots[s], a.log);
    NextMessageIsThere(w.m, a, s);
    EntryIs(a, a.slots[s].next);
    DescLeads(a, a.slots[s].next);
    SubscriberSide.MessageBytes(w.m, a, s, DescriptorOf(a.log[a.slots[s].next]));
    SubscriberSide.NextNumber(w.readers[s].expected, a.slots[s]);
  }
}
