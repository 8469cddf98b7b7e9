/** The endpoints at work on the words and bytes of one mapping, with nothing else to go by.

    Each step is one access an endpoint makes to the mapping, together with what it computes from it and from its own
    locals: a reader's index, expected number, descriptors copied out of the ring and place in the read loop; the
    publisher's sequence number and place in a reap. Steps of different endpoints come in any order. A check that
    fails, or an access that leaves the mapping, is a `Fault`. */
module MappingMachine {
  import opened Layout
  import opened Bytes
  import opened Bitmask
  import opened Memory
  import PoolRuns
  import PublisherSide

  const NO_SEQ := U32_LIMIT - 1

  /** Where a reader stands in its loop, with the descriptor it is working on. */
  datatype Point =
    | AtLoop
    | BitCleared(d: Descriptor, last: bool)
    | IndexStored(d: Descriptor)
    | MarkIsCleared(d: Descriptor)
    | TailIsLinked(d: Descriptor)
    | AtSignal

  datatype Reader =
    | NoReader
    | Reader(readIndex: nat, expected: nat, batch: seq<Descriptor>, at: Point, alive: bool, given: seq<seq<Byte>>)

  datatype Reap = NotReaping | Reap(slot: nat, index: nat, at: Stage)

  /** Where the release loop stands, with the descriptor whose chunk it appends. */
  datatype Stage =
    | AtDescriptor
    | LastBitCleared(d: Descriptor)
    | FreedUnmarked(d: Descriptor)
    | FreedLinked(d: Descriptor)

  datatype Machine = Machine(m: Snapshot, seqNo: nat, readers: seq<Reader>, reap: Reap) | Fault

  /** Loading descriptors is a step of its own; the others are those of the pool machine. */
  datatype Step = Load(slot: nat) | On(step: PoolRuns.Step)

  predicate Formed(w: Machine) {
    w.Machine? ==> Sizes(w.m) && |w.readers| == SLOTS && w.m.wr < RING
  }

  // ---------- What a descriptor leads to ----------

  datatype Found = Chunk(c: nat) | NoChunk

  function ChunkOf(d: Descriptor): (f: Found)
    ensures f.Chunk? ==>
      f.c < CHUNKS && 0 <= SizeClass(d.len) && HEADER_BYTES <= d.len && d.offset + d.len <= POOL_BYTES
  {
    var k := SizeClass(d.len);
    if k < 0 || d.offset < FirstOffset(k) || d.offset > LastOffset(k) then NoChunk
    else if d.len < HEADER_BYTES || d.offset + d.len > POOL_BYTES || ChunkIndex(k, d.offset) >= CHUNKS then NoChunk
    else Chunk(ChunkIndex(k, d.offset))
  }

  // ---------- Readers ----------

  function With(w: Machine, m: Snapshot, s: nat, r: Reader): Machine
    requires w.Machine? && s < |w.readers|
  {
    w.(m := m, readers := w.readers[s := r])
  }

  /** Copy descriptors out of the ring: up to its end if the write index has wrapped, else up to the write index. */
  function LoadBatch(w: Machine, s: nat): (r: Machine)
    requires Formed(w) && w.Machine? && s < SLOTS
    ensures Formed(r)
  {
    var reader := w.readers[s];
    if !reader.Reader? || !reader.alive || !reader.at.AtLoop? || reader.batch != [] then w
    else if reader.readIndex >= RING then Fault
    else
      var end := if reader.readIndex > w.m.wr then RING else w.m.wr;
      With(w, w.m, s, reader.(batch := w.m.ring[reader.readIndex..end]))
  }

  /** Check and read the next message and clear this reader's bit. */
  function ClearBit(w: Machine, s: nat): (r: Machine)
    requires Formed(w) && w.Machine? && s < SLOTS
    ensures Formed(r)
  {
    var reader := w.readers[s];
    if !CanRead(reader) then w
    else
      var d := reader.batch[0];
      match ChunkOf(d)
      case NoChunk => Fault
      case Chunk(c) =>
        var number := U32At(w.m.data, d.offset + 4);
        var expected := if reader.expected == NO_SEQ then number else reader.expected;
        if U32At(w.m.data, d.offset) != MAGIC || number != expected then Fault
        else
          var previous := w.m.masks[c];
          With(w, w.m.(masks := w.m.masks[c := Without(previous, Bit(s))]), s,
               reader.(expected := (expected + 1) % U32_LIMIT, batch := reader.batch[1..],
                       at := BitCleared(d, previous == Bit(s)),
                       given := reader.given + [w.m.data[d.offset + HEADER_BYTES..d.offset + d.len]]))
  }

  predicate CanRead(r: Reader) {
    r.Reader? && r.alive && r.at.AtLoop? && r.batch != []
  }

  function StoreIndex(w: Machine, s: nat): (r: Machine)
    requires Formed(w) && w.Machine? && s < SLOTS
    ensures Formed(r)
  {
    var reader := w.readers[s];
    if !reader.Reader? || !reader.alive || !reader.at.BitCleared? then w
    else
      var index := (reader.readIndex + 1) % RING;
      With(w, w.m.(rd := w.m.rd[s := index]), s,
           reader.(readIndex := index, at := if reader.at.last then IndexStored(reader.at.d) else AtLoop))
  }

  function ClearMark(w: Machine, s: nat): (r: Machine)
    requires Formed(w) && w.Machine? && s < SLOTS
    ensures Formed(r)
  {
    var reader := w.readers[s];
    if !reader.Reader? || !reader.alive || !reader.at.IndexStored? then w
    else
      var d := reader.at.d;
      match ChunkOf(d)
      case NoChunk => Fault
      case Chunk(c) =>
        if !w.m.inUse[c] then Fault
        else With(w, w.m.(inUse := w.m.inUse[c := false]), s, reader.(at := MarkIsCleared(d)))
  }

  function LinkTail(w: Machine, s: nat): (r: Machine)
    requires Formed(w) && w.Machine? && s < SLOTS
    ensures Formed(r)
  {
    var reader := w.readers[s];
    if !reader.Reader? || !reader.alive || !reader.at.MarkIsCleared? then w
    else
      var d := reader.at.d;
      if ChunkOf(d).NoChunk? then Fault
      else
        var k := SizeClass(d.len);
        if w.m.tail[k] + 4 > POOL_BYTES then Fault
        else With(w, w.m.(data := Splice(w.m.data, w.m.tail[k], U32Bytes(d.offset))), s, reader.(at := TailIsLinked(d)))
  }

  function MoveTail(w: Machine, s: nat): (r: Machine)
    requires Formed(w) && w.Machine? && s < SLOTS
    ensures Formed(r)
  {
    var reader := w.readers[s];
    if !reader.Reader? || !reader.alive || !reader.at.TailIsLinked? then w
    else
      var d := reader.at.d;
      if ChunkOf(d).NoChunk? then Fault
      else With(w, w.m.(tail := w.m.tail[SizeClass(d.len) := d.offset]), s, reader.(at := AtSignal))
  }

  function Signal(w: Machine, s: nat): (r: Machine)
    requires Formed(w) && w.Machine? && s < SLOTS
    ensures Formed(r)
  {
    var reader := w.readers[s];
    if !reader.Reader? || !reader.alive || !reader.at.AtSignal? then w
    else With(w, w.m, s, reader.(at := AtLoop))
  }

  function Die(w: Machine, s: nat): (r: Machine)
    requires Formed(w) && w.Machine? && s < SLOTS
    ensures Formed(r)
  {
    var reader := w.readers[s];
    if !reader.Reader? then w else With(w, w.m, s, reader.(alive := false))
  }

  // ---------- The publisher ----------

  /** The least valid index among the first `n` that lies above the write index, or not above it. */
  function LeastIndex(rd: seq<nat>, n: nat, wr: nat, above: bool): (least: nat)
    requires n <= |rd|
    ensures above ==> PublisherSide.LeastAbove(rd, n, wr, least)
    ensures !above ==> PublisherSide.LeastUpTo(rd, n, wr, least)
  {
    if n == 0 then INVALID_INDEX
    else
      var rest := LeastIndex(rd, n - 1, wr, above);
      var d := rd[n - 1];
      if d != INVALID_INDEX && (d > wr <==> above) && d < rest then d else rest
  }

  function SlowestIndex(rd: seq<nat>, wr: nat): nat
    requires |rd| == SLOTS
  {
    var before := LeastIndex(rd, SLOTS, wr, true);
    if before != INVALID_INDEX then before else LeastIndex(rd, SLOTS, wr, false)
  }

  /** The sum of the bits of the first `n` slots in use. */
  function SlotMask(rd: seq<nat>, n: nat): Mask
    requires n <= |rd| && n <= SLOTS
  {
    if n == 0 then 0
    else
      var rest := SlotMask(rd, n - 1);
      if rd[n - 1] == INVALID_INDEX then rest else Plus(rest, Bit(n - 1))
  }

  function UsedUpTo(rd: seq<nat>, n: nat): (slots: set<nat>)
    requires n <= |rd|
    ensures forall s: nat :: s in slots <==> s < n && rd[s] != INVALID_INDEX
  {
    set s: nat | s < n && rd[s] != INVALID_INDEX
  }

  lemma {:induction false} SlotMaskMeans(rd: seq<nat>, n: nat)
    requires n <= |rd| && n <= SLOTS
    ensures Means(SlotMask(rd, n), UsedUpTo(rd, n))
  {
    hide Means, Bit, Plus, UsedUpTo;
    if n == 0 {
      EmptyMask();
      assert UsedUpTo(rd, 0) == {};
    } else {
      SlotMaskMeans(rd, n - 1);
      var rest := UsedUpTo(rd, n - 1);
      if rd[n - 1] == INVALID_INDEX {
        assert UsedUpTo(rd, n) == rest;
      } else {
        FetchAdd(SlotMask(rd, n - 1), rest, n - 1);
        assert UsedUpTo(rd, n) == rest + {n - 1};
      }
    }
  }

  predicate Blocked(m: Snapshot, k: nat)
    requires Sizes(m) && k < CLASSES
  {
    PublisherSide.BackPressure(SlowestIndex(m.rd, m.wr), m.wr) || m.head[k] == m.tail[k]
  }

  function Publish(w: Machine, payload: seq<Byte>): (r: Machine)
    requires Formed(w) && w.Machine?
    ensures Formed(r)
  {
    var k := SizeClass(HEADER_BYTES + |payload|);
    if k < 0 || !w.reap.NotReaping? || Blocked(w.m, k) then w
    else
      var offset := w.m.head[k];
      var d := Descriptor(offset, HEADER_BYTES + |payload|);
      match ChunkOf(d)
      case NoChunk => Fault
      case Chunk(c) =>
        if w.m.inUse[c] || w.seqNo >= U32_LIMIT then Fault
        else
          w.(m := w.m.(ring := w.m.ring[w.m.wr := d],
                       head := w.m.head[k := U32At(w.m.data, offset)],
                       data := Splice(w.m.data, offset, Frame(w.seqNo, payload)),
                       masks := w.m.masks[c := Plus(w.m.masks[c], SlotMask(w.m.rd, SLOTS))],
                       inUse := w.m.inUse[c := true],
                       wr := (w.m.wr + 1) % RING),
             seqNo := (w.seqNo + 1) % U32_LIMIT)
  }

  function Join(w: Machine, s: nat): (r: Machine)
    requires Formed(w) && w.Machine? && s < SLOTS
    ensures Formed(r)
  {
    if !w.reap.NotReaping? || w.m.rd[s] != INVALID_INDEX then w
    else With(w, w.m.(rd := w.m.rd[s := w.m.wr]), s, Reader(w.m.wr, NO_SEQ, [], AtLoop, true, []))
  }

  function BeginReap(w: Machine, s: nat): (r: Machine)
    requires Formed(w) && w.Machine? && s < SLOTS
    ensures Formed(r)
  {
    if !w.reap.NotReaping? || !w.readers[s].Reader? || w.readers[s].alive then w
    else w.(reap := Reap(s, w.m.rd[s], AtDescriptor))
  }

  /** Clear the dead reader's bit on the next descriptor, if there is one left. */
  function ReapClear(w: Machine): (r: Machine)
    requires Formed(w) && w.Machine?
    ensures Formed(r)
  {
    if !w.reap.Reap? || !w.reap.at.AtDescriptor? || w.reap.index == w.m.wr then w
    else if w.reap.index >= RING || w.reap.slot >= SLOTS then Fault
    else
      var d, bit := w.m.ring[w.reap.index], Bit(w.reap.slot);
      match ChunkOf(d)
      case NoChunk => Fault
      case Chunk(c) =>
        w.(m := w.m.(masks := w.m.masks[c := Without(w.m.masks[c], bit)]),
           reap := if w.m.masks[c] == bit then w.reap.(at := LastBitCleared(d))
                   else w.reap.(index := (w.reap.index + 1) % RING))
  }

  function ReapUnmark(w: Machine): (r: Machine)
    requires Formed(w) && w.Machine?
    ensures Formed(r)
  {
    if !w.reap.Reap? || !w.reap.at.LastBitCleared? then w
    else
      var d := w.reap.at.d;
      match ChunkOf(d)
      case NoChunk => Fault
      case Chunk(c) =>
        if !w.m.inUse[c] then Fault
        else w.(m := w.m.(inUse := w.m.inUse[c := false]), reap := w.reap.(at := FreedUnmarked(d)))
  }

  function ReapLink(w: Machine): (r: Machine)
    requires Formed(w) && w.Machine?
    ensures Formed(r)
  {
    if !w.reap.Reap? || !w.reap.at.FreedUnmarked? then w
    else
      var d := w.reap.at.d;
      if ChunkOf(d).NoChunk? || w.m.tail[SizeClass(d.len)] + 4 > POOL_BYTES then Fault
      else
        w.(m := w.m.(data := Splice(w.m.data, w.m.tail[SizeClass(d.len)], U32Bytes(d.offset))),
           reap := w.reap.(at := FreedLinked(d)))
  }

  function ReapReturn(w: Machine): (r: Machine)
    requires Formed(w) && w.Machine?
    ensures Formed(r)
  {
    if !w.reap.Reap? || !w.reap.at.FreedLinked? then w
    else
      var d := w.reap.at.d;
      if ChunkOf(d).NoChunk? then Fault
      else
        w.(m := w.m.(tail := w.m.tail[SizeClass(d.len) := d.offset]),
           reap := w.reap.(at := AtDescriptor, index := (w.reap.index + 1) % RING))
  }

  function EndReap(w: Machine): (r: Machine)
    requires Formed(w) && w.Machine?
    ensures Formed(r)
  {
    if !w.reap.Reap? || !w.reap.at.AtDescriptor? || w.reap.index != w.m.wr then w
    else if w.reap.slot >= SLOTS then Fault
    else With(w.(reap := NotReaping), w.m.(rd := w.m.rd[w.reap.slot := INVALID_INDEX]), w.reap.slot, NoReader)
  }

  // ---------- Runs ----------

  function Exec(w: Machine, step: Step): (r: Machine)
    requires Formed(w)
    ensures Formed(r)
  {
    if w.Fault? then w
    else match step
      case Load(s) => if s < SLOTS then LoadBatch(w, s) else w
      case On(DoPublish(payload)) => Publish(w, payload)
      case On(DoJoin(s)) => if s < SLOTS then Join(w, s) else w
      case On(DoClear(s)) => if s < SLOTS then ClearBit(w, s) else w
      case On(DoStoreRead(s)) => if s < SLOTS then StoreIndex(w, s) else w
      case On(DoUnmark(s)) => if s < SLOTS then ClearMark(w, s) else w
      case On(DoLink(s)) => if s < SLOTS then LinkTail(w, s) else w
      case On(DoReturn(s)) => if s < SLOTS then MoveTail(w, s) else w
      case On(DoSignal(s)) => if s < SLOTS then Signal(w, s) else w
      case On(DoCrash(s)) => if s < SLOTS then Die(w, s) else w
      case On(DoBeginReap(s)) => if s < SLOTS then BeginReap(w, s) else w
      case On(DoReapClear) => ReapClear(w)
      case On(DoReapUnmark) => ReapUnmark(w)
      case On(DoReapLink) => ReapLink(w)
      case On(DoReapReturn) => ReapReturn(w)
      case On(DoEndReap) => EndReap(w)
  }

  function Run(w: Machine, steps: seq<Step>): (r: Machine)
    requires Formed(w)
    ensures Formed(r)
    decreases |steps|
  {
    if steps == [] then w else Run(Exec(w, steps[0]), steps[1..])
  }

  /** A mapping as initialisation leaves it - whatever the bytes outside the links - and no reader. */
  ghost predicate IsStart(w: Machine) {
    && w.Machine? && Sizes(w.m) && w.m.wr == 0 && w.seqNo == 0 && w.reap.NotReaping?
    && w.readers == seq(SLOTS, i => NoReader)
    && (forall s: nat | s < SLOTS :: w.m.rd[s] == INVALID_INDEX)
    && (forall c: nat | c < CHUNKS :: w.m.masks[c] == 0 && !w.m.inUse[c])
    && (forall k: nat | k < CLASSES :: w.m.head[k] == FirstOffset(k) && w.m.tail[k] == LastOffset(k))
    && (forall c: nat | c < CHUNKS && c + 1 < IndexBase(ClassOf(c)) + ClassChunks(ClassOf(c)) ::
      LinkOf(w.m.data, c) == OffsetOf(c) + ClassSize(ClassOf(c)))
  }
}
