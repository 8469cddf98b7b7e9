/** The shared mapping of one publisher, updated in place by every endpoint. */
module SharedMapping {
  import opened Layout
  import opened Bytes
  import opened Bitmask
  import opened Pool
  import opened PoolInvariant
  import opened Memory

  class SharedData {
    const rd: array<nat>             // descriptor_read_indices
    var wr: nat                      // descriptor_write_index
    const ring: array<Descriptor>    // desc_ring
    const head: array<nat>
    const tail: array<nat>
    const masks: array<Mask>         // chunk_reference_counts
    const data: array<Byte>
    const inUse: array<bool>         // chunk_usage_tracker

    /** The pool state the words and bytes stand for. */
    ghost var abs: State

    ghost function Repr(): set<object> {
      {this, rd, ring, head, tail, masks, data, inUse}
    }

    ghost predicate Distinct() {
      && rd != head && rd != tail && head != tail
      && (data as object) !in {rd as object, head, tail, ring, masks, inUse}
      && (masks as object) !in {rd as object, head, tail, ring, inUse}
      && (inUse as object) !in {rd as object, head, tail, ring}
      && (ring as object) !in {rd as object, head, tail}
    }

    ghost predicate Shaped() {
      && Distinct()
      && rd.Length == SLOTS && ring.Length == RING && head.Length == tail.Length == CLASSES
      && masks.Length == inUse.Length == CHUNKS && data.Length == POOL_BYTES
    }

    ghost function Snap(): Snapshot
      reads `wr, rd, ring, head, tail, masks, data, inUse
    {
      Snapshot(rd[..], wr, ring[..], head[..], tail[..], masks[..], data[..], inUse[..])
    }

    ghost predicate Valid()
      reads Repr()
    {
      Shaped() && Shape(abs) && Inv(abs) && Represents(Snap(), abs)
    }

    // ---------- Single stores ----------

    method StoreReadIndex(s: nat, v: nat)
      requires Shaped() && s < SLOTS
      modifies rd
      ensures Snap() == old(Snap()).(rd := old(Snap()).rd[s := v])
    {
      rd[s] := v;
    }

    method StoreDescriptor(i: nat, d: Descriptor)
      requires Shaped() && i < RING
      modifies ring
      ensures Snap() == old(Snap()).(ring := old(Snap()).ring[i := d])
    {
      ring[i] := d;
    }

    method StoreHead(k: nat, v: nat)
      requires Shaped() && k < CLASSES
      modifies head
      ensures Snap() == old(Snap()).(head := old(Snap()).head[k := v])
    {
      head[k] := v;
    }

    method StoreTail(k: nat, v: nat)
      requires Shaped() && k < CLASSES
      modifies tail
      ensures Snap() == old(Snap()).(tail := old(Snap()).tail[k := v])
    {
      tail[k] := v;
    }

    method FetchAnd(c: nat, bit: Mask) returns (previous: Mask)
      requires Shaped() && c < CHUNKS
      modifies masks
      ensures previous == old(Snap()).masks[c]
      ensures Snap() == old(Snap()).(masks := old(Snap()).masks[c := Without(previous, bit)])
    {
      previous := masks[c];
      masks[c] := previous & !bit;
      assert masks[..] == old(masks[..])[c := Without(previous, bit)];
    }

    method FetchAdd(c: nat, mask: Mask)
      requires Shaped() && c < CHUNKS
      modifies masks
      ensures Snap() == old(Snap()).(masks := old(Snap()).masks[c := Plus(old(Snap()).masks[c], mask)])
    {
      masks[c] := masks[c] + mask;
      assert masks[..] == old(masks[..])[c := Plus(old(masks[c]), mask)];
    }

    method Mark(c: nat, used: bool)
      requires Shaped() && c < CHUNKS
      modifies inUse
      ensures Snap() == old(Snap()).(inUse := old(Snap()).inUse[c := used])
    {
      inUse[c] := used;
      assert inUse[..] == old(inUse[..])[c := used];
    }

    /** memcpy into the payload pool. */
    method Copy(at: nat, bytes: seq<Byte>)
      requires Shaped() && at + |bytes| <= POOL_BYTES
      modifies data
      ensures Snap() == old(Snap()).(data := Splice(old(Snap()).data, at, bytes))
    {
      for i := 0 to |bytes|
        invariant data[..] == old(data[..at]) + bytes[..i] + old(data[at + i..])
      {
        data[at + i] := bytes[i];
        assert bytes[..i + 1] == bytes[..i] + [bytes[i]];
      }
      assert bytes[..|bytes|] == bytes;
    }

    method LoadU32(at: nat) returns (v: nat)
      requires Shaped() && at + 4 <= POOL_BYTES
      ensures v == U32At(Snap().data, at)
    {
      v := U32Of(data[at..at + 4]);
      assert data[at..at + 4] == data[..][at..at + 4];
    }

    method LoadBytes(at: nat, n: nat) returns (bytes: seq<Byte>)
      requires Shaped() && at + n <= POOL_BYTES
      ensures |Snap().data| == POOL_BYTES && bytes == Snap().data[at..at + n]
    {
      bytes := data[at..at + n];
      assert bytes == data[..][at..at + n];
    }

    method IsMarked(c: nat) returns (used: bool)
      requires Shaped() && c < CHUNKS
      ensures |Snap().inUse| == CHUNKS && used == Snap().inUse[c]
    {
      used := inUse[c];
    }

    // Both endpoints append a chunk to its free list with the same three stores.

    method Unmark(k: nat, offset: nat, ghost c: nat)
      requires Shaped() && Sizes(Snap()) && c < CHUNKS && k == ClassOf(c)
      requires FirstOffset(k) <= offset && ChunkIndex(k, offset) == c
      modifies inUse
      ensures Snap() == MarkCleared(old(Snap()), c)
    {
      hide ChunkIndex, ClassOf, FirstOffset;
      Mark(ChunkIndex(k, offset), false);
    }

    method LinkTail(k: nat, offset: nat, ghost c: nat)
      requires Shaped() && Sizes(Snap()) && c < CHUNKS && k == ClassOf(c) && offset == OffsetOf(c) < U32_LIMIT
      requires Snap().tail[k] + 4 <= POOL_BYTES
      modifies data
      ensures Snap() == LinkWritten(old(Snap()), c)
    {
      hide Splice, OffsetOf, U32Bytes, ClassOf;
      var last := tail[k];
      Copy(last, U32Bytes(offset));
    }

    method MoveTail(k: nat, offset: nat, ghost c: nat)
      requires Shaped() && Sizes(Snap()) && c < CHUNKS && k == ClassOf(c) && offset == OffsetOf(c)
      modifies tail
      ensures Snap() == TailMoved(old(Snap()), c)
    {
      hide OffsetOf, ClassOf;
      StoreTail(k, offset);
    }

    // ---------- Initialisation ----------

    method InitEnds()
      requires Shaped()
      modifies head, tail
      ensures forall k: nat | k < CLASSES :: head[k] == FirstOffset(k) && tail[k] == LastOffset(k)
    {
      head[0] := 0;
      for i := 1 to CLASSES
        invariant forall k: nat | k < i :: head[k] == FirstOffset(k)
      {
        head[i] := head[i - 1] + ClassSize(i - 1) * ClassChunks(i - 1);
      }
      for i := 0 to CLASSES - 1
        invariant forall k: nat | k < CLASSES :: head[k] == FirstOffset(k)
        invariant forall k: nat | k < i :: tail[k] == LastOffset(k)
      {
        tail[i] := head[i + 1] - ClassSize(i);
      }
      tail[CLASSES - 1] := POOL_BYTES - ClassSize(CLASSES - 1);
    }

    /** Thread the free list of class `k` through its chunks, in address order. */
    method LinkClass(k: nat)
      requires Shaped() && k < CLASSES && head[k] == FirstOffset(k)
      modifies data
      ensures AreChunks(ClassList(k)) && Linked(data[..], ClassList(k))
      ensures forall c: nat | c < CHUNKS && ClassOf(c) != k :: LinkOf(data[..], c) == old(LinkOf(data[..], c))
    {
      var offset := head[k];
      ghost var base := IndexBase(k);
      InClass(k, 0);
      for i := 0 to ClassChunks(k) - 1
        invariant base + i < CHUNKS && ClassOf(base + i) == k && offset == OffsetOf(base + i)
        invariant AreChunks(ClassList(k)[..i + 1]) && Linked(data[..], ClassList(k)[..i + 1])
        invariant forall c: nat | c < CHUNKS && ClassOf(c) != k :: LinkOf(data[..], c) == old(LinkOf(data[..], c))
      {
        var next := offset + ClassSize(k);
        InClass(k, i + 1);
        ghost var before := data[..];
        StoreLink(offset, base + i, next);
        ExtendLinks(before, data[..], k, i);
        offset := next;
      }
      ghost var before := data[..];
      StoreLink(offset, base + ClassChunks(k) - 1, INVALID_OFFSET);
      assert ClassList(k)[..ClassChunks(k)] == ClassList(k);
      KeepAllButLast(before, data[..], k);
    }

    method StoreLink(offset: nat, ghost c: nat, v: nat)
      requires Shaped() && c < CHUNKS && v < U32_LIMIT && offset == OffsetOf(c)
      modifies data
      ensures LinkOf(data[..], c) == v
      ensures forall d: nat | d < CHUNKS && d != c :: LinkOf(data[..], d) == old(LinkOf(data[..], d))
    {
      OffsetOfIsChunkOffset(c);
      hide OffsetOf, U32Bytes, Splice, ClassSize, ClassOf, U32Of;
      ghost var before := data[..];
      Copy(offset, U32Bytes(v));
      U32RoundTrip(v);
      forall d: nat | d < CHUNKS && d != c
        ensures LinkOf(data[..], d) == LinkOf(before, d)
      {
        SmallestClass(c);
        SmallestClass(d);
        WriteKeepsRange(before, c, U32Bytes(v), d, 4);
      }
    }

    /** Free-list heads, tails and links, class by class. */
    method BuildFreeLists()
      requires Shaped()
      modifies head, tail, data
      ensures forall k: nat | k < CLASSES :: head[k] == FirstOffset(k) && tail[k] == LastOffset(k)
      ensures forall k: nat | k < CLASSES :: AreChunks(ClassList(k)) && Linked(data[..], ClassList(k))
    {
      hide Linked, ClassList, FirstOffset, LastOffset, AreChunks, ClassOf, LinkOf;
      InitEnds();
      for k := 0 to CLASSES
        invariant forall j: nat | j < CLASSES :: head[j] == FirstOffset(j) && tail[j] == LastOffset(j)
        invariant forall j: nat | j < k :: AreChunks(ClassList(j)) && Linked(data[..], ClassList(j))
      {
        ghost var before := data[..];
        LinkClass(k);
        forall j: nat | j < k
          ensures Linked(data[..], ClassList(j))
        {
          KeepLinks(before, data[..], j, k);
        }
      }
    }

    /** No reader, no holder, nothing in use. */
    method ClearTables()
      requires Shaped()
      modifies `wr, rd, masks, inUse
      ensures wr == 0 && forall s: nat | s < SLOTS :: rd[s] == INVALID_INDEX
      ensures forall c: nat | c < CHUNKS :: masks[c] == 0 && !inUse[c]
    {
      for i := 0 to SLOTS
        invariant forall s: nat | s < i :: rd[s] == INVALID_INDEX
      {
        rd[i] := INVALID_INDEX;
      }
      wr := 0;
      for i := 0 to CHUNKS
        invariant wr == 0 && forall c: nat | c < i :: masks[c] == 0 && !inUse[c]
        invariant forall s: nat | s < SLOTS :: rd[s] == INVALID_INDEX
      {
        masks[i] := 0;
        inUse[i] := false;
      }
    }

    /** Whatever the mapping held before, it then represents the empty pool. */
    method Initialize()
      requires Shaped()
      modifies Repr()
      ensures Valid() && abs == Init()
      ensures wr == 0 && forall s: nat | s < 16 :: rd[s] == 0xFFFF_FFFF
    {
      hide Inv, Represents, Linked, Init, ClassList, FirstOffset, LastOffset, AreChunks, ClassOf, LinkOf, ClassSize;
      ClearTables();
      BuildFreeLists();
      InitRepresents(Snap());
      InitLists();
      abs := Init();
    }

    constructor ()
      ensures Valid() && fresh(Repr()) && abs == Init()
    {
      hide Inv, Represents;
      rd := new nat[SLOTS];
      ring := new Descriptor[RING];
      head, tail := new nat[CLASSES], new nat[CLASSES];
      masks := new Mask[CHUNKS];
      data := new Byte[POOL_BYTES];
      inUse := new bool[CHUNKS];
      new;
      Initialize();
    }
  }

  lemma InClass(k: nat, i: nat)
    requires k < CLASSES && i < ClassChunks(k)
    ensures IndexBase(k) + i < CHUNKS && ClassOf(IndexBase(k) + i) == k
    ensures OffsetOf(IndexBase(k) + i) < POOL_BYTES
    ensures i == 0 ==> OffsetOf(IndexBase(k)) == FirstOffset(k)
    ensures i > 0 ==> OffsetOf(IndexBase(k) + i) == OffsetOf(IndexBase(k) + i - 1) + ClassSize(k)
  {
  }

  lemma ListIsDistinct(k: nat, i: nat)
    requires k < CLASSES && i <= ClassChunks(k)
    ensures AreChunks(ClassList(k)[..i]) && NoDup(ClassList(k)[..i])
  {
    forall j: nat | j < i
      ensures ClassList(k)[..i][j] < CHUNKS
    {
      InClass(k, j);
    }
  }

  lemma ExtendLinks(before: seq<Byte>, after: seq<Byte>, k: nat, i: nat)
    requires |before| == |after| == POOL_BYTES && k < CLASSES && i + 1 < ClassChunks(k)
    requires IndexBase(k) + i + 1 < CHUNKS
    requires AreChunks(ClassList(k)[..i + 1]) && Linked(before, ClassList(k)[..i + 1])
    requires LinkOf(after, IndexBase(k) + i) == OffsetOf(IndexBase(k) + i + 1)
    requires forall d: nat | d < CHUNKS && d != IndexBase(k) + i :: LinkOf(after, d) == LinkOf(before, d)
    ensures AreChunks(ClassList(k)[..i + 2]) && Linked(after, ClassList(k)[..i + 2])
  {
    ListIsDistinct(k, i + 2);
    hide OffsetOf, LinkOf;
    var short, long := ClassList(k)[..i + 1], ClassList(k)[..i + 2];
    forall j: nat | j + 1 < |long|
      ensures LinkOf(after, long[j]) == OffsetOf(long[j + 1])
    {
      if j + 1 < |short| {
        assert long[j] == short[j] && long[j + 1] == short[j + 1];
      }
    }
  }

  lemma KeepAllButLast(before: seq<Byte>, after: seq<Byte>, k: nat)
    requires |before| == |after| == POOL_BYTES && k < CLASSES
    requires AreChunks(ClassList(k)) && Linked(before, ClassList(k))
    requires forall d: nat | d < CHUNKS && d != IndexBase(k) + ClassChunks(k) - 1 ::
      LinkOf(after, d) == LinkOf(before, d)
    ensures Linked(after, ClassList(k))
  {
    hide OffsetOf, LinkOf;
  }

  lemma KeepLinks(before: seq<Byte>, after: seq<Byte>, j: nat, k: nat)
    requires |before| == |after| == POOL_BYTES && j < CLASSES && k < CLASSES && j != k
    requires AreChunks(ClassList(j)) && Linked(before, ClassList(j))
    requires forall c: nat | c < CHUNKS && ClassOf(c) != k :: LinkOf(after, c) == LinkOf(before, c)
    ensures Linked(after, ClassList(j))
  {
    hide OffsetOf, LinkOf;
    forall i: nat | i < ClassChunks(j)
      ensures ClassOf(ClassList(j)[i]) == j
    {
      InClass(j, i);
    }
  }
}
