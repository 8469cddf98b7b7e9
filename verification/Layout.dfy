/** The fixed layout of one publisher's shared memory: five size classes of chunks that tile
    the payload pool, and the arithmetic that turns a (class, offset) pair into a chunk index. */
module Layout {

  const RING := 16             // descriptor slots
  const SLOTS := 16            // subscriber slots
  const CLASSES := 5
  const CHUNKS := 128
  const POOL_BYTES := 21504
  const HEADER_BYTES := 8      // magic and sequence number
  const MAX_PAYLOAD := 1016
  const INVALID_INDEX := 0xFFFF_FFFF
  const INVALID_OFFSET := 0xFFFF_FFFF
  const MAGIC := 21354532

  function ClassSize(k: nat): nat
    requires k < CLASSES
  {
    if k == 0 then 16 else if k == 1 then 128 else if k == 2 then 256 else if k == 3 then 512 else 1024
  }

  function ClassChunks(k: nat): nat
    requires k < CLASSES
  {
    if k == 0 then 64 else if k == 1 then 32 else if k == 2 then 16 else 8
  }

  function IndexBase(k: nat): nat
    requires k < CLASSES
  {
    if k == 0 then 0 else if k == 1 then 64 else if k == 2 then 96 else if k == 3 then 112 else 120
  }

  function FirstOffset(k: nat): nat
    requires k < CLASSES
  {
    if k == 0 then 0 else if k == 1 then 1024 else if k == 2 then 5120 else if k == 3 then 9216 else 13312
  }

  function LastOffset(k: nat): nat
    requires k < CLASSES
  {
    (if k + 1 < CLASSES then FirstOffset(k + 1) else POOL_BYTES) - ClassSize(k)
  }

  /** The first class that holds `size` bytes, or -1. */
  function SizeClass(size: nat): (k: int)
    ensures -1 <= k < CLASSES
    ensures k >= 0 ==> size <= ClassSize(k) && forall j: nat | j < k :: ClassSize(j) < size
    ensures k < 0 <==> forall j: nat | j < CLASSES :: ClassSize(j) < size
  {
    if size <= ClassSize(0) then 0
    else if size <= ClassSize(1) then 1
    else if size <= ClassSize(2) then 2
    else if size <= ClassSize(3) then 3
    else if size <= ClassSize(4) then 4
    else assert forall j: nat | j < CLASSES :: ClassSize(j) <= ClassSize(4); -1
  }

  method FindSizeClass(size: nat) returns (k: int)
    ensures k == SizeClass(size)
  {
    for i := 0 to CLASSES
      invariant forall j: nat | j < i :: ClassSize(j) < size
    {
      if size <= ClassSize(i) {
        return i;
      }
    }
    return -1;
  }

  /** An offset the allocator may hand out for class `k`. */
  predicate IsChunkOffset(k: nat, offset: nat)
    requires k < CLASSES
  {
    FirstOffset(k) <= offset <= LastOffset(k) && (offset - FirstOffset(k)) % ClassSize(k) == 0
  }

  /** The chunk index every endpoint recomputes from a descriptor. */
  function ChunkIndex(k: nat, offset: nat): nat
    requires k < CLASSES && FirstOffset(k) <= offset
  {
    IndexBase(k) + (offset - FirstOffset(k)) / ClassSize(k)
  }

  function ClassOf(c: nat): (k: nat)
    requires c < CHUNKS
    ensures k < CLASSES && IndexBase(k) <= c < IndexBase(k) + ClassChunks(k)
  {
    if c < 64 then 0 else if c < 96 then 1 else if c < 112 then 2 else if c < 120 then 3 else 4
  }

  function OffsetOf(c: nat): nat
    requires c < CHUNKS
  {
    if c < 64 then 16 * c
    else if c < 96 then 1024 + 128 * (c - 64)
    else if c < 112 then 5120 + 256 * (c - 96)
    else if c < 120 then 9216 + 512 * (c - 112)
    else 13312 + 1024 * (c - 120)
  }

  function ChunkEnd(c: nat): nat
    requires c < CHUNKS
  {
    OffsetOf(c) + ClassSize(ClassOf(c))
  }

  lemma OffsetOfIsChunkOffset(c: nat)
    requires c < CHUNKS
    ensures IsChunkOffset(ClassOf(c), OffsetOf(c)) && ChunkIndex(ClassOf(c), OffsetOf(c)) == c
    ensures ChunkEnd(c) <= POOL_BYTES
  {
    if c < 64 { assert OffsetOf(c) == 16 * c && 16 * c % 16 == 0 && 16 * c / 16 == c; }
    else if c < 96 { Multiple(c - 64, 128); }
    else if c < 112 { Multiple(c - 96, 256); }
    else if c < 120 { Multiple(c - 112, 512); }
    else { Multiple(c - 120, 1024); }
  }

  lemma Multiple(i: nat, size: nat)
    requires i < 32 && size in {128, 256, 512, 1024}
    ensures size * i % size == 0 && size * i / size == i
  {
  }

  /** Recomputing an index and mapping it back is the identity: with the lemma above, the
      code's index arithmetic is a bijection between allocatable offsets and 0..127. */
  lemma ChunkIndexIsBijective(k: nat, offset: nat)
    requires k < CLASSES && IsChunkOffset(k, offset)
    ensures ChunkIndex(k, offset) < CHUNKS
    ensures ClassOf(ChunkIndex(k, offset)) == k && OffsetOf(ChunkIndex(k, offset)) == offset
  {
    if k == 0 { assert offset == 16 * (offset / 16); }
    else if k == 1 { assert offset - 1024 == 128 * ((offset - 1024) / 128); }
    else if k == 2 { assert offset - 5120 == 256 * ((offset - 5120) / 256); }
    else if k == 3 { assert offset - 9216 == 512 * ((offset - 9216) / 512); }
    else { assert offset - 13312 == 1024 * ((offset - 13312) / 1024); }
  }

  lemma ChunksAreDisjoint(c: nat, d: nat)
    requires c < CHUNKS && d < CHUNKS && c != d
    ensures ChunkEnd(c) <= OffsetOf(d) || ChunkEnd(d) <= OffsetOf(c)
  {
  }

  /** The chunk whose bytes contain position `p`. */
  function ChunkAt(p: nat): nat
    requires p < POOL_BYTES
  {
    if p < 1024 then p / 16
    else if p < 5120 then 64 + (p - 1024) / 128
    else if p < 9216 then 96 + (p - 5120) / 256
    else if p < 13312 then 112 + (p - 9216) / 512
    else 120 + (p - 13312) / 1024
  }

  /** Chunks tile the pool: every byte lies in exactly one chunk. */
  lemma ChunksTileThePool(p: nat, c: nat)
    requires p < POOL_BYTES && c < CHUNKS
    ensures ChunkAt(p) < CHUNKS
    ensures OffsetOf(c) <= p < ChunkEnd(c) <==> c == ChunkAt(p)
  {
    assert OffsetOf(ChunkAt(p)) <= p < ChunkEnd(ChunkAt(p));
    if c != ChunkAt(p) {
      ChunksAreDisjoint(c, ChunkAt(p));
    }
  }

  /** Both endpoints agree on the class: a message that fits no smaller class than the one its
      chunk came from is mapped back to that chunk by offset and length alone. */
  lemma DescriptorNamesItsChunk(c: nat, len: nat)
    requires c < CHUNKS && SizeClass(len) == ClassOf(c)
    ensures ChunkIndex(SizeClass(len), OffsetOf(c)) == c
    ensures OffsetOf(c) + len <= ChunkEnd(c)
  {
    OffsetOfIsChunkOffset(c);
  }

  lemma EveryPayloadHasAClass(size: nat)
    ensures SizeClass(HEADER_BYTES + size) >= 0 <==> size <= MAX_PAYLOAD
  {
    assert size > MAX_PAYLOAD ==> forall j: nat | j < CLASSES :: ClassSize(j) <= ClassSize(4);
  }
}
