/** The attachment batch on the wire: 13 bytes of metadata and three file descriptors per attachment. */
module Wire {
  import opened Bytes

  const MAX_ATTACHMENTS := 10
  const METADATA := 13                // id, topic, slot
  const BATCH_TYPE: Byte := 5         // SubscriberAttachmentBatch
  const U64_LIMIT := U32_LIMIT * U32_LIMIT

  datatype Item = Item(id: nat, topic: Byte, slot: nat, shm: int, space: int, data: int)

  datatype Packet = Packet(bytes: seq<Byte>, fds: seq<int>)

  datatype Result<T> = Ok(value: T) | Err

  predicate Fits(e: Item) {
    e.id < U64_LIMIT && e.slot < U32_LIMIT
  }

  function Metadata(e: Item): (m: seq<Byte>)
    requires Fits(e)
    ensures |m| == METADATA
  {
    U32Bytes(e.id % U32_LIMIT) + U32Bytes(e.id / U32_LIMIT) + [e.topic] + U32Bytes(e.slot)
  }

  /** What a receiver reads from one entry's metadata and descriptors. */
  function ItemOf(m: seq<Byte>, fds: seq<int>): (e: Item)
    requires |m| == METADATA && |fds| == 3
  {
    Item(U32Of(m[..4]) + U32_LIMIT * U32Of(m[4..8]), m[8], U32Of(m[9..13]), fds[0], fds[1], fds[2])
  }

  lemma HighAndLow(id: nat)
    requires id < U64_LIMIT
    ensures id / U32_LIMIT < U32_LIMIT && id == id % U32_LIMIT + U32_LIMIT * (id / U32_LIMIT)
  {
  }

  lemma ItemRoundTrip(e: Item)
    requires Fits(e)
    ensures ItemOf(Metadata(e), [e.shm, e.space, e.data]) == e
  {
    HighAndLow(e.id);
    hide U32Bytes, U32Of;
    var m := Metadata(e);
    var low, high, slot := U32Bytes(e.id % U32_LIMIT), U32Bytes(e.id / U32_LIMIT), U32Bytes(e.slot);
    assert m[..4] == low && m[4..8] == high && m[8] == e.topic && m[9..13] == slot;
    U32RoundTrip(e.id % U32_LIMIT);
    U32RoundTrip(e.id / U32_LIMIT);
    U32RoundTrip(e.slot);
  }

  lemma U32BytesOf(bytes: seq<Byte>)
    requires |bytes| == 4
    ensures U32Of(bytes) < U32_LIMIT && U32Bytes(U32Of(bytes)) == bytes
  {
    var b0: int, b1: int, b2: int, b3: int := bytes[0], bytes[1], bytes[2], bytes[3];
    var v := U32Of(bytes);
    assert v % 256 == b0 && v / 256 == b1 + 256 * b2 + 65536 * b3;
    assert v / 65536 == b2 + 256 * b3 && v / 16777216 == b3;
  }

  lemma MetadataRoundTrip(m: seq<Byte>, fds: seq<int>)
    requires |m| == METADATA && |fds| == 3
    ensures Fits(ItemOf(m, fds)) && Metadata(ItemOf(m, fds)) == m
  {
    U32BytesOf(m[..4]);
    U32BytesOf(m[4..8]);
    U32BytesOf(m[9..13]);
    hide U32Bytes, U32Of;
    var e := ItemOf(m, fds);
    Recombine(U32Of(m[..4]), U32Of(m[4..8]));
    assert m == m[..4] + m[4..8] + [m[8]] + m[9..13];
  }

  lemma Recombine(low: nat, high: nat)
    requires low < U32_LIMIT && high < U32_LIMIT
    ensures low + U32_LIMIT * high < U64_LIMIT
    ensures (low + U32_LIMIT * high) % U32_LIMIT == low && (low + U32_LIMIT * high) / U32_LIMIT == high
  {
  }

  // ---------- Whole batches ----------

  predicate AllFit(es: seq<Item>) {
    forall i: nat | i < |es| :: Fits(es[i])
  }

  function Body(es: seq<Item>): (b: seq<Byte>)
    requires AllFit(es)
    ensures |b| == METADATA * |es|
  {
    if es == [] then [] else Body(es[..|es| - 1]) + Metadata(es[|es| - 1])
  }

  function Fds(es: seq<Item>): (f: seq<int>)
    ensures |f| == 3 * |es|
  {
    if es == [] then [] else
      var e := es[|es| - 1];
      Fds(es[..|es| - 1]) + [e.shm, e.space, e.data]
  }

  function Encoded(es: seq<Item>): Packet
    requires AllFit(es)
  {
    Packet([BATCH_TYPE] + Body(es), Fds(es))
  }

  /** A batch a receiver accepts: whole entries, and three descriptors for each. */
  predicate WellFormed(p: Packet) {
    && |p.bytes| >= 1 && p.bytes[0] == BATCH_TYPE
    && (|p.bytes| - 1) % METADATA == 0 && |p.fds| == 3 * ((|p.bytes| - 1) / METADATA)
  }

  function ItemAt(p: Packet, i: nat): Item
    requires 1 + METADATA * (i + 1) <= |p.bytes| && 3 * (i + 1) <= |p.fds|
  {
    ItemOf(p.bytes[1 + METADATA * i..1 + METADATA * (i + 1)], p.fds[3 * i..3 * (i + 1)])
  }

  function Decoded(p: Packet): (es: seq<Item>)
    requires WellFormed(p)
    ensures |es| == (|p.bytes| - 1) / METADATA
  {
    seq((|p.bytes| - 1) / METADATA, i requires 0 <= i < (|p.bytes| - 1) / METADATA => ItemAt(p, i))
  }

  lemma {:induction false} PartOfBatch(es: seq<Item>, i: nat)
    requires AllFit(es) && i < |es|
    ensures Body(es)[METADATA * i..METADATA * (i + 1)] == Metadata(es[i])
    ensures Fds(es)[3 * i..3 * (i + 1)] == [es[i].shm, es[i].space, es[i].data]
  {
    hide Metadata;
    var short := es[..|es| - 1];
    if i < |es| - 1 {
      PartOfBatch(short, i);
      assert Body(es)[..|Body(short)|] == Body(short) && Fds(es)[..|Fds(short)|] == Fds(short);
      assert Body(es)[METADATA * i..METADATA * (i + 1)] == Body(short)[METADATA * i..METADATA * (i + 1)];
      assert Fds(es)[3 * i..3 * (i + 1)] == Fds(short)[3 * i..3 * (i + 1)];
    }
  }

  lemma ItemOfEncoded(es: seq<Item>, i: nat)
    requires AllFit(es) && i < |es|
    ensures 1 + METADATA * (i + 1) <= |Encoded(es).bytes| && 3 * (i + 1) <= |Encoded(es).fds|
    ensures ItemAt(Encoded(es), i) == es[i]
  {
    hide Metadata, ItemOf;
    var p := Encoded(es);
    PartOfBatch(es, i);
    assert p.bytes[1 + METADATA * i..1 + METADATA * (i + 1)] == Body(es)[METADATA * i..METADATA * (i + 1)];
    ItemRoundTrip(es[i]);
  }

  /** Parsing an encoded batch gives back the same entries, whatever their number. */
  lemma EncodeThenDecode(es: seq<Item>)
    requires AllFit(es)
    ensures WellFormed(Encoded(es)) && Decoded(Encoded(es)) == es
  {
    hide ItemAt;
    forall i: nat | i < |es|
      ensures 1 + METADATA * (i + 1) <= |Encoded(es).bytes| && 3 * (i + 1) <= |Encoded(es).fds|
      ensures ItemAt(Encoded(es), i) == es[i]
    {
      ItemOfEncoded(es, i);
    }
  }

  /** Where the parts of entry `i` are in the packet: the id, the topic and the slot in its 13 bytes after the type
      byte, then the mapping, the space event and the data event among the descriptors. */
  lemma EntryLayout(es: seq<Item>, i: nat)
    requires AllFit(es) && i < |es|
    ensures var p, at := Encoded(es), 1 + 13 * i;
            && |p.bytes| == 1 + 13 * |es| && |p.fds| == 3 * |es| && p.bytes[0] == 5 && at + 13 <= |p.bytes|
            && U32Of(p.bytes[at..at + 4]) + 0x1_0000_0000 * U32Of(p.bytes[at + 4..at + 8]) == es[i].id
            && p.bytes[at + 8] == es[i].topic && U32Of(p.bytes[at + 9..at + 13]) == es[i].slot
            && p.fds[3 * i] == es[i].shm && p.fds[3 * i + 1] == es[i].space && p.fds[3 * i + 2] == es[i].data
  {
    ItemOfEncoded(es, i);
    hide Metadata, U32Of, Body, Fds;
    var p, at := Encoded(es), 1 + 13 * i;
    var m, f := p.bytes[at..at + 13], p.fds[3 * i..3 * (i + 1)];
    assert ItemOf(m, f) == es[i];
    assert m[..4] == p.bytes[at..at + 4] && m[4..8] == p.bytes[at + 4..at + 8] && m[9..13] == p.bytes[at + 9..at + 13];
  }

  lemma DecodedFits(p: Packet)
    requires WellFormed(p)
    ensures AllFit(Decoded(p))
  {
    hide ItemOf, Fits;
    forall i: nat | i < |Decoded(p)|
      ensures Fits(Decoded(p)[i])
    {
      MetadataRoundTrip(p.bytes[1 + METADATA * i..1 + METADATA * (i + 1)], p.fds[3 * i..3 * (i + 1)]);
    }
  }

  lemma DescriptorsOf(m: seq<Byte>, f: seq<int>)
    requires |m| == METADATA && |f| == 3
    ensures var e := ItemOf(m, f); [e.shm, e.space, e.data] == f
  {
  }

  /** Entry `i` of a well-formed packet encodes to its own bytes and descriptors. */
  lemma PartOfPacket(p: Packet, i: nat)
    requires WellFormed(p) && i < |Decoded(p)| && AllFit(Decoded(p))
    ensures Body(Decoded(p))[METADATA * i..METADATA * (i + 1)] == p.bytes[1 + METADATA * i..1 + METADATA * (i + 1)]
    ensures Fds(Decoded(p))[3 * i..3 * (i + 1)] == p.fds[3 * i..3 * (i + 1)]
  {
    hide Metadata, ItemOf, Body, Fds, Fits;
    var m, f := p.bytes[1 + METADATA * i..1 + METADATA * (i + 1)], p.fds[3 * i..3 * (i + 1)];
    PartOfBatch(Decoded(p), i);
    MetadataRoundTrip(m, f);
    DescriptorsOf(m, f);
  }

  lemma SameParts<T>(x: seq<T>, y: seq<T>, size: nat, n: nat)
    requires |x| == |y| == size * n && (size == 13 || size == 3)
    requires forall i: nat {:trigger x[size * i..size * (i + 1)]} | i < n ::
      x[size * i..size * (i + 1)] == y[size * i..size * (i + 1)]
    ensures x == y
  {
    forall k: nat | k < |x|
      ensures x[k] == y[k]
    {
      var i, j := k / size, k % size;
      assert x[size * i..size * (i + 1)][j] == x[k] && y[size * i..size * (i + 1)][j] == y[k];
    }
  }

  /** Every well-formed packet is the encoding of what is parsed from it. */
  lemma DecodeThenEncode(p: Packet)
    requires WellFormed(p)
    ensures AllFit(Decoded(p)) && Encoded(Decoded(p)) == p
  {
    DecodedFits(p);
    hide Body, Fds, Decoded, Fits;
    var n := |Decoded(p)|;
    var es, rest := Decoded(p), p.bytes[1..];
    forall i: nat | i < n
      ensures Body(es)[METADATA * i..METADATA * (i + 1)] == rest[METADATA * i..METADATA * (i + 1)]
      ensures Fds(es)[3 * i..3 * (i + 1)] == p.fds[3 * i..3 * (i + 1)]
    {
      PartOfPacket(p, i);
      assert rest[METADATA * i..METADATA * (i + 1)] == p.bytes[1 + METADATA * i..1 + METADATA * (i + 1)];
    }
    SameParts(Body(es), rest, METADATA, n);
    SameParts(Fds(es), p.fds, 3, n);
    assert p.bytes == [p.bytes[0]] + rest;
  }

  // ---------- The two ends ----------

  method EncodeBatch(es: seq<Item>) returns (r: Result<Packet>)
    requires AllFit(es)
    ensures r == if |es| > 10 then Err else Ok(Encoded(es))
  {
    if |es| > MAX_ATTACHMENTS {
      return Err;
    }
    hide Metadata;
    var bytes, fds := [BATCH_TYPE], [];
    for i := 0 to |es|
      invariant bytes == [BATCH_TYPE] + Body(es[..i]) && fds == Fds(es[..i])
    {
      assert es[..i + 1][..i] == es[..i];
      bytes := bytes + Metadata(es[i]);
      fds := fds + [es[i].shm, es[i].space, es[i].data];
    }
    assert es[..|es|] == es;
    r := Ok(Packet(bytes, fds));
  }

  method ParseBatch(p: Packet) returns (r: Result<seq<Item>>)
    requires |p.bytes| >= 1 && p.bytes[0] == BATCH_TYPE
    ensures r == if WellFormed(p) then Ok(Decoded(p)) else Err
  {
    hide ItemAt;
    var length := |p.bytes| - 1;
    if length % METADATA != 0 {
      return Err;
    }
    var count := length / METADATA;
    if count == 0 {
      if p.fds != [] {
        return Err;
      }
      assert Decoded(p) == [];
      return Ok([]);
    }
    if |p.fds| != count * 3 {
      return Err;
    }
    var es: seq<Item> := [];
    for i := 0 to count
      invariant es == Decoded(p)[..i]
    {
      es := es + [ItemAt(p, i)];
    }
    assert Decoded(p)[..count] == Decoded(p);
    r := Ok(es);
  }
}
