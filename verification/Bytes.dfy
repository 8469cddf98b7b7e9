/** Little-endian integers and in-place byte ranges, as the endpoints copy them with memcpy. */
module Bytes {

  type Byte = b: int | 0 <= b < 256

  const U32_LIMIT := 0x1_0000_0000

  function U32Bytes(v: nat): (bytes: seq<Byte>)
    requires v < U32_LIMIT
    ensures |bytes| == 4
  {
    [v % 256, v / 256 % 256, v / 65536 % 256, v / 16777216]
  }

  function U32Of(bytes: seq<Byte>): nat
    requires |bytes| == 4
  {
    var b0: int, b1: int, b2: int, b3: int := bytes[0], bytes[1], bytes[2], bytes[3];
    b0 + 256 * b1 + 65536 * b2 + 16777216 * b3
  }

  lemma U32RoundTrip(v: nat)
    requires v < U32_LIMIT
    ensures U32Of(U32Bytes(v)) == v
  {
  }

  /** The least significant byte comes first. */
  lemma LeastByteFirst(v: nat)
    requires v < U32_LIMIT
    ensures var b0: int, b1: int, b2: int, b3: int := U32Bytes(v)[0], U32Bytes(v)[1], U32Bytes(v)[2], U32Bytes(v)[3];
            v == b0 + 0x100 * b1 + 0x1_0000 * b2 + 0x100_0000 * b3
  {
    var one, two, three := v / 256, v / 65536, v / 16777216;
    assert v == v % 256 + 256 * one && one == one % 256 + 256 * two && two == two % 256 + 256 * three;
  }

  /** The integer stored at `at`. */
  function U32At(data: seq<Byte>, at: nat): nat
    requires at + 4 <= |data|
  {
    U32Of(data[at..at + 4])
  }

  /** `data` with `bytes` copied over position `at`. */
  function Splice(data: seq<Byte>, at: nat, bytes: seq<Byte>): (r: seq<Byte>)
    requires at + |bytes| <= |data|
    ensures |r| == |data|
    ensures r[at..at + |bytes|] == bytes
  {
    data[..at] + bytes + data[at + |bytes|..]
  }

  lemma SpliceElsewhere(data: seq<Byte>, at: nat, bytes: seq<Byte>, lo: nat, hi: nat)
    requires at + |bytes| <= |data| && lo <= hi <= |data|
    requires hi <= at || at + |bytes| <= lo
    ensures Splice(data, at, bytes)[lo..hi] == data[lo..hi]
  {
    var r := Splice(data, at, bytes);
    assert r[..at] == data[..at];
    assert r[at + |bytes|..] == data[at + |bytes|..];
    if hi <= at {
      assert r[lo..hi] == r[..at][lo..hi];
      assert data[lo..hi] == data[..at][lo..hi];
    } else {
      var k := at + |bytes|;
      assert r[lo..hi] == r[k..][lo - k..hi - k];
      assert data[lo..hi] == data[k..][lo - k..hi - k];
    }
  }
}
