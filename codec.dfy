/**
 * The tunnel's wire frame: one kind byte, a 32-bit little-endian connection id,
 * then the payload.  `EncodePacket` is the sender's `encodePacket`; `DecodePacket`
 * is the inline decode that both receive loops perform on every datagram.
 */
module Codec {
  import opened Wrappers

  /** One byte of a Node.js Buffer. */
  type Byte = b: int | 0 <= b < 256

  const U32Limit: int := 0x1_0000_0000

  /** A value that Buffer.writeUInt32LE accepts and Buffer.readUInt32LE yields. */
  type U32 = n: int | 0 <= n < 0x1_0000_0000

  /** Frame kinds as they appear in byte 0. */
  const PacketData: Byte := 0
  const PacketConnect: Byte := 1
  const PacketDisconnect: Byte := 2

  /** Kind byte plus four id bytes. */
  const HeaderSize: nat := 5

  /** A decoded frame; any kind byte decodes, the dispatchers ignore the ones they do not know. */
  datatype Frame = Frame(kind: Byte, connId: U32, payload: seq<Byte>)

  function Pow256(k: nat): (r: nat)
    ensures r >= 1
  {
    if k == 0 then 1 else 256 * Pow256(k - 1)
  }

  /** The k low-order bytes of n, least significant first. */
  function ToLE(n: nat, k: nat): (r: seq<Byte>)
    ensures |r| == k
  {
    if k == 0 then [] else [n % 256] + ToLE(n / 256, k - 1)
  }

  /** The number whose little-endian bytes are b. */
  function FromLE(b: seq<Byte>): (n: nat)
    ensures n < Pow256(|b|)
  {
    if b == [] then 0 else b[0] + 256 * FromLE(b[1..])
  }

  lemma {:induction false} FromToLE(n: nat, k: nat)
    requires n < Pow256(k)
    ensures FromLE(ToLE(n, k)) == n
  {
    if k > 0 {
      assert n / 256 < Pow256(k - 1);
      FromToLE(n / 256, k - 1);
      assert ToLE(n, k)[1..] == ToLE(n / 256, k - 1);
    }
  }

  lemma {:induction false} ToFromLE(b: seq<Byte>)
    ensures ToLE(FromLE(b), |b|) == b
  {
    if b != [] {
      var rest := FromLE(b[1..]);
      assert (b[0] + 256 * rest) % 256 == b[0];
      assert (b[0] + 256 * rest) / 256 == rest;
      ToFromLE(b[1..]);
      assert b == [b[0]] + b[1..];
    }
  }

  /** The four bytes Buffer.writeUInt32LE lays down, spelled out. */
  lemma ToLE4(n: U32)
    ensures ToLE(n, 4) == [n % 256, n / 0x100 % 256, n / 0x1_0000 % 256, n / 0x100_0000]
  {
    var n1, n2, n3 := n / 256, n / 256 / 256, n / 256 / 256 / 256;
    assert n2 == n / 0x1_0000;
    assert n3 == n / 0x100_0000 && n3 < 256 && n3 / 256 == 0;
    assert ToLE(n3, 1) == [n3];
    assert ToLE(n2, 2) == [n2 % 256, n3];
    assert ToLE(n1, 3) == [n1 % 256, n2 % 256, n3];
  }

  /** The value Buffer.readUInt32LE reads from four bytes, spelled out. */
  lemma FromLE4(b: seq<Byte>)
    requires |b| == 4
    ensures FromLE(b) == b[0] as int + 0x100 * b[1] as int + 0x1_0000 * b[2] as int + 0x100_0000 * b[3] as int
  {
    assert FromLE(b[3..]) == b[3] as int by { assert b[3..][1..] == []; }
    assert FromLE(b[2..]) == b[2] as int + 256 * b[3] as int by { assert b[2..][1..] == b[3..]; }
    assert FromLE(b[1..]) == b[1] as int + 256 * b[2] as int + 0x1_0000 * b[3] as int by {
      assert b[1..][1..] == b[2..];
    }
  }

  /** The payload bytes `encodePacket` appends: a missing payload appends nothing. */
  function PayloadOf(payload: Option<seq<Byte>>): (r: seq<Byte>)
    ensures payload.None? ==> r == []
  {
    if payload.Some? then payload.value else []
  }

  /**
   * `encodePacket(type, connId, payload)`.  Buffer.writeUInt8 and writeUInt32LE throw
   * when the value is out of range, so the encoding exists only for a byte-sized kind
   * and a 32-bit id.  A present payload is concatenated after the header (an empty
   * Buffer is still truthy, so it concatenates nothing).
   */
  function EncodePacket(kind: int, connId: int, payload: Option<seq<Byte>>): (r: Option<seq<Byte>>)
    ensures r.Some? <==> 0 <= kind < 256 && 0 <= connId < U32Limit
    ensures r.Some? ==> |r.value| == HeaderSize + |PayloadOf(payload)|
    ensures r.Some? ==> payload.None? ==> |r.value| == HeaderSize
    ensures r.Some? ==> r.value[0] == kind
    ensures r.Some? ==>
      && r.value[1] == connId % 256
      && r.value[2] == connId / 0x100 % 256
      && r.value[3] == connId / 0x1_0000 % 256
      && r.value[4] == connId / 0x100_0000
    ensures r.Some? ==> r.value[HeaderSize..] == PayloadOf(payload)
  {
    if 0 <= kind < 256 && 0 <= connId < U32Limit then
      ToLE4(connId);
      Some([kind] + ToLE(connId, 4) + PayloadOf(payload))
    else
      None
  }

  /**
   * The inline decode of both receive loops: fewer than five bytes is not a frame;
   * otherwise readUInt8(0), readUInt32LE(1) and slice(5).
   */
  function DecodePacket(data: seq<Byte>): (r: Option<Frame>)
    ensures r.None? <==> |data| < HeaderSize
    ensures r.Some? ==> r.value.kind == data[0] && r.value.payload == data[HeaderSize..]
    ensures r.Some? ==>
      r.value.connId == data[1] as int + 0x100 * data[2] as int + 0x1_0000 * data[3] as int + 0x100_0000 * data[4] as int
  {
    if |data| < HeaderSize then
      None
    else
      assert Pow256(4) == U32Limit;
      FromLE4(data[1..5]);
      Some(Frame(data[0], FromLE(data[1..5]), data[HeaderSize..]))
  }

  /** Decoding an encoded packet gives back its kind, id and payload. */
  lemma DecodeEncode(kind: int, connId: int, payload: Option<seq<Byte>>)
    requires 0 <= kind < 256 && 0 <= connId < U32Limit
    ensures EncodePacket(kind, connId, payload).Some?
    ensures DecodePacket(EncodePacket(kind, connId, payload).value)
         == Some(Frame(kind, connId, PayloadOf(payload)))
  {
    var bytes := EncodePacket(kind, connId, payload).value;
    assert bytes[1..5] == ToLE(connId, 4);
    FromToLE(connId, 4);
  }

  /** Every accepted datagram is the encoding of the frame decoded from it. */
  lemma EncodeDecode(data: seq<Byte>)
    requires DecodePacket(data).Some?
    ensures EncodePacket(DecodePacket(data).value.kind, DecodePacket(data).value.connId,
                         Some(DecodePacket(data).value.payload)) == Some(data)
  {
    var f := DecodePacket(data).value;
    ToFromLE(data[1..5]);
    assert data == [data[0]] + data[1..5] + data[HeaderSize..];
  }
}
