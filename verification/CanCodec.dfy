/** The Cannelloni datagrams of j2534cannelloniclient.cpp: the packed structs, the fixed-stride
    decoder of the receive thread and the variable-length encoder of `PassThruWriteMsgs`. */
module CanCodec {
  import opened Bytes
  import opened PassThru

  const HEADER_SIZE := 5
  const FRAME_SIZE := 13
  const MAX_FRAME_DATA := 8
  const MAX_DATAGRAM := 1500

  /** CannelloniCanFrame: the data array is always eight bytes, of which `length` count. */
  datatype FrameStruct = FrameStruct(canId: word, length: byte, data: seq<byte>)

  type CanFrame = f: FrameStruct | |f.data| == MAX_FRAME_DATA
    witness FrameStruct(0, 0, seq(MAX_FRAME_DATA, _ => 0))

  // ---------------------------------------------------------------- the decoder

  /** `count` is read in host order. */
  function Count(dg: seq<byte>): nat
    requires |dg| >= HEADER_SIZE
  {
    var low: int, high: int := dg[3], dg[4];
    low + 256 * high
  }

  /** The three checks of the receive loop; failing any of them ends the loop for good. */
  predicate Accepted(version: byte, dg: seq<byte>) {
    |dg| >= HEADER_SIZE && dg[0] == version && |dg| - HEADER_SIZE >= Count(dg) * FRAME_SIZE
  }

  function FrameAt(dg: seq<byte>, i: nat): (r: seq<byte>)
    requires HEADER_SIZE + (i + 1) * FRAME_SIZE <= |dg|
    ensures |r| == FRAME_SIZE
  {
    dg[HEADER_SIZE + i * FRAME_SIZE..][..FRAME_SIZE]
  }

  lemma FrameAtIs(dg: seq<byte>, i: nat)
    requires 18 + 13 * i <= |dg|
    ensures FrameAt(dg, i) == dg[5 + 13 * i..18 + 13 * i]
    ensures forall k :: 0 <= k < 13 ==> FrameAt(dg, i)[k] == dg[5 + 13 * i + k]
  {}

  /** The length fields of the counted frames stay within the struct. */
  predicate LengthsInRange(version: byte, dg: seq<byte>) {
    Accepted(version, dg) ==> forall i :: 0 <= i < Count(dg) ==> FrameAt(dg, i)[4] <= MAX_FRAME_DATA
  }

  /** The message pushed for one 13-byte frame. */
  function DecodeFrame(f: seq<byte>): PassThruMsg
    requires |f| == FRAME_SIZE && f[4] <= MAX_FRAME_DATA
  {
    var canId := FromLe32(f[..4]);
    Message(CAN, 0, 0, 0, 4 + f[4] as int, 0, Fill([canId % 256] + Le32(canId)[1..] + f[5..5 + f[4]]))
  }

  /** The first n frames of a datagram, in order. */
  function DecodeFrames(dg: seq<byte>, n: nat): (r: seq<PassThruMsg>)
    requires HEADER_SIZE + n * FRAME_SIZE <= |dg|
    requires forall i :: 0 <= i < n ==> FrameAt(dg, i)[4] <= MAX_FRAME_DATA
    ensures |r| == n
    ensures forall i :: 0 <= i < n ==> r[i] == DecodeFrame(FrameAt(dg, i))
  {
    seq(n, i requires 0 <= i < n => DecodeFrame(FrameAt(dg, i)))
  }

  function Decode(version: byte, dg: seq<byte>): (r: seq<PassThruMsg>)
    requires Accepted(version, dg) && LengthsInRange(version, dg)
    ensures |r| == Count(dg)
  {
    DecodeFrames(dg, Count(dg))
  }

  /** Every decoded message is a CAN message of 4 to 12 bytes: the id as it was on the wire, then
      the frame's data, and nothing after them. */
  lemma DecodedFrame(f: seq<byte>)
    requires |f| == FRAME_SIZE && f[4] <= MAX_FRAME_DATA
    ensures var m := DecodeFrame(f);
            m == Message(CAN, 0, 0, 0, m.dataSize, 0, Fill(f[..4] + f[5..5 + f[4]]))
            && 4 <= m.dataSize == 4 + f[4] <= 12
  {
    FromLe32RoundTrip(f[..4]);
    var id := FromLe32(f[..4]);
    assert [id % 256] + Le32(id)[1..] == f[..4];
  }

  /** The receive loop's inner loop: decode the counted frames out of the receive buffer and push
      them one by one.  Only the received bytes matter. */
  method PushFrames(buffer: array<byte>, bytesReceived: nat, version: byte, queue: seq<PassThruMsg>)
    returns (queue': seq<PassThruMsg>)
    requires bytesReceived <= buffer.Length
    requires Accepted(version, buffer[..bytesReceived]) && LengthsInRange(version, buffer[..bytesReceived])
    ensures queue' == queue + Decode(version, buffer[..bytesReceived])
  {
    ghost var dg := buffer[..bytesReceived];
    var low: int, high: int := buffer[3], buffer[4];
    var count := low + 256 * high;
    queue' := queue;
    for i := 0 to count
      invariant queue' == queue + Decode(version, dg)[..i]
    {
      var offset := HEADER_SIZE + i * FRAME_SIZE;
      assert HEADER_SIZE + (i + 1) * FRAME_SIZE <= bytesReceived;
      var frame := buffer[offset..offset + FRAME_SIZE];
      assert frame == FrameAt(dg, i);
      queue' := queue' + [DecodeFrame(frame)];
    }
  }

  // ---------------------------------------------------------------- the wire format

  function FrameBytes(f: CanFrame): (r: seq<byte>)
    ensures |r| == FRAME_SIZE
  {
    Le32(f.canId) + [f.length] + f.data
  }

  function FramesBytes(fs: seq<CanFrame>): (r: seq<byte>)
    ensures |r| == |fs| * FRAME_SIZE
  {
    if fs == [] then [] else FrameBytes(fs[0]) + FramesBytes(fs[1..])
  }

  function HeaderBytes(version: byte, opCode: byte, seqNo: byte, count: nat): (r: seq<byte>)
    requires count < 65536
    ensures |r| == HEADER_SIZE
  {
    [version, opCode, seqNo, count % 256, count / 256]
  }

  /** The message a frame stands for. */
  function FrameMessage(f: CanFrame): PassThruMsg
    requires f.length <= MAX_FRAME_DATA
  {
    Message(CAN, 0, 0, 0, 4 + f.length as int, 0, Fill(Le32(f.canId) + f.data[..f.length]))
  }

  lemma {:induction false} FrameAtOfFramesBytes(head: seq<byte>, fs: seq<CanFrame>, tail: seq<byte>, i: nat)
    requires |head| >= HEADER_SIZE && (|head| - HEADER_SIZE) % FRAME_SIZE == 0
    requires i < |fs|
    ensures var dg := head + FramesBytes(fs) + tail;
            var k := (|head| - HEADER_SIZE) / FRAME_SIZE + i;
            HEADER_SIZE + (k + 1) * FRAME_SIZE <= |dg| && FrameAt(dg, k) == FrameBytes(fs[i])
    decreases |fs|
  {
    var head' := head + FrameBytes(fs[0]);
    assert head + FramesBytes(fs) + tail == head' + FramesBytes(fs[1..]) + tail;
    if i > 0 {
      FrameAtOfFramesBytes(head', fs[1..], tail, i - 1);
    }
  }

  lemma DecodeFrameBytes(f: CanFrame)
    requires f.length <= MAX_FRAME_DATA
    ensures FrameBytes(f)[4] == f.length && DecodeFrame(FrameBytes(f)) == FrameMessage(f)
  {
    var b := FrameBytes(f);
    DecodedFrame(b);
    assert b[..4] == Le32(f.canId) && b[5..5 + f.length] == f.data[..f.length];
  }

  function Datagram(version: byte, opCode: byte, seqNo: byte, fs: seq<CanFrame>, tail: seq<byte>): seq<byte>
    requires |fs| < 65536
  {
    HeaderBytes(version, opCode, seqNo, |fs|) + FramesBytes(fs) + tail
  }

  lemma DatagramHeader(version: byte, opCode: byte, seqNo: byte, fs: seq<CanFrame>, tail: seq<byte>)
    requires |fs| < 65536
    ensures var dg := Datagram(version, opCode, seqNo, fs, tail);
            Accepted(version, dg) && Count(dg) == |fs|
  {
    var dg := Datagram(version, opCode, seqNo, fs, tail);
    assert dg[..HEADER_SIZE] == HeaderBytes(version, opCode, seqNo, |fs|);
    assert dg[3] == |fs| % 256 && dg[4] == |fs| / 256;
  }

  lemma DatagramFrame(version: byte, opCode: byte, seqNo: byte, fs: seq<CanFrame>, tail: seq<byte>, i: nat)
    requires i < |fs| < 65536 && fs[i].length <= MAX_FRAME_DATA
    ensures var dg := Datagram(version, opCode, seqNo, fs, tail);
            HEADER_SIZE + (i + 1) * FRAME_SIZE <= |dg|
            && FrameAt(dg, i)[4] <= MAX_FRAME_DATA && DecodeFrame(FrameAt(dg, i)) == FrameMessage(fs[i])
  {
    hide FrameAt, DecodeFrame, FrameMessage;
    FrameAtOfFramesBytes(HeaderBytes(version, opCode, seqNo, |fs|), fs, tail, i);
    DecodeFrameBytes(fs[i]);
  }

  /** Fixed-stride decoding: a header with the right version and count, followed by the packed
      frames and then by anything at all, decodes to exactly the frames' messages, in order. */
  lemma DecodeInvertsPacking(version: byte, opCode: byte, seqNo: byte, fs: seq<CanFrame>, tail: seq<byte>)
    requires |fs| < 65536 && forall i :: 0 <= i < |fs| ==> fs[i].length <= MAX_FRAME_DATA
    ensures var dg := Datagram(version, opCode, seqNo, fs, tail);
            Accepted(version, dg) && LengthsInRange(version, dg) && |Decode(version, dg)| == |fs|
            && forall i :: 0 <= i < |fs| ==> Decode(version, dg)[i] == FrameMessage(fs[i])
  {
    hide Datagram, FrameAt, DecodeFrame, FrameMessage, Accepted, Count;
    var dg := Datagram(version, opCode, seqNo, fs, tail);
    DatagramHeader(version, opCode, seqNo, fs, tail);
    forall i | 0 <= i < |fs|
      ensures FrameAt(dg, i)[4] <= MAX_FRAME_DATA && DecodeFrame(FrameAt(dg, i)) == FrameMessage(fs[i])
    {
      DatagramFrame(version, opCode, seqNo, fs, tail, i);
    }
  }

  /** A datagram that fits the receive buffer carries at most 115 frames. */
  lemma FrameLimit(version: byte, dg: seq<byte>)
    requires |dg| <= MAX_DATAGRAM && Accepted(version, dg)
    ensures Count(dg) <= 115
  {}

  // ---------------------------------------------------------------- the encoder

  /** The messages `PassThruWriteMsgs` does not refuse. */
  predicate Writable(m: PassThruMsg) {
    (m.protocolID == CAN || m.protocolID == CAN_PS) && 4 <= m.dataSize <= 4 + MAX_FRAME_DATA
  }

  /** TxFlags & CAN_29BIT_ID. */
  predicate Extended(m: PassThruMsg) {
    m.txFlags / CAN_29BIT_ID % 2 == 1
  }

  /** canId | CAN_EFF_FLAG. */
  function WithEffFlag(canId: word): word {
    if canId < TWO_31 then canId + TWO_31 else canId
  }

  function CanIdOf(m: PassThruMsg): word {
    var canId := FromLe32(m.data[..4]);
    if Extended(m) then WithEffFlag(canId) else canId
  }

  /** The packet for one message: only the bytes that count are sent, without padding. */
  function EncodePacket(version: byte, seqNo: byte, m: PassThruMsg): (r: seq<byte>)
    requires Writable(m)
    ensures |r| == 6 + m.dataSize
  {
    HeaderBytes(version, 0, seqNo, 1) + Le32(CanIdOf(m)) + [m.dataSize - 4] + m.data[4..m.dataSize]
  }

  /** The packet byte by byte: header, id, length and only the data bytes that count.  CAN_29BIT_ID is
      bit 8 of TxFlags; it sets the top bit of the id. */
  lemma PacketBytes(version: byte, seqNo: byte, m: PassThruMsg)
    requires Writable(m)
    ensures var dg := EncodePacket(version, seqNo, m);
            |dg| == 6 + m.dataSize
            && dg[0] == version && dg[1] == 0 && dg[2] == seqNo && dg[3] == 1 && dg[4] == 0
            && dg[5] == m.data[0] && dg[6] == m.data[1] && dg[7] == m.data[2]
            && dg[8] == (if m.txFlags / 256 % 2 == 1 && m.data[3] < 128 then m.data[3] + 128 else m.data[3])
            && dg[9] == m.dataSize - 4
            && forall k :: 4 <= k < m.dataSize ==> dg[6 + k] == m.data[k]
  {
    CanIdBytes(m);
    var dg := EncodePacket(version, seqNo, m);
    assert dg == HeaderBytes(version, 0, seqNo, 1) + Le32(CanIdOf(m)) + [m.dataSize - 4] + m.data[4..m.dataSize];
    assert Le32(CanIdOf(m)) == Echo(m)[..4];
  }

  /** Bit 8 of TxFlags, whatever the others are. */
  lemma ExtendedIsBit8(m: PassThruMsg, high: nat, f: nat, low: nat)
    requires m.txFlags == 512 * high + 256 * f + low && f < 2 && low < 256
    ensures Extended(m) <==> f == 1
  {
    assert m.txFlags / 256 == 2 * high + f;
  }

  /** The messages that can be written: protocols CAN (5) and CAN_PS (0x8004), an id and at most eight
      data bytes. */
  lemma WritableExactly(m: PassThruMsg)
    ensures Writable(m) <==> m.protocolID in {5, 0x8004} && m.dataSize in {4, 5, 6, 7, 8, 9, 10, 11, 12}
  {}

  /** Whatever was received can be written. */
  lemma DecodedIsWritable(f: seq<byte>)
    requires |f| == FRAME_SIZE && f[4] <= MAX_FRAME_DATA
    ensures Writable(DecodeFrame(f))
  {}

  /** std::copy_n into a buffer at an offset. */
  method CopyInto(buffer: array<byte>, offset: nat, bytes: seq<byte>)
    requires offset + |bytes| <= buffer.Length
    modifies buffer
    ensures buffer[..] == old(buffer[..offset]) + bytes + old(buffer[offset + |bytes|..])
  {
    for i := 0 to |bytes|
      invariant forall k :: 0 <= k < i ==> buffer[offset + k] == bytes[k]
      invariant forall k :: 0 <= k < buffer.Length && !(offset <= k < offset + i) ==> buffer[k] == old(buffer[k])
    {
      buffer[offset + i] := bytes[i];
    }
  }

  method BuildPacket(version: byte, seqNo: byte, m: PassThruMsg) returns (buffer: array<byte>)
    requires Writable(m)
    ensures fresh(buffer) && buffer[..] == EncodePacket(version, seqNo, m)
  {
    hide Le32, FromLe32, HeaderBytes, WithEffFlag, Extended;
    var canId: word := FromLe32(m.data[..4]);
    if Extended(m) {
      canId := WithEffFlag(canId);
    }
    var length: byte := m.dataSize - 4;
    buffer := new byte[HEADER_SIZE + 4 + 1 + length](_ => 0);
    CopyInto(buffer, 0, HeaderBytes(version, 0, seqNo, 1));
    var offset := HEADER_SIZE;
    CopyInto(buffer, offset, Le32(canId));
    offset := offset + 4;
    buffer[offset] := length;
    offset := offset + 1;
    assert buffer[..offset] == HeaderBytes(version, 0, seqNo, 1) + Le32(canId) + [length];
    CopyInto(buffer, offset, m.data[4..4 + length]);
    assert buffer[..] == buffer[..offset] + m.data[4..4 + length];
  }

  // ---------------------------------------------------------------- writer against receiver

  /** The 12 bytes that come back: the id's top bit is set when the 29-bit flag is. */
  function Echo(m: PassThruMsg): (r: seq<byte>)
    ensures |r| == 12
  {
    var top := m.data[3];
    m.data[..3] + [if Extended(m) && top < 128 then top + 128 else top] + m.data[4..12]
  }

  lemma EchoBytes(m: PassThruMsg)
    ensures Echo(m)[3] == if m.txFlags / 256 % 2 == 1 && m.data[3] < 128 then m.data[3] + 128 else m.data[3]
    ensures forall k :: 0 <= k < 12 && k != 3 ==> Echo(m)[k] == m.data[k]
  {}

  lemma EffFlagBytes(id: word)
    ensures var b := Le32(id);
            Le32(WithEffFlag(id)) == b[..3] + [if b[3] < 128 then b[3] + 128 else b[3]]
  {
    if id < TWO_31 {
      var x := id + TWO_31;
      assert x / 256 == id / 256 + 0x80_0000;
      assert x / 256 / 256 == id / 256 / 256 + 0x8000;
      assert x / 256 / 256 / 256 == id / 256 / 256 / 256 + 0x80;
    }
  }

  lemma CanIdBytes(m: PassThruMsg)
    ensures Le32(CanIdOf(m)) + m.data[4..12] == Echo(m)
  {
    FromLe32RoundTrip(m.data[..4]);
    EffFlagBytes(FromLe32(m.data[..4]));
    assert m.data[..4][..3] == m.data[..3];
  }

  /** A written packet fed to a receiver of the same version is accepted exactly when the message
      has the full 12 bytes; it then comes back as one message with those bytes, the extended-id bit
      apart.  Every shorter packet fails the stride check. */
  lemma WriterToReceiver(version: byte, seqNo: byte, m: PassThruMsg)
    requires Writable(m)
    ensures var dg := EncodePacket(version, seqNo, m);
            (Accepted(version, dg) <==> m.dataSize == 12)
            && LengthsInRange(version, dg)
            && (m.dataSize == 12 ==> Decode(version, dg) == [Message(CAN, 0, 0, 0, 12, 0, Fill(Echo(m)))])
  {
    var dg := EncodePacket(version, seqNo, m);
    assert Count(dg) == 1;
    if m.dataSize == 12 {
      assert FrameAt(dg, 0) == Le32(CanIdOf(m)) + [8] + m.data[4..12];
      DecodedFrame(FrameAt(dg, 0));
      CanIdBytes(m);
      assert FrameAt(dg, 0)[..4] + FrameAt(dg, 0)[5..13] == Echo(m);
    }
  }

  /** What a packet means when the missing data bytes are padded, with anything, up to the fixed stride:
      one message with exactly the bytes that were written, the extended-id bit apart.  So the length
      byte tells a receiver how many of the eight data bytes count. */
  lemma PaddedPacket(version: byte, seqNo: byte, m: PassThruMsg, tail: seq<byte>)
    requires Writable(m) && 6 + m.dataSize + |tail| >= 18
    ensures var dg := EncodePacket(version, seqNo, m) + tail;
            Accepted(version, dg) && LengthsInRange(version, dg)
            && Decode(version, dg) == [Message(5, 0, 0, 0, m.dataSize, 0, Fill(Echo(m)[..m.dataSize]))]
  {
    var dg := EncodePacket(version, seqNo, m) + tail;
    PacketBytes(version, seqNo, m);
    hide EncodePacket, Echo, Fill;
    assert Count(dg) == 1;
    FrameAtIs(dg, 0);
    var f, n := FrameAt(dg, 0), m.dataSize;
    assert f[4] == n - 4;
    DecodedFrame(f);
    EchoBytes(m);
    forall k | 0 <= k < n
      ensures (f[..4] + f[5..5 + f[4]])[k] == Echo(m)[k]
    {
      if k >= 4 { assert f[k + 1] == dg[6 + k]; } else { assert f[k] == dg[5 + k]; }
    }
    assert f[..4] + f[5..5 + f[4]] == Echo(m)[..n];
  }

  /** The empty packet that announces a client is accepted and carries no message. */
  lemma InitPacket(version: byte)
    ensures var dg := HeaderBytes(version, 0, 0, 0);
            Accepted(version, dg) && LengthsInRange(version, dg) && Decode(version, dg) == []
  {}

  /** A receiver configured for another version accepts nothing that is written. */
  lemma OtherVersionRejects(version: byte, other: byte, seqNo: byte, m: PassThruMsg)
    requires Writable(m) && version != other
    ensures !Accepted(other, EncodePacket(version, seqNo, m))
  {}
}
