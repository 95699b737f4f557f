/** Packets: a fixed header, a checksum over header and payload, and the frames. */
module Packets {
  import opened Wrappers
  import opened Bytes
  import opened Varint
  import opened Reader
  import opened AckWire
  import opened Frames

  const MAGIC: u16 := 0xd7f1
  const VERSION: byte := 2
  const MAX_FRAME_COUNT: nat := 64
  const AEAD_TAG_LEN: nat := 16
  const MAX_PAYLOAD: nat := 65535

  datatype PacketType = Initial | Handshake | Data | Close | RetryPacket

  /** `PacketFlags` holds only the four known bits. */
  type Flags = x: u16 | x < 16

  datatype Packet = Packet(packetType: PacketType, flags: Flags, connectionId: u64, packetNumber: u64,
          frames: seq<Frame>)

  /** The bit `PacketFlags::ENCRYPTED`. */
  predicate Encrypted(flags: u16) { flags / 2 % 2 == 1 }

  function TypeByte(t: PacketType): byte
  {
    match t
    case Initial => 0
    case Handshake => 1
    case Data => 2
    case Close => 3
    case RetryPacket => 4
  }

  function TypeOf(b: byte): Result<PacketType, ProtocolError>
  {
    if b == 0 then Ok(Initial) else if b == 1 then Ok(Handshake) else if b == 2 then Ok(Data)
    else if b == 3 then Ok(Close) else if b == 4 then Ok(RetryPacket) else Err(InvalidPacketType)
  }

  /** The checksum is any function of the bytes with the checksum field taken as zero. */
  type Checksum = seq<byte> -> u32

  // ---- Frames in a payload ----

  function EncodeAll(frames: seq<Frame>): Result<seq<byte>, ProtocolError>
  {
    if |frames| == 0 then Ok([]) else
    var first :- EncodeFrame(frames[0]);
    var others :- EncodeAll(frames[1..]);
    Ok(first + others)
  }

  /** `encode_frames`. */
  function EncodeFrames(frames: seq<Frame>): Result<seq<byte>, ProtocolError>
  {
    if |frames| == 0 then Err(EmptyPacket)
    else if |frames| > MAX_FRAME_COUNT then Err(TooManyFrames) else
    var payload :- EncodeAll(frames);
    if |payload| > MAX_PAYLOAD then Err(FrameTooLarge(MAX_PAYLOAD, |payload|)) else Ok(payload)
  }

  /** One frame off the front of a payload. */
  function ReadFrame(payload: seq<byte>): (r: ReadResult<Frame>)
    requires |payload| > 0
    ensures r.Ok? ==> |r.value.1| < |payload|
  {
    var (length, rest) :- Decode(payload[1..]);
    if length > MAX_FRAME_BODY_LEN then Err(FrameTooLarge(MAX_FRAME_BODY_LEN, length)) else
    var (body, after) :- ReadExact(rest, length);
    var frame :- DecodeBody(payload[0], body);
    Ok((frame, after))
  }

  /** The frames of a payload, `room` of them at most. */
  function DecodeAll(payload: seq<byte>, room: nat): Result<seq<Frame>, ProtocolError>
    decreases |payload|
  {
    if |payload| == 0 then Ok([])
    else if room == 0 then Err(TooManyFrames) else
    var (frame, rest) :- ReadFrame(payload);
    var others :- DecodeAll(rest, room - 1);
    Ok([frame] + others)
  }

  /** `decode_frames`. */
  function DecodeFrames(payload: seq<byte>): Result<seq<Frame>, ProtocolError>
  {
    var frames :- DecodeAll(payload, MAX_FRAME_COUNT);
    if |frames| == 0 then Err(EmptyPacket) else Ok(frames)
  }

  /** The frame list as the peer sees it. */
  function ReceivedAll(frames: seq<Frame>): seq<Frame>
  {
    if |frames| == 0 then [] else [Received(frames[0])] + ReceivedAll(frames[1..])
  }

  lemma ReadFrameBack(f: Frame, rest: seq<byte>)
    requires EncodeFrame(f).Ok?
    ensures ReadFrame(EncodeFrame(f).value + rest) == Ok((Received(f), rest))
  {
    hide EncodeBody, DecodeBody, Encode, Decode, ReadExact, Received;
    var body := EncodeBody(f).value;
    var length := Encode(|body|).value;
    var whole := ([TypeCode(f)] + (length + body)) + rest;
    assert whole[1..] == length + (body + rest) && whole[0] == TypeCode(f);
    RoundTrip(|body|, body + rest);
    ExactRoundTrip(body, rest);
    FrameRoundTrip(f);
  }

  lemma FirstFrame(first: seq<byte>, others: seq<byte>, room: nat, frame: Frame, frames: seq<Frame>)
    requires |first + others| > 0 && room > 0 && ReadFrame(first + others) == Ok((frame, others))
    requires DecodeAll(others, room - 1) == Ok(frames)
    ensures DecodeAll(first + others, room) == Ok([frame] + frames)
  {
    hide ReadFrame;
  }

  lemma {:induction false} AllBack(frames: seq<Frame>, room: nat)
    requires EncodeAll(frames).Ok? && |frames| <= room
    ensures DecodeAll(EncodeAll(frames).value, room) == Ok(ReceivedAll(frames))
  {
    hide EncodeFrame, ReadFrame, Received;
    if |frames| > 0 {
      EncodeStep(frames);
      hide EncodeAll, DecodeAll, ReceivedAll;
      AllBack(frames[1..], room - 1);
      AllBackStep(frames, room);
    }
  }

  lemma AllBackStep(frames: seq<Frame>, room: nat)
    requires 0 < |frames| <= room && EncodeAll(frames).Ok? && EncodeAll(frames[1..]).Ok?
    requires DecodeAll(EncodeAll(frames[1..]).value, room - 1) == Ok(ReceivedAll(frames[1..]))
    ensures DecodeAll(EncodeAll(frames).value, room) == Ok(ReceivedAll(frames))
  {
    EncodeStep(frames);
    hide EncodeFrame, EncodeAll, DecodeAll, ReadFrame, Received;
    var first, others := EncodeFrame(frames[0]).value, EncodeAll(frames[1..]).value;
    NotEmpty(frames[0], others);
    ReadFrameBack(frames[0], others);
    FirstFrame(first, others, room, Received(frames[0]), ReceivedAll(frames[1..]));
  }

  lemma NotEmpty(f: Frame, others: seq<byte>)
    requires EncodeFrame(f).Ok?
    ensures |EncodeFrame(f).value + others| > 0
  {
  }

  // ---- The header ----

  datatype Header = Header(packetType: PacketType, flags: Flags, connectionId: u64, packetNumber: u64, payloadLen: u16)

  /** The 26 bytes in front of the checksum. */
  function HeaderFields(h: Header): seq<byte>
  {
    ToBytes(MAGIC, 2) + ([VERSION] + ([TypeByte(h.packetType)] + (ToBytes(h.flags, 2) + (ToBytes(FIXED_HEADER_LEN, 2)
    + (ToBytes(h.connectionId, 8) + (ToBytes(h.packetNumber, 8) + ToBytes(h.payloadLen, 2)))))))
  }

  /** `decode_header`, reading the fields in order of their offsets. */
  function DecodeHeader(input: seq<byte>): ReadResult<Header>
  {
    var (magic, a) :- ReadU16(input);
    if magic != MAGIC then Err(InvalidMagic) else
    var (version, b) :- ReadU8(a);
    if version != VERSION then Err(UnsupportedVersion) else
    var (typeByte, c) :- ReadU8(b);
    var packetType :- TypeOf(typeByte);
    var (flags, d) :- ReadU16(c);
    if flags >= 16 then Err(InvalidFlags) else
    var (headerLen, e) :- ReadU16(d);
    if headerLen != FIXED_HEADER_LEN then Err(InvalidHeaderLength) else
    DecodeNumbers(packetType, flags, e)
  }

  function DecodeNumbers(packetType: PacketType, flags: Flags, input: seq<byte>): ReadResult<Header>
  {
    var (connectionId, f) :- ReadU64(input);
    var (packetNumber, g) :- ReadU64(f);
    var (payloadLen, rest) :- ReadU16(g);
    Ok((Header(packetType, flags, connectionId, packetNumber, payloadLen), rest))
  }

  lemma NumbersBack(h: Header, rest: seq<byte>)
    ensures DecodeNumbers(h.packetType, h.flags,
      ToBytes(h.connectionId, 8) + (ToBytes(h.packetNumber, 8) + (ToBytes(h.payloadLen, 2) + rest))) == Ok((h, rest))
  {
    hide ReadU16, ReadU64, ToBytes;
    FixedRoundTrip(0, 0, h.connectionId, ToBytes(h.packetNumber, 8) + (ToBytes(h.payloadLen, 2) + rest));
    FixedRoundTrip(0, 0, h.packetNumber, ToBytes(h.payloadLen, 2) + rest);
    FixedRoundTrip(h.payloadLen, 0, 0, rest);
  }

  lemma HeaderBack(h: Header, rest: seq<byte>)
    ensures DecodeHeader(HeaderFields(h) + rest) == Ok((h, rest))
    ensures |HeaderFields(h)| == 26
  {
    var f := ToBytes(h.connectionId, 8) + (ToBytes(h.packetNumber, 8) + ToBytes(h.payloadLen, 2));
    assert f + rest == ToBytes(h.connectionId, 8) + (ToBytes(h.packetNumber, 8) + (ToBytes(h.payloadLen, 2) + rest));
    NumbersBack(h, rest);
    hide ReadU16, ReadU8, DecodeNumbers, ToBytes;
    var m, g, l := ToBytes(MAGIC, 2), ToBytes(h.flags, 2), ToBytes(FIXED_HEADER_LEN, 2);
    var v, t := [VERSION], [TypeByte(h.packetType)];
    assert (m + (v + (t + (g + (l + f))))) + rest == m + (v + (t + (g + (l + (f + rest)))));
    FixedRoundTrip(MAGIC, 0, 0, v + (t + (g + (l + (f + rest)))));
    ByteBack(VERSION, t + (g + (l + (f + rest))));
    ByteBack(TypeByte(h.packetType), g + (l + (f + rest)));
    FixedRoundTrip(h.flags, 0, 0, l + (f + rest));
    FixedRoundTrip(FIXED_HEADER_LEN, 0, 0, f + rest);
  }

  lemma ByteBack(b: byte, rest: seq<byte>)
    ensures ReadU8([b] + rest) == Ok((b, rest))
  {
    ExactRoundTrip([b], rest);
  }

  // ---- Whole packets ----

  /** `encode_packet`. */
  function EncodePacket(crc: Checksum, p: Packet, maxDatagramSize: nat): Result<seq<byte>, ProtocolError>
  {
    if Encrypted(p.flags) then Err(EncryptionNotAllowed) else
    var payload :- EncodeFrames(p.frames);
    if maxDatagramSize < FIXED_HEADER_LEN then Err(InvalidValue)
    else if FIXED_HEADER_LEN + |payload| > maxDatagramSize
        then Err(DatagramTooLarge(maxDatagramSize, FIXED_HEADER_LEN + |payload|)) else
    var fields := HeaderFields(Header(p.packetType, p.flags, p.connectionId, p.packetNumber, |payload|));
    Ok(fields + (ToBytes(crc(fields + ([0, 0, 0, 0] + payload)), 4) + payload))
  }

  /** `decode_header_and_lengths`: the header, the checksum field and the payload. */
  function DecodeEnvelope(bytes: seq<byte>, maxDatagramSize: nat): Result<(Header, u32, seq<byte>), ProtocolError>
  {
    if maxDatagramSize < FIXED_HEADER_LEN then Err(InvalidValue)
    else if |bytes| < FIXED_HEADER_LEN then Err(DatagramTooShort)
    else if |bytes| > maxDatagramSize then Err(DatagramTooLarge(maxDatagramSize, |bytes|)) else
    var (header, a) :- DecodeHeader(bytes);
    var (checksum, payload) :- ReadU32(a);
    if header.payloadLen != |payload| then Err(PayloadLengthMismatch) else Ok((header, checksum, payload))
  }

  /** `decode_packet`. */
  function DecodePacket(crc: Checksum, bytes: seq<byte>, maxDatagramSize: nat): Result<Packet, ProtocolError>
  {
    var (header, checksum, payload) :- DecodeEnvelope(bytes, maxDatagramSize);
    if Encrypted(header.flags) then Err(EncryptedPacketRequiresKeys)
    else if |bytes| < FIXED_HEADER_LEN || crc(bytes[..26] + ([0, 0, 0, 0] + bytes[30..])) != checksum
        then Err(ChecksumMismatch)
    else if |payload| == 0 then Err(EmptyPacket) else
    var frames :- DecodeFrames(payload);
    Ok(Packet(header.packetType, header.flags, header.connectionId, header.packetNumber, frames))
  }

  /** The packet as the peer sees it: ACK delays are cut to whole microseconds. */
  function ReceivedPacket(p: Packet): Packet
  {
    p.(frames := ReceivedAll(p.frames))
  }

  predicate WholeDelay(f: Frame) { f.Ack? ==> f.ack.ackDelay % 1000 == 0 }

  predicate WholeDelays(p: Packet)
  {
    forall i :: 0 <= i < |p.frames| ==> WholeDelay(p.frames[i])
  }

  lemma {:induction false} ReceivedSame(frames: seq<Frame>)
    ensures ReceivedAll(frames) == frames <==> forall i :: 0 <= i < |frames| ==> WholeDelay(frames[i])
  {
    if |frames| > 0 {
      var others := frames[1..];
      ReceivedSame(others);
      DelaySame(frames[0]);
      hide Received, WholeDelay;
      assert frames == [frames[0]] + others && ReceivedAll(frames)[1..] == ReceivedAll(others);
      assert forall i :: 0 <= i < |others| ==> others[i] == frames[i + 1];
      assert forall i :: 0 < i < |frames| ==> frames[i] == others[i - 1];
    }
  }

  lemma DelaySame(f: Frame)
    ensures Received(f) == f <==> WholeDelay(f)
  {
  }

  lemma EnvelopeBack(h: Header, checksum: u32, payload: seq<byte>, maxDatagramSize: nat)
    requires h.payloadLen == |payload| && FIXED_HEADER_LEN + |payload| <= maxDatagramSize
    ensures var bytes := HeaderFields(h) + (ToBytes(checksum, 4) + payload);
      && |bytes| == FIXED_HEADER_LEN + |payload|
      && DecodeEnvelope(bytes, maxDatagramSize) == Ok((h, checksum, payload))
      && bytes[..26] == HeaderFields(h) && bytes[30..] == payload
  {
    HeaderBack(h, ToBytes(checksum, 4) + payload);
    FixedRoundTrip(0, checksum, 0, payload);
    hide HeaderFields, DecodeHeader, ReadU32;
  }

  lemma FramesBack(frames: seq<Frame>)
    requires EncodeFrames(frames).Ok?
    ensures DecodeFrames(EncodeFrames(frames).value) == Ok(ReceivedAll(frames))
    ensures 0 < |EncodeFrames(frames).value| <= MAX_PAYLOAD
  {
    AllBack(frames, MAX_FRAME_COUNT);
    hide DecodeAll, EncodeFrame;
  }

  /** Whatever the checksum function, a packet that encodes stays within the limit and decodes
      to itself, up to the precision of its ACK delays. */
  lemma PacketRoundTrip(crc: Checksum, p: Packet, maxDatagramSize: nat)
    ensures var sent := EncodePacket(crc, p, maxDatagramSize);
      sent.Ok? ==>
          |sent.value| <= maxDatagramSize && DecodePacket(crc, sent.value, maxDatagramSize) == Ok(ReceivedPacket(p))
  {
    if EncodePacket(crc, p, maxDatagramSize).Ok? {
      FramesBack(p.frames);
      var payload := EncodeFrames(p.frames).value;
      var header := Header(p.packetType, p.flags, p.connectionId, p.packetNumber, |payload|);
      var checksum := crc(HeaderFields(header) + ([0, 0, 0, 0] + payload));
      EnvelopeBack(header, checksum, payload, maxDatagramSize);
      hide HeaderFields, DecodeEnvelope, EncodeFrames, DecodeFrames, Received;
    }
  }

  /** The round trip is exact if and only if every ACK delay is a whole number of microseconds. */
  lemma ExactRoundTripIff(crc: Checksum, p: Packet, maxDatagramSize: nat)
    ensures var sent := EncodePacket(crc, p, maxDatagramSize);
      sent.Ok? ==> (DecodePacket(crc, sent.value, maxDatagramSize) == Ok(p) <==> WholeDelays(p))
  {
    PacketRoundTrip(crc, p, maxDatagramSize);
    ReceivedSame(p.frames);
    hide EncodePacket, DecodePacket, ReceivedAll, WholeDelay;
  }

  /** Five, spelt in two bytes. */
  lemma PaddedFive(b: seq<byte>)
    requires b == [0x40, 5]
    ensures Decode(b) == Ok((5, []))
  {
    assert b[..1] == [0x40] && b[..1][..0] == [];
    assert FromBytes(b[..1]) == 0x40;
    assert FromBytes(b) == 0x4005;
    assert b[..2] == b && b[2..] == [];
  }

  // ---- The loops of `encode_frames` and `decode_frames` ----

  lemma EncodeStep(frames: seq<Frame>)
    requires |frames| > 0
    ensures EncodeAll(frames) ==
      if EncodeFrame(frames[0]).Err? then Err(EncodeFrame(frames[0]).error)
      else Prepend(EncodeFrame(frames[0]).value, EncodeAll(frames[1..]))
  {
    hide EncodeFrame;
  }

  lemma PrependNothing<T>(r: Result<seq<T>, ProtocolError>)
    ensures Prepend([], r) == r
  {
    if r.Ok? { assert [] + r.value == r.value; }
  }

  method WriteFrames(frames: seq<Frame>) returns (r: Result<seq<byte>, ProtocolError>)
    ensures r == EncodeFrames(frames)
  {
    hide EncodeFrame, EncodeAll;
    if |frames| == 0 { return Err(EmptyPacket); }
    if |frames| > MAX_FRAME_COUNT { return Err(TooManyFrames); }
    var payload: seq<byte> := [];
    PrependNothing(EncodeAll(frames));
    assert frames[0..] == frames;
    for i := 0 to |frames|
      invariant EncodeAll(frames) == Prepend(payload, EncodeAll(frames[i..]))
    {
      EncodeStep(frames[i..]);
      assert frames[i..][1..] == frames[i + 1..];
      var encoded := EncodeFrame(frames[i]);
      if encoded.Err? { return Err(encoded.error); }
      PrependTwice(payload, encoded.value, EncodeAll(frames[i + 1..]));
      payload := payload + encoded.value;
    }
    EncodeNothing();
    assert payload + [] == payload;
    if |payload| > MAX_PAYLOAD { return Err(FrameTooLarge(MAX_PAYLOAD, |payload|)); }
    r := Ok(payload);
  }

  lemma EncodeNothing()
    ensures EncodeAll([]) == Ok([])
  {
  }

  lemma DecodeStep(payload: seq<byte>, room: nat)
    requires |payload| > 0 && room > 0
    ensures DecodeAll(payload, room) ==
      if ReadFrame(payload).Err? then Err(ReadFrame(payload).error)
      else Prepend([ReadFrame(payload).value.0], DecodeAll(ReadFrame(payload).value.1, room - 1))
  {
    hide ReadFrame;
  }

  method ReadFrames(payload: seq<byte>) returns (r: Result<seq<Frame>, ProtocolError>)
    ensures r == DecodeFrames(payload)
  {
    hide ReadFrame;
    var frames: seq<Frame>, rest := [], payload;
    PrependNothing(DecodeAll(payload, MAX_FRAME_COUNT));
    while |rest| > 0
      invariant |frames| <= MAX_FRAME_COUNT
      invariant DecodeAll(payload, MAX_FRAME_COUNT) == Prepend(frames, DecodeAll(rest, MAX_FRAME_COUNT - |frames|))
    {
      if |frames| == MAX_FRAME_COUNT { return Err(TooManyFrames); }
      DecodeStep(rest, MAX_FRAME_COUNT - |frames|);
      var next := ReadFrame(rest);
      if next.Err? { return Err(next.error); }
      PrependTwice(frames, [next.value.0], DecodeAll(next.value.1, MAX_FRAME_COUNT - |frames| - 1));
      frames, rest := frames + [next.value.0], next.value.1;
    }
    assert frames + [] == frames;
    if |frames| == 0 { return Err(EmptyPacket); }
    r := Ok(frames);
  }

  // ---- Size of a packet with one chunk of stream data ----

  /** `max_stream_data_chunk`. */
  function ChunkLimit(maxDatagramSize: nat): nat
  {
    Max(SatSub(maxDatagramSize, 100), 1)
  }

  /** A chunk of the largest size that is cut for a datagram always fits it, encrypted or not,
      for every id and offset a varint can hold, from 67 bytes on. */
  lemma ChunkFits(streamId: u64, offset: u64, fin: bool, data: seq<byte>, maxDatagramSize: nat)
    requires streamId <= MAX_VALUE && offset <= MAX_VALUE
    requires 67 <= maxDatagramSize <= 65535 && |data| <= ChunkLimit(maxDatagramSize)
    ensures var payload := EncodeFrames([StreamData(streamId, offset, fin, data)]);
      && payload.Ok?
      && FIXED_HEADER_LEN + |payload.value| + AEAD_TAG_LEN <= maxDatagramSize
      && |payload.value| + AEAD_TAG_LEN <= MAX_PAYLOAD
  {
    BodySize(streamId, offset, fin, data);
    ChunkPayload(StreamData(streamId, offset, fin, data));
    hide EncodeFrames, EncodeStreamData, Encode;
  }

  lemma ChunkPayload(f: Frame)
    requires f.StreamData? && EncodeStreamData(f.streamId, f.offset, f.fin, f.data).Ok?
    requires |EncodeStreamData(f.streamId, f.offset, f.fin, f.data).value| <= 65460
    ensures var size := |EncodeStreamData(f.streamId, f.offset, f.fin, f.data).value|; var payload := EncodeFrames([f]);
      payload.Ok? && |payload.value| == size + if size < 64 then 2 else if size < 0x4000 then 3 else 5
  {
    hide EncodeStreamData, Encode;
    assert EncodeBody(f) == EncodeStreamData(f.streamId, f.offset, f.fin, f.data);
    var body := EncodeBody(f).value;
    assert |EncodeFrame(f).value| == 1 + |Encode(|body|).value| + |body|;
    assert [f][1..] == [];
    EncodeNothing();
    assert |EncodeAll([f]).value| == |EncodeFrame(f).value|;
  }

  /** The payload of the single byte that ends at the last offset has 21 bytes. */
  lemma LastChunkSize()
    ensures var payload := EncodeFrames([StreamData(MAX_VALUE, MAX_VALUE - 1, false, [0])]);
      payload.Ok? && |payload.value| == 21
  {
    BodySize(MAX_VALUE, MAX_VALUE - 1, false, [0]);
    ChunkPayload(StreamData(MAX_VALUE, MAX_VALUE - 1, false, [0]));
    hide EncodeFrames, EncodeStreamData, Encode;
  }

  lemma BodySize(streamId: u64, offset: u64, fin: bool, data: seq<byte>)
    requires streamId <= MAX_VALUE && offset <= MAX_VALUE && |data| <= MAX_FRAME_BODY_LEN
    ensures EncodeStreamData(streamId, offset, fin, data).Ok?
    ensures |EncodeStreamData(streamId, offset, fin, data).value| <= 21 + |data|
    ensures |data| < 64 ==> |EncodeStreamData(streamId, offset, fin, data).value| <= 18 + |data|
    ensures streamId >= 0x4000_0000 && offset >= 0x4000_0000 && |data| < 64 ==>
      |EncodeStreamData(streamId, offset, fin, data).value| == 18 + |data|
  {
  }
}
