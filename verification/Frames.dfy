/** The thirteen frames and their wire form: type byte, body length, body. */
module Frames {
  import opened Wrappers
  import opened Bytes
  import opened Varint
  import opened Reader
  import opened AckRanges
  import opened AckWire

  const MAX_FRAME_BODY_LEN: nat := 65535
  const MAX_COOKIE_LEN: nat := 128
  const MAX_RETRY_COOKIE_LEN: nat := 64
  const MAX_CLOSE_REASON_LEN: nat := 1024
  const FIXED_HEADER_LEN: nat := 30

  type Nonce = b: seq<byte> | |b| == 16 witness seq(16, i => 0)
  type PublicKey = b: seq<byte> | |b| == 32 witness seq(32, i => 0)
  type FinishedTag = b: seq<byte> | |b| == 16 witness seq(16, i => 0)

  /** Well-formed UTF-8 (section 4 of RFC 3629). */
  predicate ValidUtf8(b: seq<byte>)
  {
    if |b| == 0 then true
    else if b[0] < 0x80 then ValidUtf8(b[1..])
    else if 0xC2 <= b[0] <= 0xDF then |b| >= 2 && Tail(b[1]) && ValidUtf8(b[2..])
    else if 0xE0 <= b[0] <= 0xEF then
      && |b| >= 3 && Tail(b[1]) && Tail(b[2]) && ValidUtf8(b[3..])
      && (b[0] == 0xE0 ==> b[1] >= 0xA0) && (b[0] == 0xED ==> b[1] <= 0x9F)
    else
      && 0xF0 <= b[0] <= 0xF4 && |b| >= 4 && Tail(b[1]) && Tail(b[2]) && Tail(b[3]) && ValidUtf8(b[4..])
      && (b[0] == 0xF0 ==> b[1] >= 0x90) && (b[0] == 0xF4 ==> b[1] <= 0x8F)
  }

  predicate Tail(b: byte) { 0x80 <= b <= 0xBF }

  type Text = b: seq<byte> | ValidUtf8(b) witness []

  /** What both hello frames negotiate. */
  datatype Limits = Limits(maxDatagramSize: u16, maxStreams: u32, connectionWindow: u64, streamWindow: u64)

  datatype Frame =
    | ClientHello(nonce: Nonce, publicKey: PublicKey, limits: Limits, cookie: seq<byte>)
    | ServerHello(nonce: Nonce, publicKey: PublicKey, finished: FinishedTag, limits: Limits, cookie: seq<byte>)
    | HandshakeAck(cookie: seq<byte>, finished: FinishedTag)
    | Retry(cookie: seq<byte>)
    | Ack(ack: AckFrame)
    | StreamOpen(streamId: u64, receiveWindow: u64, bidirectional: bool)
    | StreamData(streamId: u64, offset: u64, fin: bool, data: seq<byte>)
    | ResetStream(streamId: u64, errorCode: u32, finalOffset: u64)
    | MaxStreamData(streamId: u64, maxOffset: u64)
    | MaxData(maxOffset: u64)
    | Ping(echo: u64)
    | Pong(echo: u64)
    | ConnectionClose(errorCode: u32, frameType: byte, reason: Text)

  predicate AckEliciting(f: Frame) { !f.Ack? && !f.Retry? }

  function TypeCode(f: Frame): byte
  {
    match f
    case ClientHello(_, _, _, _) => 1
    case ServerHello(_, _, _, _, _) => 2
    case HandshakeAck(_, _) => 3
    case Retry(_) => 13
    case Ack(_) => 4
    case StreamOpen(_, _, _) => 5
    case StreamData(_, _, _, _) => 6
    case ResetStream(_, _, _) => 7
    case MaxStreamData(_, _) => 8
    case MaxData(_) => 9
    case Ping(_) => 10
    case Pong(_) => 11
    case ConnectionClose(_, _, _) => 12
  }

  /** `validate_hello`. */
  predicate LimitsOk(l: Limits)
  {
    l.maxDatagramSize >= FIXED_HEADER_LEN && l.maxStreams != 0 && l.connectionWindow != 0 && l.streamWindow != 0
  }

  function EncodeLimits(l: Limits): seq<byte>
  {
    ToBytes(l.maxDatagramSize, 2) +
        (ToBytes(l.maxStreams, 4) + (ToBytes(l.connectionWindow, 8) + ToBytes(l.streamWindow, 8)))
  }

  function EncodeBody(f: Frame): Result<seq<byte>, ProtocolError>
  {
    match f
    case ClientHello(nonce, publicKey, limits, cookie) =>
      if !LimitsOk(limits) then Err(InvalidValue) else
      var blob :- WriteBlob(cookie, MAX_COOKIE_LEN);
      Ok(nonce + (publicKey + (EncodeLimits(limits) + blob)))
    case ServerHello(nonce, publicKey, finished, limits, cookie) =>
      if !LimitsOk(limits) then Err(InvalidValue) else
      var blob :- WriteBlob(cookie, MAX_COOKIE_LEN);
      Ok(nonce + (publicKey + (finished + (EncodeLimits(limits) + blob))))
    case HandshakeAck(cookie, finished) =>
      var blob :- WriteBlob(cookie, MAX_COOKIE_LEN);
      Ok(blob + finished)
    case Retry(cookie) => WriteBlob(cookie, MAX_RETRY_COOKIE_LEN)
    case Ack(ack) => EncodeAck(ack)
    case StreamOpen(streamId, receiveWindow, bidirectional) =>
      if receiveWindow == 0 then Err(InvalidValue) else
      var id :- Encode(streamId);
      var window :- Encode(receiveWindow);
      Ok(id + (window + WriteBool(bidirectional)))
    case StreamData(streamId, offset, fin, data) => EncodeStreamData(streamId, offset, fin, data)
    case ResetStream(streamId, errorCode, finalOffset) => EncodeResetStream(streamId, errorCode, finalOffset)
    case MaxStreamData(streamId, maxOffset) =>
      var id :- Encode(streamId);
      var max :- Encode(maxOffset);
      Ok(id + max)
    case MaxData(maxOffset) => Encode(maxOffset)
    case Ping(echo) => Ok(ToBytes(echo, 8))
    case Pong(echo) => Ok(ToBytes(echo, 8))
    case ConnectionClose(errorCode, frameType, reason) => EncodeConnectionClose(errorCode, frameType, reason)
  }

  function EncodeStreamData(streamId: u64, offset: u64, fin: bool, data: seq<byte>): Result<seq<byte>, ProtocolError>
  {
    var id :- Encode(streamId);
    var at :- Encode(offset);
    var blob :- WriteBlob(data, MAX_FRAME_BODY_LEN);
    Ok(id + (at + (WriteBool(fin) + blob)))
  }

  function EncodeResetStream(streamId: u64, errorCode: u32, finalOffset: u64): Result<seq<byte>, ProtocolError>
  {
    var id :- Encode(streamId);
    var final :- Encode(finalOffset);
    Ok(id + (ToBytes(errorCode, 4) + final))
  }

  function EncodeConnectionClose(errorCode: u32, frameType: byte, reason: Text): Result<seq<byte>, ProtocolError>
  {
    var blob :- WriteBlob(reason, MAX_CLOSE_REASON_LEN);
    Ok(ToBytes(errorCode, 4) + ([frameType] + blob))
  }

  function ReadLimits(input: seq<byte>): ReadResult<Limits>
  {
    var (size, a) :- ReadU16(input);
    var (streams, b) :- ReadU32(a);
    var (connection, c) :- ReadU64(b);
    var (stream, rest) :- ReadU64(c);
    Ok((Limits(size, streams, connection, stream), rest))
  }

  function ReadClientHello(input: seq<byte>): ReadResult<Frame>
  {
    var (nonce, a) :- ReadExact(input, 16);
    var (publicKey, b) :- ReadExact(a, 32);
    var (limits, c) :- ReadLimits(b);
    var (cookie, rest) :- ReadBlob(c, MAX_COOKIE_LEN);
    if LimitsOk(limits) then Ok((ClientHello(nonce, publicKey, limits, cookie), rest)) else Err(InvalidValue)
  }

  function ReadServerHello(input: seq<byte>): ReadResult<Frame>
  {
    var (nonce, a) :- ReadExact(input, 16);
    var (publicKey, b) :- ReadExact(a, 32);
    var (finished, c) :- ReadExact(b, 16);
    var (limits, d) :- ReadLimits(c);
    var (cookie, rest) :- ReadBlob(d, MAX_COOKIE_LEN);
    if LimitsOk(limits) then Ok((ServerHello(nonce, publicKey, finished, limits, cookie), rest)) else Err(InvalidValue)
  }

  function ReadHandshakeAck(input: seq<byte>): ReadResult<Frame>
  {
    var (cookie, a) :- ReadBlob(input, MAX_COOKIE_LEN);
    var (finished, rest) :- ReadExact(a, 16);
    Ok((HandshakeAck(cookie, finished), rest))
  }

  function ReadRetry(input: seq<byte>): ReadResult<Frame>
  {
    var (cookie, rest) :- ReadBlob(input, MAX_RETRY_COOKIE_LEN);
    Ok((Retry(cookie), rest))
  }

  function ReadAck(input: seq<byte>): ReadResult<Frame>
  {
    var (ack, rest) :- DecodeAck(input);
    Ok((Ack(ack), rest))
  }

  function ReadStreamOpen(input: seq<byte>): ReadResult<Frame>
  {
    var (streamId, a) :- Decode(input);
    var (window, b) :- Decode(a);
    var (bidirectional, rest) :- ReadBool(b);
    if window == 0 then Err(InvalidValue) else Ok((StreamOpen(streamId, window, bidirectional), rest))
  }

  function ReadStreamData(input: seq<byte>): ReadResult<Frame>
  {
    var (streamId, a) :- Decode(input);
    var (offset, b) :- Decode(a);
    var (fin, c) :- ReadBool(b);
    var (data, rest) :- ReadBlob(c, MAX_FRAME_BODY_LEN);
    if offset + |data| > U64_MAX then Err(InvalidValue) else Ok((StreamData(streamId, offset, fin, data), rest))
  }

  function ReadResetStream(input: seq<byte>): ReadResult<Frame>
  {
    var (streamId, a) :- Decode(input);
    var (errorCode, b) :- ReadU32(a);
    var (finalOffset, rest) :- Decode(b);
    Ok((ResetStream(streamId, errorCode, finalOffset), rest))
  }

  function ReadMaxStreamData(input: seq<byte>): ReadResult<Frame>
  {
    var (streamId, a) :- Decode(input);
    var (maxOffset, rest) :- Decode(a);
    Ok((MaxStreamData(streamId, maxOffset), rest))
  }

  function ReadMaxData(input: seq<byte>): ReadResult<Frame>
  {
    var (maxOffset, rest) :- Decode(input);
    Ok((MaxData(maxOffset), rest))
  }

  function ReadPing(input: seq<byte>): ReadResult<Frame>
  {
    var (echo, rest) :- ReadU64(input);
    Ok((Ping(echo), rest))
  }

  function ReadPong(input: seq<byte>): ReadResult<Frame>
  {
    var (echo, rest) :- ReadU64(input);
    Ok((Pong(echo), rest))
  }

  function ReadConnectionClose(input: seq<byte>): ReadResult<Frame>
  {
    var (errorCode, a) :- ReadU32(input);
    var (frameType, b) :- ReadU8(a);
    var (reason, rest) :- ReadBlob(b, MAX_CLOSE_REASON_LEN);
    if ValidUtf8(reason) then Ok((ConnectionClose(errorCode, frameType, reason), rest)) else Err(InvalidUtf8)
  }

  function ReadBody(frameType: byte, body: seq<byte>): ReadResult<Frame>
  {
    if frameType == 1 then ReadClientHello(body)
    else if frameType == 2 then ReadServerHello(body)
    else if frameType == 3 then ReadHandshakeAck(body)
    else if frameType == 13 then ReadRetry(body)
    else if frameType == 4 then ReadAck(body)
    else if frameType == 5 then ReadStreamOpen(body)
    else if frameType == 6 then ReadStreamData(body)
    else if frameType == 7 then ReadResetStream(body)
    else if frameType == 8 then ReadMaxStreamData(body)
    else if frameType == 9 then ReadMaxData(body)
    else if frameType == 10 then ReadPing(body)
    else if frameType == 11 then ReadPong(body)
    else if frameType == 12 then ReadConnectionClose(body)
    else Err(UnknownFrameType(frameType))
  }

  /** `Frame::decode`: the body must be used up. */
  function DecodeBody(frameType: byte, body: seq<byte>): Result<Frame, ProtocolError>
  {
    var (frame, rest) :- ReadBody(frameType, body);
    if |rest| == 0 then Ok(frame) else Err(InvalidValue)
  }

  /** `Frame::encode`. */
  function EncodeFrame(f: Frame): Result<seq<byte>, ProtocolError>
  {
    var body :- EncodeBody(f);
    if |body| > MAX_FRAME_BODY_LEN then Err(FrameTooLarge(MAX_FRAME_BODY_LEN, |body|)) else
    var length :- Encode(|body|);
    Ok([TypeCode(f)] + (length + body))
  }

  /** What survives the wire: everything but the part of an ACK delay below a microsecond. */
  function Received(f: Frame): Frame
  {
    if f.Ack? then Ack(WholeMicros(f.ack)) else f
  }

  // ---- Each kind reads back ----

  lemma LimitsRoundTrip(l: Limits, rest: seq<byte>)
    ensures ReadLimits(EncodeLimits(l) + rest) == Ok((l, rest))
  {
    var a, b := ToBytes(l.maxDatagramSize, 2), ToBytes(l.maxStreams, 4);
    var c, d := ToBytes(l.connectionWindow, 8), ToBytes(l.streamWindow, 8);
    hide ReadU16, ReadU32, ReadU64, ToBytes;
    assert (a + (b + (c + d))) + rest == a + (b + (c + (d + rest)));
    FixedRoundTrip(l.maxDatagramSize, 0, 0, b + (c + (d + rest)));
    FixedRoundTrip(0, l.maxStreams, 0, c + (d + rest));
    FixedRoundTrip(0, 0, l.connectionWindow, d + rest);
    FixedRoundTrip(0, 0, l.streamWindow, rest);
  }

  /** Reads `f` back from its own body and stops behind it. */
  ghost predicate ReadsBack(f: Frame)
  {
    EncodeBody(f).Ok? ==> ReadBody(TypeCode(f), EncodeBody(f).value) == Ok((Received(f), []))
  }

  lemma ClientHelloBack(f: Frame)
    requires f.ClientHello?
    ensures ReadsBack(f)
  {
    if EncodeBody(f).Ok? {
      var blob := WriteBlob(f.cookie, MAX_COOKIE_LEN).value;
      hide ReadExact, ReadLimits, EncodeLimits, ReadBlob, WriteBlob;
      ExactRoundTrip(f.nonce, f.publicKey + (EncodeLimits(f.limits) + blob));
      ExactRoundTrip(f.publicKey, EncodeLimits(f.limits) + blob);
      LimitsRoundTrip(f.limits, blob);
      BlobRoundTrip(f.cookie, MAX_COOKIE_LEN, []);
      assert blob + [] == blob;
    }
  }

  lemma ServerHelloBack(f: Frame)
    requires f.ServerHello?
    ensures ReadsBack(f)
  {
    if EncodeBody(f).Ok? {
      var blob := WriteBlob(f.cookie, MAX_COOKIE_LEN).value;
      hide ReadExact, ReadLimits, EncodeLimits, ReadBlob, WriteBlob;
      ExactRoundTrip(f.nonce, f.publicKey + (f.finished + (EncodeLimits(f.limits) + blob)));
      ExactRoundTrip(f.publicKey, f.finished + (EncodeLimits(f.limits) + blob));
      ExactRoundTrip(f.finished, EncodeLimits(f.limits) + blob);
      LimitsRoundTrip(f.limits, blob);
      BlobRoundTrip(f.cookie, MAX_COOKIE_LEN, []);
      assert blob + [] == blob;
    }
  }

  lemma CookieBack(f: Frame)
    requires f.HandshakeAck? || f.Retry?
    ensures ReadsBack(f)
  {
    if EncodeBody(f).Ok? {
      hide ReadExact, ReadBlob, WriteBlob;
      if f.HandshakeAck? {
        BlobRoundTrip(f.cookie, MAX_COOKIE_LEN, f.finished);
        ExactRoundTrip(f.finished, []);
        assert f.finished + [] == f.finished;
      } else {
        var blob := WriteBlob(f.cookie, MAX_RETRY_COOKIE_LEN).value;
        BlobRoundTrip(f.cookie, MAX_RETRY_COOKIE_LEN, []);
        assert blob + [] == blob;
      }
    }
  }

  lemma AckBack(f: Frame)
    requires f.Ack?
    ensures ReadsBack(f)
  {
    if EncodeBody(f).Ok? {
      hide EncodeAck, DecodeAck;
      AckRoundTrip(f.ack, []);
      var body := EncodeAck(f.ack).value;
      assert body + [] == body;
    }
  }

  lemma StreamOpenBack(f: Frame)
    requires f.StreamOpen?
    ensures ReadsBack(f)
  {
    if EncodeBody(f).Ok? {
      hide Decode, Encode, ReadBool, WriteBool;
      var window, flag := Encode(f.receiveWindow).value, WriteBool(f.bidirectional);
      RoundTrip(f.streamId, window + flag);
      RoundTrip(f.receiveWindow, flag);
      BoolRoundTrip(f.bidirectional, []);
      assert flag + [] == flag;
    }
  }

  lemma StreamDataReads(streamId: u64, offset: u64, fin: bool, data: seq<byte>)
    requires EncodeStreamData(streamId, offset, fin, data).Ok?
    ensures ReadStreamData(EncodeStreamData(streamId, offset, fin, data).value) ==
      Ok((StreamData(streamId, offset, fin, data), []))
  {
    var at, flag, blob := Encode(offset).value, WriteBool(fin), WriteBlob(data, MAX_FRAME_BODY_LEN).value;
    assert offset <= MAX_VALUE && |data| <= MAX_FRAME_BODY_LEN;
    hide Decode, Encode, ReadBool, WriteBool, ReadBlob, WriteBlob;
    RoundTrip(streamId, at + (flag + blob));
    RoundTrip(offset, flag + blob);
    BoolRoundTrip(fin, blob);
    BlobRoundTrip(data, MAX_FRAME_BODY_LEN, []);
    assert blob + [] == blob;
  }

  lemma StreamDataBack(f: Frame)
    requires f.StreamData?
    ensures ReadsBack(f)
  {
    hide EncodeStreamData, ReadStreamData;
    if EncodeBody(f).Ok? { StreamDataReads(f.streamId, f.offset, f.fin, f.data); }
  }

  lemma ResetStreamReads(streamId: u64, errorCode: u32, finalOffset: u64)
    requires EncodeResetStream(streamId, errorCode, finalOffset).Ok?
    ensures ReadResetStream(EncodeResetStream(streamId, errorCode, finalOffset).value) ==
      Ok((ResetStream(streamId, errorCode, finalOffset), []))
  {
    hide Decode, Encode, ReadU32, ToBytes;
    var final := Encode(finalOffset).value;
    RoundTrip(streamId, ToBytes(errorCode, 4) + final);
    FixedRoundTrip(0, errorCode, 0, final);
    RoundTrip(finalOffset, []);
    assert final + [] == final;
  }

  lemma ResetStreamBack(f: Frame)
    requires f.ResetStream?
    ensures ReadsBack(f)
  {
    hide EncodeResetStream, ReadResetStream;
    if EncodeBody(f).Ok? { ResetStreamReads(f.streamId, f.errorCode, f.finalOffset); }
  }

  lemma MaximumBack(f: Frame)
    requires f.MaxStreamData? || f.MaxData?
    ensures ReadsBack(f)
  {
    if EncodeBody(f).Ok? {
      hide Decode, Encode;
      var max := Encode(f.maxOffset).value;
      if f.MaxStreamData? { RoundTrip(f.streamId, max); }
      RoundTrip(f.maxOffset, []);
      assert max + [] == max;
    }
  }

  lemma EchoBack(f: Frame)
    requires f.Ping? || f.Pong?
    ensures ReadsBack(f)
  {
    hide ReadU64, ToBytes;
    FixedRoundTrip(0, 0, f.echo, []);
    assert ToBytes(f.echo, 8) + [] == ToBytes(f.echo, 8);
  }

  lemma ConnectionCloseReads(errorCode: u32, frameType: byte, reason: Text)
    requires EncodeConnectionClose(errorCode, frameType, reason).Ok?
    ensures ReadConnectionClose(EncodeConnectionClose(errorCode, frameType, reason).value) ==
      Ok((ConnectionClose(errorCode, frameType, reason), []))
  {
    hide ReadU32, ToBytes, ReadBlob, WriteBlob, ValidUtf8;
    var blob := WriteBlob(reason, MAX_CLOSE_REASON_LEN).value;
    FixedRoundTrip(0, errorCode, 0, [frameType] + blob);
    ExactRoundTrip([frameType], blob);
    BlobRoundTrip(reason, MAX_CLOSE_REASON_LEN, []);
    assert blob + [] == blob;
  }

  lemma ConnectionCloseBack(f: Frame)
    requires f.ConnectionClose?
    ensures ReadsBack(f)
  {
    hide EncodeConnectionClose, ReadConnectionClose;
    if EncodeBody(f).Ok? { ConnectionCloseReads(f.errorCode, f.frameType, f.reason); }
  }

  lemma EveryKindBack(f: Frame)
    ensures ReadsBack(f)
  {
    hide ReadsBack;
    match f
    case ClientHello(_, _, _, _) => ClientHelloBack(f);
    case ServerHello(_, _, _, _, _) => ServerHelloBack(f);
    case HandshakeAck(_, _) => CookieBack(f);
    case Retry(_) => CookieBack(f);
    case Ack(_) => AckBack(f);
    case StreamOpen(_, _, _) => StreamOpenBack(f);
    case StreamData(_, _, _, _) => StreamDataBack(f);
    case ResetStream(_, _, _) => ResetStreamBack(f);
    case MaxStreamData(_, _) => MaximumBack(f);
    case MaxData(_) => MaximumBack(f);
    case Ping(_) => EchoBack(f);
    case Pong(_) => EchoBack(f);
    case ConnectionClose(_, _, _) => ConnectionCloseBack(f);
  }

  /** Every frame that encodes decodes to itself, up to the precision of an ACK delay. */
  lemma FrameRoundTrip(f: Frame)
    requires EncodeBody(f).Ok?
    ensures DecodeBody(TypeCode(f), EncodeBody(f).value) == Ok(Received(f))
  {
    EveryKindBack(f);
    hide ReadBody, EncodeBody, TypeCode;
  }
}
