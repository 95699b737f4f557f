/** The other direction of the codec: what is decoded and encoded again. Encoding always picks
    the shortest varint while decoding takes any, so the bytes come back if and only if every
    varint in them was minimal. */
module Reencoding {
  import opened Wrappers
  import opened Bytes
  import opened Varint
  import opened Reader
  import opened AckRanges
  import opened AckWire
  import opened Frames
  import opened Packets

  /** What was read off the front of `input`, leaving `rest`, is written as `written`: never in
      more bytes, in as many just if it was minimal, and then in the same ones. */
  predicate Rewrites(input: seq<byte>, rest: seq<byte>, written: Result<seq<byte>, ProtocolError>, minimal: bool)
  {
    && |rest| <= |input| && written.Ok? && |written.value| <= |input| - |rest|
    && (minimal <==> |written.value| == |input| - |rest|)
    && (minimal ==> input == written.value + rest)
  }

  lemma RewritesThen(input: seq<byte>, middle: seq<byte>, rest: seq<byte>, first: Result<seq<byte>, ProtocolError>,
          m: bool,
                     second: Result<seq<byte>, ProtocolError>, n: bool)
    requires Rewrites(input, middle, first, m) && Rewrites(middle, rest, second, n)
    ensures Rewrites(input, rest, Ok(first.value + second.value), m && n)
  {
    if m && n { assert first.value + (second.value + rest) == (first.value + second.value) + rest; }
  }

  function RestOf<T>(r: ReadResult<T>): seq<byte>
  {
    if r.Ok? then r.value.1 else []
  }

  // ---- Varints ----

  /** The varint in front, if there is one, takes no more bytes than it needs. */
  predicate MinimalVarint(input: seq<byte>)
  {
    var r := Decode(input);
    r.Ok? ==> EncodedLen(r.value.0) == Ok(|input| - |r.value.1|)
  }

  /** Encoding what was decoded gives the same bytes if and only if they were as few as possible. */
  lemma VarintReencodes(input: seq<byte>, value: u64, rest: seq<byte>)
    requires Decode(input) == Ok((value, rest))
    ensures |rest| <= |input|
    ensures Encode(value) == Ok(input[..|input| - |rest|]) <==> EncodedLen(value) == Ok(|input| - |rest|)
    ensures Rewrites(input, rest, Encode(value), MinimalVarint(input))
  {
    var n := |input| - |rest|;
    var bytes := input[..n];
    DecodedBytes(input, value, rest);
    hide Decode, FromBytes, ToBytes;
    ValueRoundTrip(bytes);
    assert input == bytes + input[n..];
  }

  /** The bytes of a varint are its tag and its value, and the value fits them. */
  lemma DecodedBytes(input: seq<byte>, value: u64, rest: seq<byte>)
    requires Decode(input) == Ok((value, rest))
    ensures |rest| <= |input| && rest == input[|input| - |rest|..]
    ensures var n := |input| - |rest|;
      && n in {1, 2, 4, 8} && FromBytes(input[..n]) == value + Tag(n) * Pow256(n - 1)
      && EncodedLen(value).Ok? && EncodedLen(value).value <= n
  {
    var n := |input| - |rest|;
    var bytes := input[..n];
    var low := [bytes[0] % 64] + bytes[1..];
    Powers();
    LeadingDigit(bytes);
    LeadingDigit(low);
    assert low[1..] == bytes[1..];
    LeadingBound(low);
    hide FromBytes, Pow256;
    Digits(bytes[0], Pow256(n - 1));
    assert FromBytes(bytes) == FromBytes(low) + Tag(n) * Pow256(n - 1);
    assert value == FromBytes(low);
  }

  lemma Digits(b: byte, p: nat)
    ensures b * p == (b % 64) * p + (b / 64 * 64) * p
    ensures (b % 64 + 1) * p <= 64 * p
  {
    Distribute(b % 64, b / 64 * 64, p);
    NoMore(b % 64 + 1, p);
  }

  lemma Distribute(a: nat, b: nat, p: nat)
    ensures (a + b) * p == a * p + b * p
  {
  }

  lemma NoMore(d: nat, p: nat)
    requires d <= 64
    ensures d * p <= 64 * p
  {
  }

  // ---- Fields ----

  lemma ExactReencodes(input: seq<byte>, length: nat)
    requires ReadExact(input, length).Ok?
    ensures var (bytes, rest) := ReadExact(input, length).value; Rewrites(input, rest, Ok(bytes), true)
  {
    assert input == input[..length] + input[length..];
  }

  lemma FixedReencodes(input: seq<byte>)
    ensures ReadU8(input).Ok? ==> var (n, rest) := ReadU8(input).value; Rewrites(input, rest, Ok([n]), true)
    ensures ReadU16(input).Ok? ==> var (n, rest) := ReadU16(input).value; Rewrites(input, rest, Ok(ToBytes(n, 2)), true)
    ensures ReadU32(input).Ok? ==> var (n, rest) := ReadU32(input).value; Rewrites(input, rest, Ok(ToBytes(n, 4)), true)
    ensures ReadU64(input).Ok? ==> var (n, rest) := ReadU64(input).value; Rewrites(input, rest, Ok(ToBytes(n, 8)), true)
  {
    hide FromBytes, ToBytes;
    forall width: nat | width in {1, 2, 4, 8} && width <= |input|
      ensures ToBytes(FromBytes(input[..width]), width) + input[width..] == input
    {
      ValueRoundTrip(input[..width]);
    }
    if |input| > 0 { assert [input[..1][0]] + input[1..] == input; }
  }

  lemma BoolReencodes(input: seq<byte>)
    ensures ReadBool(input).Ok? ==>
      var (b, rest) := ReadBool(input).value; Rewrites(input, rest, Ok(WriteBool(b)), true)
  {
    if ReadBool(input).Ok? { assert [input[0]] + input[1..] == input; }
  }

  lemma BlobReencodes(input: seq<byte>, maximum: nat)
    requires maximum <= MAX_FRAME_BODY_LEN && ReadBlob(input, maximum).Ok?
    ensures var (bytes, rest) := ReadBlob(input, maximum).value;
      Rewrites(input, rest, WriteBlob(bytes, maximum), MinimalVarint(input))
  {
    var (length, middle) := Decode(input).value;
    VarintReencodes(input, length, middle);
    ExactReencodes(middle, length);
    hide Encode, Decode, MinimalVarint;
    var (bytes, rest) := ReadExact(middle, length).value;
    RewritesThen(input, middle, rest, Encode(length), MinimalVarint(input), Ok(bytes), true);
  }

  lemma LimitsReencode(input: seq<byte>)
    requires ReadLimits(input).Ok?
    ensures var (limits, rest) := ReadLimits(input).value; Rewrites(input, rest, Ok(EncodeLimits(limits)), true)
  {
    hide ReadU16, ReadU32, ReadU64, ToBytes;
    var (size, a) := ReadU16(input).value;
    var (streams, b) := ReadU32(a).value;
    var (connection, c) := ReadU64(b).value;
    var (stream, rest) := ReadU64(c).value;
    FixedReencodes(input);
    FixedReencodes(a);
    FixedReencodes(b);
    FixedReencodes(c);
    RewritesThen(b, c, rest, Ok(ToBytes(connection, 8)), true, Ok(ToBytes(stream, 8)), true);
    RewritesThen(a, b, rest, Ok(ToBytes(streams, 4)), true, Ok(ToBytes(connection, 8) + ToBytes(stream, 8)), true);
    RewritesThen(input, a, rest, Ok(ToBytes(size, 2)), true,
                 Ok(ToBytes(streams, 4) + (ToBytes(connection, 8) + ToBytes(stream, 8))), true);
  }

  // ---- Acknowledgements ----

  predicate MinimalPairs(input: seq<byte>, count: nat)
    decreases count
  {
    count == 0 ||
    var afterStart := RestOf(Decode(input));
    var afterEnd := RestOf(Decode(afterStart));
    MinimalVarint(input) && MinimalVarint(afterStart) && MinimalPairs(afterEnd, count - 1)
  }

  lemma {:induction false} PairsReencode(input: seq<byte>, count: nat)
    requires DecodePairs(input, count).Ok?
    ensures var (ranges, rest) := DecodePairs(input, count).value;
      |ranges| == count && Rewrites(input, rest, EncodePairs(ranges), MinimalPairs(input, count))
    decreases count
  {
    hide Decode, Encode, MinimalVarint;
    var (ranges, rest) := DecodePairs(input, count).value;
    if count == 0 {
      assert [] + input == input;
    } else {
      var (start, afterStart) := Decode(input).value;
      var (end, afterEnd) := Decode(afterStart).value;
      var others := DecodePairs(afterEnd, count - 1).value.0;
      VarintReencodes(input, start, afterStart);
      VarintReencodes(afterStart, end, afterEnd);
      PairsReencode(afterEnd, count - 1);
      assert ranges[1..] == others;
      RewritesThen(afterStart, afterEnd, rest, Encode(end), MinimalVarint(afterStart), EncodePairs(others),
          MinimalPairs(afterEnd, count - 1));
      RewritesThen(input, afterStart, rest, Encode(start), MinimalVarint(input),
          Ok(Encode(end).value + EncodePairs(others).value),
                   MinimalVarint(afterStart) && MinimalPairs(afterEnd, count - 1));
    }
  }

  predicate MinimalAck(input: seq<byte>)
  {
    var a := RestOf(Decode(input));
    var b := RestOf(Decode(a));
    var c := RestOf(Decode(b));
    && MinimalVarint(input) && MinimalVarint(a) && MinimalVarint(b)
    && (Decode(b).Ok? ==> MinimalPairs(c, Decode(b).value.0))
  }

  lemma AckReencodes(input: seq<byte>)
    requires DecodeAck(input).Ok?
    ensures var (ack, rest) := DecodeAck(input).value; Rewrites(input, rest, EncodeAck(ack), MinimalAck(input))
  {
    hide Decode, Encode, MinimalVarint, DecodePairs, EncodePairs, MinimalPairs;
    var (largest, a) := Decode(input).value;
    var (micros, b) := Decode(a).value;
    var (count, c) := Decode(b).value;
    var (pairs, rest) := DecodePairs(c, count).value;
    var ack := DecodeAck(input).value.0;
    assert Micros(ack) == micros && ack.ranges == pairs;
    VarintReencodes(input, largest, a);
    VarintReencodes(a, micros, b);
    VarintReencodes(b, count, c);
    PairsReencode(c, count);
    RewritesThen(b, c, rest, Encode(count), MinimalVarint(b), EncodePairs(pairs), MinimalPairs(c, count));
    var d, m := Encode(count).value + EncodePairs(pairs).value, MinimalVarint(b) && MinimalPairs(c, count);
    RewritesThen(a, b, rest, Encode(micros), MinimalVarint(a), Ok(d), m);
    RewritesThen(input, a, rest, Encode(largest), MinimalVarint(input), Ok(Encode(micros).value + d),
        MinimalVarint(a) && m);
  }

  // ---- Frames ----

  /** Every varint in a frame body of this type is minimal. */
  predicate MinimalBody(frameType: byte, body: seq<byte>)
  {
    var a := RestOf(Decode(body));
    if frameType == 1 then MinimalVarint(RestOf(ReadLimits(RestOf(ReadExact(RestOf(ReadExact(body, 16)), 32)))))
    else if frameType == 2 then
      MinimalVarint(RestOf(ReadLimits(RestOf(ReadExact(RestOf(ReadExact(RestOf(ReadExact(body, 16)), 32)), 16)))))
    else if frameType == 3 || frameType == 13 || frameType == 9 then MinimalVarint(body)
    else if frameType == 4 then MinimalAck(body)
    else if frameType == 5 || frameType == 8 then MinimalVarint(body) && MinimalVarint(a)
    else if frameType == 6
        then MinimalVarint(body) && MinimalVarint(a) && MinimalVarint(RestOf(ReadBool(RestOf(Decode(a)))))
    else if frameType == 7 then MinimalVarint(body) && MinimalVarint(RestOf(ReadU32(a)))
    else if frameType == 12 then MinimalVarint(RestOf(ReadU8(RestOf(ReadU32(body)))))
    else true
  }

  /** What was read from a body of this type is of that type and is written back so. */
  predicate BodyRewrites(frameType: byte, body: seq<byte>)
  {
    var r := ReadBody(frameType, body);
    r.Ok? ==>
      && TypeCode(r.value.0) == frameType
      && Rewrites(body, r.value.1, EncodeBody(r.value.0), MinimalBody(frameType, body))
  }

  lemma ClientHelloRewrites(body: seq<byte>)
    ensures BodyRewrites(1, body)
  {
    hide Decode, Encode, MinimalVarint, ReadLimits, EncodeLimits, ReadBlob, WriteBlob;
    if ReadClientHello(body).Ok? {
      var (nonce, a) := ReadExact(body, 16).value;
      var (publicKey, b) := ReadExact(a, 32).value;
      var (limits, c) := ReadLimits(b).value;
      var (cookie, rest) := ReadBlob(c, MAX_COOKIE_LEN).value;
      ExactReencodes(body, 16);
      ExactReencodes(a, 32);
      LimitsReencode(b);
      BlobReencodes(c, MAX_COOKIE_LEN);
      hide ReadExact;
      var m, blob := MinimalVarint(c), WriteBlob(cookie, MAX_COOKIE_LEN).value;
      RewritesThen(b, c, rest, Ok(EncodeLimits(limits)), true, Ok(blob), m);
      RewritesThen(a, b, rest, Ok(publicKey), true, Ok(EncodeLimits(limits) + blob), m);
      RewritesThen(body, a, rest, Ok(nonce), true, Ok(publicKey + (EncodeLimits(limits) + blob)), m);
    }
  }

  lemma ServerHelloRewrites(body: seq<byte>)
    ensures BodyRewrites(2, body)
  {
    hide Decode, Encode, MinimalVarint, ReadLimits, EncodeLimits, ReadBlob, WriteBlob;
    if ReadServerHello(body).Ok? {
      var (nonce, a) := ReadExact(body, 16).value;
      var (publicKey, b) := ReadExact(a, 32).value;
      var (finished, c) := ReadExact(b, 16).value;
      var (limits, d) := ReadLimits(c).value;
      var (cookie, rest) := ReadBlob(d, MAX_COOKIE_LEN).value;
      ExactReencodes(body, 16);
      ExactReencodes(a, 32);
      ExactReencodes(b, 16);
      LimitsReencode(c);
      BlobReencodes(d, MAX_COOKIE_LEN);
      hide ReadExact;
      var m, blob := MinimalVarint(d), WriteBlob(cookie, MAX_COOKIE_LEN).value;
      RewritesThen(c, d, rest, Ok(EncodeLimits(limits)), true, Ok(blob), m);
      RewritesThen(b, c, rest, Ok(finished), true, Ok(EncodeLimits(limits) + blob), m);
      RewritesThen(a, b, rest, Ok(publicKey), true, Ok(finished + (EncodeLimits(limits) + blob)), m);
      RewritesThen(body, a, rest, Ok(nonce), true, Ok(publicKey + (finished + (EncodeLimits(limits) + blob))), m);
    }
  }

  lemma CookieRewrites(body: seq<byte>)
    ensures BodyRewrites(3, body) && BodyRewrites(13, body)
  {
    hide Decode, Encode, MinimalVarint, ReadBlob, WriteBlob;
    if ReadBlob(body, MAX_RETRY_COOKIE_LEN).Ok? { BlobReencodes(body, MAX_RETRY_COOKIE_LEN); }
    if ReadHandshakeAck(body).Ok? {
      var (cookie, a) := ReadBlob(body, MAX_COOKIE_LEN).value;
      var (finished, rest) := ReadExact(a, 16).value;
      BlobReencodes(body, MAX_COOKIE_LEN);
      ExactReencodes(a, 16);
      hide ReadExact;
      RewritesThen(body, a, rest, WriteBlob(cookie, MAX_COOKIE_LEN), MinimalVarint(body), Ok(finished), true);
    }
  }

  lemma AckRewrites(body: seq<byte>)
    ensures BodyRewrites(4, body)
  {
    hide DecodeAck, EncodeAck, MinimalAck;
    if DecodeAck(body).Ok? { AckReencodes(body); }
  }

  lemma StreamOpenRewrites(body: seq<byte>)
    ensures BodyRewrites(5, body)
  {
    hide Decode, Encode, MinimalVarint, ReadBool, WriteBool;
    if ReadStreamOpen(body).Ok? {
      var (streamId, a) := Decode(body).value;
      var (window, b) := Decode(a).value;
      var (bidirectional, rest) := ReadBool(b).value;
      VarintReencodes(body, streamId, a);
      VarintReencodes(a, window, b);
      BoolReencodes(b);
      RewritesThen(a, b, rest, Encode(window), MinimalVarint(a), Ok(WriteBool(bidirectional)), true);
      RewritesThen(body, a, rest, Encode(streamId), MinimalVarint(body),
          Ok(Encode(window).value + WriteBool(bidirectional)), MinimalVarint(a));
    }
  }

  lemma StreamDataRewrites(body: seq<byte>)
    ensures BodyRewrites(6, body)
  {
    hide Decode, Encode, MinimalVarint, ReadBool, WriteBool, ReadBlob, WriteBlob;
    if ReadStreamData(body).Ok? {
      var (streamId, a) := Decode(body).value;
      var (offset, b) := Decode(a).value;
      var (fin, c) := ReadBool(b).value;
      var (data, rest) := ReadBlob(c, MAX_FRAME_BODY_LEN).value;
      VarintReencodes(body, streamId, a);
      VarintReencodes(a, offset, b);
      BoolReencodes(b);
      BlobReencodes(c, MAX_FRAME_BODY_LEN);
      var blob, m := WriteBlob(data, MAX_FRAME_BODY_LEN).value, MinimalVarint(c);
      RewritesThen(b, c, rest, Ok(WriteBool(fin)), true, Ok(blob), m);
      RewritesThen(a, b, rest, Encode(offset), MinimalVarint(a), Ok(WriteBool(fin) + blob), m);
      RewritesThen(body, a, rest, Encode(streamId), MinimalVarint(body),
          Ok(Encode(offset).value + (WriteBool(fin) + blob)), MinimalVarint(a) && m);
    }
  }

  lemma ResetStreamRewrites(body: seq<byte>)
    ensures BodyRewrites(7, body)
  {
    hide Decode, Encode, MinimalVarint, ReadU32, ToBytes;
    if ReadResetStream(body).Ok? {
      var (streamId, a) := Decode(body).value;
      var (errorCode, b) := ReadU32(a).value;
      var (finalOffset, rest) := Decode(b).value;
      VarintReencodes(body, streamId, a);
      FixedReencodes(a);
      VarintReencodes(b, finalOffset, rest);
      RewritesThen(a, b, rest, Ok(ToBytes(errorCode, 4)), true, Encode(finalOffset), MinimalVarint(b));
      RewritesThen(body, a, rest, Encode(streamId), MinimalVarint(body),
          Ok(ToBytes(errorCode, 4) + Encode(finalOffset).value), MinimalVarint(b));
    }
  }

  lemma MaximumRewrites(body: seq<byte>)
    ensures BodyRewrites(8, body) && BodyRewrites(9, body)
  {
    hide Decode, Encode, MinimalVarint;
    if Decode(body).Ok? {
      var (first, a) := Decode(body).value;
      VarintReencodes(body, first, a);
      if Decode(a).Ok? {
        var (maxOffset, rest) := Decode(a).value;
        VarintReencodes(a, maxOffset, rest);
        RewritesThen(body, a, rest, Encode(first), MinimalVarint(body), Encode(maxOffset), MinimalVarint(a));
      }
    }
  }

  lemma EchoRewrites(body: seq<byte>)
    ensures BodyRewrites(10, body) && BodyRewrites(11, body)
  {
    hide ReadU64, ToBytes;
    FixedReencodes(body);
  }

  lemma ConnectionCloseRewrites(body: seq<byte>)
    ensures BodyRewrites(12, body)
  {
    hide Decode, Encode, MinimalVarint, ReadU32, ReadU8, ToBytes, ReadBlob, WriteBlob, ValidUtf8;
    if ReadConnectionClose(body).Ok? {
      var (errorCode, a) := ReadU32(body).value;
      var (frameType, b) := ReadU8(a).value;
      var (reason, rest) := ReadBlob(b, MAX_CLOSE_REASON_LEN).value;
      FixedReencodes(body);
      FixedReencodes(a);
      BlobReencodes(b, MAX_CLOSE_REASON_LEN);
      var blob := WriteBlob(reason, MAX_CLOSE_REASON_LEN).value;
      RewritesThen(a, b, rest, Ok([frameType]), true, Ok(blob), MinimalVarint(b));
      RewritesThen(body, a, rest, Ok(ToBytes(errorCode, 4)), true, Ok([frameType] + blob), MinimalVarint(b));
    }
  }

  lemma EveryBodyRewrites(frameType: byte, body: seq<byte>)
    ensures BodyRewrites(frameType, body)
  {
    if 1 <= frameType <= 13 {
      ClientHelloRewrites(body);
      ServerHelloRewrites(body);
      CookieRewrites(body);
      AckRewrites(body);
      StreamOpenRewrites(body);
      StreamDataRewrites(body);
      ResetStreamRewrites(body);
      MaximumRewrites(body);
      EchoRewrites(body);
      ConnectionCloseRewrites(body);
      hide BodyRewrites;
      assert frameType in {1, 2, 3, 4, 5, 6, 7, 8, 9, 10, 11, 12, 13};
    }
  }

  /** Every varint of the frame in front is minimal, that of its length included. */
  predicate MinimalFrame(payload: seq<byte>)
    requires |payload| > 0
  {
    var length := Decode(payload[1..]);
    && MinimalVarint(payload[1..])
    && (length.Ok? && length.value.0 <= |length.value.1| ==> MinimalBody(payload[0], length.value.1[..length.value.0]))
  }

  /** A shorter body never takes a longer length field. */
  lemma LengthField(n: nat, m: nat)
    requires n <= m <= MAX_VALUE
    ensures EncodedLen(n).value <= EncodedLen(m).value
  {
  }

  lemma FrameReencodes(payload: seq<byte>)
    requires |payload| > 0 && ReadFrame(payload).Ok?
    ensures var (frame, rest) := ReadFrame(payload).value;
      Rewrites(payload, rest, EncodeFrame(frame), MinimalFrame(payload))
  {
    hide Decode, Encode, MinimalVarint, MinimalBody, EncodeBody, ReadBody;
    var (length, a) := Decode(payload[1..]).value;
    var (body, after) := ReadExact(a, length).value;
    var frame := DecodeBody(payload[0], body).value;
    assert payload == [payload[0]] + payload[1..];
    VarintReencodes(payload[1..], length, a);
    ExactReencodes(a, length);
    EveryBodyRewrites(payload[0], body);
    assert a == body + after && |body| == length;
    var written := EncodeBody(frame).value;
    LengthField(|written|, length);
    FrameBytes(payload, a, body, after, written, Encode(|written|).value, MinimalVarint(payload[1..]),
        MinimalBody(payload[0], body));
  }

  lemma FrameBytes(payload: seq<byte>, a: seq<byte>, body: seq<byte>, after: seq<byte>, written: seq<byte>,
          size: seq<byte>, m: bool, n: bool)
    requires |payload| > 0 && a == body + after && |a| < |payload| && |written| <= |body|
    requires n <==> |written| == |body|
    requires n ==> body == written + []
    requires |size| <= |payload| - 1 - |a|
    requires n ==> (m <==> |size| == |payload| - 1 - |a|) && (m ==> payload[1..] == size + a)
    requires !m && n ==> |size| < |payload| - 1 - |a|
    ensures Rewrites(payload, after, Ok([payload[0]] + (size + written)), m && n)
  {
    if m && n {
      assert written == body;
      assert payload == [payload[0]] + payload[1..];
      assert [payload[0]] + (size + (body + after)) == ([payload[0]] + (size + written)) + after;
    }
  }

  // ---- Payloads and packets ----

  /** Every varint of every frame is minimal. */
  predicate MinimalAll(payload: seq<byte>)
    decreases |payload|
  {
    |payload| > 0 && ReadFrame(payload).Ok? ==> MinimalFrame(payload) && MinimalAll(ReadFrame(payload).value.1)
  }

  lemma {:induction false} AllReencode(payload: seq<byte>, room: nat)
    requires DecodeAll(payload, room).Ok?
    ensures var frames := DecodeAll(payload, room).value;
      |frames| <= room && Rewrites(payload, [], EncodeAll(frames), MinimalAll(payload))
    decreases |payload|
  {
    hide ReadFrame, EncodeFrame, MinimalFrame;
    if |payload| > 0 {
      var (frame, rest) := ReadFrame(payload).value;
      var others := DecodeAll(rest, room - 1).value;
      FrameReencodes(payload);
      AllReencode(rest, room - 1);
      assert ([frame] + others)[1..] == others;
      RewritesThen(payload, rest, [], EncodeFrame(frame), MinimalFrame(payload), EncodeAll(others), MinimalAll(rest));
    }
  }

  lemma NumbersReencode(t: PacketType, flags: Flags, input: seq<byte>)
    requires DecodeNumbers(t, flags, input).Ok?
    ensures var (h, rest) := DecodeNumbers(t, flags, input).value;
      && h.packetType == t && h.flags == flags
      && input == ToBytes(h.connectionId, 8) + (ToBytes(h.packetNumber, 8) + (ToBytes(h.payloadLen, 2) + rest))
  {
    hide ReadU64, ReadU16, ToBytes;
    FixedReencodes(input);
    var f := ReadU64(input).value.1;
    FixedReencodes(f);
    FixedReencodes(ReadU64(f).value.1);
  }

  /** The header is written as it was read. */
  lemma HeaderReencodes(input: seq<byte>)
    requires DecodeHeader(input).Ok?
    ensures var (h, rest) := DecodeHeader(input).value; input == HeaderFields(h) + rest
  {
    hide ReadU8, ReadU16, ToBytes, DecodeNumbers;
    var (magic, a) := ReadU16(input).value;
    var (version, b) := ReadU8(a).value;
    var (typeByte, c) := ReadU8(b).value;
    var (flags, d) := ReadU16(c).value;
    var (headerLen, e) := ReadU16(d).value;
    FixedReencodes(input);
    FixedReencodes(a);
    FixedReencodes(b);
    FixedReencodes(c);
    FixedReencodes(d);
    NumbersReencode(TypeOf(typeByte).value, flags, e);
    hide TypeOf;
    assert TypeByte(TypeOf(typeByte).value) == typeByte by { TypeBack(typeByte); }
    var (h, rest) := DecodeHeader(input).value;
    HeaderJoined(h, ToBytes(magic, 2), ToBytes(headerLen, 2), a, b, c, d, e, rest);
  }

  lemma TypeBack(b: byte)
    ensures TypeOf(b).Ok? ==> TypeByte(TypeOf(b).value) == b
  {
  }

  lemma HeaderJoined(h: Header, m: seq<byte>, l: seq<byte>, a: seq<byte>, b: seq<byte>, c: seq<byte>, d: seq<byte>,
          e: seq<byte>, rest: seq<byte>)
    requires m == ToBytes(MAGIC, 2) && l == ToBytes(FIXED_HEADER_LEN, 2)
    requires a == [VERSION] + b && b == [TypeByte(h.packetType)] + c && c == ToBytes(h.flags, 2) + d && d == l + e
    requires e == ToBytes(h.connectionId, 8) + (ToBytes(h.packetNumber, 8) + (ToBytes(h.payloadLen, 2) + rest))
    ensures m + a == HeaderFields(h) + rest
  {
    hide ToBytes;
    var numbers := ToBytes(h.connectionId, 8) + (ToBytes(h.packetNumber, 8) + ToBytes(h.payloadLen, 2));
    assert e == numbers + rest;
    var f := ToBytes(h.flags, 2) + (l + numbers);
    assert c == f + rest;
    assert a == ([VERSION] + ([TypeByte(h.packetType)] + f)) + rest;
    assert m + a == (m + ([VERSION] + ([TypeByte(h.packetType)] + f))) + rest;
  }

  lemma EnvelopeReencodes(bytes: seq<byte>, maxDatagramSize: nat)
    requires DecodeEnvelope(bytes, maxDatagramSize).Ok?
    ensures var (h, checksum, payload) := DecodeEnvelope(bytes, maxDatagramSize).value;
      && bytes == HeaderFields(h) + (ToBytes(checksum, 4) + payload) && h.payloadLen == |payload|
      && bytes[..26] == HeaderFields(h) && bytes[30..] == payload
      && FIXED_HEADER_LEN + |payload| == |bytes| <= maxDatagramSize
  {
    hide ReadU32, DecodeHeader, HeaderFields, ToBytes;
    HeaderReencodes(bytes);
    var (h, a) := DecodeHeader(bytes).value;
    HeaderBack(h, []);
    FixedReencodes(a);
  }

  lemma FramesReencode(payload: seq<byte>)
    requires DecodeFrames(payload).Ok? && |payload| <= MAX_PAYLOAD
    ensures Rewrites(payload, [], EncodeFrames(DecodeFrames(payload).value), MinimalAll(payload))
  {
    hide DecodeAll, EncodeAll, MinimalAll;
    AllReencode(payload, MAX_FRAME_COUNT);
  }

  /** A decoded packet can always be encoded again, in at most as many bytes; the bytes are the
      same ones if and only if every varint in the payload was minimal. */
  lemma ReencodesIff(crc: Checksum, bytes: seq<byte>, maxDatagramSize: nat)
    requires DecodePacket(crc, bytes, maxDatagramSize).Ok?
    ensures |bytes| >= FIXED_HEADER_LEN
    ensures var again := EncodePacket(crc, DecodePacket(crc, bytes, maxDatagramSize).value, maxDatagramSize);
      && again.Ok? && |again.value| <= |bytes|
      && (again == Ok(bytes) <==> MinimalAll(bytes[FIXED_HEADER_LEN..]))
  {
    hide DecodeEnvelope, HeaderFields, DecodeFrames, EncodeFrames, MinimalAll, ToBytes;
    EnvelopeReencodes(bytes, maxDatagramSize);
    var (h, checksum, payload) := DecodeEnvelope(bytes, maxDatagramSize).value;
    FramesReencode(payload);
    var p := DecodePacket(crc, bytes, maxDatagramSize).value;
    var written := EncodeFrames(p.frames).value;
    HeaderBack(Header(p.packetType, p.flags, p.connectionId, p.packetNumber, |written|), []);
    HeaderBack(h, []);
    if MinimalAll(payload) {
      assert written + [] == written;
    }
  }

  /** Not every packet that decodes is what encoding produces: this one, whatever the checksum
      function, spells the number five in two bytes. */
  lemma PaddedPacket(crc: Checksum)
    ensures var payload: seq<byte> := [9, 2, 0x40, 5];
      var fields := HeaderFields(Header(Data, 0, 0, 0, 4));
      var bytes := fields + (ToBytes(crc(fields + ([0, 0, 0, 0] + payload)), 4) + payload);
      var p := Packet(Data, 0, 0, 0, [MaxData(5)]);
      DecodePacket(crc, bytes, 100) == Ok(p) && EncodePacket(crc, p, 100).Ok? && EncodePacket(crc, p, 100) != Ok(bytes)
  {
    hide HeaderFields, EncodePacket, DecodePacket, ToBytes, MinimalAll;
    var payload: seq<byte> := [9, 2, 0x40, 5];
    var h := Header(Data, 0, 0, 0, 4);
    var fields := HeaderFields(h);
    var bytes := fields + (ToBytes(crc(fields + ([0, 0, 0, 0] + payload)), 4) + payload);
    PaddedPayload(payload);
    PayloadDecodes(crc, h, payload, [MaxData(5)], 100);
    ReencodesIff(crc, bytes, 100);
  }

  /** A payload that decodes does so behind any matching header with the right checksum. */
  lemma PayloadDecodes(crc: Checksum, h: Header, payload: seq<byte>, frames: seq<Frame>, maxDatagramSize: nat)
    requires h.payloadLen == |payload| && 0 < |payload|
    requires FIXED_HEADER_LEN + |payload| <= maxDatagramSize && !Encrypted(h.flags)
    requires DecodeFrames(payload) == Ok(frames)
    ensures var bytes := HeaderFields(h) + (ToBytes(crc(HeaderFields(h) + ([0, 0, 0, 0] + payload)), 4) + payload);
      && DecodePacket(crc, bytes, maxDatagramSize) == Ok(Packet(h.packetType, h.flags, h.connectionId, h.packetNumber,
            frames))
      && bytes[30..] == payload
  {
    hide HeaderFields, DecodeEnvelope, DecodeFrames, ToBytes;
    EnvelopeBack(h, crc(HeaderFields(h) + ([0, 0, 0, 0] + payload)), payload, maxDatagramSize);
  }

  lemma PaddedPayload(payload: seq<byte>)
    requires payload == [9, 2, 0x40, 5]
    ensures DecodeFrames(payload) == Ok([MaxData(5)]) && !MinimalAll(payload)
  {
    var body: seq<byte> := [0x40, 5];
    PaddedFive(body);
    DecodeOne(2, body);
    assert payload[1..] == [2] + body;
    assert body[..2] == body && body[2..] == [];
    hide Decode;
    assert DecodeBody(9, body) == Ok(MaxData(5));
    assert ReadFrame(payload) == Ok((MaxData(5), []));
    assert !MinimalVarint(body);
    assert Decode(payload[1..]) == Ok((2, body));
    assert !MinimalFrame(payload);
    hide DecodeBody, ReadFrame, MinimalVarint, MinimalFrame;
    var none: seq<Frame> := [];
    assert [MaxData(5)] + none == [MaxData(5)];
    assert DecodeAll([], MAX_FRAME_COUNT - 1) == Ok(none);
    assert DecodeAll(payload, MAX_FRAME_COUNT) == Ok([MaxData(5)]);
  }
}
