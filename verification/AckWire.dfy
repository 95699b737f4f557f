/** The wire form of an ACK frame: largest number, delay in microseconds, and the ranges. */
module AckWire {
  import opened Wrappers
  import opened Bytes
  import opened Varint
  import opened AckRanges

  function EncodePairs(ranges: seq<AckRange>): Result<seq<byte>, ProtocolError>
  {
    if |ranges| == 0 then Ok([]) else
    var start :- Encode(ranges[0].start);
    var end :- Encode(ranges[0].end);
    var others :- EncodePairs(ranges[1..]);
    Ok(start + (end + others))
  }

  function DecodePairs(input: seq<byte>, count: nat): ReadResult<seq<AckRange>>
  {
    if count == 0 then Ok(([], input)) else
    var (start, afterStart) :- Decode(input);
    var (end, afterEnd) :- Decode(afterStart);
    var (others, rest) :- DecodePairs(afterEnd, count - 1);
    Ok(([AckRange(start, end)] + others, rest))
  }

  lemma {:induction false} PairsRoundTrip(ranges: seq<AckRange>, rest: seq<byte>)
    requires EncodePairs(ranges).Ok?
    ensures DecodePairs(EncodePairs(ranges).value + rest, |ranges|) == Ok((ranges, rest))
  {
    if |ranges| == 0 {
      assert [] + rest == rest;
    } else {
      var start, end := Encode(ranges[0].start).value, Encode(ranges[0].end).value;
      var others := EncodePairs(ranges[1..]).value;
      assert (start + (end + others)) + rest == start + (end + (others + rest));
      RoundTrip(ranges[0].start, end + (others + rest));
      RoundTrip(ranges[0].end, others + rest);
      PairsRoundTrip(ranges[1..], rest);
      hide Encode, Decode;
      assert [ranges[0]] + ranges[1..] == ranges;
    }
  }

  function Micros(f: AckFrame): nat { f.ackDelay / NANOS_PER_MICRO }

  /** The frame with its delay cut to whole microseconds. */
  function WholeMicros(f: AckFrame): AckFrame
  {
    f.(ackDelay := Micros(f) * NANOS_PER_MICRO)
  }

  /** `AckFrame::encode_into`. */
  function EncodeAck(f: AckFrame): Result<seq<byte>, ProtocolError>
  {
    if f.ranges[0].end != f.largest then Err(InvalidAckRanges)
    else if Micros(f) > U64_MAX then Err(InvalidValue) else
    var largest :- Encode(f.largest);
    var delay :- Encode(Micros(f));
    var count :- Encode(|f.ranges|);
    var pairs :- EncodePairs(f.ranges);
    Ok(largest + (delay + (count + pairs)))
  }

  /** `AckRanges::decode_from`. */
  function DecodeRanges(input: seq<byte>): ReadResult<RangeSet>
  {
    var (count, rest) :- Decode(input);
    if count == 0 then Err(InvalidAckRanges)
    else if count > MAX_ACK_RANGES then Err(AckRangeCountExceeded) else
    var (pairs, after) :- DecodePairs(rest, count);
    var ranges :- CheckDescending(pairs);
    Ok((ranges, after))
  }

  /** `AckFrame::decode_from`. */
  function DecodeAck(input: seq<byte>): ReadResult<AckFrame>
  {
    var (largest, afterLargest) :- Decode(input);
    var (micros, afterDelay) :- Decode(afterLargest);
    var (ranges, rest) :- DecodeRanges(afterDelay);
    if ranges[0].end != largest then Err(InvalidAckRanges)
    else Ok((AckFrame(largest, micros * NANOS_PER_MICRO, ranges), rest))
  }

  lemma RangesRoundTrip(ranges: RangeSet, rest: seq<byte>)
    requires EncodePairs(ranges).Ok?
    ensures DecodeRanges(Encode(|ranges|).value + (EncodePairs(ranges).value + rest)) == Ok((ranges, rest))
  {
    RoundTrip(|ranges|, EncodePairs(ranges).value + rest);
    PairsRoundTrip(ranges, rest);
    hide EncodePairs, DecodePairs, Decode;
  }

  /** Only the part of the delay below a microsecond is lost. */
  lemma AckRoundTrip(f: AckFrame, rest: seq<byte>)
    requires EncodeAck(f).Ok?
    ensures DecodeAck(EncodeAck(f).value + rest) == Ok((WholeMicros(f), rest))
  {
    var largest, delay := Encode(f.largest).value, Encode(Micros(f)).value;
    var count, pairs := Encode(|f.ranges|).value, EncodePairs(f.ranges).value;
    assert (largest + (delay + (count + pairs))) + rest == largest + (delay + (count + (pairs + rest)));
    RoundTrip(f.largest, delay + (count + (pairs + rest)));
    RoundTrip(Micros(f), count + (pairs + rest));
    RangesRoundTrip(f.ranges, rest);
    hide Decode, DecodeRanges, EncodePairs, Encode;
  }

  // ---- The loops that write and read the pairs ----

  function Prepend<T>(front: seq<T>, r: Result<seq<T>, ProtocolError>): Result<seq<T>, ProtocolError>
  {
    match r
    case Ok(back) => Ok(front + back)
    case Err(e) => Err(e)
  }

  lemma PrependTwice<T>(a: seq<T>, b: seq<T>, r: Result<seq<T>, ProtocolError>)
    ensures Prepend(a, Prepend(b, r)) == Prepend(a + b, r)
  {
    if r.Ok? { assert a + (b + r.value) == (a + b) + r.value; }
  }

  lemma PairsStep(ranges: seq<AckRange>)
    requires |ranges| > 0
    ensures var start, end := Encode(ranges[0].start), Encode(ranges[0].end);
      EncodePairs(ranges) ==
        if start.Err? then Err(start.error) else if end.Err? then Err(end.error)
        else Prepend(start.value + end.value, EncodePairs(ranges[1..]))
  {
    var start, end, others := Encode(ranges[0].start), Encode(ranges[0].end), EncodePairs(ranges[1..]);
    if start.Ok? && end.Ok? && others.Ok? {
      assert start.value + (end.value + others.value) == (start.value + end.value) + others.value;
    }
  }

  /** `AckRanges::encode_into`, after the count. */
  method WritePairs(ranges: seq<AckRange>) returns (r: Result<seq<byte>, ProtocolError>)
    ensures r == EncodePairs(ranges)
  {
    var output: seq<byte> := [];
    hide Encode;
    assert Prepend([], EncodePairs(ranges)) == EncodePairs(ranges) by {
      if EncodePairs(ranges).Ok? { assert [] + EncodePairs(ranges).value == EncodePairs(ranges).value; }
    }
    assert ranges[0..] == ranges;
    for i := 0 to |ranges|
      invariant EncodePairs(ranges) == Prepend(output, EncodePairs(ranges[i..]))
    {
      PairsStep(ranges[i..]);
      assert ranges[i..][1..] == ranges[i + 1..];
      var start := Encode(ranges[i].start);
      if start.Err? { return Err(start.error); }
      var end := Encode(ranges[i].end);
      if end.Err? { return Err(end.error); }
      PrependTwice(output, start.value + end.value, EncodePairs(ranges[i + 1..]));
      output := output + (start.value + end.value);
    }
    assert output + [] == output;
    r := Ok(output);
  }

  /** The pairs still to be read follow the ones read so far. */
  function Resume(read: seq<AckRange>, r: ReadResult<seq<AckRange>>): ReadResult<seq<AckRange>>
  {
    match r
    case Ok((others, rest)) => Ok((read + others, rest))
    case Err(e) => Err(e)
  }

  lemma ResumeTwice(a: seq<AckRange>, x: AckRange, r: ReadResult<seq<AckRange>>)
    ensures Resume(a, Resume([x], r)) == Resume(a + [x], r)
  {
    if r.Ok? { assert a + ([x] + r.value.0) == (a + [x]) + r.value.0; }
  }

  /** The reading loop of `AckRanges::decode_from`. */
  method ReadPairs(input: seq<byte>, count: nat) returns (r: ReadResult<seq<AckRange>>)
    ensures r == DecodePairs(input, count)
  {
    hide Decode;
    var ranges: seq<AckRange>, rest := [], input;
    assert Resume([], DecodePairs(input, count)) == DecodePairs(input, count) by {
      if DecodePairs(input, count).Ok? {
        assert [] + DecodePairs(input, count).value.0 == DecodePairs(input, count).value.0;
      }
    }
    for i := 0 to count
      invariant DecodePairs(input, count) == Resume(ranges, DecodePairs(rest, count - i))
    {
      var start := Decode(rest);
      if start.Err? { return Err(start.error); }
      var end := Decode(start.value.1);
      if end.Err? { return Err(end.error); }
      var range := AckRange(start.value.0, end.value.0);
      ResumeTwice(ranges, range, DecodePairs(end.value.1, count - i - 1));
      ranges, rest := ranges + [range], end.value.1;
    }
    assert ranges + [] == ranges;
    r := Ok((ranges, rest));
  }
}
