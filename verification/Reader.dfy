/** Fields of a frame body: fixed-width integers, fixed-size arrays and length-prefixed blobs.
    Each lemma says that reading a written field returns it and leaves what follows. */
module Reader {
  import opened Wrappers
  import opened Bytes
  import opened Varint

  function ReadExact(input: seq<byte>, length: nat): ReadResult<seq<byte>>
  {
    if |input| < length then Err(Truncated) else Ok((input[..length], input[length..]))
  }

  /** A big-endian integer of `width` bytes. */
  function ReadInt(input: seq<byte>, width: nat): (r: ReadResult<nat>)
    ensures r.Ok? ==> r.value.0 < Pow256(width)
  {
    var (bytes, rest) :- ReadExact(input, width);
    FromBytesBound(bytes);
    Ok((FromBytes(bytes), rest))
  }

  function ReadU8(input: seq<byte>): ReadResult<byte>
  {
    var (bytes, rest) :- ReadExact(input, 1);
    Ok((bytes[0], rest))
  }

  function ReadU16(input: seq<byte>): ReadResult<u16>
  {
    var (n, rest) :- ReadInt(input, 2);
    Powers();
    Ok((n, rest))
  }

  function ReadU32(input: seq<byte>): ReadResult<u32>
  {
    var (n, rest) :- ReadInt(input, 4);
    Powers();
    Ok((n, rest))
  }

  function ReadU64(input: seq<byte>): ReadResult<u64>
  {
    var (n, rest) :- ReadInt(input, 8);
    Powers();
    Ok((n, rest))
  }

  /** A byte that must be 0 or 1. */
  function ReadBool(input: seq<byte>): ReadResult<bool>
  {
    var (bytes, rest) :- ReadExact(input, 1);
    if bytes[0] == 0 then Ok((false, rest))
    else if bytes[0] == 1 then Ok((true, rest))
    else Err(InvalidValue)
  }

  function WriteBool(b: bool): seq<byte>
  {
    [if b then 1 else 0]
  }

  function ReadBlob(input: seq<byte>, maximum: nat): ReadResult<seq<byte>>
  {
    var (length, rest) :- Decode(input);
    if length > maximum then Err(FrameTooLarge(maximum, length)) else ReadExact(rest, length)
  }

  function WriteBlob(bytes: seq<byte>, maximum: nat): Result<seq<byte>, ProtocolError>
  {
    if |bytes| > maximum then Err(FrameTooLarge(maximum, |bytes|)) else
    var length :- Encode(|bytes|);
    Ok(length + bytes)
  }

  lemma ExactRoundTrip(bytes: seq<byte>, rest: seq<byte>)
    ensures ReadExact(bytes + rest, |bytes|) == Ok((bytes, rest))
  {
  }

  lemma IntRoundTrip(n: nat, width: nat, rest: seq<byte>)
    requires n < Pow256(width)
    ensures ReadInt(ToBytes(n, width) + rest, width) == Ok((n, rest))
  {
    BytesRoundTrip(n, width);
    ExactRoundTrip(ToBytes(n, width), rest);
  }

  lemma FixedRoundTrip(a: u16, b: u32, c: u64, rest: seq<byte>)
    ensures ReadU16(ToBytes(a, 2) + rest) == Ok((a, rest))
    ensures ReadU32(ToBytes(b, 4) + rest) == Ok((b, rest))
    ensures ReadU64(ToBytes(c, 8) + rest) == Ok((c, rest))
  {
    Powers();
    hide Pow256, ReadInt;
    IntRoundTrip(a, 2, rest);
    IntRoundTrip(b, 4, rest);
    IntRoundTrip(c, 8, rest);
  }

  lemma BoolRoundTrip(b: bool, rest: seq<byte>)
    ensures ReadBool(WriteBool(b) + rest) == Ok((b, rest))
  {
    ExactRoundTrip(WriteBool(b), rest);
  }

  lemma BlobRoundTrip(bytes: seq<byte>, maximum: nat, rest: seq<byte>)
    requires WriteBlob(bytes, maximum).Ok?
    ensures ReadBlob(WriteBlob(bytes, maximum).value + rest, maximum) == Ok((bytes, rest))
  {
    var length := Encode(|bytes|).value;
    assert (length + bytes) + rest == length + (bytes + rest);
    RoundTrip(|bytes|, bytes + rest);
    hide Decode, Encode;
    ExactRoundTrip(bytes, rest);
  }
}
