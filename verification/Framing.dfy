/**
 Length-prefixed frames: the WebSocket frame codec (crates/alleycat/src/http_server.rs) and
 the same prefix over a byte stream (crates/alleycat/src/framing.rs).
 */
module Framing {
  newtype byte = x: int | 0 <= x < 256

  const MAX_FRAME_BYTES: nat := 1024 * 1024

  datatype Result<+T> = Ok(value: T) | Error(reason: Reason)

  datatype Reason = MissingPrefix | LengthMismatch | TooLarge | UnexpectedEof | ProtocolViolation

  /** `u32::to_be_bytes` */
  function BigEndian(n: nat): (b: seq<byte>)
    requires n < 0x1_0000_0000
    ensures |b| == 4
  {
    [(n / 0x100_0000) as byte, (n / 0x1_0000 % 0x100) as byte, (n / 0x100 % 0x100) as byte, (n % 0x100) as byte]
  }

  /** `u32::from_be_bytes` */
  function FromBigEndian(b: seq<byte>): (n: nat)
    requires |b| == 4
    ensures n < 0x1_0000_0000
  {
    b[0] as nat * 0x100_0000 + b[1] as nat * 0x1_0000 + b[2] as nat * 0x100 + b[3] as nat
  }

  lemma PrefixInverse(n: nat)
    requires n < 0x1_0000_0000
    ensures FromBigEndian(BigEndian(n)) == n
  {
    var hi, mid := n / 0x1_0000, n / 0x100;
    assert n / 0x100_0000 == hi / 0x100 && hi == hi / 0x100 * 0x100 + hi % 0x100;
    assert mid == hi * 0x100 + mid % 0x100;
    assert n == mid * 0x100 + n % 0x100;
  }

  lemma PrefixUnique(b: seq<byte>)
    requires |b| == 4
    ensures BigEndian(FromBigEndian(b)) == b
  {
    var n := FromBigEndian(b);
    var b0, b1, b2, b3 := b[0] as nat, b[1] as nat, b[2] as nat, b[3] as nat;
    assert n == ((b0 * 0x100 + b1) * 0x100 + b2) * 0x100 + b3;
    assert n / 0x100 == (b0 * 0x100 + b1) * 0x100 + b2 && n % 0x100 == b3;
    assert n / 0x1_0000 == b0 * 0x100 + b1 && n / 0x100 % 0x100 == b2;
    assert n / 0x100_0000 == b0 && n / 0x1_0000 % 0x100 == b1;
  }

  /** `encode_ws_binary_frame` */
  function Encode(body: seq<byte>): Result<seq<byte>> {
    if |body| > MAX_FRAME_BYTES then Error(TooLarge) else Ok(BigEndian(|body|) + body)
  }

  /** `decode_ws_binary_frame` */
  function Decode(bytes: seq<byte>): Result<seq<byte>> {
    if |bytes| < 4 then Error(MissingPrefix)
    else
      var len := FromBigEndian(bytes[..4]);
      if len > MAX_FRAME_BYTES || |bytes| != len + 4 then Error(LengthMismatch) else Ok(bytes[4..])
  }

  /** Decode and encode are inverse to each other on what they accept. */
  lemma CodecInverse(body: seq<byte>, bytes: seq<byte>)
    ensures Encode(body) == Ok(bytes) <==> Decode(bytes) == Ok(body)
  {
    if Encode(body).Ok? {
      PrefixInverse(|body|);
      var f := BigEndian(|body|) + body;
      assert f[..4] == BigEndian(|body|) && f[4..] == body;
    }
    if Decode(bytes).Ok? {
      PrefixUnique(bytes[..4]);
      assert bytes == bytes[..4] + bytes[4..];
    }
  }

  /** `write_json_frame` on the serialized value: the prefix and the body go to the stream. */
  function WriteFrame(stream: seq<byte>, body: seq<byte>): Result<seq<byte>> {
    if |body| > MAX_FRAME_BYTES then Error(TooLarge) else Ok(stream + BigEndian(|body|) + body)
  }

  /** `read_json_frame` up to decoding the JSON: the body read and the stream left. */
  function ReadFrame(stream: seq<byte>): Result<(seq<byte>, seq<byte>)> {
    if |stream| < 4 then Error(UnexpectedEof)
    else
      var len := FromBigEndian(stream[..4]);
      if len > MAX_FRAME_BYTES then Error(TooLarge)
      else if |stream| - 4 < len then Error(UnexpectedEof)
      else Ok((stream[4..4 + len], stream[4 + len..]))
  }

  /** Frames written one after the other. */
  function WriteAll(bodies: seq<seq<byte>>): seq<byte>
    requires forall b :: b in bodies ==> |b| <= MAX_FRAME_BYTES
  {
    if bodies == [] then [] else BigEndian(|bodies[0]|) + bodies[0] + WriteAll(bodies[1..])
  }

  /** Read frames until the stream is used up or a frame fails. */
  function ReadAll(stream: seq<byte>): seq<seq<byte>>
    decreases |stream|
  {
    match ReadFrame(stream)
    case Ok((body, rest)) => [body] + ReadAll(rest)
    case Error(_) => []
  }

  lemma ReadBack(body: seq<byte>, rest: seq<byte>)
    requires |body| <= MAX_FRAME_BYTES
    ensures ReadFrame(BigEndian(|body|) + body + rest) == Ok((body, rest))
  {
    PrefixInverse(|body|);
    var stream := BigEndian(|body|) + body + rest;
    assert stream[..4] == BigEndian(|body|);
    assert stream[4..4 + |body|] == body && stream[4 + |body|..] == rest;
  }

  /** What reading does with any bytes: four of length, most significant first, at most a mebibyte,
      and then so many of body. */
  lemma ReadFrameIs(stream: seq<byte>)
    ensures ReadFrame(stream) ==
            if |stream| < 4 then Error(UnexpectedEof)
            else
              var len := stream[0] as int * 16777216 + stream[1] as int * 65536
                         + stream[2] as int * 256 + stream[3] as int;
              if len > 1048576 then Error(TooLarge)
              else if |stream| < 4 + len then Error(UnexpectedEof)
              else Ok((stream[4..4 + len], stream[4 + len..]))
    ensures forall body :: WriteFrame(stream, body).Ok? <==> |body| <= 1048576
    ensures forall body :: |body| > 1048576 ==> WriteFrame(stream, body) == Error(TooLarge)
  {
  }

  /** Whatever frames were written, the reader gets their bodies back, in order. */
  lemma {:induction false} StreamRoundTrip(bodies: seq<seq<byte>>)
    requires forall b :: b in bodies ==> |b| <= MAX_FRAME_BYTES
    ensures ReadAll(WriteAll(bodies)) == bodies
  {
    if bodies != [] {
      ReadBack(bodies[0], WriteAll(bodies[1..]));
      StreamRoundTrip(bodies[1..]);
    }
  }

  /** A stream the writer and the reader work on step by step. */
  class ByteStream {
    var bytes: seq<byte>

    constructor ()
      ensures bytes == []
    {
      bytes := [];
    }

    method Write(body: seq<byte>) returns (r: Result<()>)
      modifies this
      ensures r.Ok? <==> WriteFrame(old(bytes), body).Ok?
      ensures r.Ok? ==> bytes == WriteFrame(old(bytes), body).value
      ensures r.Error? ==> bytes == old(bytes)
    {
      if |body| > MAX_FRAME_BYTES {
        return Error(TooLarge);
      }
      bytes := bytes + BigEndian(|body|);
      bytes := bytes + body;
      r := Ok(());
    }

    /** The prefix is consumed before the length is judged, the body is not. */
    method Read() returns (r: Result<seq<byte>>)
      modifies this
      ensures match ReadFrame(old(bytes))
              case Ok((body, rest)) => r == Ok(body) && bytes == rest
              case Error(reason) => r == Error(reason)
      ensures r == Error(TooLarge) ==> bytes == old(bytes)[4..]
    {
      if |bytes| < 4 {
        return Error(UnexpectedEof);
      }
      var len := FromBigEndian(bytes[..4]);
      bytes := bytes[4..];
      if len > MAX_FRAME_BYTES {
        return Error(TooLarge);
      }
      if |bytes| < len {
        return Error(UnexpectedEof);
      }
      assert bytes[..len] == old(bytes)[4..4 + len] && bytes[len..] == old(bytes)[4 + len..];
      r := Ok(bytes[..len]);
      bytes := bytes[len..];
    }
  }
}
