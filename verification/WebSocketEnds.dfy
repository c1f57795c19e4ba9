/**
 How reads, flushes and writes of the WebSocket adapter end: which message a read ends at and
 why, what a flush sends, and when a write fails. Bytes and sizes are written out here.
 */
module WebSocketEnds {
  import opened Common
  import opened Framing
  import opened WebSocketAdapter
  import opened WebSocketRoundTrip
  import opened WebSocketRetries

  /** A binary message that can be read: at most a mebibyte, with its length in front. */
  predicate Readable(m: Message) {
    && m.Binary? && 4 <= |m.bytes| <= 1048580
    && m.bytes[0] as int * 16777216 + m.bytes[1] as int * 65536 + m.bytes[2] as int * 256 + m.bytes[3] as int
       == |m.bytes| - 4
  }

  lemma DecodeExact(bytes: seq<byte>)
    ensures Decode(bytes) ==
            if |bytes| < 4 then Error(MissingPrefix)
            else if Readable(Binary(bytes)) then Ok(bytes[4..])
            else Error(LengthMismatch)
  {
  }

  lemma EncodeExact(body: seq<byte>)
    ensures Encode(body).Ok? <==> |body| <= 1048576
    ensures |body| > 1048576 ==> Encode(body) == Error(TooLarge)
    ensures Encode(body).Ok? ==> Readable(Binary(Encode(body).value)) && Encode(body).value[4..] == body
  {
    if Encode(body).Ok? {
      hide BigEndian;
      CodecInverse(body, Encode(body).value);
      DecodeExact(Encode(body).value);
      PrefixInverse(|body|);
    }
  }

  /** How a read ends when it finds this message first and nothing is buffered. */
  function EndOf(m: Message): ReadPoll
    requires !m.Control? && !Readable(m)
  {
    match m
    case Text => ReadFailed(ProtocolViolation)
    case Close => EndOfStream
    case Binary(bytes) =>
      if |bytes| > 1048580 then ReadFailed(TooLarge)
      else if |bytes| < 4 then ReadFailed(MissingPrefix)
      else ReadFailed(LengthMismatch)
  }

  /**
   A read with nothing buffered passes over the control messages and takes the next one: its
   body and a line end if it can be read, and otherwise the end it calls for.
   */
  lemma {:induction false} ReadTakes(incoming: seq<Message>, cap: nat, k: nat)
    requires k <= |incoming| && forall i :: 0 <= i < k ==> incoming[i].Control?
    requires k < |incoming| ==> !incoming[k].Control?
    ensures k == |incoming| ==> Read(Reader([], incoming), cap) == (Reader([], []), NothingYet)
    ensures k < |incoming| && Readable(incoming[k]) ==>
              var body := incoming[k].bytes[4..] + [10];
              var n := if |body| < cap then |body| else cap;
              Read(Reader([], incoming), cap) == (Reader(body[n..], incoming[k + 1..]), Bytes(body[..n]))
    ensures k < |incoming| && !Readable(incoming[k]) ==>
              Read(Reader([], incoming), cap) == (Reader([], incoming[k + 1..]), EndOf(incoming[k]))
  {
    if k > 0 {
      ReadTakes(incoming[1..], cap, k - 1);
      if k < |incoming| {
        assert incoming[1..][k..] == incoming[k + 1..] && incoming[1..][k - 1] == incoming[k];
      }
    } else if incoming != [] && incoming[0].Binary? {
      DecodeExact(incoming[0].bytes);
    }
  }

  /** White space as `trim_ascii_end` has it: space, tab, line feed, form feed, carriage return. */
  predicate IsWhite(b: byte) {
    b == 32 || b == 9 || b == 10 || b == 12 || b == 13
  }

  lemma {:induction false} TrimIs(s: seq<byte>)
    ensures var t := TrimEnd(s);
            && t <= s && (forall i :: |t| <= i < |s| ==> IsWhite(s[i]))
            && (t != [] ==> !IsWhite(t[|t| - 1]))
  {
    if s != [] && IsSpace(s[|s| - 1]) {
      TrimIs(s[..|s| - 1]);
    }
  }

  /** A flush sends what is left, without white space at its end, as one frame, if the sink is ready. */
  lemma FlushSends(buf: seq<byte>, sent: seq<seq<byte>>, slots: Slots, body: seq<byte>)
    requires body <= buf && (forall i :: |body| <= i < |buf| ==> IsWhite(buf[i]))
    requires body != [] ==> !IsWhite(body[|body| - 1])
    ensures Flush(buf, sent, slots) ==
            if buf == [] then Writer([], sent, Ready)
            else if slots == Some(0) then Writer(buf, sent, Pending)
            else if |body| > 1048576 then Writer([], sent, Failed(TooLarge))
            else Writer([], sent + [Framed(body)], Ready)
  {
    TrimIs(buf);
    var t := TrimEnd(buf);
    hide TrimEnd;
    assert body != [] ==> body[|body| - 1] == buf[|body| - 1];
    assert t != [] ==> t[|t| - 1] == buf[|t| - 1];
    assert t == buf[..|body|] == body;
  }

  /** With a sink that is always ready a write fails exactly if some line is longer than a mebibyte. */
  lemma {:induction false} WriteFails(buf: seq<byte>, sent: seq<seq<byte>>)
    ensures SendLines(buf, sent, None).poll ==
            if forall b :: b in Bodies(buf) ==> |b| <= 1048576 then Ready else Failed(TooLarge)
    decreases |buf|
  {
    hide NewlinePos, Strip, SendLines, Bodies, First, Tail, Framed;
    if NewlinePos(buf) == |buf| {
      SendNone(buf, sent, None);
      NoLine(buf);
    } else {
      SendAny(buf, sent, None);
      BodiesByFirst(buf);
      var line, rest := Strip(First(buf)), Tail(buf);
      if line == [] {
        WriteFails(rest, sent);
        assert [] + Bodies(rest) == Bodies(rest);
      } else {
        assert forall b :: b in [line] + Bodies(rest) <==> b == line || b in Bodies(rest);
        if |line| <= MAX_FRAME_BYTES {
          WriteFails(rest, sent + [Framed(line)]);
        }
      }
    }
  }

  /** A line keeps all its bytes but one carriage return at its end. */
  lemma StripIs(line: seq<byte>)
    ensures Strip(line + [13]) == line
    ensures line != [] && line[|line| - 1] != 13 ==> Strip(line) == line
    ensures Strip([]) == []
  {
    assert (line + [13])[..|line|] == line;
  }

  /** A line ends at byte 10 and nowhere else. */
  lemma NewlineIs(line: seq<byte>, rest: seq<byte>)
    requires forall b :: b in line ==> b != 10
    ensures NewlinePos(line + [10] + rest) == |line| && NewlinePos(line) == |line|
  {
    var s := line + [10] + rest;
    assert s[|line|] == 10 && forall i :: 0 <= i < |line| ==> s[i] == line[i];
    hide NewlinePos;
    forall i | 0 <= i < |line| ensures line[i] != 10 {
      assert line[i] in line;
    }
  }
}
