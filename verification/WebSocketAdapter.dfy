/**
 The WebSocket adapter (crates/alleycat/src/http_server.rs, `WebSocketBinaryStream`): a byte
 stream of JSON lines on one side, one length-prefixed binary frame per line on the other.
 */
module WebSocketAdapter {
  import opened Common
  import opened Framing

  const NEWLINE: byte := 10
  const RETURN: byte := 13

  /** Position of the first newline, or the length. */
  function NewlinePos(s: seq<byte>): (p: nat)
    ensures p <= |s|
    ensures p < |s| ==> s[p] == NEWLINE
    ensures forall i :: 0 <= i < p ==> s[i] != NEWLINE
  {
    if s == [] || s[0] == NEWLINE then 0 else 1 + NewlinePos(s[1..])
  }

  /** A line without the carriage return before its newline. */
  function Strip(line: seq<byte>): seq<byte> {
    if line != [] && line[|line| - 1] == RETURN then line[..|line| - 1] else line
  }

  predicate IsSpace(b: byte) {
    b == 32 || b == 9 || b == 10 || b == 12 || b == 13
  }

  /** `trim_ascii_end` */
  function TrimEnd(s: seq<byte>): seq<byte> {
    if s != [] && IsSpace(s[|s| - 1]) then TrimEnd(s[..|s| - 1]) else s
  }

  datatype Poll = Ready | Pending | Failed(reason: Reason)

  /** The writer: bytes not yet sent, the frames sent, and how the poll ended. */
  datatype Writer = Writer(buf: seq<byte>, sent: seq<seq<byte>>, poll: Poll)

  /** The sink takes this many more frames before it is not ready; `None` is a sink always ready. */
  type Slots = Option<nat>

  function OneLess(slots: Slots): Slots
    requires slots != Some(0)
  {
    if slots.Some? then Some(slots.value - 1) else None
  }

  /** The loop of `poll_write`: send every complete line of the buffer. */
  function SendLines(buf: seq<byte>, sent: seq<seq<byte>>, slots: Slots): Writer
    decreases |buf|
  {
    var p := NewlinePos(buf);
    if p == |buf| then Writer(buf, sent, Ready)
    else
      var line, rest := Strip(buf[..p]), buf[p + 1..];
      if line == [] then SendLines(rest, sent, slots)
      else if slots == Some(0) then Writer(line + [NEWLINE] + rest, sent, Pending)
      else
        match Encode(line)
        case Error(reason) => Writer(rest, sent, Failed(reason))
        case Ok(frame) => SendLines(rest, sent + [frame], OneLess(slots))
  }

  /** `poll_flush`: whatever is left becomes a frame of its own. */
  function Flush(buf: seq<byte>, sent: seq<seq<byte>>, slots: Slots): Writer {
    if buf == [] then Writer(buf, sent, Ready)
    else if slots == Some(0) then Writer(buf, sent, Pending)
    else
      match Encode(TrimEnd(buf))
      case Error(reason) => Writer([], sent, Failed(reason))
      case Ok(frame) => Writer([], sent + [frame], Ready)
  }

  datatype Message = Binary(bytes: seq<byte>) | Text | Control | Close

  datatype ReadPoll = Bytes(data: seq<byte>) | NothingYet | EndOfStream | ReadFailed(reason: Reason)

  /** The reader: bytes not yet delivered, and the messages not yet taken. */
  datatype Reader = Reader(buf: seq<byte>, incoming: seq<Message>)

  /** `poll_read` with room for `cap` bytes. */
  function Read(r: Reader, cap: nat): (Reader, ReadPoll)
    decreases |r.incoming|
  {
    if r.buf != [] then
      var n := if |r.buf| < cap then |r.buf| else cap;
      (r.(buf := r.buf[n..]), Bytes(r.buf[..n]))
    else if r.incoming == [] then (r, NothingYet)
    else
      var rest := r.(incoming := r.incoming[1..]);
      match r.incoming[0]
      case Binary(bytes) =>
        if |bytes| > MAX_FRAME_BYTES + 4 then (rest, ReadFailed(TooLarge))
        else if Decode(bytes).Error? then (rest, ReadFailed(Decode(bytes).reason))
        else Read(rest.(buf := Decode(bytes).value + [NEWLINE]), cap)
      case Text => (rest, ReadFailed(ProtocolViolation))
      case Control => Read(rest, cap)
      case Close => (rest, EndOfStream)
  }

  class WebSocketBinaryStream {
    var incoming: seq<Message>
    var sent: seq<seq<byte>>
    var readBuf: seq<byte>
    var writeBuf: seq<byte>

    constructor (messages: seq<Message>)
      ensures incoming == messages && sent == [] && readBuf == [] && writeBuf == []
    {
      incoming, sent, readBuf, writeBuf := messages, [], [], [];
    }

    method FindNewline() returns (p: nat)
      ensures p == NewlinePos(writeBuf)
    {
      p := 0;
      while p < |writeBuf| && writeBuf[p] != NEWLINE
        invariant p <= |writeBuf|
        invariant NewlinePos(writeBuf) == p + NewlinePos(writeBuf[p..])
      {
        assert writeBuf[p..][1..] == writeBuf[p + 1..];
        p := p + 1;
      }
    }

    method PollWrite(data: seq<byte>, slots: Slots) returns (poll: Poll)
      modifies this`writeBuf, this`sent
      ensures Writer(writeBuf, sent, poll) == SendLines(old(writeBuf) + data, old(sent), slots)
    {
      writeBuf := writeBuf + data;
      var left: Slots := slots;
      ghost var all := writeBuf;
      while true
        invariant SendLines(all, old(sent), slots) == SendLines(writeBuf, sent, left)
        decreases |writeBuf|
      {
        var p := FindNewline();
        if p == |writeBuf| {
          return Ready;
        }
        var line := writeBuf[..p];
        writeBuf := writeBuf[p + 1..];
        if line != [] && line[|line| - 1] == RETURN {
          line := line[..|line| - 1];
        }
        if line == [] {
          continue;
        }
        if left == Some(0) {
          writeBuf := line + [NEWLINE] + writeBuf;
          return Pending;
        }
        var frame := Encode(line);
        if frame.Error? {
          return Failed(frame.reason);
        }
        sent := sent + [frame.value];
        left := OneLess(left);
      }
    }

    method PollFlush(slots: Slots) returns (poll: Poll)
      modifies this`writeBuf, this`sent
      ensures Writer(writeBuf, sent, poll) == Flush(old(writeBuf), old(sent), slots)
    {
      if writeBuf == [] {
        return Ready;
      }
      if slots == Some(0) {
        return Pending;
      }
      var line := writeBuf;
      writeBuf := [];
      while line != [] && IsSpace(line[|line| - 1])
        invariant TrimEnd(line) == TrimEnd(old(writeBuf))
        decreases |line|
      {
        line := line[..|line| - 1];
      }
      var frame := Encode(line);
      if frame.Error? {
        return Failed(frame.reason);
      }
      sent := sent + [frame.value];
      poll := Ready;
    }

    method PollRead(cap: nat) returns (poll: ReadPoll)
      modifies this`readBuf, this`incoming
      ensures (Reader(readBuf, incoming), poll) == Read(old(Reader(readBuf, incoming)), cap)
    {
      while true
        invariant Read(Reader(readBuf, incoming), cap) == Read(old(Reader(readBuf, incoming)), cap)
        decreases |incoming|, if readBuf == [] then 1 else 0
      {
        if readBuf != [] {
          var n := if |readBuf| < cap then |readBuf| else cap;
          poll := Bytes(readBuf[..n]);
          readBuf := readBuf[n..];
          return;
        }
        if incoming == [] {
          return NothingYet;
        }
        var message := incoming[0];
        incoming := incoming[1..];
        match message {
          case Binary(bytes) =>
            if |bytes| > MAX_FRAME_BYTES + 4 {
              return ReadFailed(TooLarge);
            }
            var body := Decode(bytes);
            if body.Error? {
              return ReadFailed(body.reason);
            }
            readBuf := body.value + [NEWLINE];
          case Text =>
            return ReadFailed(ProtocolViolation);
          case Control =>
          case Close =>
            return EndOfStream;
        }
      }
    }
  }
}
