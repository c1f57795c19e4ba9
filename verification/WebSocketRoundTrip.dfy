/**
 The WebSocket adapter end to end: which bytes come out of the reader when the writer is fed
 in any pieces and read in any portions.
 */
module WebSocketRoundTrip {
  import opened Common
  import opened Framing
  import opened WebSocketAdapter

  /** The lines the adapter forwards: complete, without trailing return, not empty. */
  function Bodies(s: seq<byte>): seq<seq<byte>>
    decreases |s|
  {
    var p := NewlinePos(s);
    if p == |s| then [] else
      var line := Strip(s[..p]);
      (if line == [] then [] else [line]) + Bodies(s[p + 1..])
  }

  /** What follows the last newline. */
  function Rest(s: seq<byte>): (r: seq<byte>)
    ensures |r| <= |s|
    ensures NewlinePos(r) == |r|
    decreases |s|
  {
    var p := NewlinePos(s);
    if p == |s| then s else Rest(s[p + 1..])
  }

  /** Every complete line is non-empty and does not end in a return. */
  predicate Clean(s: seq<byte>)
    decreases |s|
  {
    var p := NewlinePos(s);
    p < |s| ==> s[..p] != [] && Strip(s[..p]) == s[..p] && Clean(s[p + 1..])
  }

  predicate Fit(bodies: seq<seq<byte>>) {
    forall b :: b in bodies ==> |b| <= MAX_FRAME_BYTES
  }

  function Framed(body: seq<byte>): seq<byte> {
    match Encode(body)
    case Ok(frame) => frame
    case Error(_) => []
  }

  function Wrapped(bodies: seq<seq<byte>>): seq<seq<byte>> {
    seq(|bodies|, i requires 0 <= i < |bodies| => Framed(bodies[i]))
  }

  /** One line per body. */
  function Unlines(bodies: seq<seq<byte>>): seq<byte> {
    if bodies == [] then [] else bodies[0] + [NEWLINE] + Unlines(bodies[1..])
  }

  lemma SplitAppend(a: seq<byte>, b: seq<byte>)
    ensures NewlinePos(a) < |a| ==> NewlinePos(a + b) == NewlinePos(a)
    ensures NewlinePos(a) < |a| ==> (a + b)[..NewlinePos(a)] == a[..NewlinePos(a)]
    ensures NewlinePos(a) < |a| ==> (a + b)[NewlinePos(a) + 1..] == a[NewlinePos(a) + 1..] + b
  {
    var p := NewlinePos(a);
    if p < |a| {
      assert (a + b)[p] == NEWLINE;
      assert forall i :: 0 <= i < p ==> (a + b)[i] == a[i];
    }
  }

  /** The first line of `s` and what follows it. */
  lemma FirstLine(s: seq<byte>)
    requires NewlinePos(s) < |s|
    ensures var line, rest := Strip(s[..NewlinePos(s)]), s[NewlinePos(s) + 1..];
            && Bodies(s) == (if line == [] then Bodies(rest) else [line] + Bodies(rest))
            && Rest(s) == Rest(rest)
            && (Clean(s) <==> line != [] && line == s[..NewlinePos(s)] && Clean(rest))
  {
    hide NewlinePos;
  }

  lemma NoLine(s: seq<byte>)
    requires NewlinePos(s) == |s|
    ensures Bodies(s) == [] && Rest(s) == s && Clean(s)
    ensures forall sent :: SendLines(s, sent, None) == Writer(s, sent, Ready)
  {
    hide NewlinePos;
  }

  /** Splitting what arrived so far and then the remainder with the next piece loses nothing. */
  lemma {:induction false} BodiesConcat(a: seq<byte>, b: seq<byte>)
    ensures Bodies(a + b) == Bodies(a) + Bodies(Rest(a) + b)
    ensures Rest(a + b) == Rest(Rest(a) + b)
    ensures Clean(a + b) <==> Clean(a) && Clean(Rest(a) + b)
    decreases |a|
  {
    hide NewlinePos, Strip, Bodies, Rest, Clean;
    if NewlinePos(a) == |a| {
      NoLine(a);
      assert [] + Bodies(a + b) == Bodies(a + b);
    } else {
      var line, rest := Strip(a[..NewlinePos(a)]), a[NewlinePos(a) + 1..];
      SplitAppend(a, b);
      FirstLine(a);
      FirstLine(a + b);
      BodiesConcat(rest, b);
      assert [line] + (Bodies(rest) + Bodies(Rest(rest) + b)) == [line] + Bodies(rest) + Bodies(Rest(rest) + b);
    }
  }

  lemma WrappedCons(line: seq<byte>, bodies: seq<seq<byte>>)
    ensures Wrapped([line] + bodies) == [Framed(line)] + Wrapped(bodies)
  {
    hide Framed;
  }

  lemma WrappedAppend(a: seq<seq<byte>>, b: seq<seq<byte>>)
    ensures Wrapped(a + b) == Wrapped(a) + Wrapped(b)
  {
    hide Framed;
  }

  lemma FitAppend(a: seq<seq<byte>>, b: seq<seq<byte>>)
    ensures Fit(a + b) <==> Fit(a) && Fit(b)
  {
    if Fit(a + b) {
      assert forall x :: x in a ==> x in a + b;
      assert forall x :: x in b ==> x in a + b;
    }
  }

  lemma NothingWritten()
    ensures Rest([]) == [] && Bodies([]) == [] && Wrapped([]) == []
  {
  }

  lemma FitCons(line: seq<byte>, bodies: seq<seq<byte>>)
    ensures Fit([line] + bodies) <==> |line| <= MAX_FRAME_BYTES && Fit(bodies)
  {
    if Fit([line] + bodies) {
      assert ([line] + bodies)[0] == line;
      assert forall b :: b in bodies ==> b in [line] + bodies;
    }
  }

  lemma SendsEmpty(buf: seq<byte>, sent: seq<seq<byte>>, slots: Slots)
    requires NewlinePos(buf) < |buf| && Strip(buf[..NewlinePos(buf)]) == []
    ensures SendLines(buf, sent, slots) == SendLines(buf[NewlinePos(buf) + 1..], sent, slots)
  {
    hide NewlinePos, Strip;
  }

  lemma SendsFirst(buf: seq<byte>, sent: seq<seq<byte>>, slots: Slots)
    requires NewlinePos(buf) < |buf| && Strip(buf[..NewlinePos(buf)]) != [] && slots != Some(0)
    requires |Strip(buf[..NewlinePos(buf)])| <= MAX_FRAME_BYTES
    ensures SendLines(buf, sent, slots) ==
            SendLines(buf[NewlinePos(buf) + 1..], sent + [Framed(Strip(buf[..NewlinePos(buf)]))], OneLess(slots))
  {
    hide NewlinePos, Strip;
  }

  /** With a sink that is always ready, `poll_write` sends exactly the complete lines. */
  lemma {:induction false} SendLinesSplits(buf: seq<byte>, sent: seq<seq<byte>>)
    requires Fit(Bodies(buf))
    ensures SendLines(buf, sent, None) == Writer(Rest(buf), sent + Wrapped(Bodies(buf)), Ready)
    decreases |buf|
  {
    hide Strip, NewlinePos, Bodies, Rest, Fit, Framed, SendLines, Wrapped;
    if NewlinePos(buf) == |buf| {
      NoLine(buf);
      assert Wrapped([]) == [] by { NothingWritten(); }
      assert sent + [] == sent;
    } else {
      var line, rest := Strip(buf[..NewlinePos(buf)]), buf[NewlinePos(buf) + 1..];
      FirstLine(buf);
      if line == [] {
        SendsEmpty(buf, sent, None);
        SendLinesSplits(rest, sent);
      } else {
        FitCons(line, Bodies(rest));
        SendsFirst(buf, sent, None);
        SendLinesSplits(rest, sent + [Framed(line)]);
        WrappedCons(line, Bodies(rest));
        assert sent + [Framed(line)] + Wrapped(Bodies(rest)) == sent + ([Framed(line)] + Wrapped(Bodies(rest)));
      }
    }
  }

  datatype Call = Write(data: seq<byte>) | FlushNow

  function Apply(w: Writer, call: Call): Writer {
    match call
    case Write(data) => SendLines(w.buf + data, w.sent, None)
    case FlushNow => Flush(w.buf, w.sent, None)
  }

  function RunCalls(calls: seq<Call>): Writer {
    if calls == [] then Writer([], [], Ready) else Apply(RunCalls(calls[..|calls| - 1]), calls[|calls| - 1])
  }

  function Written(calls: seq<Call>): seq<byte> {
    if calls == [] then []
    else
      var last := calls[|calls| - 1];
      Written(calls[..|calls| - 1]) + (if last.Write? then last.data else [])
  }

  /** Every flush comes when the bytes written so far end at a line end. */
  predicate FlushedAtLineEnds(calls: seq<Call>) {
    calls == [] || (
      && FlushedAtLineEnds(calls[..|calls| - 1])
      && (calls[|calls| - 1].FlushNow? ==> Rest(Written(calls[..|calls| - 1])) == []))
  }

  /** However the bytes are cut into writes, the frames sent are the lines of the whole. */
  lemma {:induction false} WriterSendsLines(calls: seq<Call>)
    requires FlushedAtLineEnds(calls)
    requires Fit(Bodies(Written(calls)))
    ensures RunCalls(calls) == Writer(Rest(Written(calls)), Wrapped(Bodies(Written(calls))), Ready)
  {
    hide NewlinePos, Strip, Bodies, Rest, Encode, SendLines, Framed, Wrapped, Fit;
    if calls != [] {
      var before, last := calls[..|calls| - 1], calls[|calls| - 1];
      var a, data := Written(before), if last.Write? then last.data else [];
      BodiesConcat(a, data);
      FitAppend(Bodies(a), Bodies(Rest(a) + data));
      WriterSendsLines(before);
      if last.Write? {
        SendLinesSplits(Rest(a) + data, Wrapped(Bodies(a)));
        WrappedAppend(Bodies(a), Bodies(Rest(a) + data));
      } else {
        assert a + data == a;
      }
    } else {
      NothingWritten();
    }
  }

  // ---- Reading ----

  /** The bytes still to come from messages up to the first one that ends or breaks the stream. */
  function Payload(incoming: seq<Message>): seq<byte> {
    if incoming == [] then [] else
      match incoming[0]
      case Binary(bytes) =>
        if |bytes| > MAX_FRAME_BYTES + 4 || Decode(bytes).Error? then []
        else Decode(bytes).value + [NEWLINE] + Payload(incoming[1..])
      case Control => Payload(incoming[1..])
      case _ => []
  }

  function Remaining(r: Reader): seq<byte> {
    r.buf + Payload(r.incoming)
  }

  /** One read hands out the next bytes, at least one if there is room and any is left. */
  lemma {:induction false} ReadConserves(r: Reader, cap: nat)
    ensures Read(r, cap).1.Bytes? <==> Remaining(r) != []
    ensures Read(r, cap).1.Bytes? ==>
              var data := Read(r, cap).1.data;
              && data + Remaining(Read(r, cap).0) == Remaining(r)
              && |data| <= cap
              && (cap > 0 ==> data != [])
    decreases |r.incoming|
  {
    if r.buf != [] {
      var n := if |r.buf| < cap then |r.buf| else cap;
      assert r.buf[..n] + (r.buf[n..] + Payload(r.incoming)) == r.buf + Payload(r.incoming);
    } else if r.incoming != [] {
      var rest := r.(incoming := r.incoming[1..]);
      match r.incoming[0]
      case Binary(bytes) =>
        if |bytes| <= MAX_FRAME_BYTES + 4 && Decode(bytes).Ok? {
          var next := rest.(buf := Decode(bytes).value + [NEWLINE]);
          ReadConserves(next, cap);
          assert Remaining(next) == Remaining(r);
        }
      case Control =>
        ReadConserves(rest, cap);
      case _ =>
    }
  }

  /** The bytes delivered by reads of the given sizes, until one of them delivers none. */
  function Delivered(r: Reader, caps: seq<nat>): seq<byte>
    decreases |caps|
  {
    if caps == [] || !Read(r, caps[0]).1.Bytes? then []
    else Read(r, caps[0]).1.data + Delivered(Read(r, caps[0]).0, caps[1..])
  }

  /** For every choice of read sizes the bytes come in order, and enough reads get them all. */
  lemma {:induction false} DeliversPayload(r: Reader, caps: seq<nat>)
    ensures Delivered(r, caps) <= Remaining(r)
    ensures (forall c :: c in caps ==> c > 0) && |Remaining(r)| <= |caps| ==> Delivered(r, caps) == Remaining(r)
    decreases |caps|
  {
    hide Read, Remaining;
    if caps != [] {
      ReadConserves(r, caps[0]);
      if Read(r, caps[0]).1.Bytes? {
        var data, next := Read(r, caps[0]).1.data, Read(r, caps[0]).0;
        DeliversPayload(next, caps[1..]);
        if (forall c :: c in caps ==> c > 0) && |Remaining(r)| <= |caps| {
          assert caps[0] in caps;
          assert |data + Remaining(next)| == |data| + |Remaining(next)|;
          assert forall c :: c in caps[1..] ==> c in caps;
        }
      }
    }
  }

  // ---- End to end ----

  /** The messages that arrive are the frames sent, in order, with control messages between them. */
  predicate Carries(incoming: seq<Message>, frames: seq<seq<byte>>) {
    if incoming == [] then frames == []
    else if incoming[0].Control? then Carries(incoming[1..], frames)
    else frames != [] && incoming[0] == Binary(frames[0]) && Carries(incoming[1..], frames[1..])
  }

  lemma FramedDecodes(body: seq<byte>)
    requires |body| <= MAX_FRAME_BYTES
    ensures Decode(Framed(body)) == Ok(body)
    ensures |Framed(body)| <= MAX_FRAME_BYTES + 4
  {
    hide BigEndian, FromBigEndian, Decode;
    CodecInverse(body, Framed(body));
  }

  lemma {:induction false} PayloadOfFrames(incoming: seq<Message>, bodies: seq<seq<byte>>)
    requires Fit(bodies) && Carries(incoming, Wrapped(bodies))
    ensures Payload(incoming) == Unlines(bodies)
    decreases |incoming|
  {
    if incoming != [] {
      if incoming[0].Control? {
        PayloadOfFrames(incoming[1..], bodies);
      } else {
        FirstFramed(bodies, Wrapped(bodies));
        hide Wrapped, Fit, Decode, Encode, Framed;
        PayloadOfFrames(incoming[1..], bodies[1..]);
      }
    }
  }

  lemma FirstFramed(bodies: seq<seq<byte>>, frames: seq<seq<byte>>)
    requires Fit(bodies) && frames == Wrapped(bodies) && frames != []
    ensures bodies != [] && frames[1..] == Wrapped(bodies[1..]) && Fit(bodies[1..])
    ensures Decode(frames[0]) == Ok(bodies[0]) && |frames[0]| <= MAX_FRAME_BYTES + 4
  {
    hide Decode, Encode;
    assert bodies == [bodies[0]] + bodies[1..];
    FitCons(bodies[0], bodies[1..]);
    FramedDecodes(bodies[0]);
  }

  lemma UnlinesCons(line: seq<byte>, bodies: seq<seq<byte>>, rest: seq<byte>)
    ensures Unlines([line] + bodies) + rest == line + [NEWLINE] + (Unlines(bodies) + rest)
  {
    assert ([line] + bodies)[1..] == bodies;
    assert line + [NEWLINE] + Unlines(bodies) + rest == line + [NEWLINE] + (Unlines(bodies) + rest);
  }

  lemma Rejoin(s: seq<byte>)
    requires NewlinePos(s) < |s|
    ensures s == s[..NewlinePos(s)] + [NEWLINE] + s[NewlinePos(s) + 1..]
    ensures Strip(s[..NewlinePos(s)]) != s[..NewlinePos(s)] ==> |Strip(s[..NewlinePos(s)])| == NewlinePos(s) - 1
    ensures |Strip(s[..NewlinePos(s)])| <= NewlinePos(s)
  {
    hide NewlinePos;
  }

  /** The lines and the remainder together are never longer than the bytes, and as long only if all is clean. */
  lemma {:induction false} LinesOf(s: seq<byte>)
    ensures Clean(s) ==> Unlines(Bodies(s)) + Rest(s) == s
    ensures !Clean(s) ==> |Unlines(Bodies(s)) + Rest(s)| < |s|
    ensures |Unlines(Bodies(s)) + Rest(s)| <= |s|
    decreases |s|
  {
    if NewlinePos(s) < |s| {
      var line, rest := Strip(s[..NewlinePos(s)]), s[NewlinePos(s) + 1..];
      FirstLine(s);
      Rejoin(s);
      LinesOf(rest);
      var tail := Unlines(Bodies(rest)) + Rest(rest);
      if line != [] {
        UnlinesCons(line, Bodies(rest), Rest(rest));
      }
      hide NewlinePos, Bodies, Rest, Clean, Strip, Unlines;
      assert line == [] ==> |tail| < |s|;
      assert line != [] ==> Unlines(Bodies(s)) + Rest(s) == line + [NEWLINE] + tail;
    }
  }

  /**
   Writer then reader is the identity, for every chunking of the writes and every portioning
   of the reads, exactly when the bytes end at a line end and hold no empty line and no line
   ending in a return.
   */
  lemma RoundTrip(calls: seq<Call>, incoming: seq<Message>, caps: seq<nat>)
    requires FlushedAtLineEnds(calls)
    requires Fit(Bodies(Written(calls)))
    requires Carries(incoming, RunCalls(calls).sent)
    requires forall c :: c in caps ==> c > 0
    requires |Written(calls)| <= |caps|
    ensures Delivered(Reader([], incoming), caps) == Unlines(Bodies(Written(calls)))
    ensures Delivered(Reader([], incoming), caps) == Written(calls)
            <==> Rest(Written(calls)) == [] && Clean(Written(calls))
  {
    var bytes := Written(calls);
    WriterSendsLines(calls);
    PayloadOfFrames(incoming, Bodies(bytes));
    LinesOf(bytes);
    DeliversPayload(Reader([], incoming), caps);
    assert Rest(bytes) == [] ==> Unlines(Bodies(bytes)) + Rest(bytes) == Unlines(Bodies(bytes));
  }
}
