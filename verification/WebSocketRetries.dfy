/**
 The WebSocket adapter with a sink that is not ready: what a pending write keeps, and what the
 retry it asks for does.
 */
module WebSocketRetries {
  import opened Common
  import opened Framing
  import opened WebSocketAdapter
  import opened WebSocketRoundTrip

  function First(s: seq<byte>): seq<byte> {
    s[..NewlinePos(s)]
  }

  function Tail(s: seq<byte>): seq<byte>
    requires NewlinePos(s) < |s|
  {
    s[NewlinePos(s) + 1..]
  }

  /** The line, as it stands in the buffer, for which the sink is not ready. */
  function StoppedAt(buf: seq<byte>, slots: Slots): seq<byte>
    decreases |buf|
  {
    if NewlinePos(buf) == |buf| then []
    else if Strip(First(buf)) == [] then StoppedAt(Tail(buf), slots)
    else if slots == Some(0) then First(buf)
    else StoppedAt(Tail(buf), OneLess(slots))
  }

  /** What stands behind that line. */
  function Behind(buf: seq<byte>, slots: Slots): seq<byte>
    decreases |buf|
  {
    if NewlinePos(buf) == |buf| then []
    else if Strip(First(buf)) == [] then Behind(Tail(buf), slots)
    else if slots == Some(0) then Tail(buf)
    else Behind(Tail(buf), OneLess(slots))
  }

  /** The lines sent before it. */
  function Before(buf: seq<byte>, slots: Slots): seq<seq<byte>>
    decreases |buf|
  {
    if NewlinePos(buf) == |buf| then []
    else if Strip(First(buf)) == [] then Before(Tail(buf), slots)
    else if slots == Some(0) then []
    else [Strip(First(buf))] + Before(Tail(buf), OneLess(slots))
  }

  predicate TwoReturns(line: seq<byte>) {
    |line| >= 2 && line[|line| - 1] == RETURN && line[|line| - 2] == RETURN
  }

  lemma StripTwice(line: seq<byte>)
    ensures Strip(Strip(line)) == Strip(line) <==> !TwoReturns(line)
    ensures |Strip(line)| <= |line|
  {
  }

  /** What `poll_write` does with the first line, when it does not fail. */
  lemma SendStep(buf: seq<byte>, sent: seq<seq<byte>>, slots: Slots)
    requires NewlinePos(buf) < |buf| && !SendLines(buf, sent, slots).poll.Failed?
    ensures |Tail(buf)| < |buf|
    ensures var line, rest := Strip(First(buf)), Tail(buf);
            if line == [] then
              SendLines(buf, sent, slots) == SendLines(rest, sent, slots)
              && StoppedAt(buf, slots) == StoppedAt(rest, slots)
            else if slots == Some(0) then
              SendLines(buf, sent, slots) == Writer(line + [NEWLINE] + rest, sent, Pending)
              && StoppedAt(buf, slots) == First(buf)
            else
              && |line| <= MAX_FRAME_BYTES
              && SendLines(buf, sent, slots) == SendLines(rest, sent + [Framed(line)], OneLess(slots))
              && StoppedAt(buf, slots) == StoppedAt(rest, OneLess(slots))
  {
    hide NewlinePos, Strip;
  }

  /** What it does with the first line when the line may be too long. */
  lemma SendAny(buf: seq<byte>, sent: seq<seq<byte>>, slots: Slots)
    requires NewlinePos(buf) < |buf|
    ensures |Tail(buf)| < |buf|
    ensures var line, rest := Strip(First(buf)), Tail(buf);
            SendLines(buf, sent, slots) ==
            if line == [] then SendLines(rest, sent, slots)
            else if slots == Some(0) then Writer(line + [NEWLINE] + rest, sent, Pending)
            else if |line| > MAX_FRAME_BYTES then Writer(rest, sent, Failed(TooLarge))
            else SendLines(rest, sent + [Framed(line)], OneLess(slots))
  {
    hide NewlinePos, Strip;
  }

  lemma SendNone(buf: seq<byte>, sent: seq<seq<byte>>, slots: Slots)
    requires NewlinePos(buf) == |buf|
    ensures SendLines(buf, sent, slots) == Writer(buf, sent, Ready)
  {
    hide NewlinePos;
  }

  /** A line put in front of some bytes is their first line. */
  lemma LineFirst(line: seq<byte>, rest: seq<byte>)
    requires NEWLINE !in line
    ensures var s := line + [NEWLINE] + rest; NewlinePos(s) == |line| && First(s) == line && Tail(s) == rest
  {
    var s := line + [NEWLINE] + rest;
    assert s[|line|] == NEWLINE && forall i :: 0 <= i < |line| ==> s[i] == line[i];
  }

  lemma NoNewline(s: seq<byte>)
    ensures NEWLINE !in First(s) && NEWLINE !in Strip(First(s))
  {
  }

  /** Bodies and rest of a buffer, by its first line. */
  lemma ByFirst(s: seq<byte>)
    requires NewlinePos(s) < |s|
    ensures Bodies(s) == (if Strip(First(s)) == [] then [] else [Strip(First(s))]) + Bodies(Tail(s))
    ensures Rest(s) == Rest(Tail(s))
    ensures Clean(s) <==> First(s) != [] && Strip(First(s)) == First(s) && Clean(Tail(s))
    ensures |s| == |First(s)| + 1 + |Tail(s)|
  {
    hide NewlinePos, Strip;
  }

  lemma MoreAfter(s: seq<byte>, more: seq<byte>)
    requires NewlinePos(s) < |s|
    ensures NewlinePos(s + more) < |s + more| && First(s + more) == First(s) && Tail(s + more) == Tail(s) + more
  {
    SplitAppend(s, more);
  }

  /**
   What the pending writer `w` sends next is what `buf` still had to send: `n` of its lines
   are sent, and the others come, each as it was.
   */
  predicate Keeps(w: Writer, buf: seq<byte>, sent: seq<seq<byte>>, more: seq<byte>) {
    && |sent| <= |w.sent| <= |sent| + |Bodies(buf)|
    && Bodies(buf)[..|w.sent| - |sent|] + Bodies(w.buf + more) == Bodies(buf + more)
  }

  /** The frames sent are those of the first lines, and the remainder stays. */
  predicate SentFirst(w: Writer, buf: seq<byte>, sent: seq<seq<byte>>, more: seq<byte>) {
    && |sent| <= |w.sent| <= |sent| + |Bodies(buf)|
    && w.sent == sent + Wrapped(Bodies(buf)[..|w.sent| - |sent|])
    && Rest(w.buf + more) == Rest(buf + more)
  }

  function Unless(line: seq<byte>): seq<seq<byte>> {
    if line == [] then [] else [line]
  }

  lemma HeadSame(line: seq<byte>, other: seq<byte>, next: seq<seq<byte>>)
    requires line != []
    ensures Unless(other) + next == [line] + next <==> other == line
  {
    if other == [] {
      assert |Unless(other) + next| == |next| && |[line] + next| == 1 + |next|;
    } else {
      assert (Unless(other) + next)[0] == other && ([line] + next)[0] == line;
    }
  }

  lemma BodiesByFirst(s: seq<byte>)
    requires NewlinePos(s) < |s|
    ensures Bodies(s) == Unless(Strip(First(s))) + Bodies(Tail(s)) && Rest(s) == Rest(Tail(s))
  {
    hide NewlinePos, Strip, Bodies, Rest, First, Tail;
    ByFirst(s);
  }

  /** The buffer after a line was put back in front of the others. */
  lemma PutBack(line: seq<byte>, rest: seq<byte>, more: seq<byte>)
    requires NEWLINE !in line
    ensures Bodies(line + [NEWLINE] + rest + more) == Unless(Strip(line)) + Bodies(rest + more)
    ensures Rest(line + [NEWLINE] + rest + more) == Rest(rest + more)
  {
    hide NewlinePos, Strip, Bodies, Rest, First, Tail;
    var s := line + [NEWLINE] + (rest + more);
    assert line + [NEWLINE] + rest + more == s;
    LineFirst(line, rest + more);
    BodiesByFirst(s);
  }

  /** What a pending write has sent, what it puts back, and what a ready sink would have gone on with. */
  lemma {:induction false} PendingShape(buf: seq<byte>, sent: seq<seq<byte>>, slots: Slots)
    requires SendLines(buf, sent, slots).poll.Pending?
    ensures var line, rest, done := StoppedAt(buf, slots), Behind(buf, slots), Before(buf, slots);
            && SendLines(buf, sent, slots) == Writer(Strip(line) + [NEWLINE] + rest, sent + Wrapped(done), Pending)
            && NEWLINE !in line && NEWLINE !in Strip(line) && Strip(line) != []
            && Bodies(buf) == done + [Strip(line)] + Bodies(rest) && Rest(buf) == Rest(rest) && Fit(done)
    decreases |buf|
  {
    hide NewlinePos, Strip, SendLines, Bodies, Rest, Framed, Wrapped, Fit, First, Tail;
    if NewlinePos(buf) == |buf| {
      SendNone(buf, sent, slots);
    } else {
      SendStep(buf, sent, slots);
      BodiesByFirst(buf);
      NothingFits();
      var line, rest := Strip(First(buf)), Tail(buf);
      if line == [] {
        PendingShape(rest, sent, slots);
        assert [] + Bodies(rest) == Bodies(rest);
      } else if slots == Some(0) {
        NoNewline(buf);
        assert [] + [line] + Bodies(rest) == [line] + Bodies(rest) && sent + [] == sent;
      } else {
        PendingShape(rest, sent + [Framed(line)], OneLess(slots));
        var less := OneLess(slots);
        ShapeAfter(line, Before(rest, less), sent, StoppedAt(rest, less), Behind(rest, less));
      }
    }
  }

  lemma ShapeAfter(line: seq<byte>, done: seq<seq<byte>>, sent: seq<seq<byte>>, stopped: seq<byte>, behind: seq<byte>)
    ensures sent + [Framed(line)] + Wrapped(done) == sent + Wrapped([line] + done)
    ensures [line] + (done + [Strip(stopped)] + Bodies(behind)) == [line] + done + [Strip(stopped)] + Bodies(behind)
    ensures |line| <= MAX_FRAME_BYTES && Fit(done) ==> Fit([line] + done)
  {
    hide Framed, Strip, Bodies;
    FitCons(line, done);
    hide Wrapped, Fit;
    WrappedCons(line, done);
    assert sent + [Framed(line)] + Wrapped(done) == sent + ([Framed(line)] + Wrapped(done));
  }

  /**
   A pending write has sent its first lines and keeps the others, with the remainder, whatever
   is written next, if and only if the line it stopped at does not end in two returns.
   */
  lemma PendingKeepsLines(buf: seq<byte>, sent: seq<seq<byte>>, slots: Slots, more: seq<byte>)
    requires SendLines(buf, sent, slots).poll.Pending?
    ensures var w := SendLines(buf, sent, slots);
            && SentFirst(w, buf, sent, more)
            && (Keeps(w, buf, sent, more) <==> !TwoReturns(StoppedAt(buf, slots)))
  {
    hide NewlinePos, Strip, SendLines, StoppedAt, Behind, Before, TwoReturns, Bodies, Rest, Wrapped, Framed, Fit;
    var line, rest, done := StoppedAt(buf, slots), Behind(buf, slots), Before(buf, slots);
    PendingShape(buf, sent, slots);
    StripTwice(line);
    PutBack(Strip(line), rest, more);
    BodiesConcat(buf, more);
    BodiesConcat(rest, more);
    WrappedLength(done);
    KeptLines(done, Strip(line), Strip(Strip(line)), Bodies(rest), Bodies(Rest(buf) + more));
  }

  lemma WrappedLength(bodies: seq<seq<byte>>)
    ensures |Wrapped(bodies)| == |bodies|
  {
  }

  lemma KeptLines(done: seq<seq<byte>>, line: seq<byte>, other: seq<byte>, rest: seq<seq<byte>>, more: seq<seq<byte>>)
    requires line != []
    ensures (done + [line] + rest)[..|done|] == done
    ensures done + (Unless(other) + (rest + more)) == done + [line] + rest + more <==> other == line
  {
    HeadSame(line, other, rest + more);
    var a, b := Unless(other) + (rest + more), [line] + (rest + more);
    assert done + [line] + rest + more == done + b;
    assert (done + a)[|done|..] == a && (done + b)[|done|..] == b;
  }

  /** A line "a" with two returns, put back by a pending write, comes out shorter. */
  lemma SecondReturnLost(sent: seq<seq<byte>>)
    ensures var buf := [97, RETURN, RETURN, NEWLINE];
            && SendLines(buf, sent, Some(0)) == Writer([97, RETURN, NEWLINE], sent, Pending)
            && Bodies(buf) == [[97, RETURN]] && Bodies([97, RETURN, NEWLINE]) == [[97]]
  {
    var line: seq<byte> := [97, RETURN, RETURN];
    var buf := line + [NEWLINE] + [];
    assert buf == [97, RETURN, RETURN, NEWLINE];
    LineFirst(line, []);
    SendsHere(buf, sent);
    var back: seq<byte> := [97, RETURN];
    assert Strip(line) == back && back + [NEWLINE] + [] == [97, RETURN, NEWLINE];
    LineFirst(back, []);
    assert Strip(back) == [97];
    ByFirst(buf);
    ByFirst(back + [NEWLINE] + []);
    NothingWritten();
  }

  lemma SendsHere(buf: seq<byte>, sent: seq<seq<byte>>)
    requires NewlinePos(buf) < |buf| && Strip(First(buf)) != []
    ensures SendLines(buf, sent, Some(0)) == Writer(Strip(First(buf)) + [NEWLINE] + Tail(buf), sent, Pending)
  {
    hide NewlinePos, Strip;
  }

  /** A poll ends ready exactly with all lines sent and the remainder kept. */
  lemma {:induction false} ReadySplits(buf: seq<byte>, sent: seq<seq<byte>>, slots: Slots)
    requires SendLines(buf, sent, slots).poll.Ready?
    ensures Fit(Bodies(buf))
    ensures SendLines(buf, sent, slots) == Writer(Rest(buf), sent + Wrapped(Bodies(buf)), Ready)
    decreases |buf|
  {
    hide NewlinePos, Strip, SendLines, Bodies, Rest, Framed, Fit, Wrapped, StoppedAt;
    if NewlinePos(buf) == |buf| {
      SendNone(buf, sent, slots);
      NoLine(buf);
      NothingFits();
      assert sent + [] == sent;
    } else {
      SendStep(buf, sent, slots);
      ByFirst(buf);
      var line, rest := Strip(First(buf)), Tail(buf);
      if line == [] {
        ReadySplits(rest, sent, slots);
        assert [] + Bodies(rest) == Bodies(rest);
      } else {
        ReadySplits(rest, sent + [Framed(line)], OneLess(slots));
        FitCons(line, Bodies(rest));
        WrappedCons(line, Bodies(rest));
        assert sent + [Framed(line)] + Wrapped(Bodies(rest)) == sent + ([Framed(line)] + Wrapped(Bodies(rest)));
      }
    }
  }

  lemma NothingFits()
    ensures Fit([]) && Wrapped([]) == []
  {
  }

  lemma RestOfAppended(a: seq<byte>, b: seq<byte>)
    ensures Rest(a + b) == if NewlinePos(b) < |b| then Rest(b) else Rest(a) + b
  {
    BodiesConcat(a, b);
    RestAfter(Rest(a), b);
  }

  /** A piece after bytes without a newline. */
  lemma LineAfter(a: seq<byte>, b: seq<byte>)
    requires NewlinePos(a) == |a|
    ensures NewlinePos(b) < |b| ==>
              NewlinePos(a + b) < |a + b| && First(a + b) == a + First(b) && Tail(a + b) == Tail(b)
    ensures NewlinePos(b) == |b| ==> NewlinePos(a + b) == |a + b|
  {
    var p, s := NewlinePos(b), a + b;
    hide NewlinePos;
    assert forall i :: 0 <= i < |a| ==> s[i] == a[i];
    assert forall i :: 0 <= i < |b| ==> s[|a| + i] == b[i];
    assert forall i :: |a| <= i < |a| + p ==> s[i] == b[i - |a|];
    NewlineAt(s, |a| + p);
    if p < |b| {
      assert s[..|a| + p] == a + b[..p] && s[|a| + p + 1..] == b[p + 1..];
    }
  }

  lemma NewlineAt(s: seq<byte>, p: nat)
    requires p <= |s| && (p < |s| ==> s[p] == NEWLINE) && forall i :: 0 <= i < p ==> s[i] != NEWLINE
    ensures NewlinePos(s) == p
  {
    hide NewlinePos;
  }

  lemma RestAfter(a: seq<byte>, b: seq<byte>)
    requires NewlinePos(a) == |a|
    ensures Rest(a + b) == if NewlinePos(b) < |b| then Rest(b) else a + b
    ensures NewlinePos(b) < |b| ==>
              NewlinePos(a + b) < |a + b| && First(a + b) == a + First(b) && Tail(a + b) == Tail(b)
    ensures NewlinePos(b) == |b| ==> NewlinePos(a + b) == |a + b|
  {
    hide NewlinePos, Rest, First, Tail, Bodies, Clean, SendLines;
    LineAfter(a, b);
    if NewlinePos(b) < |b| {
      BodiesByFirst(a + b);
      BodiesByFirst(b);
    } else {
      NoLine(a + b);
    }
  }

  /** Bytes that, written again after themselves, add no line and leave the same remainder. */
  predicate AddsNothing(data: seq<byte>) {
    data == [] || (NewlinePos(data) < |data| && Bodies(Rest(data) + data) == [])
  }

  /** What has been sent before plays no part in what a write sends. */
  lemma {:induction false} SendsAfter(buf: seq<byte>, sent: seq<seq<byte>>)
    ensures var alone := SendLines(buf, [], None);
            SendLines(buf, sent, None) == Writer(alone.buf, sent + alone.sent, alone.poll)
    decreases |buf|
  {
    hide NewlinePos, Strip, SendLines, Framed, First, Tail;
    if NewlinePos(buf) == |buf| {
      SendNone(buf, sent, None);
      SendNone(buf, [], None);
      assert sent + [] == sent;
    } else {
      SendAny(buf, sent, None);
      SendAny(buf, [], None);
      var line, rest := Strip(First(buf)), Tail(buf);
      if line == [] {
        SendsAfter(rest, sent);
      } else if |line| <= MAX_FRAME_BYTES {
        SendsAfter(rest, sent + [Framed(line)]);
        SendsAfter(rest, [Framed(line)]);
        var more := SendLines(rest, [], None).sent;
        assert [] + [Framed(line)] == [Framed(line)];
        assert sent + [Framed(line)] + more == sent + ([Framed(line)] + more);
      } else {
        assert sent + [] == sent;
      }
    }
  }

  /** A sink that is always ready comes to the line a pending write stopped at. */
  lemma {:induction false} ComesTo(buf: seq<byte>, sent: seq<seq<byte>>, slots: Slots, more: seq<byte>)
    requires SendLines(buf, sent, slots).poll.Pending?
    ensures SendLines(buf + more, sent, None)
            == SendLines(StoppedAt(buf, slots) + [NEWLINE] + (Behind(buf, slots) + more),
                         SendLines(buf, sent, slots).sent, None)
    decreases |buf|
  {
    hide NewlinePos, Strip, SendLines, Framed, First, Tail;
    if NewlinePos(buf) == |buf| {
      SendNone(buf, sent, slots);
    } else {
      MoreAfter(buf, more);
      SendStep(buf, sent, slots);
      SendAny(buf + more, sent, None);
      var line, rest := Strip(First(buf)), Tail(buf);
      if line == [] {
        ComesTo(rest, sent, slots, more);
      } else if slots == Some(0) {
        FirstThenTail(buf);
        assert First(buf) + [NEWLINE] + Tail(buf) + more == First(buf) + [NEWLINE] + (Tail(buf) + more);
      } else {
        ComesTo(rest, sent + [Framed(line)], OneLess(slots), more);
      }
    }
  }

  /** A write that fails fails the same way with more bytes behind. */
  lemma {:induction false} FailsAlike(buf: seq<byte>, more: seq<byte>)
    requires !Fit(Bodies(buf))
    ensures var w := SendLines(buf, [], None);
            w.poll.Failed? && SendLines(buf + more, [], None) == w.(buf := w.buf + more)
    decreases |buf|
  {
    hide NewlinePos, Strip, SendLines, Bodies, Fit, Framed, First, Tail;
    if NewlinePos(buf) == |buf| {
      NoLine(buf);
      NothingFits();
    } else {
      BodiesByFirst(buf);
      MoreAfter(buf, more);
      SendAny(buf, [], None);
      SendAny(buf + more, [], None);
      var line, rest := Strip(First(buf)), Tail(buf);
      assert [] + Bodies(rest) == Bodies(rest);
      FitCons(line, Bodies(rest));
      if |line| <= MAX_FRAME_BYTES {
        FailsAlike(rest, more);
        SendsAfter(rest, [] + [Framed(line)]);
        SendsAfter(rest + more, [] + [Framed(line)]);
      }
    }
  }

  /** The bytes `data` change nothing after `buf`: no line more, the same remainder, or an error as before. */
  predicate NothingMore(buf: seq<byte>, data: seq<byte>) {
    if Fit(Bodies(buf)) then Bodies(Rest(buf) + data) == [] && Rest(Rest(buf) + data) == Rest(buf) else data == []
  }

  lemma SameSends(buf: seq<byte>, data: seq<byte>, sent: seq<seq<byte>>)
    ensures SendLines(buf + data, sent, None) == SendLines(buf, sent, None) <==> NothingMore(buf, data)
  {
    hide SendLines, Bodies, Rest, Fit, Wrapped;
    SendsAfter(buf, sent);
    SendsAfter(buf + data, sent);
    var once, again := SendLines(buf, [], None), SendLines(buf + data, [], None);
    assert sent + once.sent == sent + again.sent ==> once.sent == again.sent by {
      assert (sent + once.sent)[|sent|..] == once.sent && (sent + again.sent)[|sent|..] == again.sent;
    }
    if Fit(Bodies(buf)) {
      SendLinesSplits(buf, []);
      BodiesConcat(buf, data);
      if again.poll.Ready? {
        ReadySplits(buf + data, [], None);
        WrappedLength(Bodies(buf));
        WrappedLength(Bodies(buf) + Bodies(Rest(buf) + data));
      }
      if Bodies(Rest(buf) + data) == [] {
        assert Bodies(buf) + [] == Bodies(buf);
        SendLinesSplits(buf + data, []);
      }
    } else {
      FailsAlike(buf, data);
      assert once.buf + data == once.buf <==> data == [] by {
        assert |once.buf + data| == |once.buf| + |data|;
        assert data == [] ==> once.buf + data == once.buf;
      }
    }
  }

  /** What a line in front of other bytes is sent as. */
  lemma SendsLine(line: seq<byte>, rest: seq<byte>, sent: seq<seq<byte>>)
    requires NEWLINE !in line
    ensures SendLines(line + [NEWLINE] + rest, sent, None) ==
            if Strip(line) == [] then SendLines(rest, sent, None)
            else if |Strip(line)| > MAX_FRAME_BYTES then Writer(rest, sent, Failed(TooLarge))
            else SendLines(rest, sent + [Framed(Strip(line))], None)
  {
    hide NewlinePos, Strip, SendLines, Framed, First, Tail;
    LineFirst(line, rest);
    SendAny(line + [NEWLINE] + rest, sent, None);
  }

  /** Lines of different bodies are not sent alike. */
  lemma OtherFrame(line: seq<byte>, other: seq<byte>, a: seq<byte>, b: seq<byte>, sent: seq<seq<byte>>)
    requires NEWLINE !in line && NEWLINE !in other
    requires Strip(line) != Strip(other) && Strip(line) != [] && Strip(other) != [] && |Strip(other)| <= MAX_FRAME_BYTES
    ensures SendLines(line + [NEWLINE] + a, sent, None) != SendLines(other + [NEWLINE] + b, sent, None)
  {
    hide NewlinePos, Strip, SendLines, Framed, Decode;
    SendsLine(line, a, sent);
    SendsLine(other, b, sent);
    var x, y := Framed(Strip(line)), Framed(Strip(other));
    FramedDecodes(Strip(other));
    SendsAfter(b, sent + [y]);
    assert (sent + [y] + SendLines(b, [], None).sent)[|sent|] == y;
    if |Strip(line)| <= MAX_FRAME_BYTES {
      FramedDecodes(Strip(line));
      SendsAfter(a, sent + [x]);
      assert (sent + [x] + SendLines(a, [], None).sent)[|sent|] == x;
    }
  }

  /** A line with one return less is put back in place of the one stopped at. */
  lemma PutBackSends(buf: seq<byte>, sent: seq<seq<byte>>, slots: Slots, more: seq<byte>)
    requires SendLines(buf, sent, slots).poll.Pending?
    ensures var w, line, rest := SendLines(buf, sent, slots), StoppedAt(buf, slots), Behind(buf, slots);
            && NEWLINE !in line && NEWLINE !in Strip(line) && Strip(line) != []
            && SendLines(w.buf + more, w.sent, None) == SendLines(Strip(line) + [NEWLINE] + (rest + more), w.sent, None)
            && SendLines(buf + more, sent, None) == SendLines(line + [NEWLINE] + (rest + more), w.sent, None)
  {
    hide SendLines, StoppedAt, Behind, Before, Strip, Bodies, Rest, Wrapped, Fit;
    var line, rest := StoppedAt(buf, slots), Behind(buf, slots);
    PendingShape(buf, sent, slots);
    ComesTo(buf, sent, slots, more);
    assert Strip(line) + [NEWLINE] + rest + more == Strip(line) + [NEWLINE] + (rest + more);
  }

  /**
   The retry sends what the bytes written twice would have sent, if and only if the line stopped
   at does not end in two returns, or is too long with one return less as well.
   */
  lemma RetryWritesTwice(buf: seq<byte>, sent: seq<seq<byte>>, data: seq<byte>, slots: Slots)
    requires SendLines(buf + data, sent, slots).poll.Pending?
    ensures var w, line := SendLines(buf + data, sent, slots), StoppedAt(buf + data, slots);
            SendLines(w.buf + data, w.sent, None) == SendLines(buf + data + data, sent, None)
            <==> !TwoReturns(line) || |Strip(Strip(line))| > MAX_FRAME_BYTES
  {
    hide SendLines, StoppedAt, Behind, Strip, TwoReturns, Framed;
    var all, w := buf + data, SendLines(buf + data, sent, slots);
    PutBackSends(all, sent, slots, data);
    var line, rest := StoppedAt(all, slots), Behind(all, slots) + data;
    StripTwice(line);
    SendsLine(line, rest, w.sent);
    SendsLine(Strip(line), rest, w.sent);
    if TwoReturns(line) {
      StripLess(line);
      if Strip(Strip(line)) == [] {
        SendsAfter(rest, w.sent);
        SendsAfter(rest, w.sent + [Framed(Strip(line))]);
      } else if |Strip(Strip(line))| <= MAX_FRAME_BYTES {
        OtherFrame(line, Strip(line), rest, rest, w.sent);
      }
    }
  }

  lemma StripLess(line: seq<byte>)
    requires TwoReturns(line)
    ensures |Strip(line)| == |line| - 1 && |Strip(Strip(line))| == |line| - 2
    ensures Strip(Strip(line)) == [] <==> line == [RETURN, RETURN]
    ensures line == [RETURN, RETURN] ==> Strip(line) == [RETURN]
    ensures Strip(line) != [] && Strip(Strip(line)) != Strip(line)
  {
  }

  /** Whether repeating a pending write does what a single one would have done. */
  predicate RepeatsWell(buf: seq<byte>, data: seq<byte>, slots: Slots) {
    var all := buf + data;
    var line := StoppedAt(all, slots);
    if !TwoReturns(line) then
      if Fit(Bodies(all)) then AddsNothing(data) else data == []
    else if line == [RETURN, RETURN] then
      && (forall l :: l in Bodies(Behind(all, slots)) ==> l == [RETURN])
      && Bodies(Rest(all) + data) == [[RETURN]] && Rest(Rest(all) + data) == Rest(all)
    else
      |line| - 2 > MAX_FRAME_BYTES && data == []
  }

  /**
   After a pending write the retry does what a single write with a ready sink would have done:
   if and only if the bytes written again add no line and change no remainder, when the line
   stopped at does not end in two returns; if it does, the line goes out with one return less,
   so never, but for two returns alone, which the repeated bytes may make up for, and for lines
   too long to be sent at all.
   */
  lemma RetryIsOnce(buf: seq<byte>, sent: seq<seq<byte>>, data: seq<byte>, slots: Slots)
    requires SendLines(buf + data, sent, slots).poll.Pending?
    ensures var w := SendLines(buf + data, sent, slots);
            SendLines(w.buf + data, w.sent, None) == SendLines(buf + data, sent, None)
            <==> RepeatsWell(buf, data, slots)
  {
    hide SendLines, Bodies, Rest, Fit, Wrapped, StoppedAt, Behind, Before, TwoReturns, AddsNothing, Strip, Framed;
    var all, w := buf + data, SendLines(buf + data, sent, slots);
    PutBackSends(all, sent, slots, data);
    PutBackSends(all, sent, slots, []);
    PendingShape(all, sent, slots);
    var line, rest := StoppedAt(all, slots), Behind(all, slots);
    assert all + [] == all && rest + [] == rest;
    SendsLine(line, rest, w.sent);
    SendsLine(Strip(line), rest + data, w.sent);
    StripTwice(line);
    if !TwoReturns(line) {
      AddsNothingIff(buf, data);
      RetrySame(line, rest, data, w.sent);
      FitThree(Before(all, slots), Strip(line), Bodies(rest));
    } else {
      StripLess(line);
      if line == [RETURN, RETURN] {
        ReturnsAgain(rest, data, w.sent, Framed(Strip(line)));
      } else if |Strip(Strip(line))| <= MAX_FRAME_BYTES {
        OtherFrame(line, Strip(line), rest, rest + data, w.sent);
      } else {
        LongerBy(rest, data);
      }
    }
  }

  /** An ordinary line, pending and then repeated, is sent twice. */
  lemma LineSentTwice(line: seq<byte>)
    requires NEWLINE !in line && line != [] && Strip(line) == line && |line| <= MAX_FRAME_BYTES
    ensures var data := line + [NEWLINE];
            && SendLines(data, [], Some(0)) == Writer(data, [], Pending)
            && SendLines(data, [], None) == Writer([], [Framed(line)], Ready)
            && SendLines(data + data, [], None) == Writer([], [Framed(line), Framed(line)], Ready)
  {
    hide Strip, SendLines, NewlinePos, Framed, First, Tail;
    var data := line + [NEWLINE];
    assert data + [] == data && [] + [Framed(line)] == [Framed(line)];
    LineFirst(line, []);
    SendsHere(data, []);
    SendsLine(line, [], []);
    SendsLine(line, data, []);
    SendsLine(line, [], [Framed(line)]);
    SendNone([], [Framed(line)], None);
    SendNone([], [Framed(line), Framed(line)], None);
    assert [Framed(line)] + [Framed(line)] == [Framed(line), Framed(line)];
  }

  /** "a" and two returns in the buffer, and a line end written: it adds nothing, yet the retry sends another line. */
  lemma BareLineEndNotHarmless()
    ensures var buf, data := [97, RETURN, RETURN], [NEWLINE];
            && AddsNothing(data)
            && SendLines(buf + data, [], Some(0)) == Writer([97, RETURN, NEWLINE], [], Pending)
            && SendLines([97, RETURN, NEWLINE] + data, [], None) == Writer([], [Framed([97])], Ready)
            && SendLines(buf + data, [], None) == Writer([], [Framed([97, RETURN])], Ready)
            && !RepeatsWell(buf, data, Some(0))
  {
    hide Strip, SendLines, NewlinePos, Framed, First, Tail, Rest, Bodies, RepeatsWell;
    var line: seq<byte>, data: seq<byte> := [97, RETURN, RETURN], [NEWLINE];
    var less: seq<byte> := [97, RETURN];
    SecondReturnLost([]);
    StripTwo();
    assert line + data == [97, RETURN, RETURN, NEWLINE] == line + [NEWLINE] + [];
    assert less + [NEWLINE] + data == [97, RETURN, NEWLINE] + data;
    SendsLine(line, [], []);
    SendsLine(less, data, []);
    SendsLine([], [], [Framed([97])]);
    assert [] + [NEWLINE] + [] == data;
    assert forall f: seq<byte> :: [] + [f] == [f];
    SendNone([], [Framed([97])], None);
    SendNone([], [Framed([97, RETURN])], None);
    RetryIsOnce(line, [], data, Some(0));
    LineEnd();
    BodiesByFirst(data);
    NoLine([]);
    assert [] + data == data;
    FramedDecodes([97]);
    FramedDecodes(less);
  }

  lemma StripTwo()
    ensures Strip([97, RETURN, RETURN]) == [97, RETURN] && Strip([97, RETURN]) == [97] && Strip([]) == []
  {
  }

  lemma LongerBy(a: seq<byte>, b: seq<byte>)
    ensures a + b == a <==> b == []
  {
    assert |a + b| == |a| + |b|;
    assert b == [] ==> a + b == a;
  }

  lemma FitThree(done: seq<seq<byte>>, line: seq<byte>, rest: seq<seq<byte>>)
    ensures Fit(done + [line] + rest) <==> Fit(done) && |line| <= MAX_FRAME_BYTES && Fit(rest)
  {
    hide Fit;
    FitAppend(done + [line], rest);
    FitAppend(done, [line]);
    FitOne(line);
  }

  lemma FitOne(line: seq<byte>)
    ensures Fit([line]) <==> |line| <= MAX_FRAME_BYTES
  {
    assert line in [line];
  }

  /** The same line again: it all depends on what stands behind it. */
  lemma RetrySame(line: seq<byte>, rest: seq<byte>, data: seq<byte>, sent: seq<seq<byte>>)
    requires NEWLINE !in line && Strip(line) != [] && Strip(Strip(line)) == Strip(line) && NEWLINE !in Strip(line)
    ensures SendLines(Strip(line) + [NEWLINE] + (rest + data), sent, None)
            == SendLines(line + [NEWLINE] + rest, sent, None)
            <==> if |Strip(line)| <= MAX_FRAME_BYTES then NothingMore(rest, data) else data == []
  {
    hide SendLines, Strip, Framed, NothingMore;
    SendsLine(line, rest, sent);
    SendsLine(Strip(line), rest + data, sent);
    SameSends(rest, data, sent + [Framed(Strip(line))]);
    LongerBy(rest, data);
  }

  /** A lost frame of a single return is made up for exactly by one more after none but such. */
  lemma ReturnsAgain(rest: seq<byte>, data: seq<byte>, sent: seq<seq<byte>>, frame: seq<byte>)
    requires frame == Framed([RETURN])
    ensures SendLines(rest + data, sent, None) == SendLines(rest, sent + [frame], None)
            <==> && (forall l :: l in Bodies(rest) ==> l == [RETURN])
                 && Bodies(Rest(rest) + data) == [[RETURN]] && Rest(Rest(rest) + data) == Rest(rest)
  {
    hide SendLines, Bodies, Rest, Fit, Wrapped, Framed;
    SendsAfter(rest + data, sent);
    SendsAfter(rest, sent + [frame]);
    BodiesConcat(rest, data);
    var once, again := SendLines(rest, [], None), SendLines(rest + data, [], None);
    assert sent + [frame] + once.sent == sent + ([frame] + once.sent);
    assert sent + again.sent == sent + ([frame] + once.sent) <==> again.sent == [frame] + once.sent by {
      assert (sent + again.sent)[|sent|..] == again.sent;
      assert (sent + ([frame] + once.sent))[|sent|..] == [frame] + once.sent;
    }
    var lines, more := Bodies(rest), Bodies(Rest(rest) + data);
    if Fit(lines) {
      SendLinesSplits(rest, []);
      WrappedCons([RETURN], lines);
      if again.poll.Ready? {
        ReadySplits(rest + data, [], None);
        FitCons([RETURN], lines);
        assert again.sent == Wrapped(lines + more) && once.sent == Wrapped(lines);
        WrappedSame(lines + more, [[RETURN]] + lines);
        AllReturns(lines, more);
      } else {
        AllReturnsFit(lines, more);
        FitAppend(lines, more);
        if Fit(lines + more) {
          SendLinesSplits(rest + data, []);
        }
      }
    } else {
      FailsAlike(rest, data);
      AllReturnsFit(lines, more);
    }
  }

  lemma AllReturnsFit(lines: seq<seq<byte>>, more: seq<seq<byte>>)
    ensures (forall l :: l in lines ==> l == [RETURN]) ==> Fit(lines)
    ensures more == [[RETURN]] ==> Fit(more)
  {
  }

  lemma {:induction false} AllReturns(lines: seq<seq<byte>>, more: seq<seq<byte>>)
    ensures lines + more == [[RETURN]] + lines
            <==> (forall l :: l in lines ==> l == [RETURN]) && more == [[RETURN]]
  {
    if lines == [] {
      assert lines + more == more && [[RETURN]] + lines == [[RETURN]];
    } else {
      var first, next := lines[0], lines[1..];
      AllReturns(next, more);
      assert lines == [first] + next;
      assert forall l :: l in lines <==> l == first || l in next;
      assert [first] + next + more == [first] + (next + more);
      PairSame(first, next + more, [RETURN], [first] + next);
      assert first in lines;
      if lines + more == [[RETURN]] + lines {
        assert next + more == [[RETURN]] + next;
        assert forall l :: l in lines ==> l == [RETURN];
      }
      if (forall l :: l in lines ==> l == [RETURN]) && more == [[RETURN]] {
        assert forall l :: l in next ==> l in lines;
        assert next + more == [[RETURN]] + next;
      }
    }
  }

  lemma PairSame(x: seq<byte>, a: seq<seq<byte>>, y: seq<byte>, b: seq<seq<byte>>)
    ensures [x] + a == [y] + b <==> x == y && a == b
  {
    assert ([x] + a)[0] == x && ([x] + a)[1..] == a;
    assert ([y] + b)[0] == y && ([y] + b)[1..] == b;
  }

  lemma WrappedSame(a: seq<seq<byte>>, b: seq<seq<byte>>)
    requires Fit(a) && Fit(b)
    ensures Wrapped(a) == Wrapped(b) <==> a == b
  {
    hide Framed, Decode;
    if Wrapped(a) == Wrapped(b) {
      assert |a| == |Wrapped(a)| == |b|;
      forall i | 0 <= i < |a| ensures a[i] == b[i] {
        FramedDecodes(a[i]);
        FramedDecodes(b[i]);
        assert Wrapped(a)[i] == Framed(a[i]) && Wrapped(b)[i] == Framed(b[i]);
      }
    }
  }

  /** Whether data adds nothing is decided by the remainder it meets. */
  lemma AddsNothingIff(buf: seq<byte>, data: seq<byte>)
    ensures AddsNothing(data) <==>
            Bodies(Rest(buf + data) + data) == [] && Rest(Rest(buf + data) + data) == Rest(buf + data)
  {
    hide Bodies, Rest, NewlinePos;
    RestOfAppended(buf, data);
    var r := Rest(buf + data);
    RestAfter(r, data);
    if NewlinePos(data) == |data| {
      NoLine(r + data);
      assert |r + data| == |r| + |data|;
      assert data == [] ==> r + data == r;
    }
  }

  /** For clean bytes those are nothing, a line end, or a line end and a return. */
  lemma CleanAddsNothing(buf: seq<byte>, data: seq<byte>)
    requires Clean(buf + data)
    ensures AddsNothing(data) <==> data == [] || data == [NEWLINE] || data == [NEWLINE, RETURN]
  {
    BodiesConcat(buf, data);
    if NewlinePos(data) < |data| {
      RestAfter(Rest(buf), data);
      RestAfter(Rest(data), data);
      ByFirst(Rest(buf) + data);
      ByFirst(Rest(data) + data);
      ByFirst(data);
      CleanHasBodies(Tail(data));
      hide NewlinePos, Rest, Bodies, Clean;
      AddsNothingShape(data, Rest(buf), Rest(data));
      LineEnd();
    }
  }

  lemma CleanHasBodies(s: seq<byte>)
    requires Clean(s)
    ensures Bodies(s) == [] <==> NewlinePos(s) == |s|
  {
    if NewlinePos(s) < |s| {
      ByFirst(s);
    } else {
      NoLine(s);
    }
  }

  /** The line end alone, and with a return after it. */
  lemma LineEnd()
    ensures var s: seq<byte> := [NEWLINE];
            NewlinePos(s) == 0 && First(s) == [] && Tail(s) == [] && Rest(s) == [] && NewlinePos([]) == 0
    ensures var s: seq<byte> := [NEWLINE, RETURN];
            NewlinePos(s) == 0 && First(s) == [] && Tail(s) == [RETURN] && Rest(s) == [RETURN]
            && NewlinePos([RETURN]) == 1
  {
    LineFirst([], []);
    LineFirst([], [RETURN]);
    assert [] + [NEWLINE] + [] == [NEWLINE] && [] + [NEWLINE] + [RETURN] == [NEWLINE, RETURN];
    NoLine([RETURN]);
    NoLine([]);
    ByFirst([NEWLINE]);
    ByFirst([NEWLINE, RETURN]);
  }

  lemma AddsNothingShape(data: seq<byte>, before: seq<byte>, t: seq<byte>)
    requires NewlinePos(data) < |data| && t == Rest(data) == Rest(Tail(data))
    requires before + First(data) != [] && Strip(before + First(data)) == before + First(data)
    requires NewlinePos(Tail(data)) == |Tail(data)| ==> t == Tail(data)
    ensures Strip(t + First(data)) == [] && NewlinePos(Tail(data)) == |Tail(data)| ==>
              data == [NEWLINE] || data == [NEWLINE, RETURN]
  {
    hide NewlinePos, Rest, First, Tail, Strip;
    FirstThenTail(data);
    NotOnlyReturn(before, First(data), t);
    if First(data) == [] {
      assert [] + [NEWLINE] + Tail(data) == [NEWLINE] + Tail(data);
    }
  }

  lemma FirstThenTail(s: seq<byte>)
    requires NewlinePos(s) < |s|
    ensures s == First(s) + [NEWLINE] + Tail(s)
  {
    hide NewlinePos;
    SplitHere(s, NewlinePos(s));
  }

  lemma SplitHere(s: seq<byte>, p: nat)
    requires p < |s|
    ensures s == s[..p] + [s[p]] + s[p + 1..]
  {
  }

  /** A first piece that does not end its line in a return is empty if the line after it strips to nothing. */
  lemma NotOnlyReturn(before: seq<byte>, x: seq<byte>, t: seq<byte>)
    requires before + x != [] && Strip(before + x) == before + x
    ensures Strip(t + x) == [] <==> x == [] && (t == [] || t == [RETURN])
  {
    if x != [] {
      assert (before + x)[|before + x| - 1] == x[|x| - 1] == (t + x)[|t + x| - 1];
    } else {
      assert t + x == t;
    }
  }
}
