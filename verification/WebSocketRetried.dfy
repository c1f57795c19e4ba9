/**
 Whole runs of the WebSocket adapter over a sink that is not always ready: the caller repeats a
 pending write until it is done. The bytes read back are those written exactly if no write but
 of a bare line end had to be repeated.
 */
module WebSocketRetried {
  import opened Common
  import opened Framing
  import opened WebSocketAdapter
  import opened WebSocketRoundTrip
  import opened WebSocketRetries

  /** A write: the readiness of the sink at the attempts that stay pending, and at the last one. */
  datatype Call = Write(data: seq<byte>, stops: seq<Slots>, last: Slots) | FlushNow(slots: Slots)

  /** The writer after the pending attempts. */
  function Attempts(w: Writer, data: seq<byte>, stops: seq<Slots>): Writer {
    if stops == [] then w
    else
      var v := Attempts(w, data, stops[..|stops| - 1]);
      SendLines(v.buf + data, v.sent, stops[|stops| - 1])
  }

  /** The attempts meant to stay pending do. */
  predicate AllPending(w: Writer, data: seq<byte>, stops: seq<Slots>) {
    stops == [] || (AllPending(w, data, stops[..|stops| - 1]) && Attempts(w, data, stops).poll.Pending?)
  }

  function Apply(w: Writer, call: Call): Writer {
    match call
    case Write(data, stops, last) =>
      var v := Attempts(w, data, stops);
      SendLines(v.buf + data, v.sent, last)
    case FlushNow(slots) => Flush(w.buf, w.sent, slots)
  }

  /** Every repeated attempt was pending and the last one went through. */
  predicate Possible(w: Writer, call: Call) {
    match call
    case Write(data, stops, _) => AllPending(w, data, stops) && Apply(w, call).poll.Ready?
    case FlushNow(_) => true
  }

  function RunCalls(calls: seq<Call>): Writer {
    if calls == [] then Writer([], [], Ready) else Apply(RunCalls(calls[..|calls| - 1]), calls[|calls| - 1])
  }

  predicate AllPossible(calls: seq<Call>) {
    calls == [] || (AllPossible(calls[..|calls| - 1]) && Possible(RunCalls(calls[..|calls| - 1]), calls[|calls| - 1]))
  }

  function DataOf(call: Call): seq<byte> {
    if call.Write? then call.data else []
  }

  /** The bytes the caller meant to write. */
  function Written(calls: seq<Call>): seq<byte> {
    if calls == [] then [] else Written(calls[..|calls| - 1]) + DataOf(calls[|calls| - 1])
  }

  predicate FlushedAtLineEnds(calls: seq<Call>) {
    calls == [] || (
      && FlushedAtLineEnds(calls[..|calls| - 1])
      && (calls[|calls| - 1].FlushNow? ==> Rest(Written(calls[..|calls| - 1])) == []))
  }

  predicate BareLineEnd(data: seq<byte>) {
    data == [] || data == [NEWLINE] || data == [NEWLINE, RETURN]
  }

  /** A write that had to be repeated is of a bare line end. */
  predicate Harmless(call: Call) {
    call.Write? && call.stops != [] ==> BareLineEnd(call.data)
  }

  // ---- Lines that cannot lose a second return ----

  /** No complete line ends in two returns. */
  predicate Steady(s: seq<byte>)
    decreases |s|
  {
    NewlinePos(s) < |s| ==> !TwoReturns(First(s)) && Steady(Tail(s))
  }

  lemma {:induction false} SteadyConcat(a: seq<byte>, b: seq<byte>)
    ensures Steady(a + b) <==> Steady(a) && Steady(Rest(a) + b)
    decreases |a|
  {
    hide NewlinePos, TwoReturns, Rest, First, Tail;
    if NewlinePos(a) == |a| {
      NoRest(a);
    } else {
      MoreAfter(a, b);
      ByFirst(a);
      SteadyConcat(Tail(a), b);
    }
  }

  lemma NoRest(s: seq<byte>)
    requires NewlinePos(s) == |s|
    ensures Rest(s) == s
  {
    hide NewlinePos;
  }

  lemma {:induction false} CleanIsSteady(s: seq<byte>)
    requires Clean(s)
    ensures Steady(s)
    decreases |s|
  {
    if NewlinePos(s) < |s| {
      ByFirst(s);
      StripTwice(First(s));
      hide NewlinePos, Strip, Clean, TwoReturns;
      CleanIsSteady(Tail(s));
    }
  }

  /** A pending write on a steady buffer stops at no line with two returns, and stays steady. */
  lemma {:induction false} SteadyStops(buf: seq<byte>, sent: seq<seq<byte>>, slots: Slots)
    requires Steady(buf) && SendLines(buf, sent, slots).poll.Pending?
    ensures !TwoReturns(StoppedAt(buf, slots)) && Steady(SendLines(buf, sent, slots).buf)
    decreases |buf|
  {
    hide NewlinePos, Strip, SendLines, StoppedAt, TwoReturns, Framed, First, Tail, Rest;
    if NewlinePos(buf) == |buf| {
      SendNone(buf, sent, slots);
    } else {
      ByFirst(buf);
      SendStep(buf, sent, slots);
      var line, rest := Strip(First(buf)), Tail(buf);
      if line == [] {
        SteadyStops(rest, sent, slots);
      } else if slots == Some(0) {
        NoNewline(buf);
        LineFirst(line, rest);
        StillOne(First(buf));
      } else {
        SteadyStops(rest, sent + [Framed(line)], OneLess(slots));
      }
    }
  }

  lemma StillOne(line: seq<byte>)
    requires !TwoReturns(line)
    ensures !TwoReturns(Strip(line))
  {
  }

  /**
   For clean bytes a repeated write is as good as one exactly if it is of a bare line end, or of
   nothing where a line is too long to be sent.
   */
  lemma CleanRetry(buf: seq<byte>, sent: seq<seq<byte>>, data: seq<byte>, slots: Slots)
    requires Clean(buf + data) && SendLines(buf + data, sent, slots).poll.Pending?
    ensures var w := SendLines(buf + data, sent, slots);
            SendLines(w.buf + data, w.sent, None) == SendLines(buf + data, sent, None)
            <==> if Fit(Bodies(buf + data)) then BareLineEnd(data) else data == []
  {
    hide SendLines, Clean, Fit, Bodies, TwoReturns, StoppedAt, AddsNothing, Steady;
    CleanIsSteady(buf + data);
    SteadyStops(buf + data, sent, slots);
    RetryIsOnce(buf, sent, data, slots);
    CleanAddsNothing(buf, data);
  }

  // ---- Repeating a bare line end ----

  /** The frames sent or still to be sent, and the remainder. */
  function Owed(w: Writer): (seq<seq<byte>>, seq<byte>) {
    (w.sent + Wrapped(Bodies(w.buf)), Rest(w.buf))
  }

  lemma PendingOwes(buf: seq<byte>, sent: seq<seq<byte>>, slots: Slots)
    requires Steady(buf) && SendLines(buf, sent, slots).poll.Pending?
    ensures Owed(SendLines(buf, sent, slots)) == Owed(Writer(buf, sent, Ready))
    ensures Steady(SendLines(buf, sent, slots).buf)
  {
    hide SendLines, Bodies, Rest, Wrapped, TwoReturns, StoppedAt, Steady;
    SteadyStops(buf, sent, slots);
    PendingKeepsLines(buf, sent, slots, []);
    var w := SendLines(buf, sent, slots);
    assert w.buf + [] == w.buf && buf + [] == buf;
    var done := Bodies(buf)[..|w.sent| - |sent|];
    WrappedAppend(done, Bodies(w.buf));
    assert sent + Wrapped(done) + Wrapped(Bodies(w.buf)) == sent + (Wrapped(done) + Wrapped(Bodies(w.buf)));
  }

  lemma AppendOwes(buf: seq<byte>, sent: seq<seq<byte>>, data: seq<byte>)
    requires Bodies(Rest(buf) + data) == [] && Rest(Rest(buf) + data) == Rest(buf)
    ensures Owed(Writer(buf + data, sent, Ready)) == Owed(Writer(buf, sent, Ready))
  {
    hide Bodies, Rest, Wrapped;
    BodiesConcat(buf, data);
    assert Bodies(buf) + [] == Bodies(buf);
  }

  /** A bare line end, written again after itself: nothing changes, and no line has two returns. */
  lemma BareAgain(buf: seq<byte>, data: seq<byte>)
    requires BareLineEnd(data) && data != []
    ensures var t := Rest(buf + data); Bodies(t + data) == [] && Rest(t + data) == t && Steady(t + data)
  {
    hide Bodies, Rest, Clean, NewlinePos, Steady;
    LineEnd();
    RestOfAppended(buf, data);
    var t := Rest(buf + data);
    assert t == if data == [NEWLINE] then [] else [RETURN];
    BareTwice();
  }

  lemma BareTwice()
    ensures Bodies([NEWLINE]) == [] && Rest([NEWLINE]) == [] && Steady([NEWLINE])
    ensures var s: seq<byte> := [RETURN, NEWLINE, RETURN]; Bodies(s) == [] && Rest(s) == [RETURN] && Steady(s)
    ensures [] + [NEWLINE] == [NEWLINE] && [RETURN] + [NEWLINE, RETURN] == [RETURN, NEWLINE, RETURN]
  {
    LineFirst([], []);
    LineFirst([RETURN], [RETURN]);
    var s: seq<byte> := [RETURN, NEWLINE, RETURN];
    assert [] + [NEWLINE] + [] == [NEWLINE] && [RETURN] + [NEWLINE] + [RETURN] == s;
    ByFirst([NEWLINE]);
    ByFirst(s);
    assert NewlinePos([RETURN]) == 1;
    NoLine([RETURN]);
    NoLine([]);
  }

  /** After the first attempt, repeating a bare line end keeps what is owed. */
  lemma {:induction false} BareAttempts(w: Writer, data: seq<byte>, stops: seq<Slots>)
    requires BareLineEnd(data) && data != [] && Steady(w.buf + data)
    requires stops != [] && AllPending(w, data, stops)
    ensures var v := Attempts(w, data, stops);
            Owed(v) == Owed(Writer(w.buf + data, w.sent, Ready)) && Steady(v.buf) && Rest(v.buf) == Rest(w.buf + data)
    decreases |stops|
  {
    hide SendLines, Bodies, Rest, Wrapped, Steady, BareLineEnd;
    var front, slots := stops[..|stops| - 1], stops[|stops| - 1];
    var v := Attempts(w, data, front);
    if front == [] {
      PendingOwes(w.buf + data, w.sent, slots);
    } else {
      BareAttempts(w, data, front);
      BareAgain(w.buf, data);
      AppendOwes(v.buf, v.sent, data);
      SteadyConcat(v.buf, data);
      PendingOwes(v.buf + data, v.sent, slots);
    }
  }

  /** A write of a bare line end, however often repeated, ends as one write with a ready sink. */
  lemma BareWrite(w: Writer, call: Call)
    requires call.Write? && Possible(w, call) && Harmless(call) && Steady(w.buf + call.data)
    requires NewlinePos(w.buf) == |w.buf|
    ensures Apply(w, call) == Writer(Rest(w.buf + call.data), w.sent + Wrapped(Bodies(w.buf + call.data)), Ready)
  {
    var data, v := call.data, Attempts(w, call.data, call.stops);
    hide SendLines, Bodies, Rest, Wrapped, Steady, NewlinePos, Fit, Attempts, AllPending;
    ReadySplits(v.buf + data, v.sent, call.last);
    if call.stops == [] {
      NoAttempts(w, data);
    } else if data == [] {
      PendingNeedsLine(w, call.stops);
    } else {
      BareAttempts(w, data, call.stops);
      BareAgain(w.buf, data);
      AppendOwes(v.buf, v.sent, data);
    }
  }

  lemma NoAttempts(w: Writer, data: seq<byte>)
    ensures Attempts(w, data, []) == w
  {
  }

  /** Without a newline no attempt is pending. */
  lemma {:induction false} PendingNeedsLine(w: Writer, stops: seq<Slots>)
    requires NewlinePos(w.buf) == |w.buf| && stops != [] && AllPending(w, [], stops)
    ensures false
    decreases |stops|
  {
    hide NewlinePos, SendLines;
    var front := stops[..|stops| - 1];
    if front == [] {
      var slots := stops[|stops| - 1];
      assert w.buf + [] == w.buf;
      SendNone(w.buf, w.sent, slots);
      assert Attempts(w, [], stops) == SendLines(w.buf, w.sent, slots);
    } else {
      PendingNeedsLine(w, front);
    }
  }

  // ---- How many bytes come out ----

  /** Every frame is one the reader takes. */
  predicate Valid(frames: seq<seq<byte>>) {
    forall f :: f in frames ==> |f| <= MAX_FRAME_BYTES + 4 && Decode(f).Ok?
  }

  /** How many bytes the reader makes of the frames: the bodies, and a line end for each. */
  function Length(frames: seq<seq<byte>>): int {
    if frames == [] then 0 else Length(frames[..|frames| - 1]) + |frames[|frames| - 1]| - 3
  }

  lemma LengthAppend(frames: seq<seq<byte>>, f: seq<byte>)
    ensures Length(frames + [f]) == Length(frames) + |f| - 3
  {
    assert (frames + [f])[..|frames|] == frames;
  }

  lemma FramedValid(body: seq<byte>)
    requires |body| <= MAX_FRAME_BYTES
    ensures |Framed(body)| == |body| + 4 <= MAX_FRAME_BYTES + 4 && Decode(Framed(body)).Ok?
  {
    FramedDecodes(body);
  }

  lemma {:induction false} LengthFront(f: seq<byte>, rest: seq<seq<byte>>)
    ensures Length([f] + rest) == |f| - 3 + Length(rest)
    decreases |rest|
  {
    if rest == [] {
      assert [f] + [] == [f] && [f][..0] == [];
    } else {
      var front, last := rest[..|rest| - 1], rest[|rest| - 1];
      LengthFront(f, front);
      assert [f] + rest == [f] + front + [last];
      LengthAppend([f] + front, last);
    }
  }

  /** What arrives is as long as the frames say. */
  lemma {:induction false} PayloadLength(incoming: seq<Message>, frames: seq<seq<byte>>)
    requires Valid(frames) && Carries(incoming, frames)
    ensures |Payload(incoming)| == Length(frames)
    decreases |incoming|
  {
    if incoming != [] {
      if incoming[0].Control? {
        PayloadLength(incoming[1..], frames);
      } else {
        assert frames[0] in frames && forall f :: f in frames[1..] ==> f in frames;
        assert frames == [frames[0]] + frames[1..];
        LengthFront(frames[0], frames[1..]);
        DecodedLength(frames[0]);
        hide Decode, Length;
        PayloadLength(incoming[1..], frames[1..]);
      }
    }
  }

  lemma DecodedLength(f: seq<byte>)
    requires Decode(f).Ok?
    ensures |Decode(f).value| == |f| - 4
  {
    hide FromBigEndian;
  }

  /** How many bytes a line in the buffer loses on its way: a return, or all of an empty line. */
  function Loss(line: seq<byte>): nat {
    if line == [] then 1
    else if Strip(line) == [] then 2
    else if Strip(line) != line then 1
    else 0
  }

  /** How many bytes of the buffer come out once a line end is written. */
  function Kept(s: seq<byte>): int
    decreases |s|
  {
    if NewlinePos(s) == |s| then |s| else |First(s)| + 1 - Loss(First(s)) + Kept(Tail(s))
  }

  function Weight(w: Writer): int {
    Length(w.sent) + Kept(w.buf)
  }

  lemma {:induction false} KeptConcat(a: seq<byte>, b: seq<byte>)
    ensures Kept(a + b) == Kept(a) - |Rest(a)| + Kept(Rest(a) + b)
    decreases |a|
  {
    hide NewlinePos, Loss, First, Tail, Rest;
    if NewlinePos(a) == |a| {
      NoRest(a);
    } else {
      MoreAfter(a, b);
      ByFirst(a);
      KeptConcat(Tail(a), b);
    }
  }

  lemma {:induction false} KeptClean(s: seq<byte>)
    requires Clean(s)
    ensures Kept(s) == |s|
    decreases |s|
  {
    if NewlinePos(s) < |s| {
      ByFirst(s);
      hide NewlinePos, Strip, First, Tail, Clean;
      KeptClean(Tail(s));
    }
  }

  lemma KeptNoLine(s: seq<byte>)
    requires NewlinePos(s) == |s|
    ensures Kept(s) == |s|
  {
    hide NewlinePos;
  }

  /** What a line put back will lose the second time. */
  function Extra(line: seq<byte>): nat {
    if Strip(line) == [] then 0 else Loss(Strip(line))
  }

  /** A poll that does not fail changes the weight only by what a line put back loses again. */
  lemma {:induction false} SendWeight(buf: seq<byte>, sent: seq<seq<byte>>, slots: Slots)
    requires Valid(sent) && !SendLines(buf, sent, slots).poll.Failed?
    ensures var w := SendLines(buf, sent, slots);
            && Valid(w.sent)
            && (w.poll.Ready? ==> Weight(w) == Weight(Writer(buf, sent, Ready)))
            && (w.poll.Pending? ==> Weight(w) == Weight(Writer(buf, sent, Ready)) - Extra(StoppedAt(buf, slots)))
            && (w.poll.Pending? ==> NewlinePos(buf) < |buf|)
    decreases |buf|
  {
    hide NewlinePos, Strip, SendLines, StoppedAt, Framed, Length, Valid, First, Tail;
    if NewlinePos(buf) == |buf| {
      SendNone(buf, sent, slots);
    } else {
      ByFirst(buf);
      SendStep(buf, sent, slots);
      var line, rest := Strip(First(buf)), Tail(buf);
      StripLoss(First(buf));
      if line == [] {
        SendWeight(rest, sent, slots);
      } else if slots == Some(0) {
        NoNewline(buf);
        LineFirst(line, rest);
      } else {
        FramedValid(line);
        OneMoreValid(sent, Framed(line));
        LengthAppend(sent, Framed(line));
        SendWeight(rest, sent + [Framed(line)], OneLess(slots));
      }
    }
  }

  lemma StripLoss(line: seq<byte>)
    ensures Strip(line) == [] ==> Loss(line) == |line| + 1
    ensures Strip(line) != [] ==> |line| - Loss(line) == |Strip(line)|
  {
  }

  lemma OneMoreValid(frames: seq<seq<byte>>, f: seq<byte>)
    requires Valid(frames) && |f| <= MAX_FRAME_BYTES + 4 && Decode(f).Ok?
    ensures Valid(frames + [f])
  {
    hide Decode;
  }

  // ---- Repeating any other write makes more come out ----

  /** The line comes out as it is. */
  predicate Firm(line: seq<byte>) {
    line != [] && line[|line| - 1] != RETURN
  }

  lemma FirmLoss(line: seq<byte>)
    ensures Firm(line) <==> Loss(line) == 0
    ensures Firm(line) <==> line != [] && Strip(line) == line
    ensures Firm(line) ==> Extra(line) == 0
    ensures Extra(line) <= |line| && (|line| <= 1 ==> Extra(line) == 0)
    ensures Loss(line) <= 2
  {
  }

  /** Every complete line comes out as it is, or is short. */
  predicate Tame(s: seq<byte>, n: nat)
    decreases |s|
  {
    NewlinePos(s) < |s| ==> (Firm(First(s)) || |First(s)| <= n) && Tame(Tail(s), n)
  }

  lemma {:induction false} TameConcat(a: seq<byte>, b: seq<byte>, n: nat)
    ensures Tame(a + b, n) <==> Tame(a, n) && Tame(Rest(a) + b, n)
    decreases |a|
  {
    hide NewlinePos, Firm, First, Tail, Rest;
    if NewlinePos(a) == |a| {
      NoRest(a);
    } else {
      MoreAfter(a, b);
      ByFirst(a);
      TameConcat(Tail(a), b, n);
    }
  }

  lemma {:induction false} CleanTame(s: seq<byte>, n: nat)
    requires Clean(s)
    ensures Tame(s, n)
    decreases |s|
  {
    if NewlinePos(s) < |s| {
      ByFirst(s);
      FirmLoss(First(s));
      hide NewlinePos, Strip, Firm, First, Tail, Clean;
      CleanTame(Tail(s), n);
    }
  }

  lemma {:induction false} TameMore(s: seq<byte>, n: nat, m: nat)
    requires Tame(s, n) && n <= m
    ensures Tame(s, m)
    decreases |s|
  {
    hide NewlinePos, Firm, First;
    if NewlinePos(s) < |s| {
      TameMore(Tail(s), n, m);
    }
  }

  function Most(n: nat): nat {
    if n <= 1 then 0 else n
  }

  /** A pending write on a tame buffer loses little at the line it stops at, and leaves it tame. */
  lemma {:induction false} TameStops(buf: seq<byte>, sent: seq<seq<byte>>, slots: Slots, n: nat)
    requires Tame(buf, n) && SendLines(buf, sent, slots).poll.Pending?
    ensures Extra(StoppedAt(buf, slots)) <= Most(n) && Tame(SendLines(buf, sent, slots).buf, n)
    decreases |buf|
  {
    hide NewlinePos, Strip, SendLines, StoppedAt, Framed, First, Tail, Extra, Firm;
    if NewlinePos(buf) == |buf| {
      SendNone(buf, sent, slots);
    } else {
      ByFirst(buf);
      SendStep(buf, sent, slots);
      var line, rest := Strip(First(buf)), Tail(buf);
      if line == [] {
        TameStops(rest, sent, slots, n);
      } else if slots == Some(0) {
        NoNewline(buf);
        LineFirst(line, rest);
        FirmLoss(First(buf));
        StripTwice(First(buf));
      } else {
        TameStops(rest, sent + [Framed(line)], OneLess(slots), n);
      }
    }
  }

  /** What writing data again after itself adds to what comes out. */
  function Gain(data: seq<byte>): int {
    Kept(Rest(data) + data) - |Rest(data)|
  }

  /** The line at which data meets its own end: it loses nothing unless data starts with the line end. */
  lemma JoinLoss(before: seq<byte>, x: seq<byte>, t: seq<byte>)
    requires Firm(before + x)
    ensures x != [] ==> Loss(t + x) == 0
    ensures x == [] ==> Loss(t + x) == Loss(t)
    ensures Loss([]) == 1 && Loss([RETURN]) == 2 && (|t| == 1 && t != [RETURN] ==> Loss(t) == 0)
    ensures |t| >= 2 ==> Loss(t) <= 1
  {
    if x != [] {
      assert (before + x)[|before + x| - 1] == x[|x| - 1] == (t + x)[|t + x| - 1];
    } else {
      assert t + x == t;
    }
  }

  lemma KeptByFirst(s: seq<byte>)
    requires NewlinePos(s) < |s|
    ensures Kept(s) == |First(s)| + 1 - Loss(First(s)) + Kept(Tail(s))
    ensures forall n :: Tame(s, n) <==> (Firm(First(s)) || |First(s)| <= n) && Tame(Tail(s), n)
  {
    hide NewlinePos, Loss, Firm;
  }

  /** The parts of clean bytes around the first line end of a piece. */
  lemma CleanParts(before: seq<byte>, data: seq<byte>)
    requires Clean(before + data) && NewlinePos(data) < |data|
    ensures Firm(Rest(before) + First(data)) && Clean(Tail(data))
    ensures Rest(data) == Rest(Tail(data)) && |Rest(data)| <= |Tail(data)|
    ensures |data| == |First(data)| + 1 + |Tail(data)|
    ensures |Rest(data)| == |Tail(data)| ==> Rest(data) == Tail(data)
    ensures data == First(data) + [NEWLINE] + Tail(data)
  {
    assert data == First(data) + [NEWLINE] + Tail(data);
    BodiesConcat(before, data);
    RestAfter(Rest(before), data);
    ByFirst(Rest(before) + data);
    ByFirst(data);
    FirmLoss(Rest(before) + First(data));
    hide NewlinePos, Strip, Clean, Firm, First, Tail;
    RestIsSuffix(Tail(data));
  }

  lemma {:induction false} RestIsSuffix(s: seq<byte>)
    ensures |Rest(s)| <= |s| && (|Rest(s)| == |s| ==> Rest(s) == s)
    decreases |s|
  {
    if NewlinePos(s) < |s| {
      RestIsSuffix(Tail(s));
    }
  }

  /** Clean data written again brings all its bytes but what the line it meets its own end on loses. */
  lemma GainByLoss(before: seq<byte>, data: seq<byte>)
    requires Clean(before + data) && NewlinePos(data) < |data|
    ensures Gain(data) == |data| - Loss(Rest(data) + First(data))
    ensures Tame(Rest(data) + data, |Rest(data)|)
  {
    var t, x, tail := Rest(data), First(data), Tail(data);
    CleanParts(before, data);
    RestAfter(t, data);
    KeptByFirst(t + data);
    JoinLoss(Rest(before), x, t);
    FirmLoss(t + x);
    KeptClean(tail);
    CleanTame(tail, |t|);
    hide NewlinePos, Rest, First, Tail, Clean, Kept, Loss, Firm, Tame;
    assert |t + x| == |t| + |x|;
    assert x == [] ==> t + x == t;
  }

  /** Writing clean data again adds at least what a line put back can lose,
      and something unless it is a bare line end. */
  lemma GainAgain(before: seq<byte>, data: seq<byte>)
    requires Clean(before + data) && NewlinePos(data) < |data|
    ensures Gain(data) >= Most(|Rest(data)|)
    ensures Gain(data) > 0 || BareLineEnd(data)
    ensures Tame(Rest(data) + data, |Rest(data)|)
  {
    hide NewlinePos, Rest, First, Tail, Clean, Kept, Loss, Firm, Tame, Gain, BareLineEnd;
    var t, x, tail := Rest(data), First(data), Tail(data);
    GainByLoss(before, data);
    CleanParts(before, data);
    JoinLoss(Rest(before), x, t);
    FirmLoss(t + x);
    if x == [] && tail == t && (t == [] || t == [RETURN]) {
      assert data == [NEWLINE] + t;
      BareIf(data, t);
    }
  }

  lemma BareIf(data: seq<byte>, t: seq<byte>)
    requires data == [NEWLINE] + t && (t == [] || t == [RETURN])
    ensures BareLineEnd(data)
  {
  }

  /** Two remainders end alike: both empty, or in the same byte. */
  predicate SameEnd(a: seq<byte>, b: seq<byte>) {
    (a == [] <==> b == []) && (a != [] && b != [] ==> a[|a| - 1] == b[|b| - 1])
  }

  lemma SameEndFirm(a: seq<byte>, b: seq<byte>, x: seq<byte>)
    requires SameEnd(a, b)
    ensures Firm(a + x) <==> Firm(b + x)
    ensures SameEnd(a + x, b + x)
  {
    if x != [] {
      assert (a + x)[|a + x| - 1] == x[|x| - 1] == (b + x)[|b + x| - 1];
    } else {
      assert a + x == a && b + x == b;
    }
  }

  /** The first time, clean data comes out whole. */
  lemma FirstTime(buf: seq<byte>, before: seq<byte>, data: seq<byte>)
    requires NewlinePos(buf) == |buf| && SameEnd(buf, Rest(before)) && Clean(before + data)
    ensures Kept(buf + data) == |buf| + |data| && Tame(buf + data, 0)
    ensures SameEnd(Rest(buf + data), Rest(before + data))
  {
    RestAfter(buf, data);
    RestOfAppended(before, data);
    if NewlinePos(data) < |data| {
      CleanParts(before, data);
      SameEndFirm(buf, Rest(before), First(data));
      KeptByFirst(buf + data);
      FirmLoss(buf + First(data));
      KeptClean(Tail(data));
      CleanTame(Tail(data), 0);
      hide NewlinePos, Rest, First, Tail, Clean, Kept, Loss, Firm, Tame;
    } else {
      KeptNoLine(buf + data);
      SameEndFirm(buf, Rest(before), data);
      NoLineTame(buf + data);
    }
  }

  lemma NoLineTame(s: seq<byte>)
    requires NewlinePos(s) == |s|
    ensures Tame(s, 0)
  {
    hide NewlinePos;
  }

  /** What an attempt adds to the weight, before it sends. */
  lemma AppendWeight(w: Writer, data: seq<byte>)
    ensures Weight(Writer(w.buf + data, w.sent, Ready)) == Weight(w) - |Rest(w.buf)| + Kept(Rest(w.buf) + data)
  {
    hide Kept, Rest, Length;
    KeptConcat(w.buf, data);
  }

  lemma PendingRest(buf: seq<byte>, sent: seq<seq<byte>>, slots: Slots)
    requires SendLines(buf, sent, slots).poll.Pending?
    ensures Rest(SendLines(buf, sent, slots).buf) == Rest(buf)
  {
    hide SendLines, Rest, Bodies, Wrapped;
    PendingKeepsLines(buf, sent, slots, []);
    assert SendLines(buf, sent, slots).buf + [] == SendLines(buf, sent, slots).buf && buf + [] == buf;
  }

  /** Where a writer stands before a call: nothing but a remainder in the buffer. */
  predicate AtRest(w: Writer, before: seq<byte>) {
    Valid(w.sent) && NewlinePos(w.buf) == |w.buf| && SameEnd(w.buf, Rest(before))
  }

  /** Pending attempts never lose what the first of them brought. */
  lemma {:induction false} AttemptsWeight(w: Writer, before: seq<byte>, data: seq<byte>, stops: seq<Slots>)
    requires AtRest(w, before) && Clean(before + data)
    requires stops != [] && AllPending(w, data, stops)
    ensures NewlinePos(data) < |data|
    ensures var v := Attempts(w, data, stops);
            && Valid(v.sent) && Weight(v) >= Weight(w) + |data|
            && Tame(v.buf, |Rest(data)|) && Rest(v.buf) == Rest(data)
    decreases |stops|
  {
    hide SendLines, Rest, Bodies, Wrapped, Tame, Kept, Length, Valid, NewlinePos, Clean, SameEnd,
         Weight, Gain, StoppedAt, Extra;
    var front, slots := stops[..|stops| - 1], stops[|stops| - 1];
    var v := Attempts(w, data, front);
    var all := v.buf + data;
    AppendWeight(v, data);
    if front == [] {
      FirstTime(w.buf, before, data);
      NoRest(w.buf);
      KeptNoLine(w.buf);
      SendWeight(all, w.sent, slots);
      TameStops(all, w.sent, slots, 0);
      PendingBrings(w.buf, data, w.sent, slots);
      TameMore(SendLines(all, w.sent, slots).buf, 0, |Rest(data)|);
    } else {
      AttemptsWeight(w, before, data, front);
      GainAgain(before, data);
      GainIs(data);
      TameConcat(v.buf, data, |Rest(data)|);
      SendWeight(all, v.sent, slots);
      TameStops(all, v.sent, slots, |Rest(data)|);
      PendingRest(all, v.sent, slots);
      RestOfAppended(v.buf, data);
    }
  }

  lemma GainIs(data: seq<byte>)
    ensures Gain(data) == Kept(Rest(data) + data) - |Rest(data)|
  {
  }

  /** A write that is pending at once brought a line end, and its remainder. */
  lemma PendingBrings(buf: seq<byte>, data: seq<byte>, sent: seq<seq<byte>>, slots: Slots)
    requires NewlinePos(buf) == |buf| && SendLines(buf + data, sent, slots).poll.Pending?
    ensures NewlinePos(data) < |data| && Rest(SendLines(buf + data, sent, slots).buf) == Rest(data)
  {
    hide SendLines, Rest, NewlinePos;
    RestAfter(buf, data);
    if NewlinePos(data) == |data| {
      SendNone(buf + data, sent, slots);
    }
    PendingRest(buf + data, sent, slots);
  }

  /** A write brings at least its bytes, and more if it was repeated and is not a bare line end. */
  lemma WriteWeight(w: Writer, before: seq<byte>, call: Call)
    requires AtRest(w, before) && call.Write? && Possible(w, call) && Clean(before + call.data)
    ensures var w' := Apply(w, call);
            && AtRest(w', before + call.data)
            && Weight(w') >= Weight(w) + |call.data|
            && (!Harmless(call) ==> Weight(w') > Weight(w) + |call.data|)
  {
    hide SendLines, Rest, Bodies, Wrapped, Tame, Kept, Length, Valid, NewlinePos, Clean, SameEnd,
         Weight, Gain, Attempts, AllPending, BareLineEnd;
    var data, v := call.data, Attempts(w, call.data, call.stops);
    AppendWeight(v, data);
    SameRest(before + data);
    if call.stops == [] {
      NoAttempts(w, data);
      FirstTime(w.buf, before, data);
      NoRest(w.buf);
      KeptNoLine(w.buf);
    } else {
      AttemptsWeight(w, before, data, call.stops);
      GainAgain(before, data);
      GainIs(data);
      RestOfAppended(v.buf, data);
      RestOfAppended(before, data);
    }
    SendWeight(v.buf + data, v.sent, call.last);
    ReadySplits(v.buf + data, v.sent, call.last);
  }

  lemma SameRest(s: seq<byte>)
    ensures SameEnd(Rest(s), Rest(s))
  {
  }

  ghost predicate AllHarmless(calls: seq<Call>) {
    forall c :: c in calls ==> Harmless(c)
  }

  /** A flush with an empty buffer does nothing. */
  lemma FlushNothing(w: Writer, slots: Slots)
    requires w.buf == []
    ensures Flush(w.buf, w.sent, slots) == Writer([], w.sent, Ready)
  {
  }

  lemma SameEndEmpty(a: seq<byte>, b: seq<byte>)
    requires SameEnd(a, b)
    ensures a == [] <==> b == []
  {
  }

  /** After any possible calls at least the bytes written will come out, and more after a harmful repetition. */
  lemma {:induction false} RunWeight(calls: seq<Call>)
    requires AllPossible(calls) && FlushedAtLineEnds(calls) && Clean(Written(calls))
    ensures var w := RunCalls(calls);
            && AtRest(w, Written(calls))
            && Weight(w) >= |Written(calls)|
            && (!AllHarmless(calls) ==> Weight(w) > |Written(calls)|)
  {
    hide Apply, Possible, Rest, Clean, Harmless, Weight, Valid, NewlinePos, SameEnd;
    if calls == [] {
      NothingYet();
    } else {
      var front, last := calls[..|calls| - 1], calls[|calls| - 1];
      assert calls == front + [last];
      CleanFront(Written(front), DataOf(last));
      RunWeight(front);
      assert AllHarmless(calls) <==> AllHarmless(front) && Harmless(last);
      var w := RunCalls(front);
      if last.Write? {
        WriteWeight(w, Written(front), last);
      } else {
        SameEndEmpty(w.buf, Rest(Written(front)));
        FlushWeight(w, last);
        assert Written(front) + [] == Written(front);
      }
    }
  }

  lemma FlushWeight(w: Writer, call: Call)
    requires call.FlushNow? && w.buf == []
    ensures Apply(w, call).buf == w.buf && Apply(w, call).sent == w.sent && Weight(Apply(w, call)) == Weight(w)
    ensures Apply(w, call) == Writer([], w.sent, Ready)
    ensures Harmless(call)
  {
    FlushNothing(w, call.slots);
  }

  lemma NothingYet()
    ensures AtRest(Writer([], [], Ready), []) && Weight(Writer([], [], Ready)) == 0
  {
  }

  lemma CleanFront(a: seq<byte>, b: seq<byte>)
    requires Clean(a + b)
    ensures Clean(a) && Clean(Rest(a) + b)
  {
    hide Clean, Rest, Bodies;
    BodiesConcat(a, b);
  }

  /** Without a harmful repetition the writer ends as with a sink that is always ready. */
  lemma {:induction false} RunHarmless(calls: seq<Call>)
    requires AllPossible(calls) && FlushedAtLineEnds(calls) && Clean(Written(calls)) && AllHarmless(calls)
    ensures RunCalls(calls) == Writer(Rest(Written(calls)), Wrapped(Bodies(Written(calls))), Ready)
  {
    hide Apply, Possible, Rest, Clean, Harmless, NewlinePos, Bodies, Wrapped;
    if calls == [] {
      NothingWritten();
    } else {
      var front, last := calls[..|calls| - 1], calls[|calls| - 1];
      assert calls == front + [last];
      CleanFront(Written(front), DataOf(last));
      RunHarmless(front);
      if last.Write? {
        HarmlessWrite(Written(front), last);
      } else {
        FlushWeight(RunCalls(front), last);
        assert Written(front) + [] == Written(front);
      }
    }
  }

  lemma HarmlessWrite(before: seq<byte>, call: Call)
    requires var w := Writer(Rest(before), Wrapped(Bodies(before)), Ready);
             call.Write? && Possible(w, call) && Harmless(call) && Clean(Rest(before) + call.data)
    ensures Apply(Writer(Rest(before), Wrapped(Bodies(before)), Ready), call)
            == Writer(Rest(before + call.data), Wrapped(Bodies(before + call.data)), Ready)
  {
    hide Apply, Possible, Rest, Clean, Harmless, NewlinePos, Bodies, Wrapped, Steady;
    var w := Writer(Rest(before), Wrapped(Bodies(before)), Ready);
    CleanIsSteady(Rest(before) + call.data);
    BareWrite(w, call);
    BodiesConcat(before, call.data);
    WrappedAppend(Bodies(before), Bodies(Rest(before) + call.data));
  }

  lemma {:induction false} ValidFits(bodies: seq<seq<byte>>)
    requires Valid(Wrapped(bodies))
    ensures Fit(bodies)
  {
    forall b | b in bodies
      ensures |b| <= MAX_FRAME_BYTES
    {
      var i :| 0 <= i < |bodies| && bodies[i] == b;
      assert Wrapped(bodies)[i] == Framed(b) && Framed(b) in Wrapped(bodies);
      hide Decode;
      assert Framed(b) != [] by { DecodedNotEmpty(Framed(b)); }
    }
  }

  lemma DecodedNotEmpty(f: seq<byte>)
    requires Decode(f).Ok?
    ensures f != []
  {
  }

  /**
   Writer and reader over a sink that is not always ready: for bytes of non-empty lines that end
   at a line end and have no return before one, the bytes read back are those meant to be
   written, if and only if every write that had to be repeated was of a bare line end.
   */
  lemma RetriedRoundTrip(calls: seq<Call>, incoming: seq<Message>, caps: seq<nat>)
    requires AllPossible(calls) && FlushedAtLineEnds(calls)
    requires Clean(Written(calls)) && Rest(Written(calls)) == []
    requires Carries(incoming, RunCalls(calls).sent)
    requires (forall c :: c in caps ==> c > 0) && |Payload(incoming)| <= |caps|
    ensures Delivered(Reader([], incoming), caps) == Written(calls) <==> AllHarmless(calls)
  {
    hide RunCalls, Written, AllPossible, FlushedAtLineEnds, Clean, Rest, Bodies, Wrapped, Carries, Payload, Delivered,
         Valid, NewlinePos, SameEnd, AllHarmless, Kept, Length, Unlines, Fit;
    var bytes, w := Written(calls), RunCalls(calls);
    RunWeight(calls);
    DeliversPayload(Reader([], incoming), caps);
    assert Remaining(Reader([], incoming)) == Payload(incoming);
    PayloadLength(incoming, w.sent);
    SameEndEmpty(w.buf, Rest(bytes));
    KeptNoLine(w.buf);
    if AllHarmless(calls) {
      RunHarmless(calls);
      ValidFits(Bodies(bytes));
      PayloadOfFrames(incoming, Bodies(bytes));
      LinesOf(bytes);
      assert Unlines(Bodies(bytes)) + [] == Unlines(Bodies(bytes));
    }
  }
}
