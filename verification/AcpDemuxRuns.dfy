/**
 Every run of the ACP client: one request at a time goes through its locked steps while the
 reader task routes frames and other tasks take the buffered notifications, in any interleaving.
 */
module AcpDemuxRuns {
  import opened Common
  import opened Ids
  import opened AcpDemux

  datatype Phase = Allocated | Registered | Installed | Cleared | Waiting | Withdrawn

  /**
   A request: the number its id is written from, whether it brings a subscriber, whether it was
   registered after the end of the agent's output, and how many frames had been routed when it
   was registered and when its subscriber was installed.
   */
  datatype Request = Request(id: nat, streaming: bool, late: bool, registered: nat, installed: nat)

  datatype Call = Call(req: Request, phase: Phase)

  datatype Outcome = Replied(reply: Reply) | WriteFailed

  /** A request that has returned, and how many frames had been routed when it unsubscribed. */
  datatype Past = Past(req: Request, ended: nat, outcome: Outcome)

  /** The reader between frames, between the two locks of a notification, or finished. */
  datatype Reader = Reading | Buffering(frame: Frame) | AtEof

  /** One call of `take_pending_notifications`: the stretch of routed frames it covers. */
  datatype Take = Take(from: nat, to: nat, frames: seq<Frame>)

  /** `wire` lists the frames routed so far; the buffer covers those from `covered` on. */
  datatype World = World(next: nat, shared: Shared, call: Option<Call>, past: seq<Past>,
                         reader: Reader, wire: seq<Frame>, covered: nat, takes: seq<Take>)

  datatype Action =
    | Start(id: nat, streaming: bool)
    | Advance(writeOk: bool)
    | ReadFrame(frame: Frame)
    | BufferFrame
    | ReadEof
    | TakeBuffered

  function Initial(next: nat): World {
    World(next, Shared(map[], None, [], map[], map[]), None, [], Reading, [], 0, [])
  }

  predicate IsNote(frame: Frame) {
    frame.id.None?
  }

  /** The frame is a response and its id is that of request `n`. */
  predicate Answers(frame: Frame, n: nat) {
    frame.id.Some? && frame.methodName.None? && frame.id.value.text == Decimal(n)
  }

  function Notes(frames: seq<Frame>): seq<Frame> {
    if frames == [] then []
    else
      var last := frames[|frames| - 1];
      Notes(frames[..|frames| - 1]) + (if IsNote(last) then [last] else [])
  }

  /** Where routed frames the buffer does not hold any more end. */
  function Uncovered(w: World): nat {
    if w.reader.Buffering? && |w.wire| > 0 then |w.wire| - 1 else |w.wire|
  }

  function AdvanceCall(w: World, c: Call, writeOk: bool): World {
    var s, req := w.shared, c.req;
    match c.phase
    case Allocated =>
      w.(shared := Register(s, req.id),
         call := Some(Call(req.(registered := |w.wire|, late := w.reader.AtEof?), Registered)))
    case Registered =>
      w.(shared := if req.streaming then s.(subscriber := Some(req.id)) else s,
         call := Some(Call(req.(installed := |w.wire|), Installed)))
    case Installed =>
      w.(shared := s.(buffer := []), covered := Uncovered(w), call := Some(c.(phase := Cleared)))
    case Cleared =>
      if writeOk then w.(call := Some(c.(phase := Waiting)))
      else w.(shared := Withdraw(s, req.id), call := Some(c.(phase := Withdrawn)))
    case Waiting =>
      if req.id !in s.replies then w
      else w.(shared := s.(subscriber := None), call := None,
              past := w.past + [Past(req, |w.wire|, Replied(s.replies[req.id]))])
    case Withdrawn =>
      w.(shared := s.(subscriber := None), call := None, past := w.past + [Past(req, |w.wire|, WriteFailed)])
  }

  /** One step; a step that is not possible changes nothing. */
  function Step(w: World, a: Action): World {
    match a
    case Start(id, streaming) =>
      if w.call.Some? || id < w.next then w
      else w.(next := id + 1, call := Some(Call(Request(id, streaming, false, 0, 0), Allocated)))
    case Advance(writeOk) =>
      if w.call.None? then w else AdvanceCall(w, w.call.value, writeOk)
    case ReadFrame(frame) =>
      if !w.reader.Reading? then w
      else if frame.id.None? then
        w.(shared := Forward(w.shared, frame), reader := Buffering(frame), wire := w.wire + [frame])
      else if frame.methodName.Some? then w.(wire := w.wire + [frame])
      else w.(shared := Deliver(w.shared, frame), wire := w.wire + [frame])
    case BufferFrame =>
      if !w.reader.Buffering? then w
      else w.(shared := w.shared.(buffer := w.shared.buffer + [w.reader.frame]), reader := Reading)
    case ReadEof =>
      if !w.reader.Reading? then w else w.(shared := Close(w.shared), reader := AtEof)
    case TakeBuffered =>
      w.(shared := w.shared.(buffer := []), covered := Uncovered(w),
         takes := w.takes + [Take(w.covered, Uncovered(w), w.shared.buffer)])
  }

  function Run(next: nat, actions: seq<Action>): World {
    if actions == [] then Initial(next)
    else Step(Run(next, actions[..|actions| - 1]), actions[|actions| - 1])
  }

  // ---- What holds at every point ----

  /** The first frame from position `from` on that answers request `n`. */
  function FirstAnswer(wire: seq<Frame>, from: nat, n: nat): (p: Option<nat>)
    ensures p.Some? ==> from <= p.value < |wire| && Answers(wire[p.value], n)
    ensures p.Some? ==> forall i :: from <= i < p.value ==> !Answers(wire[i], n)
    ensures p.None? ==> forall i :: from <= i < |wire| ==> !Answers(wire[i], n)
  {
    if |wire| <= from then None
    else
      var p := FirstAnswer(wire[..|wire| - 1], from, n);
      if p.Some? then p else if Answers(wire[|wire| - 1], n) then Some(|wire| - 1) else None
  }

  /** What a registered request has been sent: its first answer, or the error at the end of the output. */
  function Sent(w: World, req: Request): Option<Reply> {
    match FirstAnswer(w.wire, req.registered, req.id)
    case Some(p) => Some(Answer(w.wire[p]))
    case None => if w.reader.AtEof? && !req.late then Some(ConnectionClosed) else None
  }

  function ReplyTo(s: Shared, id: nat): Option<Reply> {
    if id in s.replies then Some(s.replies[id]) else None
  }

  predicate Subscribed(phase: Phase) {
    !phase.Allocated? && !phase.Registered?
  }

  predicate ListensFor(w: World, c: Call) {
    && c.req.registered <= |w.wire|
    && (c.req.late ==> w.reader.AtEof? && c.req.registered == |w.wire|)
    && (!c.phase.Withdrawn? ==>
          && ReplyTo(w.shared, c.req.id) == Sent(w, c.req)
          && w.shared.pending == (if Sent(w, c.req).None? then map[Decimal(c.req.id) := c.req.id] else map[]))
    && (c.phase.Withdrawn? ==> w.shared.pending == map[])
    && (forall p :: p in w.past ==> p.ended <= c.req.registered)
  }

  predicate CallOk(w: World, c: Call) {
    && c.req.id < w.next
    && (forall p :: p in w.past ==> p.req.id < c.req.id)
    && w.shared.subscriber == (if c.req.streaming && Subscribed(c.phase) then Some(c.req.id) else None)
    && (if c.phase.Allocated? then w.shared.pending == map[] && c.req.id !in w.shared.replies
        else ListensFor(w, c))
    && (Subscribed(c.phase) ==> c.req.registered <= c.req.installed <= |w.wire|)
    && HeardBy(w.shared, c.req.id) ==
         (if c.req.streaming && Subscribed(c.phase) then Notes(w.wire[c.req.installed..]) else [])
  }

  predicate PastOk(w: World, p: Past) {
    && p.req.id < w.next
    && p.req.registered <= p.req.installed <= p.ended <= |w.wire|
    && HeardBy(w.shared, p.req.id) == (if p.req.streaming then Notes(w.wire[p.req.installed..p.ended]) else [])
    && (p.outcome.Replied? ==> Sent(w, p.req) == Some(p.outcome.reply))
    && (p.outcome.Replied? && p.outcome.reply.Answer? ==>
          FirstAnswer(w.wire, p.req.registered, p.req.id).value < p.ended)
  }

  predicate Ordered(past: seq<Past>) {
    forall i, j :: 0 <= i < j < |past| ==> past[i].req.id < past[j].req.id && past[i].ended <= past[j].req.registered
  }

  predicate BufferOk(w: World) {
    && w.covered <= Uncovered(w)
    && (w.reader.Buffering? ==> |w.wire| > 0 && w.wire[|w.wire| - 1] == w.reader.frame && IsNote(w.reader.frame))
    && w.shared.buffer == Notes(w.wire[w.covered..Uncovered(w)])
  }

  predicate TakesOk(w: World) {
    && w.covered <= |w.wire|
    && (forall t :: t in w.takes ==> t.from <= t.to <= w.covered && t.frames == Notes(w.wire[t.from..t.to]))
    && (forall i, j :: 0 <= i < j < |w.takes| ==> w.takes[i].to <= w.takes[j].from)
  }

  predicate Fresh(w: World) {
    && (forall n :: n in w.shared.replies ==> n < w.next)
    && (forall n :: n in w.shared.heard ==> n < w.next)
  }

  /** What holds of the open request, or of nobody waiting. */
  predicate OpenOk(w: World) {
    match w.call
    case Some(c) => CallOk(w, c)
    case None => w.shared.pending == map[] && w.shared.subscriber == None
  }

  predicate PastsOk(w: World) {
    forall p :: p in w.past ==> PastOk(w, p)
  }

  predicate Inv(w: World) {
    && Fresh(w)
    && OpenOk(w)
    && PastsOk(w)
    && Ordered(w.past)
    && BufferOk(w)
    && TakesOk(w)
  }

  // ---- Every step keeps it ----

  lemma NotesAppend(frames: seq<Frame>, frame: Frame)
    ensures Notes(frames + [frame]) == Notes(frames) + (if IsNote(frame) then [frame] else [])
  {
    assert (frames + [frame])[..|frames|] == frames;
  }

  lemma FirstAnswerGrows(wire: seq<Frame>, frame: Frame, from: nat, n: nat)
    ensures FirstAnswer(wire + [frame], from, n) ==
            if FirstAnswer(wire, from, n).Some? then FirstAnswer(wire, from, n)
            else if from <= |wire| && Answers(frame, n) then Some(|wire|) else None
  {
    assert (wire + [frame])[..|wire|] == wire;
  }

  /** A request that has returned is not affected by another routed frame. */
  lemma PastGrows(w: World, w': World, p: Past, frame: Frame)
    requires PastOk(w, p) && w.reader.Reading? && !w'.reader.AtEof?
    requires w'.wire == w.wire + [frame] && w'.next == w.next
    requires HeardBy(w'.shared, p.req.id) == HeardBy(w.shared, p.req.id)
    ensures PastOk(w', p)
  {
    FirstAnswerGrows(w.wire, frame, p.req.registered, p.req.id);
    assert w'.wire[p.req.installed..p.ended] == w.wire[p.req.installed..p.ended];
    hide Notes, FirstAnswer, Answers, HeardBy;
  }

  lemma TakesGrow(w: World, w': World, frame: Frame)
    requires TakesOk(w) && BufferOk(w) && w.reader.Reading?
    requires w'.wire == w.wire + [frame] && w'.takes == w.takes && w'.covered == w.covered
    requires w'.shared.buffer == w.shared.buffer
    requires w'.reader == (if IsNote(frame) then Buffering(frame) else Reading)
    ensures TakesOk(w') && BufferOk(w')
  {
    TakesStay(w, w', frame);
    BufferGrows(w, w', frame);
  }

  lemma TakesStay(w: World, w': World, frame: Frame)
    requires TakesOk(w) && w'.wire == w.wire + [frame] && w'.takes == w.takes && w'.covered == w.covered
    ensures TakesOk(w')
  {
    hide Notes;
    forall t | t in w.takes
      ensures t.frames == Notes(w'.wire[t.from..t.to])
    {
      assert w'.wire[t.from..t.to] == w.wire[t.from..t.to];
    }
  }

  lemma BufferGrows(w: World, w': World, frame: Frame)
    requires BufferOk(w) && w.reader.Reading?
    requires w'.wire == w.wire + [frame] && w'.covered == w.covered && w'.shared.buffer == w.shared.buffer
    requires w'.reader == (if IsNote(frame) then Buffering(frame) else Reading)
    ensures BufferOk(w')
  {
    SliceAppend(w.wire, frame, w.covered);
    NotesAppend(w.wire[w.covered..|w.wire|], frame);
    hide Notes, IsNote;
    var notes := Notes(w.wire[w.covered..|w.wire|]);
    assert notes + [] == notes;
  }

  lemma SliceAppend(wire: seq<Frame>, frame: Frame, from: nat)
    requires from <= |wire|
    ensures (wire + [frame])[from..|wire|] == wire[from..|wire|]
    ensures (wire + [frame])[from..|wire + [frame]|] == wire[from..|wire|] + [frame]
  {
  }

  /** A frame routed while a request is open: what it changes for that request. */
  lemma ListensGrows(w: World, c: Call, frame: Frame)
    requires ListensFor(w, c) && Fresh(w) && w.reader.Reading? && !IsNote(frame)
    ensures ListensFor(Step(w, ReadFrame(frame)), c)
  {
    FirstAnswerGrows(w.wire, frame, c.req.registered, c.req.id);
    hide FirstAnswer, Decimal;
    var w' := Step(w, ReadFrame(frame));
    if frame.methodName.None? && !c.phase.Withdrawn? {
      assert Sent(w, c.req).None? ==> (Answers(frame, c.req.id) <==> frame.id.value.text in w.shared.pending);
      assert w'.shared == Deliver(w.shared, frame);
    }
  }

  lemma ListensNote(w: World, w': World, c: Call, frame: Frame)
    requires ListensFor(w, c) && w.reader.Reading? && IsNote(frame)
    requires w'.wire == w.wire + [frame] && w'.reader.Buffering? && w'.past == w.past
    requires w'.shared.pending == w.shared.pending && w'.shared.replies == w.shared.replies
    ensures ListensFor(w', c)
  {
    FirstAnswerGrows(w.wire, frame, c.req.registered, c.req.id);
    hide FirstAnswer, Decimal;
  }

  /** Routing a frame keeps what holds of the open request. */
  lemma CallGrows(w: World, c: Call, frame: Frame)
    requires CallOk(w, c) && Fresh(w) && w.reader.Reading? && w.call == Some(c)
    ensures CallOk(Step(w, ReadFrame(frame)), c)
  {
    var w' := Step(w, ReadFrame(frame));
    if !c.phase.Allocated? {
      if IsNote(frame) {
        ListensNote(w, w', c, frame);
      } else {
        ListensGrows(w, c, frame);
      }
    }
    if Subscribed(c.phase) {
      assert w'.wire[c.req.installed..] == w.wire[c.req.installed..] + [frame];
      NotesAppend(w.wire[c.req.installed..], frame);
    }
    hide Notes, FirstAnswer, Decimal, ListensFor;
  }

  lemma PastsGrow(w: World, frame: Frame)
    requires PastsOk(w) && OpenOk(w) && w.reader.Reading?
    ensures PastsOk(Step(w, ReadFrame(frame)))
  {
    hide Notes, FirstAnswer, Decimal, OpenOk, PastOk, HeardBy;
    var w' := Step(w, ReadFrame(frame));
    forall p | p in w.past
      ensures PastOk(w', p)
    {
      HeardElsewhere(w, frame, p);
      PastGrows(w, w', p, frame);
    }
  }

  lemma RoutedFresh(s: Shared, frame: Frame, next: nat)
    requires forall k :: k in s.pending ==> s.pending[k] < next
    requires s.subscriber.Some? ==> s.subscriber.value < next
    ensures frame.id.Some? && (forall n :: n in s.replies ==> n < next) ==>
              forall n :: n in Deliver(s, frame).replies ==> n < next
    ensures (forall n :: n in s.heard ==> n < next) ==> forall n :: n in Forward(s, frame).heard ==> n < next
  {
    hide HeardBy;
  }

  lemma FreshGrows(w: World, frame: Frame)
    requires Fresh(w) && OpenOk(w)
    ensures Fresh(Step(w, ReadFrame(frame)))
  {
    PendingOfOpen(w);
    assert forall k :: k in w.shared.pending ==> w.shared.pending[k] in w.shared.pending.Values;
    hide OpenOk, HeardBy, Deliver, Forward;
    RoutedFresh(w.shared, frame, w.next);
    DeliverForward(w.shared, frame);
  }

  lemma DeliverForward(s: Shared, frame: Frame)
    ensures frame.id.Some? ==> Deliver(s, frame).heard == s.heard
    ensures Forward(s, frame).replies == s.replies
  {
    hide HeardBy;
  }

  lemma OpenGrows(w: World, frame: Frame)
    requires OpenOk(w) && Fresh(w) && w.reader.Reading?
    ensures OpenOk(Step(w, ReadFrame(frame)))
  {
    hide Notes, FirstAnswer, Decimal, CallOk, Fresh, HeardBy;
    if w.call.Some? {
      CallGrows(w, w.call.value, frame);
    }
  }

  lemma ReadKeeps(w: World, frame: Frame)
    requires Inv(w)
    ensures Inv(Step(w, ReadFrame(frame)))
  {
    hide Notes, OpenOk, PastsOk, TakesOk, BufferOk, Fresh, HeardBy, Ordered;
    if w.reader.Reading? {
      OpenGrows(w, frame);
      PastsGrow(w, frame);
      FreshGrows(w, frame);
      TakesGrow(w, Step(w, ReadFrame(frame)), frame);
    }
  }

  /** A subscriber that is gone hears nothing more. */
  lemma HeardElsewhere(w: World, frame: Frame, p: Past)
    requires w.reader.Reading? && PastOk(w, p) && p in w.past && OpenOk(w)
    ensures HeardBy(Step(w, ReadFrame(frame)).shared, p.req.id) == HeardBy(w.shared, p.req.id)
  {
    hide Notes, FirstAnswer, Decimal, ListensFor;
  }

  /** A request that has returned depends on the routed frames and its channel only. */
  lemma PastStays(w: World, w': World, p: Past)
    requires PastOk(w, p) && w'.wire == w.wire && w'.next >= w.next
    requires w.reader.AtEof? ==> w'.reader.AtEof?
    requires HeardBy(w'.shared, p.req.id) == HeardBy(w.shared, p.req.id)
    ensures PastOk(w', p)
  {
    hide Notes, FirstAnswer, HeardBy;
  }

  lemma PastsStay(w: World, w': World)
    requires PastsOk(w) && w'.wire == w.wire && w'.next >= w.next && w'.past == w.past
    requires w.reader.AtEof? ==> w'.reader.AtEof?
    requires w'.shared.heard == w.shared.heard
    ensures PastsOk(w')
  {
    hide PastOk;
    forall p | p in w.past
      ensures PastOk(w', p)
    {
      PastStays(w, w', p);
    }
  }

  lemma PastIdsBelow(w: World)
    requires PastsOk(w)
    ensures forall p :: p in w.past ==> p.req.id < w.next && p.ended <= |w.wire|
  {
    hide Notes, FirstAnswer, HeardBy;
  }

  lemma CloseSingle(s: Shared, key: string, id: nat)
    requires s.pending == map[key := id]
    ensures Close(s) == s.(pending := map[], replies := s.replies[id := ConnectionClosed])
  {
    assert key in s.pending;
    assert s.pending.Values == {id};
  }

  /** At most the open request waits. */
  lemma PendingOfOpen(w: World)
    requires OpenOk(w)
    ensures w.shared.pending == map[] ||
            (w.call.Some? && w.shared.pending == map[Decimal(w.call.value.req.id) := w.call.value.req.id])
    ensures forall r :: r in w.shared.pending.Values ==> r < w.next
  {
    hide Notes, FirstAnswer, Decimal, HeardBy;
  }

  /** The end of the output wakes exactly the open request, if it waits. */
  lemma CloseOpen(w: World)
    requires OpenOk(w)
    ensures Close(w.shared) ==
            if w.shared.pending == map[] then w.shared
            else w.shared.(pending := map[], replies := w.shared.replies[w.call.value.req.id := ConnectionClosed])
    ensures w.shared.pending != map[] ==> w.call.Some?
  {
    PendingOfOpen(w);
    hide OpenOk, Decimal;
    if w.shared.pending == map[] {
      CloseNone(w.shared);
    } else {
      CloseSingle(w.shared, Decimal(w.call.value.req.id), w.call.value.req.id);
    }
  }

  lemma EofOpen(w: World)
    requires OpenOk(w) && w.reader.Reading?
    ensures OpenOk(Step(w, ReadEof))
  {
    CloseOpen(w);
    hide Notes, FirstAnswer, Decimal, Close, HeardBy;
    if w.call.Some? {
      var c := w.call.value;
      assert map[Decimal(c.req.id) := c.req.id] != map[] by {
        assert Decimal(c.req.id) in map[Decimal(c.req.id) := c.req.id];
      }
      EofHeard(w);
      assert c.phase.Allocated? ==> OpenOk(Step(w, ReadEof));
    }
  }

  lemma EofHeard(w: World)
    ensures forall id :: HeardBy(Step(w, ReadEof).shared, id) == HeardBy(w.shared, id)
  {
    hide Close;
    assert Close(w.shared).heard == w.shared.heard by {
      CloseKeepsHeard(w.shared);
    }
  }

  lemma CloseKeepsHeard(s: Shared)
    ensures Close(s).heard == s.heard && Close(s).buffer == s.buffer
  {
  }

  lemma EofKeeps(w: World)
    requires Inv(w)
    ensures Inv(Step(w, ReadEof))
  {
    if w.reader.Reading? {
      var w' := Step(w, ReadEof);
      CloseOpen(w);
      CloseKeepsHeard(w.shared);
      PendingOfOpen(w);
      hide Notes, OpenOk, PastsOk, Ordered, Close, Decimal;
      EofOpen(w);
      PastsStay(w, w');
      OpenIdBelow(w);
    }
  }

  lemma OpenIdBelow(w: World)
    requires OpenOk(w)
    ensures w.call.Some? ==> w.call.value.req.id < w.next
  {
    hide ListensFor, Notes, HeardBy;
  }

  /** An open request does not depend on the buffer. */
  lemma OpenStays(w: World, w': World)
    requires OpenOk(w) && w'.wire == w.wire && w'.next == w.next && w'.past == w.past && w'.call == w.call
    requires w'.reader.AtEof? == w.reader.AtEof?
    requires w'.shared.(buffer := []) == w.shared.(buffer := [])
    ensures OpenOk(w')
  {
    hide Notes, FirstAnswer, Decimal;
  }

  lemma BufferedGrow(w: World)
    requires BufferOk(w) && TakesOk(w) && w.reader.Buffering?
    ensures BufferOk(Step(w, BufferFrame)) && TakesOk(Step(w, BufferFrame))
  {
    var n := |w.wire| - 1;
    assert w.wire[w.covered..|w.wire|] == w.wire[w.covered..n] + [w.reader.frame];
    NotesAppend(w.wire[w.covered..n], w.reader.frame);
    hide Notes;
  }

  lemma BufferKeeps(w: World)
    requires Inv(w)
    ensures Inv(Step(w, BufferFrame))
  {
    if w.reader.Buffering? {
      hide OpenOk, PastsOk, Ordered, BufferOk, TakesOk;
      var w' := Step(w, BufferFrame);
      BufferedGrow(w);
      PastsStay(w, w');
      OpenStays(w, w');
    }
  }

  /** Emptying the buffer: what it covered is a stretch of its own. */
  lemma Emptied(w: World, w': World)
    requires BufferOk(w) && TakesOk(w)
    requires w'.wire == w.wire && w'.reader == w.reader && w'.shared.buffer == [] && w'.covered == Uncovered(w)
    requires w'.takes == w.takes || w'.takes == w.takes + [Take(w.covered, Uncovered(w), w.shared.buffer)]
    ensures BufferOk(w') && TakesOk(w')
  {
    assert w.wire[Uncovered(w)..Uncovered(w)] == [];
    assert Notes([]) == [];
    hide Notes;
  }

  lemma TakeKeeps(w: World)
    requires Inv(w)
    ensures Inv(Step(w, TakeBuffered))
  {
    hide OpenOk, PastsOk, Ordered, BufferOk, TakesOk;
    var w' := Step(w, TakeBuffered);
    Emptied(w, w');
    PastsStay(w, w');
    OpenStays(w, w');
  }

  lemma StartKeeps(w: World, id: nat, streaming: bool)
    requires Inv(w)
    ensures Inv(Step(w, Start(id, streaming)))
  {
    var w' := Step(w, Start(id, streaming));
    PastIdsBelow(w);
    hide Notes, FirstAnswer, Decimal, PastsOk, Ordered;
    PastsStay(w, w');
  }

  lemma RegisterOpen(w: World, c: Call, writeOk: bool)
    requires CallOk(w, c) && c.phase.Allocated?
    requires forall p :: p in w.past ==> p.ended <= |w.wire|
    ensures CallOk(AdvanceCall(w, c, writeOk), AdvanceCall(w, c, writeOk).call.value)
  {
    hide Notes, FirstAnswer, Decimal, HeardBy, Answers, Uncovered;
    AdvanceHeard(w, c, writeOk);
    FirstAnswerLate(w.wire, c.req.id);
    assert AdvanceCall(w, c, writeOk).shared.pending == map[Decimal(c.req.id) := c.req.id];
  }

  lemma InstallOpen(w: World, c: Call, writeOk: bool)
    requires CallOk(w, c) && c.phase.Registered?
    ensures CallOk(AdvanceCall(w, c, writeOk), AdvanceCall(w, c, writeOk).call.value)
  {
    hide Notes, FirstAnswer, Decimal, HeardBy, Answers, Uncovered;
    AdvanceHeard(w, c, writeOk);
    assert w.wire[|w.wire|..] == [];
    NoNotes();
  }

  lemma WriteOpen(w: World, c: Call, writeOk: bool)
    requires CallOk(w, c) && w.call == Some(c) && !c.phase.Allocated? && !c.phase.Registered?
    requires AdvanceCall(w, c, writeOk).call.Some?
    ensures CallOk(AdvanceCall(w, c, writeOk), AdvanceCall(w, c, writeOk).call.value)
  {
    hide Notes, FirstAnswer, Decimal, HeardBy, Answers, Uncovered;
    AdvanceHeard(w, c, writeOk);
    if c.phase.Cleared? && !writeOk {
      assert AdvanceCall(w, c, writeOk).shared.pending == map[];
    }
  }

  /** The open request after one of its steps, if it is still open. */
  lemma AdvanceOpen(w: World, c: Call, writeOk: bool)
    requires CallOk(w, c) && w.call == Some(c)
    requires forall p :: p in w.past ==> p.ended <= |w.wire|
    requires AdvanceCall(w, c, writeOk).call.Some?
    ensures CallOk(AdvanceCall(w, c, writeOk), AdvanceCall(w, c, writeOk).call.value)
  {
    hide CallOk, AdvanceCall;
    if c.phase.Allocated? {
      RegisterOpen(w, c, writeOk);
    } else if c.phase.Registered? {
      InstallOpen(w, c, writeOk);
    } else {
      WriteOpen(w, c, writeOk);
    }
  }

  lemma AdvanceHeard(w: World, c: Call, writeOk: bool)
    ensures HeardBy(AdvanceCall(w, c, writeOk).shared, c.req.id) == HeardBy(w.shared, c.req.id)
    ensures AdvanceCall(w, c, writeOk).shared.replies == w.shared.replies
  {
  }

  /** The open request when it returns. */
  lemma AdvanceLast(w: World, c: Call, writeOk: bool)
    requires CallOk(w, c) && w.call == Some(c)
    requires AdvanceCall(w, c, writeOk).call.None?
    ensures var w' := AdvanceCall(w, c, writeOk);
            exists p :: w'.past == w.past + [p] && PastOk(w', p) && p.req == c.req
    ensures AdvanceCall(w, c, writeOk).shared == w.shared.(subscriber := None) && w.shared.pending == map[]
    ensures forall p :: p in w.past ==> p.ended <= c.req.registered
  {
    assert w.wire[c.req.installed..|w.wire|] == w.wire[c.req.installed..];
    hide Notes, FirstAnswer, Decimal;
    var w' := AdvanceCall(w, c, writeOk);
    var p := w'.past[|w.past|];
    assert w'.past == w.past + [p] && PastOk(w', p);
  }

  lemma OneMorePast(w: World, w': World, p: Past)
    requires PastsOk(w) && Ordered(w.past) && PastOk(w', p) && w'.past == w.past + [p]
    requires w'.wire == w.wire && w'.next == w.next && w'.reader == w.reader && w'.shared.heard == w.shared.heard
    requires forall q :: q in w.past ==> q.req.id < p.req.id && q.ended <= p.req.registered
    ensures PastsOk(w') && Ordered(w'.past)
  {
    hide PastOk;
    forall q | q in w'.past
      ensures PastOk(w', q)
    {
      if q != p {
        assert q in w.past;
        PastStays(w, w', q);
      }
    }
  }

  lemma AdvanceBuffer(w: World, c: Call, writeOk: bool)
    requires BufferOk(w) && TakesOk(w)
    ensures BufferOk(AdvanceCall(w, c, writeOk)) && TakesOk(AdvanceCall(w, c, writeOk))
  {
    hide Notes, Decimal;
    if c.phase.Installed? {
      Emptied(w, AdvanceCall(w, c, writeOk));
    }
  }

  lemma AdvanceKeeps(w: World, writeOk: bool)
    requires Inv(w)
    ensures Inv(Step(w, Advance(writeOk)))
  {
    if w.call.Some? {
      var w', c := Step(w, Advance(writeOk)), w.call.value;
      PastIdsBelow(w);
      OpenIdBelow(w);
      AdvanceBuffer(w, c, writeOk);
      AdvanceFresh(w, c, writeOk);
      hide PastsOk, Ordered, BufferOk, TakesOk, Fresh, PastOk, AdvanceCall, ListensFor, HeardBy, Notes;
      if w'.call.Some? {
        AdvanceOpen(w, c, writeOk);
        AdvanceFrame(w, c, writeOk);
        PastsStay(w, w');
      } else {
        AdvanceLast(w, c, writeOk);
        AdvanceFrame(w, c, writeOk);
        var p :| w'.past == w.past + [p] && PastOk(w', p) && p.req == c.req;
        OneMorePast(w, w', p);
      }
    }
  }

  lemma AdvanceFresh(w: World, c: Call, writeOk: bool)
    requires Fresh(w)
    ensures Fresh(AdvanceCall(w, c, writeOk))
  {
  }

  lemma AdvanceFrame(w: World, c: Call, writeOk: bool)
    ensures var w' := AdvanceCall(w, c, writeOk);
            && w'.wire == w.wire && w'.next == w.next && w'.reader == w.reader
            && w'.shared.heard == w.shared.heard
            && (w'.call.Some? ==> w'.past == w.past)
  {
  }

  lemma NoNotes()
    ensures Notes([]) == []
  {
  }

  lemma FirstAnswerLate(wire: seq<Frame>, n: nat)
    ensures FirstAnswer(wire, |wire|, n) == None
  {
  }

  lemma StepKeeps(w: World, a: Action)
    requires Inv(w)
    ensures Inv(Step(w, a))
  {
    hide Inv, Step;
    match a
    case Start(id, streaming) => StartKeeps(w, id, streaming);
    case Advance(writeOk) => AdvanceKeeps(w, writeOk);
    case ReadFrame(frame) => ReadKeeps(w, frame);
    case BufferFrame => BufferKeeps(w);
    case ReadEof => EofKeeps(w);
    case TakeBuffered => TakeKeeps(w);
  }

  lemma {:induction false} RunKeeps(next: nat, actions: seq<Action>)
    ensures Inv(Run(next, actions))
  {
    if actions != [] {
      hide Inv, Step;
      RunKeeps(next, actions[..|actions| - 1]);
      StepKeeps(Run(next, actions[..|actions| - 1]), actions[|actions| - 1]);
    }
  }

  // ---- What it means for the requests ----

  /** The frame a request returned with is the first one after its registration with its own id. */
  predicate OwnAnswer(w: World, p: Past, q: nat) {
    && p.req.registered <= q < p.ended <= |w.wire|
    && p.outcome == Replied(Answer(w.wire[q]))
    && Answers(w.wire[q], p.req.id)
    && (forall i :: p.req.registered <= i < q ==> !Answers(w.wire[i], p.req.id))
  }

  /** Every request that got a response got the first one with its id, and that id is no other request's. */
  lemma AnsweredByOwnFrame(next: nat, actions: seq<Action>, p: Past) returns (q: nat)
    requires p in Run(next, actions).past
    requires p.outcome.Replied? && p.outcome.reply.Answer?
    ensures OwnAnswer(Run(next, actions), p, q)
    ensures forall n :: Answers(Run(next, actions).wire[q], n) ==> n == p.req.id
  {
    RunKeeps(next, actions);
    hide Run, Step, Notes, HeardBy, OpenOk, Fresh, BufferOk, TakesOk, Decimal;
    var w := Run(next, actions);
    assert PastOk(w, p);
    q := FirstAnswer(w.wire, p.req.registered, p.req.id).value;
    forall n | Answers(w.wire[q], n)
      ensures n == p.req.id
    {
      DecimalInjective(n, p.req.id);
    }
  }

  /**
   A subscriber hears every notification from its installation to its removal, in order and
   nothing else; so it hears all of them up to the response, and exactly those if and only if
   none was routed between the response and the removal.
   */
  lemma SubscriberHearsItsStretch(next: nat, actions: seq<Action>, p: Past, q: nat)
    requires p in Run(next, actions).past && p.req.streaming
    requires OwnAnswer(Run(next, actions), p, q) && p.req.installed <= q
    ensures var w := Run(next, actions);
            && p.req.installed <= p.ended <= |w.wire|
            && HeardBy(w.shared, p.req.id) == Notes(w.wire[p.req.installed..p.ended])
            && HeardBy(w.shared, p.req.id) == Notes(w.wire[p.req.installed..q]) + Notes(w.wire[q..p.ended])
            && (HeardBy(w.shared, p.req.id) == Notes(w.wire[p.req.installed..q])
                <==> forall i :: q <= i < p.ended ==> !IsNote(w.wire[i]))
  {
    RunKeeps(next, actions);
    hide Run, Step, Notes, FirstAnswer, HeardBy, OpenOk, Fresh, BufferOk, TakesOk, Decimal;
    var w := Run(next, actions);
    assert PastOk(w, p);
    NotesSplit(w.wire, p.req.installed, q, p.ended);
  }

  lemma NotesSplit(wire: seq<Frame>, from: nat, q: nat, to: nat)
    requires from <= q <= to <= |wire|
    ensures Notes(wire[from..to]) == Notes(wire[from..q]) + Notes(wire[q..to])
    ensures Notes(wire[from..to]) == Notes(wire[from..q]) <==> forall i :: q <= i < to ==> !IsNote(wire[i])
  {
    hide Notes, IsNote;
    var late := wire[q..to];
    assert wire[from..q] + late == wire[from..to];
    NotesConcat(wire[from..q], late);
    NotesNone(late);
    assert |Notes(wire[from..q]) + Notes(late)| == |Notes(wire[from..q])| + |Notes(late)|;
    assert Notes(late) == [] ==> Notes(wire[from..q]) + Notes(late) == Notes(wire[from..q]);
    assert forall i :: q <= i < to ==> late[i - q] == wire[i];
    assert forall i :: 0 <= i < |late| ==> late[i] == wire[q + i];
  }

  lemma {:induction false} NotesConcat(a: seq<Frame>, b: seq<Frame>)
    ensures Notes(a + b) == Notes(a) + Notes(b)
  {
    if b == [] {
      assert a + b == a;
    } else {
      assert (a + b)[..|a + b| - 1] == a + b[..|b| - 1];
      NotesConcat(a, b[..|b| - 1]);
    }
  }

  lemma {:induction false} NotesNone(frames: seq<Frame>)
    ensures Notes(frames) == [] <==> forall i :: 0 <= i < |frames| ==> !IsNote(frames[i])
  {
    if frames != [] {
      var front, last := frames[..|frames| - 1], frames[|frames| - 1];
      NotesNone(front);
      hide IsNote;
      if Notes(frames) == [] {
        assert Notes(front) == [] && !IsNote(last);
        assert forall i :: 0 <= i < |frames| ==> frames[i] == if i < |front| then front[i] else last;
      } else if Notes(front) == [] {
        assert IsNote(frames[|frames| - 1]);
      } else {
        var i :| 0 <= i < |front| && IsNote(front[i]);
        assert IsNote(frames[i]);
      }
    }
  }

  /** Requests that did not bring a subscriber hear nothing; the stretches of two requests never overlap. */
  lemma StretchesDisjoint(next: nat, actions: seq<Action>, i: nat, j: nat)
    requires i < j < |Run(next, actions).past|
    ensures var past := Run(next, actions).past;
            && past[i].req.installed <= past[i].ended <= past[j].req.installed
            && past[i].req.id < past[j].req.id
            && Decimal(past[i].req.id) != Decimal(past[j].req.id)
  {
    RunKeeps(next, actions);
    hide Run, Step, Notes, FirstAnswer, HeardBy, OpenOk, Fresh, BufferOk, TakesOk, Decimal;
    var w := Run(next, actions);
    assert PastOk(w, w.past[i]) && PastOk(w, w.past[j]);
    if Decimal(w.past[i].req.id) == Decimal(w.past[j].req.id) {
      DecimalInjective(w.past[i].req.id, w.past[j].req.id);
    }
  }

  /**
   A registered request is either answered or still in the table under its own id, so its
   one-shot is never dropped unanswered; after the end of the output it is answered exactly
   if it was registered before the end.
   */
  lemma EveryRequestWoken(next: nat, actions: seq<Action>, c: Call)
    requires Run(next, actions).call == Some(c) && !c.phase.Allocated? && !c.phase.Withdrawn?
    ensures var w := Run(next, actions);
            && (c.req.id in w.shared.replies <==> Decimal(c.req.id) !in w.shared.pending)
            && (Decimal(c.req.id) in w.shared.pending ==> w.shared.pending[Decimal(c.req.id)] == c.req.id)
            && (w.reader.AtEof? ==> (c.req.id in w.shared.replies <==> !c.req.late))
  {
    RunKeeps(next, actions);
    hide Run, Step, Notes, HeardBy, Fresh, BufferOk, TakesOk, Decimal;
    var w := Run(next, actions);
    assert ReplyTo(w.shared, c.req.id) == Sent(w, c.req);
  }

  /** A request that got the error got it because the output had ended, and no frame after its
      registration answers it. */
  lemma ErrorMeansEnd(next: nat, actions: seq<Action>, p: Past)
    requires p in Run(next, actions).past && p.outcome == Replied(ConnectionClosed)
    ensures var w := Run(next, actions);
            && w.reader.AtEof? && !p.req.late
            && forall i :: p.req.registered <= i < |w.wire| ==> !Answers(w.wire[i], p.req.id)
  {
    RunKeeps(next, actions);
    hide Run, Step, Notes, HeardBy, OpenOk, Fresh, BufferOk, TakesOk, Decimal;
    assert PastOk(Run(next, actions), p);
  }

  /** No notification is taken twice: takes cover consecutive stretches of the routed frames. */
  lemma TakesDisjoint(next: nat, actions: seq<Action>, i: nat, j: nat)
    requires i < j < |Run(next, actions).takes|
    ensures var w := Run(next, actions);
            && w.takes[i].from <= w.takes[i].to <= w.takes[j].from <= w.takes[j].to <= |w.wire|
            && w.takes[i].frames == Notes(w.wire[w.takes[i].from..w.takes[i].to])
            && w.takes[j].frames == Notes(w.wire[w.takes[j].from..w.takes[j].to])
  {
    RunKeeps(next, actions);
    hide Run, Step, Notes, FirstAnswer, HeardBy, OpenOk, PastsOk, Ordered, Fresh, Decimal;
    var w := Run(next, actions);
    assert w.takes[i] in w.takes && w.takes[j] in w.takes;
  }

  // ---- Runs that show the two exceptions ----

  /** A chain of steps is a run. */
  lemma {:induction false} StepsRun(next: nat, actions: seq<Action>, worlds: seq<World>)
    requires |worlds| == |actions| + 1 && worlds[0] == Initial(next)
    requires forall i :: 0 <= i < |actions| ==> worlds[i + 1] == Step(worlds[i], actions[i])
    ensures Run(next, actions) == worlds[|actions|]
  {
    if actions != [] {
      hide Step;
      StepsRun(next, actions[..|actions| - 1], worlds[..|actions|]);
    }
  }

  /** A request with a subscriber that waits on its response. */
  function WaitingWorld(id: nat): World {
    World(id + 1, Shared(map[Decimal(id) := id], Some(id), [], map[], map[]),
          Some(Call(Request(id, true, false, 0, 0), Waiting)), [], Reading, [], 0, [])
  }

  const TO_WAITING := [Advance(true), Advance(true), Advance(true), Advance(true)]

  lemma ComesToWait(id: nat)
    ensures Run(id, [Start(id, true)] + TO_WAITING) == WaitingWorld(id)
  {
    hide Run, Decimal;
    var w0 := Initial(id);
    var w1 := Step(w0, Start(id, true));
    var w2 := Step(w1, Advance(true));
    var w3 := Step(w2, Advance(true));
    var w4 := Step(w3, Advance(true));
    var w5 := Step(w4, Advance(true));
    assert map[][Decimal(id) := id] == map[Decimal(id) := id];
    assert w5 == WaitingWorld(id);
    StepsRun(id, [Start(id, true)] + TO_WAITING, [w0, w1, w2, w3, w4, w5]);
  }

  /** A notification routed between the response and the removal of the subscriber is heard. */
  lemma LateNotificationHeard(id: nat, response: Frame, note: Frame)
    requires Answers(response, id) && IsNote(note)
    ensures var w := Run(id, [Start(id, true)] + TO_WAITING + [ReadFrame(response), ReadFrame(note), Advance(true)]);
            && w.wire == [response, note]
            && w.past == [Past(Request(id, true, false, 0, 0), 2, Replied(Answer(response)))]
            && HeardBy(w.shared, id) == [note]
  {
    hide Run, Decimal;
    ComesToWait(id);
    var before := [Start(id, true)] + TO_WAITING;
    var w1 := Step(WaitingWorld(id), ReadFrame(response));
    var w2 := Step(w1, ReadFrame(note));
    RunNext(id, before, ReadFrame(response));
    RunNext(id, before + [ReadFrame(response)], ReadFrame(note));
    RunNext(id, before + [ReadFrame(response)] + [ReadFrame(note)], Advance(true));
    assert before + [ReadFrame(response), ReadFrame(note), Advance(true)]
           == before + [ReadFrame(response)] + [ReadFrame(note)] + [Advance(true)];
    assert w1.wire == [response] && id in w1.shared.replies && HeardBy(w1.shared, id) == [];
    assert w2.wire == [response, note] && HeardBy(w2.shared, id) == [] + [note];
  }

  lemma RunNext(next: nat, actions: seq<Action>, a: Action)
    ensures Run(next, actions + [a]) == Step(Run(next, actions), a)
  {
    hide Step;
    assert (actions + [a])[..|actions|] == actions;
  }

  /** A request registered after the end of the output waits, and nothing is left to wake it. */
  lemma LateRequestWaits(id: nat, streaming: bool)
    ensures var w := Run(id, [ReadEof, Start(id, streaming), Advance(true)]);
            && w.reader.AtEof? && w.shared.pending == map[Decimal(id) := id] && id !in w.shared.replies
            && w.call == Some(Call(Request(id, streaming, true, 0, 0), Registered))
  {
    hide Run, Decimal;
    var w0 := Initial(id);
    var w1 := Step(w0, ReadEof);
    var w2 := Step(w1, Start(id, streaming));
    var w3 := Step(w2, Advance(true));
    assert Close(w0.shared).pending == map[] && id !in Close(w0.shared).replies;
    assert map[][Decimal(id) := id] == map[Decimal(id) := id];
    StepsRun(id, [ReadEof, Start(id, streaming), Advance(true)], [w0, w1, w2, w3]);
  }
}
