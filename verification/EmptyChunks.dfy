/**
 Live and batch on text chunks, empty ones included. An empty chunk of the other kind makes
 the batch translator close its run and means nothing to the live emitter, so the two differ
 exactly on streams where such a chunk stands inside a run.
 */
module EmptyChunks {
  import opened Common
  import opened Ids
  import opened AcpProtocol
  import opened ToolCalls
  import opened ItemViews
  import opened LiveBatch
  import E = Emitter
  import T = Translator

  /** Both machines read the same text, or batch reads nothing and live no text. */
  predicate ReadAlike(content: Option<ContentBlock>) {
    match T.Classify(content)
    case Nothing => E.PluckText(content) == ""
    case Text(text) => E.PluckText(content) == text
    case Standalone(_) => false
  }

  ghost predicate AllReadAlike(frames: seq<Frame>) {
    forall f :: f in frames && f.isSessionUpdate && f.update.Some? && f.update.value.TextChunk?
      ==> ReadAlike(f.update.value.content)
  }

  // ---- What a frame does to a run of text ----

  datatype Effect = NoEffect | Closes | Says(kind: TextKind, text: string)

  function EffectOf(f: Frame): Effect {
    if !f.isSessionUpdate || f.update.None? then NoEffect
    else
      match f.update.value
      case TextChunk(kind, content) =>
        if T.Classify(content).Text? then Says(kind, T.Classify(content).text) else NoEffect
      case UserChunk(_) => Closes
      case ToolCall(_) => Closes
      case ToolCallUpdate(_) => Closes
      case Plan(_) => Closes
      case _ => NoEffect
  }

  /** The frame carries text of this kind. */
  predicate Speaks(f: Frame, kind: TextKind) {
    EffectOf(f).Says? && EffectOf(f).kind == kind && EffectOf(f).text != ""
  }

  /** The frame is an empty chunk of the other kind. */
  predicate Interrupts(f: Frame, kind: TextKind) {
    EffectOf(f).Says? && EffectOf(f).kind != kind && EffectOf(f).text == ""
  }

  /** The frame neither ends a run nor adds text. */
  predicate Quiet(f: Frame) {
    !EffectOf(f).Closes? && !(EffectOf(f).Says? && EffectOf(f).text != "")
  }

  /** The run at the end of some frames, and whether an empty chunk of the other kind came after its last text. */
  datatype Mark = NoRun | Open(kind: TextKind, cut: bool)

  function NextMark(m: Mark, effect: Effect): Mark {
    match effect
    case NoEffect => m
    case Closes => NoRun
    case Says(kind, text) =>
      if text != "" then Open(kind, false)
      else if m.Open? && m.kind != kind then Open(m.kind, true)
      else m
  }

  function MarkOf(frames: seq<Frame>): Mark {
    if frames == [] then NoRun else NextMark(MarkOf(frames[..|frames| - 1]), EffectOf(frames[|frames| - 1]))
  }

  /** How often text goes on after an empty chunk of the other kind. */
  function Splits(frames: seq<Frame>): nat {
    if frames == [] then 0
    else
      var m, effect := MarkOf(frames[..|frames| - 1]), EffectOf(frames[|frames| - 1]);
      Splits(frames[..|frames| - 1])
      + if effect.Says? && effect.text != "" && m == Open(effect.kind, true) then 1 else 0
  }

  // ---- The same, read off the positions of the frames ----

  ghost predicate QuietBetween(frames: seq<Frame>, i: nat, l: nat) {
    forall m :: i < m < l && m < |frames| ==> Quiet(frames[m])
  }

  /** The last text before the end is at `i` and of this kind, and the run is still open. */
  ghost predicate RunFrom(frames: seq<Frame>, i: nat, kind: TextKind) {
    i < |frames| && Speaks(frames[i], kind) && QuietBetween(frames, i, |frames|)
  }

  /** An empty chunk of the other kind at `j` inside a run with text at `i` and again at `l`. */
  ghost predicate SplitAt(frames: seq<Frame>, i: nat, j: nat, l: nat) {
    && i < j < l < |frames|
    && EffectOf(frames[i]).Says?
    && Speaks(frames[i], EffectOf(frames[i]).kind)
    && Interrupts(frames[j], EffectOf(frames[i]).kind)
    && Speaks(frames[l], EffectOf(frames[i]).kind)
    && QuietBetween(frames, i, l)
  }

  ghost predicate InterruptedFrom(frames: seq<Frame>, i: nat, kind: TextKind) {
    exists j :: i < j < |frames| && Interrupts(frames[j], kind)
  }

  /** The mark says where the open run's last text is and whether it was interrupted since. */
  lemma {:induction false} MarkFrom(frames: seq<Frame>) returns (i: nat)
    ensures MarkOf(frames).Open? ==> RunFrom(frames, i, MarkOf(frames).kind)
    ensures MarkOf(frames).Open? ==> (MarkOf(frames).cut <==> InterruptedFrom(frames, i, MarkOf(frames).kind))
    ensures MarkOf(frames).NoRun? ==> forall n: nat, kind :: !RunFrom(frames, n, kind)
  {
    if frames == [] {
      i := 0;
    } else {
      var front, last := frames[..|frames| - 1], frames[|frames| - 1];
      i := MarkFrom(front);
      hide EffectOf;
      assert forall m :: 0 <= m < |front| ==> front[m] == frames[m];
      var effect := EffectOf(last);
      if effect.Says? && effect.text != "" {
        i := |front|;
        assert !InterruptedFrom(frames, i, effect.kind);
      } else if effect.Closes? {
        assert forall n: nat, kind :: RunFrom(frames, n, kind) ==> n < |front|;
      } else if MarkOf(front).Open? {
        var kind := MarkOf(front).kind;
        InterruptedMore(front, last, i, kind);
        assert front + [last] == frames;
        assert RunFrom(frames, i, kind);
      } else {
        forall n: nat, kind
          ensures !RunFrom(frames, n, kind)
        {
          assert !RunFrom(front, n, kind);
        }
      }
    }
  }

  lemma InterruptedMore(front: seq<Frame>, last: Frame, i: nat, kind: TextKind)
    requires i < |front|
    ensures InterruptedFrom(front + [last], i, kind) <==> InterruptedFrom(front, i, kind) || Interrupts(last, kind)
  {
    hide Interrupts;
    var frames := front + [last];
    assert forall m :: 0 <= m < |front| ==> front[m] == frames[m];
    if InterruptedFrom(front, i, kind) {
      var j :| i < j < |front| && Interrupts(front[j], kind);
      assert Interrupts(frames[j], kind);
    }
    if Interrupts(last, kind) {
      assert Interrupts(frames[|front|], kind);
    }
  }

  /** A run has only one last text. */
  lemma RunFromUnique(frames: seq<Frame>, i: nat, n: nat, kind: TextKind, other: TextKind)
    requires RunFrom(frames, i, kind) && RunFrom(frames, n, other)
    ensures i == n && kind == other
  {
    hide EffectOf;
    if i != n {
      assert false;
    }
  }

  /** The last frame goes on with a run that was interrupted. */
  ghost predicate SplitAtEnd(frames: seq<Frame>, i: nat, j: nat) {
    |frames| > 0 && SplitAt(frames, i, j, |frames| - 1)
  }

  lemma SplitFound(front: seq<Frame>, last: Frame, i: nat, j: nat, kind: TextKind)
    requires RunFrom(front, i, kind) && i < j < |front| && Interrupts(front[j], kind) && Speaks(last, kind)
    ensures SplitAtEnd(front + [last], i, j)
  {
    hide EffectOf;
    var frames := front + [last];
    assert forall m :: 0 <= m < |front| ==> front[m] == frames[m];
    assert EffectOf(frames[i]).kind == kind;
  }

  lemma SplitSeen(front: seq<Frame>, last: Frame, i: nat, j: nat) returns (kind: TextKind)
    requires SplitAtEnd(front + [last], i, j)
    ensures RunFrom(front, i, kind) && i < j < |front| && Interrupts(front[j], kind) && Speaks(last, kind)
  {
    hide EffectOf, Interrupts;
    var frames := front + [last];
    assert forall m :: 0 <= m < |front| ==> front[m] == frames[m];
    kind := EffectOf(frames[i]).kind;
  }

  /** The last frame adds a split exactly if it goes on with an interrupted run. */
  lemma LastSplits(front: seq<Frame>, last: Frame)
    ensures Splits(front + [last]) == Splits(front) +
            if exists i: nat, j: nat :: SplitAtEnd(front + [last], i, j) then 1 else 0
  {
    SplitsStep(front, last);
    var at := MarkFrom(front);
    hide EffectOf, Splits, MarkOf, RunFrom, SplitAtEnd, Interrupts;
    var effect, m := EffectOf(last), MarkOf(front);
    if effect.Says? && effect.text != "" && m == Open(effect.kind, true) {
      var j :| at < j < |front| && Interrupts(front[j], effect.kind);
      SplitFound(front, last, at, j, effect.kind);
    }
    if exists i: nat, j: nat :: SplitAtEnd(front + [last], i, j) {
      var i: nat, j: nat :| SplitAtEnd(front + [last], i, j);
      var kind := SplitSeen(front, last, i, j);
      RunFromUnique(front, at, i, m.kind, kind);
    }
  }

  lemma SplitsStep(front: seq<Frame>, last: Frame)
    ensures Splits(front + [last]) == Splits(front)
              + if EffectOf(last).Says? && EffectOf(last).text != ""
                     && MarkOf(front) == Open(EffectOf(last).kind, true) then 1 else 0
  {
    assert (front + [last])[..|front|] == front;
  }

  lemma SplitStays(front: seq<Frame>, last: Frame, i: nat, j: nat, l: nat)
    ensures SplitAt(front, i, j, l) <==> SplitAt(front + [last], i, j, l) && l < |front|
  {
    hide EffectOf, Speaks, Interrupts, Quiet;
    var frames := front + [last];
    assert forall m :: 0 <= m < |front| ==> front[m] == frames[m];
  }

  /** There is a split exactly if somewhere an empty chunk of the other kind stands inside a run. */
  lemma {:induction false} SplitsIff(frames: seq<Frame>)
    ensures Splits(frames) > 0 <==> exists i: nat, j: nat, l: nat :: SplitAt(frames, i, j, l)
  {
    if frames != [] {
      var front, last := frames[..|frames| - 1], frames[|frames| - 1];
      assert front + [last] == frames;
      SplitsIff(front);
      LastSplits(front, last);
      hide Splits, SplitAt;
      forall i: nat, j: nat, l: nat
        ensures SplitAt(frames, i, j, l) <==> SplitAt(front, i, j, l) || (l == |front| && SplitAtEnd(frames, i, j))
      {
        SplitStays(front, last, i, j, l);
        if l > |front| {
          OutOfRange(frames, i, j, l);
        }
      }
      if exists i: nat, j: nat :: SplitAtEnd(frames, i, j) {
        var i: nat, j: nat :| SplitAtEnd(frames, i, j);
        assert SplitAt(frames, i, j, |front|);
      }
    }
  }

  lemma OutOfRange(frames: seq<Frame>, i: nat, j: nat, l: nat)
    requires l >= |frames|
    ensures !SplitAt(frames, i, j, l)
  {
  }

  // ---- Streams without a split ----

  /** The batch state without the empty run that an empty chunk leaves open. */
  function Settled(t: T.State): T.State {
    if t.buf == "" then t.(kind := None) else t
  }

  /** Live and batch hold the same; in an interrupted run batch has already closed what live still has open. */
  ghost predicate Near(e: E.State, t: T.State, m: Mark) {
    match m
    case NoRun => e.run.None? && Same(e, Settled(t))
    case Open(kind, cut) =>
      && e.run.Some? && e.run.value.kind == kind
      && Same(if cut then E.FlushText(e, 0) else e, Settled(t))
  }

  lemma FlushSettled(t: T.State)
    requires t.kind.None? ==> t.buf == ""
    ensures T.FlushText(Settled(t)) == T.FlushText(t)
  {
  }

  lemma SettledRun(t: T.State)
    ensures Settled(t).kind.None? || Settled(t).buf != ""
    ensures t.buf == "" ==> Settled(t) == t.(kind := None)
    ensures t.buf != "" ==> Settled(t) == t
  {
  }

  /** The clock shows in the notifications only. */
  lemma SameAnyClock(e: E.State, t: T.State, now: int, later: int)
    requires Same(E.FlushText(e, now), t)
    ensures Same(E.FlushText(e, later), t)
  {
    hide View, Count, ShapedIds, SameCalls;
  }

  lemma SameWhen(e: E.State, t: T.State)
    requires Same(e, t)
    ensures e.run.Some? <==> t.kind.Some?
    ensures t.kind.Some? ==> t.buf != "" && e.run.value.kind == t.kind.value
    ensures t.kind.None? ==> t.buf == ""
  {
    hide View, Count, ShapedIds, SameCalls;
  }

  /** A frame that ends the run. */
  lemma ClosesNear(e: E.State, t: T.State, m: Mark, f: Frame)
    requires Near(e, t, m) && EffectOf(f).Closes? && (t.kind.None? ==> t.buf == "")
    ensures Near(E.Ingest(e, f), T.Ingest(t, f), NoRun)
  {
    hide Same, E.HandleToolCall, E.HandleToolCallUpdate, T.HandleToolCall, T.HandleToolCallUpdate, T.Classify;
    ClosesSettled(t, f);
    ClosesFlushed(e, f);
    if m.Open? && m.cut {
      SameAnyClock(e, Settled(t), 0, f.now);
      IngestSame(E.FlushText(e, f.now), Settled(t), f);
    } else {
      IngestSame(e, Settled(t), f);
    }
    SameWhen(E.Ingest(e, f), T.Ingest(t, f));
  }

  /** After a frame that ends the run batch has none, whether or not it had an empty one. */
  lemma ClosesSettled(t: T.State, f: Frame)
    requires EffectOf(f).Closes? && (t.kind.None? ==> t.buf == "")
    ensures T.Ingest(Settled(t), f) == T.Ingest(t, f)
    ensures T.Ingest(t, f).kind.None? && T.Ingest(t, f).buf == "" && Settled(T.Ingest(t, f)) == T.Ingest(t, f)
  {
    hide Settled, T.FlushText, T.HandleToolCall, T.HandleToolCallUpdate, T.Classify, T.UserText;
    FlushSettled(t);
    FlushedRun(t);
    SettledRun(T.Ingest(t, f));
    if f.update.value.ToolCall? || f.update.value.ToolCallUpdate? {
      CallsKeepRun(T.FlushText(t), f.update.value.fields, f.now);
    }
  }

  lemma FlushedRun(t: T.State)
    requires t.kind.None? ==> t.buf == ""
    ensures T.FlushText(t).kind.None? && T.FlushText(t).buf == ""
  {
  }

  lemma CallsKeepRun(t: T.State, fields: ToolFields, now: int)
    ensures T.HandleToolCall(t, fields, now).kind == t.kind && T.HandleToolCall(t, fields, now).buf == t.buf
    ensures T.HandleToolCallUpdate(t, fields, now).kind == t.kind && T.HandleToolCallUpdate(t, fields, now).buf == t.buf
  {
    hide Render, MergeUpdate, FromAnnounce, ReplaceItem;
  }

  lemma ClosesFlushed(e: E.State, f: Frame)
    requires EffectOf(f).Closes?
    ensures E.Ingest(E.FlushText(e, f.now), f) == E.Ingest(e, f)
  {
    hide E.HandleToolCall, E.HandleToolCallUpdate, T.Classify;
  }

  /** A frame with nothing to say. */
  lemma IdleNear(e: E.State, t: T.State, m: Mark, f: Frame)
    requires Near(e, t, m) && EffectOf(f).NoEffect?
    requires f.isSessionUpdate && f.update.Some? && f.update.value.TextChunk? ==> ReadAlike(f.update.value.content)
    ensures Near(E.Ingest(e, f), T.Ingest(t, f), m)
  {
    hide Same, View, Count;
    IdleSettled(e, t, f);
    if m.Open? && m.cut {
      IngestSame(E.FlushText(e, 0), Settled(t), f);
    } else {
      IngestSame(e, Settled(t), f);
    }
  }

  lemma IdleSettled(e: E.State, t: T.State, f: Frame)
    requires EffectOf(f).NoEffect?
    requires f.isSessionUpdate && f.update.Some? && f.update.value.TextChunk? ==> ReadAlike(f.update.value.content)
    ensures f.isSessionUpdate && f.update.Some? && f.update.value.TextChunk? ==> Agrees(f.update.value.content)
    ensures T.Ingest(Settled(t), f) == Settled(T.Ingest(t, f))
    ensures E.Ingest(E.FlushText(e, 0), f) == E.FlushText(E.Ingest(e, f), 0)
    ensures E.Ingest(e, f).run == e.run
  {
    hide T.Classify, E.PluckText;
  }

  /** An empty chunk: nothing for live, the end of a run of the other kind for batch. */
  lemma EmptyNear(e: E.State, t: T.State, m: Mark, kind: TextKind, content: Option<ContentBlock>, now: int)
    requires Near(e, t, m) && T.Classify(content) == T.Text("") && E.PluckText(content) == ""
    requires t.kind.None? ==> t.buf == ""
    ensures Near(E.HandleText(e, kind, content, now), T.AppendText(t, kind, content), NextMark(m, Says(kind, "")))
  {
    hide Same, T.Classify, E.PluckText, E.FlushText;
    SameWhen(if m.Open? && m.cut then E.FlushText(e, 0) else e, Settled(t));
    assert t.buf + "" == t.buf;
    if m.Open? && !m.cut && m.kind != kind {
      FlushSame(e, Settled(t), 0);
    }
    FlushedNoRun(e);
  }

  lemma FlushedNoRun(e: E.State)
    ensures E.FlushText(e, 0).run.None?
  {
  }

  /** Text, unless it goes on with an interrupted run. */
  lemma TextNear(e: E.State, t: T.State, m: Mark, kind: TextKind, content: Option<ContentBlock>, now: int)
    requires Near(e, t, m) && T.Classify(content).Text? && T.Classify(content).text == E.PluckText(content) != ""
    requires m != Open(kind, true) && (t.kind.None? ==> t.buf == "")
    ensures Near(E.HandleText(e, kind, content, now), T.AppendText(t, kind, content), Open(kind, false))
  {
    var text := E.PluckText(content);
    hide Same, T.Classify, E.PluckText, View, Count;
    SameWhen(if m.Open? && m.cut then E.FlushText(e, 0) else e, Settled(t));
    FlushedNoRun(e);
    if m.Open? && !m.cut {
      TextSame(e, t, kind, content, now);
      SameWhen(E.HandleText(e, kind, content, now), T.AppendText(t, kind, content));
    } else {
      var base := if m.NoRun? then e else E.FlushText(e, now);
      if m.Open? {
        SameAnyClock(e, Settled(t), 0, now);
      }
      ExtendSame(base, Settled(t), kind, text, now);
      assert "" + text == text;
      assert T.AppendText(t, kind, content) == Settled(t).(kind := Some(kind), buf := text);
      assert E.HandleText(e, kind, content, now) == E.ExtendRun(E.OpenRun(base, kind, now), text);
      SameWhen(E.HandleText(e, kind, content, now), T.AppendText(t, kind, content));
    }
  }

  lemma {:induction false} RunNear(frames: seq<Frame>)
    requires AllReadAlike(frames) && Splits(frames) == 0
    ensures Near(E.Run(frames), T.Run(T.INITIAL, frames), MarkOf(frames))
    ensures T.Run(T.INITIAL, frames).kind.None? ==> T.Run(T.INITIAL, frames).buf == ""
  {
    hide ReadAlike, E.Ingest, T.Ingest, EffectOf, Near, NextMark;
    if frames == [] {
      NothingNear();
    } else {
      var front, last := frames[..|frames| - 1], frames[|frames| - 1];
      assert last in frames && forall f :: f in front ==> f in frames;
      RunNear(front);
      NearStep(E.Run(front), T.Run(T.INITIAL, front), MarkOf(front), last);
    }
  }

  lemma NothingNear()
    ensures Near(E.INITIAL, T.INITIAL, NoRun)
  {
  }

  lemma NearStep(e: E.State, t: T.State, m: Mark, f: Frame)
    requires Near(e, t, m) && (t.kind.None? ==> t.buf == "")
    requires f.isSessionUpdate && f.update.Some? && f.update.value.TextChunk? ==> ReadAlike(f.update.value.content)
    requires EffectOf(f).Says? && EffectOf(f).text != "" ==> m != Open(EffectOf(f).kind, true)
    ensures Near(E.Ingest(e, f), T.Ingest(t, f), NextMark(m, EffectOf(f)))
    ensures T.Ingest(t, f).kind.None? ==> T.Ingest(t, f).buf == ""
  {
    BufferNeedsRun(t, f);
    hide Near, E.HandleText, T.AppendText, T.Classify, E.PluckText;
    match EffectOf(f)
    case NoEffect => IdleNear(e, t, m, f);
    case Closes => ClosesNear(e, t, m, f);
    case Says(kind, text) =>
      if text == "" {
        EmptyNear(e, t, m, kind, f.update.value.content, f.now);
      } else {
        TextNear(e, t, m, kind, f.update.value.content, f.now);
      }
  }

  lemma BufferNeedsRun(t: T.State, f: Frame)
    requires t.kind.None? ==> t.buf == ""
    ensures T.Ingest(t, f).kind.None? ==> T.Ingest(t, f).buf == ""
  {
    hide T.Classify, T.HandleToolCall, T.HandleToolCallUpdate, T.UserText;
    if f.update.Some? && (f.update.value.ToolCall? || f.update.value.ToolCallUpdate?) {
      CallsKeepRun(T.FlushText(t), f.update.value.fields, f.now);
    }
  }

  /** Without a split the items agree. */
  lemma UnsplitAgrees(frames: seq<Frame>, now: int)
    requires AllReadAlike(frames) && Splits(frames) == 0
    ensures E.FlushText(E.Run(frames), now).items == View(false, T.Translate(frames))
  {
    RunNear(frames);
    hide E.Run, T.Run, MarkOf, View, Count, ShapedIds, SameCalls, Same, E.FlushText, T.FlushText;
    var e, t, m := E.Run(frames), T.Run(T.INITIAL, frames), MarkOf(frames);
    FlushSettled(t);
    FlushedNoRun(e);
    if m.Open? && m.cut {
      SameAnyClock(e, Settled(t), 0, now);
      FlushedAnyClock(e, now);
      SameWhen(E.FlushText(e, now), Settled(t));
      SameItems(E.FlushText(e, now), Settled(t));
      NothingToFlush(Settled(t));
    } else {
      FlushSame(e, Settled(t), now);
      SameItems(E.FlushText(e, now), T.FlushText(Settled(t)));
    }
  }

  lemma SameItems(e: E.State, t: T.State)
    requires Same(e, t)
    ensures e.items == View(false, t.items)
  {
    hide View, Count, ShapedIds, SameCalls;
  }

  lemma FlushedAnyClock(e: E.State, now: int)
    ensures E.FlushText(e, now).run.None?
  {
  }

  // ---- Each split makes one text item more ----

  ghost predicate TidyLive(e: E.State) {
    ShapedIds(e.items) && forall c :: c in e.calls ==> e.calls[c].call.itemId.ToolId?
  }

  ghost predicate TidyBatch(t: T.State) {
    ShapedIds(t.items) && forall c :: c in t.calls ==> t.calls[c].itemId.ToolId?
  }

  /** How many text items there are, the open run included. */
  function LiveTexts(e: E.State): nat {
    Count(false, e.items) + if e.run.Some? then 1 else 0
  }

  function BatchTexts(t: T.State): nat {
    Count(false, t.items) + if t.kind.Some? && t.buf != "" then 1 else 0
  }

  lemma PushCounts(items: seq<Item>, item: Item)
    requires ShapedIds(items) && (item.id.ToolId? <==> IsToolItem(item)) && !item.UserMessage?
    ensures ShapedIds(items + [item])
    ensures Count(false, items + [item]) == Count(false, items) + if IsText(item) then 1 else 0
  {
    ViewAppend(false, items, item);
    ShapedAppend(items, item);
  }

  lemma ReplaceCounts(items: seq<Item>, item: Item)
    requires ShapedIds(items) && IsToolItem(item) && item.id.ToolId?
    ensures ShapedIds(ReplaceItem(items, item.id, item))
    ensures Count(false, ReplaceItem(items, item.id, item)) == Count(false, items)
  {
    ReplaceInView(false, items, item.id.call, item);
  }

  lemma LiveCallCounts(e: E.State, fields: ToolFields, now: int)
    requires TidyLive(e)
    ensures var n := E.HandleToolCall(e, fields, now); TidyLive(n) && LiveTexts(n) == LiveTexts(e) && n.run == e.run
  {
    hide Render, Count, ShapedIds, FromAnnounce;
    AnnouncedId(fields, now);
    PushCounts(e.items, Render(FromAnnounce(fields, now)));
  }

  lemma LiveMergeCounts(e: E.State, id: string, fields: ToolFields, now: int)
    requires TidyLive(e) && id in e.calls
    ensures var n := E.MergeInto(e, id, fields, now); TidyLive(n) && LiveTexts(n) == LiveTexts(e) && n.run == e.run
  {
    hide Render, Count, ShapedIds, MergeUpdate, IsTerminal, ReplaceItem;
    MergeKeepsId(e.calls[id].call, fields, now);
    ReplaceCounts(e.items, Render(MergeUpdate(e.calls[id].call, fields, now)));
  }

  lemma LiveUpdateCounts(e: E.State, fields: ToolFields, now: int)
    requires TidyLive(e)
    ensures var n := E.HandleToolCallUpdate(e, fields, now);
            TidyLive(n) && LiveTexts(n) == LiveTexts(e) && n.run == e.run
  {
    hide Render, E.MergeInto, TidyLive, LiveTexts, FromAnnounce;
    LiveCallCounts(e, fields, now);
    if ValueOr(fields.callId, "") != "" {
      var id := fields.callId.value;
      LiveMergeCounts(if id in e.calls then e else E.HandleToolCall(e, fields, now), id, fields, now);
    }
  }

  lemma BatchCallCounts(t: T.State, fields: ToolFields, now: int)
    requires TidyBatch(t)
    ensures var n := T.HandleToolCall(t, fields, now);
            TidyBatch(n) && BatchTexts(n) == BatchTexts(t) && n.kind == t.kind && n.buf == t.buf
  {
    hide Render, Count, ShapedIds, FromAnnounce;
    AnnouncedId(fields, now);
    PushCounts(t.items, Render(FromAnnounce(fields, now)));
  }

  lemma BatchMergeCounts(t: T.State, id: string, fields: ToolFields, now: int)
    requires TidyBatch(t) && id in t.calls
    ensures var n := T.MergeInto(t, id, fields, now);
            TidyBatch(n) && BatchTexts(n) == BatchTexts(t) && n.kind == t.kind && n.buf == t.buf
  {
    hide Render, Count, ShapedIds, MergeUpdate, ReplaceItem;
    MergeKeepsId(t.calls[id], fields, now);
    ReplaceCounts(t.items, Render(MergeUpdate(t.calls[id], fields, now)));
  }

  lemma BatchUpdateCounts(t: T.State, fields: ToolFields, now: int)
    requires TidyBatch(t)
    ensures var n := T.HandleToolCallUpdate(t, fields, now);
            TidyBatch(n) && BatchTexts(n) == BatchTexts(t) && n.kind == t.kind && n.buf == t.buf
  {
    hide Render, T.MergeInto, TidyBatch, BatchTexts, FromAnnounce;
    BatchCallCounts(t, fields, now);
    if ValueOr(fields.callId, "") != "" {
      var id := fields.callId.value;
      BatchMergeCounts(if id in t.calls then t else T.HandleToolCall(t, fields, now), id, fields, now);
    }
  }

  lemma LiveFlushCounts(e: E.State, now: int)
    requires TidyLive(e)
    ensures var n := E.FlushText(e, now);
            TidyLive(n) && LiveTexts(n) == LiveTexts(e) && n.run.None? && n.items == E.FlushText(e, 0).items
  {
    hide Count, ShapedIds;
    if e.run.Some? {
      PushCounts(e.items, E.RunItem(e.run.value));
    }
  }

  lemma BatchFlushCounts(t: T.State)
    requires TidyBatch(t)
    ensures var n := T.FlushText(t); TidyBatch(n) && BatchTexts(n) == BatchTexts(t) && n.kind.None?
  {
    hide Count, ShapedIds;
    if t.kind.Some? && t.buf != "" {
      PushCounts(t.items, TextItem(t.kind.value, t.counter, t.buf));
    }
  }

  /** The run each machine has open is the one the mark says. */
  ghost predicate Marked(e: E.State, t: T.State, m: Mark) {
    match m
    case NoRun => e.run.None? && t.buf == ""
    case Open(kind, cut) =>
      && e.run.Some? && e.run.value.kind == kind
      && (if cut then t.buf == "" else t.kind == Some(kind) && t.buf != "")
  }

  /** Live text opens a run of its kind unless one is open. */
  lemma LiveTextCounts(e: E.State, kind: TextKind, content: Option<ContentBlock>, now: int)
    requires TidyLive(e)
    ensures var text, e' := E.PluckText(content), E.HandleText(e, kind, content, now);
            && TidyLive(e')
            && (text == "" ==> e' == e)
            && (text != "" ==> e'.run.Some? && e'.run.value.kind == kind)
            && LiveTexts(e') == LiveTexts(e) + if text != "" && !(e.run.Some? && e.run.value.kind == kind) then 1 else 0
  {
    hide E.PluckText, Count, ShapedIds;
    LiveFlushCounts(e, now);
  }

  /** Batch text opens a run of its kind unless one with text is open. */
  lemma BatchTextCounts(t: T.State, kind: TextKind, content: Option<ContentBlock>)
    requires TidyBatch(t) && T.Classify(content).Text? && (t.kind.None? ==> t.buf == "")
    ensures var text, t' := T.Classify(content).text, T.AppendText(t, kind, content);
            var open := t.kind == Some(kind) && t.buf != "";
            && TidyBatch(t') && t'.kind == Some(kind)
            && (t'.buf != "" <==> text != "" || open)
            && BatchTexts(t') == BatchTexts(t) + if text != "" && !open then 1 else 0
  {
    hide T.Classify, Count, ShapedIds, T.FlushText;
    var text := T.Classify(content).text;
    BatchFlushCounts(t);
    FlushedBuf(t);
    assert |t.buf + text| == |t.buf| + |text| && |"" + text| == |text|;
  }

  lemma TextCounts(e: E.State, t: T.State, m: Mark, kind: TextKind, content: Option<ContentBlock>, now: int)
    requires Marked(e, t, m) && TidyLive(e) && TidyBatch(t) && (t.kind.None? ==> t.buf == "")
    requires T.Classify(content).Text? && E.PluckText(content) == T.Classify(content).text
    ensures var text := T.Classify(content).text;
            var e', t' := E.HandleText(e, kind, content, now), T.AppendText(t, kind, content);
            && Marked(e', t', NextMark(m, Says(kind, text))) && TidyLive(e') && TidyBatch(t')
            && BatchTexts(t') + LiveTexts(e) ==
               BatchTexts(t) + LiveTexts(e') + (if text != "" && m == Open(kind, true) then 1 else 0)
  {
    hide T.Classify, E.PluckText, TidyLive, TidyBatch, LiveTexts, BatchTexts, E.HandleText, T.AppendText;
    LiveTextCounts(e, kind, content, now);
    BatchTextCounts(t, kind, content);
  }

  lemma FlushedBuf(t: T.State)
    ensures T.FlushText(t).buf == (if t.kind.Some? then "" else t.buf)
    ensures t.kind.None? ==> T.FlushText(t) == t
    ensures t.buf == "" ==> T.FlushText(t).items == t.items && T.FlushText(t).calls == t.calls
  {
  }

  lemma ClosesCounts(e: E.State, t: T.State, f: Frame)
    requires EffectOf(f).Closes? && TidyLive(e) && TidyBatch(t) && (t.kind.None? ==> t.buf == "")
    ensures var e', t' := E.Ingest(e, f), T.Ingest(t, f);
            && e'.run.None? && t'.buf == "" && TidyLive(e') && TidyBatch(t')
            && LiveTexts(e') == LiveTexts(e) && BatchTexts(t') == BatchTexts(t)
  {
    hide T.Classify, T.UserText, E.FlushText, T.FlushText, E.HandleToolCall, E.HandleToolCallUpdate, T.HandleToolCall,
         T.HandleToolCallUpdate, Count, ShapedIds;
    LiveFlushCounts(e, f.now);
    BatchFlushCounts(t);
    FlushedBuf(t);
    var t0 := T.FlushText(t);
    match f.update.value
    case UserChunk(content) =>
      var item := UserMessage(UserId(t0.counter), T.UserText(content));
      ViewAppend(false, t0.items, item);
      ShapedAppend(t0.items, item);
    case ToolCall(fields) =>
      LiveCallCounts(E.FlushText(e, f.now), fields, f.now);
      BatchCallCounts(t0, fields, f.now);
    case ToolCallUpdate(fields) =>
      LiveUpdateCounts(E.FlushText(e, f.now), fields, f.now);
      BatchUpdateCounts(t0, fields, f.now);
    case Plan(_) =>
  }

  lemma IdleCounts(e: E.State, t: T.State, m: Mark, f: Frame)
    requires EffectOf(f).NoEffect? && Marked(e, t, m) && TidyLive(e) && TidyBatch(t)
    requires f.isSessionUpdate && f.update.Some? && f.update.value.TextChunk? ==> ReadAlike(f.update.value.content)
    ensures var e', t' := E.Ingest(e, f), T.Ingest(t, f);
            && Marked(e', t', m) && TidyLive(e') && TidyBatch(t')
            && LiveTexts(e') == LiveTexts(e) && BatchTexts(t') == BatchTexts(t)
  {
    hide T.Classify, E.PluckText, Count, ShapedIds;
  }

  lemma CountStep(e: E.State, t: T.State, m: Mark, f: Frame, splits: nat)
    requires Marked(e, t, m) && TidyLive(e) && TidyBatch(t) && (t.kind.None? ==> t.buf == "")
    requires f.isSessionUpdate && f.update.Some? && f.update.value.TextChunk? ==> ReadAlike(f.update.value.content)
    requires BatchTexts(t) == LiveTexts(e) + splits
    ensures var e', t', effect := E.Ingest(e, f), T.Ingest(t, f), EffectOf(f);
            && Marked(e', t', NextMark(m, effect)) && TidyLive(e') && TidyBatch(t')
            && (t'.kind.None? ==> t'.buf == "")
            && BatchTexts(t') == LiveTexts(e') + splits
                                 + (if effect.Says? && effect.text != "" && m == Open(effect.kind, true) then 1 else 0)
  {
    BufferNeedsRun(t, f);
    hide Marked, TidyLive, TidyBatch, LiveTexts, BatchTexts, E.HandleText, T.AppendText, T.Classify, E.PluckText;
    match EffectOf(f)
    case NoEffect => IdleCounts(e, t, m, f);
    case Closes =>
      ClosesCounts(e, t, f);
      MarkedNone(E.Ingest(e, f), T.Ingest(t, f));
    case Says(kind, _) => TextCounts(e, t, m, kind, f.update.value.content, f.now);
  }

  lemma MarkedNone(e: E.State, t: T.State)
    requires e.run.None? && t.buf == ""
    ensures Marked(e, t, NoRun)
  {
  }

  lemma {:induction false} RunCounts(frames: seq<Frame>)
    requires AllReadAlike(frames)
    ensures var e, t := E.Run(frames), T.Run(T.INITIAL, frames);
            && Marked(e, t, MarkOf(frames)) && TidyLive(e) && TidyBatch(t) && (t.kind.None? ==> t.buf == "")
            && BatchTexts(t) == LiveTexts(e) + Splits(frames)
  {
    hide ReadAlike, E.Ingest, T.Ingest, EffectOf, NextMark, Marked, TidyLive, TidyBatch, LiveTexts, BatchTexts;
    if frames == [] {
      NothingCounts();
    } else {
      var front, last := frames[..|frames| - 1], frames[|frames| - 1];
      assert last in frames && forall f :: f in front ==> f in frames;
      RunCounts(front);
      CountStep(E.Run(front), T.Run(T.INITIAL, front), MarkOf(front), last, Splits(front));
    }
  }

  lemma NothingCounts()
    ensures Marked(E.INITIAL, T.INITIAL, NoRun) && TidyLive(E.INITIAL) && TidyBatch(T.INITIAL)
    ensures BatchTexts(T.INITIAL) == 0 == LiveTexts(E.INITIAL)
  {
  }

  /** Batch makes one text item more than live for each split. */
  lemma OneItemPerSplit(frames: seq<Frame>, now: int)
    requires AllReadAlike(frames)
    ensures Count(false, T.Translate(frames)) == Count(false, E.FlushText(E.Run(frames), now).items) + Splits(frames)
  {
    hide E.Run, T.Run, Marked, MarkOf, Splits, Count, ShapedIds, E.FlushText, T.FlushText, TidyLive, TidyBatch;
    RunCounts(frames);
    LiveFlushCounts(E.Run(frames), now);
    BatchFlushCounts(T.Run(T.INITIAL, frames));
    FlushedBuf(T.Run(T.INITIAL, frames));
  }

  /**
   On a stream whose chunks are read alike, empty ones included, live and batch items agree if
   and only if nowhere an empty chunk of the other kind stands inside a run of text.
   */
  lemma AgreeIffUnsplit(frames: seq<Frame>, now: int)
    requires AllReadAlike(frames)
    ensures E.FlushText(E.Run(frames), now).items == View(false, T.Translate(frames))
            <==> forall i: nat, j: nat, l: nat :: !SplitAt(frames, i, j, l)
  {
    hide E.Run, E.FlushText, T.Translate, Splits, SplitAt, View, Count;
    SplitsIff(frames);
    OneItemPerSplit(frames, now);
    ViewSize(false, T.Translate(frames));
    if Splits(frames) == 0 {
      UnsplitAgrees(frames, now);
    }
  }
}
