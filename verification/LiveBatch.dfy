/**
 The live emitter and the batch translator build the same items from the same frames:
 the emitter's items are the translator's without the user messages, with text items
 numbered in order, although one machine numbers a text run at its start and the other at
 its flush. Here every chunk is read alike by the two; each chunk they read differently has
 a stream that shows it (`DisagreementShows`), and `EmptyChunks` says of whole streams with
 such chunks when the items agree.
 */
module LiveBatch {
  import opened Common
  import opened Ids
  import opened AcpProtocol
  import opened ToolCalls
  import E = Emitter
  import T = Translator
  import opened ItemViews

  /** The two machines read the chunk alike: the same text, or nothing at all. */
  predicate Agrees(content: Option<ContentBlock>) {
    var live, batch := E.PluckText(content), T.Classify(content);
    if live == "" then batch == T.Nothing else batch == T.Text(live)
  }

  ghost predicate ChunksAgree(frames: seq<Frame>) {
    forall f :: f in frames && f.isSessionUpdate && f.update.Some? && f.update.value.TextChunk?
      ==> Agrees(f.update.value.content)
  }

  /** Non-empty plain text is read alike. */
  lemma PlainTextAgrees(content: ContentBlock)
    requires match content
             case Bare(s) => s != ""
             case Block(kind, text, _, _, _, _, _, _, _) =>
               ValueOr(kind, "text") == "text" && text.Some? && text.value != ""
    ensures Agrees(Some(content))
  {
  }

  predicate SameCalls(live: map<string, E.Inflight>, batch: map<string, CallState>) {
    && live.Keys == batch.Keys
    && forall c :: c in batch ==> live[c].call == batch[c] && batch[c].itemId == ToolId(c)
  }

  lemma SameCallsPut(live: map<string, E.Inflight>, batch: map<string, CallState>, id: string, inflight: E.Inflight)
    requires SameCalls(live, batch) && inflight.call.itemId == ToolId(id)
    ensures SameCalls(live[id := inflight], batch[id := inflight.call])
  {
  }

  ghost predicate Same(e: E.State, t: T.State) {
    && e.items == View(false, t.items) && ShapedIds(t.items)
    && SameCalls(e.calls, t.calls)
    && e.plan == t.plan && e.commands == t.commands
    && (t.kind.None? ==> t.buf == "")
    && e.run == (if t.kind.Some? then Some(E.TextRun(t.kind.value, Count(false, t.items), t.buf)) else None)
    && (t.kind.Some? ==> t.buf != "")
    && e.textSeq == Count(false, t.items) + if t.kind.Some? then 1 else 0
  }

  lemma FlushSame(e: E.State, t: T.State, now: int)
    requires Same(e, t)
    ensures Same(E.FlushText(e, now), T.FlushText(t))
    ensures E.FlushText(e, now).run.None? && T.FlushText(t).kind.None?
  {
    if t.kind.Some? {
      ViewAppend(false, t.items, TextItem(t.kind.value, t.counter, t.buf));
    }
  }

  /** Both machines take text for the run that is open, or open one for it. */
  lemma ExtendSame(e: E.State, t: T.State, kind: TextKind, text: string, now: int)
    requires Same(e, t) && text != "" && (t.kind.None? || t.kind == Some(kind))
    ensures Same(E.ExtendRun(E.OpenRun(e, kind, now), text), t.(kind := Some(kind), buf := t.buf + text))
  {
    hide View, Count, ShapedIds;
    assert t.kind.None? ==> t.buf + text == "" + text;
  }

  lemma TextSame(e: E.State, t: T.State, kind: TextKind, content: Option<ContentBlock>, now: int)
    requires Same(e, t) && Agrees(content)
    ensures Same(E.HandleText(e, kind, content, now), T.AppendText(t, kind, content))
  {
    SameRun(e, t);
    hide Same, T.Classify, E.PluckText, E.FlushText, T.FlushText, E.OpenRun, E.ExtendRun;
    var text := E.PluckText(content);
    if text != "" {
      if t.kind.Some? && t.kind != Some(kind) {
        FlushSame(e, t, now);
        ExtendSame(E.FlushText(e, now), T.FlushText(t), kind, text, now);
      } else {
        NothingToFlush(t);
        ExtendSame(e, t, kind, text, now);
      }
    }
  }

  lemma SameRun(e: E.State, t: T.State)
    requires Same(e, t)
    ensures e.run.Some? <==> t.kind.Some?
    ensures e.run.Some? ==> e.run.value.kind == t.kind.value
  {
    hide View, Count, ShapedIds;
  }

  lemma NothingToFlush(t: T.State)
    ensures t.kind.None? ==> T.FlushText(t) == t
  {
  }

  lemma ShapedAppend(items: seq<Item>, item: Item)
    requires ShapedIds(items) && (item.id.ToolId? <==> IsToolItem(item))
    ensures ShapedIds(items + [item])
  {
  }

  lemma UserSame(e: E.State, t: T.State, content: Option<ContentBlock>, now: int)
    requires Same(e, t)
    ensures Same(E.FlushText(e, now), T.HandleUser(t, content))
  {
    FlushSame(e, t, now);
    hide T.UserText, T.FlushText, E.FlushText, View, Count, ShapedIds, SameCalls;
    var u := T.FlushText(t);
    var item := UserMessage(UserId(u.counter), T.UserText(content));
    ViewAppend(false, u.items, item);
    ShapedAppend(u.items, item);
  }

  lemma AnnouncedId(fields: ToolFields, now: int)
    ensures FromAnnounce(fields, now).itemId == ToolId(ValueOr(fields.callId, ""))
  {
  }

  lemma ToolCallSame(e: E.State, t: T.State, fields: ToolFields, now: int)
    requires Same(e, t) && t.kind.None?
    ensures Same(E.HandleToolCall(e, fields, now), T.HandleToolCall(t, fields, now))
    ensures T.HandleToolCall(t, fields, now).kind.None?
  {
    hide Render, View, Count, ShapedIds, FromAnnounce, SameCalls;
    var call := FromAnnounce(fields, now);
    AnnouncedId(fields, now);
    ViewAppend(false, t.items, Render(call));
    ShapedAppend(t.items, Render(call));
    SameCallsPut(e.calls, t.calls, ValueOr(fields.callId, ""), E.Inflight(call, false));
  }

  lemma MergeKeepsId(call: CallState, fields: ToolFields, now: int)
    ensures MergeUpdate(call, fields, now).itemId == call.itemId
  {
  }

  lemma MergeSame(e: E.State, t: T.State, id: string, fields: ToolFields, now: int)
    requires Same(e, t) && t.kind.None? && id in t.calls
    ensures Same(E.MergeInto(e, id, fields, now), T.MergeInto(t, id, fields, now))
  {
    hide Render, ReplaceItem, IsTerminal, ShapedIds, View, Count, MergeUpdate;
    MergeKeepsId(t.calls[id], fields, now);
    var call := MergeUpdate(t.calls[id], fields, now);
    SameCallsPut(e.calls, t.calls, id, E.Inflight(call, e.calls[id].completed || IsTerminal(call.status)));
    ReplaceInView(false, t.items, id, Render(MergeUpdate(t.calls[id], fields, now)));
  }

  lemma UpdateSame(e: E.State, t: T.State, fields: ToolFields, now: int)
    requires Same(e, t) && t.kind.None?
    ensures Same(E.HandleToolCallUpdate(e, fields, now), T.HandleToolCallUpdate(t, fields, now))
  {
    hide E.MergeInto, T.MergeInto, View, Count, ShapedIds, Render;
    if ValueOr(fields.callId, "") != "" {
      var id := fields.callId.value;
      ToolCallSame(e, t, fields, now);
      if id in t.calls {
        MergeSame(e, t, id, fields, now);
      } else {
        MergeSame(E.HandleToolCall(e, fields, now), T.HandleToolCall(t, fields, now), id, fields, now);
      }
    }
  }

  lemma IngestSame(e: E.State, t: T.State, f: Frame)
    requires Same(e, t)
    requires f.isSessionUpdate && f.update.Some? && f.update.value.TextChunk? ==> Agrees(f.update.value.content)
    ensures Same(E.Ingest(e, f), T.Ingest(t, f))
  {
    hide E.FlushText, E.HandleText, E.HandleToolCall, E.HandleToolCallUpdate, T.FlushText, T.AppendText,
         T.HandleUser, T.HandleToolCall, T.HandleToolCallUpdate, View, Count, ShapedIds, Agrees;
    if f.isSessionUpdate && f.update.Some? {
      FlushSame(e, t, f.now);
      match f.update.value
      case UserChunk(content) => UserSame(e, t, content, f.now);
      case TextChunk(kind, content) => TextSame(e, t, kind, content, f.now);
      case ToolCall(fields) => ToolCallSame(E.FlushText(e, f.now), T.FlushText(t), fields, f.now);
      case ToolCallUpdate(fields) => UpdateSame(E.FlushText(e, f.now), T.FlushText(t), fields, f.now);
      case _ =>
    }
  }

  lemma {:induction false} RunSame(frames: seq<Frame>)
    requires ChunksAgree(frames)
    ensures Same(E.Run(frames), T.Run(T.INITIAL, frames))
  {
    hide E.Ingest, T.Ingest, Agrees;
    if frames != [] {
      var front := frames[..|frames| - 1];
      assert frames[|frames| - 1] in frames;
      RunSame(front);
      IngestSame(E.Run(front), T.Run(T.INITIAL, front), frames[|frames| - 1]);
    }
  }

  /** Main theorem: live and batch agree on every stream whose chunks are read alike, on the
      items as well as on the plan and the commands. */
  lemma LiveAgreesWithBatch(frames: seq<Frame>, now: int)
    requires ChunksAgree(frames)
    ensures var live, batch := E.FlushText(E.Run(frames), now), T.Output(T.Run(T.INITIAL, frames));
            && live.items == View(false, batch.items)
            && live.plan == batch.plan && live.commands == batch.commands
  {
    RunSame(frames);
    FlushSame(E.Run(frames), T.Run(T.INITIAL, frames), now);
  }

  /** In the batch translation the k-th item that has a number has the number k. */
  ghost predicate Numbered(t: T.State) {
    && View(true, t.items) == t.items && t.counter == Count(true, t.items)
    && ShapedIds(t.items)
    && forall c :: c in t.calls ==> t.calls[c].itemId == ToolId(c)
  }

  lemma PushNumbered(t: T.State, item: Item)
    requires Numbered(t) && Renumbered(item, t.counter) == item && (item.id.ToolId? <==> IsToolItem(item))
    ensures Numbered(T.PushItem(t, item).(counter := t.counter + if IsText(item) || item.UserMessage? then 1 else 0))
    ensures UserCount(T.PushItem(t, item).items) == UserCount(t.items) + if item.UserMessage? then 1 else 0
  {
    hide View, Count;
    ViewAppend(true, t.items, item);
  }

  lemma FlushNumbered(t: T.State)
    requires Numbered(t)
    ensures Numbered(T.FlushText(t)) && UserCount(T.FlushText(t).items) == UserCount(t.items)
  {
    hide View, Count, ShapedIds;
    if t.kind.Some? {
      PushNumbered(t, TextItem(t.kind.value, t.counter, t.buf));
    }
  }

  lemma UpdateNumbered(t: T.State, fields: ToolFields, now: int)
    requires Numbered(t)
    ensures Numbered(T.HandleToolCall(t, fields, now)) && Numbered(T.HandleToolCallUpdate(t, fields, now))
    ensures UserCount(T.HandleToolCall(t, fields, now).items) == UserCount(t.items)
    ensures UserCount(T.HandleToolCallUpdate(t, fields, now).items) == UserCount(t.items)
  {
    hide Render, ReplaceItem, View, Count, ShapedIds, UserCount;
    var item := Render(FromAnnounce(fields, now));
    ToolRenumbered(item, t.counter);
    PushNumbered(t, item);
    if ValueOr(fields.callId, "") != "" {
      var id := fields.callId.value;
      var u := if id in t.calls then t else T.HandleToolCall(t, fields, now);
      ReplaceInView(true, u.items, id, Render(MergeUpdate(u.calls[id], fields, now)));
    }
  }

  lemma ToolRenumbered(item: Item, n: nat)
    requires IsToolItem(item)
    ensures Renumbered(item, n) == item
  {
  }

  /** User chunks that carry text. */
  function UserTexts(frames: seq<Frame>): nat {
    if frames == [] then 0
    else UserTexts(frames[..|frames| - 1]) + if CarriesUserText(frames[|frames| - 1]) then 1 else 0
  }

  predicate CarriesUserText(f: Frame) {
    f.isSessionUpdate && f.update.Some? && f.update.value.UserChunk? && T.UserText(f.update.value.content) != ""
  }

  lemma IngestNumbered(t: T.State, f: Frame)
    requires Numbered(t)
    ensures Numbered(T.Ingest(t, f))
    ensures UserCount(T.Ingest(t, f).items) == UserCount(t.items) + if CarriesUserText(f) then 1 else 0
  {
    hide View, Count, ShapedIds, UserCount, T.FlushText, T.HandleToolCall, T.HandleToolCallUpdate, T.UserText;
    if f.isSessionUpdate && f.update.Some? {
      FlushNumbered(t);
      var u := T.FlushText(t);
      match f.update.value
      case UserChunk(content) => PushNumbered(u, UserMessage(UserId(u.counter), T.UserText(content)));
      case TextChunk(_, content) =>
        if T.Classify(content).Standalone? {
          PushNumbered(u, T.Classify(content).item);
        }
      case ToolCall(fields) => UpdateNumbered(u, fields, f.now);
      case ToolCallUpdate(fields) => UpdateNumbered(u, fields, f.now);
      case _ =>
    }
  }

  lemma {:induction false} RunNumbered(frames: seq<Frame>)
    ensures Numbered(T.Run(T.INITIAL, frames))
    ensures UserCount(T.Run(T.INITIAL, frames).items) == UserTexts(frames)
  {
    hide T.Ingest, CarriesUserText;
    if frames != [] {
      RunNumbered(frames[..|frames| - 1]);
      IngestNumbered(T.Run(T.INITIAL, frames[..|frames| - 1]), frames[|frames| - 1]);
    }
  }

  /** The numbers of a whole batch translation are 0, 1, 2, ... in item order, and it has one
      user message for each user chunk that carries text. */
  lemma TranslationNumbered(frames: seq<Frame>)
    ensures View(true, T.Translate(frames)) == T.Translate(frames)
    ensures UserCount(T.Translate(frames)) == UserTexts(frames)
  {
    hide View, UserCount, UserTexts, T.FlushText, T.Run;
    RunNumbered(frames);
    FlushNumbered(T.Run(T.INITIAL, frames));
  }

  /** Live and batch items are the very same, ids included, exactly when no user chunk of
      the stream carries text. */
  lemma SameIdsWithoutUsers(frames: seq<Frame>, now: int)
    requires ChunksAgree(frames)
    ensures E.FlushText(E.Run(frames), now).items == T.Translate(frames) <==> UserTexts(frames) == 0
  {
    hide View, UserCount, T.Run, T.FlushText, E.Run, E.FlushText, UserTexts;
    LiveAgreesWithBatch(frames, now);
    TranslationNumbered(frames);
    ViewSize(false, T.Translate(frames));
    if UserTexts(frames) == 0 {
      ViewOfUserless(T.Translate(frames));
    }
  }

  function TextFrame(kind: TextKind, content: Option<ContentBlock>): Frame {
    Frame(true, Some(TextChunk(kind, content)), 0)
  }

  /** A single chunk alone in its stream. */
  lemma RunOne(f: Frame)
    ensures E.Run([f]) == E.Ingest(E.INITIAL, f)
    ensures T.Run(T.INITIAL, [f]) == T.Ingest(T.INITIAL, f)
  {
    assert [f][..0] == [];
  }

  lemma RunThree(a: Frame, b: Frame, c: Frame)
    ensures E.Run([a, b, c]) == E.Ingest(E.Ingest(E.Ingest(E.INITIAL, a), b), c)
    ensures T.Run(T.INITIAL, [a, b, c]) == T.Ingest(T.Ingest(T.Ingest(T.INITIAL, a), b), c)
  {
    hide E.Ingest, T.Ingest;
    assert [a, b, c][..2] == [a, b] && [a, b][..1] == [a];
    RunOne(a);
  }

  /** An empty text chunk of the other kind between two chunks: batch cuts the run in two,
      live does not. */
  function EmptyChunkBetween(content: Option<ContentBlock>): seq<Frame> {
    [TextFrame(AgentText, Some(Bare("a"))), TextFrame(ReasoningText, content), TextFrame(AgentText, Some(Bare("b")))]
  }

  /** For every chunk that the two read differently there is a stream of it, alone or between two
      plain chunks, on which their items differ. */
  lemma DisagreementShows(content: Option<ContentBlock>)
    requires !Agrees(content)
    ensures exists frames | frames in {[TextFrame(AgentText, content)], EmptyChunkBetween(content)} ::
              E.FlushText(E.Run(frames), 0).items != View(false, T.Translate(frames))
  {
    if E.PluckText(content) == "" && T.Classify(content) == T.Text("") {
      var frames := EmptyChunkBetween(content);
      RunThree(frames[0], frames[1], frames[2]);
      EmptyChunkLive(content);
      EmptyChunkBatch(content);
      assert |E.FlushText(E.Run(frames), 0).items| == 1 && |View(false, T.Translate(frames))| == 2;
    } else {
      RunOne(TextFrame(AgentText, content));
      AloneDiffers(content);
    }
  }

  lemma LiveText(e: E.State, kind: TextKind, content: Option<ContentBlock>)
    ensures E.Ingest(e, TextFrame(kind, content)) == E.HandleText(e, kind, content, 0)
  {
  }

  lemma BatchText(t: T.State, kind: TextKind, content: Option<ContentBlock>, text: string)
    requires T.Classify(content) == T.Text(text)
    ensures T.Ingest(t, TextFrame(kind, content))
            == if t.kind == Some(kind) then t.(buf := t.buf + text)
               else T.FlushText(t).(kind := Some(kind), buf := T.FlushText(t).buf + text)
  {
    hide T.Classify;
  }

  lemma EmptyChunkLive(content: Option<ContentBlock>)
    requires E.PluckText(content) == ""
    ensures |E.FlushText(E.Run(EmptyChunkBetween(content)), 0).items| == 1
  {
    var frames := EmptyChunkBetween(content);
    RunThree(frames[0], frames[1], frames[2]);
    var s1 := E.Ingest(E.INITIAL, frames[0]);
    LiveText(E.INITIAL, AgentText, Some(Bare("a")));
    LiveText(s1, ReasoningText, content);
    LiveText(s1, AgentText, Some(Bare("b")));
    hide E.Ingest, E.Run;
    assert s1.run.Some? && s1.run.value.kind == AgentText && s1.items == [];
  }

  lemma EmptyChunkBatch(content: Option<ContentBlock>)
    requires T.Classify(content) == T.Text("")
    ensures |View(false, T.Translate(EmptyChunkBetween(content)))| == 2
  {
    hide T.Classify, T.Ingest, T.Run, View, Count;
    var frames := EmptyChunkBetween(content);
    RunThree(frames[0], frames[1], frames[2]);
    BareIsText("a");
    BareIsText("b");
    assert "" + "a" == "a" && "" + "b" == "b" && "" + "" == "";
    var one := AgentMessage(AgentId(0), "a");
    var s1 := T.INITIAL.(kind := Some(AgentText), buf := "a");
    BatchText(T.INITIAL, AgentText, Some(Bare("a")), "a");
    assert T.Ingest(T.INITIAL, frames[0]) == s1;
    var s2 := T.INITIAL.(items := [one], kind := Some(ReasoningText), counter := 1);
    BatchText(s1, ReasoningText, content, "");
    assert T.FlushText(s1) == T.INITIAL.(items := [one], counter := 1);
    assert T.Ingest(s1, frames[1]) == s2;
    var s3 := s2.(kind := Some(AgentText), buf := "b");
    BatchText(s2, AgentText, Some(Bare("b")), "b");
    assert T.Ingest(s2, frames[2]) == s3;
    assert T.Translate(frames) == [one] + [AgentMessage(AgentId(1), "b")];
    hide T.FlushText, T.Translate;
    ViewOfOne(one);
    ViewAppend(false, [one], AgentMessage(AgentId(1), "b"));
  }

  lemma ViewOfNothing()
    ensures View(false, []) == []
  {
  }

  lemma BareIsText(s: string)
    ensures T.Classify(Some(Bare(s))) == T.Text(s)
  {
  }

  lemma AloneLive(content: Option<ContentBlock>)
    ensures E.FlushText(E.Run([TextFrame(AgentText, content)]), 0).items
            == if E.PluckText(content) == "" then [] else [AgentMessage(AgentId(0), E.PluckText(content))]
  {
    hide E.PluckText;
    RunOne(TextFrame(AgentText, content));
    LiveText(E.INITIAL, AgentText, content);
    hide E.Ingest, E.Run;
    assert "" + E.PluckText(content) == E.PluckText(content);
  }

  lemma AloneBatch(content: Option<ContentBlock>)
    ensures T.Translate([TextFrame(AgentText, content)])
            == match T.Classify(content)
               case Nothing => []
               case Text(text) => if text == "" then [] else [AgentMessage(AgentId(0), text)]
               case Standalone(item) => [item]
  {
    hide T.Classify;
    RunOne(TextFrame(AgentText, content));
    if T.Classify(content).Text? {
      var text := T.Classify(content).text;
      BatchText(T.INITIAL, AgentText, content, text);
      assert "" + text == text;
    }
  }

  lemma AloneDiffers(content: Option<ContentBlock>)
    requires !Agrees(content) && !(E.PluckText(content) == "" && T.Classify(content) == T.Text(""))
    ensures E.FlushText(E.Run([TextFrame(AgentText, content)]), 0).items
            != View(false, T.Translate([TextFrame(AgentText, content)]))
  {
    hide T.Classify, E.PluckText, E.Run, T.Translate, E.FlushText, View, Count;
    AloneLive(content);
    AloneBatch(content);
    StandaloneIsImage(content);
    var batch := T.Classify(content);
    var item := if batch.Standalone? then batch.item else
                 AgentMessage(AgentId(0), if batch.Text? then batch.text else "");
    ViewOfOne(item);
    ViewOfNothing();
  }

  lemma StandaloneIsImage(content: Option<ContentBlock>)
    ensures T.Classify(content).Standalone? ==> T.Classify(content).item.ImageView?
  {
  }

  lemma ViewOfOne(item: Item)
    ensures item.UserMessage? || View(false, [item]) == [Renumbered(item, 0)]
  {
    ViewAppend(false, [], item);
    assert [] + [item] == [item];
  }
}
